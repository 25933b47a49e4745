/** The entities the instance-type provider works on: EC2 instance-type metadata,
    zonal offerings and the zone-annotated catalog records built from them. */
module Model {
  import opened Wrappers

  /** One GPU or accelerator device descriptor; only the manufacturer is ever inspected. */
  datatype Device = Device(manufacturer: string, count: nat)

  /** A non-empty device list (`GpuInfo.Gpus`, `InferenceAcceleratorInfo.Accelerators`).
      The source reads element 0 unconditionally, so the list is non-empty by construction. */
  datatype DeviceInfo = DeviceInfo(first: Device, rest: seq<Device>)

  /** The fields of `ec2.InstanceTypeInfo` the provider reads. */
  datatype InstanceTypeInfo = InstanceTypeInfo(
    instanceType: string,
    supportedArchitectures: seq<string>,
    supportedUsageClasses: seq<string>,
    bareMetal: bool,
    hasFpga: bool,                        // FpgaInfo != nil
    gpuInfo: Option<DeviceInfo>,
    inferenceAcceleratorInfo: Option<DeviceInfo>)

  /** A catalog record (`packing.Instance`): the metadata plus the zones it is offered in,
      one entry per matching offering, in the order the join appended them. */
  datatype Instance = Instance(info: InstanceTypeInfo, zones: seq<string>)
  {
    function Name(): string { info.instanceType }
  }

  /** One `ec2.InstanceTypeOffering` with location type "availability-zone". */
  datatype Offering = Offering(location: string, instanceType: string)

  /** The type names of a catalog, in catalog order. */
  function Names(cat: seq<Instance>): (r: seq<string>)
    ensures |r| == |cat|
    ensures forall i :: 0 <= i < |cat| ==> r[i] == cat[i].Name()
  {
    seq(|cat|, i requires 0 <= i < |cat| => cat[i].Name())
  }

  /** Appending a record appends its name. */
  lemma NamesSnoc(cat: seq<Instance>, x: Instance)
    ensures Names(cat + [x]) == Names(cat) + [x.Name()]
  {
    assert forall i :: 0 <= i < |cat| ==> (cat + [x])[i] == cat[i];
  }

  /** The metadata records of a catalog, in catalog order. */
  function Infos(cat: seq<Instance>): (r: seq<InstanceTypeInfo>)
    ensures |r| == |cat|
    ensures forall i :: 0 <= i < |cat| ==> r[i] == cat[i].info
  {
    seq(|cat|, i requires 0 <= i < |cat| => cat[i].info)
  }

  /** No two elements of `s` are equal. */
  ghost predicate Distinct<T>(s: seq<T>)
  {
    forall i, j :: 0 <= i < j < |s| ==> s[i] != s[j]
  }

  /** Dropping the last element keeps a sequence distinct, and that element occurs in no
      other position. */
  lemma DistinctSnoc<T>(s: seq<T>, x: T)
    requires Distinct(s + [x])
    ensures Distinct(s) && x !in s
  {
    var t := s + [x];
    forall i, j | 0 <= i < j < |s| ensures s[i] != s[j] {
      assert s[i] == t[i] && s[j] == t[j];
    }
    forall i | 0 <= i < |s| ensures s[i] != x {
      assert s[i] == t[i] && x == t[|s|];
    }
  }

  /** `a` is `b` with some elements removed, the rest kept in their relative order. */
  ghost predicate IsSubsequence<T>(a: seq<T>, b: seq<T>)
    decreases |b|
  {
    |a| == 0 ||
    (|b| > 0 &&
      ((a[|a| - 1] == b[|b| - 1] && IsSubsequence(a[..|a| - 1], b[..|b| - 1])) ||
       IsSubsequence(a, b[..|b| - 1])))
  }

  /** Growing `b` by one element `x` keeps `a` a subsequence of it, whether or not `x` is
      also appended to `a`. */
  lemma {:induction false} SubsequenceExtend<T>(a: seq<T>, b: seq<T>, x: T, keep: bool)
    requires IsSubsequence(a, b)
    ensures keep ==> IsSubsequence(a + [x], b + [x])
    ensures !keep ==> IsSubsequence(a, b + [x])
  {
    assert (a + [x])[..|a|] == a;
    assert (b + [x])[..|b|] == b;
  }

  /** Replacing the element just appended is appending the replacement. */
  lemma UpdateLast<T>(a: seq<T>, x: T, y: T)
    ensures (a + [x])[|a| := y] == a + [y]
  {
    assert forall i :: 0 <= i < |a| ==> (a + [x])[|a| := y][i] == a[i];
  }
}
