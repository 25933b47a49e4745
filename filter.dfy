/** The constraint filter (`filterFrom` and its six predicates): an order-preserving
    selection of the catalog records that satisfy every predicate. */
module Filter {
  import opened Wrappers
  import opened Model

  /** The resource keys the GPU and Neuron predicates look for (`resources.NvidiaGPU`,
      `resources.AWSNeuron`); every other key is irrelevant to the filter.
      `OtherResource(name)` stands only for a key that is neither of those two: a request
      for either is always written `NvidiaGPU` or `AWSNeuron`, never as `OtherResource` of
      the key's string (the `resources` package that defines the two strings is not part
      of this model). */
  datatype ResourceName = NvidiaGPU | AWSNeuron | OtherResource(name: string)

  /** What `filterFrom` reads from its `Constraints`, as its collaborators deliver it. */
  datatype Constraints = Constraints(
    instanceTypes: seq<string>,      // the allow-list; empty means "use the default heuristic"
    capacityType: string,            // Constraints.GetCapacityType(); "" means unset
    architecture: Option<string>,    // utils.NormalizeArchitecture(Constraints.Architecture)
    requests: set<ResourceName>)     // the keys of resources.RequestsForPods(Constraints.Pods...)

  /** The family prefixes of the default heuristic: standard, burstable, accelerators. */
  const DefaultPrefixes: seq<string> := ["m", "c", "r", "a", "t3", "t4", "p", "inf", "g"]

  /** `functional.HasAnyPrefix`: some prefix in the list begins `s`. */
  function HasAnyPrefix(s: string, prefixes: seq<string>): (b: bool)
    ensures b <==> exists p :: p in prefixes && p <= s
  {
    if |prefixes| == 0 then false
    else
      assert prefixes[0] in prefixes;
      assert forall p :: p in prefixes <==> p == prefixes[0] || p in prefixes[1..];
      prefixes[0] <= s || HasAnyPrefix(s, prefixes[1..])
  }

  /** `isDefaultInstanceType` (:176-184): general-purpose hardware only. */
  predicate IsDefaultInstanceType(it: Instance)
  {
    !it.info.hasFpga && !it.info.bareMetal && HasAnyPrefix(it.Name(), DefaultPrefixes)
  }

  /** `isInstanceTypeSupported` (:164-172). */
  predicate IsInstanceTypeSupported(allowed: seq<string>, it: Instance)
  {
    (|allowed| == 0 && IsDefaultInstanceType(it)) || (|allowed| != 0 && it.Name() in allowed)
  }

  /** `isArchitectureSupported` (:186-189). */
  predicate IsArchitectureSupported(architecture: Option<string>, it: Instance)
  {
    architecture.None? || architecture.value in it.info.supportedArchitectures
  }

  /** `isCapacityTypeSupported` (:191-194). */
  predicate IsCapacityTypeSupported(capacityType: string, it: Instance)
  {
    capacityType == "" || capacityType in it.info.supportedUsageClasses
  }

  /** `isNvidiaGPUSupported` (:196-201). */
  predicate IsNvidiaGPUSupported(requests: set<ResourceName>, it: Instance)
  {
    NvidiaGPU in requests ==> it.info.gpuInfo.Some? && it.info.gpuInfo.value.first.manufacturer == "NVIDIA"
  }

  /** `isAWSNeuronSupported` (:202-207). */
  predicate IsAWSNeuronSupported(requests: set<ResourceName>, it: Instance)
  {
    AWSNeuron in requests ==>
      it.info.inferenceAcceleratorInfo.Some? && it.info.inferenceAcceleratorInfo.value.first.manufacturer == "AWS"
  }

  /** `isZonesSupported` (:209-211); the requested zones are the keys of a Go map, so a set. */
  predicate IsZonesSupported(zones: set<string>, it: Instance)
  {
    |zones| == 0 || exists z :: z in it.zones && z in zones
  }

  /** The conjunction `filterFrom` tests (:152-157). */
  predicate Passes(c: Constraints, zones: set<string>, it: Instance)
  {
    IsInstanceTypeSupported(c.instanceTypes, it) &&
    IsCapacityTypeSupported(c.capacityType, it) &&
    IsArchitectureSupported(c.architecture, it) &&
    IsZonesSupported(zones, it) &&
    IsNvidiaGPUSupported(c.requests, it) &&
    IsAWSNeuronSupported(c.requests, it)
  }

  /** The records of `s` that pass, in their order in `s`. */
  function Select(s: seq<Instance>, c: Constraints, zones: set<string>): (r: seq<Instance>)
    ensures |r| <= |s|
    ensures forall x :: x in r <==> x in s && Passes(c, zones, x)
  {
    if |s| == 0 then []
    else
      var x := s[|s| - 1];
      Select(s[..|s| - 1], c, zones) + (if Passes(c, zones, x) then [x] else [])
  }

  /** `filterFrom` (:148-162): append each record that passes. */
  method FilterFrom(instanceTypes: seq<Instance>, c: Constraints, zones: set<string>) returns (filtered: seq<Instance>)
    ensures filtered == Select(instanceTypes, c, zones)
  {
    filtered := [];
    for i := 0 to |instanceTypes|
      invariant filtered == Select(instanceTypes[..i], c, zones)
    {
      var it := instanceTypes[i];
      assert instanceTypes[..i + 1][..i] == instanceTypes[..i];
      if Passes(c, zones, it) {
        filtered := filtered + [it];
      }
    }
    assert instanceTypes[..|instanceTypes|] == instanceTypes;
  }

  // ---------------------------------------------------------------------------
  // Lemmas

  /** Selecting from a concatenation is concatenating the selections. */
  lemma {:induction false} SelectAppend(a: seq<Instance>, b: seq<Instance>, c: Constraints, zones: set<string>)
    ensures Select(a + b, c, zones) == Select(a, c, zones) + Select(b, c, zones)
  {
    if |b| == 0 {
      assert a + b == a;
    } else {
      var b', x := b[..|b| - 1], b[|b| - 1];
      SelectAppend(a, b', c, zones);
      var tail := if Passes(c, zones, x) then [x] else [];
      assert (a + b)[..|a + b| - 1] == a + b';
      assert (a + b)[|a + b| - 1] == x;
      assert Select(a + b, c, zones) == Select(a + b', c, zones) + tail;
      assert Select(b, c, zones) == Select(b', c, zones) + tail;
    }
  }

  /** Filtering a filtered list changes nothing. */
  lemma {:induction false} SelectIdempotent(s: seq<Instance>, c: Constraints, zones: set<string>)
    ensures Select(Select(s, c, zones), c, zones) == Select(s, c, zones)
  {
    if |s| > 0 {
      var p, x := s[..|s| - 1], s[|s| - 1];
      SelectIdempotent(p, c, zones);
      var tail := if Passes(c, zones, x) then [x] else [];
      SelectAppend(Select(p, c, zones), tail, c, zones);
      assert Select(tail, c, zones) == tail by {
        if Passes(c, zones, x) { assert tail[..0] == []; }
      }
    }
  }

  /** The filter keeps records in their catalog order. */
  lemma {:induction false} SelectSubsequence(s: seq<Instance>, c: Constraints, zones: set<string>)
    ensures IsSubsequence(Select(s, c, zones), s)
  {
    if |s| > 0 {
      var p, x := s[..|s| - 1], s[|s| - 1];
      SelectSubsequence(p, c, zones);
      SubsequenceExtend(Select(p, c, zones), p, x, Passes(c, zones, x));
      assert s == p + [x];
      if Passes(c, zones, x) {
        assert Select(s, c, zones) == Select(p, c, zones) + [x];
      } else {
        assert Select(s, c, zones) == Select(p, c, zones);
      }
    }
  }

  /** Filtering a catalog with distinct names leaves the names distinct. */
  lemma {:induction false} SelectDistinct(s: seq<Instance>, c: Constraints, zones: set<string>)
    requires Distinct(Names(s))
    ensures Distinct(Names(Select(s, c, zones)))
  {
    if |s| > 0 {
      var n := |s| - 1;
      var p, x := s[..n], s[n];
      assert Distinct(Names(p)) by {
        forall i, j | 0 <= i < j < |p| ensures Names(p)[i] != Names(p)[j] {
          assert Names(s)[i] == Names(p)[i] && Names(s)[j] == Names(p)[j];
        }
      }
      SelectDistinct(p, c, zones);
      var q := Select(p, c, zones);
      if Passes(c, zones, x) {
        var r := q + [x];
        forall i, j | 0 <= i < j < |r| ensures Names(r)[i] != Names(r)[j] {
          if j < |q| {
            assert Names(r)[i] == Names(q)[i] && Names(r)[j] == Names(q)[j];
          } else {
            assert r[i] == q[i] && q[i] in q;
            var k :| 0 <= k < n && p[k] == q[i];
            assert Names(s)[k] != Names(s)[n];
          }
        }
      }
    }
  }

  /** The filter as a whole, rule by rule on the record's fields: a record is returned
      exactly when it is in the input and passes every rule. */
  lemma SelectMembership(s: seq<Instance>, c: Constraints, zones: set<string>, x: Instance)
    ensures x in Select(s, c, zones) <==>
      x in s &&
      (if |c.instanceTypes| == 0
       then !x.info.hasFpga && !x.info.bareMetal && exists p :: p in DefaultPrefixes && p <= x.Name()
       else x.Name() in c.instanceTypes) &&
      (c.capacityType == "" || c.capacityType in x.info.supportedUsageClasses) &&
      (c.architecture.None? || c.architecture.value in x.info.supportedArchitectures) &&
      (zones == {} || exists z :: z in x.zones && z in zones) &&
      (NvidiaGPU in c.requests ==> x.info.gpuInfo.Some? && x.info.gpuInfo.value.first.manufacturer == "NVIDIA") &&
      (AWSNeuron in c.requests ==>
        x.info.inferenceAcceleratorInfo.Some? && x.info.inferenceAcceleratorInfo.value.first.manufacturer == "AWS")
  {
  }

  /** Without an allow-list, nothing with an FPGA, nothing bare-metal and nothing outside
      the default families is ever returned, whatever the other constraints. */
  lemma DefaultsOnly(s: seq<Instance>, c: Constraints, zones: set<string>)
    requires |c.instanceTypes| == 0
    ensures forall x :: x in Select(s, c, zones) ==>
      !x.info.hasFpga && !x.info.bareMetal && exists p :: p in DefaultPrefixes && p <= x.Name()
  {
  }

  /** Without an allow-list, every selected name begins with a default family prefix. */
  lemma NamesHavePrefix(s: seq<Instance>, c: Constraints, zones: set<string>)
    requires |c.instanceTypes| == 0
    ensures forall i :: 0 <= i < |Select(s, c, zones)| ==> HasAnyPrefix(Names(Select(s, c, zones))[i], DefaultPrefixes)
  {
    var r := Select(s, c, zones);
    forall i | 0 <= i < |r| ensures HasAnyPrefix(Names(r)[i], DefaultPrefixes) {
      assert r[i] in r;
    }
  }

  /** An explicit allow-list bypasses the heuristic: a listed bare-metal or FPGA type passes
      the name rule, and an unlisted type never does. */
  lemma AllowListBypass(allowed: seq<string>, it: Instance)
    requires |allowed| != 0
    ensures IsInstanceTypeSupported(allowed, it) <==> it.Name() in allowed
  {
  }

  /** Unset constraints pass every record; an absent GPU or Neuron request passes every record. */
  lemma UnsetConstraintsPass(it: Instance, requests: set<ResourceName>)
    ensures IsCapacityTypeSupported("", it)
    ensures IsArchitectureSupported(None, it)
    ensures IsZonesSupported({}, it)
    ensures NvidiaGPU !in requests ==> IsNvidiaGPUSupported(requests, it)
    ensures AWSNeuron !in requests ==> IsAWSNeuronSupported(requests, it)
  {
  }

  /** Example: an arm64 request in us-east-1a over `m5.large` (x86_64,
      us-east-1a) and `t4g.micro` (arm64, us-east-1a and us-east-1b) yields `t4g.micro`. */
  lemma ArchitectureExample()
    ensures
      var m5 := Instance(InstanceTypeInfo("m5.large", ["x86_64"], ["on-demand", "spot"], false, false, None, None), ["us-east-1a"]);
      var t4g := Instance(InstanceTypeInfo("t4g.micro", ["arm64"], ["on-demand", "spot"], false, false, None, None), ["us-east-1a", "us-east-1b"]);
      Select([m5, t4g], Constraints([], "", Some("arm64"), {}), {"us-east-1a"}) == [t4g]
  {
    var m5 := Instance(InstanceTypeInfo("m5.large", ["x86_64"], ["on-demand", "spot"], false, false, None, None), ["us-east-1a"]);
    var t4g := Instance(InstanceTypeInfo("t4g.micro", ["arm64"], ["on-demand", "spot"], false, false, None, None), ["us-east-1a", "us-east-1b"]);
    var c, zones := Constraints([], "", Some("arm64"), {}), {"us-east-1a"};
    assert !IsArchitectureSupported(c.architecture, m5) by {
      assert "x86_64"[0] != "arm64"[0];
    }
    assert IsDefaultInstanceType(t4g) by {
      assert DefaultPrefixes[5] == "t4" <= t4g.Name();
    }
    assert IsZonesSupported(zones, t4g) by {
      assert t4g.zones[0] in zones;
    }
    assert [m5, t4g][..1] == [m5] && [m5][..0] == [];
    assert Select([m5], c, zones) == [];
  }
}
