/** The catalog builder (`getZonalInstanceTypes`): folds the zonal offerings into a
    zone -> type-names map and joins it with the instance-type metadata. */
module Catalog {
  import opened Wrappers
  import opened Model

  /** What the two paginated EC2 calls return, all pages concatenated, or their failure. */
  datatype Ec2Api = Ec2Api(
    instanceTypes: Result<seq<InstanceTypeInfo>>,   // DescribeInstanceTypes (hvm filter applied remotely)
    offerings: Result<seq<Offering>>)                // DescribeInstanceTypeOfferings (availability-zone)

  // ---------------------------------------------------------------------------
  // Offering fold

  /** The zones that occur in the offerings. */
  function Locations(offerings: seq<Offering>): set<string>
  {
    set o | o in offerings :: o.location
  }

  /** The type names offered in `zone`, in offering order and with repetitions. */
  function NamesAt(offerings: seq<Offering>, zone: string): seq<string>
  {
    if |offerings| == 0 then []
    else
      var o := offerings[|offerings| - 1];
      NamesAt(offerings[..|offerings| - 1], zone) + (if o.location == zone then [o.instanceType] else [])
  }

  /** The zone -> type-names map that the offering fold builds. */
  function Collected(offerings: seq<Offering>): map<string, seq<string>>
  {
    map z | z in Locations(offerings) :: NamesAt(offerings, z)
  }

  /** Go's map index: a missing zone reads as the nil (empty) slice. */
  function Lookup(zonal: map<string, seq<string>>, zone: string): seq<string>
  {
    if zone in zonal then zonal[zone] else []
  }

  /** The number of times `name` is listed in `zone` equals the number of offerings of
      `name` in `zone`. */
  lemma {:induction false} NamesAtCount(offerings: seq<Offering>, zone: string, name: string)
    ensures multiset(NamesAt(offerings, zone))[name] == multiset(offerings)[Offering(zone, name)]
  {
    if |offerings| > 0 {
      var p := offerings[..|offerings| - 1];
      NamesAtCount(p, zone, name);
      assert offerings == p + [offerings[|offerings| - 1]];
    }
  }

  /** A zone no offering mentions has no type names. */
  lemma {:induction false} NamesAtAbsent(offerings: seq<Offering>, zone: string)
    requires zone !in Locations(offerings)
    ensures NamesAt(offerings, zone) == []
  {
    if |offerings| > 0 {
      var p := offerings[..|offerings| - 1];
      assert Locations(p) <= Locations(offerings);
      NamesAtAbsent(p, zone);
    }
  }

  /** One more offering adds its zone to the zones. */
  lemma LocationsSnoc(offerings: seq<Offering>, o: Offering)
    ensures Locations(offerings + [o]) == Locations(offerings) + {o.location}
  {
    var s := offerings + [o];
    assert forall x :: x in s <==> x in offerings || x == o;
  }

  /** One more offering appends its type name to its own zone and to no other. */
  lemma NamesAtSnoc(offerings: seq<Offering>, o: Offering, zone: string)
    ensures NamesAt(offerings + [o], zone) ==
      NamesAt(offerings, zone) + (if o.location == zone then [o.instanceType] else [])
  {
    assert (offerings + [o])[..|offerings|] == offerings;
  }

  /** The folded map, read the Go way, gives each zone's names. */
  lemma CollectedLookup(offerings: seq<Offering>, zone: string)
    ensures Lookup(Collected(offerings), zone) == NamesAt(offerings, zone)
  {
    if zone !in Locations(offerings) {
      NamesAtAbsent(offerings, zone);
    }
  }

  /** Folding one more offering appends its type name to its zone's list. */
  lemma CollectedStep(offerings: seq<Offering>, o: Offering)
    ensures Collected(offerings + [o]) ==
      Collected(offerings)[o.location := Lookup(Collected(offerings), o.location) + [o.instanceType]]
  {
    var s := offerings + [o];
    var before := Collected(offerings);
    var after := before[o.location := Lookup(before, o.location) + [o.instanceType]];
    LocationsSnoc(offerings, o);
    assert Collected(s).Keys == after.Keys;
    forall z | z in after ensures Collected(s)[z] == after[z] {
      NamesAtSnoc(offerings, o, z);
      CollectedLookup(offerings, z);
    }
  }

  /** The offering fold (the page callback of DescribeInstanceTypeOfferings): appends each
      offering's type name to the list of its zone. */
  method CollectOfferings(offerings: seq<Offering>) returns (zonal: map<string, seq<string>>)
    ensures zonal == Collected(offerings)
    ensures forall z :: Lookup(zonal, z) == NamesAt(offerings, z)
  {
    zonal := map[];
    for i := 0 to |offerings|
      invariant zonal == Collected(offerings[..i])
    {
      var o := offerings[i];
      assert offerings[..i + 1] == offerings[..i] + [o];
      CollectedStep(offerings[..i], o);
      zonal := zonal[o.location := Lookup(zonal, o.location) + [o.instanceType]];
    }
    assert offerings[..|offerings|] == offerings;
    forall z ensures Lookup(zonal, z) == NamesAt(offerings, z) {
      CollectedLookup(offerings, z);
    }
  }

  // ---------------------------------------------------------------------------
  // Join specification

  /** `order` lists every key of `keys` exactly once: one possible Go map iteration order. */
  ghost predicate Enumerates(order: seq<string>, keys: set<string>)
  {
    Distinct(order) && (forall z :: z in order <==> z in keys)
  }

  /** One iteration order of the zone map per metadata record (Go picks a new one for
      every `range` statement). */
  ghost predicate ValidOrders(orders: seq<seq<string>>, infos: seq<InstanceTypeInfo>, zonal: map<string, seq<string>>)
  {
    |orders| == |infos| && forall i :: 0 <= i < |orders| ==> Enumerates(orders[i], zonal.Keys)
  }

  /** `zone` once for every listing of `name` in `names`. */
  function Occurrences(name: string, zone: string, names: seq<string>): seq<string>
  {
    if |names| == 0 then []
    else Occurrences(name, zone, names[..|names| - 1]) + (if names[|names| - 1] == name then [zone] else [])
  }

  /** The zones the join appends for `name` while iterating the zone map in `order`. */
  function ZonesFor(name: string, zonal: map<string, seq<string>>, order: seq<string>): seq<string>
  {
    if |order| == 0 then []
    else
      var z := order[|order| - 1];
      ZonesFor(name, zonal, order[..|order| - 1]) + Occurrences(name, z, Lookup(zonal, z))
  }

  /** The index of the first record named `name`, or -1. */
  function Find(cat: seq<Instance>, name: string): (k: int)
    ensures -1 <= k < |cat|
    ensures k >= 0 ==> cat[k].Name() == name && forall i :: 0 <= i < k ==> cat[i].Name() != name
    ensures k < 0 ==> forall i :: 0 <= i < |cat| ==> cat[i].Name() != name
  {
    if |cat| == 0 then -1
    else if cat[0].Name() == name then 0
    else
      var k := Find(cat[1..], name);
      if k < 0 then -1 else k + 1
  }

  /** One match of the join (:112-118): append `zone` to the record already named like
      `info`, or start a new record for `info` offered in `zone`. */
  function AddZone(cat: seq<Instance>, info: InstanceTypeInfo, zone: string): seq<Instance>
  {
    var k := Find(cat, info.instanceType);
    if k < 0 then cat + [Instance(info, [zone])]
    else cat[k := cat[k].(zones := cat[k].zones + [zone])]
  }

  /** The matches of `info`, one zone after the other. */
  function AddZones(cat: seq<Instance>, info: InstanceTypeInfo, zs: seq<string>): seq<Instance>
  {
    if |zs| == 0 then cat
    else AddZone(AddZones(cat, info, zs[..|zs| - 1]), info, zs[|zs| - 1])
  }

  /** The catalog the join builds from `infos`, given the zone order used for each record. */
  function Aggregate(infos: seq<InstanceTypeInfo>, zonal: map<string, seq<string>>, orders: seq<seq<string>>): seq<Instance>
    requires |orders| == |infos|
  {
    if |infos| == 0 then []
    else
      var n := |infos| - 1;
      AddZones(Aggregate(infos[..n], zonal, orders[..n]), infos[n], ZonesFor(infos[n].instanceType, zonal, orders[n]))
  }

  /** Reference definition: each metadata record that has at least one offering, in
      metadata order, with all its zones. */
  function Annotate(infos: seq<InstanceTypeInfo>, zonal: map<string, seq<string>>, orders: seq<seq<string>>): seq<Instance>
    requires |orders| == |infos|
  {
    if |infos| == 0 then []
    else
      var n := |infos| - 1;
      var zs := ZonesFor(infos[n].instanceType, zonal, orders[n]);
      Annotate(infos[..n], zonal, orders[..n]) + (if |zs| == 0 then [] else [Instance(infos[n], zs)])
  }

  /** The type names of the metadata records. */
  function TypeNames(infos: seq<InstanceTypeInfo>): (r: seq<string>)
    ensures |r| == |infos|
    ensures forall i :: 0 <= i < |infos| ==> r[i] == infos[i].instanceType
  {
    seq(|infos|, i requires 0 <= i < |infos| => infos[i].instanceType)
  }

  // ---------------------------------------------------------------------------
  // Lemmas about the join specification

  /** `Occurrences` holds `zone` as often as `names` lists `name`, and nothing else. */
  lemma {:induction false} OccurrencesCount(name: string, zone: string, names: seq<string>, z: string)
    ensures multiset(Occurrences(name, zone, names))[z] == if z == zone then multiset(names)[name] else 0
  {
    if |names| > 0 {
      var p := names[..|names| - 1];
      OccurrencesCount(name, zone, p, z);
      assert names == p + [names[|names| - 1]];
    }
  }

  /** Iterating distinct zones, the join appends each visited zone once per listing of `name`. */
  lemma {:induction false} ZonesForCount(name: string, zonal: map<string, seq<string>>, order: seq<string>, z: string)
    requires Distinct(order)
    ensures multiset(ZonesFor(name, zonal, order))[z] == if z in order then multiset(Lookup(zonal, z))[name] else 0
  {
    if |order| > 0 {
      var p, last := order[..|order| - 1], order[|order| - 1];
      assert order == p + [last];
      assert Distinct(p) by {
        forall i, j | 0 <= i < j < |p| ensures p[i] != p[j] { assert p[i] == order[i] && p[j] == order[j]; }
      }
      assert last !in p by {
        forall i | 0 <= i < |p| ensures p[i] != last { assert p[i] == order[i]; }
      }
      ZonesForCount(name, zonal, p, z);
      OccurrencesCount(name, last, Lookup(zonal, last), z);
    }
  }

  /** Whatever the iteration order, the zones of `name` are, as a multiset, every zone
      counted once per listing of `name` in it. */
  lemma ZonesForExact(name: string, zonal: map<string, seq<string>>, order: seq<string>, z: string)
    requires Enumerates(order, zonal.Keys)
    ensures multiset(ZonesFor(name, zonal, order))[z] == multiset(Lookup(zonal, z))[name]
  {
    ZonesForCount(name, zonal, order, z);
  }

  /** The join finds no zone for `name` exactly when no zone lists `name`. */
  lemma ZonesForEmptyIff(name: string, zonal: map<string, seq<string>>, order: seq<string>)
    requires Enumerates(order, zonal.Keys)
    ensures ZonesFor(name, zonal, order) == [] <==> forall z :: z in zonal ==> name !in zonal[z]
  {
    var zs := ZonesFor(name, zonal, order);
    forall z | z in zonal && zs == [] ensures name !in zonal[z] {
      ZonesForExact(name, zonal, order, z);
    }
    if zs != [] {
      ZonesForExact(name, zonal, order, zs[0]);
      assert zs[0] in multiset(zs);
      assert zs[0] in zonal && name in zonal[zs[0]];
    }
  }

  /** One match keeps the record names distinct and adds at most the matched name. */
  lemma AddZoneNames(cat: seq<Instance>, info: InstanceTypeInfo, zone: string)
    requires Distinct(Names(cat))
    ensures Distinct(Names(AddZone(cat, info, zone)))
    ensures forall m :: m in Names(AddZone(cat, info, zone)) <==> m in Names(cat) || m == info.instanceType
  {
    var k := Find(cat, info.instanceType);
    var r := AddZone(cat, info, zone);
    if k < 0 {
      assert forall i :: 0 <= i < |cat| ==> Names(r)[i] == Names(cat)[i];
      assert Names(r) == Names(cat) + [info.instanceType];
    } else {
      assert Names(r) == Names(cat);
    }
  }

  /** The matches of one metadata record keep the record names distinct and add at most its name. */
  lemma {:induction false} AddZonesNames(cat: seq<Instance>, info: InstanceTypeInfo, zs: seq<string>)
    requires Distinct(Names(cat))
    ensures Distinct(Names(AddZones(cat, info, zs)))
    ensures forall m :: m in Names(AddZones(cat, info, zs)) <==> m in Names(cat) || (|zs| > 0 && m == info.instanceType)
  {
    if |zs| > 0 {
      AddZonesNames(cat, info, zs[..|zs| - 1]);
      AddZoneNames(AddZones(cat, info, zs[..|zs| - 1]), info, zs[|zs| - 1]);
    }
  }

  /** A name outside `Names(cat)` is the name of no record. */
  lemma NotInNames(cat: seq<Instance>, name: string)
    requires name !in Names(cat)
    ensures forall i :: 0 <= i < |cat| ==> cat[i].Name() != name
  {
    forall i | 0 <= i < |cat| ensures cat[i].Name() != name {
      assert Names(cat)[i] == cat[i].Name();
    }
  }

  /** The lookup misses a name no record has. */
  lemma {:induction false} FindMissing(cat: seq<Instance>, name: string)
    requires forall i :: 0 <= i < |cat| ==> cat[i].Name() != name
    ensures Find(cat, name) < 0
  {
    if |cat| > 0 {
      FindMissing(cat[1..], name);
    }
  }

  /** The lookup finds a record appended under a name no earlier record has. */
  lemma {:induction false} FindAppended(cat: seq<Instance>, x: Instance)
    requires forall i :: 0 <= i < |cat| ==> cat[i].Name() != x.Name()
    ensures Find(cat + [x], x.Name()) == |cat|
  {
    if |cat| > 0 {
      assert (cat + [x])[1..] == cat[1..] + [x];
      FindAppended(cat[1..], x);
    }
  }

  /** With distinct names, the lookup finds the one record of that name. */
  lemma FindDistinct(cat: seq<Instance>, name: string, p: nat)
    requires Distinct(Names(cat))
    requires p < |cat| && cat[p].Name() == name
    ensures Find(cat, name) == p
  {
    assert forall i :: 0 <= i < p ==> cat[i].Name() != name by {
      forall i | 0 <= i < p ensures cat[i].Name() != name {
        assert Names(cat)[i] != Names(cat)[p];
      }
    }
  }

  /** For a name not yet in the catalog, the matches create exactly one new record, at the
      end, holding all the zones. */
  lemma {:induction false} AddZonesFresh(cat: seq<Instance>, info: InstanceTypeInfo, zs: seq<string>)
    requires info.instanceType !in Names(cat)
    ensures AddZones(cat, info, zs) == if |zs| == 0 then cat else cat + [Instance(info, zs)]
  {
    if |zs| > 0 {
      var s, z := zs[..|zs| - 1], zs[|zs| - 1];
      AddZonesFresh(cat, info, s);
      assert zs == s + [z];
      NotInNames(cat, info.instanceType);
      if |s| == 0 {
        FindMissing(cat, info.instanceType);
      } else {
        FindAppended(cat, Instance(info, s));
        UpdateLast(cat, Instance(info, s), Instance(info, zs));
      }
    }
  }

  /** The join never gives two records the same name. */
  lemma {:induction false} AggregateDistinct(infos: seq<InstanceTypeInfo>, zonal: map<string, seq<string>>, orders: seq<seq<string>>)
    requires |orders| == |infos|
    ensures Distinct(Names(Aggregate(infos, zonal, orders)))
  {
    if |infos| > 0 {
      var n := |infos| - 1;
      AggregateDistinct(infos[..n], zonal, orders[..n]);
      AddZonesNames(Aggregate(infos[..n], zonal, orders[..n]), infos[n], ZonesFor(infos[n].instanceType, zonal, orders[n]));
    }
  }

  /** Some metadata record named `m` found at least one zone. */
  ghost predicate Offered(infos: seq<InstanceTypeInfo>, zonal: map<string, seq<string>>, orders: seq<seq<string>>, m: string)
    requires |orders| == |infos|
  {
    exists i :: 0 <= i < |infos| && infos[i].instanceType == m && ZonesFor(m, zonal, orders[i]) != []
  }

  /** A name is offered by the metadata records exactly when it is offered by all but the
      last of them, or the last one has that name and found a zone. */
  lemma OfferedSnoc(infos: seq<InstanceTypeInfo>, zonal: map<string, seq<string>>, orders: seq<seq<string>>, m: string)
    requires |orders| == |infos| > 0
    ensures var n := |infos| - 1;
      Offered(infos, zonal, orders, m) <==>
      Offered(infos[..n], zonal, orders[..n], m) || (infos[n].instanceType == m && ZonesFor(m, zonal, orders[n]) != [])
  {
    var n := |infos| - 1;
    var pi, po := infos[..n], orders[..n];
    if Offered(pi, zonal, po, m) {
      var i :| 0 <= i < |pi| && pi[i].instanceType == m && ZonesFor(m, zonal, po[i]) != [];
      assert infos[i] == pi[i] && orders[i] == po[i];
    }
    if Offered(infos, zonal, orders, m) {
      var i :| 0 <= i < |infos| && infos[i].instanceType == m && ZonesFor(m, zonal, orders[i]) != [];
      if i < n {
        assert pi[i] == infos[i] && po[i] == orders[i];
      }
    }
  }

  /** A name has a record in the join exactly when some metadata record of that name found
      at least one zone. */
  lemma {:induction false} AggregateHas(infos: seq<InstanceTypeInfo>, zonal: map<string, seq<string>>, orders: seq<seq<string>>, m: string)
    requires |orders| == |infos|
    ensures m in Names(Aggregate(infos, zonal, orders)) <==> Offered(infos, zonal, orders, m)
  {
    if |infos| > 0 {
      var n := |infos| - 1;
      var pi, po := infos[..n], orders[..n];
      AggregateDistinct(pi, zonal, po);
      AggregateHas(pi, zonal, po, m);
      AddZonesNames(Aggregate(pi, zonal, po), infos[n], ZonesFor(infos[n].instanceType, zonal, orders[n]));
      OfferedSnoc(infos, zonal, orders, m);
    }
  }

  /** Distinct metadata names stay distinct without the last record, whose name none of the
      others has. */
  lemma TypeNamesPrefix(infos: seq<InstanceTypeInfo>)
    requires |infos| > 0 && Distinct(TypeNames(infos))
    ensures var n := |infos| - 1;
      Distinct(TypeNames(infos[..n])) &&
      forall i :: 0 <= i < n ==> infos[..n][i].instanceType != infos[n].instanceType
  {
    var n := |infos| - 1;
    var pi := infos[..n];
    DistinctSnoc(TypeNames(pi), infos[n].instanceType);
    forall i | 0 <= i < n ensures pi[i].instanceType != infos[n].instanceType {
      assert TypeNames(pi)[i] == pi[i].instanceType;
    }
  }

  /** With distinct metadata names the join is the reference annotation. */
  lemma {:induction false} AggregateIsAnnotate(infos: seq<InstanceTypeInfo>, zonal: map<string, seq<string>>, orders: seq<seq<string>>)
    requires |orders| == |infos|
    requires Distinct(TypeNames(infos))
    ensures Aggregate(infos, zonal, orders) == Annotate(infos, zonal, orders)
  {
    if |infos| > 0 {
      var n := |infos| - 1;
      var pi, po := infos[..n], orders[..n];
      var name := infos[n].instanceType;
      TypeNamesPrefix(infos);
      AggregateIsAnnotate(pi, zonal, po);
      assert !Offered(pi, zonal, po, name);
      AggregateHas(pi, zonal, po, name);
      AddZonesFresh(Aggregate(pi, zonal, po), infos[n], ZonesFor(name, zonal, orders[n]));
    }
  }

  /** The reference annotation keeps metadata order. */
  lemma {:induction false} AnnotateOrder(infos: seq<InstanceTypeInfo>, zonal: map<string, seq<string>>, orders: seq<seq<string>>)
    requires |orders| == |infos|
    ensures IsSubsequence(Infos(Annotate(infos, zonal, orders)), infos)
  {
    if |infos| > 0 {
      var n := |infos| - 1;
      var pi, po := infos[..n], orders[..n];
      var a := Annotate(pi, zonal, po);
      AnnotateOrder(pi, zonal, po);
      var zs := ZonesFor(infos[n].instanceType, zonal, orders[n]);
      var r := Annotate(infos, zonal, orders);
      assert infos == pi + [infos[n]];
      if |zs| == 0 {
        assert r == a;
        SubsequenceExtend(Infos(a), pi, infos[n], false);
      } else {
        assert r == a + [Instance(infos[n], zs)];
        assert r[..|a|] == a;
        assert Infos(r) == Infos(a) + [infos[n]];
        SubsequenceExtend(Infos(a), pi, infos[n], true);
      }
    }
  }

  /** Record `r` is some metadata record of `infos` with exactly the zones found for it. */
  ghost predicate AnnotatedFrom(r: Instance, infos: seq<InstanceTypeInfo>, zonal: map<string, seq<string>>, orders: seq<seq<string>>)
    requires |orders| == |infos|
  {
    exists i :: 0 <= i < |infos| && r == Instance(infos[i], ZonesFor(infos[i].instanceType, zonal, orders[i]))
  }

  /** Every record of the reference annotation is a metadata record, unchanged, with the
      zones found for it. */
  lemma {:induction false} AnnotateRecord(infos: seq<InstanceTypeInfo>, zonal: map<string, seq<string>>, orders: seq<seq<string>>, k: nat)
    requires |orders| == |infos|
    requires k < |Annotate(infos, zonal, orders)|
    ensures AnnotatedFrom(Annotate(infos, zonal, orders)[k], infos, zonal, orders)
  {
    var n := |infos| - 1;
    var pi, po := infos[..n], orders[..n];
    var a := Annotate(pi, zonal, po);
    var r := Annotate(infos, zonal, orders);
    var zs := ZonesFor(infos[n].instanceType, zonal, orders[n]);
    if k < |a| {
      assert r[k] == a[k];
      AnnotateRecord(pi, zonal, po, k);
      var i :| 0 <= i < |pi| && a[k] == Instance(pi[i], ZonesFor(pi[i].instanceType, zonal, po[i]));
      assert infos[i] == pi[i] && orders[i] == po[i];
    } else {
      assert r[k] == Instance(infos[n], zs);
    }
  }

  /** Join membership: the records have pairwise-distinct names, and a name has a record
      exactly when it is a metadata name listed in at least one zone (so a type without
      offerings is dropped). */
  lemma JoinMembership(infos: seq<InstanceTypeInfo>, zonal: map<string, seq<string>>, orders: seq<seq<string>>)
    requires ValidOrders(orders, infos, zonal)
    ensures Distinct(Names(Aggregate(infos, zonal, orders)))
    ensures forall m :: m in Names(Aggregate(infos, zonal, orders)) <==>
      m in TypeNames(infos) && exists z :: z in zonal && m in zonal[z]
  {
    AggregateDistinct(infos, zonal, orders);
    forall m ensures m in Names(Aggregate(infos, zonal, orders)) <==>
      m in TypeNames(infos) && exists z :: z in zonal && m in zonal[z]
    {
      AggregateHas(infos, zonal, orders, m);
      forall i | 0 <= i < |infos| { ZonesForEmptyIff(infos[i].instanceType, zonal, orders[i]); }
      if m in TypeNames(infos) {
        var i :| 0 <= i < |infos| && TypeNames(infos)[i] == m;
        assert infos[i].instanceType == m;
      }
    }
  }

  /** Join records: with distinct metadata names, the records follow metadata order, carry
      their metadata unchanged, and each record's zones, as a multiset, are every zone
      counted once per listing of the record's name there. */
  lemma JoinRecords(infos: seq<InstanceTypeInfo>, zonal: map<string, seq<string>>, orders: seq<seq<string>>)
    requires ValidOrders(orders, infos, zonal)
    requires Distinct(TypeNames(infos))
    ensures IsSubsequence(Infos(Aggregate(infos, zonal, orders)), infos)
    ensures forall k, z :: 0 <= k < |Aggregate(infos, zonal, orders)| ==>
      multiset(Aggregate(infos, zonal, orders)[k].zones)[z] == multiset(Lookup(zonal, z))[Aggregate(infos, zonal, orders)[k].Name()]
  {
    AggregateIsAnnotate(infos, zonal, orders);
    AnnotateOrder(infos, zonal, orders);
    var cat := Aggregate(infos, zonal, orders);
    forall k, z | 0 <= k < |cat| ensures multiset(cat[k].zones)[z] == multiset(Lookup(zonal, z))[cat[k].Name()] {
      AnnotateRecord(infos, zonal, orders, k);
      var i :| 0 <= i < |infos| && cat[k] == Instance(infos[i], ZonesFor(infos[i].instanceType, zonal, orders[i]));
      ZonesForExact(infos[i].instanceType, zonal, orders[i], z);
    }
  }

  /** On the folded offerings, a zone lists a name once per offering of that name there. */
  lemma CollectedCount(offerings: seq<Offering>, zone: string, name: string)
    ensures multiset(Lookup(Collected(offerings), zone))[name] == multiset(offerings)[Offering(zone, name)]
  {
    CollectedLookup(offerings, zone);
    NamesAtCount(offerings, zone, name);
  }


  // ---------------------------------------------------------------------------
  // The join, as the source runs it

  /** `index` is the `ec2InstanceTypes` map: each record's name, mapped to where the record
      sits in the catalog (the model's stand-in for the shared `*packing.Instance`). */
  ghost predicate IndexOf(index: map<string, nat>, cat: seq<Instance>)
  {
    Distinct(Names(cat)) &&
    (forall m :: m in index ==> index[m] < |cat| && cat[index[m]].Name() == m) &&
    (forall i :: 0 <= i < |cat| ==> cat[i].Name() in index)
  }

  /** The two branches of one match (:112-118) perform `AddZone` and keep the index exact. */
  lemma AddZoneIndex(index: map<string, nat>, cat: seq<Instance>, info: InstanceTypeInfo, zone: string)
    requires IndexOf(index, cat)
    ensures info.instanceType in index ==>
      var p := index[info.instanceType];
      AddZone(cat, info, zone) == cat[p := cat[p].(zones := cat[p].zones + [zone])] &&
      IndexOf(index, AddZone(cat, info, zone))
    ensures info.instanceType !in index ==>
      AddZone(cat, info, zone) == cat + [Instance(info, [zone])] &&
      IndexOf(index[info.instanceType := |cat|], AddZone(cat, info, zone))
  {
    var name := info.instanceType;
    AddZoneNames(cat, info, zone);
    if name in index {
      FindDistinct(cat, name, index[name]);
    } else {
      FindMissing(cat, name);
      var c := AddZone(cat, info, zone);
      assert forall i :: 0 <= i < |cat| ==> c[i] == cat[i];
    }
  }


  /** One more zone matched for `info`. */
  lemma AddZonesSnoc(cat: seq<Instance>, info: InstanceTypeInfo, zs: seq<string>, zone: string)
    ensures AddZones(cat, info, zs + [zone]) == AddZone(AddZones(cat, info, zs), info, zone)
  {
    assert (zs + [zone])[..|zs|] == zs;
  }

  /** Matching `a` and then `b` is matching `a + b`. */
  lemma {:induction false} AddZonesAppend(cat: seq<Instance>, info: InstanceTypeInfo, a: seq<string>, b: seq<string>)
    ensures AddZones(AddZones(cat, info, a), info, b) == AddZones(cat, info, a + b)
  {
    if |b| > 0 {
      var b', z := b[..|b| - 1], b[|b| - 1];
      AddZonesAppend(cat, info, a, b');
      assert a + b == (a + b') + [z];
      AddZonesSnoc(cat, info, a + b', z);
    }
    else {
      assert a + b == a;
    }
  }

  /** One more type name of `zone` scanned. */
  lemma OccurrencesSnoc(name: string, zone: string, names: seq<string>, k: nat)
    requires k < |names|
    ensures Occurrences(name, zone, names[..k + 1]) ==
      Occurrences(name, zone, names[..k]) + (if names[k] == name then [zone] else [])
  {
    assert names[..k + 1][..k] == names[..k];
  }

  /** One more zone visited. */
  lemma ZonesForSnoc(name: string, zonal: map<string, seq<string>>, seen: seq<string>, zone: string)
    ensures ZonesFor(name, zonal, seen + [zone]) == ZonesFor(name, zonal, seen) + Occurrences(name, zone, Lookup(zonal, zone))
  {
    assert (seen + [zone])[..|seen|] == seen;
  }

  /** One more metadata record joined. */
  lemma AggregateSnoc(infos: seq<InstanceTypeInfo>, zonal: map<string, seq<string>>, orders: seq<seq<string>>, i: nat, order: seq<string>)
    requires i < |infos| && |orders| == i
    ensures Aggregate(infos[..i + 1], zonal, orders + [order]) ==
      AddZones(Aggregate(infos[..i], zonal, orders), infos[i], ZonesFor(infos[i].instanceType, zonal, order))
  {
    assert infos[..i + 1][..i] == infos[..i];
    assert (orders + [order])[..i] == orders;
  }

  /** A zone order for one more metadata record keeps the orders valid. */
  lemma ValidOrdersSnoc(orders: seq<seq<string>>, infos: seq<InstanceTypeInfo>, zonal: map<string, seq<string>>, i: nat, order: seq<string>)
    requires i < |infos| && ValidOrders(orders, infos[..i], zonal) && Enumerates(order, zonal.Keys)
    ensures ValidOrders(orders + [order], infos[..i + 1], zonal)
  {
    assert forall k :: 0 <= k < i ==> (orders + [order])[k] == orders[k];
  }

  /** The innermost loop (:110-119): scan the type names offered in `zone` and, for each
      one equal to `info`'s name, append `zone` to its record or start the record. */
  method MatchZone(cat0: seq<Instance>, index0: map<string, nat>, info: InstanceTypeInfo, zone: string, names: seq<string>)
    returns (cat: seq<Instance>, index: map<string, nat>)
    requires IndexOf(index0, cat0)
    ensures IndexOf(index, cat)
    ensures cat == AddZones(cat0, info, Occurrences(info.instanceType, zone, names))
  {
    cat, index := cat0, index0;
    for k := 0 to |names|
      invariant cat == AddZones(cat0, info, Occurrences(info.instanceType, zone, names[..k]))
      invariant IndexOf(index, cat)
    {
      ghost var zs := Occurrences(info.instanceType, zone, names[..k]);
      OccurrencesSnoc(info.instanceType, zone, names, k);
      if names[k] == info.instanceType {
        assert Occurrences(info.instanceType, zone, names[..k + 1]) == zs + [zone];
        AddZonesSnoc(cat0, info, zs, zone);
        AddZoneIndex(index, cat, info, zone);
        if names[k] in index {
          var p := index[names[k]];
          cat := cat[p := cat[p].(zones := cat[p].zones + [zone])];
        } else {
          cat := cat + [Instance(info, [zone])];
          index := index[names[k] := |cat| - 1];
        }
      } else {
        assert Occurrences(info.instanceType, zone, names[..k + 1]) == zs;
      }
    }
    assert names[..|names|] == names;
  }

  /** The zone loop (:109-121) for one metadata record: visit every zone of the map once, in
      an order Go chooses (returned as `order`). */
  method MatchZones(cat0: seq<Instance>, index0: map<string, nat>, info: InstanceTypeInfo, zonal: map<string, seq<string>>)
    returns (cat: seq<Instance>, index: map<string, nat>, ghost order: seq<string>)
    requires IndexOf(index0, cat0)
    ensures IndexOf(index, cat)
    ensures Enumerates(order, zonal.Keys)
    ensures cat == AddZones(cat0, info, ZonesFor(info.instanceType, zonal, order))
  {
    cat, index := cat0, index0;
    var remaining := zonal.Keys;
    order := [];
    while remaining != {}
      invariant Distinct(order)
      invariant remaining <= zonal.Keys
      invariant forall z :: z in order <==> z in zonal && z !in remaining
      invariant cat == AddZones(cat0, info, ZonesFor(info.instanceType, zonal, order))
      invariant IndexOf(index, cat)
      decreases |remaining|
    {
      var zone :| zone in remaining;
      remaining := remaining - {zone};
      ghost var mid := cat;
      cat, index := MatchZone(cat, index, info, zone, zonal[zone]);
      AddZonesAppend(cat0, info, ZonesFor(info.instanceType, zonal, order), Occurrences(info.instanceType, zone, zonal[zone]));
      ZonesForSnoc(info.instanceType, zonal, order, zone);
      order := order + [zone];
    }
  }

  /** The aggregation loop (:105-123): for every metadata record, every zone (in an order
      of Go's choosing, picked afresh for each record) and every type name offered there,
      a match appends the zone to the record of that name or starts one. */
  method AggregateZones(infos: seq<InstanceTypeInfo>, zonal: map<string, seq<string>>)
    returns (cat: seq<Instance>, ghost orders: seq<seq<string>>)
    ensures ValidOrders(orders, infos, zonal)
    ensures cat == Aggregate(infos, zonal, orders)
    ensures Distinct(Names(cat))
    ensures forall m :: m in Names(cat) <==> m in TypeNames(infos) && exists z :: z in zonal && m in zonal[z]
  {
    var index: map<string, nat> := map[];
    cat, orders := [], [];
    for i := 0 to |infos|
      invariant ValidOrders(orders, infos[..i], zonal)
      invariant cat == Aggregate(infos[..i], zonal, orders)
      invariant IndexOf(index, cat)
    {
      ghost var order;
      AggregateSnoc(infos, zonal, orders, i, []);
      cat, index, order := MatchZones(cat, index, infos[i], zonal);
      AggregateSnoc(infos, zonal, orders, i, order);
      ValidOrdersSnoc(orders, infos, zonal, i, order);
      orders := orders + [order];
    }
    assert infos[..|infos|] == infos;
    JoinMembership(infos, zonal, orders);
  }

  /** The catalog built from metadata `infos` and offerings `offerings`, with `orders`
      the zone iteration orders the join used. */
  ghost predicate IsCatalogOf(cat: seq<Instance>, infos: seq<InstanceTypeInfo>, offerings: seq<Offering>, orders: seq<seq<string>>)
  {
    ValidOrders(orders, infos, Collected(offerings)) && cat == Aggregate(infos, Collected(offerings), orders)
  }

  /** `getZonalInstanceTypes` (:84-124): both EC2 listings, then the join. Either listing
      failing fails the build. */
  method GetZonalInstanceTypes(api: Ec2Api) returns (r: Result<seq<Instance>>, ghost orders: seq<seq<string>>)
    ensures r.Failure? <==> api.instanceTypes.Failure? || api.offerings.Failure?
    ensures r.Success? ==> IsCatalogOf(r.value, api.instanceTypes.value, api.offerings.value, orders)
  {
    orders := [];
    if api.instanceTypes.Failure? {
      return Failure, orders;
    }
    var infos := api.instanceTypes.value;
    if api.offerings.Failure? {
      return Failure, orders;
    }
    var zonal := CollectOfferings(api.offerings.value);
    var cat;
    cat, orders := AggregateZones(infos, zonal);
    r := Success(cat);
  }

  /** A type is listed in some zone of the folded offerings exactly when it has an offering. */
  lemma CollectedHas(offerings: seq<Offering>, m: string)
    ensures (exists z :: z in Collected(offerings) && m in Collected(offerings)[z]) <==>
      exists o :: o in offerings && o.instanceType == m
  {
    var zonal := Collected(offerings);
    if exists o :: o in offerings && o.instanceType == m {
      var o :| o in offerings && o.instanceType == m;
      CollectedCount(offerings, o.location, m);
      assert o == Offering(o.location, m);
      assert m in Lookup(zonal, o.location);
    }
    if exists z :: z in zonal && m in zonal[z] {
      var z :| z in zonal && m in zonal[z];
      CollectedCount(offerings, z, m);
      assert Offering(z, m) in offerings;
    }
  }

  /** A built catalog has pairwise-distinct names, and a type has a record exactly when it
      has metadata and at least one offering. */
  lemma CatalogMembership(cat: seq<Instance>, infos: seq<InstanceTypeInfo>, offerings: seq<Offering>, orders: seq<seq<string>>)
    requires IsCatalogOf(cat, infos, offerings, orders)
    ensures Distinct(Names(cat))
    ensures forall m :: m in Names(cat) <==> m in TypeNames(infos) && exists o :: o in offerings && o.instanceType == m
  {
    JoinMembership(infos, Collected(offerings), orders);
    forall m ensures m in Names(cat) <==> m in TypeNames(infos) && exists o :: o in offerings && o.instanceType == m {
      CollectedHas(offerings, m);
    }
  }

  /** For distinct metadata names, a built catalog follows metadata order with metadata
      unchanged, and a record lists each zone once per offering of its type in that zone. */
  lemma CatalogRecords(cat: seq<Instance>, infos: seq<InstanceTypeInfo>, offerings: seq<Offering>, orders: seq<seq<string>>)
    requires IsCatalogOf(cat, infos, offerings, orders)
    requires Distinct(TypeNames(infos))
    ensures IsSubsequence(Infos(cat), infos)
    ensures forall k, z :: 0 <= k < |cat| ==> multiset(cat[k].zones)[z] == multiset(offerings)[Offering(z, cat[k].Name())]
  {
    JoinRecords(infos, Collected(offerings), orders);
    forall k, z | 0 <= k < |cat| ensures multiset(cat[k].zones)[z] == multiset(offerings)[Offering(z, cat[k].Name())] {
      CollectedCount(offerings, z, cat[k].Name());
    }
  }
}
