/** The instance-type provider (`InstanceTypeProvider`): a single-entry catalog cache in
    front of the catalog builder, and the filter applied to whichever catalog it holds. */
module Provider {
  import opened Wrappers
  import opened Model
  import opened Catalog
  import opened Filter

  /** The provider (:37-47). The go-cache entry under the fixed key "all" is `cache`; the
      EC2 client is not a field, its answers are passed to every call as `api`. */
  class InstanceTypeProvider {
    /** The cached catalog, if any. */
    var cache: Option<seq<Instance>>
    /** How many times the catalog has been built, i.e. how many rounds of EC2 listings ran. */
    ghost var builds: nat

    /** The slot holds nothing or a built catalog, whose records have pairwise-distinct names,
        so that each type has at most one record. */
    ghost predicate Valid()
      reads this
    {
      cache.Some? ==> Distinct(Names(cache.value))
    }

    /** `NewInstanceTypeProvider` (:42-47): an empty cache. */
    constructor ()
      ensures Valid() && cache == None && builds == 0
    {
      cache := None;
      builds := 0;
    }

    /** Expiry of the cached entry once its TTL has passed: the slot empties as a whole. */
    method Expire()
      modifies this
      ensures Valid() && cache == None && builds == old(builds)
    {
      cache := None;
    }

    /** `Get` (:50-69). `zones` are the keys of `zonalSubnetOptions`. On a hit the cached
        catalog is filtered and nothing is built; on a miss the catalog is built from `api`,
        stored on success and filtered, while a failed build returns `Failure` and leaves
        the slot empty. */
    method Get(zones: set<string>, c: Constraints, api: Ec2Api)
      returns (r: Result<seq<Instance>>, ghost orders: seq<seq<string>>)
      requires Valid()
      modifies this
      ensures Valid()
      ensures r.Success? ==> Distinct(Names(r.value))
      ensures old(cache).Some? ==>
        cache == old(cache) && builds == old(builds) && r == Success(Select(old(cache).value, c, zones))
      ensures old(cache).None? ==> builds == old(builds) + 1
      ensures old(cache).None? && (api.instanceTypes.Failure? || api.offerings.Failure?) ==>
        r == Failure && cache == None
      ensures old(cache).None? && api.instanceTypes.Success? && api.offerings.Success? ==>
        cache.Some? && IsCatalogOf(cache.value, api.instanceTypes.value, api.offerings.value, orders) &&
        r == Success(Select(cache.value, c, zones))
    {
      orders := [];
      var supported: seq<Instance>;
      if cache.Some? {
        supported := cache.value;
      } else {
        var built;
        built, orders := GetZonalInstanceTypes(api);
        builds := builds + 1;
        if built.Failure? {
          return Failure, orders;
        }
        supported := built.value;
        CatalogMembership(supported, api.instanceTypes.value, api.offerings.value, orders);
        cache := Some(supported);
      }
      var filtered := FilterFrom(supported, c, zones);
      SelectDistinct(supported, c, zones);
      r := Success(filtered);
    }

    /** `GetAllInstanceTypeNames` (:72-82): `Get` with no zones and empty `Constraints`,
        projected to names. `capacityType`, `architecture` and `requests` are what the
        collaborators make of the empty `Constraints`; its allow-list is empty, so the
        default heuristic applies and the result is not the whole catalog. */
    method GetAllInstanceTypeNames(capacityType: string, architecture: Option<string>, requests: set<ResourceName>, api: Ec2Api)
      returns (r: Result<seq<string>>, ghost orders: seq<seq<string>>)
      requires Valid()
      modifies this
      ensures Valid()
      ensures r.Success? ==> Distinct(r.value)
      ensures old(cache).Some? ==> cache == old(cache) && builds == old(builds)
      ensures old(cache).None? ==> builds == old(builds) + 1
      ensures r.Failure? <==> old(cache).None? && (api.instanceTypes.Failure? || api.offerings.Failure?)
      ensures r.Failure? ==> cache == None
      ensures r.Success? ==> cache.Some?
      ensures old(cache).None? && r.Success? ==>
        IsCatalogOf(cache.value, api.instanceTypes.value, api.offerings.value, orders)
      ensures r.Success? ==>
        r.value == Names(Select(cache.value, Constraints([], capacityType, architecture, requests), {}))
      ensures r.Success? ==> forall i :: 0 <= i < |r.value| ==> HasAnyPrefix(r.value[i], DefaultPrefixes)
    {
      var supported;
      supported, orders := Get({}, Constraints([], capacityType, architecture, requests), api);
      if supported.Failure? {
        return Failure, orders;
      }
      var names := InstanceTypeNames(supported.value);
      r := Success(names);
      NamesHavePrefix(cache.value, Constraints([], capacityType, architecture, requests), {});
    }
  }

  /** The loop of `GetAllInstanceTypeNames` (:77-80): each record's type name, in order. */
  method InstanceTypeNames(cat: seq<Instance>) returns (names: seq<string>)
    ensures names == Names(cat)
  {
    names := [];
    for i := 0 to |cat|
      invariant names == Names(cat[..i])
    {
      assert cat[..i + 1] == cat[..i] + [cat[i]];
      NamesSnoc(cat[..i], cat[i]);
      names := names + [cat[i].Name()];
    }
    assert cat[..|cat|] == cat;
  }

  /** Two lookups in a row with no expiry between: the second builds nothing and, for the
      same constraints, returns what the first returned, whatever EC2 would answer now. */
  method GetTwice(p: InstanceTypeProvider, zones: set<string>, c: Constraints, api1: Ec2Api, api2: Ec2Api)
    returns (r1: Result<seq<Instance>>, r2: Result<seq<Instance>>)
    requires p.Valid()
    modifies p
    ensures r1.Success? ==> r2 == r1 && p.builds == old(p.builds) + (if old(p.cache).None? then 1 else 0)
  {
    ghost var orders;
    r1, orders := p.Get(zones, c, api1);
    r2, orders := p.Get(zones, c, api2);
  }
}
