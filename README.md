# Karpenter EC2 instance-type catalog, modelled in Dafny

This project models the core of Karpenter's AWS `InstanceTypeProvider`
(`pkg/cloudprovider/aws/instancetypes.go`) and proves properties of the model. The
provider keeps a catalog of EC2 instance types in a single-entry cache of its own: each
`InstanceTypeProvider` gets a fresh cache when it is created (lines 37-47). Each catalog
record is the instance type's metadata plus the availability zones it is offered in. The provider
narrows the catalog to the records that meet a workload's constraints. The model has
three parts:

- **Catalog builder** (`catalog.dfy`, module `Catalog`). This is `getZonalInstanceTypes`.
  The output of `DescribeInstanceTypeOfferings` is folded into a map from zone to type
  names (`CollectOfferings`). That map is then joined with the output of
  `DescribeInstanceTypes` by three nested loops (`AggregateZones`, `MatchZones`,
  `MatchZone`). `Aggregate` is a function that gives exactly what these loops compute.
  `Annotate` is an independent reference definition: "each metadata record that has an
  offering, in metadata order, with all its zones". The lemmas connect the two.
- **Constraint filter** (`filter.dfy`, module `Filter`). This is `filterFrom` and its six
  predicates. `FilterFrom` is the loop. It is proved equal to `Select`, which is an
  order-preserving selection. The lemmas state what the selection is, rule by rule.
- **Cache** (`provider.dfy`, module `Provider`). This is the class
  `InstanceTypeProvider`. Its field `cache` holds the single go-cache entry, and
  `Get` and `GetAllInstanceTypeNames` read and write that field. A ghost counter `builds`
  counts catalog builds, so a contract can say that a cache hit builds nothing. The class
  invariant `Valid` says that a cached catalog has pairwise-distinct names; every method
  keeps it.

`model.dfy` (module `Model`) holds the data model. `wrappers.dfy` (module `Wrappers`)
holds `Option` and `Result`.

Modelling choices:

- **EC2 answers.** The two paginated EC2 listings are given as one `Ec2Api` value: each
  listing is either all of its pages concatenated (`Success`) or `Failure`.
- **Go map iteration order.** The zone loop at line 109 ranges over a Go map, whose
  order is unspecified and may differ from one `range` to the next. `MatchZones` picks each
  zone from the set of keys not visited yet (`:|`), separately for every metadata record.
  It returns the order it used as the ghost out-parameter `order`. Every statement about
  zones either holds for every order or is a multiset statement.
- **Shared records.** In the source, the map `ec2InstanceTypes` and the result slice
  share `*packing.Instance` pointers, and line 113 appends to `Zones` through the map.
  The model gives the map as name → position in the result sequence. The append at line
  113 becomes an update of the record at that position.
- **GPU and accelerator lists.** The source reads `Gpus[0]` and `Accelerators[0]`
  without a check. `DeviceInfo` is therefore non-empty by construction (`first`, `rest`).
  `BareMetal` is a plain `bool`.
- **Collaborator outputs.** `Filter.Constraints` holds what the collaborators deliver:
  the allow-list, the result of `GetCapacityType()` (`""` means unset), the normalized
  architecture (`None` means unset), and the resource keys that `RequestsForPods`
  requests. `GetAllInstanceTypeNames` takes the capacity type, architecture and requests
  of the empty `Constraints{}` as parameters, since their values are not known here. Only
  its allow-list is known to be empty.

Facts of the code that the model keeps:

- A metadata record with no offering gets no catalog record: a record is created only
  inside the match branch (lines 111-118).
- A record's zones are appended without removing duplicates (line 113): a zone listed
  twice for a type appears twice in its record.
- A cache miss builds the catalog then and there (lines 57-66). Nothing in the provider
  makes two callers that miss at the same time share one build.

## Model

| member | source | states |
|---|---|---|
| Catalog.CollectOfferings | pkg/cloudprovider/aws/instancetypes.go:94-99 | the fold maps each zone that occurs in the offerings to the type names offered there, in offering order; a zone that does not occur reads as the empty list |
| Catalog.Lookup | pkg/cloudprovider/aws/instancetypes.go:97 | Go's map read: a zone absent from the map reads as the empty (nil) slice, a present one as its list |
| Catalog.NamesAtCount | pkg/cloudprovider/aws/instancetypes.go:97 | a zone lists a type name once per offering of that (zone, name) pair |
| Catalog.NamesAtAbsent | pkg/cloudprovider/aws/instancetypes.go:97 | a zone with no offering lists no names |
| Catalog.CollectedCount | pkg/cloudprovider/aws/instancetypes.go:94-99 | in the folded map, every zone (present or not) lists a name exactly as often as the offerings hold that pair |
| Catalog.CollectedHas | pkg/cloudprovider/aws/instancetypes.go:94-99 | some zone of the folded map lists a name exactly when some offering is for that name |
| Catalog.MatchZone | pkg/cloudprovider/aws/instancetypes.go:110-119 | scanning one zone's names appends that zone once per listing of the record's name, and keeps the map from names to positions exact |
| Catalog.MatchZones | pkg/cloudprovider/aws/instancetypes.go:109-121 | the zone loop visits every zone of the map exactly once, in some order, and performs the matches for each zone in turn |
| Catalog.AggregateZones | pkg/cloudprovider/aws/instancetypes.go:105-123 | the join loop computes `Aggregate` over the metadata, for the zone orders it used, one order per metadata record and each covering every zone; its records have distinct names, and a name has a record exactly when it is a metadata name listed in some zone |
| Catalog.AddZoneIndex | pkg/cloudprovider/aws/instancetypes.go:112-118 | looking a name up in the map and then appending to the shared record or creating a new one is the same as the catalog-level match, and keeps the map exact |
| Catalog.AddZone | pkg/cloudprovider/aws/instancetypes.go:112-118 | one match: when a record already has the name, the zone is appended to that record's zones; otherwise a new record with the metadata and that one zone is appended at the end |
| Catalog.Find | pkg/cloudprovider/aws/instancetypes.go:112 | the map lookup: the first record with the name, or none at all |
| Catalog.OccurrencesCount | pkg/cloudprovider/aws/instancetypes.go:110-113 | scanning one zone yields that zone once per listing of the name, and no other zone |
| Catalog.ZonesForCount | pkg/cloudprovider/aws/instancetypes.go:109-113 | over distinct visited zones, a record gets each visited zone once per listing of its name there |
| Catalog.ZonesForExact | pkg/cloudprovider/aws/instancetypes.go:109-113 | whatever the map iteration order, the zones found for a name are, as a multiset, every zone counted once per listing of the name in it |
| Catalog.ZonesForEmptyIff | pkg/cloudprovider/aws/instancetypes.go:108-119 | no zone is found for a name exactly when no zone lists that name |
| Catalog.AddZoneNames | pkg/cloudprovider/aws/instancetypes.go:112-118 | one match keeps record names distinct and adds only the matched name |
| Catalog.AddZonesNames | pkg/cloudprovider/aws/instancetypes.go:109-121 | the matches of one metadata record keep names distinct and add its name only if some zone was found |
| Catalog.AddZonesFresh | pkg/cloudprovider/aws/instancetypes.go:114-117 | for a name with no record yet, the matches create one record at the end, with the metadata and every zone found, or nothing when no zone was found |
| Catalog.AddZonesAppend | pkg/cloudprovider/aws/instancetypes.go:109-121 | matching one list of zones and then another is matching their concatenation |
| Catalog.AggregateDistinct | pkg/cloudprovider/aws/instancetypes.go:105-123 | the join never gives two records the same name, even when metadata names repeat |
| Catalog.AggregateHas | pkg/cloudprovider/aws/instancetypes.go:108-118 | a name has a record exactly when a metadata record of that name found at least one zone |
| Catalog.AggregateIsAnnotate | pkg/cloudprovider/aws/instancetypes.go:105-123 | for distinct metadata names, the join equals the reference definition: each metadata record with an offering, in metadata order, with all its zones |
| Catalog.AnnotateOrder | pkg/cloudprovider/aws/instancetypes.go:115-116 | the reference catalog's metadata is a subsequence of the input metadata |
| Catalog.AnnotateRecord | pkg/cloudprovider/aws/instancetypes.go:115 | every reference record is an input metadata record, unchanged, with exactly the zones found for it |
| Catalog.JoinMembership | pkg/cloudprovider/aws/instancetypes.go:105-123 | record names are pairwise distinct; a name has a record exactly when it is a metadata name listed in some zone, so types without offerings are dropped |
| Catalog.JoinRecords | pkg/cloudprovider/aws/instancetypes.go:105-123 | for distinct metadata names, records keep metadata order and metadata, and a record's zones, as a multiset, hold each zone once per listing of the record's name |
| Catalog.GetZonalInstanceTypes | pkg/cloudprovider/aws/instancetypes.go:84-124 | the build fails exactly when one of the two EC2 listings fails; otherwise it returns the join of the metadata with the folded offerings |
| Catalog.CatalogMembership | pkg/cloudprovider/aws/instancetypes.go:84-123 | a built catalog has distinct names, and a type has a record exactly when it has both metadata and at least one offering |
| Catalog.CatalogRecords | pkg/cloudprovider/aws/instancetypes.go:84-123 | for distinct metadata names, a built catalog keeps metadata order and metadata, and each record lists each zone exactly as often as there are offerings of its type in that zone |
| Filter.HasAnyPrefix | pkg/cloudprovider/aws/instancetypes.go:179-183 | true exactly when one of the listed prefixes begins the name |
| Filter.IsInstanceTypeSupported | pkg/cloudprovider/aws/instancetypes.go:164-172 | the name rule: with an empty allow-list the default heuristic decides, otherwise membership of the name in the list |
| Filter.IsDefaultInstanceType | pkg/cloudprovider/aws/instancetypes.go:176-184 | the default heuristic: no FPGA, not bare metal, and a name beginning with one of the nine family prefixes |
| Filter.IsArchitectureSupported | pkg/cloudprovider/aws/instancetypes.go:186-189 | no architecture requested, or the requested one is among the record's supported architectures |
| Filter.IsCapacityTypeSupported | pkg/cloudprovider/aws/instancetypes.go:191-194 | no capacity type requested (`""`), or the requested one is among the record's supported usage classes |
| Filter.IsNvidiaGPUSupported | pkg/cloudprovider/aws/instancetypes.go:196-201 | without an NVIDIA GPU request every record passes; with one, the record must have GPUs whose first manufacturer is "NVIDIA" |
| Filter.IsAWSNeuronSupported | pkg/cloudprovider/aws/instancetypes.go:202-207 | without an AWS Neuron request every record passes; with one, the record must have inference accelerators whose first manufacturer is "AWS" |
| Filter.IsZonesSupported | pkg/cloudprovider/aws/instancetypes.go:209-211 | no zones requested, or some zone of the record is a requested zone |
| Filter.Passes | pkg/cloudprovider/aws/instancetypes.go:152-157 | the conjunction of the six predicates that decides whether `filterFrom` keeps a record |
| Filter.Select | pkg/cloudprovider/aws/instancetypes.go:148-162 | the selection is no longer than its input, and a record is in it exactly when it is in the input and passes all six predicates |
| Filter.FilterFrom | pkg/cloudprovider/aws/instancetypes.go:148-162 | the loop returns exactly the order-preserving selection of the records that pass |
| Filter.SelectAppend | pkg/cloudprovider/aws/instancetypes.go:150-160 | filtering a concatenation concatenates the filtered parts |
| Filter.SelectIdempotent | pkg/cloudprovider/aws/instancetypes.go:148-162 | filtering the output again returns it unchanged |
| Filter.SelectSubsequence | pkg/cloudprovider/aws/instancetypes.go:148-162 | the output is a subsequence of the input, in input order |
| Filter.SelectMembership | pkg/cloudprovider/aws/instancetypes.go:152-211 | a record is returned exactly when it passes every rule on its fields: the allow-list, or the default heuristic when the list is empty; the capacity class; the architecture; the zones; NVIDIA GPU; AWS Neuron |
| Filter.DefaultsOnly | pkg/cloudprovider/aws/instancetypes.go:164-184 | with an empty allow-list, every returned record has no FPGA, is not bare metal, and has a name starting with m, c, r, a, t3, t4, p, inf or g |
| Filter.AllowListBypass | pkg/cloudprovider/aws/instancetypes.go:164-172 | with a non-empty allow-list, the name predicate holds exactly for listed names, bare metal and FPGA types included |
| Filter.UnsetConstraintsPass | pkg/cloudprovider/aws/instancetypes.go:186-211 | an unset capacity type, architecture or zone set, and a missing GPU or Neuron request, pass every record |
| Filter.SelectDistinct | pkg/cloudprovider/aws/instancetypes.go:148-162 | filtering a catalog whose names are distinct leaves the names distinct |
| Filter.NamesHavePrefix | pkg/cloudprovider/aws/instancetypes.go:164-184 | with an empty allow-list, every selected name starts with one of the default family prefixes |
| Filter.ArchitectureExample | pkg/cloudprovider/aws/instancetypes.go:148-211 | an arm64 request in us-east-1a, over m5.large (x86_64) and t4g.micro (arm64), returns exactly t4g.micro |
| Provider.InstanceTypeProvider.constructor | pkg/cloudprovider/aws/instancetypes.go:42-47 | a new provider has an empty cache |
| Provider.InstanceTypeProvider.Expire | pkg/cloudprovider/aws/instancetypes.go:45 | expiry empties the cache slot as a whole |
| Provider.InstanceTypeProvider.Get | pkg/cloudprovider/aws/instancetypes.go:50-69 | a hit builds nothing, keeps the slot and filters the cached snapshot; a miss builds once; a failed build returns Failure and leaves the slot empty; a successful build stores exactly the built catalog and filters it; the cached catalog always has distinct names, and so does every result |
| Provider.InstanceTypeProvider.GetAllInstanceTypeNames | pkg/cloudprovider/aws/instancetypes.go:72-82 | the names, in order, of `Get` with no zones and an empty allow-list; same cache behaviour as `Get`; every name passes the default prefix heuristic, so the result is not the whole catalog; no name is listed twice |
| Provider.InstanceTypeNames | pkg/cloudprovider/aws/instancetypes.go:77-80 | the loop returns each record's type name, in catalog order |
| Provider.GetTwice | pkg/cloudprovider/aws/instancetypes.go:57-58 | after a successful lookup, a second lookup with the same constraints builds nothing and returns the same list, whatever EC2 would answer |

## Left out

- The EC2 calls and their pagination (lines 95-100 and 137-140) are network I/O. Their results are inputs (`Ec2Api`).
- The `supported-virtualization-type = hvm` filter (lines 130-135) is applied by EC2 itself. The model cannot observe it.
- Error messages and their wrapping (lines 87, 102, 142) are reduced to a single `Failure`. The zap debug log (line 66) is left out.
- go-cache is not modelled: wall-clock TTL, the cleanup interval (line 45) and the concurrent `Get` calls racing on a cold cache, which is timing and concurrency. Expiry is the explicit step `Expire`.
- `resources.RequestsForPods`, `utils.NormalizeArchitecture` and `Constraints.GetCapacityType` are collaborators outside this model. Their results are fields of `Filter.Constraints`. Their code is not part of this model.
- `functional.ContainsString`, `functional.HasAnyPrefix` and `functional.IntersectStringSlice` are not part of this model. Their usual meaning is assumed: sequence membership, prefix test, and a non-empty intersection as a shared element.
- `Get` does not read the subnets in `zonalSubnetOptions`, only its keys. The model passes the key set.
- The nil and out-of-range panics cannot occur in the model: every pointer the code dereferences is a plain, present value (`*InstanceType` at lines 79, 111, 168 and 179, `*Location` at line 97, `*BareMetal` at line 178, `ProcessorInfo` at line 188, `*Manufacturer` at lines 198 and 204), and `Gpus[0]` and `Accelerators[0]` (lines 198 and 204) always exist because the device lists are non-empty by construction.
- Records are values in the model. The source shares `*packing.Instance` pointers between the cache and the filtered slices it returns. The model has no aliasing between those results.
- Catalog.CatalogRecords: states metadata order and exact zone multisets only for metadata with distinct type names. With repeated names, `Aggregate` still gives the exact result: each later record's zones go onto the first record of that name.
- Catalog.JoinRecords: has the same distinct-names precondition as `CatalogRecords`, for the same reason.
