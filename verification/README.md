# Edge configuration API: verified model

A Dafny model of six components of the Edge Configuration API that hold real state or arithmetic, and
proofs of what they keep over every input, every run and every interleaving of their atomic steps. Check
it with `dafny verify dfyconfig.toml`.

| Component | Modules |
|---|---|
| Scan range and network overview | `Blocks`, `Ipv4`, `Decimal`, `ScanRange`, `StatusHistory`, `Overview`, `OverviewBuilder`, `OverviewWrites`, `OverviewLaws`, `OverviewAgreement`, `OverviewMeaning` |
| Extension lifecycle | `ReplaceFilters`, `Extensions`, `ExtensionRepository`, `ExtensionLaws`, `EmptyActionName`, `ExtensionEffects`, `LiveRoutes`, `ExtensionLifecycle`, `LifecycleLaws`, `LifecycleRuns`, `LifecycleTheorems`, `LifecycleFailures`, `LifecycleExamples`, `ManifestRoutes` |
| Nested transactions | `Transaction` |
| Port-forwarding and NAT variables | `Variables`, `PortForwarding`, `Nat`, `VariableTexts` |
| Permission evaluation | `Abac` |
| Typed entities | `TypedEntities` |
| Password renewal | `PasswordRenewal` |

`Wrappers` and `Grouping` are shared helpers: optional values, and grouping a list by a partial key.

Code that works by changing things step by step is modelled by methods with loops and by classes whose
methods update fields (`ScanRange.DeviceNetworkRange`, `StatusHistory.HostStatusTable`,
`OverviewBuilder.StatusWrites`, `ExtensionRepository.Repository`, `LiveRoutes.App`, `LiveRoutes.ValidatorCache`,
`LiveRoutes.Runtime`, `Variables.TemplateVariables`, `Variables.Device`, `TypedEntities.Endpoint`,
`TypedEntities.TypeTable`, `PasswordRenewal.TaskTable`, `Transaction.Session`). Each method is proved equal to
a function of its inputs and the old state, and the laws are proved about those functions. The extension
handlers, which interleave at every `await`, are a state machine: one step for each atomic block of database
work, for each reading back of stored details, for each build and for each publication. A metadata patch is two
steps, its check and its update.

## Where the code and its promises differ

- The comment at routers/network_discovery/routes/get_network_scan_range.py:66-68 says the stored range can
  only widen. It can also move: a lowest address in a lower /21 gives a disjoint range. `ScanRange.ChangeGoesDown`
  says exactly when, `ScanRange.WideningCanFail` gives an instance.
- After the commit of an enable, a disable or a replace the handler reads the stored details back
  (extensions/registry.py:433-466, called at 554, 658 and 667) and only then touches the live routes
  (extensions/setup.py:203, 260-261, 276-277). The reading raises when a stored body is not an object, which
  extensions/upstreams/http.py:232-243 lets through, or when a stored base URL is no longer in the allowlist of this
  process. A disable then leaves its routes live (`LifecycleFailures.DisableLeavesMounted`), an enable leaves it
  enabled with nothing live (`LifecycleFailures.EnableLeavesUnmounted`), a replace leaves the dropped routes live
  (`LifecycleFailures.ReplaceLeavesStale`); `LifecycleExamples.DisabledMountedHappens`, `EnabledUnmountedHappens` and
  `StaleHappens` reach each from a first start. `LifecycleTheorems.LiveOverRuns` says, in both directions, which steps
  make live routes wrong; `LifecycleFailures.DetailAfterDisable`, `DetailAfterEnable` and `DetailAfterStore` say
  before each commit exactly when the reading will fail, and `LifecycleFailures.DetailsNeverFail` when it never does.
- extensions/registry.py:216 skips a required action that is the empty string, although an action may have that
  name. A registration or a replacement can so give a route another extension's action
  (`EmptyActionName.ReplaceCanTakeEmptyName` is an instance). `EmptyActionName.RegisterStrictIff` and
  `EmptyActionName.ReplaceStrictIff` give the exact condition for each state, `EmptyActionName.StrictExactlyWhenClaimed`
  the one for all states, `LifecycleTheorems.StrictOverRuns` the one for runs.
  `EmptyActionName.ReplaceSucceedsIff` and `EmptyActionName.DeregisterSucceedsIff` say what the gap blocks.
- Registering takes no per-extension lock (extensions/setup.py:108-112). A registration that commits between the
  build and the commit of an enable request for the same, until then unknown, name leaves the extension enabled
  with no route mounted: `LifecycleFailures.LateEnableMountsNothing`, and `LifecycleExamples.LateEnableHappens` for a
  run. With neither this nor failing details, only a failed startup build leaves wrong live routes
  (`LifecycleFailures.OnlyStartupLeavesUnmounted`).
- extensions/body_validation.py:70-72 says a re-mount always gets new route ids. It does exactly when the extension
  was stored anew since (`LifecycleFailures.RemountedIds`); disabling and enabling mounts the same ids again. The
  cache agrees with direct validation anyway (`LifecycleTheorems.CacheAgrees`).
- `_when_overlaps` reports an overlap for an empty value list that no context can match
  (`ReplaceFilters.EmptyListOverlaps`; the exact condition is `ReplaceFilters.OverlapMeansCommonContext`).
- A nested atomic block has no savepoint: writes before an inner error that is handled inside the outer block
  commit with the rest (`Transaction.HandledErrorKeepsWrites`), unless the error was a failed flush or a refused
  statement, after which nothing of the block is kept (`Transaction.FailureIsFinal`). Cancellation inside a transaction that was already
  open is not rolled back by the block (db/transaction.py:66-70), see the last clause of `Transaction.AllOrNothing`.
- Service updates do not enforce `changeable`, endpoint updates do (`TypedEntities.ServiceUpdateCanChangeFixedField`).
  routers/schemas.py:92-95 promises it for both. A service update keeps the fixed fields exactly when its patch
  passes the check that endpoint updates make (`TypedEntities.ServiceUpdateKeepsFixedIff`, over runs
  `TypedEntities.ServiceRunKeepsFixedIff`).
- "No different value" of a fixed field is Python's `==`, so a fixed number may go from `1` to `1.0`; a number field
  refuses `true` (`TypedEntities.NumbersChangeForm`). For every typed field `TypedEntities.FixedIsLiteralIff` says
  exactly when the value is literally kept: always, except under `number`, and there for fractions and for integers
  that no float equals, such as 9007199254740993 (`TypedEntities.NextIntegerHasOneForm`). A change from `1` to `true`
  needs a field without a type, which the routes do not store (routers/schemas.py:74); it exists only for a direct call
  of the repository function.
- The check of a metadata patch and its update read the metadata separately. Two patches of one user, each accepted,
  can together leave the user's scope (`Abac.InterleavedPatchesLeaveScope`). They do exactly when some update is
  applied that the check would by then refuse (`Abac.InterleavedStayInScopeIff`).

## Assumptions

Scanned hosts have distinct addresses and their port keys decode to distinct integers; every stored type id exists
(foreign key); port-forwarding rules passed the request schema; role grants and deletions, like every block inside
one database transaction, are atomic. JSON Schema validation, field constraints beyond the type, text formats
in manifests and route construction are parameters (`errors`, `accepts`, `otherRules`, `broken`) that may give any
answer. The base URLs a process allows are a set that a restart may change; a fetched body is an object or it is not.
A session whose flush or commit has failed, or whose statement the database has refused, refuses further use until it
is rolled back; whether ending its transaction then raises is a parameter (`quiet`). So is the set of numbers a float
can be (`floats`), of which `TypedEntities.Doubles` is the usual one. Clock readings, fetched schemas, fresh ids and the outcome of calls to other systems are parameters too.
Route ids are numbered in order of creation instead of random, so that fresh means larger.

## Model

| member | source | states |
|---|---|---|
| `Decimal.ValueOfPrint` | routers/smart_ems/routes/get_smart_ems_config_portforwarding.py:36-38 | reading back the decimal text of a number gives the number |
| `Decimal.PrintOfValue` | routers/smart_ems/routes/get_smart_ems_config_portforwarding.py:36-38 | digits without a leading zero are the only such text of their value |
| `Ipv4.ParseOfPrint` | routers/network_discovery/routes/get_network_scan_range.py:29-30 | a printed address is read back as the same address |
| `Ipv4.PrintOfParse` | routers/network_discovery/routes/post_network_overview.py:61-68 | an accepted text is the only text of its address, so keying by text is keying by address |
| `Blocks.XorBits` | routers/network_discovery/routes/get_network_scan_range.py:26-27 | the bit length of the XOR is the least number of low bits after whose removal two addresses agree |
| `Blocks.EndsDiffer` | routers/network_discovery/routes/get_network_scan_range.py:19-21 | first and last address of a block already differ at every smaller block size |
| `Blocks.ShiftIsQuotient` | routers/network_discovery/routes/get_network_scan_range.py:26-30 | dropping low bits is dividing by a power of two, clearing them is going down to its multiple |
| `Blocks.BlockIsInterval` | routers/network_discovery/routes/get_network_scan_range.py:19-21 | the addresses that agree after dropping bits are an interval |
| `ScanRange.CoveringIsBlock` | routers/network_discovery/routes/get_network_scan_range.py:24-30 | the result is always an aligned block of 256 to 2048 addresses that holds the lowest point |
| `ScanRange.CoveringIsSmallest` | routers/network_discovery/routes/get_network_scan_range.py:24-30 | it holds every point exactly when lowest and highest share 21 leading bits, and is then the one smallest block that does |
| `ScanRange.IncrementalEqualsBatch` | routers/network_discovery/routes/get_network_scan_range.py:56-76 | covering new points with the two bounds of the old covering block gives exactly the block of all points, clamped cases included |
| `ScanRange.RunCoversAllSeen` | routers/network_discovery/routes/get_network_scan_range.py:56-76 | after any run of calls the stored range is the block covering every address ever seen |
| `ScanRange.RunIgnoresOrderAndBatching` | routers/network_discovery/routes/get_network_scan_range.py:56-76 | two runs that saw the same set of addresses store the same range |
| `ScanRange.ChangeGoesDown` | routers/network_discovery/routes/get_network_scan_range.py:63-76 | the new range contains the old one exactly when no new point lies in a lower /21, is otherwise disjoint from it, and every change lowers (21 leading bits, prefix length) |
| `ScanRange.WideningCanFail` | routers/network_discovery/routes/get_network_scan_range.py:66-68 | a concrete stored range and address for which the new range does not contain the old one |
| `ScanRange.StableAfterOneCall` | routers/network_discovery/routes/get_network_scan_range.py:63-76 | calling again with the same addresses changes nothing |
| `ScanRange.FinitelyManyChanges` | routers/network_discovery/routes/get_network_scan_range.py:74-76 | a bound, independent of the calls, on how often the stored range ever changes |
| `ScanRange.DeviceNetworkRange.GetNetworkScanRange` | routers/network_discovery/routes/get_network_scan_range.py:56-76 | the loop and the store: the stored range is the step of the old one with the parsed addresses, written only when it differs |
| `ScanRange.ParsedSpec` | routers/network_discovery/routes/get_network_scan_range.py:57-61 | the addresses used are exactly those some given text reads as |
| `ScanRange.RunCoversAllTexts` | routers/network_discovery/routes/get_network_scan_range.py:56-76 | whatever unreadable texts stand among them, the stored range after any run is the block covering the addresses of all readable texts ever given |
| `ScanRange.TextRunsAgree` | routers/network_discovery/routes/get_network_scan_range.py:56-76 | two runs given texts of the same addresses store the same range |
| `StatusHistory.StampMarksLatestRun` | routers/network_discovery/routes/post_network_overview.py:18-28 | over any run of scans a stored stamp carries the clock reading of the first observation in the latest unbroken run of its status; a key is stored exactly when it was ever observed |
| `StatusHistory.UnobservedIsUnchanged` | db/sqlalchemy/host_status.py:30-56 | a key a scan did not observe keeps what was stored |
| `Overview.LoggedIsWrites` | routers/network_discovery/routes/post_network_overview.py:324-326 | filling the status dictionaries one write at a time leaves the stamp of the last status reported for each key |
| `OverviewBuilder.BuildLastKnownEndpoint` | routers/network_discovery/routes/post_network_overview.py:100-153 | the loop lists every typed service with its stored status, or offline now, or unknown without a port |
| `OverviewBuilder.BuildConfirmedOfflineEndpoint` | routers/network_discovery/routes/post_network_overview.py:156-219 | lists the endpoint and its services offline and writes exactly those statuses |
| `OverviewBuilder.BuildEndpointWithoutIp` | routers/network_discovery/routes/post_network_overview.py:71-97 | lists the endpoint and its services as unknown, with the stored text shown |
| `OverviewBuilder.GroupEndpoints` | routers/network_discovery/routes/post_network_overview.py:282-296 | files the typed endpoints by probeable address, each group oldest first, the others aside |
| `OverviewBuilder.GroupServices` | routers/network_discovery/routes/post_network_overview.py:375-385 | files an endpoint's typed services by port number, in order of first appearance, the others aside |
| `OverviewBuilder.ClaimedPorts` | routers/network_discovery/routes/post_network_overview.py:338-346 | collects the ports of all services of all endpoints at an address |
| `OverviewBuilder.MapScannedPorts` | routers/network_discovery/routes/post_network_overview.py:387-444 | what each scanned port contributes to an entry, and what it writes |
| `OverviewBuilder.MapMissedPorts` | routers/network_discovery/routes/post_network_overview.py:446-481 | configured ports the host did not report: offline when the scan asked for them, else last known |
| `OverviewBuilder.MapHost` | routers/network_discovery/routes/post_network_overview.py:323-497 | all entries of one scanned host, and all statuses written for it |
| `OverviewBuilder.MapAbsent` | routers/network_discovery/routes/post_network_overview.py:517-529 | entries of a configured address the scan did not report: confirmed offline inside the scanned network, else last known |
| `OverviewBuilder.BuildNetworkOverview` | routers/network_discovery/routes/post_network_overview.py:265-538 | the whole build returns the specified overview and persists exactly the specified writes |
| `OverviewBuilder.BuildLastKnownNetworkOverview` | routers/network_discovery/routes/post_network_overview.py:222-262 | the scan-free build returns the specified view |
| `OverviewWrites.HostWritesAreVerdicts` | routers/network_discovery/routes/post_network_overview.py:324-326 | a host status is written exactly when the scan establishes it: reported, or absent inside the scanned network and configured |
| `OverviewWrites.PortWritesAreVerdicts` | routers/network_discovery/routes/post_network_overview.py:394-467 | a port status is written exactly when the scan establishes it: reported, asked for and missing, or on a host confirmed offline |
| `OverviewWrites.WritesNeverConflict` | routers/network_discovery/routes/post_network_overview.py:387-467 | within one scan no host or port key is written with two different statuses, however many endpoints share it |
| `OverviewWrites.SeenIsVerdict` | routers/network_discovery/routes/post_network_overview.py:535-536 | key by key, what is persisted is the established status, and nothing for other keys |
| `OverviewWrites.ScannedNetworkIs` | routers/network_discovery/routes/post_network_overview.py:509-521 | the scan covers exactly the aligned interval of 2^(32 - mask) addresses around its network, and nothing when that cannot be read |
| `OverviewWrites.UnreportedIsOfflineIff` | routers/network_discovery/routes/post_network_overview.py:517-529 | a configured address the scan did not report, and each port of its services, is persisted offline exactly when it lies in that interval, and otherwise not written |
| `OverviewWrites.UnreportedIsListedAs` | routers/network_discovery/routes/post_network_overview.py:517-529 | it is listed offline exactly then, and otherwise as last known |
| `OverviewWrites.OrderDoesNotMatter` | routers/network_discovery/routes/post_network_overview.py:324-346 | the same hosts and endpoints in any order persist the same maps |
| `OverviewWrites.TableIsReplay` | routers/network_discovery/routes/post_network_overview.py:535-536 | the tables after any run of scans and configurations are the replay of the established statuses |
| `OverviewWrites.HistoryOverRuns` | routers/network_discovery/routes/post_network_overview.py:18-28 | over any such run every stored timestamp is the clock reading that began the latest unbroken run of the stored status |
| `OverviewLaws.EndpointsConserved` | routers/network_discovery/routes/post_network_overview.py:282-533 | each configured endpoint is listed exactly once, scanned, absent or without an address |
| `OverviewLaws.UnassignedHostsListedOnce` | routers/network_discovery/routes/post_network_overview.py:328-346 | each scanned host without a configured endpoint is listed exactly once, in scan order, and no other entry lacks an endpoint |
| `OverviewLaws.FirstEntryCarriesUnclaimed` | routers/network_discovery/routes/post_network_overview.py:415-444 | a host's ports that no service claims are on its first entry, once each, and on no other |
| `OverviewLaws.UnclaimedPortsConserved` | routers/network_discovery/routes/post_network_overview.py:415-444 | over the whole overview each scanned port claimed by no service appears exactly once |
| `OverviewLaws.OldestEndpointFirst` | routers/network_discovery/routes/post_network_overview.py:294-296 | the first entry of a scanned address belongs to its oldest endpoint, ids breaking ties |
| `OverviewLaws.TextLeqMeans` | routers/network_discovery/routes/post_network_overview.py:294-296 | ids are compared as texts: a prefix first, otherwise by the first character that differs |
| `OverviewLaws.EntriesInOrder` | routers/network_discovery/routes/post_network_overview.py:323-533 | scanned hosts come in scan order, then unreported addresses, then endpoints without one |
| `OverviewAgreement.ServicesConserved` | routers/network_discovery/routes/post_network_overview.py:375-484 | each configured service is listed exactly once under its endpoint |
| `OverviewAgreement.LiveAgreesWithLastKnown` | routers/network_discovery/routes/post_network_overview.py:222-262 | after a build is persisted, the scan-free view of any later time gives every configured endpoint and service the same status, and the same timestamp wherever there is history |
| `OverviewMeaning.EveryEntryShows` | routers/network_discovery/routes/post_network_overview.py:265-538 | every entry is that of a configured endpoint with or without an address or of a host without an endpoint, and shows its id, type, source and address, the status the scan established with its time or the one last known, and for each port the same of a service or of a free reported port |
| `OverviewMeaning.FindTypeMeans` | routers/network_discovery/routes/post_network_overview.py:282-291 | a type is the first with the id, and rows without one are skipped |
| `OverviewMeaning.NumberOf` | routers/network_discovery/routes/post_network_overview.py:31-40 | which number a stored port value stands for, if any |
| `OverviewMeaning.PortOfMeans` | routers/network_discovery/routes/post_network_overview.py:31-40 | a service's port is the number stored under the field mapped to the role, never a type default |
| `OverviewMeaning.IpOfMeans` | routers/network_discovery/routes/post_network_overview.py:61-68 | an endpoint's address is the text stored under the mapped field, when it reads as one |
| `OverviewMeaning.ShownAddress` | routers/network_discovery/routes/post_network_overview.py:71-97 | an endpoint without a probeable address shows the stored value unless Python takes it for false |
| `OverviewMeaning.DefaultOfMeans` | routers/network_discovery/mapping_helpers.py:4-8 | a type's default for a role is that of the field mapped to it |
| `OverviewMeaning.SuggestedService` | routers/network_discovery/routes/post_network_overview.py:415-444 | the suggested service type is the first that defaults to the port |
| `OverviewMeaning.SuggestedEndpoint` | routers/network_discovery/routes/post_network_overview.py:323-346 | the suggested endpoint type is the first that defaults to the address |
| `OverviewMeaning.ViewShows` | routers/network_discovery/routes/post_network_overview.py:222-262 | the scan-free view shows what is stored of an endpoint, or offline as of now |
| `TypedEntities.ApplyFieldPatches` | db/merge.py:83-95 | null removes a field, a patch merges its attributes that are not null into it |
| `TypedEntities.ApplyDataPatch` | db/merge.py:98-108 | null removes a key, a value replaces it |
| `TypedEntities.PatchedData` | db/merge.py:98-108 | a patched key holds the patch's value, null meaning nothing, every other key what it held |
| `TypedEntities.PatchesCompose` | db/merge.py:98-108 | two patches one after the other are one, in which the later wins |
| `TypedEntities.PatchedField` | db/merge.py:83-95 | attribute by attribute what a patched field keeps and takes |
| `TypedEntities.ValidateInstanceData` | db/merge.py:44-62 | accepts exactly the data valid for the schema |
| `TypedEntities.TypesOfValues` | field_validation.py:12-26 | the types each value fits |
| `TypedEntities.UpdateAcceptedIff` | db/sqlalchemy/endpoint.py:201-238 | an update is accepted exactly when each field passes with its value after the patch and, on endpoints of the same type, no fixed field that has a value gets another |
| `TypedEntities.PyEqMeans` | db/merge.py:65-80 | values are equal when they are the same or are numbers of the same value, true and false among them |
| `TypedEntities.RejectNonChangeableUpdates` | db/merge.py:65-80 | accepts exactly the patches that set no different value on a fixed field that has one |
| `TypedEntities.Endpoint.Update` | db/sqlalchemy/endpoint.py:201-238 | a refused update changes nothing; an accepted one stores the merged valid data, under the new type when one is given |
| `TypedEntities.UpdatesKeepValidAndFixed` | db/sqlalchemy/endpoint.py:219-238 | over any run of same-type updates data stays valid and a fixed field once set never changes |
| `TypedEntities.FixedIsLiteralIff` | db/merge.py:65-80 | whatever the updates and rules, a set fixed field of a type keeps its value literally exactly when, under `number`, it is a fraction or an integer no float equals, and always under the other types |
| `TypedEntities.SmallIntegersHaveTwoForms` | field_validation.py:21-23 | for doubles: an integer of at most 53 bits has a second form in a number field |
| `TypedEntities.NextIntegerHasOneForm` | field_validation.py:21-23 | for doubles: 9007199254740993 has only one |
| `TypedEntities.NumbersChangeForm` | db/merge.py:65-80 | concrete changes of a fixed 1: under `number` to 1.0 accepted and to true refused; to true accepted only by the repository function for a field without a type |
| `TypedEntities.ServiceUpdateCanChangeFixedField` | db/sqlalchemy/service.py:215-232 | a concrete patch of a fixed field that endpoint updates refuse and service updates accept |
| `TypedEntities.ServiceUpdateKeepsFixedIff` | routers/schemas.py:92-95 | an accepted service update keeps every set fixed field exactly when its patch would pass the endpoint check |
| `TypedEntities.ServiceRunKeepsFixedIff` | db/sqlalchemy/service.py:215-232 | over a run, every step keeps them exactly when every accepted patch passes that check, and then they are kept from first to last |
| `TypedEntities.ValidateTypeMapping` | db/type_roles.py:16-49 | accepts exactly the mappings on existing fields of the role's type, with known and distinct roles |
| `TypedEntities.RoleFieldIsTheMappedOne` | routers/network_discovery/mapping_helpers.py:4-8 | on a stored mapping the search finds exactly the field mapped to the role |
| `TypedEntities.NormalisedRoles` | db/type_roles.py:11-13 | the known roles are stored in the normal form the search compares with |
| `TypedEntities.RoleFieldIgnoresOrder` | routers/network_discovery/mapping_helpers.py:4-8 | the order in which the mapping is iterated does not matter |
| `TypedEntities.NormaliseMeans` | db/type_roles.py:11-13 | normalising strips blanks at both ends and lowers capitals |
| `TypedEntities.CreateSucceedsIff` | db/sqlalchemy/endpoint.py:53-79 | a type is created exactly when no other has its label and its mapping gives known, distinct roles to fields of their type |
| `TypedEntities.UpdateSucceedsIff` | db/sqlalchemy/endpoint.py:91-133 | a type is updated exactly when its new label is free and the roles it is left with fit the schema it is left with |
| `TypedEntities.RunKeepsTypesOk` | db/sqlalchemy/endpoint.py:91-133 | over any run of creations, updates and deletions every stored type keeps a mapping injective on roles, on existing fields of matching type |
| `TypedEntities.TypeTable.Create` | db/sqlalchemy/endpoint.py:53-79 | stores a type exactly when its label is free and its mapping valid |
| `TypedEntities.TypeTable.Update` | db/sqlalchemy/service.py:94-140 | a type update stores the patched schema and the roles left, or changes nothing |
| `Variables.TemplateVariables.AddFromDict` | helper.py:135-137 | appending a dictionary in any iteration order reads back as that dictionary over the old one |
| `Variables.TemplateVariables.ConvertToDict` | helper.py:139-140 | a later variable of the same name wins |
| `Variables.Device.StoreDict` | routers/smart_ems/routes/post_smart_ems_config_portforwarding.py:60-67 | a stored dictionary is read back unchanged |
| `Variables.IndicesBounded` | routers/smart_ems/routes/get_smart_ems_config_portforwarding.py:16-22 | a finite variable map holds at most as many consecutive indices as variables, because printing an index into a key is injective |
| `Variables.ScanAll` | routers/smart_ems/routes/get_smart_ems_config_nat.py:18-34 | the unbounded index loop terminates on every map and collects what each index holds, in order |
| `VariableTexts.RuleKeyMeans` | routers/smart_ems/routes/post_smart_ems_config_portforwarding.py:23-28 | which variable names count as port-forwarding keys |
| `VariableTexts.MachineKeyMeans` | routers/smart_ems/routes/post_smart_ems_config_nat.py:22-30 | which variable names count as NAT keys |
| `VariableTexts.RuleTextMeans` | routers/smart_ems/routes/get_smart_ems_config_portforwarding.py:24-39 | a stored text is read as a rule exactly when it has the rule's parts in place, and then as those |
| `VariableTexts.ForwardingReads` | routers/smart_ems/routes/get_smart_ems_config_portforwarding.py:15-43 | the reader goes on as long as both keys of a number are there, skips texts that are no rule, and stops |
| `VariableTexts.NatReads` | routers/smart_ems/routes/get_smart_ems_config_nat.py:16-34 | the reader goes on as long as the machine key is there, missing addresses read as empty |
| `VariableTexts.ForwardingAcceptedIff` | routers/smart_ems/routes/post_smart_ems_config_portforwarding.py:30-44 | a list is accepted exactly when it has at most ten rules, as many names and as many interface-port pairs as rules |
| `VariableTexts.NatAcceptedIff` | routers/smart_ems/routes/post_smart_ems_config_nat.py:36-57 | a list is accepted exactly when all external and all internal addresses differ, no rule maps one to itself, and the internal ones lie in the LAN network of a device that has one |
| `VariableTexts.ValidRuleMeans` | routers/smart_ems/schemas.py:198-220 | what a rule must be to fit the request schema |
| `PortForwarding.ParseOfPrint` | routers/smart_ems/routes/get_smart_ems_config_portforwarding.py:27-39 | parsing the printed text of a rule gives its parts back |
| `PortForwarding.PortTextInjective` | routers/smart_ems/routes/post_smart_ems_config_portforwarding.py:38-44 | comparing the duplicate-check texts is comparing interface and port |
| `PortForwarding.CheckDuplicates` | routers/smart_ems/routes/post_smart_ems_config_portforwarding.py:30-44 | accepts exactly the lists with distinct names and distinct interface-port pairs |
| `PortForwarding.GetPortForwarding` | routers/smart_ems/routes/get_smart_ems_config_portforwarding.py:7-43 | the reader returns the rules read from the variables, or the error for an ineligible device or an invalid response |
| `PortForwarding.PostPortForwarding` | routers/smart_ems/routes/post_smart_ems_config_portforwarding.py:9-70 | succeeds exactly on accepted lists for an eligible device whose edit is stored; a failure leaves the variables alone |
| `PortForwarding.WriteTouchesOnlyRules` | routers/smart_ems/routes/post_smart_ems_config_portforwarding.py:23-58 | unrelated variables stay, and the only rule variables left are the ones just printed |
| `PortForwarding.RoundTrip` | routers/smart_ems/routes/post_smart_ems_config_portforwarding.py:23-58 | reading after writing gives back the same rules in order, whatever was stored before |
| `Nat.AddRules` | routers/smart_ems/routes/post_smart_ems_config_nat.py:36-69 | accepts exactly the lists whose rules fit the LAN, differ inside and do not repeat an address, and prints them |
| `Nat.PostNat` | routers/smart_ems/routes/post_smart_ems_config_nat.py:8-81 | succeeds exactly on accepted configurations for an eligible device whose edit is stored; a failure leaves the variables alone |
| `Nat.GetNat` | routers/smart_ems/routes/get_smart_ems_config_nat.py:6-39 | the reader returns the configuration read from the variables, its flag in any letter case, or the error |
| `Nat.SubnetTexts` | helper.py:178-182 | a prefix length may be given as digits, as netmask or as host mask |
| `Nat.PrefixHasItsText` | helper.py:178-182 | and in no other way |
| `Nat.InSubnetIs` | helper.py:178-182 | an address is in the subnet exactly when it lies in the aligned interval around the network's |
| `Nat.ShownFlagReadsBack` | helper.py:123-129 | a flag stored as a variable is read back as the same flag, an absent one not at all |
| `Nat.KeysInjective` | routers/smart_ems/routes/post_smart_ems_config_nat.py:59-61 | no two indices or kinds of NAT variable share a key |
| `Nat.WriteTouchesOnlyNat` | routers/smart_ems/routes/post_smart_ems_config_nat.py:22-69 | unrelated variables stay, and the only machine variables left are the ones just printed, none when disabled |
| `Nat.RoundTrip` | routers/smart_ems/routes/post_smart_ems_config_nat.py:22-69 | an enabled list is read back in order; a disabled one is read back as disabled and empty |
| `Nat.ForwardingKeepsNat` | routers/smart_ems/routes/post_smart_ems_config_portforwarding.py:23-58 | writing port-forwarding rules leaves the NAT configuration as read before |
| `Nat.NatKeepsForwarding` | routers/smart_ems/routes/post_smart_ems_config_nat.py:22-69 | writing NAT rules leaves the port-forwarding rules as read before |
| `Abac.EvaluateMeansAccess` | authorization/abac_permission_check.py:65-113 | the evaluation accepts exactly admins and users with a granting team that is unscoped or matches |
| `Abac.OneAttributeScope` | authorization/abac_permission_check.py:31-62 | a scope of one attribute admits a device that has a value there and the wanted one, or one of the wanted ones |
| `Abac.ScopeByAttributes` | authorization/abac_permission_check.py:31-62 | an ALL scope admits what each of its attributes alone admits, a non-empty ANY scope what one of them does, an empty scope everything |
| `Abac.Authorize` | authorization/abac_permission_check.py:147-220 | the step-by-step check gives the specified denial, looking up the device only when a scope has to be evaluated |
| `Abac.PathsAgree` | authorization/device_access.py:25-55 | for every user, permission and existing device the four paths accept exactly when the evaluation does |
| `Abac.OneDifferenceRefuses` | authorization/abac_permission_check.py:59-60 | a device that differs in one attribute of every granting team's ALL scope is refused on all four paths |
| `Abac.AgreementAccepts` | authorization/abac_permission_check.py:31-62 | a device that agrees with one granting team's scope is accepted on all four paths |
| `Abac.UnknownCallerRefused` | authorization/abac_permission_check.py:147-180 | a caller without a known user id is refused on all four paths |
| `Abac.DenialMeans` | authorization/abac_permission_check.py:176-218 | reason by reason, exactly when a known caller is refused for it |
| `Abac.MissingDevice` | authorization/abac_permission_check.py:147-220 | a missing device or device id is refused exactly to scope-restricted callers, the latter only where required, by the shared check and the per-device one alike |
| `Abac.PatchAcceptedIff` | authorization/abac_permission_check.py:233-263 | a metadata patch passes exactly when the device is in scope before and after it |
| `Abac.PatchesStayInScope` | db/sqlalchemy/device.py:194-221 | no sequence of metadata patches by a user, each updated before the next is checked, takes a device out of that user's scope |
| `Abac.LastPatcherHasAccess` | db/sqlalchemy/device.py:194-221 | after any such sequence by anyone, the device is valid and in the scope of whoever changed it last, or nothing has changed |
| `Abac.UpdateKeepsScopeIff` | db/sqlalchemy/device.py:205-218 | an update keeps the device in its user's scope exactly when it changes nothing or its check would pass again at that moment |
| `Abac.InterleavedStayInScopeIff` | authorization/abac_permission_check.py:233-263 | checks and updates of one user in any interleaving keep the device in scope throughout exactly when every update is of that kind |
| `Abac.InterleavedPatchesLeaveScope` | db/sqlalchemy/device.py:194-221 | two patches that pass one after the other and, checked before either updates, take the device out of scope |
| `PasswordRenewal.ScheduleBounds` | routers/smart_ems/routes/post_smart_ems_device_secret_request.py:46-50 | the scheduled time is more than 3599 and at most 89999 seconds after the request |
| `PasswordRenewal.ScheduleIsFirst` | routers/smart_ems/routes/post_smart_ems_device_secret_request.py:46-50 | it is the first 23:59:59 more than 3599 seconds ahead |
| `PasswordRenewal.RunKeepsOk` | db/sqlalchemy/password_renewal_task.py:22-83 | over any run a device has at most one pending task, a task is in error exactly when it failed five times, and scheduled times keep their bounds |
| `PasswordRenewal.PendingStep` | db/sqlalchemy/password_renewal_task.py:31-83 | a pending task is completed exactly by a due pass that renews it, in error exactly by its fifth failing one, cancelled exactly by a manual renewal or a late request, and otherwise pending |
| `PasswordRenewal.NewTask` | routers/smart_ems/routes/post_smart_ems_device_secret_request.py:52-66 | a task appears exactly by a request that finds none pending or comes in the last hour of a day, pending and without errors |
| `PasswordRenewal.RequestLeavesOne` | routers/smart_ems/routes/post_smart_ems_device_secret_request.py:52-66 | after a request its device has exactly one pending task |
| `PasswordRenewal.PurgeStepOf` | db/sqlalchemy/password_renewal_task.py:85-96 | exactly the completed tasks older than the cutoff go |
| `PasswordRenewal.FinalIsAbsorbing` | db/sqlalchemy/password_renewal_task.py:31-83 | a completed, cancelled or failed task never changes again; only completed ones are purged |
| `PasswordRenewal.PendingCountsPasses` | routers/smart_ems/password_renewal_task_processor.py:13-41 | while a task stays pending its error count is the number of passes it was due for |
| `PasswordRenewal.LeavesPendingWithinFivePasses` | routers/smart_ems/password_renewal_task_processor.py:13-41 | every due task leaves pending within five passes, whatever happens between them |
| `PasswordRenewal.TaskTable.ScheduleRenewal` | routers/smart_ems/routes/post_smart_ems_device_secret_request.py:41-66 | before 23:00 a pending task is kept, from then on replaced by one for the next day |
| `PasswordRenewal.TaskTable.UpdateTaskError` | db/sqlalchemy/password_renewal_task.py:76-83 | counts the failure and makes it final at the fifth |
| `PasswordRenewal.TaskTable.Process` | routers/smart_ems/password_renewal_task_processor.py:13-41 | one pass attempts exactly what is due at its start, once each |
| `PasswordRenewal.TaskTable.PurgeCompleted` | db/sqlalchemy/password_renewal_task.py:85-96 | deletes exactly the completed entries created before the cutoff |
| `PasswordRenewal.TaskTable.Renew` | routers/smart_ems/routes/post_smart_ems_device_secret_renew.py:7-22 | pending tasks of the device are cancelled exactly when the remote renewal succeeded |
| `Transaction.InsideIsPending` | db/transaction.py:29-55 | inside a block nothing becomes durable, for any tree of nested blocks, flushes that may fail, refused statements, errors and handlers |
| `Transaction.AllOrNothing` | db/transaction.py:49-77 | the outermost block makes its whole pending effect durable or nothing, the former exactly when its body ends well, no flush failed, no statement was refused and the commit succeeds, and always clears the flag |
| `Transaction.FailureIsFinal` | db/transaction.py:49-77 | once a flush has failed or a statement was refused in a block nothing of the block is kept, whatever handles the error and whatever follows |
| `Transaction.FlagRestored` | db/transaction.py:57-77 | the defer flag ends as it began for every program and outcome |
| `Transaction.FlattenKeepsEffect` | db/transaction.py:52-55 | writing nested blocks out in place does not change a program's effect |
| `Transaction.NestedBlocksDissolve` | db/transaction.py:52-55 | so the outermost block behaves the same with its nested blocks dissolved |
| `Transaction.HandledErrorKeepsWrites` | db/transaction.py:52-55 | writes before an inner error that is handled commit with the rest |
| `Transaction.CommitOutside` | db/transaction.py:29-34 | a commit outside a block makes what the session sees durable, or fails and changes nothing durable |
| `Transaction.CommitKeepsAll` | db/transaction.py:29-34 | so it does after any program that ends normally |
| `Transaction.NothingWithoutCommit` | db/transaction.py:29-34 | without a commit or a block nothing becomes durable |
| `Transaction.BatchesAreDurable` | db/transaction.py:29-34 | of writes in batches, each followed by a commit, all are durable when the commits get through |
| `Transaction.FailedBatchIsLost` | db/transaction.py:29-34 | when one fails, the batches before it stay and its own is lost |
| `Transaction.ReleaseEndsRead` | db/transaction.py:37-46 | releasing a read outside a block changes nothing durable and leaves nothing pending; inside it only fails |
| `Transaction.Session.AtomicSession` | db/transaction.py:49-77 | the block as executed on the session is the specified one |
| `Transaction.Session.CommitOrFlush` | db/transaction.py:29-34 | commits outside a block, only flushes inside; either may fail |
| `Transaction.Session.ReleaseReadTransaction` | db/transaction.py:37-46 | rolls an open read back outside a block, raises inside |
| `ReplaceFilters.OverlapIsSymmetric` | extensions/registry.py:247-255 | the overlap check does not depend on the order of the filters |
| `ReplaceFilters.OverlapMeansCommonContext` | extensions/registry.py:247-255 | some context satisfies both filters exactly when they overlap and have no empty value list |
| `ReplaceFilters.EmptyListOverlaps` | extensions/registry.py:247-255 | a pair of filters reported as overlapping that no context satisfies |
| `Extensions.ClashSymmetric` | extensions/registry.py:258-280 | two UI sections replace the same thing in overlapping contexts whichever is checked against the other |
| `Extensions.CollideMeans` | extensions/registry.py:258-280 | contributions collide exactly when both replace the same slot of the same target in overlapping contexts |
| `Extensions.ConflictMeans` | extensions/registry.py:258-280 | a conflict is a collision with a contribution of another enabled extension |
| `ExtensionRepository.Repository.ValidateActionOwnership` | extensions/registry.py:201-225 | accepts exactly manifests that claim own or unknown actions and whose named required actions are claimed or exist unowned |
| `ExtensionRepository.Repository.ValidateUiRequiredActions` | extensions/registry.py:228-244 | accepts exactly UI sections with a free remote name and existing or claimed actions |
| `ExtensionRepository.Repository.FindClash` | extensions/registry.py:269-280 | the pairwise search finds a collision exactly when there is one |
| `ExtensionRepository.Repository.CheckReplaceConflicts` | extensions/registry.py:258-280 | reports a conflict exactly when another enabled extension already replaces the same thing in an overlapping context |
| `ExtensionRepository.Repository.RecordExtensionActions` | db/sqlalchemy/extension.py:315-326 | adds one owner row per action, or fails when one of them has an owner |
| `ExtensionRepository.Repository.EnrollActions` | extensions/registry.py:407-418 | catalog rows and owner rows together, or a failure |
| `ExtensionRepository.Repository.ReplaceUpstreamsAndRoutes` | db/sqlalchemy/extension.py:184-243 | the extension's routes are exactly the manifest's under fresh ids, other rows stay; fails on an unknown required action |
| `ExtensionRepository.Repository.DeleteOrphanedActions` | db/sqlalchemy/extension.py:363-373 | of the given actions exactly those without owner and grant are deleted; fails when a route still requires one |
| `ExtensionRepository.Repository.StripActionsFromAllRoles` | extensions/registry.py:421-430 | no role holds any of the actions afterwards, all other grants stay |
| `ExtensionRepository.Repository.RefreshPending` | extensions/registry.py:346-359 | rewrites mode and schema of exactly the referring routes of the extensions |
| `ExtensionRepository.Repository.RegisterExtension` | extensions/registry.py:485-498 | the whole registration takes effect or nothing does |
| `ExtensionRepository.Repository.ReplaceExtension` | extensions/registry.py:536-551 | the whole replacement takes effect or nothing does |
| `ExtensionRepository.Repository.DeregisterExtension` | extensions/registry.py:627-645 | the whole deregistration takes effect or nothing does |
| `ExtensionRepository.Repository.EnableExtension` | extensions/registry.py:648-658 | sets the flag exactly when no enabled extension conflicts |
| `ExtensionRepository.Repository.DisableExtension` | extensions/registry.py:661-667 | clears the flag of an existing extension and nothing else |
| `ExtensionLaws.RegisterKeepsSound` | extensions/registry.py:469-502 | registering keeps single ownership, untouched platform actions, valid grants, routes and required actions, unique remote names and exclusive replacements |
| `ExtensionLaws.ReplaceKeepsSound` | extensions/registry.py:505-554 | so does replacing, whatever grants happened between its check and its commit |
| `ExtensionLaws.ReplaceRevokesNothing` | extensions/registry.py:549-551 | replace keeps every grant; a dropped action loses its owner and stays in the catalog exactly when some role holds it |
| `ExtensionLaws.DeregisterKeepsSound` | extensions/registry.py:627-645 | deregistering keeps the same invariants |
| `ExtensionLaws.DeregisterLeavesNothing` | extensions/registry.py:627-645 | afterwards no row, route, owner row, action or grant of the extension is left |
| `ExtensionLaws.EnableKeepsSound` | extensions/registry.py:648-658 | enabling keeps the invariants, exclusive replacements among them |
| `ExtensionLaws.RefreshKeepsSound` | extensions/registry.py:346-384 | refreshing keeps the invariants |
| `ExtensionLaws.RefreshIsReregistration` | extensions/registry.py:297-313 | a refreshed route is what registering its manifest entry with the new fetch outcome would have stored; declared bodies never change |
| `ExtensionLaws.GrantsKeepSound` | db/sqlalchemy/role.py:93-186 | granting, revoking and deleting roles keep the invariants |
| `ExtensionEffects.AcceptedIffSound` | extensions/registry.py:113-163 | a route entry is accepted exactly when the row it becomes is sound |
| `ExtensionEffects.ManifestMeans` | extensions/registry.py:92-163 | a manifest is accepted exactly when no action is claimed twice and every entry is accepted |
| `ExtensionEffects.RegisterSucceedsIff` | extensions/registry.py:469-502 | a registration goes through exactly when name and claimed actions are new, required ones may be, and the UI section fits |
| `ExtensionEffects.ReplaceGoesThroughIff` | extensions/registry.py:505-554 | the same of a replacement, with its own actions, conflicts and the empty name |
| `ExtensionEffects.ReplaceCheckMeans` | extensions/registry.py:516-531 | the check before a replacement refuses exactly to drop an action some role holds, besides unknown names and bad manifests |
| `ExtensionEffects.FlagEffects` | extensions/registry.py:648-667 | enabling sets, disabling clears one flag and changes nothing else |
| `ExtensionEffects.RefreshEffect` | extensions/registry.py:346-359 | a refetch changes mode and body of the referring routes of the named extensions and nothing else |
| `ExtensionEffects.RoleEffects` | db/sqlalchemy/role.py:93-186 | which grants and roles are there after granting, revoking and deleting |
| `EmptyActionName.StrictExactlyWhenClaimed` | extensions/registry.py:214-225 | registration excludes requiring another extension's action, in every sound state, exactly when the manifest claims the empty name or no route requires it |
| `EmptyActionName.RegisterStrictIff` | extensions/registry.py:214-225 | in one state, exactly when that or nobody owns the empty name |
| `EmptyActionName.ReplaceStrictIff` | extensions/registry.py:536-551 | the same of a replacement: exactly when the manifest claims the empty name or does not use it, or no other extension owns it |
| `EmptyActionName.ReplaceCanTakeEmptyName` | extensions/registry.py:536-551 | a concrete replacement that passes every check and leaves a route requiring another extension's action |
| `EmptyActionName.ReplaceSucceedsIff` | extensions/registry.py:548-551 | a checked replacement goes through exactly unless a route requires an empty name nobody has, or it drops an ungranted empty name that some route will still require |
| `EmptyActionName.DeregisterSucceedsIff` | extensions/registry.py:641-645 | an extension can be deregistered exactly when it exists and does not own an empty-named action that another extension's route requires |
| `LiveRoutes.Runtime.AddRoutesFromSpecs` | extensions/runtime.py:163-250 | appends each stored route to the app of its visibility, up to the first that cannot be built |
| `LiveRoutes.Runtime.BuildRoutes` | extensions/runtime.py:253-273 | the live tables are the same afterwards, built or not, and the built routes are the specified ones |
| `LiveRoutes.Runtime.PublishRoutes` | extensions/runtime.py:276-301 | replaces the extension's routes in all three tables and drops exactly their validators |
| `LiveRoutes.ValidatorCache.Validate` | extensions/body_validation.py:61-80 | validates with the cached validator, filling the cache when it is empty for the id |
| `LiveRoutes.FirstValidatorStays` | extensions/body_validation.py:61-67 | the first validator of a route stays until it is dropped, and other routes' are not touched |
| `LiveRoutes.BuildIsExact` | extensions/runtime.py:163-250 | whatever order the database lists the routes in, building gives each persisted route once, in the app of its visibility |
| `LiveRoutes.PublishReplacesOwn` | extensions/runtime.py:288-299 | after publishing, the extension has exactly the built routes, and every other route is where it was |
| `LifecycleRuns.RegisterOk` | extensions/registry.py:469-502 | a registration at any moment keeps the stored invariants and the handlers, and touches no other extension |
| `LifecycleRuns.ReplaceCommitOk` | extensions/setup.py:202-203 | so does a replacement commit, which leaves the lock holder with what it knew |
| `LifecycleRuns.RemountOk` | extensions/setup.py:206-215 | so does the build and publication after it, failed or not, and it makes the live routes right whatever they were |
| `LifecycleRuns.EnableCommitOk` | extensions/setup.py:260-260 | so does the commit of an enable, which changes no live route |
| `LifecycleRuns.DetailTracks` | extensions/registry.py:433-466 | reading the details back takes the live routes off track exactly when it fails after a commit that calls for other live routes |
| `LifecycleRuns.LoadAllMounts` | extensions/runtime.py:304-321 | after the startup loop exactly the extensions it reached and could build are mounted |
| `LifecycleRuns.RestartKeeps` | extensions/setup.py:385-403 | a restart from any reachable state, in the middle of any operation, keeps the invariant |
| `LifecycleRuns.RestartTracks` | extensions/runtime.py:304-321 | after a restart an extension's live routes are right exactly unless the startup left it out although it has routes |
| `LifecycleTheorems.StepKeeps` | extensions/setup.py:197-278 | every step of the system keeps the invariant |
| `LifecycleTheorems.StepTracks` | extensions/setup.py:197-278 | an extension on track is off it after a step exactly when the step is one of the three breaking kinds, and then with its lock free |
| `LifecycleTheorems.RunKeeps` | extensions/setup.py:197-278 | so every state of every run satisfies it |
| `LifecycleTheorems.CatalogOverRuns` | extensions/registry.py:201-225 | in every reachable state each action has at most one owner, platform actions exist unowned, grants name existing actions, required actions exist and named ones are unowned or the route's own extension's |
| `LifecycleTheorems.StrictOverRuns` | extensions/registry.py:214-225 | the empty name included, exactly when no registration or replacement in the run takes another extension's empty name |
| `LifecycleTheorems.ClaimedIsStrictOverRuns` | extensions/registry.py:214-225 | so always when every manifest sent claims the empty name or does not use it |
| `LifecycleTheorems.ReplacementsOverRuns` | extensions/registry.py:258-280 | in every reachable state no two enabled extensions replace the same thing in overlapping contexts |
| `LifecycleTheorems.LiveOverRuns` | extensions/setup.py:197-278 | from a first start, an extension has, whenever its lock is free, exactly its persisted routes mounted when enabled and none otherwise, exactly when no step broke that: failing details, a publication of a build older than the registration, a startup that left it out |
| `LifecycleTheorems.LiveSince` | extensions/setup.py:197-278 | the same from any moment at which they were right |
| `LifecycleTheorems.EnableMounts` | extensions/setup.py:251-262 | a successful enable of a registered extension leaves it enabled, mounted and unlocked |
| `LifecycleTheorems.RemountMountsOrDisables` | extensions/setup.py:206-215 | a replaced enabled extension ends mounted with its new routes, or unmounted on the way to disabled |
| `LifecycleTheorems.FailedRemountDisables` | extensions/setup.py:209-213 | a failed remount ends disabled, unmounted and unlocked |
| `LifecycleTheorems.CacheAgrees` | extensions/body_validation.py:54-80 | in every reachable state validating through the cache, in a live handler or one still running after its unmount, equals fresh validation with that route's schema |
| `LifecycleTheorems.LiveHandlersAreKnown` | extensions/runtime.py:100-134 | every live declared route has such a handler, and its schema is the stored one while the route is stored |
| `LifecycleTheorems.DeregisterFinishes` | extensions/setup.py:232-234 | a finished deregister leaves nothing stored of the extension and its actions, and nothing mounted |
| `LifecycleTheorems.StartupRefetches` | extensions/registry.py:378-384 | a start that refetches gives every referring route of an enabled extension the schema fetched or none, and changes nothing else |
| `LifecycleFailures.DetailAfterDisable` | extensions/registry.py:661-667 | before a disable: the details can be read back afterwards exactly when they can now |
| `LifecycleFailures.DetailAfterEnable` | extensions/registry.py:648-658 | before an enable: exactly when the stored base URLs are allowed and the refetched bodies are objects |
| `LifecycleFailures.DetailAfterStore` | extensions/registry.py:544-554 | before a replace: exactly when the manifest's base URLs are allowed and its fetched bodies are objects |
| `LifecycleFailures.DetailsNeverFail` | extensions/upstreams/http.py:232-243 | in a run in which upstreams answer with objects and stored base URLs stay allowed, they can be read back in every state |
| `LifecycleFailures.DisableLeavesMounted` | extensions/setup.py:275-278 | otherwise a disable leaves the extension disabled with all its routes live |
| `LifecycleFailures.EnableLeavesUnmounted` | extensions/setup.py:251-262 | an enable leaves it enabled with nothing live |
| `LifecycleFailures.ReplaceLeavesStale` | extensions/setup.py:202-216 | a replace leaves only dropped routes live and none of the stored ones |
| `LifecycleFailures.EnableSucceeds` | extensions/setup.py:251-262 | with allowed URLs and fetched objects a whole enable request mounts exactly the stored routes |
| `LifecycleFailures.LateEnableMountsNothing` | extensions/setup.py:251-262 | whenever an enable publishes a build made before the extension was registered, it ends enabled with nothing mounted, whatever happened in between |
| `LifecycleFailures.OnlyStartupLeavesUnmounted` | extensions/runtime.py:304-321 | with no failing details and no registration that slips past an enable, live routes are wrong only after a startup that left the extension out |
| `LifecycleFailures.RemountIds` | extensions/body_validation.py:70-72 | an extension's stored route ids at two moments of a run are disjoint when it was replaced, registered or removed in between, and equal otherwise |
| `LifecycleFailures.RemountedIds` | extensions/body_validation.py:70-72 | and so are the ids mounted at two moments at which it is exactly mounted |
| `ManifestRoutes.RegisterStores` | db/sqlalchemy/extension.py:184-243 | a registration stores the i-th route entry under the i-th new id, with its upstream, visibility, action and flags, and the body it gives or refers to |
| `ManifestRoutes.ReplaceStores` | db/sqlalchemy/extension.py:184-243 | so does a replacement |
| `ManifestRoutes.ManifestOverRuns` | extensions/registry.py:297-313 | in every run the stored routes stay the entries of the last manifest until the extension is stored anew or removed |
| `ManifestRoutes.ServesItsManifest` | extensions/runtime.py:163-250 | in every run an enabled extension whose live routes are right serves each entry of its last manifest once, in the app of its visibility and with its own body, and nothing else |
| `ManifestRoutes.RegisterThenEnableServes` | extensions/setup.py:251-262 | so it does after a registration and an enable that succeed |
| `LifecycleExamples.DisabledMountedHappens` | extensions/setup.py:275-278 | a run from a first start to a disabled extension with everything live |
| `LifecycleExamples.EnabledUnmountedHappens` | extensions/setup.py:251-262 | a run to an enabled extension with nothing live |
| `LifecycleExamples.StaleHappens` | extensions/setup.py:202-216 | a run to an enabled extension with only a dropped route live |
| `LifecycleExamples.LateEnableHappens` | extensions/setup.py:108-112 | a run in which a registration slips past an enable request and nothing is mounted |

## Left out

- HTTP proxying, IoT Hub, SEMS, blob storage, tokens, audit logs and the side apps' servers: calls to other systems.
- JSON Schema, Pydantic, FastAPI and regular-expression engines: uninterpreted functions that may fail; only the port-forwarding text has a parser of its own.
- Keys and their hashes, device keys, upstream health results, action descriptions and `is_global`: stored and returned, nothing depends on them here.
- Error messages and status codes: an error is one of a few named failures or a refusal.
- The `suggested_ips` list of the scan range and IPv6 addresses among the known points: the range is proved for IPv4 points.
- Labels, descriptions, instance data and browser kinds shown in the overview: copied from the configuration row.
- `int()` of signed, spaced, underscored or non-ASCII digit text, the text form of floats, and JSON lists and objects beyond their text, which Python compares by structure: such role values count as not numeric or are kept as opaque text; no field type admits them. NaN and infinities.
- Unicode classes of `\w`, `\d`, `strip` and `lower`: ASCII only.
- `resolve_fields` and `merge_type_fields`: presentation of defaults, not part of what is stored.
- Scope filtering in the plain device list: it uses resolved values and makes no promise about raw metadata.
- `ABACResolvedDeviceCheck` and `ABACAnyPermissionCheck`: they find a device or try several permissions and then use the modelled evaluation.
- Database isolation anomalies between requests, and a request cancelled, or a database failing, between a commit and its publication: each atomic block is one step, and after its commit a lock holder fails only where reading the details does.
- `sync_permissions_to_db` (authorization/sync_permissions.py:10), which adds missing platform actions at every start: the platform actions are the same over a whole run, so a release that adds a platform permission under a name an extension owns is outside the runs.
- Changes of users, roles and scopes between the check of a metadata patch and its update.
- A database failure while a failed remount is being disabled: the step is taken to succeed, as every read is.
- The two reads, of upstreams and of routes, before a build: one step. Only a registration can fall between them, and as routes without a known upstream are skipped it has the effect of one right after the build.
- `replace:` contributions of one and the same extension that overlap, and UI actions removed after registration: the code does not check them.
- Plain reads and deletes of rows, migrations, bootstrap, deployments, template defaults and pagination: easy members only.
