# CloudStack plugin modules: a Dafny model

This project models the decision logic of three Ansible plugin modules for Apache
CloudStack:

- `cs_network` creates or deletes a network;
- `cs_virtualmachine` deploys a VM and moves it through its lifecycle;
- `cs_template` creates a template from a VM's root volume, registers one from a URL, or
  deletes one.

Every module talks to the management API through the `cs` client. For one run, the
model fixes the API's behaviour as data (class `CloudStack.Api`):

- the entries each listing call answers;
- the reply to each mutating call;
- the sequence of replies `queryAsyncJobResult` still has to give.

Every listing and job query is logged in `lookups`, and every mutating call in
`mutations`.

The shared base class `AnsibleCloudStack` holds the run's parameters, check mode and the
memo fields of the resolvers (project, zone, OS type, hypervisor, IP address). Each
resolver is a method whose contract says two things. First, it answers what a pure
lookup over the listing answers. Second, a memo once set is returned without another
listing call. `_poll_job` is a loop over the job replies that, by its contract, answers
`Jobs.Poll`.

Python values are modelled by `Py.Value` (None, booleans, integers, strings, lists,
dicts). A run that does not end normally ends in one of three errors:

- `Failed(msg)`: `fail_json`;
- `Raised(exn)`: an uncaught `KeyError`, `TypeError`, `AttributeError` or `NameError`;
- `Stalled`: a job that never reports completion within the replies modelled.

Each reconciling operation (create, remove, scale and so on) is written twice:

- a pure function `…Spec(replies)` returns a `Reconciled` value: the answer, whether the
  run reports a change, the mutating calls issued in order, and the number of job replies
  consumed;
- a method does the work step by step. Its contract ties the new state to that function:
  `result['changed']` is marked exactly when the function says so, `mutations` grows by
  exactly the function's calls, and the job replies shrink by exactly what it consumed.

The lemmas then state what the modules promise about those functions.

Modules: `Py` (Python semantics), `Lookup` (first-match scans and resolvers), `Jobs`
(async jobs), `Summary` (result building), `CloudStack` (API and base class), `Network`,
`VirtualMachine`, `Template`.

## Model

| member | source | states |
|---|---|---|
| Py.SplitJoin | cs_virtualmachine.py:462-472 | joining strings free of the separator with `','` and splitting the text again gives back exactly those strings |
| Lookup.FirstWhere | cs_network.py:97-102 | the scan stops at the first entry passing the test or at the first entry whose test raises; every entry before it fails the test; `Nowhere` means every entry fails it |
| Lookup.Scan | cs_network.py:97-102 | the `for` loop with early return stops where `FirstWhere` says |
| Lookup.FieldsOfRecord | cs_network.py:99 | on an entry carrying every compared key, `[e[k1], e[k2], …]` raises nothing and lists each key's value in order |
| Lookup.AnyFieldOnRecord | cs_network.py:99 | on such an entry, `ref in [e[k], …]` raises nothing and holds exactly when one compared field equals the reference |
| Lookup.FirstMatchOnRecords | cs_virtualmachine.py:370-382 | a first-match resolver over well-formed entries succeeds exactly when some entry holds the reference; it then answers the id of the first such entry, and otherwise fails with "<kind> '<ref>' not found" |
| Lookup.HoldsNameOrId | cs_network.py:116 | for name-and-id keys, holding the reference means the name or the id equals it |
| Lookup.ZoneLookupFirstMatch | cs_network.py:106-120 | with no zone given: the first zone's id, or a KeyError on an empty listing; otherwise the id of the first zone whose name or id is the reference, or "zone '<ref>' not found" |
| Lookup.ProjectLookupFirstMatch | cs_network.py:89-103 | an unset project resolves to None; otherwise the id of the first project whose name, display text or id is the reference, or "project '<ref>' not found" |
| Lookup.HypervisorKeepsListedSpelling | cs_virtualmachine.py:301-317 | the first hypervisor, or the first whose name equals the reference ignoring case, answers with the listing's own spelling; with none matching, "Hypervisor '<ref>' not found" |
| Lookup.IdsWhereKeepsError | cs_virtualmachine.py:427-430 | once the ids of a prefix cannot be collected, the whole listing fails the same way |
| Lookup.CollectIds | cs_virtualmachine.py:426-430 | the appending loop answers IdsWhere: the ids of the passing entries in order, or the first failure met |
| Lookup.Matching | cs_virtualmachine.py:427-430 | the positions of the entries passing the test, each once, in increasing order |
| Lookup.IdsWhereSelects | cs_virtualmachine.py:427-430 | when no test raises and passing entries carry an id, the collected ids are the ids of exactly the passing entries, in listing order |
| Lookup.NameOrIdInOnRecord | cs_virtualmachine.py:429 | a network with name and id passes get_network_ids' test exactly when its name or id is among the names |
| Jobs.Poll | cs_network.py:122-133 | a poll consumes at most the replies modelled |
| Jobs.Settle | cs_network.py:155-160 | the handling of a mutating call's reply consumes at most the replies modelled |
| Jobs.PollPassesThroughSyncReply | cs_network.py:123-133 | a handle without `jobid` comes back unchanged and no job is queried |
| Jobs.PollWaitsForFirstFinalReply | cs_network.py:122-133 | every reply before the one that stops the poll reports the job unfinished; the stopping reply is the first finished one; an `errortext` there is fatal, a present key substitutes `jobresult[key]`, and otherwise the original handle is answered; with no finished reply the poll stalls after consuming all replies |
| Jobs.PollSubstitutesKeyedResult | cs_network.py:129-131 | a pending reply, then a finished one holding `network`, give that network after two queries |
| Jobs.PollSurfacesErrorText | cs_network.py:127-128 | a finished job with error text "quota exceeded" fails with "Failed: 'quota exceeded'" |
| Jobs.SettleFailsOnErrorText | cs_network.py:156-160 | an `errortext` in the reply fails with "Failed: '<text>'" before any polling; otherwise the reply is polled exactly when `poll_async` is set |
| Summary.CopyPresentFromDict | cs_network.py:201-209 | copying from a dict raises nothing; each destination present in the source receives the source's value; other destinations and every key no pair writes keep what the result held |
| Summary.TagsFromOk | cs_virtualmachine.py:712-718 | folding well-formed tags raises nothing |
| Summary.TagsFromUntagged | cs_virtualmachine.py:712-718 | a key that no tag carries keeps its old value |
| Summary.TagsFromLastWins | cs_virtualmachine.py:712-718 | a key that some tag carries maps to the value of the last tag with that key |
| Summary.DefaultIpIsLastDefault | cs_virtualmachine.py:720-724 | the default address is the `ipaddress` of the last NIC with `isdefault`, and is unchanged when no NIC is default |
| CloudStack.Api.List | cs_network.py:97 | a listing call answers the run's listing and is logged, and nothing else changes |
| CloudStack.Api.Call | cs_network.py:155 | a mutating call answers the run's reply and is appended to `mutations` |
| CloudStack.Api.Query | cs_network.py:125 | a job query answers the next job reply and consumes it, or answers nothing once the replies are used up |
| CloudStack.AnsibleCloudStack.constructor | cs_network.py:57-70 | every memo starts unset |
| CloudStack.AnsibleCloudStack.GetProjectId | cs_network.py:89-103 | answers the project lookup. A set memo is returned with no listing; an unset project answers None with no listing; otherwise one listProjects call, and the match is memoised |
| CloudStack.AnsibleCloudStack.GetZoneId | cs_network.py:106-120 | answers the zone lookup. A set memo is returned with no listing; otherwise exactly one listZones call, and the answer is memoised |
| CloudStack.AnsibleCloudStack.GetOsTypeId | cs_virtualmachine.py:284-298 | as get_project_id, over the OS types by description or id |
| CloudStack.AnsibleCloudStack.GetHypervisor | cs_virtualmachine.py:301-317 | answers the hypervisor lookup; a set memo is returned with no listing; otherwise one listHypervisors call, and the listed name is memoised |
| CloudStack.AnsibleCloudStack.GetIpAddressId | cs_virtualmachine.py:225-242 | fails without an address; otherwise the id of the first public address listed for it and the project, or "IP address '<ip>' not found"; memoised |
| CloudStack.AnsibleCloudStack.IpAddressOnRecords | cs_virtualmachine.py:225-242 | no address fails with "IP address param 'ip_address' is required"; otherwise "IP address '<ip>' not found" exactly when none is listed, and the id of the first listed address when one is |
| CloudStack.AnsibleCloudStack.PollJob | cs_network.py:122-133 | the loop answers `Jobs.Poll` over the replies; it consumes exactly the replies the poll consumed and logs one query per reply |
| CloudStack.AnsibleCloudStack.SettleReply | cs_network.py:155-160 | the reply handling answers `Jobs.Settle`, consuming exactly its replies |
| Network.NetworkModule.CreateSpec | cs_network.py:144-161 | what create_network does; it consumes at most the replies modelled (properties in CreateOnlyWhenAbsent) |
| Network.NetworkModule.RemoveSpec | cs_network.py:163-174 | what remove_network does; it consumes at most the replies modelled (properties in RemoveOnlyWhenPresent) |
| Network.NetworkModule.ReconcileSpec | cs_network.py:254-259 | remove for state 'absent', create otherwise |
| Network.NetworkModule.constructor | cs_network.py:137-142 | the result starts as `{'changed': False}` |
| Network.NetworkModule.GetNetwork | cs_network.py:176-185 | one listNetworks call; the first network whose name or id is the `name` parameter, or None |
| Network.NetworkModule.GetNetworkOfferingId | cs_network.py:187-198 | one listNetworkOfferings call; the first offering when none is given, else the id of the first matching by name or id, else "Network offering '<ref>' not found" |
| Network.NetworkModule.GetNetworkId | cs_network.py:212-226 | answers the lookup by name, display text or id; memoised; an unset name answers None with no listing |
| Network.NetworkModule.CreateNetwork | cs_network.py:144-161 | runs CreateSpec: `changed` marked, mutations extended and job replies consumed exactly as it says |
| Network.NetworkModule.GetCreateArgs | cs_network.py:148-153 | the createNetwork arguments answer CreateArgsSpec: display text and name from the parameters, then project, zone and offering lookups, the first failure ending the run |
| Network.NetworkModule.Issue | cs_network.py:155-160 | one mutating call appended to `mutations`, its reply handled as `Jobs.Settle` says and exactly the replies it consumes taken |
| Network.NetworkModule.RemoveNetwork | cs_network.py:163-174 | runs RemoveSpec in the same way |
| Network.NetworkModule.GetResult | cs_network.py:201-209 | the result becomes ResultSpec of the old result |
| Network.NetworkModule.Execute | cs_network.py:250-259 | the dispatch of main followed by get_result answers MainSpec |
| Network.NetworkModule.CreateOnlyWhenAbsent | cs_network.py:144-161 | a change exactly when no network matches; at most one call; none in check mode; otherwise createNetwork with display text, name, project, zone and offering; an existing network answers None |
| Network.NetworkModule.RemoveOnlyWhenPresent | cs_network.py:163-174 | a change exactly when a network matches; at most one call; none in check mode; otherwise deleteNetwork with the found id |
| Network.NetworkModule.CheckModeNeverMutates | cs_network.py:154-167 | check mode issues no call and consumes no reply, and reports a change exactly when the network's existence disagrees with the declared state |
| Network.NetworkModule.CreateErrorTextIsFatal | cs_network.py:156-157 | an `errortext` in the createNetwork reply fails with "Failed: '<text>'" |
| Network.NetworkModule.RemoveErrorTextIsFatal | cs_network.py:168-170 | an `errortext` in the deleteNetwork reply fails with "Failed: '<text>'" |
| Network.NetworkModule.ResultCopiesPresentKeys | cs_network.py:201-209 | `changed` is kept; id, name and displayname (as display_name) are copied exactly when present; no network leaves the result as it was |
| Network.DisplayTextOnlyFoundById | cs_network.py:176-226 | a network known only by its display text is found by get_network_id and not by get_network |
| Network.NetworkModule.NetworkLookupsOnRecords | cs_network.py:176-226 | over networks carrying name, display text and id: get_network answers the first network matching by name or id, and None exactly when none does; get_network_id answers None for an unset name, otherwise the id of the first network matching by name, display text or id, failing with "network '<name>' not found" exactly when none does |
| VirtualMachine.NetworkIdsJoinAsWrittenRaises | cs_virtualmachine.py:444 | joining the None that get_network_ids answers raises a TypeError; the intended join gives '' |
| VirtualMachine.JoinNetworkIdsRoundTrip | cs_virtualmachine.py:444 | the intended join gives '' for no networks, and otherwise a text that splits back into exactly the ids |
| VirtualMachine.GroupNamesRoundTrip | cs_virtualmachine.py:462-472 | group names are '' when none are given, and otherwise split back into the names |
| VirtualMachine.FoldTags | cs_virtualmachine.py:712-718 | the tag loop answers the fold `TagsFrom` |
| VirtualMachine.FoldDefaultIp | cs_virtualmachine.py:720-723 | the NIC loop answers `DefaultIpFrom` |
| VirtualMachine.Summarize | cs_virtualmachine.py:674-724 | the summary statements of main answer `VmSummary` |
| VirtualMachine.AddTags | cs_virtualmachine.py:712-718 | the tag folding of main answers WithTags: `result['tags']` is the tag dictionary when the VM has tags, and the result is kept otherwise |
| VirtualMachine.AddNic | cs_virtualmachine.py:720-724 | the NIC statements of main answer WithNic: the last default NIC's address and the NIC list when the VM has NICs, the result kept otherwise |
| VirtualMachine.SummaryPairsLeaveExtras | cs_virtualmachine.py:679-710 | the copied keys are distinct and never `changed`, `tags`, `nic` or `default_ip` |
| VirtualMachine.SummaryRejectsErrorState | cs_virtualmachine.py:676-677 | a VM in state 'Error' fails with "Virtual machine named '<name>' in error state." |
| VirtualMachine.WithTagsOfWellFormed | cs_virtualmachine.py:712-718 | well-formed tags land folded under `tags`, and nothing else changes |
| VirtualMachine.WithNicOfWellFormed | cs_virtualmachine.py:720-724 | NICs land under `nic` and the last default NIC's address under `default_ip`; nothing else changes |
| VirtualMachine.EmptyTagsAndNics | cs_virtualmachine.py:712-724 | an empty dict or string under `tags` gives an empty tag map and one under `nic` is copied with no `default_ip`; any other value that is not a list raises a TypeError |
| VirtualMachine.SummaryOfWellFormedVm | cs_virtualmachine.py:674-724 | `changed` is kept; each of the eleven keys is copied under its result name exactly when present; tags fold with the last tag winning; default_ip comes from the last default NIC |
| VirtualMachine.VirtualMachineModule.Issue | cs_virtualmachine.py:474-482 | a mutating call with the usual reply handling consumes at most the replies modelled |
| VirtualMachine.VirtualMachineModule.CreateSpec | cs_virtualmachine.py:434-483 | what create_vm does (properties in CreateOnlyWhenAbsent) |
| VirtualMachine.VirtualMachineModule.RemoveSpec | cs_virtualmachine.py:505-519 | what remove_vm does (properties in RemoveOnlyWhenLive) |
| VirtualMachine.VirtualMachineModule.ExpungeSpec | cs_virtualmachine.py:522-542 | what expunge_vm does (properties in ExpungeByState) |
| VirtualMachine.VirtualMachineModule.StopSpec | cs_virtualmachine.py:545-561 | what stop_vm does (properties in StopOnlyFromStarting) |
| VirtualMachine.VirtualMachineModule.StartSpec | cs_virtualmachine.py:564-581 | what start_vm does (properties in StartOnlyWhenStopped) |
| VirtualMachine.VirtualMachineModule.RestartSpec | cs_virtualmachine.py:584-599 | what restart_vm does (properties in RestartByState) |
| VirtualMachine.VirtualMachineModule.ResumeSpec | cs_virtualmachine.py:498-500 | start and poll again only when the VM ran before |
| VirtualMachine.VirtualMachineModule.StopAndScaleSpec | cs_virtualmachine.py:494-496 | stop as stop_vm decides, poll, then scale the VM answered |
| VirtualMachine.VirtualMachineModule.StopAndPollSpec | cs_virtualmachine.py:494-495 | stop as stop_vm decides, then poll the stop job; a change either way |
| VirtualMachine.VirtualMachineModule.StopAndPoll | cs_virtualmachine.py:494-495 | runs StopAndPollSpec, the result map left as it was |
| VirtualMachine.VirtualMachineModule.ExpungeStepSpec | cs_virtualmachine.py:525-541 | the tail of expunge_vm: the call for the decided step unless in check mode, an `errortext` in a non-empty reply fatal, then the poll when poll_async is set |
| VirtualMachine.VirtualMachineModule.ExpungeStep | cs_virtualmachine.py:525-541 | runs ExpungeStepSpec in the same way |
| VirtualMachine.VirtualMachineModule.IssueCall | cs_virtualmachine.py:475-482 | one mutating call appended to `mutations`, its reply handled as `Jobs.Settle` says and exactly the replies it consumes taken |
| VirtualMachine.VirtualMachineModule.ScaleStepsSpec | cs_virtualmachine.py:493-500 | the steps of a scale outside check mode, in order |
| VirtualMachine.VirtualMachineModule.ScaleSpec | cs_virtualmachine.py:486-502 | what scale_vm does (properties in ScaleOnlyWhenOfferingDiffers, ScaleNeverStarts and ScaleRunningOnlyScales) |
| VirtualMachine.VirtualMachineModule.constructor | cs_virtualmachine.py:336-341 | the result starts as `{'changed': False}` and the VM memo is unset |
| VirtualMachine.VirtualMachineModule.GetVm | cs_virtualmachine.py:400-413 | answers the first VM of the project whose name, display name or id is the `name` parameter, or None; a found VM is memoised and returned without a listing |
| VirtualMachine.VirtualMachineModule.GetServiceOfferingId | cs_virtualmachine.py:344-355 | one listing call; the first offering when none is given, else the first matching by name or id, else "Service offering '<ref>' not found" |
| VirtualMachine.VirtualMachineModule.GetTemplateOrIsoId | cs_virtualmachine.py:358-382 | answers TemplateOrIsoSpec; neither or both given fail without a listing |
| VirtualMachine.VirtualMachineModule.GetDiskOfferingId | cs_virtualmachine.py:385-397 | an unset disk offering answers None with no listing; otherwise the first match by name or id, or "Disk offering '<ref>' not found" |
| VirtualMachine.VirtualMachineModule.GetNetworkIds | cs_virtualmachine.py:416-431 | answers NetworkIdsSpec: no names means None and no listing; otherwise the zone and project lookups, one listNetworks call and the ids collected from it |
| VirtualMachine.VirtualMachineModule.ResolveDeployIds | cs_virtualmachine.py:440-446 | the resolvers run in the source's order and answer DeployIdsSpec |
| VirtualMachine.VirtualMachineModule.CreateVm | cs_virtualmachine.py:434-483 | runs CreateSpec: `changed` marked, mutations extended and job replies consumed exactly as it says |
| VirtualMachine.VirtualMachineModule.RemoveVm | cs_virtualmachine.py:505-519 | runs RemoveSpec in the same way |
| VirtualMachine.VirtualMachineModule.ExpungeVm | cs_virtualmachine.py:522-542 | runs ExpungeSpec in the same way |
| VirtualMachine.VirtualMachineModule.StopVm | cs_virtualmachine.py:545-561 | runs StopSpec in the same way |
| VirtualMachine.VirtualMachineModule.StartVm | cs_virtualmachine.py:564-581 | runs StartSpec in the same way |
| VirtualMachine.VirtualMachineModule.RestartVm | cs_virtualmachine.py:584-599 | runs RestartSpec in the same way |
| VirtualMachine.VirtualMachineModule.Resume | cs_virtualmachine.py:498-500 | runs ResumeSpec |
| VirtualMachine.VirtualMachineModule.StopAndScale | cs_virtualmachine.py:494-496 | runs StopAndScaleSpec |
| VirtualMachine.VirtualMachineModule.ScaleSteps | cs_virtualmachine.py:493-500 | runs ScaleStepsSpec |
| VirtualMachine.VirtualMachineModule.ScaleVm | cs_virtualmachine.py:486-502 | runs ScaleSpec |
| VirtualMachine.VirtualMachineModule.TemplateOrIsoExactlyOne | cs_virtualmachine.py:358-382 | neither template nor ISO fails with "Template or ISO is required."; both fail with "Template are ISO are mutually exclusive."; with exactly one, it succeeds exactly when an image matches by display text, name or id, answers the first match's id, and otherwise fails with "Template/ISO '<ref>' not found" |
| VirtualMachine.VirtualMachineModule.NetworkIdsInListingOrder | cs_virtualmachine.py:416-431 | no names answers None; otherwise the ids of exactly the networks whose name or id is among the names, in listing order |
| VirtualMachine.VirtualMachineModule.MissingVm | cs_virtualmachine.py:505-599 | with no VM found: remove, expunge and scale change nothing; stop fails with "not found"; start and restart raise a NameError; create reports a change |
| VirtualMachine.VirtualMachineModule.CreateOnlyWhenAbsent | cs_virtualmachine.py:434-483 | a change exactly when no VM is found; at most one call; none in check mode; otherwise deployVirtualMachine with the resolved arguments |
| VirtualMachine.VirtualMachineModule.DeployArgsFromParams | cs_virtualmachine.py:448-472 | the display name defaults to the name; name, group, keypair and size come from the parameters; user data is base64-encoded; group lists join with commas ('' when none) and split back into the names; the resolved ids are kept |
| VirtualMachine.VirtualMachineModule.NetworksUnsetJoin | cs_virtualmachine.py:416-444 | with no networks given, get_network_ids answers None, the as-written join raises a TypeError, and the intended deploy arguments pass `networkids` as '' |
| VirtualMachine.VirtualMachineModule.RemoveOnlyWhenLive | cs_virtualmachine.py:505-519 | a change exactly when the lower-cased state is not expunging, destroying or destroyed; none in check mode; otherwise destroyVirtualMachine with the id, answering the VM record when not polling |
| VirtualMachine.VirtualMachineModule.ExpungeByState | cs_virtualmachine.py:522-542 | destroying or destroyed calls expungeVirtualMachine; expunging does nothing; any other state calls destroyVirtualMachine with expunge; with no call, polling answers the empty reply `{}` |
| VirtualMachine.VirtualMachineModule.StopOnlyFromStarting | cs_virtualmachine.py:545-561 | a change exactly when the state is 'starting'; then stopVirtualMachine with the id outside check mode |
| VirtualMachine.VirtualMachineModule.StartOnlyWhenStopped | cs_virtualmachine.py:564-581 | a change exactly when the state is stopped or stopping; then startVirtualMachine with the id outside check mode |
| VirtualMachine.VirtualMachineModule.RestartByState | cs_virtualmachine.py:584-599 | running or starting reboots; stopping or stopped fails with "… not running, not restarted" (in check mode too); any other state is left alone; the reboot reply is not checked for an error text |
| VirtualMachine.VirtualMachineModule.ScaleOnlyWhenOfferingDiffers | cs_virtualmachine.py:486-492 | a change exactly when the VM's offering differs from the resolved one; no call when it does not, nor in check mode |
| VirtualMachine.VirtualMachineModule.ScaleNeverStarts | cs_virtualmachine.py:493-500 | as written, a scale never issues startVirtualMachine, whatever the VM's state |
| VirtualMachine.VirtualMachineModule.ScaleRunningOnlyScales | cs_virtualmachine.py:486-500 | as written, a running VM is neither stopped nor restarted: the one call is scaleVirtualMachine with its id and the new offering |
| Template.TemplateModule.AddSpec | cs_template.py:251-266 | what create and register share; it consumes at most the replies modelled (properties in AddOnlyWhenAbsent) |
| Template.TemplateModule.CreateSpec | cs_template.py:251-266 | create_template as intended; consumes at most the replies modelled |
| Template.TemplateModule.RegisterSpec | cs_template.py:269-296 | register_template; consumes at most the replies modelled |
| Template.TemplateModule.RemoveSpec | cs_template.py:323-332 | remove_template consumes no job reply (properties in RemoveOnlyWhenPresent) |
| Template.TemplateModule.ReconcileSpec | cs_template.py:397-405 | remove for 'absent'; otherwise create when a VM is named, register when not |
| Template.TemplateModule.constructor | cs_template.py:214-215 | the result starts as `{'changed': False}` |
| Template.TemplateModule.GetTemplate | cs_template.py:299-320 | the lookup loop answers TemplateSpec |
| Template.TemplateModule.GetTemplateArgs | cs_template.py:218-233 | answers TemplateArgsSpec |
| Template.TemplateModule.GetSourceVm | cs_template.py:236-248 | answers SourceVmSpec, the intended get_vm |
| Template.TemplateModule.CreateTemplate | cs_template.py:251-266 | runs CreateSpec: `changed` marked, mutations extended and job replies consumed exactly as it says |
| Template.TemplateModule.CallSpec | cs_template.py:258-265 | the call ending create_template and register_template: nothing in check mode; otherwise exactly the one call, its reply handled and consuming at most the replies modelled |
| Template.TemplateModule.Issue | cs_template.py:258-265 | runs CallSpec: mutations extended and job replies consumed exactly as it says |
| Template.TemplateModule.RegisterTemplate | cs_template.py:269-296 | runs RegisterSpec in the same way |
| Template.TemplateModule.GetRegisterArgs | cs_template.py:273-286 | the register arguments answer RegisterArgsFrom over the common template arguments: URL, then format, then project, zone and hypervisor lookups, the first failure ending the run |
| Template.TemplateModule.RemoveTemplate | cs_template.py:323-332 | runs RemoveSpec in the same way |
| Template.TemplateModule.GetResult | cs_template.py:335-349 | the result becomes ResultSpec of the old result |
| Template.TemplateModule.Execute | cs_template.py:397-407 | the dispatch of main followed by get_result answers MainSpec |
| Template.TemplateModule.TemplateArgsDefaultDisplayText | cs_template.py:218-233 | the display text defaults to the name; the name and the resolved OS type are passed; `isextractable` comes from 'is_extractable' |
| Template.TemplateModule.ExtractableIgnoredAsWritten | cs_template.py:218-233 | as written, create passes `isextractable` as None whatever 'is_extractable' says; register ends with the same arguments either way |
| Template.TemplateModule.ArgsDifferOnlyInExtractable | cs_template.py:218-233 | the template arguments depend on the extractable value only under `isextractable` |
| Template.TemplateModule.RegisterIgnoresExtractable | cs_template.py:284 | register_template overwrites `isextractable`, so its arguments do not depend on the earlier value |
| Template.TemplateModule.TemplateListingFiltersByName | cs_template.py:299-311 | listTemplates is asked with is_ready, project, zone and template_filter, and with the name exactly when no checksum is given |
| Template.TemplateModule.TemplateWithoutChecksum | cs_template.py:311-315 | without a checksum, get_template answers the first template listed, or None when none is listed |
| Template.TemplateModule.TemplateByChecksum | cs_template.py:311-320 | with a checksum, get_template answers the first template carrying it, and None exactly when no template carries it |
| Template.TemplateModule.SourceVmFirstMatch | cs_template.py:236-248 | an unset `vm` fails with "Virtual machine param 'vm' is required"; otherwise the intended get_vm succeeds exactly when a VM matches by display name, name or id, answers the first such record, and otherwise fails with "Virtual machine '<ref>' not found" |
| Template.TemplateModule.RootVolumeOfSourceVm | cs_template.py:236-257 | as written, get_vm answers the reference string and `vm['rootdeviceid']` raises a TypeError; as intended, `volumeid` is the VM's root device id |
| Template.TemplateModule.AddOnlyWhenAbsent | cs_template.py:251-296 | create and register are a change exactly when no template is found; at most one call; none in check mode; otherwise the command with the arguments; a failure building the arguments follows the change being marked |
| Template.TemplateModule.AddErrorTextIsFatal | cs_template.py:258-261 | an `errortext` in the createTemplate or registerTemplate reply fails with "Failed: '<text>'" after the one call, with the change reported and no job reply consumed |
| Template.TemplateModule.RegisterRequiresUrlThenFormat | cs_template.py:269-286 | no URL fails with "URL is requried." before the format is checked; then no format fails with "Format is requried."; with both, url, format and isextractable are passed and the template arguments are kept |
| Template.TemplateModule.RemoveOnlyWhenPresent | cs_template.py:323-332 | a change exactly when a template is found; at most one call; none in check mode; otherwise deleteTemplate with its id and the zone id; the template as found is answered |
| Template.TemplateModule.CheckModeNeverMutates | cs_template.py:251-332 | check mode issues no call and consumes no job reply |
| Template.TemplateModule.ResultCopiesPresentKeys | cs_template.py:335-349 | `changed` is kept; the six template keys are copied exactly when present, with zonename as zone and templatetag as template_tag; no template leaves the result as it was |

## Left out

- Connection setup (`_connect`, the `CloudStack` client constructor, `read_config`), the
  check that the `cs` library is installed, and `AnsibleModule` argument parsing and
  `exit_json`. These are foreign calls. `fail_json` is modelled as the outcome
  `Failed(msg)`.
- The `CloudStackException` handler in each `main`: the client's own exceptions are not
  modelled. A reply is whatever the run's `reply` function gives.
- `time.sleep(2)` between job queries. The poll loop is unbounded in the source; here it
  is bounded by the replies modelled, and running out of them is the outcome `Stalled`.
- `base64.b64encode` of the user data is the parameter `b64` of
  `VirtualMachine.VirtualMachineModule`, not spelled out.
- get_vm_id (cs_virtualmachine.py:245-261). No operation calls it, and it reads a `vm`
  parameter the module does not declare.
- The dispatch in the `main` of cs_virtualmachine.py (lines 630-672). It calls
  module-level functions (`remove_vm(module, cs, result, vm)` and so on) that the file
  does not define. The class methods and the summary (lines 674-724) are modelled instead.
- The syntax errors at cs_virtualmachine.py:258, 380, 401 and 440 (a missing comma, `iso i
  [`, a stray colon after a recursive `self.get_vm()`, a stray parenthesis). The model
  follows the evident intent. For example, get_vm at line 401 is modelled as returning
  the memo `self.vm` when set.
- The base class of cs_template.py is imported from `ansible.module_utils.cloudstack` and
  is not part of this model. It is assumed to behave as the base class in cs_network.py
  and cs_virtualmachine.py (`CloudStack.AnsibleCloudStack`), with the result starting as
  `{'changed': False}`.
- The `tags` and `domain` parameters of cs_network.py: they are declared but never used.
- Python's cross-kind equality (`True == 1`) is not modelled: values compare structurally.
  `'%s' %` of a list or dict renders a placeholder, not Python's repr.
- Listing replies that are not in the usual `{'<plural>': [...]}` shape, and
  `str.lower()` beyond ASCII.
- The remote state after a mutating call. Listings are fixed for the run, so a later
  listing call does not see a created, destroyed or scaled object.
- `self.result` on failure paths. The run ends there, and only the error is modelled.
- CloudStack.AnsibleCloudStack.GetIpAddressId: does not state which listing calls it
  logs, only its answer and memo.
- Summary.TagsFrom: tag keys are taken to be strings, because a dictionary value here is
  keyed by strings. A tag whose key is None, a number or a boolean fails with a TypeError,
  where Python would accept any hashable key.
- VirtualMachine.VirtualMachineModule.ScaleSpec: the reply of scaleVirtualMachine is
  ignored, as in the source. After a mutation the memo `self.vm` keeps the record found
  before it, also as in the source.

## Findings

| source | as written | input that shows it | evidently intended | confidence | as-written member | corrected member |
|---|---|---|---|---|---|---|
| cs_template.py:246 | get_vm returns `vm`, the reference the user gave, instead of the matched record `v`; create_template then evaluates `vm['rootdeviceid']` on a string and raises a TypeError | state=present, vm="web01", with a VM named web01 listed and no template found | return the matched record, so that `volumeid` is its root device id | not executed | Template.TemplateModule.SourceVmAsWritten (shown by Template.TemplateModule.RootVolumeOfSourceVm) | Template.TemplateModule.SourceVmSpec (proved by Template.TemplateModule.SourceVmFirstMatch and Template.TemplateModule.RootVolumeOfSourceVm) |
| cs_template.py:227 | `_get_template_args` reads the parameter 'isextractable', which the module does not declare, so createTemplate always gets `isextractable=None` | state=present, vm="web01", is_extractable=true | read the declared 'is_extractable', as register_template does at line 284 | not executed | Template.TemplateModule.TemplateArgsAsWritten (shown by Template.TemplateModule.ExtractableIgnoredAsWritten) | Template.TemplateModule.TemplateArgsSpec (proved by Template.TemplateModule.TemplateArgsDefaultDisplayText) |
| cs_virtualmachine.py:444 | `','.join(self.get_network_ids())`, where get_network_ids answers None when no networks are given, so deploying without networks raises a TypeError | state=present, a VM name not yet deployed, networks unset | pass no network ids when none are given | not executed | VirtualMachine.JoinNetworkIdsAsWritten (shown by VirtualMachine.NetworkIdsJoinAsWrittenRaises and VirtualMachine.VirtualMachineModule.NetworksUnsetJoin) | VirtualMachine.JoinNetworkIds (proved by VirtualMachine.JoinNetworkIdsRoundTrip) |

Other behaviour that the model keeps as written, because it may be deliberate or is
outside these modules' promises:

- stop_vm changes only a 'starting' VM (line 550). `state == 'starting' and state !=
  'running'` never stops a running VM.
- scale_vm consequently never stops a running VM. Its later start_vm sees the memoised
  record, so it never restarts one either.
- start_vm and restart_vm refer to an undefined `module` when no VM is found, and raise a
  NameError.
- create_network and remove_network return from inside their `if`, so an already-present
  network on create answers None.
