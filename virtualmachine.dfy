/** The cs_virtualmachine module: it resolves what a new VM needs, deploys it when none
    exists, and moves an existing VM through its lifecycle (scale, destroy, expunge, stop,
    start, restart); main then summarises the VM for the caller. */
module VirtualMachine {
  import opened Py
  import opened Lookup
  import opened Jobs
  import opened Summary
  import opened CloudStack

  const ListServiceOfferings := Request("listServiceOfferings", map[])
  const ListExecutableTemplates := Request("listTemplates", map["templatefilter" := Str("executable")])
  const ListIsos := Request("listIsos", map[])
  const ListDiskOfferings := Request("listDiskOfferings", map[])

  function ListNetworksIn(zoneId: Value, projectId: Value): Request {
    Request("listNetworks", map["zoneid" := zoneId, "projectid" := projectId])
  }

  /** A VM is found by its name, display name or id. */
  const VmKeys := ["name", "displayname", "id"]

  /** The job-result key every VM operation polls for. */
  const VmKey := "virtualmachine"

  /** `vm['state'].lower()` */
  function StateOf(vm: Value): Result<string> {
    var state :- Index(vm, "state");
    Lower(state)
  }

  /** remove_vm reports a change unless the VM is already going or gone. */
  predicate DestroyChanges(state: string) {
    state !in ["expunging", "destroying", "destroyed"]
  }

  /** The call expunge_vm makes for a VM in a given lower-cased state. */
  datatype ExpungeStep = CallExpunge | DestroyExpunging | NoStep

  function ExpungeDecision(state: string): ExpungeStep {
    if state in ["destroying", "destroyed"] then CallExpunge
    else if state !in ["expunging"] then DestroyExpunging
    else NoStep
  }

  /** stop_vm's condition as written: `state == 'starting' and state != 'running'`. */
  predicate StopChanges(state: string) {
    state == "starting" && state != "running"
  }

  /** start_vm changes a stopped or stopping VM. */
  predicate StartChanges(state: string) {
    state == "stopped" || state == "stopping"
  }

  /** What restart_vm does for a VM in a given lower-cased state. */
  datatype RestartStep = Reboot | RefuseNotRunning | Leave

  function RestartDecision(state: string): RestartStep {
    if state in ["running", "starting"] then Reboot
    else if state in ["stopping", "stopped"] then RefuseNotRunning
    else Leave
  }

  /** The keys create_vm takes from the parameters rather than from the resolvers. */
  const DeployParamKeys := {"name", "group", "keypair", "size", "userdata", "displayname",
                            "securitygroupnames", "affinitygroupnames"}

  /** `','.join(names)` when names are given, '' otherwise. */
  function GroupNames(v: Value): Result<string> {
    if Truthy(v) then Join(',', v) else Ok("")
  }

  /** create_vm's `','.join(self.get_network_ids())` as written: get_network_ids answers
      None when no networks are given, and joining None raises a TypeError. */
  function JoinNetworkIdsAsWritten(ids: Value): Result<string> {
    Join(',', ids)
  }

  /** The join as intended: no networks given means no network ids. */
  function JoinNetworkIds(ids: Value): Result<string> {
    if ids == Null then Ok("") else Join(',', ids)
  }

  /** A list of strings free of the separator. */
  predicate PlainNames(v: Value) {
    v.List? && forall x <- v.items :: x.Str? && ',' !in x.s
  }

  function Texts(v: Value): seq<string>
    requires PlainNames(v)
  {
    seq(|v.items|, i requires 0 <= i < |v.items| => v.items[i].s)
  }

  /** The as-written join fails every create_vm that names no networks. */
  lemma NetworkIdsJoinAsWrittenRaises()
    ensures JoinNetworkIdsAsWritten(Null) == Err(TypeError)
    ensures JoinNetworkIds(Null) == Ok("")
  {
  }

  /** The intended join answers '' for no networks, and otherwise a text that splits back
      into exactly the ids, in order. */
  lemma JoinNetworkIdsRoundTrip(ids: Value)
    requires ids == Null || (PlainNames(ids) && ids.items != [])
    ensures JoinNetworkIds(ids).Ok?
    ensures ids == Null ==> JoinNetworkIds(ids).value == ""
    ensures ids != Null ==> Split(',', JoinNetworkIds(ids).value) == Texts(ids)
  {
    if ids != Null {
      var xs := Texts(ids);
      assert forall x <- xs :: ',' !in x by {
        forall x <- xs ensures ',' !in x {
          var i :| 0 <= i < |xs| && xs[i] == x;
          assert ids.items[i] in ids.items;
        }
      }
      SplitJoin(',', xs);
    }
  }

  /** Group names are '' when none are given and otherwise split back into the names. */
  lemma GroupNamesRoundTrip(names: Value)
    requires !Truthy(names) || PlainNames(names)
    ensures GroupNames(names).Ok?
    ensures !Truthy(names) ==> GroupNames(names).value == ""
    ensures Truthy(names) ==> Split(',', GroupNames(names).value) == Texts(names)
  {
    if Truthy(names) {
      var xs := Texts(names);
      assert forall x <- xs :: ',' !in x by {
        forall x <- xs ensures ',' !in x {
          var i :| 0 <= i < |xs| && xs[i] == x;
          assert names.items[i] in names.items;
        }
      }
      SplitJoin(',', xs);
    }
  }

  /** What the VM part of main (the summary) copies, and under which name. */
  const SummaryPairs := [("id", "id"), ("name", "name"), ("displayname", "display_name"),
                         ("group", "group"), ("password", "password"),
                         ("serviceofferingname", "service_offering"), ("zonename", "zone"),
                         ("templatename", "template"), ("isoname", "iso"), ("created", "created"),
                         ("state", "vm_state")]

  /** `for x in v` where the body indexes each `x` by a key. A list yields its items. A
      dict yields its keys and a string its characters; both are strings, and indexing one
      raises a TypeError, so only an empty dict or string gets through, with no items.
      Anything else is not iterable. */
  function Items(v: Value): Result<seq<Value>> {
    match v
    case List(xs) => Ok(xs)
    case Dict(m) => if m == map[] then Ok([]) else Err(TypeError)
    case Str(s) => if s == "" then Ok([]) else Err(TypeError)
    case _ => Err(TypeError)
  }

  /** `vm['state'] == 'Error'`, looked at only when the VM has a state. */
  function InErrorState(vm: Value): Result<bool> {
    var hasState :- Has(vm, "state");
    if hasState then (var s :- Index(vm, "state"); Ok(s == Str("Error"))) else Ok(false)
  }

  /** The tags of the VM folded into `result['tags']`, when the VM has tags. */
  function WithTags(out: map<string, Value>, vm: Value): Result<map<string, Value>> {
    var hasTags :- Has(vm, "tags");
    if hasTags then
      var tagList :- Index(vm, "tags");
      var tags :- Items(tagList);
      var m :- TagsFrom(map[], tags);
      Ok(out["tags" := Dict(m)])
    else Ok(out)
  }

  /** The default NIC's address as `result['default_ip']` and the NIC list as
      `result['nic']`, when the VM has NICs. */
  function WithNic(out: map<string, Value>, vm: Value): Result<map<string, Value>> {
    var hasNic :- Has(vm, "nic");
    if hasNic then
      var nicList :- Index(vm, "nic");
      var nics :- Items(nicList);
      var ip :- DefaultIpFrom(None, nics);
      var withIp := if ip.Some? then out["default_ip" := ip.value] else out;
      Ok(withIp["nic" := nicList])
    else Ok(out)
  }

  /** The summary main builds from the VM the operation ended with. */
  function VmSummary(before: map<string, Value>, vm: Value, name: Value): Result<map<string, Value>> {
    if !Truthy(vm) then Ok(before)
    else
      var inError :- InErrorState(vm);
      if inError then Err(Failed("Virtual machine named '" + Show(name) + "' in error state."))
      else
        var copied :- CopyPresent(before, vm, SummaryPairs);
        var tagged :- WithTags(copied, vm);
        WithNic(tagged, vm)
  }

  /** The tag loop of main. */
  method FoldTags(tags: seq<Value>) returns (r: Result<map<string, Value>>)
    ensures r == TagsFrom(map[], tags)
  {
    var m: map<string, Value> := map[];
    var i := 0;
    while i < |tags|
      invariant 0 <= i <= |tags|
      invariant TagsFrom(map[], tags) == TagsFrom(m, tags[i..])
    {
      assert tags[i..][0] == tags[i] && tags[i..][1..] == tags[i + 1..];
      var key :- Index(tags[i], "key");
      var value :- Index(tags[i], "value");
      if !key.Str? {
        return Err(TypeError);
      }
      m := m[key.s := value];
      i := i + 1;
    }
    assert tags[i..] == [];
    return Ok(m);
  }

  /** The NIC loop of main. */
  method FoldDefaultIp(nics: seq<Value>) returns (r: Result<Option<Value>>)
    ensures r == DefaultIpFrom(None, nics)
  {
    var ip: Option<Value> := None;
    var i := 0;
    while i < |nics|
      invariant 0 <= i <= |nics|
      invariant DefaultIpFrom(None, nics) == DefaultIpFrom(ip, nics[i..])
    {
      assert nics[i..][0] == nics[i] && nics[i..][1..] == nics[i + 1..];
      var isDefault :- Index(nics[i], "isdefault");
      if Truthy(isDefault) {
        var address :- Index(nics[i], "ipaddress");
        ip := Some(address);
      }
      i := i + 1;
    }
    assert nics[i..] == [];
    return Ok(ip);
  }

  /** The tag statements of main's summary. */
  method AddTags(out: map<string, Value>, vm: Value) returns (r: Result<map<string, Value>>)
    ensures r == WithTags(out, vm)
  {
    var hasTags :- Has(vm, "tags");
    if !hasTags {
      return Ok(out);
    }
    var tagList :- Index(vm, "tags");
    var tags :- Items(tagList);
    var m :- FoldTags(tags);
    return Ok(out["tags" := Dict(m)]);
  }

  /** The NIC statements of main's summary. */
  method AddNic(out: map<string, Value>, vm: Value) returns (r: Result<map<string, Value>>)
    ensures r == WithNic(out, vm)
  {
    var hasNic :- Has(vm, "nic");
    if !hasNic {
      return Ok(out);
    }
    var nicList :- Index(vm, "nic");
    var nics :- Items(nicList);
    var ip :- FoldDefaultIp(nics);
    var withIp := out;
    if ip.Some? {
      withIp := out["default_ip" := ip.value];
    }
    return Ok(withIp["nic" := nicList]);
  }

  /** main's summary of the VM. */
  method Summarize(before: map<string, Value>, vm: Value, name: Value) returns (r: Result<map<string, Value>>)
    ensures r == VmSummary(before, vm, name)
  {
    if !Truthy(vm) {
      return Ok(before);
    }
    var inError :- InErrorState(vm);
    if inError {
      return Err(Failed("Virtual machine named '" + Show(name) + "' in error state."));
    }
    var copied :- CopyPresent(before, vm, SummaryPairs);
    var tagged :- AddTags(copied, vm);
    r := AddNic(tagged, vm);
  }

  /** A VM whose tags and NICs are as the platform lists them and which is not in the
      error state. */
  predicate WellFormedVm(vm: Value) {
    && vm.Dict? && vm.entries != map[]
    && ("state" in vm.entries ==> vm.entries["state"] != Str("Error"))
    && ("tags" in vm.entries ==>
          vm.entries["tags"].List? &&
          forall i :: 0 <= i < |vm.entries["tags"].items| ==> IsTag(vm.entries["tags"].items[i]))
    && ("nic" in vm.entries ==>
          vm.entries["nic"].List? &&
          forall i :: 0 <= i < |vm.entries["nic"].items| ==> IsNic(vm.entries["nic"].items[i]))
  }

  /** The summary keys other than those the pairs copy. */
  lemma SummaryPairsLeaveExtras()
    ensures Untouched(SummaryPairs, "changed") && Untouched(SummaryPairs, "tags")
    ensures Untouched(SummaryPairs, "nic") && Untouched(SummaryPairs, "default_ip")
    ensures DistinctTargets(SummaryPairs)
  {
  }

  /** A VM in the error state fails the run. */
  lemma SummaryRejectsErrorState(before: map<string, Value>, vm: Value, name: Value)
    requires vm.Dict? && "state" in vm.entries && vm.entries["state"] == Str("Error")
    ensures VmSummary(before, vm, name) == Err(Failed("Virtual machine named '" + Show(name) + "' in error state."))
  {
  }

  /** Well-formed tags land, folded, under 'tags' and nothing else changes. */
  lemma WithTagsOfWellFormed(out: map<string, Value>, vm: Value)
    requires WellFormedVm(vm)
    ensures WithTags(out, vm).Ok?
    ensures forall k :: k != "tags" ==> Agree(WithTags(out, vm).value, out, k)
    ensures "tags" in vm.entries ==>
              "tags" in WithTags(out, vm).value &&
              WithTags(out, vm).value["tags"] == Dict(TagsFrom(map[], vm.entries["tags"].items).value)
  {
    if "tags" in vm.entries {
      TagsFromOk(map[], vm.entries["tags"].items);
    }
  }

  /** Well-formed NICs land under 'nic', the last default NIC's address under
      'default_ip', and nothing else changes. */
  lemma WithNicOfWellFormed(out: map<string, Value>, vm: Value)
    requires WellFormedVm(vm)
    ensures WithNic(out, vm).Ok?
    ensures forall k :: k != "nic" && k != "default_ip" ==> Agree(WithNic(out, vm).value, out, k)
    ensures "nic" in vm.entries ==> "nic" in WithNic(out, vm).value && WithNic(out, vm).value["nic"] == vm.entries["nic"]
    ensures "nic" in vm.entries ==> forall i :: LastDefault(vm.entries["nic"].items, i) ==>
              "default_ip" in WithNic(out, vm).value &&
              WithNic(out, vm).value["default_ip"] == Field(vm.entries["nic"].items[i], "ipaddress")
  {
    if "nic" in vm.entries {
      DefaultIpIsLastDefault(None, vm.entries["nic"].items);
    }
  }

  /** An empty dict or string under 'tags' or 'nic' is iterated zero times: the tags
      become an empty map; an empty NIC value gives no 'default_ip' and is copied as it is.
      Any other value that is not a list fails with a TypeError, raised either by iterating
      a value that cannot be iterated or by indexing the strings that a non-empty dict or
      string yields. */
  lemma EmptyTagsAndNics(out: map<string, Value>, vm: Value)
    requires vm.Dict?
    ensures "tags" in vm.entries && (vm.entries["tags"] == Dict(map[]) || vm.entries["tags"] == Str("")) ==>
              WithTags(out, vm) == Ok(out["tags" := Dict(map[])])
    ensures "tags" in vm.entries && !vm.entries["tags"].List? &&
            vm.entries["tags"] != Dict(map[]) && vm.entries["tags"] != Str("") ==>
              WithTags(out, vm) == Err(TypeError)
    ensures "nic" in vm.entries && (vm.entries["nic"] == Dict(map[]) || vm.entries["nic"] == Str("")) ==>
              WithNic(out, vm) == Ok(out["nic" := vm.entries["nic"]])
    ensures "nic" in vm.entries && !vm.entries["nic"].List? &&
            vm.entries["nic"] != Dict(map[]) && vm.entries["nic"] != Str("") ==>
              WithNic(out, vm) == Err(TypeError)
  {
  }

  /** Over a well-formed VM the summary keeps what the result held, copies each summary
      key exactly when present, folds the tags into a map where the last tag of a key wins,
      and takes the default address from the last default NIC. */
  lemma SummaryOfWellFormedVm(before: map<string, Value>, vm: Value, name: Value)
    requires WellFormedVm(vm)
    ensures VmSummary(before, vm, name).Ok?
    ensures var out := VmSummary(before, vm, name).value;
      && Agree(out, before, "changed")
      && (forall i :: 0 <= i < |SummaryPairs| && SummaryPairs[i].0 in vm.entries ==>
            SummaryPairs[i].1 in out && out[SummaryPairs[i].1] == vm.entries[SummaryPairs[i].0])
      && ("tags" in vm.entries ==> "tags" in out && out["tags"] == Dict(TagsFrom(map[], vm.entries["tags"].items).value))
      && ("nic" in vm.entries ==> "nic" in out && out["nic"] == vm.entries["nic"])
      && ("nic" in vm.entries ==> forall i :: LastDefault(vm.entries["nic"].items, i) ==>
            "default_ip" in out && out["default_ip"] == Field(vm.entries["nic"].items[i], "ipaddress"))
  {
    SummaryPairsLeaveExtras();
    CopyPresentFromDict(before, vm, SummaryPairs);
    var copied := CopyPresent(before, vm, SummaryPairs).value;
    WithTagsOfWellFormed(copied, vm);
    var tagged := WithTags(copied, vm).value;
    WithNicOfWellFormed(tagged, vm);
    var out := WithNic(tagged, vm).value;
    assert VmSummary(before, vm, name) == Ok(out);
    forall i | 0 <= i < |SummaryPairs| && SummaryPairs[i].0 in vm.entries
      ensures SummaryPairs[i].1 in out && out[SummaryPairs[i].1] == vm.entries[SummaryPairs[i].0]
    {
      var k := SummaryPairs[i].1;
      assert k != "tags" && k != "nic" && k != "default_ip";
      assert Agree(tagged, copied, k) && Agree(out, tagged, k);
    }
    assert Agree(tagged, copied, "changed") && Agree(out, tagged, "changed");
  }

  class VirtualMachineModule {
    const base: AnsibleCloudStack
    /** base64.b64encode, which this model does not spell out. */
    const b64: string -> string
    var result: map<string, Value>
    var vm: Value

    function ServiceOfferingSpec(): Result<Value> {
      OfferingLookup("Service offering", base.Param("service_offering"), base.api.listing(ListServiceOfferings))
    }

    /** What get_template_or_iso_id answers: exactly one of template and ISO must be given,
        and it is matched by display text, name or id. */
    function TemplateOrIsoSpec(): Result<Value> {
      var template := base.Param("template");
      var iso := base.Param("iso");
      if !Truthy(template) && !Truthy(iso) then Err(Failed("Template or ISO is required."))
      else if Truthy(template) && Truthy(iso) then Err(Failed("Template are ISO are mutually exclusive."))
      else if Truthy(template) then
        ScanFor(AnyField(template, ImageKeys), base.api.listing(ListExecutableTemplates), "id", NotFound("Template", template))
      else
        ScanFor(AnyField(iso, ImageKeys), base.api.listing(ListIsos), "id", NotFound("ISO", iso))
    }

    function DiskOfferingSpec(): Result<Value> {
      OptionalLookup("Disk offering", base.Param("disk_offering"), base.api.listing(ListDiskOfferings), NameIdKeys)
    }

    /** What get_vm answers: the first VM of the project matched by name, display name or
        id, or None. */
    function VmSpec(): Result<Value> {
      var projectId :- base.ProjectSpec();
      FirstRecord(AnyField(base.Param("name"), VmKeys), base.api.listing(ListVirtualMachines(projectId)))
    }

    /** What get_network_ids answers: None when no names are given, otherwise the ids of
        the networks of the zone and project whose name or id is among them. */
    function NetworkIdsSpec(): Result<Value> {
      var names := base.Param("networks");
      if !Truthy(names) then Ok(Null)
      else
        var zoneId :- base.ZoneSpec();
        var projectId :- base.ProjectSpec();
        var ids :- IdsWhere(NameOrIdIn(names), base.api.listing(ListNetworksIn(zoneId, projectId)));
        Ok(List(ids))
    }

    /** The ids create_vm resolves for deployVirtualMachine, in the order the source
        resolves them. */
    function DeployIdsSpec(): Result<map<string, Value>> {
      var templateId :- TemplateOrIsoSpec();
      var zoneId :- base.ZoneSpec();
      var offeringId :- ServiceOfferingSpec();
      var projectId :- base.ProjectSpec();
      var networkIds :- NetworkIdsSpec();
      var networkText :- JoinNetworkIds(networkIds);
      var diskOfferingId :- DiskOfferingSpec();
      var hypervisor :- base.HypervisorSpec();
      Ok(map["templateid" := templateId, "zoneid" := zoneId, "serviceofferingid" := offeringId,
             "projectid" := projectId, "networkids" := Str(networkText),
             "diskofferingid" := diskOfferingId, "hypervisor" := hypervisor])
    }

    /** The resolved ids completed with what create_vm takes from the parameters: the
        user data base64-encoded when given, the display name defaulting to the name, and
        the group lists joined with commas. */
    function DeployArgsFrom(ids: map<string, Value>): Result<map<string, Value>> {
      var args := ids["name" := base.Param("name")]["group" := base.Param("group")]
                     ["keypair" := base.Param("ssh_key")]["size" := base.Param("disk_size")];
      var userData := base.Param("user_data");
      var args :- if !Truthy(userData) then Ok(args)
                  else if userData.Str? then Ok(args["userdata" := Str(b64(userData.s))])
                  else Err(TypeError);
      var displayName := if Truthy(base.Param("display_name")) then base.Param("display_name") else base.Param("name");
      var securityGroups :- GroupNames(base.Param("security_groups"));
      var affinityGroups :- GroupNames(base.Param("affinity_groups"));
      Ok(args["displayname" := displayName]["securitygroupnames" := Str(securityGroups)]
             ["affinitygroupnames" := Str(affinityGroups)])
    }

    /** The arguments create_vm passes to deployVirtualMachine. */
    function DeployArgsSpec(): Result<map<string, Value>> {
      var ids :- DeployIdsSpec();
      DeployArgsFrom(ids)
    }

    function PollAsync(): bool {
      Truthy(base.Param("poll_async"))
    }

    /** A mutating call whose reply gets the usual handling, answering `keep` when not
        polling. */
    function Issue(req: Request, keep: Value, replies: seq<Value>): (run: Reconciled)
      ensures run.consumed <= |replies|
    {
      var p := Settle(base.api.reply(req), keep, VmKey, PollAsync(), replies);
      Reconciled(p.outcome, true, [req], p.consumed)
    }

    /** What create_vm does: nothing when the VM exists; otherwise reports a change,
        resolves the arguments and, outside check mode, deploys. */
    function CreateSpec(replies: seq<Value>): (run: Reconciled)
      ensures run.consumed <= |replies|
    {
      match VmSpec()
      case Err(e) => Reconciled(Err(e), false, [], 0)
      case Ok(vm) =>
        if Truthy(vm) then Reconciled(Ok(vm), false, [], 0)
        else
          match DeployArgsSpec()
          case Err(e) => Reconciled(Err(e), true, [], 0)
          case Ok(args) =>
            if base.checkMode then Reconciled(Ok(vm), true, [], 0)
            else
              var req := Request("deployVirtualMachine", args);
              Issue(req, base.api.reply(req), replies)
    }

    /** What remove_vm does. */
    function RemoveSpec(replies: seq<Value>): (run: Reconciled)
      ensures run.consumed <= |replies|
    {
      match VmSpec()
      case Err(e) => Reconciled(Err(e), false, [], 0)
      case Ok(vm) =>
        if !Truthy(vm) then Reconciled(Ok(vm), false, [], 0)
        else
          match StateOf(vm)
          case Err(e) => Reconciled(Err(e), false, [], 0)
          case Ok(state) =>
            if !DestroyChanges(state) then Reconciled(Ok(vm), false, [], 0)
            else if base.checkMode then Reconciled(Ok(vm), true, [], 0)
            else
              match Index(vm, "id")
              case Err(e) => Reconciled(Err(e), true, [], 0)
              case Ok(id) => Issue(Request("destroyVirtualMachine", map["id" := id]), vm, replies)
    }

    /** The request expunge_vm issues for a step. */
    function ExpungeRequest(step: ExpungeStep, id: Value): Request
      requires step != NoStep
    {
      if step == CallExpunge then Request("expungeVirtualMachine", map["id" := id])
      else Request("destroyVirtualMachine", map["id" := id, "expunge" := Bool(true)])
    }

    /** What expunge_vm does: the reply, `{}` when no call is made, is checked only when
        non-empty and is polled whenever `poll_async` is set. */
    function ExpungeSpec(replies: seq<Value>): (run: Reconciled)
      ensures run.consumed <= |replies|
    {
      match VmSpec()
      case Err(e) => Reconciled(Err(e), false, [], 0)
      case Ok(vm) =>
        if !Truthy(vm) then Reconciled(Ok(vm), false, [], 0)
        else
          match StateOf(vm)
          case Err(e) => Reconciled(Err(e), false, [], 0)
          case Ok(state) =>
            ExpungeStepSpec(vm, ExpungeDecision(state), replies)
    }

    /** The part of expunge_vm after the decision: the call for the step, if any, and
        the wait for its job. */
    function ExpungeStepSpec(vm: Value, step: ExpungeStep, replies: seq<Value>): (run: Reconciled)
      ensures run.consumed <= |replies|
    {
      var changed := step != NoStep;
      if changed && !base.checkMode then
        match Index(vm, "id")
        case Err(e) => Reconciled(Err(e), true, [], 0)
        case Ok(id) =>
          var req := ExpungeRequest(step, id);
          var res := base.api.reply(req);
          var p := if Truthy(res) then Settle(res, vm, VmKey, PollAsync(), replies)
                   else if PollAsync() then Poll(res, VmKey, replies)
                   else Polled(Ok(vm), 0);
          Reconciled(p.outcome, true, [req], p.consumed)
      else
        var p := if PollAsync() then Poll(Dict(map[]), VmKey, replies) else Polled(Ok(vm), 0);
        Reconciled(p.outcome, changed, [], p.consumed)
    }

    /** The message for a VM that get_vm did not find. */
    function NotFoundMessage(): string {
      "Virtual machine named '" + Show(base.Param("name")) + "' not found"
    }

    /** What stop_vm does. */
    function StopSpec(replies: seq<Value>): (run: Reconciled)
      ensures run.consumed <= |replies|
    {
      match VmSpec()
      case Err(e) => Reconciled(Err(e), false, [], 0)
      case Ok(vm) =>
        if !Truthy(vm) then Reconciled(Err(Failed(NotFoundMessage())), false, [], 0)
        else
          match StateOf(vm)
          case Err(e) => Reconciled(Err(e), false, [], 0)
          case Ok(state) =>
            if !StopChanges(state) then Reconciled(Ok(vm), false, [], 0)
            else if base.checkMode then Reconciled(Ok(vm), true, [], 0)
            else
              match Index(vm, "id")
              case Err(e) => Reconciled(Err(e), true, [], 0)
              case Ok(id) =>
                var req := Request("stopVirtualMachine", map["id" := id]);
                Issue(req, base.api.reply(req), replies)
    }

    /** What start_vm does; a missing VM raises a NameError, as the source refers to an
        undefined `module` there. */
    function StartSpec(replies: seq<Value>): (run: Reconciled)
      ensures run.consumed <= |replies|
    {
      match VmSpec()
      case Err(e) => Reconciled(Err(e), false, [], 0)
      case Ok(vm) =>
        if !Truthy(vm) then Reconciled(Err(NameError), false, [], 0)
        else
          match StateOf(vm)
          case Err(e) => Reconciled(Err(e), false, [], 0)
          case Ok(state) =>
            if !StartChanges(state) then Reconciled(Ok(vm), false, [], 0)
            else if base.checkMode then Reconciled(Ok(vm), true, [], 0)
            else
              match Index(vm, "id")
              case Err(e) => Reconciled(Err(e), true, [], 0)
              case Ok(id) =>
                var req := Request("startVirtualMachine", map["id" := id]);
                Issue(req, base.api.reply(req), replies)
    }

    /** What restart_vm does: reboot a running or starting VM (its reply is not checked
        for an error text), refuse a stopping or stopped one, leave any other. */
    function RestartSpec(replies: seq<Value>): (run: Reconciled)
      ensures run.consumed <= |replies|
    {
      match VmSpec()
      case Err(e) => Reconciled(Err(e), false, [], 0)
      case Ok(vm) =>
        if !Truthy(vm) then Reconciled(Err(NameError), false, [], 0)
        else
          match StateOf(vm)
          case Err(e) => Reconciled(Err(e), false, [], 0)
          case Ok(state) =>
            match RestartDecision(state)
            case Leave => Reconciled(Ok(vm), false, [], 0)
            case RefuseNotRunning =>
              Reconciled(Err(Failed("Virtual machine named '" + Show(base.Param("name")) + "' not running, not restarted")), false, [], 0)
            case Reboot =>
              if base.checkMode then Reconciled(Ok(vm), true, [], 0)
              else
                match Index(vm, "id")
                case Err(e) => Reconciled(Err(e), true, [], 0)
                case Ok(id) =>
                  var req := Request("rebootVirtualMachine", map["id" := id]);
                  var res := base.api.reply(req);
                  var p := if PollAsync() then Poll(res, VmKey, replies) else Polled(Ok(res), 0);
                  Reconciled(p.outcome, true, [req], p.consumed)
    }

    /** The end of scale_vm, after the scale call: start and poll again when the VM was
        running before. */
    function ResumeSpec(polled: Value, before: string, replies: seq<Value>): (run: Reconciled)
      ensures run.consumed <= |replies|
    {
      if before != "running" then Reconciled(Ok(polled), true, [], 0)
      else
        var start := StartSpec(replies);
        match start.outcome
        case Err(e) => Reconciled(Err(e), true, start.calls, start.consumed)
        case Ok(started) =>
          var q := Poll(started, VmKey, replies[start.consumed..]);
          Reconciled(q.outcome, true, start.calls, start.consumed + q.consumed)
    }

    /** The start of scale_vm's steps: stop (as stop_vm decides) and poll. */
    function StopAndPollSpec(replies: seq<Value>): (run: Reconciled)
      ensures run.consumed <= |replies|
    {
      var stop := StopSpec(replies);
      match stop.outcome
      case Err(e) => Reconciled(Err(e), true, stop.calls, stop.consumed)
      case Ok(stopped) =>
        var p := Poll(stopped, VmKey, replies[stop.consumed..]);
        Reconciled(p.outcome, true, stop.calls, stop.consumed + p.consumed)
    }

    /** The first half of scale_vm's steps: stop, poll, and scale the VM then answered. */
    function StopAndScaleSpec(sid: Value, replies: seq<Value>): (run: Reconciled)
      ensures run.consumed <= |replies|
    {
      var first := StopAndPollSpec(replies);
      match first.outcome
      case Err(_) => first
      case Ok(polled) =>
        match Index(polled, "id")
        case Err(e) => Reconciled(Err(e), true, first.calls, first.consumed)
        case Ok(id) =>
          Reconciled(Ok(polled), true,
                     first.calls + [Request("scaleVirtualMachine", map["id" := id, "serviceofferingid" := sid])], first.consumed)
    }

    /** scale_vm once past the offering check, outside check mode: stop, poll, scale, and
        start again when the VM was running. */
    function ScaleStepsSpec(sid: Value, before: string, replies: seq<Value>): (run: Reconciled)
      ensures run.consumed <= |replies|
    {
      var first := StopAndScaleSpec(sid, replies);
      match first.outcome
      case Err(_) => first
      case Ok(polled) =>
        var rest := ResumeSpec(polled, before, replies[first.consumed..]);
        Reconciled(rest.outcome, true, first.calls + rest.calls, first.consumed + rest.consumed)
    }

    /** What scale_vm does: a change exactly when the VM's offering differs from the one
        resolved. */
    function ScaleSpec(replies: seq<Value>): (run: Reconciled)
      ensures run.consumed <= |replies|
    {
      match VmSpec()
      case Err(e) => Reconciled(Err(e), false, [], 0)
      case Ok(vm) =>
        if !Truthy(vm) then Reconciled(Ok(vm), false, [], 0)
        else
          match ServiceOfferingSpec()
          case Err(e) => Reconciled(Err(e), false, [], 0)
          case Ok(sid) =>
            match Index(vm, "serviceofferingid")
            case Err(e) => Reconciled(Err(e), false, [], 0)
            case Ok(current) =>
              if current == sid then Reconciled(Ok(vm), false, [], 0)
              else if base.checkMode then Reconciled(Ok(vm), true, [], 0)
              else
                match StateOf(vm)
                case Err(e) => Reconciled(Err(e), true, [], 0)
                case Ok(before) => ScaleStepsSpec(sid, before, replies)
    }

    /** The memo of get_vm is unset or holds what get_vm answers. */
    ghost predicate Valid()
      reads this, base
    {
      && base.Valid()
      && (vm == Null || (Truthy(vm) && VmSpec() == Ok(vm)))
    }

    constructor (base: AnsibleCloudStack, b64: string -> string)
      requires base.Valid()
      ensures this.base == base && this.b64 == b64
      ensures result == map["changed" := Bool(false)] && vm == Null
      ensures Valid()
    {
      this.base := base;
      this.b64 := b64;
      result := map["changed" := Bool(false)];
      vm := Null;
    }

    /** get_vm: answers the memo when set; otherwise lists the project's VMs and memoises
        the first match. */
    method GetVm() returns (r: Result<Value>)
      requires Valid()
      modifies this`vm, base`projectId, base.api`lookups
      ensures Valid()
      ensures r == VmSpec()
      ensures old(Truthy(vm)) ==> vm == old(vm) && base.api.lookups == old(base.api.lookups)
      ensures !old(Truthy(vm)) ==> vm == (if r.Ok? then r.value else old(vm))
    {
      if Truthy(vm) {
        return Ok(vm);
      }
      var projectId :- base.GetProjectId();
      var vms := base.api.List(ListVirtualMachines(projectId));
      var f := Scan(AnyField(base.Param("name"), VmKeys), vms);
      match f
      case At(i) =>
        assert Fields(vms[i], VmKeys).Ok?;
        vm := vms[i];
        r := Ok(vm);
      case Broke(_, e) =>
        r := Err(e);
      case Nowhere =>
        r := Ok(vm);
    }

    /** get_service_offering_id: the first offering when none is given. */
    method GetServiceOfferingId() returns (r: Result<Value>)
      modifies base.api`lookups
      ensures r == ServiceOfferingSpec()
      ensures base.api.lookups == old(base.api.lookups) + [ListServiceOfferings]
    {
      var wanted := base.Param("service_offering");
      var offerings := base.api.List(ListServiceOfferings);
      if offerings == [] {
        return Err(Failed(NotFound("Service offering", wanted)));
      }
      if !Truthy(wanted) {
        return Index(offerings[0], "id");
      }
      var f := Scan(AnyField(wanted, NameIdKeys), offerings);
      match f
      case At(i) => r := Index(offerings[i], "id");
      case Broke(_, e) => r := Err(e);
      case Nowhere => r := Err(Failed(NotFound("Service offering", wanted)));
    }

    /** get_template_or_iso_id: rejects neither and both before any listing. */
    method GetTemplateOrIsoId() returns (r: Result<Value>)
      modifies base.api`lookups
      ensures r == TemplateOrIsoSpec()
      ensures !Truthy(base.Param("template")) && !Truthy(base.Param("iso")) ==> base.api.lookups == old(base.api.lookups)
      ensures Truthy(base.Param("template")) && Truthy(base.Param("iso")) ==> base.api.lookups == old(base.api.lookups)
    {
      var template := base.Param("template");
      var iso := base.Param("iso");
      if !Truthy(template) && !Truthy(iso) {
        return Err(Failed("Template or ISO is required."));
      }
      if Truthy(template) && Truthy(iso) {
        return Err(Failed("Template are ISO are mutually exclusive."));
      }
      if Truthy(template) {
        var templates := base.api.List(ListExecutableTemplates);
        var f := Scan(AnyField(template, ImageKeys), templates);
        match f
        case At(i) => r := Index(templates[i], "id");
        case Broke(_, e) => r := Err(e);
        case Nowhere => r := Err(Failed(NotFound("Template", template)));
      } else {
        var isos := base.api.List(ListIsos);
        var f := Scan(AnyField(iso, ImageKeys), isos);
        match f
        case At(i) => r := Index(isos[i], "id");
        case Broke(_, e) => r := Err(e);
        case Nowhere => r := Err(Failed(NotFound("ISO", iso)));
      }
    }

    /** get_disk_offering_id: None without a listing when no offering is given. */
    method GetDiskOfferingId() returns (r: Result<Value>)
      modifies base.api`lookups
      ensures r == DiskOfferingSpec()
      ensures !Truthy(base.Param("disk_offering")) ==> base.api.lookups == old(base.api.lookups)
    {
      var wanted := base.Param("disk_offering");
      if !Truthy(wanted) {
        return Ok(Null);
      }
      var offerings := base.api.List(ListDiskOfferings);
      var f := Scan(AnyField(wanted, NameIdKeys), offerings);
      match f
      case At(i) => r := Index(offerings[i], "id");
      case Broke(_, e) => r := Err(e);
      case Nowhere => r := Err(Failed(NotFound("Disk offering", wanted)));
    }

    /** get_network_ids: None when no names are given; otherwise collects, in listing
        order, the id of every network whose name or id is among the names. */
    method GetNetworkIds() returns (r: Result<Value>)
      requires Valid()
      modifies base`zoneId, base`projectId, base.api`lookups
      ensures Valid()
      ensures r == NetworkIdsSpec()
      ensures !Truthy(base.Param("networks")) ==> base.api.lookups == old(base.api.lookups)
    {
      var names := base.Param("networks");
      if !Truthy(names) {
        return Ok(Null);
      }
      var zoneId :- base.GetZoneId();
      var projectId :- base.GetProjectId();
      var networks := base.api.List(ListNetworksIn(zoneId, projectId));
      var ids :- CollectIds(NameOrIdIn(names), networks);
      return Ok(List(ids));
    }

    /** The resolving half of create_vm: each resolver in turn, the first failure ending
        the run. */
    method ResolveDeployIds() returns (r: Result<map<string, Value>>)
      requires Valid()
      modifies base`projectId, base`zoneId, base`hypervisor, base.api`lookups
      ensures Valid()
      ensures r == DeployIdsSpec()
    {
      var templateId :- GetTemplateOrIsoId();
      var zoneId :- base.GetZoneId();
      var offeringId :- GetServiceOfferingId();
      var projectId :- base.GetProjectId();
      var networkIds :- GetNetworkIds();
      var networkText :- JoinNetworkIds(networkIds);
      var diskOfferingId :- GetDiskOfferingId();
      var hypervisor :- base.GetHypervisor();
      return Ok(map["templateid" := templateId, "zoneid" := zoneId, "serviceofferingid" := offeringId,
                    "projectid" := projectId, "networkids" := Str(networkText),
                    "diskofferingid" := diskOfferingId, "hypervisor" := hypervisor]);
    }

    /** create_vm: nothing when the VM exists; otherwise reports a change, resolves the
        arguments and, outside check mode, deploys the VM. */
    method CreateVm() returns (r: Result<Value>)
      requires Valid()
      modifies this`result, this`vm, base`projectId, base`zoneId, base`hypervisor
      modifies base.api`lookups, base.api`mutations, base.api`jobReplies
      ensures Valid()
      ensures var run := CreateSpec(old(base.api.jobReplies));
        && r == run.outcome
        && result == Marked(old(result), run.changed)
        && base.api.mutations == old(base.api.mutations) + run.calls
        && base.api.jobReplies == old(base.api.jobReplies)[run.consumed..]
    {
      var vm :- GetVm();
      if Truthy(vm) {
        return Ok(vm);
      }
      result := result["changed" := Bool(true)];
      var ids :- ResolveDeployIds();
      var args :- DeployArgsFrom(ids);
      if base.checkMode {
        return Ok(vm);
      }
      r := IssueCall(Request("deployVirtualMachine", args));
    }

    /** A mutating call whose reply is polled or answered as it came. */
    method IssueCall(req: Request) returns (r: Result<Value>)
      requires Valid()
      modifies base.api`lookups, base.api`mutations, base.api`jobReplies
      ensures Valid()
      ensures var run := Issue(req, base.api.reply(req), old(base.api.jobReplies));
        && r == run.outcome
        && base.api.mutations == old(base.api.mutations) + run.calls
        && base.api.jobReplies == old(base.api.jobReplies)[run.consumed..]
    {
      var res := base.api.Call(req);
      var p := base.SettleReply(res, res, VmKey);
      r := p.outcome;
    }

    /** remove_vm: destroys a VM that is not already going or gone. */
    method RemoveVm() returns (r: Result<Value>)
      requires Valid()
      modifies this`result, this`vm, base`projectId
      modifies base.api`lookups, base.api`mutations, base.api`jobReplies
      ensures Valid()
      ensures var run := RemoveSpec(old(base.api.jobReplies));
        && r == run.outcome
        && result == Marked(old(result), run.changed)
        && base.api.mutations == old(base.api.mutations) + run.calls
        && base.api.jobReplies == old(base.api.jobReplies)[run.consumed..]
    {
      var vm :- GetVm();
      if !Truthy(vm) {
        return Ok(vm);
      }
      var state :- StateOf(vm);
      if !DestroyChanges(state) {
        return Ok(vm);
      }
      result := result["changed" := Bool(true)];
      if base.checkMode {
        return Ok(vm);
      }
      var id :- Index(vm, "id");
      var res := base.api.Call(Request("destroyVirtualMachine", map["id" := id]));
      var p := base.SettleReply(res, vm, VmKey);
      r := p.outcome;
    }

    /** expunge_vm: expunges a destroyed VM, destroys and expunges a live one, and polls
        whatever reply there is when `poll_async` is set. */
    method ExpungeVm() returns (r: Result<Value>)
      requires Valid()
      modifies this`result, this`vm, base`projectId
      modifies base.api`lookups, base.api`mutations, base.api`jobReplies
      ensures Valid()
      ensures var run := ExpungeSpec(old(base.api.jobReplies));
        && r == run.outcome
        && result == Marked(old(result), run.changed)
        && base.api.mutations == old(base.api.mutations) + run.calls
        && base.api.jobReplies == old(base.api.jobReplies)[run.consumed..]
    {
      var vm :- GetVm();
      if !Truthy(vm) {
        return Ok(vm);
      }
      var state :- StateOf(vm);
      r := ExpungeStep(vm, ExpungeDecision(state));
    }

    /** The part of expunge_vm after the decision. */
    method ExpungeStep(vm: Value, step: ExpungeStep) returns (r: Result<Value>)
      requires Valid()
      modifies this`result, base.api`lookups, base.api`mutations, base.api`jobReplies
      ensures Valid()
      ensures var run := ExpungeStepSpec(vm, step, old(base.api.jobReplies));
        && r == run.outcome
        && result == Marked(old(result), run.changed)
        && base.api.mutations == old(base.api.mutations) + run.calls
        && base.api.jobReplies == old(base.api.jobReplies)[run.consumed..]
    {
      if step != NoStep {
        result := result["changed" := Bool(true)];
      }
      if step != NoStep && !base.checkMode {
        var id :- Index(vm, "id");
        var res := base.api.Call(ExpungeRequest(step, id));
        if Truthy(res) {
          var p := base.SettleReply(res, vm, VmKey);
          r := p.outcome;
        } else if PollAsync() {
          var p := base.PollJob(res, VmKey);
          r := p.outcome;
        } else {
          r := Ok(vm);
        }
      } else if PollAsync() {
        var p := base.PollJob(Dict(map[]), VmKey);
        r := p.outcome;
      } else {
        r := Ok(vm);
      }
    }

    /** stop_vm: fails when no VM is found; stops a VM whose state is 'starting'. */
    method StopVm() returns (r: Result<Value>)
      requires Valid()
      modifies this`result, this`vm, base`projectId
      modifies base.api`lookups, base.api`mutations, base.api`jobReplies
      ensures Valid()
      ensures var run := StopSpec(old(base.api.jobReplies));
        && r == run.outcome
        && result == Marked(old(result), run.changed)
        && base.api.mutations == old(base.api.mutations) + run.calls
        && base.api.jobReplies == old(base.api.jobReplies)[run.consumed..]
    {
      var vm :- GetVm();
      if !Truthy(vm) {
        return Err(Failed(NotFoundMessage()));
      }
      var state :- StateOf(vm);
      if !StopChanges(state) {
        return Ok(vm);
      }
      result := result["changed" := Bool(true)];
      if base.checkMode {
        return Ok(vm);
      }
      var id :- Index(vm, "id");
      r := IssueCall(Request("stopVirtualMachine", map["id" := id]));
    }

    /** start_vm: a missing VM raises; starts a stopped or stopping VM. */
    method StartVm() returns (r: Result<Value>)
      requires Valid()
      modifies this`result, this`vm, base`projectId
      modifies base.api`lookups, base.api`mutations, base.api`jobReplies
      ensures Valid()
      ensures var run := StartSpec(old(base.api.jobReplies));
        && r == run.outcome
        && result == Marked(old(result), run.changed)
        && base.api.mutations == old(base.api.mutations) + run.calls
        && base.api.jobReplies == old(base.api.jobReplies)[run.consumed..]
    {
      var vm :- GetVm();
      if !Truthy(vm) {
        return Err(NameError);
      }
      var state :- StateOf(vm);
      if !StartChanges(state) {
        return Ok(vm);
      }
      result := result["changed" := Bool(true)];
      if base.checkMode {
        return Ok(vm);
      }
      var id :- Index(vm, "id");
      r := IssueCall(Request("startVirtualMachine", map["id" := id]));
    }

    /** restart_vm: reboots a running or starting VM, refuses a stopping or stopped one. */
    method RestartVm() returns (r: Result<Value>)
      requires Valid()
      modifies this`result, this`vm, base`projectId
      modifies base.api`lookups, base.api`mutations, base.api`jobReplies
      ensures Valid()
      ensures var run := RestartSpec(old(base.api.jobReplies));
        && r == run.outcome
        && result == Marked(old(result), run.changed)
        && base.api.mutations == old(base.api.mutations) + run.calls
        && base.api.jobReplies == old(base.api.jobReplies)[run.consumed..]
    {
      var vm :- GetVm();
      if !Truthy(vm) {
        return Err(NameError);
      }
      var state :- StateOf(vm);
      match RestartDecision(state)
      case Leave =>
        return Ok(vm);
      case RefuseNotRunning =>
        return Err(Failed("Virtual machine named '" + Show(base.Param("name")) + "' not running, not restarted"));
      case Reboot =>
        result := result["changed" := Bool(true)];
        if base.checkMode {
          return Ok(vm);
        }
        var id :- Index(vm, "id");
        var res := base.api.Call(Request("rebootVirtualMachine", map["id" := id]));
        if PollAsync() {
          var p := base.PollJob(res, VmKey);
          return p.outcome;
        }
        return Ok(res);
    }

    /** The end of scale_vm after the scale call. */
    method Resume(polled: Value, before: string) returns (r: Result<Value>)
      requires Valid()
      requires "changed" in result && result["changed"] == Bool(true)
      modifies this`result, this`vm, base`projectId
      modifies base.api`lookups, base.api`mutations, base.api`jobReplies
      ensures Valid()
      ensures var run := ResumeSpec(polled, before, old(base.api.jobReplies));
        && r == run.outcome
        && result == old(result)
        && base.api.mutations == old(base.api.mutations) + run.calls
        && base.api.jobReplies == old(base.api.jobReplies)[run.consumed..]
    {
      if before != "running" {
        return Ok(polled);
      }
      ghost var replies := base.api.jobReplies;
      ghost var start := StartSpec(replies);
      ghost var before := result;
      var started :- StartVm();
      MarkedAgain(before, start.changed);
      var q := base.PollJob(started, VmKey);
      RepliesInTurn(replies, start.consumed, q.consumed);
      r := q.outcome;
    }

    /** The start of scale_vm's steps. */
    method StopAndPoll() returns (r: Result<Value>)
      requires Valid()
      requires "changed" in result && result["changed"] == Bool(true)
      modifies this`result, this`vm, base`projectId
      modifies base.api`lookups, base.api`mutations, base.api`jobReplies
      ensures Valid()
      ensures var run := StopAndPollSpec(old(base.api.jobReplies));
        && r == run.outcome
        && result == old(result)
        && base.api.mutations == old(base.api.mutations) + run.calls
        && base.api.jobReplies == old(base.api.jobReplies)[run.consumed..]
    {
      ghost var replies := base.api.jobReplies;
      ghost var stop := StopSpec(replies);
      ghost var before := result;
      var stopped :- StopVm();
      MarkedAgain(before, stop.changed);
      var q := base.PollJob(stopped, VmKey);
      RepliesInTurn(replies, stop.consumed, q.consumed);
      r := q.outcome;
    }

    /** The first half of scale_vm's steps. */
    method StopAndScale(sid: Value) returns (r: Result<Value>)
      requires Valid()
      requires "changed" in result && result["changed"] == Bool(true)
      modifies this`result, this`vm, base`projectId
      modifies base.api`lookups, base.api`mutations, base.api`jobReplies
      ensures Valid()
      ensures var run := StopAndScaleSpec(sid, old(base.api.jobReplies));
        && r == run.outcome
        && result == old(result)
        && base.api.mutations == old(base.api.mutations) + run.calls
        && base.api.jobReplies == old(base.api.jobReplies)[run.consumed..]
    {
      ghost var log := base.api.mutations;
      ghost var first := StopAndPollSpec(base.api.jobReplies);
      var polled :- StopAndPoll();
      var id :- Index(polled, "id");
      var scale := Request("scaleVirtualMachine", map["id" := id, "serviceofferingid" := sid]);
      var _ := base.api.Call(scale);
      CallsInTurn(log, first.calls, [scale]);
      r := Ok(polled);
    }

    /** The steps of scale_vm once the offering differs, outside check mode. */
    method ScaleSteps(sid: Value, before: string) returns (r: Result<Value>)
      requires Valid()
      requires "changed" in result && result["changed"] == Bool(true)
      modifies this`result, this`vm, base`projectId
      modifies base.api`lookups, base.api`mutations, base.api`jobReplies
      ensures Valid()
      ensures var run := ScaleStepsSpec(sid, before, old(base.api.jobReplies));
        && r == run.outcome
        && result == old(result)
        && base.api.mutations == old(base.api.mutations) + run.calls
        && base.api.jobReplies == old(base.api.jobReplies)[run.consumed..]
    {
      ghost var replies := base.api.jobReplies;
      ghost var log := base.api.mutations;
      ghost var first := StopAndScaleSpec(sid, replies);
      var polled :- StopAndScale(sid);
      ghost var rest := ResumeSpec(polled, before, replies[first.consumed..]);
      r := Resume(polled, before);
      RepliesInTurn(replies, first.consumed, rest.consumed);
      CallsInTurn(log, first.calls, rest.calls);
    }

    /** scale_vm: when the VM's offering differs from the one resolved, stops it (as
        stop_vm decides), polls, scales it, and starts it again (as start_vm decides) when
        it was running. */
    method ScaleVm() returns (r: Result<Value>)
      requires Valid()
      modifies this`result, this`vm, base`projectId
      modifies base.api`lookups, base.api`mutations, base.api`jobReplies
      ensures Valid()
      ensures var run := ScaleSpec(old(base.api.jobReplies));
        && r == run.outcome
        && result == Marked(old(result), run.changed)
        && base.api.mutations == old(base.api.mutations) + run.calls
        && base.api.jobReplies == old(base.api.jobReplies)[run.consumed..]
    {
      ghost var replies := base.api.jobReplies;
      var vm :- GetVm();
      if !Truthy(vm) {
        return Ok(vm);
      }
      var sid :- GetServiceOfferingId();
      var current :- Index(vm, "serviceofferingid");
      if current == sid {
        return Ok(vm);
      }
      result := result["changed" := Bool(true)];
      if base.checkMode {
        return Ok(vm);
      }
      var before :- StateOf(vm);
      r := ScaleSteps(sid, before);
    }

    /** get_template_or_iso_id refuses neither and both; with exactly one given, it answers
        the id of the first image matching it by display text, name or id, and otherwise
        fails with "Template '<ref>' not found" or "ISO '<ref>' not found". */
    lemma TemplateOrIsoExactlyOne()
      requires forall i :: 0 <= i < |base.api.listing(ListExecutableTemplates)| ==>
                 IsRecord(base.api.listing(ListExecutableTemplates)[i], ImageKeys)
      requires forall i :: 0 <= i < |base.api.listing(ListIsos)| ==> IsRecord(base.api.listing(ListIsos)[i], ImageKeys)
      ensures !Truthy(base.Param("template")) && !Truthy(base.Param("iso")) ==>
                TemplateOrIsoSpec() == Err(Failed("Template or ISO is required."))
      ensures Truthy(base.Param("template")) && Truthy(base.Param("iso")) ==>
                TemplateOrIsoSpec() == Err(Failed("Template are ISO are mutually exclusive."))
      ensures var ref := base.Param("template"); var xs := base.api.listing(ListExecutableTemplates);
        Truthy(ref) && !Truthy(base.Param("iso")) ==>
          && (TemplateOrIsoSpec().Ok? <==> exists i :: 0 <= i < |xs| && Holds(ref, xs[i], ImageKeys))
          && (TemplateOrIsoSpec().Ok? ==>
                exists i :: FirstHolding(ref, xs, ImageKeys, i) && TemplateOrIsoSpec().value == Field(xs[i], "id"))
          && (!TemplateOrIsoSpec().Ok? ==> TemplateOrIsoSpec() == Err(Failed(NotFound("Template", ref))))
      ensures var ref := base.Param("iso"); var xs := base.api.listing(ListIsos);
        Truthy(ref) && !Truthy(base.Param("template")) ==>
          && (TemplateOrIsoSpec().Ok? <==> exists i :: 0 <= i < |xs| && Holds(ref, xs[i], ImageKeys))
          && (TemplateOrIsoSpec().Ok? ==>
                exists i :: FirstHolding(ref, xs, ImageKeys, i) && TemplateOrIsoSpec().value == Field(xs[i], "id"))
          && (!TemplateOrIsoSpec().Ok? ==> TemplateOrIsoSpec() == Err(Failed(NotFound("ISO", ref))))
    {
      assert "id" in ImageKeys;
      FirstMatchOnRecords("Template", base.Param("template"), base.api.listing(ListExecutableTemplates), ImageKeys);
      FirstMatchOnRecords("ISO", base.Param("iso"), base.api.listing(ListIsos), ImageKeys);
    }

    /** get_network_ids answers None when no names are given; otherwise, over networks
        carrying a name and an id, the ids of exactly the networks whose name or id is
        among the names, in listing order. */
    lemma NetworkIdsInListingOrder(zoneId: Value, projectId: Value)
      requires base.ZoneSpec() == Ok(zoneId) && base.ProjectSpec() == Ok(projectId)
      requires var xs := base.api.listing(ListNetworksIn(zoneId, projectId));
        forall i :: 0 <= i < |xs| ==> IsRecord(xs[i], NameIdKeys)
      ensures !Truthy(base.Param("networks")) ==> NetworkIdsSpec() == Ok(Null)
      ensures var names := base.Param("networks"); var xs := base.api.listing(ListNetworksIn(zoneId, projectId));
        var m := Matching(NameOrIdIn(names), xs);
        Truthy(names) && names.List? ==>
          && NetworkIdsSpec().Ok? && NetworkIdsSpec().value.List?
          && |NetworkIdsSpec().value.items| == |m|
          && (forall k :: 0 <= k < |m| ==> NetworkIdsSpec().value.items[k] == Field(xs[m[k]], "id"))
          && (forall i :: 0 <= i < |xs| ==>
                (i in m <==> Field(xs[i], "name") in names.items || Field(xs[i], "id") in names.items))
    {
      var names := base.Param("networks");
      var xs := base.api.listing(ListNetworksIn(zoneId, projectId));
      if Truthy(names) && names.List? {
        var t := NameOrIdIn(names);
        forall i | 0 <= i < |xs|
          ensures Check(t, xs[i]) == Ok(Field(xs[i], "name") in names.items || Field(xs[i], "id") in names.items)
        {
          NameOrIdInOnRecord(names.items, xs[i]);
        }
        assert "id" in NameIdKeys;
        IdsWhereSelects(t, xs);
      }
    }

    /** With no VM found, remove, expunge and scale change nothing, stop fails with "Virtual
        machine named '<name>' not found", start and restart raise, and create reports a
        change. */
    lemma MissingVm(replies: seq<Value>)
      requires VmSpec().Ok? && !Truthy(VmSpec().value)
      ensures var vm := VmSpec().value;
        && RemoveSpec(replies) == Reconciled(Ok(vm), false, [], 0)
        && ExpungeSpec(replies) == Reconciled(Ok(vm), false, [], 0)
        && ScaleSpec(replies) == Reconciled(Ok(vm), false, [], 0)
      ensures StopSpec(replies) == Reconciled(Err(Failed(NotFoundMessage())), false, [], 0)
      ensures StartSpec(replies) == Reconciled(Err(NameError), false, [], 0)
      ensures RestartSpec(replies) == Reconciled(Err(NameError), false, [], 0)
      ensures CreateSpec(replies).changed
    {
    }

    /** create_vm is a change exactly when no VM is found; it issues at most one call,
        none in check mode, and otherwise deployVirtualMachine with the resolved
        arguments. */
    lemma CreateOnlyWhenAbsent(replies: seq<Value>)
      requires VmSpec().Ok?
      ensures var run := CreateSpec(replies); var vm := VmSpec().value;
        && (run.changed <==> !Truthy(vm))
        && |run.calls| <= 1
        && (Truthy(vm) ==> run == Reconciled(Ok(vm), false, [], 0))
        && (base.checkMode ==> run.calls == [] && run.consumed == 0)
        && (!Truthy(vm) && !base.checkMode && DeployArgsSpec().Ok? ==>
              run.calls == [Request("deployVirtualMachine", DeployArgsSpec().value)])
    {
    }

    /** The arguments create_vm completes from the parameters: the display name defaults
        to the name, the group lists are joined with commas ('' when none are given) and
        split back into the names, the user data is base64-encoded, and the resolved ids
        are kept. */
    lemma DeployArgsFromParams(ids: map<string, Value>)
      requires var userData := base.Param("user_data"); !Truthy(userData) || userData.Str?
      requires !Truthy(base.Param("security_groups")) || PlainNames(base.Param("security_groups"))
      requires !Truthy(base.Param("affinity_groups")) || PlainNames(base.Param("affinity_groups"))
      ensures DeployArgsFrom(ids).Ok?
      ensures var args := DeployArgsFrom(ids).value;
        && "displayname" in args
        && (Truthy(base.Param("display_name")) ==> args["displayname"] == base.Param("display_name"))
        && (!Truthy(base.Param("display_name")) ==> args["displayname"] == base.Param("name"))
        && "name" in args && args["name"] == base.Param("name")
        && "keypair" in args && args["keypair"] == base.Param("ssh_key")
        && "size" in args && args["size"] == base.Param("disk_size")
        && "group" in args && args["group"] == base.Param("group")
        && (Truthy(base.Param("user_data")) ==>
              "userdata" in args && args["userdata"] == Str(b64(base.Param("user_data").s)))
        && (forall k :: k in ids && k !in DeployParamKeys ==> k in args && args[k] == ids[k])
      ensures var args := DeployArgsFrom(ids).value; var groups := base.Param("security_groups");
        && "securitygroupnames" in args && args["securitygroupnames"].Str?
        && (!Truthy(groups) ==> args["securitygroupnames"] == Str(""))
        && (Truthy(groups) ==> Split(',', args["securitygroupnames"].s) == Texts(groups))
      ensures var args := DeployArgsFrom(ids).value; var groups := base.Param("affinity_groups");
        && "affinitygroupnames" in args && args["affinitygroupnames"].Str?
        && (!Truthy(groups) ==> args["affinitygroupnames"] == Str(""))
        && (Truthy(groups) ==> Split(',', args["affinitygroupnames"].s) == Texts(groups))
    {
      GroupNamesRoundTrip(base.Param("security_groups"));
      GroupNamesRoundTrip(base.Param("affinity_groups"));
    }

    /** With no networks given, create_vm as written raises a TypeError joining None,
        while the intended join passes no network ids. */
    lemma NetworksUnsetJoin()
      requires !Truthy(base.Param("networks"))
      ensures NetworkIdsSpec() == Ok(Null)
      ensures JoinNetworkIdsAsWritten(NetworkIdsSpec().value) == Err(TypeError)
      ensures DeployIdsSpec().Ok? ==> "networkids" in DeployIdsSpec().value && DeployIdsSpec().value["networkids"] == Str("")
    {
      NetworkIdsJoinAsWrittenRaises();
    }

    /** remove_vm is a change exactly when the VM is not expunging, destroying or
        destroyed; then, outside check mode, it issues destroyVirtualMachine with the VM's
        id and, without polling and without an error text, answers the VM record. */
    lemma RemoveOnlyWhenLive(vm: Value, state: string, replies: seq<Value>)
      requires VmSpec() == Ok(vm) && Truthy(vm) && StateOf(vm) == Ok(state)
      ensures var run := RemoveSpec(replies);
        && (run.changed <==> state !in ["expunging", "destroying", "destroyed"])
        && (!run.changed ==> run == Reconciled(Ok(vm), false, [], 0))
        && (base.checkMode ==> run.calls == [] && run.outcome == Ok(vm))
        && (run.changed && !base.checkMode && vm.Dict? && "id" in vm.entries ==>
              var req := Request("destroyVirtualMachine", map["id" := vm.entries["id"]]);
              && run.calls == [req]
              && (base.api.reply(req).Dict? && "errortext" !in base.api.reply(req).entries && !PollAsync() ==>
                    run.outcome == Ok(vm)))
    {
    }

    /** expunge_vm by the lower-cased state: destroying or destroyed calls
        expungeVirtualMachine, expunging does nothing, any other state calls
        destroyVirtualMachine with expunge; when no call is made and `poll_async` is set,
        the empty reply `{}` is polled and answered. */
    lemma ExpungeByState(vm: Value, state: string, replies: seq<Value>)
      requires VmSpec() == Ok(vm) && Truthy(vm) && StateOf(vm) == Ok(state)
      ensures var run := ExpungeSpec(replies);
        && (run.changed <==> state != "expunging")
        && (base.checkMode || state == "expunging" ==> run.calls == [] && run.consumed == 0)
        && ((base.checkMode || state == "expunging") && PollAsync() ==> run.outcome == Ok(Dict(map[])))
        && ((base.checkMode || state == "expunging") && !PollAsync() ==> run.outcome == Ok(vm))
        && (!base.checkMode && vm.Dict? && "id" in vm.entries && state in ["destroying", "destroyed"] ==>
              run.calls == [Request("expungeVirtualMachine", map["id" := vm.entries["id"]])])
        && (!base.checkMode && vm.Dict? && "id" in vm.entries && state !in ["destroying", "destroyed", "expunging"] ==>
              run.calls == [Request("destroyVirtualMachine", map["id" := vm.entries["id"], "expunge" := Bool(true)])])
    {
      PollPassesThroughSyncReply(Dict(map[]), VmKey, replies);
    }

    /** stop_vm as written is a change only from 'starting'; then, outside check mode, it
        issues stopVirtualMachine with the VM's id. */
    lemma StopOnlyFromStarting(vm: Value, state: string, replies: seq<Value>)
      requires VmSpec() == Ok(vm) && Truthy(vm) && StateOf(vm) == Ok(state)
      ensures var run := StopSpec(replies);
        && (run.changed <==> state == "starting")
        && (!run.changed ==> run == Reconciled(Ok(vm), false, [], 0))
        && (base.checkMode ==> run.calls == [] && run.outcome == Ok(vm))
        && (run.changed && !base.checkMode && vm.Dict? && "id" in vm.entries ==>
              run.calls == [Request("stopVirtualMachine", map["id" := vm.entries["id"]])])
    {
    }

    /** start_vm is a change only from stopped or stopping; then, outside check mode, it
        issues startVirtualMachine with the VM's id. */
    lemma StartOnlyWhenStopped(vm: Value, state: string, replies: seq<Value>)
      requires VmSpec() == Ok(vm) && Truthy(vm) && StateOf(vm) == Ok(state)
      ensures var run := StartSpec(replies);
        && (run.changed <==> state == "stopped" || state == "stopping")
        && (!run.changed ==> run == Reconciled(Ok(vm), false, [], 0))
        && (base.checkMode ==> run.calls == [] && run.outcome == Ok(vm))
        && (run.changed && !base.checkMode && vm.Dict? && "id" in vm.entries ==>
              run.calls == [Request("startVirtualMachine", map["id" := vm.entries["id"]])])
    {
    }

    /** restart_vm reboots a running or starting VM, fails a stopping or stopped one with
        "Virtual machine named '<name>' not running, not restarted" (in check mode too),
        and leaves a VM in any other state; the reboot reply is not checked for an error
        text. */
    lemma RestartByState(vm: Value, state: string, replies: seq<Value>)
      requires VmSpec() == Ok(vm) && Truthy(vm) && StateOf(vm) == Ok(state)
      ensures var run := RestartSpec(replies);
        && (run.changed <==> state == "running" || state == "starting")
        && (state == "stopping" || state == "stopped" ==>
              run == Reconciled(Err(Failed("Virtual machine named '" + Show(base.Param("name")) +
                                          "' not running, not restarted")), false, [], 0))
        && (state !in ["running", "starting", "stopping", "stopped"] ==> run == Reconciled(Ok(vm), false, [], 0))
        && (base.checkMode ==> run.calls == [])
        && (run.changed && !base.checkMode && vm.Dict? && "id" in vm.entries ==>
              var req := Request("rebootVirtualMachine", map["id" := vm.entries["id"]]);
              && run.calls == [req]
              && (!PollAsync() ==> run.outcome == Ok(base.api.reply(req))))
    {
    }

    /** scale_vm is a change exactly when the VM's offering differs from the one
        resolved, and issues nothing when it does not or in check mode. */
    lemma ScaleOnlyWhenOfferingDiffers(vm: Value, sid: Value, replies: seq<Value>)
      requires VmSpec() == Ok(vm) && Truthy(vm) && ServiceOfferingSpec() == Ok(sid)
      requires vm.Dict? && "serviceofferingid" in vm.entries
      ensures var run := ScaleSpec(replies);
        && (run.changed <==> vm.entries["serviceofferingid"] != sid)
        && (!run.changed ==> run == Reconciled(Ok(vm), false, [], 0))
        && (base.checkMode ==> run.calls == [] && run.outcome == Ok(vm))
    {
    }

    /** As written, scale_vm never issues startVirtualMachine: start_vm sees the
        memoised record, whose state is the one before the scale. */
    lemma ScaleNeverStarts(replies: seq<Value>)
      ensures forall i :: 0 <= i < |ScaleSpec(replies).calls| ==>
                ScaleSpec(replies).calls[i].command != "startVirtualMachine"
    {
      var run := ScaleSpec(replies);
      if VmSpec().Ok? && Truthy(VmSpec().value) && ServiceOfferingSpec().Ok? && !base.checkMode {
        var vm := VmSpec().value;
        if Index(vm, "serviceofferingid").Ok? && Index(vm, "serviceofferingid").value != ServiceOfferingSpec().value
           && StateOf(vm).Ok? {
          var before := StateOf(vm).value;
          var sid := ServiceOfferingSpec().value;
          var first := StopAndScaleSpec(sid, replies);
          assert forall i :: 0 <= i < |first.calls| ==> first.calls[i].command != "startVirtualMachine";
          if first.outcome.Ok? && before == "running" {
            var rest := replies[first.consumed..];
            StartOnlyWhenStopped(vm, before, rest);
            assert ResumeSpec(first.outcome.value, before, rest).calls == [];
          }
        }
      }
    }

    /** As written, scale_vm on a running VM neither stops nor restarts it: with a record
        that carries an id and no job id, the one call is scaleVirtualMachine and the
        record itself is answered. */
    lemma ScaleRunningOnlyScales(vm: Value, sid: Value, replies: seq<Value>)
      requires VmSpec() == Ok(vm) && ServiceOfferingSpec() == Ok(sid) && !base.checkMode
      requires vm.Dict? && "serviceofferingid" in vm.entries && vm.entries["serviceofferingid"] != sid
      requires "id" in vm.entries && "jobid" !in vm.entries && StateOf(vm) == Ok("running")
      ensures ScaleSpec(replies) ==
              Reconciled(Ok(vm), true, [Request("scaleVirtualMachine", map["id" := vm.entries["id"], "serviceofferingid" := sid])], 0)
    {
      StopOnlyFromStarting(vm, "running", replies);
      PollPassesThroughSyncReply(vm, VmKey, replies);
      StartOnlyWhenStopped(vm, "running", replies);
      PollPassesThroughSyncReply(vm, VmKey, replies);
    }
  }
}
