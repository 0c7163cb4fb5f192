/** The cs_template module: it makes sure a template is present, creating it from a VM's
    root volume when a VM is named and registering it from a URL otherwise, or deletes it
    when it should be absent. */
module Template {
  import opened Py
  import opened Lookup
  import opened Jobs
  import opened Summary
  import opened CloudStack

  /** The job-result key the template operations poll for. */
  const TemplateKey := "template"

  /** get_vm matches the source VM by display name, name or id. */
  const SourceVmKeys := ["displayname", "name", "id"]

  /** What get_result copies from the template, and under which name. */
  const ResultPairs := [("displaytext", "displaytext"), ("name", "name"), ("zonename", "zone"),
                        ("status", "status"), ("created", "created"), ("templatetag", "template_tag")]

  /** The keys register_template sets on top of the template arguments. */
  const RegisterParamKeys := {"url", "format", "projectid", "zoneid", "hypervisor", "checksum",
                              "isextractable", "isrouting", "sshkeyenabled"}

  class TemplateModule {
    const base: AnsibleCloudStack
    var result: map<string, Value>

    function PollAsync(): bool {
      Truthy(base.Param("poll_async"))
    }

    /** The listTemplates call get_template makes: filtered by name only when no checksum
        is given. */
    function ListTemplatesSpec(): Result<Request> {
      var projectId :- base.ProjectSpec();
      var zoneId :- base.ZoneSpec();
      var args := map["isready" := base.Param("is_ready"), "projectid" := projectId, "zoneid" := zoneId,
                      "templatefilter" := base.Param("template_filter")];
      Ok(Request("listTemplates", if Truthy(base.Param("checksum")) then args else args["name" := base.Param("name")]))
    }

    /** What get_template answers: without a checksum the first template listed, with one
        the first template carrying that checksum, and None when there is none. */
    function TemplateSpec(): Result<Value> {
      var req :- ListTemplatesSpec();
      var xs := base.api.listing(req);
      var checksum := base.Param("checksum");
      if xs == [] then Ok(Null)
      else if !Truthy(checksum) then Ok(xs[0])
      else FirstRecord(FieldIs("checksum", checksum), xs)
    }

    /** The arguments _get_template_args builds, with `extractable` as `isextractable`. */
    function ArgsWith(extractable: Value): Result<map<string, Value>> {
      var displayText := if Truthy(base.Param("displaytext")) then base.Param("displaytext") else base.Param("name");
      var osTypeId :- base.OsTypeSpec();
      Ok(map["displaytext" := displayText, "name" := base.Param("name"), "ostypeid" := osTypeId,
             "bits" := base.Param("bits"), "isdynamicallyscalable" := base.Param("is_dynamically_scalable"),
             "isfeatured" := base.Param("is_featured"),
             "ispublic" := base.Param("is_public"), "passwordenabled" := base.Param("password_enabled"),
             "requireshvm" := base.Param("requires_hvm"), "templatetag" := base.Param("template_tag"),
             "isextractable" := extractable])
    }

    /** _get_template_args as written: it reads the parameter 'isextractable', which the
        module does not declare. */
    function TemplateArgsAsWritten(): Result<map<string, Value>> {
      ArgsWith(base.Param("isextractable"))
    }

    /** _get_template_args as intended, reading the declared 'is_extractable'. */
    function TemplateArgsSpec(): Result<map<string, Value>> {
      ArgsWith(base.Param("is_extractable"))
    }

    /** get_vm as intended: the first VM of the project matched by display name, name or
        id; the `vm` parameter is required and a VM must match. */
    function SourceVmSpec(): Result<Value> {
      var ref := base.Param("vm");
      if !Truthy(ref) then Err(Failed("Virtual machine param 'vm' is required"))
      else
        var projectId :- base.ProjectSpec();
        var xs := base.api.listing(ListVirtualMachines(projectId));
        match FirstWhere(AnyField(ref, SourceVmKeys), xs)
        case At(i) => Ok(xs[i])
        case Broke(_, e) => Err(e)
        case Nowhere => Err(Failed(NotFound("Virtual machine", ref)))
    }

    /** get_vm as written: it fails where the intended one fails, but on a match answers
        the `vm` parameter itself rather than the matched record. */
    function SourceVmAsWritten(): Result<Value> {
      var _ :- SourceVmSpec();
      Ok(base.Param("vm"))
    }

    /** The createTemplate arguments: the template arguments and the VM's root volume. */
    function CreateArgsFrom(args: map<string, Value>, vm: Value): Result<map<string, Value>> {
      var volumeId :- Index(vm, "rootdeviceid");
      Ok(args["volumeid" := volumeId])
    }

    /** create_template's arguments as written. */
    function CreateArgsAsWritten(): Result<map<string, Value>> {
      var args :- TemplateArgsAsWritten();
      var vm :- SourceVmAsWritten();
      CreateArgsFrom(args, vm)
    }

    /** create_template's arguments as intended. */
    function CreateArgsSpec(): Result<map<string, Value>> {
      var args :- TemplateArgsSpec();
      var vm :- SourceVmSpec();
      CreateArgsFrom(args, vm)
    }

    /** register_template's arguments on top of the template arguments: the URL is
        required before the format, then project, zone and hypervisor are resolved. */
    function RegisterArgsFrom(args: map<string, Value>): Result<map<string, Value>> {
      var url := base.Param("url");
      if !Truthy(url) then Err(Failed("URL is requried."))
      else
        var format := base.Param("format");
        if !Truthy(format) then Err(Failed("Format is requried."))
        else
          var projectId :- base.ProjectSpec();
          var zoneId :- base.ZoneSpec();
          var hypervisor :- base.HypervisorSpec();
          Ok(args["url" := url]["format" := format]["projectid" := projectId]["zoneid" := zoneId]
                 ["hypervisor" := hypervisor]["checksum" := base.Param("checksum")]
                 ["isextractable" := base.Param("is_extractable")]["isrouting" := base.Param("is_routing")]
                 ["sshkeyenabled" := base.Param("sshkey_enabled")])
    }

    function RegisterArgsSpec(): Result<map<string, Value>> {
      var args :- TemplateArgsSpec();
      RegisterArgsFrom(args)
    }

    /** A create or register: nothing when the template exists; otherwise a change, the
        arguments, and outside check mode the call, whose reply gets the usual handling. */
    function AddSpec(command: string, argsSpec: Result<map<string, Value>>, replies: seq<Value>): (run: Reconciled)
      ensures run.consumed <= |replies|
    {
      match TemplateSpec()
      case Err(e) => Reconciled(Err(e), false, [], 0)
      case Ok(template) =>
        if Truthy(template) then Reconciled(Ok(template), false, [], 0)
        else
          match argsSpec
          case Err(e) => Reconciled(Err(e), true, [], 0)
          case Ok(args) =>
            CallSpec(Request(command, args), template, replies)
    }

    /** The end of a create or register: in check mode the template as found, otherwise
        the call, whose reply gets the usual handling. */
    function CallSpec(req: Request, template: Value, replies: seq<Value>): (run: Reconciled)
      ensures run.consumed <= |replies|
    {
      if base.checkMode then Reconciled(Ok(template), true, [], 0)
      else
        var res := base.api.reply(req);
        var p := Settle(res, res, TemplateKey, PollAsync(), replies);
        Reconciled(p.outcome, true, [req], p.consumed)
    }

    /** What create_template does. */
    function CreateSpec(replies: seq<Value>): (run: Reconciled)
      ensures run.consumed <= |replies|
    {
      AddSpec("createTemplate", CreateArgsSpec(), replies)
    }

    /** What register_template does. */
    function RegisterSpec(replies: seq<Value>): (run: Reconciled)
      ensures run.consumed <= |replies|
    {
      AddSpec("registerTemplate", RegisterArgsSpec(), replies)
    }

    /** What remove_template does: deletes an existing template by id and zone, outside
        check mode, and answers the template as it was before. */
    function RemoveSpec(): (run: Reconciled)
      ensures run.consumed == 0
    {
      match TemplateSpec()
      case Err(e) => Reconciled(Err(e), false, [], 0)
      case Ok(template) =>
        if !Truthy(template) then Reconciled(Ok(template), false, [], 0)
        else
          match Index(template, "id")
          case Err(e) => Reconciled(Err(e), true, [], 0)
          case Ok(id) =>
            match base.ZoneSpec()
            case Err(e) => Reconciled(Err(e), true, [], 0)
            case Ok(zoneId) =>
              if base.checkMode then Reconciled(Ok(template), true, [], 0)
              else Reconciled(Ok(template), true, [Request("deleteTemplate", map["id" := id, "zoneid" := zoneId])], 0)
    }

    /** The dispatch in main: remove for state 'absent', otherwise create when a VM is
        named and register when not. */
    function ReconcileSpec(replies: seq<Value>): (run: Reconciled)
      ensures run.consumed <= |replies|
    {
      if base.Param("state") == Str("absent") then RemoveSpec()
      else if Truthy(base.Param("vm")) then CreateSpec(replies)
      else RegisterSpec(replies)
    }

    /** What get_result makes of the result map and the template the run ended with. */
    function ResultSpec(before: map<string, Value>, template: Value): Result<map<string, Value>> {
      if Truthy(template) then CopyPresent(before, template, ResultPairs) else Ok(before)
    }

    /** The summary main hands to exit_json, or the failure that ends the run. */
    function MainSpec(before: map<string, Value>, replies: seq<Value>): Result<map<string, Value>> {
      var run := ReconcileSpec(replies);
      var template :- run.outcome;
      ResultSpec(Marked(before, run.changed), template)
    }

    ghost predicate Valid()
      reads this, base
    {
      base.Valid()
    }

    /** The result map starts as the shared base class sets it up. */
    constructor (base: AnsibleCloudStack)
      requires base.Valid()
      ensures this.base == base
      ensures result == map["changed" := Bool(false)]
      ensures Valid()
    {
      this.base := base;
      result := map["changed" := Bool(false)];
    }

    /** get_template: one listing call, then the first template or the first with the
        checksum. */
    method GetTemplate() returns (r: Result<Value>)
      requires Valid()
      modifies base`projectId, base`zoneId, base.api`lookups
      ensures Valid()
      ensures r == TemplateSpec()
    {
      var projectId :- base.GetProjectId();
      var zoneId :- base.GetZoneId();
      var args := map["isready" := base.Param("is_ready"), "projectid" := projectId, "zoneid" := zoneId,
                      "templatefilter" := base.Param("template_filter")];
      var checksum := base.Param("checksum");
      if !Truthy(checksum) {
        args := args["name" := base.Param("name")];
      }
      var templates := base.api.List(Request("listTemplates", args));
      if templates == [] {
        return Ok(Null);
      }
      if !Truthy(checksum) {
        return Ok(templates[0]);
      }
      var f := Scan(FieldIs("checksum", checksum), templates);
      match f
      case At(i) => r := Ok(templates[i]);
      case Broke(_, e) => r := Err(e);
      case Nowhere => r := Ok(Null);
    }

    /** _get_template_args, reading 'is_extractable'. */
    method GetTemplateArgs() returns (r: Result<map<string, Value>>)
      requires Valid()
      modifies base`osTypeId, base.api`lookups
      ensures Valid()
      ensures r == TemplateArgsSpec()
    {
      var displayText := base.Param("displaytext");
      if !Truthy(displayText) {
        displayText := base.Param("name");
      }
      var osTypeId :- base.GetOsTypeId();
      return Ok(map["displaytext" := displayText, "name" := base.Param("name"), "ostypeid" := osTypeId,
                    "bits" := base.Param("bits"), "isdynamicallyscalable" := base.Param("is_dynamically_scalable"),
                    "isfeatured" := base.Param("is_featured"),
                    "ispublic" := base.Param("is_public"), "passwordenabled" := base.Param("password_enabled"),
                    "requireshvm" := base.Param("requires_hvm"), "templatetag" := base.Param("template_tag"),
                    "isextractable" := base.Param("is_extractable")]);
    }

    /** get_vm, answering the matched record. */
    method GetSourceVm() returns (r: Result<Value>)
      requires Valid()
      modifies base`projectId, base.api`lookups
      ensures Valid()
      ensures r == SourceVmSpec()
    {
      var ref := base.Param("vm");
      if !Truthy(ref) {
        return Err(Failed("Virtual machine param 'vm' is required"));
      }
      var projectId :- base.GetProjectId();
      var vms := base.api.List(ListVirtualMachines(projectId));
      var f := Scan(AnyField(ref, SourceVmKeys), vms);
      match f
      case At(i) => r := Ok(vms[i]);
      case Broke(_, e) => r := Err(e);
      case Nowhere => r := Err(Failed(NotFound("Virtual machine", ref)));
    }

    /** create_template: nothing when the template exists; otherwise reports a change,
        builds the arguments from the template parameters and the VM's root volume and,
        outside check mode, issues createTemplate. */
    method CreateTemplate() returns (r: Result<Value>)
      requires Valid()
      modifies this`result, base`projectId, base`zoneId, base`osTypeId
      modifies base.api`lookups, base.api`mutations, base.api`jobReplies
      ensures Valid()
      ensures var run := CreateSpec(old(base.api.jobReplies));
        && r == run.outcome
        && result == Marked(old(result), run.changed)
        && base.api.mutations == old(base.api.mutations) + run.calls
        && base.api.jobReplies == old(base.api.jobReplies)[run.consumed..]
    {
      var template :- GetTemplate();
      if Truthy(template) {
        return Ok(template);
      }
      result := result["changed" := Bool(true)];
      var args :- GetTemplateArgs();
      var vm :- GetSourceVm();
      var volumeId :- Index(vm, "rootdeviceid");
      args := args["volumeid" := volumeId];
      r := Issue(Request("createTemplate", args), template);
    }

    /** register_template: nothing when the template exists; otherwise reports a change,
        requires a URL and then a format, resolves project, zone and hypervisor and,
        outside check mode, issues registerTemplate. */
    method RegisterTemplate() returns (r: Result<Value>)
      requires Valid()
      modifies this`result, base`projectId, base`zoneId, base`osTypeId, base`hypervisor
      modifies base.api`lookups, base.api`mutations, base.api`jobReplies
      ensures Valid()
      ensures var run := RegisterSpec(old(base.api.jobReplies));
        && r == run.outcome
        && result == Marked(old(result), run.changed)
        && base.api.mutations == old(base.api.mutations) + run.calls
        && base.api.jobReplies == old(base.api.jobReplies)[run.consumed..]
    {
      var template :- GetTemplate();
      if Truthy(template) {
        return Ok(template);
      }
      result := result["changed" := Bool(true)];
      var common :- GetTemplateArgs();
      var args :- GetRegisterArgs(common);
      r := Issue(Request("registerTemplate", args), template);
    }

    /** register_template's arguments on top of the template arguments. */
    method GetRegisterArgs(common: map<string, Value>) returns (r: Result<map<string, Value>>)
      requires Valid()
      modifies base`projectId, base`zoneId, base`hypervisor, base.api`lookups
      ensures Valid()
      ensures r == RegisterArgsFrom(common)
    {
      var args := common["url" := base.Param("url")];
      if !Truthy(args["url"]) {
        return Err(Failed("URL is requried."));
      }
      args := args["format" := base.Param("format")];
      if !Truthy(args["format"]) {
        return Err(Failed("Format is requried."));
      }
      var projectId :- base.GetProjectId();
      args := args["projectid" := projectId];
      var zoneId :- base.GetZoneId();
      args := args["zoneid" := zoneId];
      var hypervisor :- base.GetHypervisor();
      r := Ok(args["hypervisor" := hypervisor]["checksum" := base.Param("checksum")]
                  ["isextractable" := base.Param("is_extractable")]["isrouting" := base.Param("is_routing")]
                  ["sshkeyenabled" := base.Param("sshkey_enabled")]);
    }

    /** The end of create_template and register_template: outside check mode the call
        and the handling of its reply. */
    method Issue(req: Request, template: Value) returns (r: Result<Value>)
      modifies base.api`lookups, base.api`mutations, base.api`jobReplies
      ensures var run := CallSpec(req, template, old(base.api.jobReplies));
        && r == run.outcome
        && base.api.mutations == old(base.api.mutations) + run.calls
        && base.api.jobReplies == old(base.api.jobReplies)[run.consumed..]
    {
      if base.checkMode {
        return Ok(template);
      }
      var res := base.api.Call(req);
      var p := base.SettleReply(res, res, TemplateKey);
      r := p.outcome;
    }

    /** remove_template: reports a change when the template exists and, outside check
        mode, deletes it by id and zone; the reply is not looked at. */
    method RemoveTemplate() returns (r: Result<Value>)
      requires Valid()
      modifies this`result, base`projectId, base`zoneId
      modifies base.api`lookups, base.api`mutations
      ensures Valid()
      ensures var run := RemoveSpec();
        && r == run.outcome
        && result == Marked(old(result), run.changed)
        && base.api.mutations == old(base.api.mutations) + run.calls
    {
      var template :- GetTemplate();
      if !Truthy(template) {
        return Ok(template);
      }
      result := result["changed" := Bool(true)];
      var id :- Index(template, "id");
      var zoneId := base.GetZoneId();
      if !base.checkMode {
        var _ := base.api.Call(Request("deleteTemplate", map["id" := id, "zoneid" := zoneId.value]));
      }
      return Ok(template);
    }

    /** get_result: copies the present keys of the template into the result. */
    method GetResult(template: Value) returns (r: Result<map<string, Value>>)
      modifies this`result
      ensures r == ResultSpec(old(result), template)
      ensures result == (if r.Ok? then r.value else old(result))
    {
      r := ResultSpec(result, template);
      if r.Ok? {
        result := r.value;
      }
    }

    /** The body of main. */
    method Execute() returns (r: Result<map<string, Value>>)
      requires Valid()
      modifies this`result, base`projectId, base`zoneId, base`osTypeId, base`hypervisor
      modifies base.api`lookups, base.api`mutations, base.api`jobReplies
      ensures Valid()
      ensures r == MainSpec(old(result), old(base.api.jobReplies))
      ensures var run := ReconcileSpec(old(base.api.jobReplies));
        && base.api.mutations == old(base.api.mutations) + run.calls
        && base.api.jobReplies == old(base.api.jobReplies)[run.consumed..]
    {
      var template;
      if base.Param("state") == Str("absent") {
        template := RemoveTemplate();
      } else if Truthy(base.Param("vm")) {
        template := CreateTemplate();
      } else {
        template := RegisterTemplate();
      }
      if template.Err? {
        return Err(template.error);
      }
      r := GetResult(template.value);
    }

    /** _get_template_args defaults the display text to the name, resolves the OS type,
        and passes the parameters through under the API's names. */
    lemma TemplateArgsDefaultDisplayText()
      requires base.OsTypeSpec().Ok?
      ensures TemplateArgsSpec().Ok?
      ensures var args := TemplateArgsSpec().value;
        && "displaytext" in args && "name" in args && "ostypeid" in args && "isextractable" in args
        && (Truthy(base.Param("displaytext")) ==> args["displaytext"] == base.Param("displaytext"))
        && (!Truthy(base.Param("displaytext")) ==> args["displaytext"] == base.Param("name"))
        && args["name"] == base.Param("name")
        && args["ostypeid"] == base.OsTypeSpec().value
        && args["isextractable"] == base.Param("is_extractable")
    {
    }

    /** As written, create_template passes `isextractable` as None whatever
        'is_extractable' says, since the undeclared parameter is never set; register is
        unaffected, as it sets `isextractable` again from 'is_extractable'. */
    lemma ExtractableIgnoredAsWritten()
      requires "isextractable" !in base.params && base.OsTypeSpec().Ok?
      ensures TemplateArgsAsWritten().Ok? && TemplateArgsSpec().Ok?
      ensures "isextractable" in TemplateArgsAsWritten().value
      ensures TemplateArgsAsWritten().value["isextractable"] == Null
      ensures "isextractable" in TemplateArgsSpec().value
      ensures TemplateArgsSpec().value["isextractable"] == base.Param("is_extractable")
      ensures RegisterArgsFrom(TemplateArgsAsWritten().value) == RegisterArgsFrom(TemplateArgsSpec().value)
    {
      ArgsDifferOnlyInExtractable(base.Param("isextractable"), base.Param("is_extractable"));
      RegisterIgnoresExtractable(TemplateArgsAsWritten().value, TemplateArgsSpec().value);
    }

    /** The template arguments do not depend on `extractable` beyond `isextractable`. */
    lemma ArgsDifferOnlyInExtractable(x: Value, y: Value)
      requires base.OsTypeSpec().Ok?
      ensures ArgsWith(x).Ok? && ArgsWith(y).Ok?
      ensures forall k :: k != "isextractable" ==> Agree(ArgsWith(x).value, ArgsWith(y).value, k)
      ensures "isextractable" in ArgsWith(x).value && "isextractable" in ArgsWith(y).value
    {
    }

    /** register_template sets `isextractable` itself, so what the template arguments held
        there does not matter. */
    lemma RegisterIgnoresExtractable(a: map<string, Value>, b: map<string, Value>)
      requires forall k :: k != "isextractable" ==> Agree(a, b, k)
      ensures RegisterArgsFrom(a) == RegisterArgsFrom(b)
    {
      var ra := RegisterArgsFrom(a);
      var rb := RegisterArgsFrom(b);
      if ra.Ok? {
        forall k ensures (k in ra.value <==> k in rb.value) && (k in ra.value ==> ra.value[k] == rb.value[k]) {
          assert k != "isextractable" ==> Agree(a, b, k);
        }
        assert ra.value == rb.value;
      }
    }

    /** get_template lists the project's and zone's templates, filtered by name exactly
        when no checksum is given. */
    lemma TemplateListingFiltersByName(projectId: Value, zoneId: Value)
      requires base.ProjectSpec() == Ok(projectId) && base.ZoneSpec() == Ok(zoneId)
      ensures ListTemplatesSpec().Ok?
      ensures var req := ListTemplatesSpec().value;
        && req.command == "listTemplates"
        && "projectid" in req.args && req.args["projectid"] == projectId
        && "zoneid" in req.args && req.args["zoneid"] == zoneId
        && ("name" in req.args <==> !Truthy(base.Param("checksum")))
        && ("name" in req.args ==> req.args["name"] == base.Param("name"))
    {
    }

    /** Without a checksum, get_template answers the first template listed, or None. */
    lemma TemplateWithoutChecksum(req: Request)
      requires ListTemplatesSpec() == Ok(req) && !Truthy(base.Param("checksum"))
      ensures var xs := base.api.listing(req);
        TemplateSpec() == (if xs == [] then Ok(Null) else Ok(xs[0]))
    {
    }

    /** With a checksum, over templates that carry one, get_template answers the first
        template carrying that checksum, and None exactly when none does. */
    lemma TemplateByChecksum(req: Request)
      requires ListTemplatesSpec() == Ok(req) && Truthy(base.Param("checksum"))
      requires var xs := base.api.listing(req); forall i :: 0 <= i < |xs| ==> IsRecord(xs[i], ["checksum"])
      ensures var xs := base.api.listing(req); var checksum := base.Param("checksum");
          && TemplateSpec().Ok?
          && (TemplateSpec().value == Null <==> forall i :: 0 <= i < |xs| ==> Field(xs[i], "checksum") != checksum)
          && (TemplateSpec().value != Null ==>
                exists i :: 0 <= i < |xs| && Field(xs[i], "checksum") == checksum && TemplateSpec().value == xs[i]
                  && forall j :: 0 <= j < i ==> Field(xs[j], "checksum") != checksum)
    {
      var xs := base.api.listing(req);
      var checksum := base.Param("checksum");
      forall i | 0 <= i < |xs| ensures Check(FieldIs("checksum", checksum), xs[i]) == Ok(Field(xs[i], "checksum") == checksum) {
        assert IsRecord(xs[i], ["checksum"]);
        assert "checksum" in ["checksum"];
      }
      match FirstWhere(FieldIs("checksum", checksum), xs)
      case At(i) =>
        assert IsRecord(xs[i], ["checksum"]);
        assert "checksum" in ["checksum"];
      case Nowhere =>
      case Broke(i, _) =>
    }

    /** get_vm as intended requires the `vm` parameter and, over VMs carrying a display
        name, a name and an id, answers the first VM holding the reference in one of them,
        failing with "Virtual machine '<ref>' not found" when none does. */
    lemma SourceVmFirstMatch(projectId: Value)
      requires base.ProjectSpec() == Ok(projectId)
      requires var xs := base.api.listing(ListVirtualMachines(projectId));
        forall i :: 0 <= i < |xs| ==> IsRecord(xs[i], SourceVmKeys)
      ensures !Truthy(base.Param("vm")) ==> SourceVmSpec() == Err(Failed("Virtual machine param 'vm' is required"))
      ensures var ref := base.Param("vm"); var xs := base.api.listing(ListVirtualMachines(projectId));
        Truthy(ref) ==>
          && (SourceVmSpec().Ok? <==> exists i :: 0 <= i < |xs| && Holds(ref, xs[i], SourceVmKeys))
          && (SourceVmSpec().Ok? ==> exists i :: FirstHolding(ref, xs, SourceVmKeys, i) && SourceVmSpec().value == xs[i])
          && (!SourceVmSpec().Ok? ==> SourceVmSpec() == Err(Failed(NotFound("Virtual machine", ref))))
    {
      var ref := base.Param("vm");
      var xs := base.api.listing(ListVirtualMachines(projectId));
      if Truthy(ref) {
        forall i | 0 <= i < |xs| ensures Check(AnyField(ref, SourceVmKeys), xs[i]) == Ok(Holds(ref, xs[i], SourceVmKeys)) {
          AnyFieldOnRecord(ref, xs[i], SourceVmKeys);
        }
        match FirstWhere(AnyField(ref, SourceVmKeys), xs)
        case At(i) =>
          assert FirstHolding(ref, xs, SourceVmKeys, i);
        case Nowhere =>
        case Broke(i, _) =>
      }
    }

    /** As written, get_vm answers the name the user gave, so create_template's
        `vm['rootdeviceid']` raises a TypeError on it; as intended it answers the record,
        whose root volume becomes `volumeid`. */
    lemma RootVolumeOfSourceVm()
      requires SourceVmSpec().Ok? && TemplateArgsAsWritten().Ok? && TemplateArgsSpec().Ok?
      ensures SourceVmAsWritten() == Ok(base.Param("vm"))
      ensures base.Param("vm").Str? ==> CreateArgsAsWritten() == Err(TypeError)
      ensures var vm := SourceVmSpec().value;
        vm.Dict? && "rootdeviceid" in vm.entries ==>
          && CreateArgsSpec().Ok?
          && "volumeid" in CreateArgsSpec().value
          && CreateArgsSpec().value["volumeid"] == vm.entries["rootdeviceid"]
    {
    }

    /** create and register are a change exactly when no template is found; they issue at
        most one call, none in check mode, and otherwise the command with the arguments. */
    lemma AddOnlyWhenAbsent(command: string, argsSpec: Result<map<string, Value>>, replies: seq<Value>)
      requires TemplateSpec().Ok?
      ensures var run := AddSpec(command, argsSpec, replies); var template := TemplateSpec().value;
        && (run.changed <==> !Truthy(template))
        && |run.calls| <= 1
        && (Truthy(template) ==> run == Reconciled(Ok(template), false, [], 0))
        && (base.checkMode ==> run.calls == [] && run.consumed == 0)
        && (!Truthy(template) && !base.checkMode && argsSpec.Ok? ==> run.calls == [Request(command, argsSpec.value)])
        && (!Truthy(template) && argsSpec.Err? ==> run == Reconciled(Err(argsSpec.error), true, [], 0))
    {
    }

    /** An `errortext` in the createTemplate or registerTemplate reply is fatal, with
        "Failed: '<text>'", before any polling. */
    lemma AddErrorTextIsFatal(command: string, argsSpec: Result<map<string, Value>>, replies: seq<Value>)
      requires TemplateSpec().Ok? && !Truthy(TemplateSpec().value)
      requires !base.checkMode && argsSpec.Ok?
      requires var res := base.api.reply(Request(command, argsSpec.value));
        res.Dict? && "errortext" in res.entries
      ensures var res := base.api.reply(Request(command, argsSpec.value));
        AddSpec(command, argsSpec, replies) ==
          Reconciled(Err(Failed("Failed: '" + Show(res.entries["errortext"]) + "'")), true,
                     [Request(command, argsSpec.value)], 0)
    {
      var res := base.api.reply(Request(command, argsSpec.value));
      SettleFailsOnErrorText(res, res, TemplateKey, PollAsync(), replies);
    }

    /** register_template requires a URL, and then a format, before resolving anything
        else. */
    lemma RegisterRequiresUrlThenFormat(args: map<string, Value>)
      ensures !Truthy(base.Param("url")) ==> RegisterArgsFrom(args) == Err(Failed("URL is requried."))
      ensures Truthy(base.Param("url")) && !Truthy(base.Param("format")) ==>
                RegisterArgsFrom(args) == Err(Failed("Format is requried."))
      ensures var r := RegisterArgsFrom(args);
        Truthy(base.Param("url")) && Truthy(base.Param("format")) && base.ProjectSpec().Ok? &&
        base.ZoneSpec().Ok? && base.HypervisorSpec().Ok? ==>
          && r.Ok?
          && "url" in r.value && r.value["url"] == base.Param("url")
          && "format" in r.value && r.value["format"] == base.Param("format")
          && "isextractable" in r.value && r.value["isextractable"] == base.Param("is_extractable")
          && (forall k :: k in args && k !in RegisterParamKeys ==> k in r.value && r.value[k] == args[k])
    {
    }

    /** remove_template is a change exactly when a template is found; it issues at most
        one call, none in check mode, and otherwise deleteTemplate with the template's id
        and the zone; it answers the template as found. */
    lemma RemoveOnlyWhenPresent()
      requires TemplateSpec().Ok?
      ensures var run := RemoveSpec(); var template := TemplateSpec().value;
        && (run.changed <==> Truthy(template))
        && |run.calls| <= 1
        && (!Truthy(template) ==> run == Reconciled(Ok(template), false, [], 0))
        && (base.checkMode ==> run.calls == [])
        && (run.outcome.Ok? ==> run.outcome == Ok(template))
        && (Truthy(template) && !base.checkMode && template.Dict? && "id" in template.entries && base.ZoneSpec().Ok? ==>
              run.calls == [Request("deleteTemplate", map["id" := template.entries["id"], "zoneid" := base.ZoneSpec().value])])
    {
    }

    /** A check-mode run never issues a mutating call and consumes no job reply. */
    lemma CheckModeNeverMutates(replies: seq<Value>)
      requires base.checkMode
      ensures ReconcileSpec(replies).calls == []
      ensures ReconcileSpec(replies).consumed == 0
    {
    }

    /** get_result keeps what the result held, copies the six template keys (zonename as
        zone, templatetag as template_tag) exactly when the template has them, and leaves
        the result as it was when there is no template. */
    lemma ResultCopiesPresentKeys(before: map<string, Value>, template: Value)
      requires template.Dict? || !Truthy(template)
      ensures ResultSpec(before, template).Ok?
      ensures !Truthy(template) ==> ResultSpec(before, template) == Ok(before)
      ensures Truthy(template) ==> var out := ResultSpec(before, template).value;
        && (forall i :: 0 <= i < |ResultPairs| && ResultPairs[i].0 in template.entries ==>
              ResultPairs[i].1 in out && out[ResultPairs[i].1] == template.entries[ResultPairs[i].0])
        && (forall i :: 0 <= i < |ResultPairs| && ResultPairs[i].0 !in template.entries ==>
              Agree(out, before, ResultPairs[i].1))
        && Agree(out, before, "changed")
    {
      if Truthy(template) {
        CopyPresentFromDict(before, template, ResultPairs);
        assert Untouched(ResultPairs, "changed");
      }
    }
  }
}
