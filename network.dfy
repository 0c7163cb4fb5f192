/** The cs_network module: it reconciles one network with the declared state, creating
    it when it should be present and is not, deleting it when it should be absent and is. */
module Network {
  import opened Py
  import opened Lookup
  import opened Jobs
  import opened Summary
  import opened CloudStack

  const ListNetworks := Request("listNetworks", map[])
  const ListNetworkOfferings := Request("listNetworkOfferings", map[])

  /** get_network compares a network's name and id; get_network_id also its display text. */
  const NetworkKeys := ["name", "displaytext", "id"]

  /** What get_result copies from the network, and under which name. */
  const ResultPairs := [("id", "id"), ("name", "name"), ("displayname", "display_name")]

  class NetworkModule {
    const base: AnsibleCloudStack
    var result: map<string, Value>
    var networkId: Value

    /** What get_network answers: the first network whose name or id is the `name`
        parameter, or None. */
    function NetworkSpec(): Result<Value> {
      FirstRecord(AnyField(base.Param("name"), NameIdKeys), base.api.listing(ListNetworks))
    }

    /** What get_network_offering_id answers. */
    function OfferingSpec(): Result<Value> {
      OfferingLookup("Network offering", base.Param("network_offering"), base.api.listing(ListNetworkOfferings))
    }

    /** What get_network_id answers. */
    function NetworkIdSpec(): Result<Value> {
      OptionalLookup("network", base.Param("name"), base.api.listing(ListNetworks), NetworkKeys)
    }

    /** The arguments create_network passes to createNetwork. */
    function CreateArgsSpec(): Result<map<string, Value>> {
      var projectId :- base.ProjectSpec();
      var zoneId :- base.ZoneSpec();
      var offeringId :- OfferingSpec();
      Ok(map["displaytext" := base.Param("display_name"), "name" := base.Param("name"),
             "projectid" := projectId, "zoneid" := zoneId, "networkofferingid" := offeringId])
    }

    /** The reply handling after a create or delete, with `poll_async` from the parameters. */
    function SettleSpec(res: Value, replies: seq<Value>): Polled {
      Settle(res, res, "network", Truthy(base.Param("poll_async")), replies)
    }

    /** What create_network does against this run's platform. */
    function CreateSpec(replies: seq<Value>): (run: Reconciled)
      ensures run.consumed <= |replies|
    {
      match NetworkSpec()
      case Err(e) => Reconciled(Err(e), false, [], 0)
      case Ok(network) =>
        if Truthy(network) then Reconciled(Ok(Null), false, [], 0)
        else
          match CreateArgsSpec()
          case Err(e) => Reconciled(Err(e), true, [], 0)
          case Ok(args) =>
            if base.checkMode then Reconciled(Ok(network), true, [], 0)
            else
              var req := Request("createNetwork", args);
              var p := SettleSpec(base.api.reply(req), replies);
              Reconciled(p.outcome, true, [req], p.consumed)
    }

    /** What remove_network does against this run's platform. */
    function RemoveSpec(replies: seq<Value>): (run: Reconciled)
      ensures run.consumed <= |replies|
    {
      match NetworkSpec()
      case Err(e) => Reconciled(Err(e), false, [], 0)
      case Ok(network) =>
        if !Truthy(network) then Reconciled(Ok(Null), false, [], 0)
        else if base.checkMode then Reconciled(Ok(network), true, [], 0)
        else
          match Index(network, "id")
          case Err(e) => Reconciled(Err(e), true, [], 0)
          case Ok(id) =>
            var req := Request("deleteNetwork", map["id" := id]);
            var p := SettleSpec(base.api.reply(req), replies);
            Reconciled(p.outcome, true, [req], p.consumed)
    }

    /** What the dispatch in main runs: remove for state 'absent', create otherwise. */
    function ReconcileSpec(replies: seq<Value>): (run: Reconciled)
      ensures run.consumed <= |replies|
    {
      if base.Param("state") == Str("absent") then RemoveSpec(replies) else CreateSpec(replies)
    }

    /** What get_result makes of the result map and the network the run ended with. */
    function ResultSpec(before: map<string, Value>, network: Value): Result<map<string, Value>> {
      if Truthy(network) then CopyPresent(before, network, ResultPairs) else Ok(before)
    }

    /** The summary main hands to exit_json, or the failure that ends the run. */
    function MainSpec(before: map<string, Value>, replies: seq<Value>): Result<map<string, Value>> {
      var run := ReconcileSpec(replies);
      var network :- run.outcome;
      ResultSpec(Marked(before, run.changed), network)
    }

    ghost predicate Valid()
      reads this, base
    {
      && base.Valid()
      && (Truthy(networkId) ==> NetworkIdSpec() == Ok(networkId))
    }

    constructor (base: AnsibleCloudStack)
      requires base.Valid()
      ensures this.base == base
      ensures result == map["changed" := Bool(false)] && networkId == Null
      ensures Valid()
    {
      this.base := base;
      result := map["changed" := Bool(false)];
      networkId := Null;
    }

    /** get_network: one listing call and a first-match scan by name or id. */
    method GetNetwork() returns (r: Result<Value>)
      modifies base.api`lookups
      ensures r == NetworkSpec()
      ensures base.api.lookups == old(base.api.lookups) + [ListNetworks]
    {
      var networks := base.api.List(ListNetworks);
      var f := Scan(AnyField(base.Param("name"), NameIdKeys), networks);
      match f
      case At(i) => r := Ok(networks[i]);
      case Broke(_, e) => r := Err(e);
      case Nowhere => r := Ok(Null);
    }

    /** get_network_offering_id: one listing call; the first offering when none is given. */
    method GetNetworkOfferingId() returns (r: Result<Value>)
      modifies base.api`lookups
      ensures r == OfferingSpec()
      ensures base.api.lookups == old(base.api.lookups) + [ListNetworkOfferings]
    {
      var wanted := base.Param("network_offering");
      var offerings := base.api.List(ListNetworkOfferings);
      if offerings == [] {
        return Err(Failed(NotFound("Network offering", wanted)));
      }
      if !Truthy(wanted) {
        return Index(offerings[0], "id");
      }
      var f := Scan(AnyField(wanted, NameIdKeys), offerings);
      match f
      case At(i) => r := Index(offerings[i], "id");
      case Broke(_, e) => r := Err(e);
      case Nowhere => r := Err(Failed(NotFound("Network offering", wanted)));
    }

    /** get_network_id: answers the memo when set, None when no name is given, and
        otherwise scans the networks by name, display text or id and memoises the match. */
    method GetNetworkId() returns (r: Result<Value>)
      requires Valid()
      modifies this`networkId, base.api`lookups
      ensures Valid()
      ensures r == NetworkIdSpec()
      ensures old(Truthy(networkId)) ==> networkId == old(networkId) && base.api.lookups == old(base.api.lookups)
      ensures !old(Truthy(networkId)) && !Truthy(base.Param("name")) ==>
                networkId == old(networkId) && base.api.lookups == old(base.api.lookups)
      ensures !old(Truthy(networkId)) && Truthy(base.Param("name")) ==>
                && networkId == (if r.Ok? then r.value else old(networkId))
                && base.api.lookups == old(base.api.lookups) + [ListNetworks]
    {
      if Truthy(networkId) {
        return Ok(networkId);
      }
      var name := base.Param("name");
      if !Truthy(name) {
        return Ok(Null);
      }
      var networks := base.api.List(ListNetworks);
      var f := Scan(AnyField(name, NetworkKeys), networks);
      match f
      case At(i) =>
        r := Index(networks[i], "id");
        if r.Ok? {
          networkId := r.value;
        }
      case Broke(_, e) =>
        r := Err(e);
      case Nowhere =>
        r := Err(Failed(NotFound("network", name)));
    }

    /** create_network: nothing when the network exists; otherwise reports a change,
        resolves the arguments and, outside check mode, issues createNetwork. */
    method CreateNetwork() returns (r: Result<Value>)
      requires Valid()
      modifies this`result, base`projectId, base`zoneId
      modifies base.api`lookups, base.api`mutations, base.api`jobReplies
      ensures Valid()
      ensures var run := CreateSpec(old(base.api.jobReplies));
        && r == run.outcome
        && result == Marked(old(result), run.changed)
        && base.api.mutations == old(base.api.mutations) + run.calls
        && base.api.jobReplies == old(base.api.jobReplies)[run.consumed..]
    {
      var network :- GetNetwork();
      if Truthy(network) {
        return Ok(Null);
      }
      result := result["changed" := Bool(true)];
      var args :- GetCreateArgs();
      if base.checkMode {
        return Ok(network);
      }
      r := Issue(Request("createNetwork", args));
    }

    /** The arguments of createNetwork, resolving project, zone and offering in turn. */
    method GetCreateArgs() returns (r: Result<map<string, Value>>)
      requires Valid()
      modifies base`projectId, base`zoneId, base.api`lookups
      ensures Valid()
      ensures r == CreateArgsSpec()
    {
      var projectId :- base.GetProjectId();
      var zoneId :- base.GetZoneId();
      var offeringId :- GetNetworkOfferingId();
      r := Ok(map["displaytext" := base.Param("display_name"), "name" := base.Param("name"),
                  "projectid" := projectId, "zoneid" := zoneId, "networkofferingid" := offeringId]);
    }

    /** A mutating call and the handling of its reply. */
    method Issue(req: Request) returns (r: Result<Value>)
      modifies base.api`lookups, base.api`mutations, base.api`jobReplies
      ensures var p := SettleSpec(base.api.reply(req), old(base.api.jobReplies));
        && r == p.outcome
        && base.api.mutations == old(base.api.mutations) + [req]
        && base.api.jobReplies == old(base.api.jobReplies)[p.consumed..]
    {
      var res := base.api.Call(req);
      var p := base.SettleReply(res, res, "network");
      r := p.outcome;
    }

    /** remove_network: nothing when no network exists; otherwise reports a change and,
        outside check mode, issues deleteNetwork with the network's id. */
    method RemoveNetwork() returns (r: Result<Value>)
      requires Valid()
      modifies base.api`lookups, base.api`mutations, base.api`jobReplies, this`result
      ensures Valid()
      ensures var run := RemoveSpec(old(base.api.jobReplies));
        && r == run.outcome
        && result == Marked(old(result), run.changed)
        && base.api.mutations == old(base.api.mutations) + run.calls
        && base.api.jobReplies == old(base.api.jobReplies)[run.consumed..]
    {
      var network :- GetNetwork();
      if !Truthy(network) {
        return Ok(Null);
      }
      result := result["changed" := Bool(true)];
      if base.checkMode {
        return Ok(network);
      }
      var id :- Index(network, "id");
      r := Issue(Request("deleteNetwork", map["id" := id]));
    }

    /** get_result: copies the present keys of the network into the result. */
    method GetResult(network: Value) returns (r: Result<map<string, Value>>)
      modifies this`result
      ensures r == ResultSpec(old(result), network)
      ensures result == (if r.Ok? then r.value else old(result))
    {
      r := ResultSpec(result, network);
      if r.Ok? {
        result := r.value;
      }
    }

    /** The body of main: remove or create by the declared state, then the summary. */
    method Execute() returns (r: Result<map<string, Value>>)
      requires Valid()
      modifies this`result, base`projectId, base`zoneId
      modifies base.api`lookups, base.api`mutations, base.api`jobReplies
      ensures Valid()
      ensures r == MainSpec(old(result), old(base.api.jobReplies))
      ensures var run := ReconcileSpec(old(base.api.jobReplies));
        && base.api.mutations == old(base.api.mutations) + run.calls
        && base.api.jobReplies == old(base.api.jobReplies)[run.consumed..]
    {
      var network;
      if base.Param("state") == Str("absent") {
        network := RemoveNetwork();
      } else {
        network := CreateNetwork();
      }
      if network.Err? {
        return Err(network.error);
      }
      r := GetResult(network.value);
    }

    /** Create is a change exactly when no network matches by name or id; it issues at most
        one call, none in check mode, and otherwise createNetwork with the resolved
        arguments. */
    lemma CreateOnlyWhenAbsent(replies: seq<Value>)
      requires NetworkSpec().Ok?
      ensures var run := CreateSpec(replies);
        && (run.changed <==> !Truthy(NetworkSpec().value))
        && |run.calls| <= 1
        && (Truthy(NetworkSpec().value) ==> run == Reconciled(Ok(Null), false, [], 0))
        && (base.checkMode ==> run.calls == [])
        && (!Truthy(NetworkSpec().value) && !base.checkMode && CreateArgsSpec().Ok? ==>
              run.calls == [Request("createNetwork", CreateArgsSpec().value)])
    {
    }

    /** Remove is a change exactly when a network matches; it issues at most one call,
        none in check mode, and otherwise deleteNetwork with the matched network's id. */
    lemma RemoveOnlyWhenPresent(replies: seq<Value>)
      requires NetworkSpec().Ok?
      ensures var run := RemoveSpec(replies);
        && (run.changed <==> Truthy(NetworkSpec().value))
        && |run.calls| <= 1
        && (!Truthy(NetworkSpec().value) ==> run == Reconciled(Ok(Null), false, [], 0))
        && (base.checkMode ==> run.calls == [] && run.outcome == Ok(NetworkSpec().value))
        && (Truthy(NetworkSpec().value) && !base.checkMode && NetworkSpec().value.Dict? &&
            "id" in NetworkSpec().value.entries ==>
              run.calls == [Request("deleteNetwork", map["id" := NetworkSpec().value.entries["id"]])])
    {
    }

    /** A check-mode run never issues a mutating call, whatever the declared state, and
        reports a change exactly when the network's existence disagrees with it. */
    lemma CheckModeNeverMutates(replies: seq<Value>)
      requires base.checkMode
      ensures ReconcileSpec(replies).calls == []
      ensures ReconcileSpec(replies).consumed == 0
      ensures NetworkSpec().Ok? && (base.Param("state") != Str("absent") ==> CreateArgsSpec().Ok?) ==>
                (ReconcileSpec(replies).changed <==>
                 (Truthy(NetworkSpec().value) <==> base.Param("state") == Str("absent")))
    {
    }

    /** An `errortext` in the createNetwork reply is fatal, with "Failed: '<text>'". */
    lemma CreateErrorTextIsFatal(replies: seq<Value>)
      requires NetworkSpec() == Ok(Null) && !base.checkMode && CreateArgsSpec().Ok?
      requires var res := base.api.reply(Request("createNetwork", CreateArgsSpec().value));
        res.Dict? && "errortext" in res.entries
      ensures var res := base.api.reply(Request("createNetwork", CreateArgsSpec().value));
        CreateSpec(replies).outcome == Err(Failed("Failed: '" + Show(res.entries["errortext"]) + "'"))
    {
      var res := base.api.reply(Request("createNetwork", CreateArgsSpec().value));
      SettleFailsOnErrorText(res, res, "network", Truthy(base.Param("poll_async")), replies);
    }

    /** An `errortext` in the deleteNetwork reply is fatal, with "Failed: '<text>'". */
    lemma RemoveErrorTextIsFatal(replies: seq<Value>)
      requires NetworkSpec().Ok? && Truthy(NetworkSpec().value) && !base.checkMode
      requires Index(NetworkSpec().value, "id").Ok?
      requires var res := base.api.reply(Request("deleteNetwork", map["id" := Index(NetworkSpec().value, "id").value]));
        res.Dict? && "errortext" in res.entries
      ensures var res := base.api.reply(Request("deleteNetwork", map["id" := Index(NetworkSpec().value, "id").value]));
        RemoveSpec(replies).outcome == Err(Failed("Failed: '" + Show(res.entries["errortext"]) + "'"))
    {
      var res := base.api.reply(Request("deleteNetwork", map["id" := Index(NetworkSpec().value, "id").value]));
      SettleFailsOnErrorText(res, res, "network", Truthy(base.Param("poll_async")), replies);
    }

    /** Over networks that carry a name, a display text and an id, the two lookups differ
        only in the keys they compare. get_network answers the first network whose name or
        id is the `name` parameter, and None exactly when there is none. get_network_id
        answers None for an unset name. Otherwise it answers the id of the first network
        whose name, display text or id is that name, and fails with "network '<name>' not
        found" exactly when there is none. */
    lemma NetworkLookupsOnRecords()
      requires var xs := base.api.listing(ListNetworks);
        forall i :: 0 <= i < |xs| ==> IsRecord(xs[i], NetworkKeys)
      ensures var ref := base.Param("name"); var xs := base.api.listing(ListNetworks);
        && NetworkSpec().Ok?
        && (NetworkSpec().value == Null <==> forall i :: 0 <= i < |xs| ==> !Holds(ref, xs[i], NameIdKeys))
        && (NetworkSpec().value != Null ==>
              exists i :: FirstHolding(ref, xs, NameIdKeys, i) && NetworkSpec().value == xs[i])
      ensures !Truthy(base.Param("name")) ==> NetworkIdSpec() == Ok(Null)
      ensures var ref := base.Param("name"); var xs := base.api.listing(ListNetworks);
        Truthy(ref) ==>
          && (NetworkIdSpec().Ok? <==> exists i :: 0 <= i < |xs| && Holds(ref, xs[i], NetworkKeys))
          && (NetworkIdSpec().Ok? ==>
                exists i :: FirstHolding(ref, xs, NetworkKeys, i) && NetworkIdSpec().value == Field(xs[i], "id"))
          && (!NetworkIdSpec().Ok? ==> NetworkIdSpec() == Err(Failed(NotFound("network", ref))))
    {
      var ref := base.Param("name");
      var xs := base.api.listing(ListNetworks);
      forall i | 0 <= i < |xs| ensures Check(AnyField(ref, NameIdKeys), xs[i]) == Ok(Holds(ref, xs[i], NameIdKeys)) {
        assert IsRecord(xs[i], NameIdKeys);
        AnyFieldOnRecord(ref, xs[i], NameIdKeys);
      }
      match FirstWhere(AnyField(ref, NameIdKeys), xs) {
        case At(i) =>
          assert FirstHolding(ref, xs, NameIdKeys, i);
        case Nowhere =>
        case Broke(i, _) =>
      }
      if Truthy(ref) {
        FirstMatchOnRecords("network", ref, xs, NetworkKeys);
      }
    }

    /** get_result keeps what the result held, copies id, name and displayname (as
        display_name) exactly when the network has them, and leaves the result as it was
        when there is no network. */
    lemma ResultCopiesPresentKeys(before: map<string, Value>, network: Value)
      requires network.Dict? || !Truthy(network)
      ensures ResultSpec(before, network).Ok?
      ensures !Truthy(network) ==> ResultSpec(before, network) == Ok(before)
      ensures Truthy(network) ==> var out := ResultSpec(before, network).value;
        && (forall i :: 0 <= i < |ResultPairs| && ResultPairs[i].0 in network.entries ==>
              ResultPairs[i].1 in out && out[ResultPairs[i].1] == network.entries[ResultPairs[i].0])
        && (forall i :: 0 <= i < |ResultPairs| && ResultPairs[i].0 !in network.entries ==>
              Agree(out, before, ResultPairs[i].1))
        && Agree(out, before, "changed")
    {
      if Truthy(network) {
        CopyPresentFromDict(before, network, ResultPairs);
        assert Untouched(ResultPairs, "changed");
      }
    }
  }

  /** get_network ignores the display text that get_network_id compares: a network known
      only by its display text is found by get_network_id and not by get_network. */
  lemma DisplayTextOnlyFoundById()
    ensures var net := Dict(map["name" := Str("web"), "displaytext" := Str("frontend"), "id" := Str("n7")]);
      && FirstRecord(AnyField(Str("frontend"), NameIdKeys), [net]) == Ok(Null)
      && OptionalLookup("network", Str("frontend"), [net], NetworkKeys) == Ok(Str("n7"))
  {
    var net := Dict(map["name" := Str("web"), "displaytext" := Str("frontend"), "id" := Str("n7")]);
    FieldsOfRecord(net, NameIdKeys);
    FieldsOfRecord(net, NetworkKeys);
    assert Fields(net, NameIdKeys).value == [Str("web"), Str("n7")];
    assert Fields(net, NetworkKeys).value == [Str("web"), Str("frontend"), Str("n7")];
  }
}
