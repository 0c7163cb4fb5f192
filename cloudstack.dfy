/** The management API as the modules see it through the `cs` client, and the shared base
    class `AnsibleCloudStack`: the parameters of the run, the memoised resolvers and the
    job poller. */
module CloudStack {
  import opened Py
  import opened Lookup
  import opened Jobs

  /** One call of the management API: the command and its keyword arguments. */
  datatype Request = Request(command: string, args: map<string, Value>)

  const ListProjects := Request("listProjects", map[])
  const ListZones := Request("listZones", map[])
  const ListOsTypes := Request("listOsTypes", map[])
  const ListHypervisors := Request("listHypervisors", map[])

  function ListPublicIpAddresses(ip: Value, projectId: Value): Request {
    Request("listPublicIpAddresses", map["ipaddress" := ip, "projectid" := projectId])
  }

  function ListVirtualMachines(projectId: Value): Request {
    Request("listVirtualMachines", map["projectid" := projectId])
  }

  function QueryAsyncJobResult(jobid: Value): Request {
    Request("queryAsyncJobResult", map["jobid" := jobid])
  }

  /** What a reconciling operation does on a run: what it answers, whether it reports a
      change, the mutating calls it issues in order, and how many job-status replies it
      consumes. */
  datatype Reconciled = Reconciled(outcome: Result<Value>, changed: bool, calls: seq<Request>, consumed: nat)

  /** `result['changed'] = True` when the operation reports a change. */
  function Marked(before: map<string, Value>, changed: bool): map<string, Value> {
    if changed then before["changed" := Bool(true)] else before
  }

  /** Marking an already changed result again leaves it as it is. */
  lemma MarkedAgain(before: map<string, Value>, changed: bool)
    requires "changed" in before && before["changed"] == Bool(true)
    ensures Marked(before, changed) == before
  { }

  /** Two operations run in turn log the calls of the first, then those of the second. */
  lemma CallsInTurn(log: seq<Request>, first: seq<Request>, second: seq<Request>)
    ensures log + first + second == log + (first + second)
  {
  }

  /** Two operations run in turn consume the replies the first consumes, then those the
      second consumes from what is left. */
  lemma RepliesInTurn(replies: seq<Value>, first: nat, second: nat)
    requires first <= |replies| && second <= |replies| - first
    ensures replies[first..][second..] == replies[first + second..]
  {
  }

  /** `n` copies of one request. */
  function Repeat(req: Request, n: nat): (reqs: seq<Request>)
    ensures |reqs| == n && forall i :: 0 <= i < n ==> reqs[i] == req
  {
    seq(n, _ => req)
  }

  /** The remote platform during one run. What a listing call answers and what a mutating
      call replies are fixed for the run; job-status queries consume a sequence of replies.
      Every read-only call is logged in `lookups`, every mutating call in `mutations`. */
  class Api {
    /** The entries under the plural key of each listing reply; no entries stands for
        the empty reply `{}`. */
    const listing: Request -> seq<Value>
    /** The reply to each mutating call. */
    const reply: Request -> Value
    /** The replies queryAsyncJobResult still has to give, in order. */
    var jobReplies: seq<Value>
    var lookups: seq<Request>
    var mutations: seq<Request>

    constructor (listing: Request -> seq<Value>, reply: Request -> Value, jobReplies: seq<Value>)
      ensures this.listing == listing && this.reply == reply && this.jobReplies == jobReplies
      ensures lookups == [] && mutations == []
    {
      this.listing := listing;
      this.reply := reply;
      this.jobReplies := jobReplies;
      lookups := [];
      mutations := [];
    }

    /** A listing call. */
    method List(req: Request) returns (entries: seq<Value>)
      modifies this`lookups
      ensures entries == listing(req)
      ensures lookups == old(lookups) + [req]
    {
      lookups := lookups + [req];
      entries := listing(req);
    }

    /** A mutating call. */
    method Call(req: Request) returns (res: Value)
      modifies this`mutations
      ensures res == reply(req)
      ensures mutations == old(mutations) + [req]
    {
      mutations := mutations + [req];
      res := reply(req);
    }

    /** A job-status query: the next reply, or None once the modelled replies are used up. */
    method Query(jobid: Value) returns (res: Option<Value>)
      modifies this`jobReplies, this`lookups
      ensures old(jobReplies) == [] ==> res == None && jobReplies == [] && lookups == old(lookups)
      ensures old(jobReplies) != [] ==>
                && res == Some(old(jobReplies)[0])
                && jobReplies == old(jobReplies)[1..]
                && lookups == old(lookups) + [QueryAsyncJobResult(jobid)]
    {
      if jobReplies == [] {
        return None;
      }
      res := Some(jobReplies[0]);
      jobReplies := jobReplies[1..];
      lookups := lookups + [QueryAsyncJobResult(jobid)];
    }
  }

  /** The base class the three modules share: the run's parameters, whether the run is a
      check-mode run, and the memo fields of the resolvers. */
  class AnsibleCloudStack {
    const api: Api
    const params: map<string, Value>
    const checkMode: bool
    var projectId: Value
    var zoneId: Value
    var osTypeId: Value
    var hypervisor: Value
    var ipAddressId: Value

    /** `self.module.params.get(k)` */
    function Param(k: string): Value {
      Get(params, k)
    }

    /** What get_project_id answers on this run's listing. */
    function ProjectSpec(): Result<Value> {
      OptionalLookup("project", Param("project"), api.listing(ListProjects), ProjectKeys)
    }

    /** What get_zone_id answers on this run's listing. */
    function ZoneSpec(): Result<Value> {
      ZoneLookup(Param("zone"), api.listing(ListZones))
    }

    /** What get_os_type_id answers on this run's listing. */
    function OsTypeSpec(): Result<Value> {
      OptionalLookup("OS type", Param("os_type"), api.listing(ListOsTypes), OsTypeKeys)
    }

    /** What get_hypervisor answers on this run's listing. */
    function HypervisorSpec(): Result<Value> {
      HypervisorLookup(Param("hypervisor"), api.listing(ListHypervisors))
    }

    /** What get_ip_address_id answers: the first public address listed for the address
        and project, failing when no address is given or none is listed. */
    function IpAddressSpec(): Result<Value> {
      var ip := Param("ip_address");
      if !Truthy(ip) then Err(Failed("IP address param 'ip_address' is required"))
      else
        var projectId :- ProjectSpec();
        var xs := api.listing(ListPublicIpAddresses(ip, projectId));
        if xs == [] then Err(Failed(NotFound("IP address", ip))) else Index(xs[0], "id")
    }

    /** Over listed addresses that carry an id, get_ip_address_id fails without an address,
        fails with "IP address '<ip>' not found" exactly when no public address is listed,
        and otherwise answers the id of the first one listed. */
    lemma IpAddressOnRecords(projectId: Value)
      requires ProjectSpec() == Ok(projectId)
      requires var xs := api.listing(ListPublicIpAddresses(Param("ip_address"), projectId));
        forall i :: 0 <= i < |xs| ==> IsRecord(xs[i], ["id"])
      ensures !Truthy(Param("ip_address")) ==> IpAddressSpec() == Err(Failed("IP address param 'ip_address' is required"))
      ensures var ip := Param("ip_address"); var xs := api.listing(ListPublicIpAddresses(ip, projectId));
        Truthy(ip) ==>
          && (IpAddressSpec().Ok? <==> xs != [])
          && (xs == [] ==> IpAddressSpec() == Err(Failed(NotFound("IP address", ip))))
          && (xs != [] ==> IpAddressSpec() == Ok(Field(xs[0], "id")))
    {
      var xs := api.listing(ListPublicIpAddresses(Param("ip_address"), projectId));
      if xs != [] {
        assert IsRecord(xs[0], ["id"]);
      }
    }

    /** Every memo that is set holds what its resolver answers on this run's listing. */
    ghost predicate Valid()
      reads this
    {
      && (Truthy(projectId) ==> ProjectSpec() == Ok(projectId))
      && (Truthy(zoneId) ==> ZoneSpec() == Ok(zoneId))
      && (Truthy(osTypeId) ==> OsTypeSpec() == Ok(osTypeId))
      && (Truthy(hypervisor) ==> HypervisorSpec() == Ok(hypervisor))
      && (Truthy(ipAddressId) ==> IpAddressSpec() == Ok(ipAddressId))
    }

    constructor (api: Api, params: map<string, Value>, checkMode: bool)
      ensures this.api == api && this.params == params && this.checkMode == checkMode
      ensures projectId == Null && zoneId == Null && osTypeId == Null
      ensures hypervisor == Null && ipAddressId == Null
      ensures Valid()
    {
      this.api := api;
      this.params := params;
      this.checkMode := checkMode;
      projectId := Null;
      zoneId := Null;
      osTypeId := Null;
      hypervisor := Null;
      ipAddressId := Null;
    }

    /** get_project_id: answers the memo when set, None without a listing when no project
        is given, and otherwise scans the project listing and memoises the match. */
    method GetProjectId() returns (r: Result<Value>)
      requires Valid()
      modifies this`projectId, api`lookups
      ensures Valid()
      ensures r == ProjectSpec()
      ensures old(Truthy(projectId)) ==> projectId == old(projectId) && api.lookups == old(api.lookups)
      ensures !old(Truthy(projectId)) && !Truthy(Param("project")) ==>
                projectId == old(projectId) && api.lookups == old(api.lookups)
      ensures !old(Truthy(projectId)) && Truthy(Param("project")) ==>
                && projectId == (if r.Ok? then r.value else old(projectId))
                && api.lookups == old(api.lookups) + [ListProjects]
    {
      if Truthy(projectId) {
        return Ok(projectId);
      }
      var project := Param("project");
      if !Truthy(project) {
        return Ok(Null);
      }
      var projects := api.List(ListProjects);
      var f := Scan(AnyField(project, ProjectKeys), projects);
      match f
      case At(i) =>
        r := Index(projects[i], "id");
        if r.Ok? {
          projectId := r.value;
        }
      case Broke(_, e) =>
        r := Err(e);
      case Nowhere =>
        r := Err(Failed(NotFound("project", project)));
    }

    /** get_zone_id: answers the memo when set; otherwise lists the zones, takes the first
        one when no zone is given or scans for the zone given, and memoises the answer. */
    method GetZoneId() returns (r: Result<Value>)
      requires Valid()
      modifies this`zoneId, api`lookups
      ensures Valid()
      ensures r == ZoneSpec()
      ensures old(Truthy(zoneId)) ==> zoneId == old(zoneId) && api.lookups == old(api.lookups)
      ensures !old(Truthy(zoneId)) ==>
                && zoneId == (if r.Ok? then r.value else old(zoneId))
                && api.lookups == old(api.lookups) + [ListZones]
    {
      if Truthy(zoneId) {
        return Ok(zoneId);
      }
      var zone := Param("zone");
      var zones := api.List(ListZones);
      if !Truthy(zone) {
        if zones == [] {
          return Err(KeyError);
        }
        r := Index(zones[0], "id");
      } else {
        var f := Scan(AnyField(zone, NameIdKeys), zones);
        match f
        case At(i) =>
          r := Index(zones[i], "id");
        case Broke(_, e) =>
          return Err(e);
        case Nowhere =>
          return Err(Failed(NotFound("zone", zone)));
      }
      if r.Ok? {
        zoneId := r.value;
      }
    }

    /** get_os_type_id: as get_project_id, over the OS types by description or id. */
    method GetOsTypeId() returns (r: Result<Value>)
      requires Valid()
      modifies this`osTypeId, api`lookups
      ensures Valid()
      ensures r == OsTypeSpec()
      ensures old(Truthy(osTypeId)) ==> osTypeId == old(osTypeId) && api.lookups == old(api.lookups)
      ensures !old(Truthy(osTypeId)) && !Truthy(Param("os_type")) ==>
                osTypeId == old(osTypeId) && api.lookups == old(api.lookups)
      ensures !old(Truthy(osTypeId)) && Truthy(Param("os_type")) ==>
                && osTypeId == (if r.Ok? then r.value else old(osTypeId))
                && api.lookups == old(api.lookups) + [ListOsTypes]
    {
      if Truthy(osTypeId) {
        return Ok(osTypeId);
      }
      var osType := Param("os_type");
      if !Truthy(osType) {
        return Ok(Null);
      }
      var osTypes := api.List(ListOsTypes);
      var f := Scan(AnyField(osType, OsTypeKeys), osTypes);
      match f
      case At(i) =>
        r := Index(osTypes[i], "id");
        if r.Ok? {
          osTypeId := r.value;
        }
      case Broke(_, e) =>
        r := Err(e);
      case Nowhere =>
        r := Err(Failed(NotFound("OS type", osType)));
    }

    /** get_hypervisor: answers the memo when set; otherwise lists the hypervisors, takes
        the first when none is given or the first whose name matches ignoring case, and
        memoises the listed name. */
    method GetHypervisor() returns (r: Result<Value>)
      requires Valid()
      modifies this`hypervisor, api`lookups
      ensures Valid()
      ensures r == HypervisorSpec()
      ensures old(Truthy(hypervisor)) ==> hypervisor == old(hypervisor) && api.lookups == old(api.lookups)
      ensures !old(Truthy(hypervisor)) ==>
                && hypervisor == (if r.Ok? then r.value else old(hypervisor))
                && api.lookups == old(api.lookups) + [ListHypervisors]
    {
      if Truthy(hypervisor) {
        return Ok(hypervisor);
      }
      var wanted := Param("hypervisor");
      var hypervisors := api.List(ListHypervisors);
      if hypervisors == [] {
        return Err(KeyError);
      }
      if !Truthy(wanted) {
        r := Index(hypervisors[0], "name");
      } else {
        var f := Scan(SameLower(wanted), hypervisors);
        match f
        case At(i) =>
          r := Index(hypervisors[i], "name");
        case Broke(_, e) =>
          return Err(e);
        case Nowhere =>
          return Err(Failed(NotFound("Hypervisor", wanted)));
      }
      if r.Ok? {
        hypervisor := r.value;
      }
    }

    /** get_ip_address_id: answers the memo when set; otherwise requires an address, lists
        the public addresses for it and the project, and memoises the first one's id. */
    method GetIpAddressId() returns (r: Result<Value>)
      requires Valid()
      modifies this`ipAddressId, this`projectId, api`lookups
      ensures Valid()
      ensures r == IpAddressSpec()
      ensures old(Truthy(ipAddressId)) ==> ipAddressId == old(ipAddressId) && api.lookups == old(api.lookups)
      ensures !old(Truthy(ipAddressId)) ==> ipAddressId == (if r.Ok? then r.value else old(ipAddressId))
    {
      if Truthy(ipAddressId) {
        return Ok(ipAddressId);
      }
      var ip := Param("ip_address");
      if !Truthy(ip) {
        return Err(Failed("IP address param 'ip_address' is required"));
      }
      var projectId :- GetProjectId();
      var addresses := api.List(ListPublicIpAddresses(ip, projectId));
      if addresses == [] {
        return Err(Failed(NotFound("IP address", ip)));
      }
      r := Index(addresses[0], "id");
      if r.Ok? {
        ipAddressId := r.value;
      }
    }

    /** _poll_job: hands back a handle without a job id; otherwise queries the job until a
        reply reports it done, one query per reply consumed. */
    method PollJob(job: Value, key: string) returns (p: Polled)
      modifies api`jobReplies, api`lookups
      ensures p == Poll(job, key, old(api.jobReplies))
      ensures api.jobReplies == old(api.jobReplies)[p.consumed..]
      ensures api.lookups == old(api.lookups) + Repeat(QueryAsyncJobResult(Field(job, "jobid")), p.consumed)
    {
      var async := Has(job, "jobid");
      if async.Err? {
        return Polled(Err(async.error), 0);
      }
      if !async.value {
        return Polled(Ok(job), 0);
      }
      var jobid := Index(job, "jobid");
      if jobid.Err? {
        return Polled(jobid, 0);
      }
      ghost var replies := api.jobReplies;
      var query := QueryAsyncJobResult(jobid.value);
      var n := 0;
      while true
        invariant 0 <= n <= |replies|
        invariant api.jobReplies == replies[n..]
        invariant api.lookups == old(api.lookups) + Repeat(query, n)
        invariant forall j :: 0 <= j < n ==> Check(Finished, replies[j]) == Ok(false)
        decreases |api.jobReplies|
      {
        var res := api.Query(jobid.value);
        if res.None? {
          return Polled(Err(Stalled), n);
        }
        assert res.value == replies[n];
        assert Repeat(query, n) + [query] == Repeat(query, n + 1);
        var finished := Check(Finished, res.value);
        if finished.Err? {
          return Polled(Err(finished.error), n + 1);
        }
        if finished.value {
          return Polled(Complete(job, key, res.value), n + 1);
        }
        n := n + 1;
      }
    }

    /** The handling a mutating call's reply gets: an `errortext` is fatal, and with
        `poll_async` set the reply is polled, substituting `key`; without it the answer is
        `keep`. */
    method SettleReply(res: Value, keep: Value, key: string) returns (p: Polled)
      modifies api`jobReplies, api`lookups
      ensures p == Settle(res, keep, key, Truthy(Param("poll_async")), old(api.jobReplies))
      ensures api.jobReplies == old(api.jobReplies)[p.consumed..]
      ensures api.lookups == old(api.lookups) + Repeat(QueryAsyncJobResult(Field(res, "jobid")), p.consumed)
    {
      var failed := Has(res, "errortext");
      if failed.Err? {
        return Polled(Err(failed.error), 0);
      }
      if failed.value {
        var text := Index(res, "errortext");
        if text.Err? {
          return Polled(Err(text.error), 0);
        }
        return Polled(Err(Failed(FailedWith(text.value))), 0);
      }
      if Truthy(Param("poll_async")) {
        p := PollJob(res, key);
      } else {
        p := Polled(Ok(keep), 0);
      }
    }
  }
}
