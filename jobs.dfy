/** The asynchronous-job protocol: a mutating call answers either its result or a handle
    carrying a `jobid`, and `_poll_job` queries the job until a reply reports it done. The
    replies the platform would give are a finite sequence; running out of them stands for a
    job that never completes. */
module Jobs {
  import opened Py
  import opened Lookup

  /** How a poll ends and how many job-status replies it consumed. */
  datatype Polled = Polled(outcome: Result<Value>, consumed: nat)

  /** The message `"Failed: '%s'" % text`. */
  function FailedWith(text: Value): string {
    "Failed: '" + Show(text) + "'"
  }

  /** What `_poll_job` does with the first reply reporting the job done: an `errortext` in
      the job result is fatal, a present `key` substitutes the keyed sub-object, and
      otherwise the original handle comes back. */
  function Complete(job: Value, key: string, res: Value): Result<Value> {
    var jobResult :- Index(res, "jobresult");
    var failed :- Has(jobResult, "errortext");
    if failed then
      var text :- Index(jobResult, "errortext");
      Err(Failed(FailedWith(text)))
    else if key != "" then
      var present :- Has(jobResult, key);
      if present then Index(jobResult, key) else Ok(job)
    else Ok(job)
  }

  /** `_poll_job(job, key)` against the replies the platform gives, in order; `key == ""`
      stands for no key. */
  function Poll(job: Value, key: string, replies: seq<Value>): (p: Polled)
    ensures p.consumed <= |replies|
  {
    match Has(job, "jobid")
    case Err(e) => Polled(Err(e), 0)
    case Ok(async) =>
      if !async then Polled(Ok(job), 0)
      else if Index(job, "jobid").Err? then Polled(Index(job, "jobid"), 0)
      else
        match FirstWhere(Finished, replies)
        case Nowhere => Polled(Err(Stalled), |replies|)
        case Broke(i, e) => Polled(Err(e), i + 1)
        case At(i) => Polled(Complete(job, key, replies[i]), i + 1)
  }

  /** The reply after a mutating call: an `errortext` in it is fatal, and with `poll_async`
      set the reply is then polled to completion; without it the operation answers `keep`
      (the reply itself, or for remove_vm and expunge_vm the VM record). */
  function Settle(res: Value, keep: Value, key: string, pollAsync: bool, replies: seq<Value>): (p: Polled)
    ensures p.consumed <= |replies|
  {
    match Has(res, "errortext")
    case Err(e) => Polled(Err(e), 0)
    case Ok(failed) =>
      if failed then
        (match Index(res, "errortext")
         case Ok(text) => Polled(Err(Failed(FailedWith(text))), 0)
         case Err(e) => Polled(Err(e), 0))
      else if pollAsync then Poll(res, key, replies)
      else Polled(Ok(keep), 0)
  }

  /** A job-status reply as the platform sends it: a dict with a status, whose job result,
      when present, is a dict. */
  predicate IsJobReply(r: Value) {
    && r.Dict?
    && "jobstatus" in r.entries
    && ("jobresult" in r.entries ==> r.entries["jobresult"].Dict?)
  }

  /** The reply reports the job done. */
  predicate IsFinal(r: Value) {
    Field(r, "jobstatus") != Int(0) && r.Dict? && "jobresult" in r.entries
  }

  /** The outcome of a finished job with result map `jr`, stated on the map. */
  function Outcome(job: Value, key: string, jr: map<string, Value>): Result<Value> {
    if "errortext" in jr then Err(Failed("Failed: '" + Show(jr["errortext"]) + "'"))
    else if key != "" && key in jr then Ok(jr[key])
    else Ok(job)
  }

  /** A handle without a `jobid` is handed back as it is, and no reply is consumed. */
  lemma PollPassesThroughSyncReply(job: Value, key: string, replies: seq<Value>)
    requires job.Dict? && "jobid" !in job.entries
    ensures Poll(job, key, replies) == Polled(Ok(job), 0)
  {
  }

  /** With a `jobid`, the poll waits past every reply that does not report the job done,
      stops at the first that does, and then fails on an error text, substitutes the
      keyed sub-object, or hands back the original handle; with no such reply among those
      modelled it stalls after consuming all of them. */
  lemma PollWaitsForFirstFinalReply(job: Value, key: string, replies: seq<Value>)
    requires job.Dict? && "jobid" in job.entries
    requires forall i :: 0 <= i < |replies| ==> IsJobReply(replies[i])
    ensures var p := Poll(job, key, replies);
      && p.consumed <= |replies|
      && (forall j :: 0 <= j < p.consumed - 1 ==> !IsFinal(replies[j]))
      && (p.outcome == Err(Stalled) <==> forall j :: 0 <= j < |replies| ==> !IsFinal(replies[j]))
      && (p.outcome == Err(Stalled) ==> p.consumed == |replies|)
      && (p.outcome != Err(Stalled) ==>
            && p.consumed >= 1
            && IsJobReply(replies[p.consumed - 1])
            && IsFinal(replies[p.consumed - 1])
            && p.outcome == Outcome(job, key, replies[p.consumed - 1].entries["jobresult"].entries))
  {
    forall i | 0 <= i < |replies| ensures Check(Finished, replies[i]) == Ok(IsFinal(replies[i])) {
      assert IsJobReply(replies[i]);
    }
    match FirstWhere(Finished, replies)
    case At(i) =>
      assert IsJobReply(replies[i]);
      var jr := replies[i].entries["jobresult"].entries;
      assert Complete(job, key, replies[i]) == Outcome(job, key, jr);
    case Nowhere =>
    case Broke(i, _) =>
  }

  /** The job-handle example: a pending reply, then a finished one whose result holds the
      new network, polled for the key "network", gives the network itself after two
      queries. */
  lemma PollSubstitutesKeyedResult()
    ensures var job := Dict(map["jobid" := Str("j1")]);
      var net := Dict(map["id" := Str("n1"), "name" := Str("net")]);
      var replies := [Dict(map["jobstatus" := Int(0)]),
                      Dict(map["jobstatus" := Int(1), "jobresult" := Dict(map["network" := net])])];
      Poll(job, "network", replies) == Polled(Ok(net), 2)
  {
    var job := Dict(map["jobid" := Str("j1")]);
    var net := Dict(map["id" := Str("n1"), "name" := Str("net")]);
    var replies := [Dict(map["jobstatus" := Int(0)]),
                    Dict(map["jobstatus" := Int(1), "jobresult" := Dict(map["network" := net])])];
    assert Check(Finished, replies[0]) == Ok(false);
    assert Check(Finished, replies[1]) == Ok(true);
    assert FirstWhere(Finished, replies[1..]) == At(0);
  }

  /** The error-surfacing example: a finished job whose result carries the error text
      "quota exceeded" fails the run with "Failed: 'quota exceeded'". */
  lemma PollSurfacesErrorText()
    ensures var job := Dict(map["jobid" := Str("j1")]);
      var replies := [Dict(map["jobstatus" := Int(1),
                               "jobresult" := Dict(map["errortext" := Str("quota exceeded")])])];
      Poll(job, "network", replies) == Polled(Err(Failed("Failed: 'quota exceeded'")), 1)
  {
    var replies := [Dict(map["jobstatus" := Int(1),
                             "jobresult" := Dict(map["errortext" := Str("quota exceeded")])])];
    assert Check(Finished, replies[0]) == Ok(true);
    assert FailedWith(Str("quota exceeded")) == "Failed: 'quota exceeded'";
  }

  /** An `errortext` in the reply to a mutating call is fatal before any polling; a reply
      without one is polled exactly when `poll_async` holds. */
  lemma SettleFailsOnErrorText(res: Value, keep: Value, key: string, pollAsync: bool, replies: seq<Value>)
    requires res.Dict?
    ensures "errortext" in res.entries ==>
              Settle(res, keep, key, pollAsync, replies) ==
              Polled(Err(Failed("Failed: '" + Show(res.entries["errortext"]) + "'")), 0)
    ensures "errortext" !in res.entries && pollAsync ==>
              Settle(res, keep, key, pollAsync, replies) == Poll(res, key, replies)
    ensures "errortext" !in res.entries && !pollAsync ==>
              Settle(res, keep, key, pollAsync, replies) == Polled(Ok(keep), 0)
  {
  }
}
