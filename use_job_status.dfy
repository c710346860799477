/**
 * The `useJobStatus` hook of src/jobs/use-job-status.ts: the status, loading,
 * error and polling state of one job, the `fetchStatus` callback, the
 * polling effect and its cleanup, and `startPolling` / `stopPolling` /
 * `refresh`.
 *
 * React's scheduling is made explicit: every state transition is a pure
 * function on `HookState`, and the class `JobStatusHook` applies them in
 * place. A fetch is split where the source awaits: `BeginFetch` runs up to
 * the `await`, and `Settle` applies what `apiClient.getJobStatus` yielded
 * (the client's `Classify` of the status request's reply). Each run of the
 * polling effect starts one poll loop; a loop is `Fetching` while its
 * `await fetchStatus()` is pending, `Waiting` once it has armed its timer,
 * and `Cleared` once an effect cleanup cancelled that timer.
 */
module UseJobStatus {
  import opened Wrappers
  import opened Js

  const DefaultPollInterval := 2000
  const JobFailedMessage := "Job failed"
  const FetchFailedMessage := "Failed to fetch job status"

  /** The hook's arguments: the job id and the options (the callbacks matter only by whether they are given). */
  datatype HookConfig = HookConfig(
    jobId: Option<string>,
    pollInterval: Option<int>,
    autoStart: Option<bool>,
    hasOnComplete: bool,
    hasOnError: bool)
  {
    /** `!!jobId`: a job id is given and is not empty. */
    predicate Tracking() {
      jobId.Some? && jobId.value != ""
    }
    /** The poll interval: the given one, else 2000 ms. */
    function Interval(): (r: int)
      ensures pollInterval.Some? ==> r == pollInterval.value
      ensures pollInterval.None? ==> r == 2000
    {
      pollInterval.GetOr(DefaultPollInterval)
    }

    /** Whether polling starts on mount: the given flag, else `true`. */
    function AutoStart(): (r: bool)
      ensures autoStart.Some? ==> r == autoStart.value
      ensures autoStart.None? ==> r
    {
      autoStart.GetOr(true)
    }
  }

  /** A call of one of the caller's callbacks, with its argument. */
  datatype Notification = OnComplete(response: Json) | OnError(message: string)

  datatype LoopPhase = Fetching | Waiting | Cleared

  /**
   * The hook's state (`status`, `loading`, `error`, `polling`), the
   * callbacks called so far, every poll loop started, the loop the mounted
   * effect owns, and the `polling` value that effect ran for. `error` holds
   * the message of the `Error` object.
   */
  datatype HookState = HookState(
    status: Json,
    loading: bool,
    error: Option<string>,
    polling: bool,
    notified: seq<Notification>,
    loops: seq<LoopPhase>,
    current: Option<nat>,
    effectPolling: bool)

  /** What the hook keeps true: it polls only a tracked job, and the owned loop exists and is not cleared. */
  ghost predicate Invariant(cfg: HookConfig, s: HookState) {
    && (s.polling ==> cfg.Tracking())
    && (|s.loops| > 0 ==> cfg.Tracking())
    && (s.current.Some? ==> s.current.value < |s.loops| && s.loops[s.current.value] != Cleared)
    && (s.current.Some? ==> s.effectPolling)
  }

  /** The first effect run: with `polling` set it starts a loop, whose first `fetchStatus` sets `loading`. */
  function RunEffect(cfg: HookConfig, s: HookState): (r: HookState)
    ensures r.status == s.status && r.error == s.error && r.polling == s.polling && r.notified == s.notified
    ensures r.effectPolling == s.polling
    ensures s.polling && cfg.Tracking() ==>
              r.loops == s.loops + [Fetching] && r.current == Some(|s.loops|) && r.loading
    ensures !(s.polling && cfg.Tracking()) ==> r.loops == s.loops && r.current == None && r.loading == s.loading
  {
    if s.polling && cfg.Tracking() then
      s.(loops := s.loops + [Fetching], current := Some(|s.loops|), loading := true, effectPolling := true)
    else
      s.(current := None, effectPolling := s.polling)
  }

  /** The state after the first render and its effect. */
  function Mount(cfg: HookConfig): (r: HookState)
    ensures r.status == JNull && r.error == None && r.notified == []
    ensures r.polling <==> cfg.AutoStart() && cfg.Tracking()
    ensures r.polling ==> r.loops == [Fetching] && r.current == Some(0) && r.loading
    ensures !r.polling ==> r.loops == [] && r.current == None && !r.loading
    ensures Invariant(cfg, r)
  {
    RunEffect(cfg, HookState(JNull, false, None, cfg.AutoStart() && cfg.Tracking(), [], [], None, false))
  }

  /** The cleanup of the mounted effect: `clearTimeout` on the timer its loop last armed. */
  function Cleanup(s: HookState): (r: HookState)
    requires s.current.Some? ==> s.current.value < |s.loops|
    ensures r.current == None
    ensures |r.loops| == |s.loops|
    ensures forall i :: 0 <= i < |s.loops| ==>
              r.loops[i] == (if s.current == Some(i) && s.loops[i] == Waiting then Cleared else s.loops[i])
    ensures r.status == s.status && r.loading == s.loading && r.error == s.error
    ensures r.polling == s.polling && r.notified == s.notified && r.effectPolling == s.effectPolling
  {
    match s.current
    case None => s
    case Some(i) =>
      if s.loops[i] == Waiting then s.(loops := s.loops[i := Cleared], current := None)
      else s.(current := None)
  }

  /**
   * The commit after a render: when `polling` differs from the value the
   * mounted effect ran for, the old effect is cleaned up and a new one runs.
   */
  function Committed(cfg: HookConfig, s: HookState): (r: HookState)
    requires Invariant(cfg, s)
    ensures s.polling == s.effectPolling ==> r == s
    ensures r.effectPolling == r.polling == s.polling
    ensures r.status == s.status && r.error == s.error && r.notified == s.notified
    ensures s.polling != s.effectPolling ==> r == RunEffect(cfg, Cleanup(s))
    ensures s.polling && !s.effectPolling ==>
              r.loops == s.loops + [Fetching] && r.current == Some(|s.loops|) && r.loading
    ensures !s.polling && s.effectPolling ==>
              && r.current == None && r.loading == s.loading && |r.loops| == |s.loops|
              && (s.current.Some? && s.loops[s.current.value] == Waiting ==> r.loops[s.current.value] == Cleared)
  {
    if s.polling == s.effectPolling then s else RunEffect(cfg, Cleanup(s))
  }

  /** `fetchStatus` up to its `await`: `loading` is set, unless no job is tracked. */
  function BeginFetch(cfg: HookConfig, s: HookState): (r: HookState)
    ensures !cfg.Tracking() ==> r == s
    ensures cfg.Tracking() ==> r == s.(loading := true)
  {
    if cfg.Tracking() then s.(loading := true) else s
  }

  /** A callback call, recorded only when the caller gave that callback. */
  function Notify(given: bool, n: Notification): seq<Notification> {
    if given then [n] else []
  }

  /** `response.error || 'Job failed'`, converted by the `Error` constructor. */
  function FailureMessage(response: Json): (r: string)
    ensures Present(Property(response, "error")) ==> r == ToString(Property(response, "error").value)
    ensures !Present(Property(response, "error")) ==> r == JobFailedMessage
  {
    var e := Property(response, "error");
    if Present(e) then ToString(e.value) else JobFailedMessage
  }

  /** The message of what the `catch` stores: a thrown `Error` itself, anything else replaced. */
  function CaughtMessage(t: Thrown): (r: string)
    ensures t.Error? ==> r == t.message
    ensures t.NonError? ==> r == FetchFailedMessage
  {
    match t
    case Error(m) => m
    case NonError => FetchFailedMessage
  }

  /** The `catch` block: the error is stored, polling stops, `onError` is called. */
  function Caught(cfg: HookConfig, s: HookState, t: Thrown): (r: HookState)
    ensures r.error == Some(CaughtMessage(t)) && !r.polling
    ensures r.notified == s.notified + (if cfg.hasOnError then [OnError(CaughtMessage(t))] else [])
    ensures r.status == s.status && r.loading == s.loading
    ensures r.loops == s.loops && r.current == s.current && r.effectPolling == s.effectPolling
  {
    var m := CaughtMessage(t);
    s.(error := Some(m), polling := false, notified := s.notified + Notify(cfg.hasOnError, OnError(m)))
  }

  /**
   * `fetchStatus` after its `await`, `finally` included: the response is
   * stored, then a completed job stops polling and calls `onComplete`, a
   * failed one stops polling, stores its error and calls `onError`; reading
   * `status` of a `null` response throws into the `catch`.
   */
  function Settle(cfg: HookConfig, s: HookState, outcome: Result<Json, Thrown>): (r: HookState)
    ensures !r.loading
    ensures r.loops == s.loops && r.current == s.current && r.effectPolling == s.effectPolling
  {
    var next :=
      match outcome
      case Failure(t) => Caught(cfg, s, t)
      case Success(v) =>
        var stored := s.(status := v);
        if v.JNull? then Caught(cfg, stored, Error(NullReadMessage("status")))
        else if Property(v, "status") == Some(JStr("completed")) then
          stored.(polling := false, notified := s.notified + Notify(cfg.hasOnComplete, OnComplete(v)))
        else if Property(v, "status") == Some(JStr("failed")) then
          var m := FailureMessage(v);
          stored.(polling := false, error := Some(m), notified := s.notified + Notify(cfg.hasOnError, OnError(m)))
        else stored;
    next.(loading := false)
  }

  /** `fetchStatus` run to completion, as `refresh` starts it. */
  function FetchStatus(cfg: HookConfig, s: HookState, outcome: Result<Json, Thrown>): (r: HookState)
    ensures !cfg.Tracking() ==> r == s
    ensures cfg.Tracking() ==> r == Settle(cfg, BeginFetch(cfg, s), outcome)
  {
    if cfg.Tracking() then Settle(cfg, BeginFetch(cfg, s), outcome) else s
  }

  /** `startPolling`: sets `polling` for a tracked job only. */
  function Started(cfg: HookConfig, s: HookState): (r: HookState)
    ensures cfg.Tracking() ==> r == s.(polling := true)
    ensures !cfg.Tracking() ==> r == s
  {
    if cfg.Tracking() then s.(polling := true) else s
  }

  /** `stopPolling`: clears `polling`, and nothing else. */
  function Stopped(s: HookState): (r: HookState)
    ensures !r.polling
    ensures r.(polling := s.polling) == s
  {
    s.(polling := false)
  }

  /** Loop `i`'s `await fetchStatus()` returns; the loop then arms its next timer, whatever `polling` is. */
  function LoopSettled(cfg: HookConfig, s: HookState, i: nat, outcome: Result<Json, Thrown>): (r: HookState)
    requires i < |s.loops| && s.loops[i] == Fetching
    ensures |r.loops| == |s.loops| && r.loops[i] == Waiting
    ensures forall k :: 0 <= k < |s.loops| && k != i ==> r.loops[k] == s.loops[k]
    ensures r.(loops := s.loops) == Settle(cfg, s, outcome)
  {
    Settle(cfg, s, outcome).(loops := s.loops[i := Waiting])
  }

  /** Loop `i`'s timer fires: `poll` runs again and calls `fetchStatus`. */
  function LoopResumed(cfg: HookConfig, s: HookState, i: nat): (r: HookState)
    requires i < |s.loops| && s.loops[i] == Waiting
    ensures |r.loops| == |s.loops| && r.loops[i] == Fetching
    ensures forall k :: 0 <= k < |s.loops| && k != i ==> r.loops[k] == s.loops[k]
    ensures r.(loops := s.loops) == BeginFetch(cfg, s)
  {
    BeginFetch(cfg, s).(loops := s.loops[i := Fetching])
  }

  // ---------------------------------------------------------------------
  // Properties

  /** Without a job id no operation changes anything and nothing is ever polled. */
  lemma NoJobNoChange(cfg: HookConfig, s: HookState, outcome: Result<Json, Thrown>)
    requires !cfg.Tracking()
    ensures FetchStatus(cfg, s, outcome) == s
    ensures Started(cfg, s) == s
    ensures BeginFetch(cfg, s) == s
    ensures !Mount(cfg).polling && Mount(cfg).loops == []
  {
  }

  /** A completed job: stored, polling stops, `onComplete` is called once with it, the error is untouched. */
  lemma SettleCompleted(cfg: HookConfig, s: HookState, v: Json)
    requires Property(v, "status") == Some(JStr("completed"))
    ensures var r := Settle(cfg, s, Success(v));
      && r.status == v && !r.polling && !r.loading && r.error == s.error
      && r.notified == s.notified + (if cfg.hasOnComplete then [OnComplete(v)] else [])
  {
  }

  /** A failed job: stored, polling stops, the error is the job's own or "Job failed", and `onError` gets it. */
  lemma SettleFailed(cfg: HookConfig, s: HookState, v: Json)
    requires Property(v, "status") == Some(JStr("failed"))
    ensures var r := Settle(cfg, s, Success(v));
      var m := if Present(Property(v, "error")) then ToString(Property(v, "error").value) else "Job failed";
      && r.status == v && !r.polling && !r.loading && r.error == Some(m)
      && r.notified == s.notified + (if cfg.hasOnError then [OnError(m)] else [])
  {
  }

  /** A failed fetch: the status is kept, polling stops, and the error is the thrown one's message. */
  lemma SettleThrown(cfg: HookConfig, s: HookState, t: Thrown)
    ensures var r := Settle(cfg, s, Failure(t));
      var m := if t.Error? then t.message else "Failed to fetch job status";
      && r.status == s.status && !r.polling && !r.loading && r.error == Some(m)
      && r.notified == s.notified + (if cfg.hasOnError then [OnError(m)] else [])
  {
  }

  /** A `null` response is stored, and then the read of its `status` is reported as an error. */
  lemma SettleNull(cfg: HookConfig, s: HookState)
    ensures var r := Settle(cfg, s, Success(JNull));
      && r.status == JNull && !r.polling
      && r.error == Some("Cannot read properties of null (reading 'status')")
      && r.notified == s.notified + (if cfg.hasOnError then [OnError(NullReadMessage("status"))] else [])
  {
    assert NullReadMessage("status") == "Cannot read properties of null (reading 'status')";
  }

  /** Any other response (pending, processing, or no status) is stored and changes nothing else but `loading`. */
  lemma SettleInProgress(cfg: HookConfig, s: HookState, v: Json)
    requires !v.JNull?
    requires Property(v, "status") != Some(JStr("completed")) && Property(v, "status") != Some(JStr("failed"))
    ensures Settle(cfg, s, Success(v)) == s.(status := v, loading := false)
  {
  }

  /** A fetch never starts polling, never clears an error, and changes the error only when it also stops polling. */
  lemma SettleMonotone(cfg: HookConfig, s: HookState, outcome: Result<Json, Thrown>)
    ensures var r := Settle(cfg, s, outcome);
      && (r.polling ==> s.polling)
      && (s.error.Some? ==> r.error.Some?)
      && (r.error != s.error ==> r.error.Some? && !r.polling)
  {
  }

  /** A fetch calls at most one callback, after those already called. */
  lemma SettleNotifiesAtMostOnce(cfg: HookConfig, s: HookState, outcome: Result<Json, Thrown>)
    ensures exists extra: seq<Notification> {:trigger s.notified + extra} ::
      |extra| <= 1 && Settle(cfg, s, outcome).notified == s.notified + extra
  {
    var r := Settle(cfg, s, outcome);
    match outcome
    case Failure(t) =>
      assert r.notified == s.notified + Notify(cfg.hasOnError, OnError(CaughtMessage(t)));
    case Success(v) =>
      if v.JNull? {
        assert r.notified == s.notified + Notify(cfg.hasOnError, OnError(CaughtMessage(Error(NullReadMessage("status")))));
      } else if Property(v, "status") == Some(JStr("completed")) {
        assert r.notified == s.notified + Notify(cfg.hasOnComplete, OnComplete(v));
      } else if Property(v, "status") == Some(JStr("failed")) {
        assert r.notified == s.notified + Notify(cfg.hasOnError, OnError(FailureMessage(v)));
      } else {
        assert r.notified == s.notified + [];
      }
  }

  /** Every operation keeps `Valid`. */
  lemma ValidPreserved(cfg: HookConfig, s: HookState, outcome: Result<Json, Thrown>, i: nat)
    requires Invariant(cfg, s)
    ensures Invariant(cfg, Committed(cfg, s))
    ensures Invariant(cfg, FetchStatus(cfg, s, outcome))
    ensures Invariant(cfg, Started(cfg, s))
    ensures Invariant(cfg, Stopped(s))
    ensures i < |s.loops| && s.loops[i] == Fetching ==> Invariant(cfg, LoopSettled(cfg, s, i, outcome))
    ensures i < |s.loops| && s.loops[i] == Waiting ==> Invariant(cfg, LoopResumed(cfg, s, i))
  {
  }

  /**
   * `stopPolling` while the mounted loop's fetch is pending: the cleanup has
   * no timer to clear, so when the fetch returns the loop arms a new timer
   * that no cleanup owns, and that timer fetches again although `polling`
   * is off.
   */
  lemma InFlightLoopOutlivesStop(cfg: HookConfig, s: HookState, outcome: Result<Json, Thrown>)
    requires Invariant(cfg, s) && s.current.Some? && s.loops[s.current.value] == Fetching
    ensures var i := s.current.value;
      var stopped := Committed(cfg, Stopped(s));
      var armed := LoopSettled(cfg, stopped, i, outcome);
      && !stopped.polling && stopped.current == None && stopped.loops[i] == Fetching
      && !armed.polling && armed.loops[i] == Waiting && armed.current == None
      && LoopResumed(cfg, armed, i).loading
  {
  }

  /** By contrast a loop whose timer is armed when polling stops is cleared, and never fetches again. */
  lemma WaitingLoopStops(cfg: HookConfig, s: HookState)
    requires Invariant(cfg, s) && s.current.Some? && s.loops[s.current.value] == Waiting
    ensures Committed(cfg, Stopped(s)).loops[s.current.value] == Cleared
  {
  }

  /**
   * A completed poll settled while the mounted loop is fetching: the loop
   * arms its timer before the re-render, so the cleanup that follows clears
   * it.
   */
  lemma CompletionStopsLoop(cfg: HookConfig, s: HookState, v: Json)
    requires Invariant(cfg, s) && s.current.Some? && s.loops[s.current.value] == Fetching
    requires Property(v, "status") == Some(JStr("completed"))
    ensures var r := Committed(cfg, LoopSettled(cfg, s, s.current.value, Success(v)));
      && !r.polling && r.current == None && r.loops[s.current.value] == Cleared
  {
  }

  /** Calling `refresh` on a completed job calls `onComplete` again. */
  lemma RefreshRepeatsOnComplete(cfg: HookConfig, s: HookState, v: Json)
    requires cfg.Tracking() && cfg.hasOnComplete
    requires Property(v, "status") == Some(JStr("completed"))
    ensures FetchStatus(cfg, s, Success(v)).notified == s.notified + [OnComplete(v)]
  {
  }

  /**
   * A tracked job with `onComplete` and default options: the first loop
   * polls twice while the job is processing, stops once it is completed,
   * and a later `refresh` reports the completion a second time.
   */
  lemma PollUntilCompleted()
    ensures var cfg := HookConfig(Some("job-1"), None, None, true, false);
      var processing := JObj(map["status" := JStr("processing")]);
      var completed := JObj(map["status" := JStr("completed")]);
      var s0 := Mount(cfg);
      var s1 := LoopResumed(cfg, LoopSettled(cfg, s0, 0, Success(processing)), 0);
      var s2 := LoopSettled(cfg, s1, 0, Success(completed));
      && s0.loops == [Fetching] && s0.loading
      && s1.loops == [Fetching] && s1.polling && s1.status == processing
      && Invariant(cfg, s2) && Committed(cfg, s2).loops == [Cleared]
      && !Committed(cfg, s2).polling && Committed(cfg, s2).notified == [OnComplete(completed)]
      && FetchStatus(cfg, Committed(cfg, s2), Success(completed)).notified == [OnComplete(completed), OnComplete(completed)]
  {
    var cfg := HookConfig(Some("job-1"), None, None, true, false);
    var processing := JObj(map["status" := JStr("processing")]);
    var completed := JObj(map["status" := JStr("completed")]);
    var s0 := Mount(cfg);
    assert Property(processing, "status") == Some(JStr("processing"));
    assert Property(completed, "status") == Some(JStr("completed"));
    var a := LoopSettled(cfg, s0, 0, Success(processing));
    assert a.loops == [Waiting] && a.polling && a.status == processing;
    var s1 := LoopResumed(cfg, a, 0);
    assert s1.loops == [Fetching] && s1.current == Some(0);
    var s2 := LoopSettled(cfg, s1, 0, Success(completed));
    assert s2.loops == [Waiting] && !s2.polling && s2.notified == [OnComplete(completed)];
    ValidPreserved(cfg, s0, Success(processing), 0);
    ValidPreserved(cfg, a, Success(processing), 0);
    ValidPreserved(cfg, s1, Success(completed), 0);
  }

  // ---------------------------------------------------------------------
  // The hook as an object

  class JobStatusHook {
    const cfg: HookConfig
    var status: Json
    var loading: bool
    var error: Option<string>
    var polling: bool
    var notified: seq<Notification>
    var loops: seq<LoopPhase>
    var current: Option<nat>
    var effectPolling: bool

    function State(): HookState
      reads this
    {
      HookState(status, loading, error, polling, notified, loops, current, effectPolling)
    }

    ghost predicate Valid()
      reads this
    {
      Invariant(cfg, State())
    }

    method Assign(s: HookState)
      modifies this
      ensures State() == s
    {
      status, loading, error, polling := s.status, s.loading, s.error, s.polling;
      notified, loops, current, effectPolling := s.notified, s.loops, s.current, s.effectPolling;
    }

    /** The first render and its effect. */
    constructor(config: HookConfig)
      ensures cfg == config && State() == Mount(config)
      ensures Valid()
    {
      cfg := config;
      var s := Mount(config);
      status, loading, error, polling := s.status, s.loading, s.error, s.polling;
      notified, loops, current, effectPolling := s.notified, s.loops, s.current, s.effectPolling;
    }

    /** A render and its commit. */
    method Commit()
      requires Valid()
      modifies this
      ensures State() == Committed(cfg, old(State()))
      ensures Valid()
    {
      ValidPreserved(cfg, State(), Failure(NonError), 0);
      Assign(Committed(cfg, State()));
    }

    /** `refresh`, with the outcome of its status request. */
    method Refresh(outcome: Result<Json, Thrown>)
      requires Valid()
      modifies this
      ensures State() == FetchStatus(cfg, old(State()), outcome)
      ensures Valid()
    {
      ValidPreserved(cfg, State(), outcome, 0);
      Assign(FetchStatus(cfg, State(), outcome));
    }

    method StartPolling()
      requires Valid()
      modifies this
      ensures State() == Started(cfg, old(State()))
      ensures Valid()
    {
      if cfg.Tracking() {
        polling := true;
      }
    }

    method StopPolling()
      requires Valid()
      modifies this
      ensures State() == Stopped(old(State()))
      ensures Valid()
    {
      polling := false;
    }

    /** Loop `i`'s fetch returns with `outcome`. */
    method PollSettled(i: nat, outcome: Result<Json, Thrown>)
      requires Valid() && i < |loops| && loops[i] == Fetching
      modifies this
      ensures State() == LoopSettled(cfg, old(State()), i, outcome)
      ensures Valid()
    {
      ValidPreserved(cfg, State(), outcome, i);
      Assign(LoopSettled(cfg, State(), i, outcome));
    }

    /** Loop `i`'s timer fires. */
    method TimerFires(i: nat)
      requires Valid() && i < |loops| && loops[i] == Waiting
      modifies this
      ensures State() == LoopResumed(cfg, old(State()), i)
      ensures Valid()
    {
      ValidPreserved(cfg, State(), Failure(NonError), i);
      if cfg.Tracking() {
        loading := true;
      }
      loops := loops[i := Fetching];
    }
  }
}
