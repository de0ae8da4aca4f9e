/** Running the actions of a cue: some one after the other, some in the background, with barriers. The
    completion order of background actions is left open, so what is proved holds for every order. */
module ActionScheduler {
  import opened StageTypes

  datatype ExecutionResult = Completed | Cancelled | TimedOut | Failed | Running

  datatype OnError = Continue | FailCue | UnknownPolicy

  datatype Mode = Parallel | Barrier | Sequential | UnknownMode

  /** What the executor will answer for an action, or that the answer cannot be recorded. */
  datatype Report = Report(result: ExecutionResult, onError: OnError) | Lost

  /** `recordable` says whether the start of the action can be recorded. */
  datatype Action = Action(enabled: bool, mode: Mode, recordable: bool, report: Report)

  datatype Event = Started(action: nat) | Finished(action: nat)

  /** Whether a failed action fails its cue; `None` is an unsupported policy. */
  function FailureIsFatal(onError: OnError, result: ExecutionResult): Option<bool> {
    if result.Completed? then Some(false)
    else if result.Cancelled? then Some(true)
    else
      match onError
      case Continue => Some(false)
      case FailCue => Some(true)
      case UnknownPolicy => None
  }

  /** The action's outcome can be recorded and judged. */
  predicate Judged(a: Action) {
    a.report.Report? && FailureIsFatal(a.report.onError, a.report.result).Some?
  }

  predicate Fatal(a: Action) {
    Judged(a) && FailureIsFatal(a.report.onError, a.report.result) == Some(true)
  }

  /** What the outcome means, by the fields of the report: a cancelled action keeps later ones from going
      on, and so does one that ended other than COMPLETED under FAIL_CUE. */
  lemma FatalMeans(a: Action)
    ensures Judged(a) <==> a.report.Report? && (a.report.result.Completed? || a.report.result.Cancelled? ||
                                                a.report.onError != UnknownPolicy)
    ensures Fatal(a) <==> a.report.Report? && (a.report.result.Cancelled? ||
                                               (!a.report.result.Completed? && a.report.onError == FailCue))
  {
  }

  // ---------------------------------------------------------------- traces

  function Starts(trace: seq<Event>): seq<nat> {
    if trace == [] then []
    else
      var e := trace[|trace| - 1];
      Starts(trace[..|trace| - 1]) + (if e.Started? then [e.action] else [])
  }

  function EnabledBefore(actions: seq<Action>, n: nat): seq<nat>
    requires n <= |actions|
  {
    if n == 0 then []
    else EnabledBefore(actions, n - 1) + (if actions[n - 1].enabled then [n - 1] else [])
  }

  /** A later action may start only after this one has finished. */
  predicate Precedes(actions: seq<Action>, i: nat, j: nat) {
    && i < j <= |actions| && actions[i].enabled
    && (actions[i].mode == Sequential ||
        exists b | i <= b < j :: actions[b].enabled && actions[b].mode == Barrier)
  }

  /** Every start comes after the finish of all that must precede it. */
  ghost predicate Ordered(actions: seq<Action>, trace: seq<Event>) {
    forall b, i: nat | 0 <= b < |trace| && trace[b].Started? && Precedes(actions, i, trace[b].action) ::
      Finished(i) in trace[..b]
  }

  ghost predicate AllFinished(trace: seq<Event>) {
    forall i: nat | Started(i) in trace :: Finished(i) in trace
  }

  // ---------------------------------------------------------------- one run

  /** Background actions still running, and those not waited for yet. */
  datatype Pool = Pool(pending: seq<nat>, running: set<nat>, trace: seq<Event>)

  /** The first n actions have been started where enabled, and all but the running ones are finished. */
  ghost predicate TraceHolds(actions: seq<Action>, n: nat, running: set<nat>, trace: seq<Event>)
    requires n <= |actions|
  {
    && Starts(trace) == EnabledBefore(actions, n)
    && NoRepeats(trace)
    && (forall i: nat :: Started(i) in trace <==> i < n && actions[i].enabled)
    && (forall i: nat :: Finished(i) in trace <==> i < n && actions[i].enabled && i !in running)
  }

  ghost predicate PoolHolds(actions: seq<Action>, n: nat, p: Pool)
    requires n <= |actions|
  {
    && TraceHolds(actions, n, p.running, p.trace)
    && Ordered(actions, p.trace)
    && (forall i | i in p.running :: i in p.pending)
    && (forall i | i in p.pending :: i < n && actions[i].enabled)
    && (forall a, b | 0 <= a < b < |p.pending| :: p.pending[a] < p.pending[b])
    && (forall i: nat | i < n && actions[i].enabled && i !in p.pending :: Judged(actions[i]) && !Fatal(actions[i]))
    && Cleared(actions, n)
    && (forall i: nat | i < n && actions[i].enabled :: actions[i].recordable && actions[i].mode != UnknownMode)
  }

  /** Nothing that keeps later actions from going on precedes any of the first n actions. */
  ghost predicate Cleared(actions: seq<Action>, n: nat)
    requires n <= |actions|
  {
    forall i: nat, j: nat | i < j < n && actions[j].enabled && Precedes(actions, i, j) :: !Fatal(actions[i])
  }

  /** No pending action stands in the way of the next one. */
  ghost predicate Free(actions: seq<Action>, n: nat, pending: seq<nat>) {
    forall i: nat | i in pending :: !Precedes(actions, i, n)
  }

  lemma OrderedOn(actions: seq<Action>, trace: seq<Event>, e: Event)
    requires Ordered(actions, trace)
    requires e.Started? ==> forall i: nat | Precedes(actions, i, e.action) :: Finished(i) in trace
    ensures Ordered(actions, trace + [e])
  {
    hide Precedes;
    forall b, k: nat | 0 <= b < |trace + [e]| && (trace + [e])[b].Started? &&
                       Precedes(actions, k, (trace + [e])[b].action)
      ensures Finished(k) in (trace + [e])[..b]
    {
      assert (trace + [e])[..b] == if b < |trace| then trace[..b] else trace;
    }
  }

  lemma FinishOne(actions: seq<Action>, n: nat, p: Pool, i: nat)
    requires n <= |actions| && PoolHolds(actions, n, p) && i in p.running
    ensures PoolHolds(actions, n, p.(running := p.running - {i}, trace := p.trace + [Finished(i)]))
  {
    hide Precedes, Ordered, Fatal, Judged, Cleared;
    var trace := p.trace + [Finished(i)];
    assert trace[..|p.trace|] == p.trace;
    assert forall e :: e in trace <==> e in p.trace || e == Finished(i);
    OrderedOn(actions, p.trace, Finished(i));
  }

  lemma StartIsTraced(actions: seq<Action>, n: nat, running: set<nat>, trace: seq<Event>)
    requires n < |actions| && TraceHolds(actions, n, running, trace) && actions[n].enabled
    ensures TraceHolds(actions, n + 1, running + {n}, trace + [Started(n)])
  {
    var longer := trace + [Started(n)];
    assert longer[..|trace|] == trace;
    assert forall e :: e in longer <==> e in trace || e == Started(n);
  }

  /** Whatever must precede the next action has finished. */
  lemma PredecessorsFinished(actions: seq<Action>, n: nat, p: Pool)
    requires n < |actions| && PoolHolds(actions, n, p) && Free(actions, n, p.pending)
    ensures forall i: nat | Precedes(actions, i, n) :: Finished(i) in p.trace
  {
    hide Ordered, Fatal, Judged, NoRepeats, Starts, EnabledBefore, Cleared;
    forall i: nat | Precedes(actions, i, n) ensures Finished(i) in p.trace {
      assert i !in p.pending && i !in p.running;
    }
  }

  lemma StartIsClear(actions: seq<Action>, n: nat, p: Pool)
    requires n < |actions| && PoolHolds(actions, n, p) && Free(actions, n, p.pending)
    ensures Cleared(actions, n + 1)
  {
    hide Ordered, Fatal, Judged, TraceHolds, Precedes;
    forall i: nat, j: nat | i < j < n + 1 && actions[j].enabled && Precedes(actions, i, j) ensures !Fatal(actions[i]) {
      if j == n { assert actions[i].enabled by { PrecedesIsEarlier(actions, i, n); } }
    }
  }

  lemma PrecedesIsEarlier(actions: seq<Action>, i: nat, j: nat)
    requires Precedes(actions, i, j)
    ensures i < j <= |actions| && actions[i].enabled
  {
  }

  lemma AppendAscends(pending: seq<nat>, n: nat)
    requires forall a, b | 0 <= a < b < |pending| :: pending[a] < pending[b]
    requires forall i | i in pending :: i < n
    ensures forall a, b | 0 <= a < b < |pending + [n]| :: (pending + [n])[a] < (pending + [n])[b]
  {
    forall a, b | 0 <= a < b < |pending + [n]| ensures (pending + [n])[a] < (pending + [n])[b] {
      if b == |pending| { assert pending[a] in pending; }
    }
  }

  lemma StartOne(actions: seq<Action>, n: nat, p: Pool)
    requires n < |actions| && PoolHolds(actions, n, p) && Free(actions, n, p.pending) && actions[n].enabled
    requires actions[n].recordable && actions[n].mode != UnknownMode
    ensures PoolHolds(actions, n + 1, Pool(p.pending + [n], p.running + {n}, p.trace + [Started(n)]))
  {
    hide Ordered, Precedes, Free, Fatal, Judged, TraceHolds, Cleared;
    var longer := p.pending + [n];
    assert forall a, b | 0 <= a < b < |longer| :: longer[a] < longer[b] by { AppendAscends(p.pending, n); }
    StartIsClear(actions, n, p);
    StartIsTraced(actions, n, p.running, p.trace);
    PredecessorsFinished(actions, n, p);
    OrderedOn(actions, p.trace, Started(n));
  }

  lemma StayFree(actions: seq<Action>, n: nat, before: seq<nat>, after: seq<nat>)
    requires n < |actions| && Free(actions, n, before) && (actions[n].enabled ==> actions[n].mode != Barrier)
    requires forall i | i in after :: i in before || (i == n && actions[n].mode == Parallel)
    requires forall i: nat | i in before :: i < n && actions[i].enabled
    ensures Free(actions, n + 1, after)
  {
  }

  /** Some background actions finish, in whatever order. */
  method Background(actions: seq<Action>, n: nat, p: Pool) returns (q: Pool)
    requires n <= |actions| && PoolHolds(actions, n, p)
    ensures PoolHolds(actions, n, q) && q.pending == p.pending && q.running <= p.running
  {
    hide PoolHolds;
    q := p;
    var more: bool := *;
    while more && exists i :: i in q.running
      invariant PoolHolds(actions, n, q) && q.pending == p.pending && q.running <= p.running
      decreases |q.running|
    {
      var i :| i in q.running;
      FinishOne(actions, n, q, i);
      q := q.(running := q.running - {i}, trace := q.trace + [Finished(i)]);
      more := *;
    }
  }

  /** Waits until one background action has finished. */
  method Await(actions: seq<Action>, n: nat, p: Pool, item: nat) returns (q: Pool)
    requires n <= |actions| && PoolHolds(actions, n, p)
    ensures PoolHolds(actions, n, q) && q.pending == p.pending && q.running <= p.running && item !in q.running
  {
    hide PoolHolds;
    q := p;
    while item in q.running
      invariant PoolHolds(actions, n, q) && q.pending == p.pending && q.running <= p.running
      decreases |q.running|
    {
      var i :| i in q.running;
      FinishOne(actions, n, q, i);
      q := q.(running := q.running - {i}, trace := q.trace + [Finished(i)]);
    }
  }

  /** The result is that of the first fatal one of these actions. */
  ghost predicate FirstFatal(actions: seq<Action>, items: seq<nat>, k: int, r: ExecutionResult)
  {
    && 0 <= k < |items| && items[k] < |actions| && Fatal(actions[items[k]]) && actions[items[k]].report.result == r
    && forall b | 0 <= b < k :: items[b] < |actions| && !Fatal(actions[items[b]])
  }

  /** Waits for the given actions in turn and takes the first fatal result. */
  method WaitPending(actions: seq<Action>, n: nat, p: Pool, items: seq<nat>)
    returns (r: Option<ExecutionResult>, q: Pool)
    requires n <= |actions| && PoolHolds(actions, n, p) && forall i | i in items :: i in p.pending
    ensures PoolHolds(actions, n, q) && q.pending == p.pending && q.running <= p.running
    ensures r.Some? ==> forall i | i in items :: i !in q.running && Judged(actions[i])
    ensures r.Some? ==> (r.value.Completed? <==> forall i | i in items :: !Fatal(actions[i]))
    ensures r.Some? && !r.value.Completed? ==> exists k :: FirstFatal(actions, items, k, r.value)
    ensures r.None? ==> exists i :: i in items && !Judged(actions[i])
  {
    q := p;
    var final := ExecutionResult.Completed;
    for k := 0 to |items|
      invariant PoolHolds(actions, n, q) && q.pending == p.pending && q.running <= p.running
      invariant forall i | i in items[..k] :: i in items && i !in q.running && Judged(actions[i])
      invariant final.Completed? <==> forall i | i in items[..k] :: !Fatal(actions[i])
      invariant final.Completed? || exists i :: i < k && FirstFatal(actions, items, i, final)
    {
      var item := items[k];
      assert item in items;
      q := Await(actions, n, q, item);
      assert items[..k + 1] == items[..k] + [item];
      if !Judged(actions[item]) { return None, q; }
      if Fatal(actions[item]) && final.Completed? {
        final := actions[item].report.result;
        assert forall b | 0 <= b < k :: items[b] in items[..k];
        assert FirstFatal(actions, items, k, final);
      }
    }
    assert items[..|items|] == items;
    r := Some(final);
  }

  /** The actions started are a prefix of the enabled ones, in order, each at most once. */
  ghost predicate StartsPrefix(actions: seq<Action>, trace: seq<Event>) {
    NoRepeats(trace) && exists n :: 0 <= n <= |actions| && Starts(trace) == EnabledBefore(actions, n)
  }

  /** Started are exactly the enabled actions that no cancelled action precedes, and none that ended other
      than COMPLETED under FAIL_CUE. */
  ghost predicate StopsExactly(actions: seq<Action>, trace: seq<Event>) {
    forall j: nat | j < |actions| && actions[j].enabled ::
      Started(j) in trace <==> forall i: nat | i < j && Precedes(actions, i, j) :: !Fatal(actions[i])
  }

  /** What an error-free return tells about the trace. */
  ghost predicate Accounted(actions: seq<Action>, r: ExecutionResult, trace: seq<Event>) {
    && AllFinished(trace) && StopsExactly(actions, trace)
    && (forall i: nat | Started(i) in trace :: i < |actions| && actions[i].enabled && Fit(actions[i]))
    && (r.Completed? <==> forall i: nat | Started(i) in trace && i < |actions| :: !Fatal(actions[i]))
    && (r.Completed? ==> Starts(trace) == EnabledBefore(actions, |actions|))
    && (!r.Completed? ==> exists i: nat ::
          Started(i) in trace && i < |actions| && Fatal(actions[i]) && actions[i].report.result == r &&
          Decides(actions, trace, i))
  }

  /** Nothing about this action makes the scheduler give up with an error. */
  ghost predicate Fit(a: Action) {
    a.recordable && a.mode != UnknownMode && Judged(a)
  }

  /** The action whose result is the result of the cue: the first fatal one, or a sequential one that
      stopped the cue. */
  ghost predicate Decides(actions: seq<Action>, trace: seq<Event>, i: nat)
    requires i < |actions|
  {
    || (forall k: nat | Started(k) in trace && k < |actions| && Fatal(actions[k]) :: i <= k)
    || (actions[i].mode == Sequential && forall k: nat | Started(k) in trace :: k <= i)
  }

  lemma PoolTells(actions: seq<Action>, n: nat, p: Pool)
    requires n <= |actions| && PoolHolds(actions, n, p)
    ensures StartsPrefix(actions, p.trace) && Ordered(actions, p.trace)
  {
  }

  /** The pending action that decides the cue, and keeps the remaining ones from starting. */
  ghost predicate Ends(actions: seq<Action>, n: nat, p: Pool, i: nat, r: ExecutionResult)
    requires n <= |actions|
  {
    && i in p.pending && i < n && Fatal(actions[i]) && actions[i].report.result == r
    && ((forall k | k in p.pending && k < n && Fatal(actions[k]) :: i <= k) ||
        (actions[i].mode == Sequential && i == n - 1))
    && (forall j: nat | n <= j < |actions| :: Precedes(actions, i, j))
  }

  lemma PoolAccounts(actions: seq<Action>, n: nat, p: Pool, r: ExecutionResult, i: nat)
    requires n <= |actions| && PoolHolds(actions, n, p)
    requires forall i | i in p.pending :: i !in p.running && Judged(actions[i])
    requires r.Completed? ==> n == |actions| && forall i | i in p.pending :: !Fatal(actions[i])
    requires !r.Completed? ==> Ends(actions, n, p, i, r)
    ensures Accounted(actions, r, p.trace)
  {
    hide Ordered, Precedes, Fatal, Judged;
    if !r.Completed? {
      assert Started(i) in p.trace;
      assert Decides(actions, p.trace, i);
    }
    StopsAt(actions, n, p);
  }

  lemma StopsAt(actions: seq<Action>, n: nat, p: Pool)
    requires n <= |actions| && PoolHolds(actions, n, p)
    requires n == |actions| || exists i: nat, r :: Ends(actions, n, p, i, r)
    ensures StopsExactly(actions, p.trace)
  {
    hide Ordered, Precedes, Fatal, Judged;
    forall j: nat | j < |actions| && actions[j].enabled
      ensures Started(j) in p.trace <==> forall i: nat | i < j && Precedes(actions, i, j) :: !Fatal(actions[i])
    {
      if n <= j {
        var i: nat, r :| Ends(actions, n, p, i, r);
        assert Precedes(actions, i, j) && Fatal(actions[i]);
      }
    }
  }

  /** In a list of pending actions, the first fatal one is the earliest. */
  lemma FirstIsEarliest(actions: seq<Action>, p: Pool, k: int, r: ExecutionResult)
    requires forall a, b | 0 <= a < b < |p.pending| :: p.pending[a] < p.pending[b]
    requires FirstFatal(actions, p.pending, k, r)
    ensures forall i | i in p.pending && i < |actions| && Fatal(actions[i]) :: p.pending[k] <= i
  {
    hide Fatal;
  }

  lemma EmptyPool(actions: seq<Action>)
    ensures PoolHolds(actions, 0, Pool([], {}, [])) && Free(actions, 0, [])
  {
  }

  lemma SkipOne(actions: seq<Action>, n: nat, p: Pool)
    requires n < |actions| && !actions[n].enabled && PoolHolds(actions, n, p) && Free(actions, n, p.pending)
    ensures PoolHolds(actions, n + 1, p) && Free(actions, n + 1, p.pending)
  {
    StayFree(actions, n, p.pending, p.pending);
  }

  lemma PendingIsEarlier(actions: seq<Action>, n: nat, p: Pool)
    requires n <= |actions| && PoolHolds(actions, n, p)
    ensures forall i: nat | i in p.pending :: i < n && actions[i].enabled
    ensures forall i | i in p.running :: i in p.pending
    ensures forall a, b | 0 <= a < b < |p.pending| :: p.pending[a] < p.pending[b]
  {
  }

  /** Pending actions that have finished without a fatal result need no more waiting. */
  lemma Drop(actions: seq<Action>, n: nat, p: Pool, rest: seq<nat>)
    requires n <= |actions| && PoolHolds(actions, n, p) && forall i | i in rest :: i in p.pending
    requires forall a, b | 0 <= a < b < |rest| :: rest[a] < rest[b]
    requires forall i | i in p.pending && i !in rest :: i !in p.running && Judged(actions[i]) && !Fatal(actions[i])
    ensures PoolHolds(actions, n, p.(pending := rest))
  {
    hide Ordered, TraceHolds, Judged, Fatal, Cleared;
  }

  /** A sequential action that is fatal ends its cue. */
  lemma SequentialEnds(actions: seq<Action>, n: nat, p: Pool)
    requires n < |actions| && actions[n].enabled && actions[n].mode == Sequential && Fatal(actions[n]) && n in p.pending
    ensures Ends(actions, n + 1, p, n, actions[n].report.result)
  {
    hide Fatal;
  }

  /** A barrier ends its cue when an action it waits for is fatal. */
  lemma BarrierEnds(actions: seq<Action>, n: nat, p: Pool, k: int, r: ExecutionResult)
    requires n < |actions| && actions[n].enabled && actions[n].mode == Barrier && PoolHolds(actions, n + 1, p)
    requires FirstFatal(actions, p.pending, k, r)
    ensures Ends(actions, n + 1, p, p.pending[k], r)
  {
    hide Fatal, Ordered, TraceHolds, Cleared, Judged;
    FirstIsEarliest(actions, p, k, r);
  }

  lemma LastEnds(actions: seq<Action>, p: Pool, k: int, r: ExecutionResult)
    requires PoolHolds(actions, |actions|, p)
    requires FirstFatal(actions, p.pending, k, r)
    ensures Ends(actions, |actions|, p, p.pending[k], r)
  {
    hide Fatal, Ordered, TraceHolds, Cleared, Judged, Precedes;
    FirstIsEarliest(actions, p, k, r);
  }

  /** Some action cannot be run as it is written, or its outcome cannot be judged. */
  ghost predicate SomeUnfit(actions: seq<Action>) {
    exists i :: 0 <= i < |actions| && actions[i].enabled && !Fit(actions[i])
  }

  /** Starts one enabled action, and waits as its mode asks. `done` holds when the cue ends here, with
      its result or with an error. */
  method RunAction(actions: seq<Action>, n: nat, p: Pool) returns (done: bool, r: Option<ExecutionResult>, q: Pool)
    requires n < |actions| && actions[n].enabled && PoolHolds(actions, n, p) && Free(actions, n, p.pending)
    ensures !done ==> PoolHolds(actions, n + 1, q) && Free(actions, n + 1, q.pending)
    ensures done ==> StartsPrefix(actions, q.trace) && Ordered(actions, q.trace)
    ensures done && r.Some? ==> Accounted(actions, r.value, q.trace)
    ensures done && r.None? ==> SomeUnfit(actions)
  {
    hide PoolHolds, Free, Judged, StartsPrefix, Ordered, Accounted, Precedes, Ends;
    done, r, q := true, None, p;
    if actions[n].mode == UnknownMode || !actions[n].recordable {
      PoolTells(actions, n, q);
      assert !Fit(actions[n]);
      return;
    }
    PendingIsEarlier(actions, n, p);
    StartOne(actions, n, p);
    q := Pool(p.pending + [n], p.running + {n}, p.trace + [Started(n)]);
    PendingIsEarlier(actions, n + 1, q);
    if actions[n].mode == Parallel {
      StayFree(actions, n, p.pending, q.pending);
      done := false;
    } else if actions[n].mode == Barrier {
      r, q := WaitPending(actions, n + 1, q, q.pending);
      PoolTells(actions, n + 1, q);
      if r.None? { return; }
      if !r.value.Completed? {
        ghost var k :| FirstFatal(actions, q.pending, k, r.value);
        BarrierEnds(actions, n, q, k, r.value);
        PoolAccounts(actions, n + 1, q, r.value, q.pending[k]);
        return;
      }
      Drop(actions, n + 1, q, []);
      q := q.(pending := []);
      assert Free(actions, n + 1, []) by { NothingPending(actions, n + 1); }
      done := false;
    } else {
      q := Await(actions, n + 1, q, n);
      PoolTells(actions, n + 1, q);
      if !Judged(actions[n]) {
        assert !Fit(actions[n]);
        return;
      }
      if Fatal(actions[n]) {
        FatalMeans(actions[n]);
        var late: Option<ExecutionResult>;
        late, q := WaitPending(actions, n + 1, q, p.pending);
        PoolTells(actions, n + 1, q);
        if late.None? { return; }
        r := Some(actions[n].report.result);
        assert n in q.pending;
        SequentialEnds(actions, n, q);
        PoolAccounts(actions, n + 1, q, r.value, n);
        return;
      }
      Drop(actions, n + 1, q, p.pending);
      q := q.(pending := p.pending);
      StayFree(actions, n, p.pending, p.pending);
      done := false;
    }
  }

  lemma NothingPending(actions: seq<Action>, n: nat)
    ensures Free(actions, n, [])
  {
  }

  /** The account in terms of the reports. */
  lemma AccountedTells(actions: seq<Action>, r: ExecutionResult, trace: seq<Event>)
    requires Accounted(actions, r, trace)
    ensures r.Completed? <==>
            forall i: nat | Started(i) in trace && i < |actions| :: actions[i].report.Report? &&
              !actions[i].report.result.Cancelled? &&
              (actions[i].report.result.Completed? || actions[i].report.onError != FailCue)
    ensures forall j: nat | j < |actions| && actions[j].enabled ::
              Started(j) in trace <==>
              forall i: nat | i < j && Precedes(actions, i, j) :: actions[i].report.Report? ==>
                !actions[i].report.result.Cancelled? &&
                (actions[i].report.result.Completed? || actions[i].report.onError != FailCue)
  {
    hide Precedes, Fatal, Judged, AllFinished, EnabledBefore, Starts;
    forall i | 0 <= i < |actions|
      ensures Fatal(actions[i]) <==>
              (actions[i].report.Report? &&
               (actions[i].report.result.Cancelled? ||
                (!actions[i].report.result.Completed? && actions[i].report.onError == FailCue)))
      ensures Judged(actions[i]) ==> actions[i].report.Report?
    {
      FatalMeans(actions[i]);
    }
  }

  /** Runs the actions of a cue. `None` is an error return, which leaves running actions unawaited. In
      terms of the reports: the cue is COMPLETED if and only if no started action was cancelled and none
      ended other than COMPLETED under FAIL_CUE; and an action is kept from starting only by such an
      action that precedes it, so never by one that failed under CONTINUE. */
  method ExecuteActions(actions: seq<Action>) returns (r: Option<ExecutionResult>, trace: seq<Event>)
    ensures StartsPrefix(actions, trace) && Ordered(actions, trace)
    ensures r.Some? ==> Accounted(actions, r.value, trace)
    ensures r.None? ==> SomeUnfit(actions)
    ensures r.Some? ==>
              (r.value.Completed? <==>
               forall i: nat | Started(i) in trace && i < |actions| :: actions[i].report.Report? &&
                 !actions[i].report.result.Cancelled? &&
                 (actions[i].report.result.Completed? || actions[i].report.onError != FailCue))
    ensures r.Some? ==>
              forall j: nat | j < |actions| && actions[j].enabled ::
                Started(j) in trace <==>
                forall i: nat | i < j && Precedes(actions, i, j) :: actions[i].report.Report? ==>
                  !actions[i].report.result.Cancelled? &&
                  (actions[i].report.result.Completed? || actions[i].report.onError != FailCue)
  {
    hide PoolHolds, Free, Judged, Fatal, StartsPrefix, Ordered, Accounted, Precedes, Ends;
    var p := Pool([], {}, []);
    EmptyPool(actions);
    for n := 0 to |actions|
      invariant PoolHolds(actions, n, p) && Free(actions, n, p.pending)
    {
      p := Background(actions, n, p);
      if !actions[n].enabled {
        SkipOne(actions, n, p);
        continue;
      }
      var done: bool;
      done, r, p := RunAction(actions, n, p);
      if done {
        if r.Some? { AccountedTells(actions, r.value, p.trace); }
        return r, p.trace;
      }
    }
    PendingIsEarlier(actions, |actions|, p);
    r, p := WaitPending(actions, |actions|, p, p.pending);
    PoolTells(actions, |actions|, p);
    trace := p.trace;
    if r.Some? {
      if r.value.Completed? {
        PoolAccounts(actions, |actions|, p, r.value, 0);
      } else {
        ghost var k :| FirstFatal(actions, p.pending, k, r.value);
        LastEnds(actions, p, k, r.value);
        PoolAccounts(actions, |actions|, p, r.value, p.pending[k]);
      }
      AccountedTells(actions, r.value, trace);
    } else {
      var i :| i in p.pending && !Judged(actions[i]);
      assert !Fit(actions[i]);
    }
  }

  // ---------------------------------------------------------------- the branches of a group

  function Rank(r: ExecutionResult): int {
    match r
    case Completed => 0
    case Cancelled => 1
    case TimedOut => 2
    case Failed => 3
    case Running => 4
  }

  function Worse(current: ExecutionResult, candidate: ExecutionResult): ExecutionResult {
    if Rank(candidate) > Rank(current) then candidate else current
  }

  /** The worst of the given results, whatever the order they are taken in. */
  ghost predicate Worst(results: seq<ExecutionResult>, r: ExecutionResult) {
    && (r == ExecutionResult.Completed || r in results)
    && (forall b | b in results :: Rank(b) <= Rank(r))
  }

  lemma WorstIsUnique(some: seq<ExecutionResult>, other: seq<ExecutionResult>, r: ExecutionResult, q: ExecutionResult)
    requires (forall b :: b in some <==> b in other) && Worst(some, r) && Worst(other, q)
    ensures r == q
  {
  }

  /** The worst result when they are taken one after the other. */
  function WorstOf(results: seq<ExecutionResult>): ExecutionResult {
    if results == [] then ExecutionResult.Completed
    else Worse(WorstOf(results[..|results| - 1]), results[|results| - 1])
  }

  lemma {:induction false} WorstOfIsWorst(results: seq<ExecutionResult>)
    ensures Worst(results, WorstOf(results))
  {
    if results != [] {
      var n := |results| - 1;
      WorstOfIsWorst(results[..n]);
      assert results == results[..n] + [results[n]];
    }
  }

  function Indices(n: nat): (s: set<int>)
    ensures forall k :: k in s <==> 0 <= k < n
  {
    if n == 0 then {} else Indices(n - 1) + {n - 1}
  }

  function Results(reports: seq<Option<ExecutionResult>>): (r: seq<ExecutionResult>)
    ensures |r| == |reports|
    ensures forall k | 0 <= k < |reports| && reports[k].Some? :: r[k] == reports[k].value
  {
    if reports == [] then []
    else
      var last := reports[|reports| - 1];
      Results(reports[..|reports| - 1]) + [if last.Some? then last.value else ExecutionResult.Failed]
  }

  /** The worst result, by name. */
  function WorstByName(reports: seq<Option<ExecutionResult>>): ExecutionResult {
    if Some(ExecutionResult.Running) in reports then ExecutionResult.Running
    else if Some(ExecutionResult.Failed) in reports then ExecutionResult.Failed
    else if Some(ExecutionResult.TimedOut) in reports then ExecutionResult.TimedOut
    else if Some(ExecutionResult.Cancelled) in reports then ExecutionResult.Cancelled
    else ExecutionResult.Completed
  }

  lemma WorstHasName(reports: seq<Option<ExecutionResult>>, r: ExecutionResult)
    requires forall k | 0 <= k < |reports| :: reports[k].Some? && Rank(reports[k].value) <= Rank(r)
    requires r == ExecutionResult.Completed || Some(r) in reports
    ensures r == WorstByName(reports)
  {
  }

  /** Branches report in any order; an error in one of them is the error of the group. */
  method CollectBranches(reports: seq<Option<ExecutionResult>>) returns (r: Option<ExecutionResult>)
    ensures r.Some? <==> forall k | 0 <= k < |reports| :: reports[k].Some?
    ensures r.Some? ==> Worst(Results(reports), r.value) && r.value == WorstOf(Results(reports))
    ensures r.Some? ==> r.value == WorstByName(reports)
  {
    var final := ExecutionResult.Completed;
    var todo: set<int> := Indices(|reports|);
    while exists k :: k in todo
      invariant forall k | k in todo :: 0 <= k < |reports|
      invariant forall k | 0 <= k < |reports| && k !in todo :: reports[k].Some? && Rank(reports[k].value) <= Rank(final)
      invariant final == ExecutionResult.Completed || exists k :: 0 <= k < |reports| && reports[k] == Some(final)
      decreases |todo|
    {
      var k :| k in todo;
      if reports[k].None? { return None; }
      final := Worse(final, reports[k].value);
      todo := todo - {k};
    }
    r := Some(final);
    ghost var results := Results(reports);
    if final != ExecutionResult.Completed {
      var k :| 0 <= k < |reports| && reports[k] == Some(final);
      assert results[k] == final;
    }
    if forall k | 0 <= k < |reports| :: reports[k].Some? {
      WorstOfIsWorst(results);
      WorstIsUnique(results, results, final, WorstOf(results));
      WorstHasName(reports, final);
    }
  }

  // ---------------------------------------------------------------- branches side by side

  /** An event of one of the branches. */
  datatype Mark = Mark(branch: nat, event: Event)

  /** What one branch does in an interleaving. */
  function Branch(merged: seq<Mark>, b: nat): seq<Event> {
    if merged == [] then []
    else
      var last := merged[|merged| - 1];
      Branch(merged[..|merged| - 1], b) + (if last.branch == b then [last.event] else [])
  }

  lemma BranchOn(merged: seq<Mark>, m: Mark, b: nat)
    ensures Branch(merged + [m], b) == Branch(merged, b) + (if m.branch == b then [m.event] else [])
  {
    assert (merged + [m])[..|merged|] == merged;
  }

  /** How many events are still to come. */
  function Left(traces: seq<seq<Event>>, done: seq<nat>): nat
    requires |done| == |traces| && forall b | 0 <= b < |traces| :: done[b] <= |traces[b]|
  {
    if traces == [] then 0
    else
      var n := |traces| - 1;
      Left(traces[..n], done[..n]) + (|traces[n]| - done[n])
  }

  lemma {:induction false} OneLess(traces: seq<seq<Event>>, done: seq<nat>, b: nat)
    requires |done| == |traces| && forall k | 0 <= k < |traces| :: done[k] <= |traces[k]|
    requires b < |traces| && done[b] < |traces[b]|
    ensures Left(traces, done[b := done[b] + 1]) == Left(traces, done) - 1
  {
    var n := |traces| - 1;
    if b < n {
      OneLess(traces[..n], done[..n], b);
      assert done[b := done[b] + 1][..n] == done[..n][b := done[b] + 1];
    } else {
      assert done[b := done[b] + 1][..n] == done[..n];
    }
  }

  /** So many events of each branch have happened, in their order. */
  ghost predicate Underway(traces: seq<seq<Event>>, done: seq<nat>, merged: seq<Mark>) {
    && |done| == |traces|
    && (forall b | 0 <= b < |traces| :: done[b] <= |traces[b]|)
    && (forall b | 0 <= b < |traces| :: Branch(merged, b) == traces[b][..done[b]])
    && (forall m | m in merged :: m.branch < |traces|)
  }

  lemma NothingMerged(traces: seq<seq<Event>>, done: seq<nat>)
    requires |done| == |traces| && forall b | 0 <= b < |traces| :: done[b] == 0
    ensures Underway(traces, done, [])
  {
  }

  lemma MergeOne(traces: seq<seq<Event>>, done: seq<nat>, merged: seq<Mark>, b: nat)
    requires Underway(traces, done, merged) && b < |traces| && done[b] < |traces[b]|
    ensures Underway(traces, done[b := done[b] + 1], merged + [Mark(b, traces[b][done[b]])])
  {
    hide Branch;
    var m := Mark(b, traces[b][done[b]]);
    forall k | 0 <= k < |traces| ensures Branch(merged + [m], k) == traces[k][..done[b := done[b] + 1][k]] {
      BranchOn(merged, m, k);
      if k == b { assert traces[b][..done[b] + 1] == traces[b][..done[b]] + [traces[b][done[b]]]; }
    }
  }

  lemma MergedAll(traces: seq<seq<Event>>, done: seq<nat>, merged: seq<Mark>)
    requires Underway(traces, done, merged) && forall b | 0 <= b < |traces| :: done[b] == |traces[b]|
    ensures forall b | 0 <= b < |traces| :: Branch(merged, b) == traces[b]
  {
    hide Branch;
    forall b | 0 <= b < |traces| ensures Branch(merged, b) == traces[b] {
      assert traces[b][..|traces[b]|] == traces[b];
    }
  }

  /** The branches run side by side: their events happen in whatever interleaving. */
  method Interleave(traces: seq<seq<Event>>) returns (merged: seq<Mark>)
    ensures forall b | 0 <= b < |traces| :: Branch(merged, b) == traces[b]
    ensures forall m | m in merged :: m.branch < |traces|
  {
    hide Branch;
    merged := [];
    var done: seq<nat> := seq(|traces|, _ => 0);
    assert Underway(traces, done, merged) by { NothingMerged(traces, done); }
    while exists b :: 0 <= b < |traces| && done[b] < |traces[b]|
      invariant Underway(traces, done, merged)
      decreases Left(traces, done)
    {
      var b: nat :| b < |traces| && done[b] < |traces[b]|;
      OneLess(traces, done, b);
      MergeOne(traces, done, merged, b);
      merged := merged + [Mark(b, traces[b][done[b]])];
      done := done[b := done[b] + 1];
    }
    MergedAll(traces, done, merged);
  }

  /** What a group execution tells: every branch kept its order, a branch stopped before its start ran
      nothing, and the group is COMPLETED exactly when no branch was stopped and none had a fatal
      action. */
  ghost predicate BranchTold(actions: seq<Action>, stopped: bool, report: Option<ExecutionResult>, trace: seq<Event>) {
    && StartsPrefix(actions, trace) && Ordered(actions, trace)
    && (stopped ==> trace == [] && report == Some(ExecutionResult.Cancelled))
    && (!stopped && report.Some? ==> Accounted(actions, report.value, trace))
  }

  /** The branches of a group, with one trace for all of them. */
  method ExecuteCueGroup(branches: seq<seq<Action>>, stopped: seq<bool>)
    returns (r: Option<ExecutionResult>, reports: seq<Option<ExecutionResult>>, merged: seq<Mark>)
    requires |stopped| == |branches|
    ensures |branches| == |reports| && forall m | m in merged :: m.branch < |branches|
    ensures forall b | 0 <= b < |branches| :: BranchTold(branches[b], stopped[b], reports[b], Branch(merged, b))
    ensures r.Some? ==> (r.value.Completed? <==>
              forall b | 0 <= b < |branches| :: !stopped[b] && reports[b] == Some(ExecutionResult.Completed))
  {
    hide StartsPrefix, Ordered, Accounted;
    reports := [];
    var traces: seq<seq<Event>> := [];
    for b := 0 to |branches|
      invariant |traces| == |reports| == b
      invariant forall k | 0 <= k < b :: BranchTold(branches[k], stopped[k], reports[k], traces[k])
    {
      if stopped[b] {
        EmptyPool(branches[b]);
        PoolTells(branches[b], 0, Pool([], {}, []));
        reports, traces := reports + [Some(ExecutionResult.Cancelled)], traces + [[]];
      } else {
        var report, trace := ExecuteActions(branches[b]);
        reports, traces := reports + [report], traces + [trace];
      }
    }
    merged := Interleave(traces);
    r := CollectBranches(reports);
    if r.Some? { CompletedGroup(reports, r.value); }
  }

  lemma CompletedGroup(reports: seq<Option<ExecutionResult>>, r: ExecutionResult)
    requires forall k | 0 <= k < |reports| :: reports[k].Some?
    requires Worst(Results(reports), r)
    ensures r.Completed? <==> forall k | 0 <= k < |reports| :: reports[k] == Some(ExecutionResult.Completed)
  {
    var results := Results(reports);
    forall k | 0 <= k < |reports| ensures reports[k] == Some(results[k]) && Rank(results[k]) <= Rank(r) {
      assert results[k] in results;
    }
    if !r.Completed? {
      var k :| 0 <= k < |results| && results[k] == r;
      assert reports[k] == Some(r);
    }
  }
}
