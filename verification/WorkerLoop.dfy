/**
 * The outbox worker loop (apps/worker/src/loop.ts): runs one after another on a
 * promise chain, wakes that arrive during a run coalesced into one more, and a
 * backoff after failures.
 *
 * The process is single-threaded, so what happens between two awaits is one step;
 * which await is answered next, how, and at what time is free.
 */
module WorkerLoop {
  const TICK_FAILURE_BACKOFF_MAX_MS := 30_000

  /** One piece of work on the chain.  It is running from its first dispatch to the end of its last run. */
  datatype Work = Waiting | Running | Finished

  datatype Event =
    | Wake(accepted: bool)
    | RunStarts(work: nat)
    | RunEnds(work: nat)
    | RunFails(work: nat, backoffMs: nat)
    | Stops

  datatype State = State(
    stopping: bool, ticking: bool, failures: nat, backoffUntil: int, pendingWake: bool, chain: seq<Work>,
    history: seq<Event>)

  datatype Step =
    | Tick(now: int)
    | RequestTick(now: int)
    | Begin(work: nat)
    | RunSucceeds(work: nat)
    | RunThrows(work: nat, now: int)
    | Stop

  function Pow2(n: nat): nat {
    if n == 0 then 1 else 2 * Pow2(n - 1)
  }

  function BackoffMs(poll: nat, failures: nat): nat
    requires failures > 0
  {
    var ms := poll * Pow2(failures - 1);
    if ms < TICK_FAILURE_BACKOFF_MAX_MS then ms else TICK_FAILURE_BACKOFF_MAX_MS
  }

  /** A tick is put on the chain, held back, or remembered for the run in progress. */
  function TickStep(s: State, now: int): State {
    if s.stopping || now < s.backoffUntil then s
    else if s.ticking then s.(pendingWake := true)
    else s.(chain := s.chain + [Waiting])
  }

  function RequestTickStep(s: State, now: int): State {
    var accepted := !s.stopping && (s.ticking || now >= s.backoffUntil);
    TickStep(s.(pendingWake := true, history := s.history + [Wake(accepted)]), now)
  }

  /** The head of the loop inside a piece of work: wakes so far are taken up by the run that starts. */
  function LoopHead(s: State, i: nat): State
    requires i < |s.chain|
  {
    if s.stopping then s.(pendingWake := false, ticking := false, chain := s.chain[i := Finished])
    else s.(pendingWake := false, ticking := true, chain := s.chain[i := Running], history := s.history + [RunStarts(i)])
  }

  predicate MayBegin(s: State, i: nat) {
    i < |s.chain| && s.chain[i].Waiting? && forall j :: 0 <= j < i ==> s.chain[j].Finished?
  }

  function SucceedStep(s: State, i: nat): State
    requires i < |s.chain|
  {
    var t := s.(failures := 0, backoffUntil := 0, history := s.history + [RunEnds(i)]);
    if t.pendingWake then LoopHead(t, i) else t.(ticking := false, chain := t.chain[i := Finished])
  }

  function ThrowStep(poll: nat, s: State, i: nat, now: int): State
    requires i < |s.chain|
  {
    var ms := BackoffMs(poll, s.failures + 1);
    s.(failures := s.failures + 1, backoffUntil := now + ms, ticking := false, chain := s.chain[i := Finished],
       history := s.history + [RunFails(i, ms)])
  }

  function Apply(poll: nat, s: State, step: Step): State {
    match step
    case Tick(now) => TickStep(s, now)
    case RequestTick(now) => RequestTickStep(s, now)
    case Begin(i) => if MayBegin(s, i) then LoopHead(s, i) else s
    case RunSucceeds(i) => if i < |s.chain| && s.chain[i].Running? then SucceedStep(s, i) else s
    case RunThrows(i, now) => if i < |s.chain| && s.chain[i].Running? then ThrowStep(poll, s, i, now) else s
    case Stop => s.(stopping := true, history := s.history + [Stops])
  }

  function Run(poll: nat, s: State, steps: seq<Step>): State {
    if steps == [] then s else Apply(poll, Run(poll, s, steps[..|steps| - 1]), steps[|steps| - 1])
  }

  const IDLE := State(false, false, 0, 0, false, [], [])

  // ------------------------------------------------------------- over the history

  /** Runs started and not yet ended. */
  function InFlight(h: seq<Event>): int {
    if h == [] then 0
    else
      var e := h[|h| - 1];
      InFlight(h[..|h| - 1]) + if e.RunStarts? then 1 else if e.RunEnds? || e.RunFails? then -1 else 0
  }

  /** Failures since the last run that ended well. */
  function FailuresSince(h: seq<Event>): nat {
    if h == [] then 0
    else
      var e := h[|h| - 1];
      if e.RunEnds? then 0 else FailuresSince(h[..|h| - 1]) + if e.RunFails? then 1 else 0
  }

  /** An accepted wake that no run has followed, nor a failure. */
  predicate Owed(h: seq<Event>) {
    h != [] &&
    var e := h[|h| - 1];
    (e.Wake? && e.accepted) || (!e.RunStarts? && !e.RunFails? && Owed(h[..|h| - 1]))
  }

  lemma HistoryGrows(h: seq<Event>, e: Event)
    ensures InFlight(h + [e]) == InFlight(h) + if e.RunStarts? then 1 else if e.RunEnds? || e.RunFails? then -1 else 0
    ensures FailuresSince(h + [e]) == if e.RunEnds? then 0 else FailuresSince(h) + if e.RunFails? then 1 else 0
    ensures Owed(h + [e]) <==> (e.Wake? && e.accepted) || (!e.RunStarts? && !e.RunFails? && Owed(h))
  {
    assert (h + [e])[..|h|] == h;
  }

  /** What is owed, event by event: some accepted wake with neither a start nor a failure after it. */
  lemma {:induction false} OwedIff(h: seq<Event>)
    ensures Owed(h) <==> exists k :: 0 <= k < |h| && WakeStands(h, k)
  {
    if h != [] {
      var most, e := h[..|h| - 1], h[|h| - 1];
      OwedIff(most);
      if k :| 0 <= k < |most| && WakeStands(most, k) {
        if !e.RunStarts? && !e.RunFails? {
          assert WakeStands(h, k);
        }
      }
      if e.Wake? && e.accepted {
        assert WakeStands(h, |h| - 1);
      }
      if k :| 0 <= k < |h| && WakeStands(h, k) {
        if k < |h| - 1 {
          assert h[|h| - 1] == e;
          assert WakeStands(most, k);
        }
      }
    }
  }

  ghost predicate WakeStands(h: seq<Event>, k: nat)
    requires k < |h|
  {
    h[k].Wake? && h[k].accepted && forall j :: k < j < |h| ==> !h[j].RunStarts? && !h[j].RunFails?
  }

  // -------------------------------------------------------------------- every run

  /** Work is done in the order of the chain, one at a time. */
  ghost predicate OneByOne(s: State) {
    && (forall i, j :: 0 <= i < j < |s.chain| && !s.chain[j].Waiting? ==> s.chain[i].Finished?)
    && (s.ticking <==> exists i :: 0 <= i < |s.chain| && s.chain[i].Running?)
  }

  /** At no point are two runs open. */
  ghost predicate NeverTwo(h: seq<Event>) {
    forall k :: 0 <= k <= |h| ==> 0 <= InFlight(h[..k]) <= 1
  }

  /** A failure after these events waits as long as they say. */
  ghost predicate BackoffOk(poll: nat, before: seq<Event>, e: Event) {
    e.RunFails? ==> e.backoffMs == BackoffMs(poll, FailuresSince(before) + 1)
  }

  ghost predicate BackoffsOk(poll: nat, h: seq<Event>) {
    forall k :: 0 <= k < |h| ==> BackoffOk(poll, h[..k], h[k])
  }

  ghost predicate Inv(poll: nat, s: State) {
    && OneByOne(s)
    && InFlight(s.history) == (if s.ticking then 1 else 0)
    && s.failures == FailuresSince(s.history)
    && BackoffsOk(poll, s.history) && NeverTwo(s.history)
    && (Owed(s.history) && !s.stopping ==>
          if s.ticking then s.pendingWake else exists i :: 0 <= i < |s.chain| && s.chain[i].Waiting?)
  }

  lemma EventsGrow(poll: nat, h: seq<Event>, e: Event)
    requires BackoffsOk(poll, h) && NeverTwo(h)
    requires e.RunFails? ==> e.backoffMs == BackoffMs(poll, FailuresSince(h) + 1)
    requires 0 <= InFlight(h + [e]) <= 1
    ensures BackoffsOk(poll, h + [e]) && NeverTwo(h + [e])
  {
    hide BackoffMs, FailuresSince, InFlight;
    BackoffsGrow(poll, h, e);
    var g := h + [e];
    assert g[..|g|] == g;
    forall k | 0 <= k <= |g| ensures 0 <= InFlight(g[..k]) <= 1 {
      assert g[..k] == if k <= |h| then h[..k] else g;
    }
  }

  lemma BackoffsGrow(poll: nat, h: seq<Event>, e: Event)
    requires BackoffsOk(poll, h) && BackoffOk(poll, h, e)
    ensures BackoffsOk(poll, h + [e])
  {
    hide BackoffOk;
    var g := h + [e];
    forall k | 0 <= k < |g| ensures BackoffOk(poll, g[..k], g[k]) {
      assert g[..k] == if k < |h| then h[..k] else h;
      assert k < |h| ==> BackoffOk(poll, h[..k], h[k]);
    }
  }

  lemma TickKeeps(poll: nat, s: State, now: int)
    requires Inv(poll, s)
    ensures Inv(poll, TickStep(s, now))
  {
    hide InFlight, FailuresSince, Owed, BackoffsOk, NeverTwo;
    var t := TickStep(s, now);
    assert forall i :: 0 <= i < |s.chain| ==> t.chain[i] == s.chain[i];
  }

  lemma WakeKeeps(poll: nat, s: State, now: int)
    requires Inv(poll, s)
    ensures Inv(poll, RequestTickStep(s, now))
  {
    hide InFlight, FailuresSince, Owed, BackoffsOk, NeverTwo;
    var accepted := !s.stopping && (s.ticking || now >= s.backoffUntil);
    HistoryGrows(s.history, Wake(accepted));
    EventsGrow(poll, s.history, Wake(accepted));
    var t := RequestTickStep(s, now);
    assert forall i :: 0 <= i < |s.chain| ==> t.chain[i] == s.chain[i];
    if accepted && !s.ticking {
      assert t.chain[|s.chain|].Waiting?;
    }
  }

  /** The head of the loop, from work that may run. */
  lemma HeadKeeps(poll: nat, s: State, i: nat)
    requires OneByOne(s.(ticking := exists j :: 0 <= j < |s.chain| && s.chain[j].Running?)) && i < |s.chain|
    requires !s.chain[i].Finished? && forall j :: 0 <= j < i ==> s.chain[j].Finished?
    requires InFlight(s.history) == 0 && s.failures == FailuresSince(s.history)
    requires BackoffsOk(poll, s.history) && NeverTwo(s.history)
    ensures Inv(poll, LoopHead(s, i))
  {
    hide InFlight, FailuresSince, Owed, BackoffsOk, NeverTwo;
    HistoryGrows(s.history, RunStarts(i));
    EventsGrow(poll, s.history, RunStarts(i));
    var t := LoopHead(s, i);
    forall j, k | 0 <= j < k < |t.chain| && !t.chain[k].Waiting? ensures t.chain[j].Finished? {
      assert k <= i;
    }
    if !s.stopping {
      assert t.chain[i].Running?;
    }
  }

  lemma SucceedKeeps(poll: nat, s: State, i: nat)
    requires Inv(poll, s) && i < |s.chain| && s.chain[i].Running?
    ensures Inv(poll, SucceedStep(s, i))
  {
    hide InFlight, FailuresSince, Owed, BackoffsOk, NeverTwo;
    HistoryGrows(s.history, RunEnds(i));
    EventsGrow(poll, s.history, RunEnds(i));
    var t := s.(failures := 0, backoffUntil := 0, history := s.history + [RunEnds(i)]);
    if s.pendingWake {
      HeadKeeps(poll, t, i);
    } else {
      Rests(s, i);
    }
  }

  /** The running work finishes: nothing runs, what waited still waits. */
  lemma Rests(s: State, i: nat)
    requires OneByOne(s) && i < |s.chain| && s.chain[i].Running?
    ensures OneByOne(s.(ticking := false, chain := s.chain[i := Finished]))
    ensures forall j :: 0 <= j < |s.chain| && s.chain[j].Waiting? ==> s.chain[i := Finished][j].Waiting?
  {
  }

  lemma ThrowKeeps(poll: nat, s: State, i: nat, now: int)
    requires Inv(poll, s) && i < |s.chain| && s.chain[i].Running?
    ensures Inv(poll, ThrowStep(poll, s, i, now))
  {
    hide InFlight, FailuresSince, Owed, BackoffsOk, NeverTwo;
    var e := RunFails(i, BackoffMs(poll, s.failures + 1));
    HistoryGrows(s.history, e);
    EventsGrow(poll, s.history, e);
    Rests(s, i);
  }

  lemma ApplyKeeps(poll: nat, s: State, step: Step)
    requires Inv(poll, s)
    ensures Inv(poll, Apply(poll, s, step))
  {
    hide InFlight, FailuresSince, Owed, BackoffsOk, NeverTwo, TickStep, RequestTickStep, LoopHead, SucceedStep, ThrowStep;
    match step
    case Tick(now) => TickKeeps(poll, s, now);
    case RequestTick(now) => WakeKeeps(poll, s, now);
    case Begin(i) =>
      if MayBegin(s, i) {
        HeadKeeps(poll, s, i);
      }
    case RunSucceeds(i) =>
      if i < |s.chain| && s.chain[i].Running? {
        SucceedKeeps(poll, s, i);
      }
    case RunThrows(i, now) =>
      if i < |s.chain| && s.chain[i].Running? {
        ThrowKeeps(poll, s, i, now);
      }
    case Stop =>
      HistoryGrows(s.history, Stops);
      EventsGrow(poll, s.history, Stops);
  }

  lemma {:induction false} RunKeeps(poll: nat, steps: seq<Step>)
    ensures Inv(poll, Run(poll, IDLE, steps))
  {
    if steps != [] {
      RunKeeps(poll, steps[..|steps| - 1]);
      ApplyKeeps(poll, Run(poll, IDLE, steps[..|steps| - 1]), steps[|steps| - 1]);
    }
  }

  // ------------------------------------------------------------------ main results

  /** No two runs overlap, at any point of any history, and the work on the chain runs one by one. */
  lemma RunsNeverOverlap(poll: nat, steps: seq<Step>, a: nat, b: nat)
    requires a < b < |Run(poll, IDLE, steps).history|
    requires Run(poll, IDLE, steps).history[a].RunStarts? && Run(poll, IDLE, steps).history[b].RunStarts?
    ensures exists k :: a < k < b && (Run(poll, IDLE, steps).history[k].RunEnds? || Run(poll, IDLE, steps).history[k].RunFails?)
  {
    hide InFlight, FailuresSince, Owed, BackoffsOk, Run;
    RunKeeps(poll, steps);
    var h := Run(poll, IDLE, steps).history;
    StartOpens(h, a);
    StartOpens(h, b);
    assert InFlight(h[..a]) >= 0 && InFlight(h[..b + 1]) <= 1;
    if forall k :: a < k < b ==> !h[k].RunEnds? && !h[k].RunFails? {
      NothingEnds(h, a + 1, b);
    }
  }

  lemma StartOpens(h: seq<Event>, a: nat)
    requires a < |h| && h[a].RunStarts?
    ensures InFlight(h[..a + 1]) == InFlight(h[..a]) + 1
  {
    assert h[..a + 1] == h[..a] + [h[a]];
    HistoryGrows(h[..a], h[a]);
  }

  lemma {:induction false} NothingEnds(h: seq<Event>, a: nat, b: nat)
    requires a <= b <= |h| && forall k :: a <= k < b ==> !h[k].RunEnds? && !h[k].RunFails?
    ensures InFlight(h[..b]) >= InFlight(h[..a])
    decreases b - a
  {
    if a < b {
      NothingEnds(h, a, b - 1);
      assert h[..b] == h[..b - 1] + [h[b - 1]];
      HistoryGrows(h[..b - 1], h[b - 1]);
    }
  }

  /**
   * A wake that arrives during a run is followed by a run that starts after it, at
   * the latest when that run ends, unless it fails or the loop is stopping.
   */
  lemma WakeDuringARunIsFollowed(poll: nat, steps: seq<Step>, i: nat, k: nat)
    requires var s := Run(poll, IDLE, steps);
             && i < |s.chain| && s.chain[i].Running? && !s.stopping
             && k < |s.history| && s.history[k].Wake? && s.history[k].accepted
             && forall j :: k < j < |s.history| ==> !s.history[j].RunFails?
    ensures var h := Apply(poll, Run(poll, IDLE, steps), RunSucceeds(i)).history;
            exists j :: k < j < |h| && h[j].RunStarts?
  {
    hide InFlight, FailuresSince, Owed, BackoffsOk, NeverTwo, Run;
    RunKeeps(poll, steps);
    var s := Run(poll, IDLE, steps);
    var h := Apply(poll, s, RunSucceeds(i)).history;
    OwedIff(s.history);
    if s.pendingWake {
      assert h[|s.history| + 1].RunStarts?;
    } else {
      assert !WakeStands(s.history, k);
      var j :| k < j < |s.history| && s.history[j].RunStarts?;
      assert h[j] == s.history[j];
    }
  }

  /** When nothing is left on the chain, every wake taken up has been followed by a run, or by a failure. */
  lemma NoWakeIsLost(poll: nat, steps: seq<Step>, k: nat)
    requires var s := Run(poll, IDLE, steps);
             && !s.stopping && (forall i :: 0 <= i < |s.chain| ==> s.chain[i].Finished?)
             && k < |s.history| && s.history[k].Wake? && s.history[k].accepted
    ensures var h := Run(poll, IDLE, steps).history; exists j :: k < j < |h| && (h[j].RunStarts? || h[j].RunFails?)
  {
    hide InFlight, FailuresSince, Owed, BackoffsOk, NeverTwo, Run;
    RunKeeps(poll, steps);
    var s := Run(poll, IDLE, steps);
    OwedIff(s.history);
    assert !WakeStands(s.history, k);
  }

  lemma StepGrows(poll: nat, s: State, step: Step)
    ensures s.history <= Apply(poll, s, step).history && (s.stopping ==> Apply(poll, s, step).stopping)
    ensures s.pendingWake && !s.stopping ==>
              var t := Apply(poll, s, step);
              t.pendingWake || (|t.history| > |s.history| && t.history[|t.history| - 1].RunStarts?)
    ensures s.stopping ==> var t := Apply(poll, s, step); forall k :: |s.history| <= k < |t.history| ==> !t.history[k].RunStarts?
  {
    hide BackoffMs;
  }

  /** What is remembered during a run stays remembered until a run starts. */
  lemma {:induction false} PendingStays(poll: nat, s: State, steps: seq<Step>)
    requires s.pendingWake && !Run(poll, s, steps).stopping
    ensures var t := Run(poll, s, steps);
            && s.history <= t.history
            && (t.pendingWake || exists k :: |s.history| <= k < |t.history| && t.history[k].RunStarts?)
  {
    hide Apply;
    if steps != [] {
      var most := steps[..|steps| - 1];
      StepGrows(poll, Run(poll, s, most), steps[|steps| - 1]);
      PendingStays(poll, s, most);
    }
  }

  /** A tick that comes during a run and is not held back is followed by a run that starts after it, when that run ends well. */
  lemma TickDuringARunIsFollowed(poll: nat, s: State, now: int, steps: seq<Step>, i: nat)
    requires s.ticking && !s.stopping && now >= s.backoffUntil
    requires var t := Run(poll, Apply(poll, s, Tick(now)), steps); i < |t.chain| && t.chain[i].Running? && !t.stopping
    ensures var h := Apply(poll, Run(poll, Apply(poll, s, Tick(now)), steps), RunSucceeds(i)).history;
            exists k :: |s.history| <= k < |h| && h[k].RunStarts?
  {
    hide Run;
    PendingStays(poll, Apply(poll, s, Tick(now)), steps);
    var t := Run(poll, Apply(poll, s, Tick(now)), steps);
    var h := Apply(poll, t, RunSucceeds(i)).history;
    if t.pendingWake {
      assert h[|t.history| + 1].RunStarts?;
    } else {
      var k :| |s.history| <= k < |t.history| && t.history[k].RunStarts?;
      assert h[k] == t.history[k];
    }
  }

  /** Once the loop was told to stop no run starts, whatever comes. */
  lemma {:induction false} NothingStartsAfterStop(poll: nat, s: State, steps: seq<Step>)
    ensures var t := Run(poll, Apply(poll, s, Stop), steps);
            t.stopping && forall k :: |s.history| <= k < |t.history| ==> !t.history[k].RunStarts?
  {
    hide Apply;
    if steps == [] {
      StopStops(poll, s);
    } else {
      var most := steps[..|steps| - 1];
      NothingStartsAfterStop(poll, s, most);
      StepGrows(poll, Run(poll, Apply(poll, s, Stop), most), steps[|steps| - 1]);
    }
  }

  lemma StopStops(poll: nat, s: State)
    ensures Apply(poll, s, Stop).stopping && Apply(poll, s, Stop).history == s.history + [Stops]
  {
  }

  function AtMost(ms: int, most: int): int {
    if ms < most then ms else most
  }

  lemma BackoffDoubles(poll: nat, failures: nat)
    requires failures > 0
    ensures BackoffMs(poll, 1) == AtMost(poll, 30_000)
    ensures BackoffMs(poll, failures + 1) == AtMost(2 * BackoffMs(poll, failures), 30_000)
  {
    assert poll * Pow2(failures) == 2 * (poll * Pow2(failures - 1));
    assert Pow2(0) == 1;
  }

  /** The failure before another, with no run in between that ended. */
  ghost predicate FailsBefore(h: seq<Event>, j: nat, k: nat)
    requires j < k <= |h|
  {
    h[j].RunFails? && forall m :: j < m < k ==> !h[m].RunFails? && !h[m].RunEnds?
  }

  lemma {:induction false} NothingCounted(h: seq<Event>, j: nat, k: nat)
    requires j <= k <= |h| && forall m :: j <= m < k ==> !h[m].RunFails? && !h[m].RunEnds?
    ensures FailuresSince(h[..k]) == FailuresSince(h[..j])
    decreases k - j
  {
    if j < k {
      NothingCounted(h, j, k - 1);
      assert h[..k] == h[..k - 1] + [h[k - 1]];
      HistoryGrows(h[..k - 1], h[k - 1]);
    }
  }

  /** Every failure so far was made good by a run that ended well after it. */
  ghost predicate MadeGood(h: seq<Event>, k: nat)
    requires k <= |h|
  {
    forall m :: 0 <= m < k && h[m].RunFails? ==> exists e :: m < e < k && h[e].RunEnds?
  }

  lemma {:induction false} NoneWhenMadeGood(h: seq<Event>, k: nat)
    requires k <= |h| && MadeGood(h, k)
    ensures FailuresSince(h[..k]) == 0
    decreases k
  {
    if k > 0 {
      assert h[..k] == h[..k - 1] + [h[k - 1]];
      HistoryGrows(h[..k - 1], h[k - 1]);
      if !h[k - 1].RunEnds? {
        NoneWhenMadeGood(h, k - 1);
      }
    }
  }

  /**
   * A failure with none before it, or none since a run ended well, waits one poll
   * interval; each further one waits twice as long as the one before; none waits
   * longer than half a minute.
   */
  lemma BackoffsDouble(poll: nat, steps: seq<Step>, k: nat)
    requires k < |Run(poll, IDLE, steps).history| && Run(poll, IDLE, steps).history[k].RunFails?
    ensures var h := Run(poll, IDLE, steps).history;
            && (MadeGood(h, k) ==> h[k].backoffMs == AtMost(poll, 30_000))
            && (forall j :: 0 <= j < k && FailsBefore(h, j, k) ==> h[k].backoffMs == AtMost(2 * h[j].backoffMs, 30_000))
            && h[k].backoffMs <= 30_000
  {
    hide Run, FailuresSince, BackoffMs, MadeGood;
    RunKeeps(poll, steps);
    var h := Run(poll, IDLE, steps).history;
    assert BackoffOk(poll, h[..k], h[k]);
    BackoffIsCapped(poll, FailuresSince(h[..k]) + 1);
    if MadeGood(h, k) {
      NoneWhenMadeGood(h, k);
      BackoffDoubles(poll, 1);
    }
    forall j | 0 <= j < k && FailsBefore(h, j, k) ensures h[k].backoffMs == AtMost(2 * h[j].backoffMs, 30_000) {
      NextFailureDoubles(poll, h, j, k);
    }
  }

  lemma NextFailureDoubles(poll: nat, h: seq<Event>, j: nat, k: nat)
    requires j < k < |h| && h[k].RunFails? && FailsBefore(h, j, k)
    requires BackoffOk(poll, h[..j], h[j]) && BackoffOk(poll, h[..k], h[k])
    ensures h[k].backoffMs == AtMost(2 * h[j].backoffMs, 30_000)
  {
    hide FailuresSince, BackoffMs;
    NothingCounted(h, j + 1, k);
    assert h[..j + 1] == h[..j] + [h[j]];
    HistoryGrows(h[..j], h[j]);
    BackoffDoubles(poll, FailuresSince(h[..j]) + 1);
  }

  lemma BackoffIsCapped(poll: nat, failures: nat)
    requires failures > 0
    ensures BackoffMs(poll, failures) <= 30_000
  {
  }

  /** How long ticks are held back: from the last failure for as long as it waits, unless a run ended well since. */
  function HeldUntil(poll: nat, steps: seq<Step>): int {
    if steps == [] then 0
    else
      var most, step := steps[..|steps| - 1], steps[|steps| - 1];
      var s, t := Run(poll, IDLE, most), Run(poll, IDLE, steps);
      match step
      case RunSucceeds(i) => if i < |s.chain| && s.chain[i].Running? then 0 else HeldUntil(poll, most)
      case RunThrows(i, now) =>
        if t.history != [] && t.history != s.history && t.history[|t.history| - 1].RunFails?
        then now + t.history[|t.history| - 1].backoffMs else HeldUntil(poll, most)
      case _ => HeldUntil(poll, most)
  }

  /** A tick puts work on the chain exactly outside stopping, a run, and the wait of the last failure. */
  lemma {:induction false} TicksAreHeld(poll: nat, steps: seq<Step>, now: int)
    ensures Run(poll, IDLE, steps).backoffUntil == HeldUntil(poll, steps)
    ensures var s := Run(poll, IDLE, steps);
            |Apply(poll, s, Tick(now)).chain| == |s.chain| + 1 <==>
            !s.stopping && !s.ticking && now >= HeldUntil(poll, steps)
  {
    hide BackoffMs;
    if steps != [] {
      TicksAreHeld(poll, steps[..|steps| - 1], now);
    }
  }

  /** In any run, the first work that waits starts a run as soon as nothing runs, unless the loop is stopping; then it ends. */
  lemma WaitingWorkRuns(poll: nat, steps: seq<Step>, i: nat)
    requires var s := Run(poll, IDLE, steps);
             && i < |s.chain| && s.chain[i].Waiting? && !s.ticking && forall j :: 0 <= j < i ==> !s.chain[j].Waiting?
    ensures var s := Run(poll, IDLE, steps); var t := Apply(poll, s, Begin(i));
            if s.stopping then t.history == s.history && t.chain == s.chain[i := Finished]
            else t.history == s.history + [RunStarts(i)] && t.chain == s.chain[i := Running] && t.ticking && !t.pendingWake
  {
    hide InFlight, FailuresSince, Owed, BackoffsOk, NeverTwo, Run;
    RunKeeps(poll, steps);
  }

  // -------------------------------------------------------------------- as it runs

  class Loop {
    const pollIntervalMs: nat
    var stopping: bool
    var ticking: bool
    var consecutiveTickFailures: nat
    var backoffUntil: int
    var pendingWake: bool
    var chain: seq<Work>
    ghost var history: seq<Event>

    ghost function Value(): State
      reads this
    {
      State(stopping, ticking, consecutiveTickFailures, backoffUntil, pendingWake, chain, history)
    }

    constructor (pollIntervalMs: nat)
      ensures Value() == IDLE && this.pollIntervalMs == pollIntervalMs
    {
      this.pollIntervalMs := pollIntervalMs;
      stopping, ticking, consecutiveTickFailures, backoffUntil, pendingWake := false, false, 0, 0, false;
      chain, history := [], [];
    }

    /** True when the work was put on the chain. */
    method TickAt(now: int) returns (queued: bool)
      modifies this
      ensures Value() == Apply(pollIntervalMs, old(Value()), Tick(now))
      ensures queued <==> !old(stopping) && now >= old(backoffUntil) && !old(ticking)
    {
      if stopping {
        return false;
      }
      if now < backoffUntil {
        return false;
      }
      if ticking {
        pendingWake := true;
        return false;
      }
      chain := chain + [Waiting];
      queued := true;
    }

    method Request(now: int)
      modifies this
      ensures Value() == Apply(pollIntervalMs, old(Value()), RequestTick(now))
    {
      pendingWake := true;
      history := history + [Wake(!stopping && (ticking || now >= backoffUntil))];
      var queued := TickAt(now);
    }

    /** Up to the dispatch of the next run, or the end of the work when the loop is stopping. */
    method Head(i: nat)
      requires i < |chain|
      modifies this
      ensures Value() == LoopHead(old(Value()), i)
    {
      pendingWake := false;
      if stopping {
        ticking := false;
        chain := chain[i := Finished];
        return;
      }
      ticking := true;
      chain := chain[i := Running];
      history := history + [RunStarts(i)];
    }

    method Succeed(i: nat)
      requires i < |chain| && chain[i].Running?
      modifies this
      ensures Value() == Apply(pollIntervalMs, old(Value()), RunSucceeds(i))
    {
      consecutiveTickFailures := 0;
      backoffUntil := 0;
      history := history + [RunEnds(i)];
      if pendingWake {
        Head(i);
      } else {
        ticking := false;
        chain := chain[i := Finished];
      }
    }

    method Throw(i: nat, now: int)
      requires i < |chain| && chain[i].Running?
      modifies this
      ensures Value() == Apply(pollIntervalMs, old(Value()), RunThrows(i, now))
    {
      consecutiveTickFailures := consecutiveTickFailures + 1;
      var backoffMs := BackoffMs(pollIntervalMs, consecutiveTickFailures);
      backoffUntil := now + backoffMs;
      ticking := false;
      chain := chain[i := Finished];
      history := history + [RunFails(i, backoffMs)];
    }
  }
}
