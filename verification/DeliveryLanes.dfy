/**
 * The deliveries of one run (apps/worker/src/loop.ts, runOnce): lanes that take the
 * next index from a shared cursor, execute it, and count what came of it.
 *
 * A lane runs alone between two awaits, so taking an index and counting an outcome
 * are each one step; which lane is next, and when the loop is told to stop, is free.
 */
module DeliveryLanes {
  datatype Outcome = Processed | AlreadyProcessed | Deferred | Failed | Threw

  datatype Lane = Ready | Executing(index: nat) | Ended

  datatype Counts = Counts(processed: nat, alreadyProcessed: nat, deferred: nat, failed: nat)

  /** `executed` records, in order, the index of every execution begun; `outcomes` how those that ended did. */
  datatype State = State(
    due: nat, stopping: bool, nextIndex: nat, lanes: seq<Lane>, counts: Counts, executed: seq<nat>,
    outcomes: seq<Outcome>)

  datatype Step = Take(lane: nat) | Settle(lane: nat, outcome: Outcome) | Stop

  function Lanes(concurrency: int, due: nat): nat {
    if due == 0 then 0 else if concurrency < 1 then 1 else if concurrency < due then concurrency else due
  }

  function Start(due: nat, concurrency: int): State {
    State(due, false, 0, seq(Lanes(concurrency, due), i => Ready), Counts(0, 0, 0, 0), [], [])
  }

  function Counted(c: Counts, outcome: Outcome): Counts {
    match outcome
    case Processed => c.(processed := c.processed + 1)
    case AlreadyProcessed => c.(alreadyProcessed := c.alreadyProcessed + 1)
    case Deferred => c.(deferred := c.deferred + 1)
    case Failed => c.(failed := c.failed + 1)
    case Threw => c.(failed := c.failed + 1)
  }

  function TakeStep(s: State, i: nat): State
    requires i < |s.lanes|
  {
    if s.stopping then s.(lanes := s.lanes[i := Ended])
    else if s.nextIndex >= s.due then s.(nextIndex := s.nextIndex + 1, lanes := s.lanes[i := Ended])
    else
      s.(nextIndex := s.nextIndex + 1, lanes := s.lanes[i := Executing(s.nextIndex)],
         executed := s.executed + [s.nextIndex])
  }

  function SettleStep(s: State, i: nat, outcome: Outcome): State
    requires i < |s.lanes|
  {
    s.(lanes := s.lanes[i := Ready], counts := Counted(s.counts, outcome), outcomes := s.outcomes + [outcome])
  }

  function Apply(s: State, step: Step): State {
    match step
    case Take(i) => if i < |s.lanes| && s.lanes[i].Ready? then TakeStep(s, i) else s
    case Settle(i, outcome) => if i < |s.lanes| && s.lanes[i].Executing? then SettleStep(s, i, outcome) else s
    case Stop => s.(stopping := true)
  }

  function Run(s: State, steps: seq<Step>): State {
    if steps == [] then s else Apply(Run(s, steps[..|steps| - 1]), steps[|steps| - 1])
  }

  predicate AllEnded(s: State) {
    forall i :: 0 <= i < |s.lanes| ==> s.lanes[i].Ended?
  }

  // ------------------------------------------------------------------- every run

  function InProgress(lanes: seq<Lane>): nat {
    if lanes == [] then 0 else InProgress(lanes[..|lanes| - 1]) + if lanes[|lanes| - 1].Executing? then 1 else 0
  }

  lemma {:induction false} InProgressUpdated(lanes: seq<Lane>, i: nat, lane: Lane)
    requires i < |lanes|
    ensures InProgress(lanes[i := lane]) ==
            InProgress(lanes) - (if lanes[i].Executing? then 1 else 0) + (if lane.Executing? then 1 else 0)
  {
    var n := |lanes| - 1;
    if i < n {
      InProgressUpdated(lanes[..n], i, lane);
      assert lanes[i := lane][..n] == lanes[..n][i := lane];
    } else {
      assert lanes[i := lane][..n] == lanes[..n];
    }
  }

  function Total(c: Counts): nat {
    c.processed + c.alreadyProcessed + c.deferred + c.failed
  }

  function Tally(outcomes: seq<Outcome>): Counts {
    if outcomes == [] then Counts(0, 0, 0, 0) else Counted(Tally(outcomes[..|outcomes| - 1]), outcomes[|outcomes| - 1])
  }

  /** Deliveries go out in order, each once; what is begun is counted or still in a lane. */
  ghost predicate Inv(s: State) {
    && |s.executed| == (if s.nextIndex < s.due then s.nextIndex else s.due)
    && (forall k :: 0 <= k < |s.executed| ==> s.executed[k] == k)
    && |s.executed| == |s.outcomes| + InProgress(s.lanes)
    && s.counts == Tally(s.outcomes) && Total(s.counts) == |s.outcomes|
    && (forall i :: 0 <= i < |s.lanes| && s.lanes[i].Ended? ==> s.stopping || s.nextIndex > s.due)
    && (s.nextIndex > s.due ==> exists i :: 0 <= i < |s.lanes| && s.lanes[i].Ended?)
    && (s.due > 0 ==> |s.lanes| > 0)
    && (forall i, j :: 0 <= i < j < |s.lanes| && s.lanes[i].Executing? && s.lanes[j].Executing? ==>
          s.lanes[i].index != s.lanes[j].index)
    && (forall i :: 0 <= i < |s.lanes| && s.lanes[i].Executing? ==> s.lanes[i].index < |s.executed|)
  }

  lemma {:induction false} NoneInProgress(n: nat)
    ensures InProgress(seq(n, i => Ready)) == 0
  {
    if n > 0 {
      assert seq(n, i => Ready)[..n - 1] == seq(n - 1, i => Ready);
      NoneInProgress(n - 1);
    }
  }

  lemma ApplyKeeps(s: State, step: Step)
    requires Inv(s)
    ensures Inv(Apply(s, step))
  {
    hide InProgress, Tally;
    match step
    case Take(i) =>
      if i < |s.lanes| && s.lanes[i].Ready? {
        TakeKeeps(s, i);
      }
    case Settle(i, outcome) =>
      if i < |s.lanes| && s.lanes[i].Executing? {
        SettleKeeps(s, i, outcome);
      }
    case Stop =>
  }

  lemma TakeKeeps(s: State, i: nat)
    requires Inv(s) && i < |s.lanes| && s.lanes[i].Ready?
    ensures Inv(TakeStep(s, i))
  {
    hide InProgress, Tally;
    var t := TakeStep(s, i);
    InProgressUpdated(s.lanes, i, t.lanes[i]);
    if s.nextIndex > s.due {
      var j :| 0 <= j < |s.lanes| && s.lanes[j].Ended?;
      assert t.lanes[j].Ended?;
    }
  }

  lemma SettleKeeps(s: State, i: nat, outcome: Outcome)
    requires Inv(s) && i < |s.lanes| && s.lanes[i].Executing?
    ensures Inv(SettleStep(s, i, outcome))
  {
    hide InProgress;
    var t := SettleStep(s, i, outcome);
    InProgressUpdated(s.lanes, i, Ready);
    assert t.outcomes[..|s.outcomes|] == s.outcomes;
    if s.nextIndex > s.due {
      var j :| 0 <= j < |s.lanes| && s.lanes[j].Ended?;
      assert t.lanes[j].Ended?;
    }
  }

  lemma StartIsOk(due: nat, concurrency: int)
    ensures Inv(Start(due, concurrency))
  {
    hide InProgress;
    NoneInProgress(Lanes(concurrency, due));
  }

  lemma ApplyKeepsSize(s: State, step: Step)
    ensures Apply(s, step).due == s.due && |Apply(s, step).lanes| == |s.lanes|
  {
  }

  lemma {:induction false} RunKeeps(due: nat, concurrency: int, steps: seq<Step>)
    ensures Inv(Run(Start(due, concurrency), steps)) && Run(Start(due, concurrency), steps).due == due
    ensures |Run(Start(due, concurrency), steps).lanes| == Lanes(concurrency, due)
  {
    hide Inv, Apply;
    if steps == [] {
      StartIsOk(due, concurrency);
    } else {
      var before := Run(Start(due, concurrency), steps[..|steps| - 1]);
      RunKeeps(due, concurrency, steps[..|steps| - 1]);
      ApplyKeeps(before, steps[|steps| - 1]);
      ApplyKeepsSize(before, steps[|steps| - 1]);
    }
  }

  /**
   * However the lanes interleave, no delivery is executed twice, and no more at a time
   * than the concurrency asked for, which is at least one, or than are due; there are
   * as many lanes as the smaller of the two.
   */
  lemma EachAtMostOnce(due: nat, concurrency: int, steps: seq<Step>)
    ensures var s := Run(Start(due, concurrency), steps);
            && (forall a, b :: 0 <= a < b < |s.executed| ==> s.executed[a] != s.executed[b])
            && (forall k :: k in s.executed ==> k < due)
            && InProgress(s.lanes) <= due
            && InProgress(s.lanes) <= (if concurrency > 1 then concurrency else 1)
            && |s.lanes| <= due && |s.lanes| <= (if concurrency > 1 then concurrency else 1)
            && (due > 0 ==> |s.lanes| == due || |s.lanes| == if concurrency > 1 then concurrency else 1)
  {
    hide InProgress, Tally, Run;
    RunKeeps(due, concurrency, steps);
    LanesBound(Run(Start(due, concurrency), steps).lanes);
  }

  lemma {:induction false} LanesBound(lanes: seq<Lane>)
    ensures InProgress(lanes) <= |lanes|
    ensures (forall i :: 0 <= i < |lanes| ==> lanes[i].Ended?) ==> InProgress(lanes) == 0
  {
    if lanes != [] {
      LanesBound(lanes[..|lanes| - 1]);
    }
  }

  /** Once the loop was told to stop nothing more is executed, and a lane that asks for more ends. */
  lemma {:induction false} NothingBeginsAfterStop(s: State, steps: seq<Step>)
    ensures var t := Run(Apply(s, Stop), steps);
            && t.stopping && t.executed == s.executed && |t.lanes| == |s.lanes|
            && forall i :: 0 <= i < |s.lanes| && t.lanes[i].Ready? ==> Apply(t, Take(i)).lanes[i].Ended?
  {
    if steps != [] {
      NothingBeginsAfterStop(s, steps[..|steps| - 1]);
    }
  }

  /** How often an outcome came. */
  function Times(outcomes: seq<Outcome>, outcome: Outcome): nat {
    multiset(outcomes)[outcome]
  }

  lemma {:induction false} TallyIs(outcomes: seq<Outcome>)
    ensures Tally(outcomes) == Counts(Times(outcomes, Processed), Times(outcomes, AlreadyProcessed),
                                      Times(outcomes, Deferred), Times(outcomes, Failed) + Times(outcomes, Threw))
  {
    if outcomes != [] {
      TallyIs(outcomes[..|outcomes| - 1]);
      assert outcomes == outcomes[..|outcomes| - 1] + [outcomes[|outcomes| - 1]];
    }
  }

  /**
   * When every lane has ended, the four counters sum to the deliveries executed;
   * they are all the deliveries unless the loop was told to stop.  Each counter is how
   * often its outcome came, and a throw is counted as a failure.
   */
  lemma AllAreCounted(due: nat, concurrency: int, steps: seq<Step>)
    requires AllEnded(Run(Start(due, concurrency), steps))
    ensures var s := Run(Start(due, concurrency), steps);
            && Total(s.counts) == |s.executed| == |s.outcomes|
            && s.counts == Counts(Times(s.outcomes, Processed), Times(s.outcomes, AlreadyProcessed),
                                  Times(s.outcomes, Deferred), Times(s.outcomes, Failed) + Times(s.outcomes, Threw))
            && (!s.stopping ==> |s.executed| == due && forall k: nat :: k < due ==> k in s.executed)
  {
    hide Run;
    RunKeeps(due, concurrency, steps);
    var s := Run(Start(due, concurrency), steps);
    LanesBound(s.lanes);
    TallyIs(s.outcomes);
    if !s.stopping && due > 0 {
      assert s.lanes[0].Ended?;
      forall k: nat | k < due ensures k in s.executed {
        assert s.executed[k] == k;
      }
    }
  }

  // ------------------------------------------------------------------ as it runs

  class RunOnce {
    const due: nat
    var stopping: bool
    var nextIndex: nat
    var lanes: seq<Lane>
    var counts: Counts
    ghost var executed: seq<nat>
    ghost var outcomes: seq<Outcome>

    ghost function Value(): State
      reads this
    {
      State(due, stopping, nextIndex, lanes, counts, executed, outcomes)
    }

    constructor (due: nat, concurrency: int)
      ensures Value() == Start(due, concurrency)
    {
      this.due := due;
      stopping, nextIndex, counts := false, 0, Counts(0, 0, 0, 0);
      lanes := seq(Lanes(concurrency, due), i => Ready);
      executed, outcomes := [], [];
    }

    /** The head of a lane's loop: the delivery it executes next, if there is one. */
    method TakeNext(lane: nat) returns (index: int)
      requires lane < |lanes| && lanes[lane].Ready?
      modifies this
      ensures Value() == Apply(old(Value()), Take(lane))
      ensures index >= 0 <==> !old(stopping) && old(nextIndex) < due
      ensures index >= 0 ==> index == old(nextIndex)
    {
      if stopping {
        lanes := lanes[lane := Ended];
        return -1;
      }
      index := nextIndex;
      nextIndex := nextIndex + 1;
      if index >= due {
        lanes := lanes[lane := Ended];
        return -1;
      }
      lanes := lanes[lane := Executing(index)];
      executed := executed + [index];
    }

    method Count(lane: nat, outcome: Outcome)
      requires lane < |lanes| && lanes[lane].Executing?
      modifies this
      ensures Value() == Apply(old(Value()), Settle(lane, outcome))
    {
      match outcome {
        case Processed => counts := counts.(processed := counts.processed + 1);
        case AlreadyProcessed => counts := counts.(alreadyProcessed := counts.alreadyProcessed + 1);
        case Deferred => counts := counts.(deferred := counts.deferred + 1);
        case Failed => counts := counts.(failed := counts.failed + 1);
        case Threw => counts := counts.(failed := counts.failed + 1);
      }
      lanes := lanes[lane := Ready];
      outcomes := outcomes + [outcome];
    }
  }
}
