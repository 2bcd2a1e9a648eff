/**
 * What every run of the budget protocol keeps, and exactly where it stops keeping
 * it (packages/assistant-runtime/src/assistant-budget-guard.ts).
 */
module BudgetTheorems {
  import opened Wrappers
  import opened BudgetHold
  import opened BudgetGuard

  // ------------------------------------------------------------------- the books

  /** At no point was more given back on a counter than was unaccounted for there. */
  ghost predicate NeverOverdrawn(cfg: Config, h: seq<Event>, k: Counter) {
    NeverShort(cfg, h, k) && Leaked(cfg, h, k) >= 0
  }

  /**
   * Every counter stays within its cap, and one never overdrawn holds exactly what
   * its recorded holds, the operations in flight and the leaks account for, so the
   * first two at least.
   */
  lemma BooksBalance(cfg: Config, steps: seq<Step>, k: Counter)
    requires RoundTrips(cfg)
    ensures var t := Run(cfg, EMPTY, steps);
            && At(t.spent, k) <= (if CapOf(cfg, k) > 0 then CapOf(cfg, k) else 0)
            && (NeverOverdrawn(cfg, t.history, k) ==>
                  && At(t.spent, k) == RecordedSum(cfg, t.holds, k) + OwnedSum(t.ops, k) + Leaked(cfg, t.history, k)
                  && Covers(cfg, t, k))
  {
    hide Run, NeverShort, RecordedSum, OwnedSum, Leaked;
    RunKeeps(cfg, steps);
    var t := Run(cfg, EMPTY, steps);
    assert CapOk(cfg, t, k);
  }

  /** The same for the guard as it is wired, whatever its caps. */
  lemma BooksBalanceAsWired(companyCap: int, globalCap: int, other: OtherNumbers, steps: seq<Step>, k: Counter)
    ensures var cfg := GuardConfig(companyCap, globalCap, other); var t := Run(cfg, EMPTY, steps);
            && At(t.spent, k) <= (if CapOf(cfg, k) > 0 then CapOf(cfg, k) else 0)
            && (NeverOverdrawn(cfg, t.history, k) ==> Covers(cfg, t, k))
  {
    hide Run, RecordedSum, OwnedSum, Leaked, NeverOverdrawn;
    BooksBalance(GuardConfig(companyCap, globalCap, other), steps, k);
  }

  lemma StepAddsOne(cfg: Config, s: State, step: Step, k: Counter)
    ensures var t := Apply(cfg, s, step);
            t.history == s.history || exists e :: t.history == s.history + [e]
    ensures NeverOverdrawn(cfg, Apply(cfg, s, step).history, k) ==> NeverOverdrawn(cfg, s.history, k)
    ensures NeverOverdrawn(cfg, s.history, k) ==> NeverShort(cfg, Apply(cfg, s, step).history, k)
  {
    hide OpAfter, SpentAfter, HoldsAfter, Leaked, NeverShort;
    var t := Apply(cfg, s, step);
    if t.history != s.history {
      var e := t.history[|s.history|];
      assert t.history == s.history + [e];
      HistoryGrows(cfg, s.history, e, TurnOf(e), k);
    }
  }

  ghost predicate AlwaysCovers(cfg: Config, steps: seq<Step>, k: Counter) {
    forall n :: 0 <= n <= |steps| ==> Covers(cfg, Run(cfg, EMPTY, steps[..n]), k)
  }

  /** A counter held enough all through a run exactly when it was never overdrawn. */
  lemma {:induction false} BooksHoldIff(cfg: Config, steps: seq<Step>, k: Counter)
    requires RoundTrips(cfg)
    ensures AlwaysCovers(cfg, steps, k) <==> NeverOverdrawn(cfg, Run(cfg, EMPTY, steps).history, k)
  {
    hide Apply, Covers, NeverOverdrawn;
    assert steps[..|steps|] == steps;
    if steps == [] {
      NothingOwed(cfg, k);
    } else {
      var most := steps[..|steps| - 1];
      BooksHoldIff(cfg, most, k);
      AlwaysGrows(cfg, steps, k);
      LastStepHolds(cfg, steps, k);
    }
  }

  lemma RunOne(cfg: Config, s: State, steps: seq<Step>, step: Step)
    ensures Run(cfg, s, steps + [step]) == Apply(cfg, Run(cfg, s, steps), step)
  {
    assert (steps + [step])[..|steps|] == steps;
  }

  lemma NothingOwed(cfg: Config, k: Counter)
    ensures NeverOverdrawn(cfg, [], k) && Covers(cfg, EMPTY, k)
  {
  }

  lemma AlwaysGrows(cfg: Config, steps: seq<Step>, k: Counter)
    requires steps != []
    ensures AlwaysCovers(cfg, steps, k) <==>
            AlwaysCovers(cfg, steps[..|steps| - 1], k) && Covers(cfg, Run(cfg, EMPTY, steps), k)
  {
    hide Run, Covers;
    var most := steps[..|steps| - 1];
    assert steps[..|steps|] == steps;
    forall n | 0 <= n <= |steps|
      ensures steps[..n] == if n <= |most| then most[..n] else steps
    {
    }
    if AlwaysCovers(cfg, steps, k) {
      AlwaysBefore(cfg, steps, k);
    }
  }

  lemma AlwaysBefore(cfg: Config, steps: seq<Step>, k: Counter)
    requires steps != [] && AlwaysCovers(cfg, steps, k)
    ensures AlwaysCovers(cfg, steps[..|steps| - 1], k) && Covers(cfg, Run(cfg, EMPTY, steps), k)
  {
    hide Run, Covers;
    var most := steps[..|steps| - 1];
    assert steps[..|steps|] == steps;
    assert Covers(cfg, Run(cfg, EMPTY, steps[..|steps|]), k);
    forall n | 0 <= n <= |most| ensures Covers(cfg, Run(cfg, EMPTY, most[..n]), k) {
      assert most[..n] == steps[..n];
    }
  }

  /** The last step of a run that held so far: it holds exactly when it does not overdraw. */
  lemma LastStepHolds(cfg: Config, steps: seq<Step>, k: Counter)
    requires RoundTrips(cfg) && steps != []
    ensures var h, t := Run(cfg, EMPTY, steps[..|steps| - 1]).history, Run(cfg, EMPTY, steps);
            && (NeverOverdrawn(cfg, t.history, k) ==> NeverOverdrawn(cfg, h, k))
            && (NeverOverdrawn(cfg, h, k) ==> (Covers(cfg, t, k) <==> NeverOverdrawn(cfg, t.history, k)))
  {
    hide Apply, RecordedSum, OwnedSum, Leaked, NeverShort;
    var s := Run(cfg, EMPTY, steps[..|steps| - 1]);
    StepAddsOne(cfg, s, steps[|steps| - 1], k);
    RunKeeps(cfg, steps);
    assert NeverOverdrawn(cfg, s.history, k) ==> Balanced(cfg, Run(cfg, EMPTY, steps), k);
  }

  // ------------------------------------------- runs in which nothing is overdrawn

  /** A drop that gives back, on this counter, no more than its record held there. */
  predicate Modest(cfg: Config, e: Event, k: Counter) {
    Drops(e) && (k == CompanyKey(e.was.turn) || k == GlobalKey(e.was.turn)) ==>
      Share(e.was.turn, e.was.phase.hold, k) <= TextShare(cfg, e.was.turn, e.held.value, k)
  }

  lemma {:induction false} ModestNeverOverdraws(cfg: Config, h: seq<Event>, k: Counter)
    requires forall j :: 0 <= j < |h| ==> Modest(cfg, h[j], k)
    ensures NeverOverdrawn(cfg, h, k)
    ensures (forall j :: 0 <= j < |h| ==> LeakOf(cfg, h[j], k) == 0) ==> Leaked(cfg, h, k) == 0
  {
    if h != [] {
      var most, e := h[..|h| - 1], h[|h| - 1];
      ModestNeverOverdraws(cfg, most, k);
      assert most + [e] == h;
      HistoryGrows(cfg, most, e, TurnOf(e), k);
      assert Modest(cfg, e, k);
    }
  }

  /**
   * What other counters suffer does not matter: as long as the releases that touch
   * this one give back no more than they find recorded, it holds enough, and with
   * nothing leaked exactly as much as the records and the operations say.
   */
  lemma CounterStandsAlone(cfg: Config, steps: seq<Step>, k: Counter)
    requires RoundTrips(cfg)
    requires var h := Run(cfg, EMPTY, steps).history; forall j :: 0 <= j < |h| ==> Modest(cfg, h[j], k)
    ensures var t := Run(cfg, EMPTY, steps);
            && Covers(cfg, t, k)
            && ((forall j :: 0 <= j < |t.history| ==> LeakOf(cfg, t.history[j], k) == 0) ==>
                  At(t.spent, k) == RecordedSum(cfg, t.holds, k) + OwnedSum(t.ops, k))
  {
    hide Run, NeverOverdrawn, Modest, LeakOf, RecordedSum, OwnedSum, Leaked;
    BooksBalance(cfg, steps, k);
    ModestNeverOverdraws(cfg, Run(cfg, EMPTY, steps).history, k);
  }

  /** What an attempt of this amount charges under these caps. */
  function Taken(cfg: Config, amount: nat): Amounts {
    Amounts(if cfg.companyCap > 0 then amount else 0, if cfg.globalCap > 0 then amount else 0)
  }

  /** One amount for each turn, releases that pass it on, and no record of another build. */
  predicate Regular(cfg: Config, step: Step, amountOf: Turn -> nat) {
    match step
    case Enforce(turn, amount, _) => amount == amountOf(turn)
    case Release(turn, hold) => hold == Taken(cfg, amountOf(turn))
    case Call(_, _) => true
    case ForeignHold(_, _) => false
  }

  predicate RegularPhase(phase: Phase, taken: Amounts) {
    match phase
    case Bucket(hold, _) => hold == taken
    case Drop(hold, next) => hold == taken && RegularPhase(next, taken)
    case Undo(next) => RegularPhase(next, taken)
    case Give(next) => RegularPhase(next, taken)
    case _ => true
  }

  predicate RegularOp(cfg: Config, op: Op, amount: nat) {
    && RegularPhase(op.phase, Taken(cfg, amount))
    && (op.phase.AddCompany? || op.phase.AddGlobal? || op.phase.Claim? ==> op.amount == amount)
    && (op.phase.AddCompany? ==> cfg.companyCap > 0 && op.owned == NOTHING)
    && (op.phase.AddGlobal? ==> cfg.globalCap > 0 && op.owned == Amounts(Taken(cfg, amount).company, 0))
    && (op.phase.Claim? ==> op.owned == Taken(cfg, amount))
  }

  predicate RegularEvent(cfg: Config, e: Event, amountOf: Turn -> nat) {
    && e.Called?
    && (e.held.Some? ==> e.held.value == cfg.encode(Taken(cfg, amountOf(e.was.turn))))
    && (Drops(e) ==> e.was.phase.hold == Taken(cfg, amountOf(e.was.turn)))
  }

  ghost predicate RegularState(cfg: Config, s: State, amountOf: Turn -> nat) {
    && (forall turn :: turn in s.holds ==> s.holds[turn] == cfg.encode(Taken(cfg, amountOf(turn))))
    && (forall i :: 0 <= i < |s.ops| ==> RegularOp(cfg, s.ops[i], amountOf(s.ops[i].turn)))
    && (forall j :: 0 <= j < |s.history| ==> RegularEvent(cfg, s.history[j], amountOf))
  }

  lemma RegularCall(cfg: Config, s: State, i: nat, answer: Answer, amountOf: Turn -> nat)
    requires RoundTrips(cfg) && i < |s.ops| && OpOk(s.ops[i]) && RegularOp(cfg, s.ops[i], amountOf(s.ops[i].turn))
    requires s.ops[i].turn in s.holds ==> s.holds[s.ops[i].turn] == cfg.encode(Taken(cfg, amountOf(s.ops[i].turn)))
    ensures var next := OpAfter(cfg, s.spent, s.holds, s.ops[i], answer);
            next.turn == s.ops[i].turn && RegularOp(cfg, next, amountOf(next.turn))
    ensures RegularEvent(cfg, CallOf(s, i, answer), amountOf)
  {
  }

  lemma RegularStep(cfg: Config, s: State, step: Step, amountOf: Turn -> nat)
    requires RoundTrips(cfg) && Inv(cfg, s) && RegularState(cfg, s, amountOf) && Regular(cfg, step, amountOf)
    ensures RegularState(cfg, Apply(cfg, s, step), amountOf)
  {
    hide OpAfter, SpentAfter, RegularOp, RegularEvent, NeverShort, Balanced, Standing, CapOk;
    match step {
      case Call(i, answer) =>
        if i < |s.ops| {
          RegularCall(cfg, s, i, answer, amountOf);
          RegularHolds(cfg, s, i, answer, amountOf);
        }
      case Enforce(turn, amount, skip) => FirstIsRegular(cfg, turn, amount, skip);
      case Release(turn, hold) => ReleaseIsRegular(cfg, turn, hold, amountOf(turn));
      case ForeignHold(_, _) =>
    }
  }

  lemma RegularHolds(cfg: Config, s: State, i: nat, answer: Answer, amountOf: Turn -> nat)
    requires RegularState(cfg, s, amountOf) && i < |s.ops|
    ensures forall turn :: turn in HoldsAfter(cfg, s.holds, s.ops[i], answer.Answers?) ==>
              HoldsAfter(cfg, s.holds, s.ops[i], answer.Answers?)[turn] == cfg.encode(Taken(cfg, amountOf(turn)))
  {
    assert RegularOp(cfg, s.ops[i], amountOf(s.ops[i].turn));
  }

  lemma FirstIsRegular(cfg: Config, turn: Turn, amount: nat, skip: bool)
    ensures RegularOp(cfg, Op(turn, amount, skip, NOTHING, FirstPhase(cfg)), amount)
  {
  }

  lemma ReleaseIsRegular(cfg: Config, turn: Turn, hold: Amounts, amount: nat)
    requires hold == Taken(cfg, amount)
    ensures RegularOp(cfg, Op(turn, 0, true, NOTHING, Drop(hold, Finished(Released))), amount)
  {
  }

  lemma {:induction false} RegularRun(cfg: Config, steps: seq<Step>, amountOf: Turn -> nat)
    requires RoundTrips(cfg) && forall n :: 0 <= n < |steps| ==> Regular(cfg, steps[n], amountOf)
    ensures RegularState(cfg, Run(cfg, EMPTY, steps), amountOf)
  {
    hide Apply, Regular, Inv;
    if steps != [] {
      RunKeeps(cfg, steps[..|steps| - 1]);
      RegularRun(cfg, steps[..|steps| - 1], amountOf);
      RegularStep(cfg, Run(cfg, EMPTY, steps[..|steps| - 1]), steps[|steps| - 1], amountOf);
    }
  }

  /**
   * Where each turn has one amount, releases pass it on and every record is this
   * build's own, every counter holds enough, and exactly enough as long as no
   * subtraction fails.
   */
  lemma RegularRunsBalance(cfg: Config, steps: seq<Step>, amountOf: Turn -> nat, k: Counter)
    requires RoundTrips(cfg) && forall n :: 0 <= n < |steps| ==> Regular(cfg, steps[n], amountOf)
    ensures var t := Run(cfg, EMPTY, steps);
            && Covers(cfg, t, k)
            && ((forall j :: 0 <= j < |t.history| ==> !GivesUp(t.history[j])) ==>
                  At(t.spent, k) == RecordedSum(cfg, t.holds, k) + OwnedSum(t.ops, k))
  {
    hide Run, Regular, RecordedSum, OwnedSum;
    RegularRun(cfg, steps, amountOf);
    var h := Run(cfg, EMPTY, steps).history;
    forall j | 0 <= j < |h|
      ensures Modest(cfg, h[j], k) && (!GivesUp(h[j]) ==> LeakOf(cfg, h[j], k) == 0)
    {
      RegularLeaks(cfg, h[j], amountOf, k);
    }
    CounterStandsAlone(cfg, steps, k);
  }

  lemma RegularLeaks(cfg: Config, e: Event, amountOf: Turn -> nat, k: Counter)
    requires RoundTrips(cfg) && RegularEvent(cfg, e, amountOf)
    ensures Modest(cfg, e, k) && (!GivesUp(e) ==> LeakOf(cfg, e, k) == 0)
  {
    assert e.held.Some? ==> cfg.decode(e.held.value) == Some(Taken(cfg, amountOf(e.was.turn)));
  }

  // --------------------------------------------------------- records and subtractions

  /** One recorded hold per turn at most, and one drop for each at most. */
  lemma OneHoldPerTurn(cfg: Config, steps: seq<Step>, turn: Turn)
    requires RoundTrips(cfg)
    ensures var t := Run(cfg, EMPTY, steps);
            0 <= Standing(t.history, turn) <= 1 && (Standing(t.history, turn) == 1 <==> turn in t.holds)
  {
    hide Run, Standing;
    RunKeeps(cfg, steps);
  }

  /** What a call took off a counter for a record that was dropped. */
  function TookOff(e: Event, turn: Turn, k: Counter): nat {
    if e.Called? && e.was.turn == turn && e.was.phase.Give? && e.answer.Answers? then
      if e.was.owned.company > 0 then if k == CompanyKey(turn) then e.was.owned.company else 0
      else if k == GlobalKey(turn) then e.was.owned.global else 0
    else 0
  }

  function Subtracted(h: seq<Event>, turn: Turn, k: Counter): nat {
    if h == [] then 0 else Subtracted(h[..|h| - 1], turn, k) + TookOff(h[|h| - 1], turn, k)
  }

  /** What the drops of a turn's records were given to take off. */
  function PassedBy(e: Event, turn: Turn, k: Counter): nat {
    if TurnOf(e) == turn && Drops(e) then Share(turn, e.was.phase.hold, k) else 0
  }

  function Passed(h: seq<Event>, turn: Turn, k: Counter): nat {
    if h == [] then 0 else Passed(h[..|h| - 1], turn, k) + PassedBy(h[|h| - 1], turn, k)
  }

  function StillToGive(op: Op, turn: Turn, k: Counter): nat {
    if op.turn == turn && op.phase.Give? then Share(turn, op.owned, k) else 0
  }

  function ToGive(ops: seq<Op>, turn: Turn, k: Counter): nat {
    if ops == [] then 0 else ToGive(ops[..|ops| - 1], turn, k) + StillToGive(ops[|ops| - 1], turn, k)
  }

  lemma {:induction false} ToGiveUpdated(ops: seq<Op>, i: nat, op: Op, turn: Turn, k: Counter)
    requires i < |ops|
    ensures ToGive(ops[i := op], turn, k) ==
            ToGive(ops, turn, k) - StillToGive(ops[i], turn, k) + StillToGive(op, turn, k)
  {
    var n := |ops| - 1;
    if i < n {
      ToGiveUpdated(ops[..n], i, op, turn, k);
      assert ops[i := op][..n] == ops[..n][i := op];
    } else {
      assert ops[i := op][..n] == ops[..n];
    }
  }

  lemma CallTakesWhatIsThere(cfg: Config, s: State, i: nat, answer: Answer, turn: Turn, k: Counter)
    requires i < |s.ops| && OpOk(s.ops[i])
    ensures var e, next := CallOf(s, i, answer), OpAfter(cfg, s.spent, s.holds, s.ops[i], answer);
            TookOff(e, turn, k) + StillToGive(next, turn, k) <= PassedBy(e, turn, k) + StillToGive(s.ops[i], turn, k)
  {
  }

  lemma StepTakesWhatIsThere(cfg: Config, s: State, step: Step, turn: Turn, k: Counter)
    requires Inv(cfg, s) && Subtracted(s.history, turn, k) + ToGive(s.ops, turn, k) <= Passed(s.history, turn, k)
    ensures var t := Apply(cfg, s, step);
            Subtracted(t.history, turn, k) + ToGive(t.ops, turn, k) <= Passed(t.history, turn, k)
  {
    hide OpAfter, SpentAfter, HoldsAfter, TookOff, PassedBy, NeverShort, Balanced, Standing, CapOk;
    var t := Apply(cfg, s, step);
    match step {
      case Call(i, answer) =>
        if i < |s.ops| {
          assert t.history[..|s.history|] == s.history;
          CallTakesWhatIsThere(cfg, s, i, answer, turn, k);
          ToGiveUpdated(s.ops, i, OpAfter(cfg, s.spent, s.holds, s.ops[i], answer), turn, k);
        }
      case ForeignHold(_, _) =>
        if t.history != s.history {
          assert t.history[..|s.history|] == s.history;
          ForeignTakesNothing(t.history[|s.history|], turn, k);
        }
      case _ => assert t.ops[..|s.ops|] == s.ops;
    }
  }

  lemma ForeignTakesNothing(e: Event, turn: Turn, k: Counter)
    requires e.Foreign?
    ensures TookOff(e, turn, k) == 0 == PassedBy(e, turn, k)
  {
  }

  /**
   * What was taken off a counter for a turn is at most what each drop of one of its
   * records was given to take off, once: with one drop per record at most, no
   * amount is subtracted twice.
   */
  lemma {:induction false} SubtractedOncePerRecord(cfg: Config, steps: seq<Step>, turn: Turn, k: Counter)
    requires RoundTrips(cfg)
    ensures var t := Run(cfg, EMPTY, steps);
            Subtracted(t.history, turn, k) + ToGive(t.ops, turn, k) <= Passed(t.history, turn, k)
  {
    hide Apply, Inv;
    if steps != [] {
      var most := steps[..|steps| - 1];
      SubtractedOncePerRecord(cfg, most, turn, k);
      RunKeeps(cfg, most);
      StepTakesWhatIsThere(cfg, Run(cfg, EMPTY, most), steps[|steps| - 1], turn, k);
    }
  }

  /** What an operation gives back is there to be given back: a counter never overdrawn is not stopped at zero. */
  lemma NoCounterIsFloored(cfg: Config, steps: seq<Step>, i: nat, k: Counter)
    requires RoundTrips(cfg) && i < |Run(cfg, EMPTY, steps).ops|
    requires NeverOverdrawn(cfg, Run(cfg, EMPTY, steps).history, k)
    ensures var t := Run(cfg, EMPTY, steps);
            Share(t.ops[i].turn, t.ops[i].owned, k) <= At(t.spent, k)
  {
    hide Run, NeverOverdrawn, RecordedSum, OwnedSum, Share, Leaked;
    BooksBalance(cfg, steps, k);
    OwnedIsThere(cfg, Run(cfg, EMPTY, steps), i, k);
  }

  /** A drop leaves exact books exact, on any counter, exactly when it passes what the record held there. */
  lemma DropSettlesWhenItAgrees(cfg: Config, s: State, i: nat, k: Counter)
    requires i < |s.ops| && OpOk(s.ops[i]) && s.ops[i].phase.Drop? && s.ops[i].turn in s.holds
    requires At(s.spent, k) == RecordedSum(cfg, s.holds, k) + OwnedSum(s.ops, k)
    ensures var t := CallStep(cfg, s, i, Answers(true));
            At(t.spent, k) == RecordedSum(cfg, t.holds, k) + OwnedSum(t.ops, k) <==>
            TextShare(cfg, s.ops[i].turn, s.holds[s.ops[i].turn], k) == Share(s.ops[i].turn, s.ops[i].phase.hold, k)
  {
    var op := s.ops[i];
    var next := OpAfter(cfg, s.spent, s.holds, op, Answers(true));
    RecordedWithout(cfg, s.holds, op.turn, k);
    OwnedUpdated(s.ops, i, next, k);
  }

  // --------------------------------------------------------------------- denials

  /** The reason an operation is on its way to be refused with. */
  function Denial(phase: Phase): Option<Reason> {
    match phase
    case Finished(Denied(reason)) => Some(reason)
    case Undo(Finished(Denied(reason))) => Some(reason)
    case Give(Finished(Denied(reason))) => Some(reason)
    case Drop(_, Finished(Denied(reason))) => Some(reason)
    case _ => None
  }

  /** The call of this operation that the reason stands for. */
  predicate Explains(cfg: Config, e: Event, i: nat, reason: Reason) {
    e.Called? && e.op == i &&
    match reason
    case CompanyBudget => e.was.phase.AddCompany? && e.answer.Answers? && e.company + e.was.amount > cfg.companyCap
    case GlobalBudget => e.was.phase.AddGlobal? && e.answer.Answers? && e.global + e.was.amount > cfg.globalCap
    case TurnLimit => e.was.phase.Bucket? && e.answer == Answers(false)
    case BudgetStore => (e.was.phase.AddCompany? || e.was.phase.AddGlobal? || e.was.phase.Claim?) && e.answer.Fails?
    case RateLimitStore => e.was.phase.Bucket? && e.answer.Fails?
  }

  ghost predicate Explained(cfg: Config, h: seq<Event>, i: nat, reason: Reason) {
    exists j :: 0 <= j < |h| && Explains(cfg, h[j], i, reason)
  }

  ghost predicate DenialsOk(cfg: Config, s: State) {
    forall i :: 0 <= i < |s.ops| && Denial(s.ops[i].phase).Some? ==>
      Explained(cfg, s.history, i, Denial(s.ops[i].phase).value)
  }

  lemma CallExplains(cfg: Config, s: State, i: nat, answer: Answer)
    requires i < |s.ops| && OpOk(s.ops[i])
    ensures var next := OpAfter(cfg, s.spent, s.holds, s.ops[i], answer);
            Denial(next.phase).Some? && Denial(s.ops[i].phase).None? ==>
              Explains(cfg, CallOf(s, i, answer), i, Denial(next.phase).value)
    ensures var next := OpAfter(cfg, s.spent, s.holds, s.ops[i], answer);
            Denial(s.ops[i].phase).Some? ==> Denial(next.phase) == Denial(s.ops[i].phase)
  {
  }

  lemma ExplainedStays(cfg: Config, h: seq<Event>, e: Event, i: nat, reason: Reason)
    ensures Explained(cfg, h, i, reason) || Explains(cfg, e, i, reason) ==> Explained(cfg, h + [e], i, reason)
  {
    if j :| 0 <= j < |h| && Explains(cfg, h[j], i, reason) {
      assert Explains(cfg, (h + [e])[j], i, reason);
    }
    assert (h + [e])[|h|] == e;
  }

  lemma StepExplains(cfg: Config, s: State, step: Step)
    requires Inv(cfg, s) && DenialsOk(cfg, s)
    ensures DenialsOk(cfg, Apply(cfg, s, step))
  {
    hide OpAfter, SpentAfter, HoldsAfter, Explained, Explains, Denial, NeverShort, Balanced, Standing, CapOk;
    var t := Apply(cfg, s, step);
    forall j | 0 <= j < |t.ops| && Denial(t.ops[j].phase).Some?
      ensures Explained(cfg, t.history, j, Denial(t.ops[j].phase).value)
    {
      var reason := Denial(t.ops[j].phase).value;
      match step {
        case Call(i, answer) =>
          if i < |s.ops| {
            CallExplains(cfg, s, i, answer);
            ExplainedStays(cfg, s.history, CallOf(s, i, answer), j, reason);
          }
        case ForeignHold(turn, text) => ExplainedStays(cfg, s.history, Foreign(turn, text), j, reason);
        case _ => StartsUndenied(cfg);
      }
    }
  }

  lemma StartsUndenied(cfg: Config)
    ensures Denial(FirstPhase(cfg)).None?
    ensures forall hold :: Denial(Drop(hold, Finished(Released))).None?
  {
  }

  lemma {:induction false} DenialsRun(cfg: Config, steps: seq<Step>)
    requires RoundTrips(cfg)
    ensures DenialsOk(cfg, Run(cfg, EMPTY, steps))
  {
    hide Apply, Inv, Explained;
    if steps != [] {
      var most := steps[..|steps| - 1];
      DenialsRun(cfg, most);
      RunKeeps(cfg, most);
      StepExplains(cfg, Run(cfg, EMPTY, most), steps[|steps| - 1]);
    }
  }

  /**
   * An outage is never told as a limit and a limit never as an outage: in every run
   * a request denied for a budget had that counter answer and be full, one denied
   * for its turns had the bucket answer no, and one denied for a store had that
   * store not answer.
   */
  lemma DenialsAreClassified(cfg: Config, steps: seq<Step>, i: nat, reason: Reason)
    requires RoundTrips(cfg) && i < |Run(cfg, EMPTY, steps).ops|
    requires Run(cfg, EMPTY, steps).ops[i].phase == Finished(Denied(reason))
    ensures var h := Run(cfg, EMPTY, steps).history; exists j :: 0 <= j < |h| && Explains(cfg, h[j], i, reason)
  {
    hide Run, Explains;
    DenialsRun(cfg, steps);
  }

  // ------------------------------------------------ a turn admitted and its record

  /** Whether the last of a turn's records written or deleted was written. */
  function Stands(h: seq<Event>, turn: Turn): bool {
    h != [] &&
    var e := h[|h| - 1];
    if TurnOf(e) == turn && Records(e) then true
    else if TurnOf(e) == turn && Drops(e) then false
    else Stands(h[..|h| - 1], turn)
  }

  lemma StandsGrows(h: seq<Event>, e: Event, turn: Turn)
    ensures Stands(h + [e], turn) <==>
            if TurnOf(e) == turn && Records(e) then true
            else if TurnOf(e) == turn && Drops(e) then false else Stands(h, turn)
  {
    assert (h + [e])[..|h|] == h;
  }

  /** A call that left this turn recorded: it wrote the record, or found one. */
  predicate ClaimedBy(e: Event, i: nat) {
    e.Called? && e.op == i && e.was.phase.Claim? && e.answer.Answers?
  }

  /** A record of the turn deleted at this place and none written after it. */
  ghost predicate GoneSince(h: seq<Event>, d: nat, turn: Turn)
    requires d < |h|
  {
    && TurnOf(h[d]) == turn && Drops(h[d])
    && forall r :: d < r < |h| ==> !(TurnOf(h[r]) == turn && Records(h[r]))
  }

  /** What stood at one place stands at the end, unless it was dropped since and not written again. */
  lemma {:induction false} LostIff(h: seq<Event>, j: nat, turn: Turn)
    requires j <= |h| && Stands(h[..j], turn)
    ensures !Stands(h, turn) <==> exists d: nat :: j <= d < |h| && GoneSince(h, d, turn)
    decreases |h|
  {
    if j == |h| {
      assert h[..j] == h;
    } else {
      var n := |h| - 1;
      var most, e := h[..n], h[n];
      assert most[..j] == h[..j] && most + [e] == h;
      LostIff(most, j, turn);
      StandsGrows(most, e, turn);
      if TurnOf(e) == turn && Drops(e) {
        assert GoneSince(h, n, turn);
      } else if !(TurnOf(e) == turn && Records(e)) {
        forall d: nat | j <= d < n ensures GoneSince(h, d, turn) <==> GoneSince(most, d, turn) {
          assert forall r :: d < r < n ==> h[r] == most[r];
        }
      }
    }
  }

  /** An operation that has passed its claim. */
  predicate PastClaim(phase: Phase) {
    match phase
    case Finished(Admitted(_, _)) => true
    case Bucket(_, _) => true
    case Undo(next) => PastClaim(next)
    case Give(next) => PastClaim(next)
    case Drop(_, next) => PastClaim(next)
    case _ => false
  }

  ghost predicate HasClaimed(h: seq<Event>, i: nat, turn: Turn) {
    exists j :: 0 <= j < |h| && ClaimedBy(h[j], i) && h[j].was.turn == turn
  }

  ghost predicate ClaimsOk(s: State) {
    && (forall turn :: turn in s.holds <==> Stands(s.history, turn))
    && (forall j :: 0 <= j < |s.history| && s.history[j].Called? ==>
          (s.history[j].held.Some? <==> Stands(s.history[..j], s.history[j].was.turn)))
    && (forall i :: 0 <= i < |s.ops| && PastClaim(s.ops[i].phase) ==> HasClaimed(s.history, i, s.ops[i].turn))
  }

  lemma CallClaims(cfg: Config, s: State, i: nat, answer: Answer)
    requires i < |s.ops| && OpOk(s.ops[i])
    ensures var next := OpAfter(cfg, s.spent, s.holds, s.ops[i], answer);
            && next.turn == s.ops[i].turn
            && (PastClaim(next.phase) ==> PastClaim(s.ops[i].phase) || ClaimedBy(CallOf(s, i, answer), i))
  {
  }

  lemma CallStands(cfg: Config, s: State, i: nat, answer: Answer, turn: Turn)
    requires i < |s.ops| && (turn in s.holds <==> Stands(s.history, turn))
    ensures turn in HoldsAfter(cfg, s.holds, s.ops[i], answer.Answers?) <==>
            Stands(s.history + [CallOf(s, i, answer)], turn)
  {
    StandsGrows(s.history, CallOf(s, i, answer), turn);
  }

  lemma HasClaimedStays(h: seq<Event>, e: Event, i: nat, turn: Turn)
    ensures HasClaimed(h, i, turn) || (ClaimedBy(e, i) && e.was.turn == turn) ==> HasClaimed(h + [e], i, turn)
  {
    if j :| 0 <= j < |h| && ClaimedBy(h[j], i) && h[j].was.turn == turn {
      assert (h + [e])[j] == h[j];
    }
    assert (h + [e])[|h|] == e;
  }

  lemma FoundStays(h: seq<Event>, e: Event)
    requires forall j :: 0 <= j < |h| && h[j].Called? ==> (h[j].held.Some? <==> Stands(h[..j], h[j].was.turn))
    requires e.Called? ==> (e.held.Some? <==> Stands(h, e.was.turn))
    ensures var g := h + [e];
            forall j :: 0 <= j < |g| && g[j].Called? ==> (g[j].held.Some? <==> Stands(g[..j], g[j].was.turn))
  {
    hide Stands;
    var g := h + [e];
    forall j | 0 <= j < |g| && g[j].Called? ensures g[j].held.Some? <==> Stands(g[..j], g[j].was.turn) {
      assert g[..j] == if j < |h| then h[..j] else h;
    }
  }

  lemma StepClaims(cfg: Config, s: State, step: Step)
    requires Inv(cfg, s) && ClaimsOk(s)
    ensures ClaimsOk(Apply(cfg, s, step))
  {
    hide OpAfter, SpentAfter, HoldsAfter, Stands, HasClaimed, PastClaim, NeverShort, Balanced, Standing, CapOk;
    var t := Apply(cfg, s, step);
    match step {
      case Call(i, answer) =>
        if i < |s.ops| {
          var e := CallOf(s, i, answer);
          CallClaims(cfg, s, i, answer);
          FoundStays(s.history, e);
          forall turn ensures turn in t.holds <==> Stands(t.history, turn) {
            CallStands(cfg, s, i, answer, turn);
          }
          forall j | 0 <= j < |t.ops| && PastClaim(t.ops[j].phase) ensures HasClaimed(t.history, j, t.ops[j].turn) {
            HasClaimedStays(s.history, e, j, t.ops[j].turn);
          }
        }
      case ForeignHold(turn, text) =>
        if t.history != s.history {
          var e := Foreign(turn, text);
          FoundStays(s.history, e);
          forall other ensures other in t.holds <==> Stands(t.history, other) {
            StandsGrows(s.history, e, other);
          }
          forall j | 0 <= j < |t.ops| && PastClaim(t.ops[j].phase) ensures HasClaimed(t.history, j, t.ops[j].turn) {
            HasClaimedStays(s.history, e, j, t.ops[j].turn);
          }
        }
      case _ => StartsUnclaimed(cfg);
    }
  }

  lemma StartsUnclaimed(cfg: Config)
    ensures !PastClaim(FirstPhase(cfg))
    ensures forall hold :: !PastClaim(Drop(hold, Finished(Released)))
  {
  }

  lemma {:induction false} ClaimsRun(cfg: Config, steps: seq<Step>)
    requires RoundTrips(cfg)
    ensures ClaimsOk(Run(cfg, EMPTY, steps))
  {
    hide Apply, Inv, HasClaimed;
    if steps != [] {
      var most := steps[..|steps| - 1];
      ClaimsRun(cfg, most);
      RunKeeps(cfg, most);
      StepClaims(cfg, Run(cfg, EMPTY, most), steps[|steps| - 1]);
    }
  }

  /**
   * An admitted turn had its record when its claim was answered, and it has none
   * exactly when a drop of that turn was accepted since, and no record after it.
   */
  lemma AdmittedTurnIsUnrecordedIff(cfg: Config, steps: seq<Step>, i: nat) returns (j: nat)
    requires RoundTrips(cfg) && i < |Run(cfg, EMPTY, steps).ops|
    requires var phase := Run(cfg, EMPTY, steps).ops[i].phase; phase.Finished? && phase.outcome.Admitted?
    ensures var t := Run(cfg, EMPTY, steps); var turn := t.ops[i].turn;
            && j < |t.history| && ClaimedBy(t.history[j], i) && t.history[j].was.turn == turn
            && (turn !in t.holds <==> exists d: nat :: j < d < |t.history| && GoneSince(t.history, d, turn))
  {
    hide Run, Stands;
    ClaimsRun(cfg, steps);
    var t := Run(cfg, EMPTY, steps);
    var turn := t.ops[i].turn;
    assert HasClaimed(t.history, i, turn);
    j :| 0 <= j < |t.history| && ClaimedBy(t.history[j], i) && t.history[j].was.turn == turn;
    assert t.history[..j + 1] == t.history[..j] + [t.history[j]];
    StandsGrows(t.history[..j], t.history[j], turn);
    LostIff(t.history, j + 1, turn);
  }

  /** The bucket refusing or not answering an attempt that recorded its hold. */
  predicate RefusesRecorder(e: Event, turn: Turn) {
    e.Called? && e.was.turn == turn && e.was.phase.Bucket? && e.was.phase.created && e.answer != Answers(true)
  }

  /** Nobody is on the way to delete this turn's record, or did. */
  ghost predicate Undropped(s: State, turn: Turn) {
    && (forall i :: 0 <= i < |s.ops| && s.ops[i].turn == turn ==> !s.ops[i].phase.Drop?)
    && (forall j :: 0 <= j < |s.history| && TurnOf(s.history[j]) == turn ==> !Drops(s.history[j]))
  }

  lemma CallLeavesUndropped(cfg: Config, s: State, i: nat, answer: Answer, turn: Turn)
    requires i < |s.ops| && OpOk(s.ops[i]) && s.ops[i].turn == turn && !s.ops[i].phase.Drop?
    requires !RefusesRecorder(CallOf(s, i, answer), turn)
    ensures !OpAfter(cfg, s.spent, s.holds, s.ops[i], answer).phase.Drop? && !Drops(CallOf(s, i, answer))
  {
  }

  lemma StepLeavesUndropped(cfg: Config, s: State, step: Step, turn: Turn)
    requires Inv(cfg, s) && Undropped(s, turn) && !(step.Release? && step.turn == turn)
    requires forall j :: 0 <= j < |Apply(cfg, s, step).history| ==> !RefusesRecorder(Apply(cfg, s, step).history[j], turn)
    ensures Undropped(Apply(cfg, s, step), turn)
  {
    hide OpAfter, SpentAfter, HoldsAfter, RefusesRecorder, NeverShort, Balanced, Standing, CapOk;
    var t := Apply(cfg, s, step);
    match step {
      case Call(i, answer) =>
        if i < |s.ops| {
          assert t.history[|s.history|] == CallOf(s, i, answer);
          OpStaysOk(cfg, s.spent, s.holds, s.ops[i], answer);
          if s.ops[i].turn == turn {
            CallLeavesUndropped(cfg, s, i, answer, turn);
          }
        }
      case _ =>
    }
  }

  lemma {:induction false} UndroppedRun(cfg: Config, steps: seq<Step>, turn: Turn)
    requires RoundTrips(cfg) && forall n :: 0 <= n < |steps| ==> !(steps[n].Release? && steps[n].turn == turn)
    requires var h := Run(cfg, EMPTY, steps).history; forall j :: 0 <= j < |h| ==> !RefusesRecorder(h[j], turn)
    ensures Undropped(Run(cfg, EMPTY, steps), turn)
  {
    hide Apply, Inv, RefusesRecorder, Undropped;
    if steps == [] {
      NothingDropped(turn);
    } else {
      var most := steps[..|steps| - 1];
      var s, t := Run(cfg, EMPTY, most), Run(cfg, EMPTY, steps);
      HistoryPrefix(cfg, s, steps[|steps| - 1]);
      assert most + [steps[|steps| - 1]] == steps;
      RunOne(cfg, EMPTY, most, steps[|steps| - 1]);
      forall j | 0 <= j < |s.history| ensures !RefusesRecorder(s.history[j], turn) {
        assert t.history[j] == s.history[j];
        assert !RefusesRecorder(t.history[j], turn);
      }
      UndroppedRun(cfg, most, turn);
      RunKeeps(cfg, most);
      StepLeavesUndropped(cfg, s, steps[|steps| - 1], turn);
    }
  }

  lemma NothingDropped(turn: Turn)
    ensures Undropped(EMPTY, turn)
  {
  }

  lemma HistoryPrefix(cfg: Config, s: State, step: Step)
    ensures s.history <= Apply(cfg, s, step).history
  {
    hide OpAfter, SpentAfter, HoldsAfter;
  }

  /**
   * A turn nobody released, whose recorder the bucket never turned away, keeps its
   * record from the claim of its first admitted attempt on.
   */
  lemma AdmittedTurnStaysRecorded(cfg: Config, steps: seq<Step>, i: nat)
    requires RoundTrips(cfg) && i < |Run(cfg, EMPTY, steps).ops|
    requires var phase := Run(cfg, EMPTY, steps).ops[i].phase; phase.Finished? && phase.outcome.Admitted?
    requires var turn := Run(cfg, EMPTY, steps).ops[i].turn;
             forall n :: 0 <= n < |steps| ==> !(steps[n].Release? && steps[n].turn == turn)
    requires var t := Run(cfg, EMPTY, steps);
             forall j :: 0 <= j < |t.history| ==> !RefusesRecorder(t.history[j], t.ops[i].turn)
    ensures var t := Run(cfg, EMPTY, steps); t.ops[i].turn in t.holds
  {
    hide Run, RefusesRecorder, Drops;
    var t := Run(cfg, EMPTY, steps);
    UndroppedRun(cfg, steps, t.ops[i].turn);
    var j := AdmittedTurnIsUnrecordedIff(cfg, steps, i);
  }

  // ----------------------------------------------- what the protocol does not promise

  /** Two attempts of one turn, what they charged and what is recorded. */
  ghost predicate Pair(s: State, turn: Turn, spent: nat, recorded: map<Turn, string>, a: Op, b: Op) {
    s.spent == map[CompanyKey(turn) := spent] && s.holds == recorded && s.ops == [a, b]
  }

  function Attempt(turn: Turn, amount: nat, owned: nat, phase: Phase): Op {
    Op(turn, amount, false, Amounts(owned, 0), phase)
  }

  /** Both attempts begun, the first one charged. */
  lemma FirstCharges(cfg: Config, turn: Turn, amount: nat)
    requires 0 < 2 * amount <= cfg.companyCap && cfg.globalCap <= 0
    ensures var enter := Enforce(turn, amount, false);
            Pair(Apply(cfg, Apply(cfg, Apply(cfg, EMPTY, enter), enter), Call(0, Answers(true))), turn, amount, map[],
                 Attempt(turn, amount, amount, Claim), Attempt(turn, amount, 0, AddCompany))
  {
    var start := Attempt(turn, amount, 0, AddCompany);
    var enter := Enforce(turn, amount, false);
    var s := Apply(cfg, Apply(cfg, EMPTY, enter), enter);
    assert s.ops == [start, start] && s.spent == map[] && s.holds == map[];
  }

  lemma FirstRecords(cfg: Config, turn: Turn, amount: nat, s: State)
    requires Pair(s, turn, amount, map[], Attempt(turn, amount, amount, Claim), Attempt(turn, amount, 0, AddCompany))
    ensures Pair(Apply(cfg, s, Call(0, Answers(true))), turn, amount, map[turn := cfg.encode(Amounts(amount, 0))],
                 Attempt(turn, amount, 0, Bucket(Amounts(amount, 0), true)), Attempt(turn, amount, 0, AddCompany))
  {
  }

  /** The second attempt charges, finds the record, gives its own back, and is admitted. */
  lemma SecondCharges(cfg: Config, turn: Turn, amount: nat, first: Op, s: State)
    requires 0 < 2 * amount <= cfg.companyCap && cfg.globalCap <= 0
    requires Pair(s, turn, amount, map[turn := cfg.encode(Amounts(amount, 0))], first, Attempt(turn, amount, 0, AddCompany))
    ensures Pair(Apply(cfg, s, Call(1, Answers(true))), turn, 2 * amount, map[turn := cfg.encode(Amounts(amount, 0))],
                 first, Attempt(turn, amount, amount, Claim))
  {
  }

  lemma SecondFinds(cfg: Config, turn: Turn, amount: nat, first: Op, s: State)
    requires RoundTrips(cfg) && amount > 0
    requires Pair(s, turn, 2 * amount, map[turn := cfg.encode(Amounts(amount, 0))], first, Attempt(turn, amount, amount, Claim))
    ensures Pair(Apply(cfg, s, Call(1, Answers(true))), turn, 2 * amount, map[turn := cfg.encode(Amounts(amount, 0))],
                 first, Attempt(turn, amount, amount, Undo(Bucket(Amounts(amount, 0), false))))
  {
  }

  lemma SecondGivesBack(cfg: Config, turn: Turn, amount: nat, first: Op, s: State)
    requires amount > 0
    requires Pair(s, turn, 2 * amount, map[turn := cfg.encode(Amounts(amount, 0))], first,
                  Attempt(turn, amount, amount, Undo(Bucket(Amounts(amount, 0), false))))
    ensures Pair(Apply(cfg, s, Call(1, Answers(true))), turn, amount, map[turn := cfg.encode(Amounts(amount, 0))],
                 first, Attempt(turn, amount, 0, Bucket(Amounts(amount, 0), false)))
  {
  }

  lemma SecondIsAdmitted(cfg: Config, turn: Turn, amount: nat, first: Op, s: State)
    requires Pair(s, turn, amount, map[turn := cfg.encode(Amounts(amount, 0))], first,
                  Attempt(turn, amount, 0, Bucket(Amounts(amount, 0), false)))
    ensures Pair(Apply(cfg, s, Call(1, Answers(true))), turn, amount, map[turn := cfg.encode(Amounts(amount, 0))], first,
                 Attempt(turn, amount, 0, Finished(Admitted(Amounts(amount, 0), false))))
  {
  }

  /** Then the first one's bucket refuses it: it drops the record and gives its amount back. */
  lemma FirstIsRefused(cfg: Config, turn: Turn, amount: nat, second: Op, s: State)
    requires Pair(s, turn, amount, map[turn := cfg.encode(Amounts(amount, 0))],
                  Attempt(turn, amount, 0, Bucket(Amounts(amount, 0), true)), second)
    ensures Pair(Apply(cfg, s, Call(0, Answers(false))), turn, amount, map[turn := cfg.encode(Amounts(amount, 0))],
                 Attempt(turn, amount, 0, Drop(Amounts(amount, 0), Refused(TurnLimit))), second)
  {
  }

  lemma FirstDrops(cfg: Config, turn: Turn, amount: nat, second: Op, s: State)
    requires amount > 0
    requires Pair(s, turn, amount, map[turn := cfg.encode(Amounts(amount, 0))],
                  Attempt(turn, amount, 0, Drop(Amounts(amount, 0), Refused(TurnLimit))), second)
    ensures Pair(Apply(cfg, s, Call(0, Answers(true))), turn, amount, map[],
                 Attempt(turn, amount, amount, Give(Refused(TurnLimit))), second)
  {
  }

  lemma FirstGivesBack(cfg: Config, turn: Turn, amount: nat, second: Op, s: State)
    requires amount > 0
    requires Pair(s, turn, amount, map[], Attempt(turn, amount, amount, Give(Refused(TurnLimit))), second)
    ensures Pair(Apply(cfg, s, Call(0, Answers(true))), turn, 0, map[],
                 Attempt(turn, amount, 0, Refused(TurnLimit)), second)
  {
  }

  ghost predicate Uncharged(cfg: Config, s: State, turn: Turn, amount: nat) {
    Pair(s, turn, 0, map[], Attempt(turn, amount, 0, Refused(TurnLimit)),
         Attempt(turn, amount, 0, Finished(Admitted(Amounts(amount, 0), false))))
  }

  lemma FirstRecordsFor(cfg: Config, turn: Turn, amount: nat) returns (steps: seq<Step>)
    requires RoundTrips(cfg) && 0 < 2 * amount <= cfg.companyCap && cfg.globalCap <= 0
    ensures Pair(Run(cfg, EMPTY, steps), turn, amount, map[turn := cfg.encode(Amounts(amount, 0))],
                 Attempt(turn, amount, 0, Bucket(Amounts(amount, 0), true)), Attempt(turn, amount, 0, AddCompany))
  {
    assert Run(cfg, EMPTY, []) == EMPTY;
    hide Run, Apply, Pair;
    var enter, first := Enforce(turn, amount, false), Call(0, Answers(true));
    RunOne(cfg, EMPTY, [], enter);
    RunOne(cfg, EMPTY, [] + [enter], enter);
    steps := [] + [enter] + [enter] + [first];
    RunOne(cfg, EMPTY, [] + [enter] + [enter], first);
    FirstCharges(cfg, turn, amount);
    RunOne(cfg, EMPTY, steps, first);
    FirstRecords(cfg, turn, amount, Run(cfg, EMPTY, steps));
    steps := steps + [first];
  }

  lemma SecondAdopts(cfg: Config, turn: Turn, amount: nat) returns (steps: seq<Step>)
    requires RoundTrips(cfg) && 0 < 2 * amount <= cfg.companyCap && cfg.globalCap <= 0
    ensures Pair(Run(cfg, EMPTY, steps), turn, amount, map[turn := cfg.encode(Amounts(amount, 0))],
                 Attempt(turn, amount, 0, Bucket(Amounts(amount, 0), true)),
                 Attempt(turn, amount, 0, Finished(Admitted(Amounts(amount, 0), false))))
  {
    hide Run, Apply, Pair;
    var first, second := Attempt(turn, amount, 0, Bucket(Amounts(amount, 0), true)), Call(1, Answers(true));
    steps := FirstRecordsFor(cfg, turn, amount);
    RunOne(cfg, EMPTY, steps, second);
    SecondCharges(cfg, turn, amount, first, Run(cfg, EMPTY, steps));
    steps := steps + [second];
    RunOne(cfg, EMPTY, steps, second);
    SecondFinds(cfg, turn, amount, first, Run(cfg, EMPTY, steps));
    steps := steps + [second];
    RunOne(cfg, EMPTY, steps, second);
    SecondGivesBack(cfg, turn, amount, first, Run(cfg, EMPTY, steps));
    steps := steps + [second];
    RunOne(cfg, EMPTY, steps, second);
    SecondIsAdmitted(cfg, turn, amount, first, Run(cfg, EMPTY, steps));
    steps := steps + [second];
  }

  /**
   * A run in which an admitted turn ends with no record and no charge, for any
   * amount that fits the cap twice: the attempt that recorded the hold gives it back
   * when its own bucket refuses it, though another attempt adopted the hold and was
   * admitted on it.
   */
  lemma AdoptedHoldCanBeGivenBack(cfg: Config, turn: Turn, amount: nat)
    requires RoundTrips(cfg) && 0 < 2 * amount <= cfg.companyCap && cfg.globalCap <= 0
    ensures exists steps :: Uncharged(cfg, Run(cfg, EMPTY, steps), turn, amount)
  {
    hide Run, Apply, Pair;
    var no, yes := Call(0, Answers(false)), Call(0, Answers(true));
    var second := Attempt(turn, amount, 0, Finished(Admitted(Amounts(amount, 0), false)));
    var steps := SecondAdopts(cfg, turn, amount);
    RunOne(cfg, EMPTY, steps, no);
    FirstIsRefused(cfg, turn, amount, second, Run(cfg, EMPTY, steps));
    RunOne(cfg, EMPTY, steps + [no], yes);
    FirstDrops(cfg, turn, amount, second, Run(cfg, EMPTY, steps + [no]));
    RunOne(cfg, EMPTY, steps + [no] + [yes], yes);
    FirstGivesBack(cfg, turn, amount, second, Run(cfg, EMPTY, steps + [no] + [yes]));
    assert Uncharged(cfg, Run(cfg, EMPTY, steps + [no] + [yes] + [yes]), turn, amount);
  }
}
