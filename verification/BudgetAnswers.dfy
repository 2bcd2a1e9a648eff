/**
 * What the budget guard answers, over whole runs
 * (packages/assistant-runtime/src/assistant-budget-guard.ts): each outcome by the
 * calls the operation made and how they were answered.
 */
module BudgetAnswers {
  import opened Wrappers
  import opened BudgetHold
  import opened BudgetGuard
  import opened BudgetTheorems

  // ------------------------------------------------------- what an outcome needs

  /** What a call can settle for good about the operation that made it. */
  datatype Mark =
    | RoomInCompany
    | RoomInGlobal
    | HoldTaken(hold: Amounts, created: bool)
    | TurnAllowed
    | GaveUp

  /** The amounts an attempt stands for: the recorded ones when it found some it can read, else its own. */
  function HoldBy(cfg: Config, e: Event): Amounts
    requires e.Called?
  {
    if e.held.Some? && cfg.decode(e.held.value).Some? then cfg.decode(e.held.value).value
    else Amounts(if cfg.companyCap > 0 then e.was.amount else 0, if cfg.globalCap > 0 then e.was.amount else 0)
  }

  predicate Shows(cfg: Config, e: Event, i: nat, mark: Mark) {
    e.Called? && e.op == i &&
    match mark
    case RoomInCompany => e.was.phase.AddCompany? && e.answer.Answers? && e.company + e.was.amount <= cfg.companyCap
    case RoomInGlobal => e.was.phase.AddGlobal? && e.answer.Answers? && e.global + e.was.amount <= cfg.globalCap
    case HoldTaken(hold, created) =>
      e.was.phase.Claim? && e.answer.Answers? && created == e.held.None? && hold == HoldBy(cfg, e)
    case TurnAllowed => e.was.phase.Bucket? && e.answer == Answers(true)
    case GaveUp => AsksToRelease(e, i) && e.answer.Fails?
  }

  ghost predicate Had(cfg: Config, h: seq<Event>, i: nat, mark: Mark) {
    exists j :: 0 <= j < |h| && Shows(cfg, h[j], i, mark)
  }

  /** The hold an operation goes on with, once it has one, unless it is on its way to be refused. */
  function HeldIn(phase: Phase): Option<(Amounts, bool)> {
    match phase
    case Finished(Admitted(hold, created)) => Some((hold, created))
    case Bucket(hold, created) => Some((hold, created))
    case Undo(Finished(Admitted(hold, created))) => Some((hold, created))
    case Undo(Bucket(hold, created)) => Some((hold, created))
    case _ => None
  }

  predicate Admits(phase: Phase) {
    match phase
    case Finished(Admitted(_, _)) => true
    case Undo(Finished(Admitted(_, _))) => true
    case _ => false
  }

  /** What must have been shown for an operation to be where it is. */
  predicate Needs(cfg: Config, op: Op, mark: Mark) {
    match mark
    case RoomInCompany => cfg.companyCap > 0 && (op.phase.AddGlobal? || op.phase.Claim? || HeldIn(op.phase).Some?)
    case RoomInGlobal => cfg.globalCap > 0 && (op.phase.Claim? || HeldIn(op.phase).Some?)
    case HoldTaken(hold, created) => HeldIn(op.phase) == Some((hold, created))
    case TurnAllowed => !op.skipBucket && Admits(op.phase)
    case GaveUp => op.phase == Finished(ReleaseFailed)
  }

  /** What an operation can still come to once it gave back what it took. */
  predicate Follows(phase: Phase) {
    match phase
    case Undo(next) => next.Bucket? || (next.Finished? && (next.outcome.Admitted? || next.outcome.Denied?))
    case Give(next) => next == Finished(Released) || (next.Finished? && next.outcome.Denied?)
    case Drop(_, next) => next == Finished(Released) || (next.Finished? && next.outcome.Denied?)
    case _ => true
  }

  /** What an attempt on its way has charged. */
  predicate OwnedOk(cfg: Config, op: Op) {
    && Follows(op.phase)
    && (op.phase.AddCompany? ==> op.owned == NOTHING && cfg.companyCap > 0)
    && (op.phase.AddGlobal? ==>
          op.owned == Amounts(if cfg.companyCap > 0 then op.amount else 0, 0) && cfg.globalCap > 0)
    && (op.phase.Claim? ==>
          op.owned == Amounts(if cfg.companyCap > 0 then op.amount else 0, if cfg.globalCap > 0 then op.amount else 0))
  }

  ghost predicate NeedsOk(cfg: Config, s: State) {
    forall i :: 0 <= i < |s.ops| ==>
      && OwnedOk(cfg, s.ops[i])
      && forall mark :: Needs(cfg, s.ops[i], mark) ==> Had(cfg, s.history, i, mark)
  }

  /** An operation that is still taking what it needs. */
  predicate Taking(phase: Phase) {
    phase.AddCompany? || phase.AddGlobal? || phase.Claim?
  }

  lemma CallOwned(cfg: Config, s: State, i: nat, answer: Answer)
    requires i < |s.ops| && OpOk(s.ops[i]) && OwnedOk(cfg, s.ops[i])
    ensures OwnedOk(cfg, OpAfter(cfg, s.spent, s.holds, s.ops[i], answer))
  {
  }

  lemma TakingNeeds(cfg: Config, s: State, i: nat, answer: Answer, mark: Mark)
    requires i < |s.ops| && OwnedOk(cfg, s.ops[i]) && Taking(s.ops[i].phase)
    requires Needs(cfg, OpAfter(cfg, s.spent, s.holds, s.ops[i], answer), mark)
    ensures Needs(cfg, s.ops[i], mark) || Shows(cfg, CallOf(s, i, answer), i, mark)
  {
  }

  lemma LaterNeeds(cfg: Config, s: State, i: nat, answer: Answer, mark: Mark)
    requires i < |s.ops| && OpOk(s.ops[i]) && OwnedOk(cfg, s.ops[i]) && !Taking(s.ops[i].phase)
    requires Needs(cfg, OpAfter(cfg, s.spent, s.holds, s.ops[i], answer), mark)
    ensures Needs(cfg, s.ops[i], mark) || Shows(cfg, CallOf(s, i, answer), i, mark)
  {
    hide ReserveCompany, ReserveGlobal, ClaimHold;
  }

  lemma CallNeeds(cfg: Config, s: State, i: nat, answer: Answer, mark: Mark)
    requires i < |s.ops| && OpOk(s.ops[i]) && OwnedOk(cfg, s.ops[i])
    ensures var next := OpAfter(cfg, s.spent, s.holds, s.ops[i], answer);
            && OwnedOk(cfg, next)
            && (Needs(cfg, next, mark) ==> Needs(cfg, s.ops[i], mark) || Shows(cfg, CallOf(s, i, answer), i, mark))
  {
    hide OpAfter, OwnedOk, Needs, Shows, OpOk, CallOf, Taking;
    CallOwned(cfg, s, i, answer);
    if Needs(cfg, OpAfter(cfg, s.spent, s.holds, s.ops[i], answer), mark) {
      if Taking(s.ops[i].phase) {
        TakingNeeds(cfg, s, i, answer, mark);
      } else {
        LaterNeeds(cfg, s, i, answer, mark);
      }
    }
  }

  lemma HadStays(cfg: Config, h: seq<Event>, e: Event, i: nat, mark: Mark)
    ensures Had(cfg, h, i, mark) || Shows(cfg, e, i, mark) ==> Had(cfg, h + [e], i, mark)
  {
    hide Shows;
    if j :| 0 <= j < |h| && Shows(cfg, h[j], i, mark) {
      assert Shows(cfg, (h + [e])[j], i, mark);
    }
    assert (h + [e])[|h|] == e;
  }

  /** An operation as it begins needs nothing. */
  lemma BeginsFree(cfg: Config, turn: Turn, amount: nat, skip: bool, hold: Amounts, mark: Mark)
    ensures var first := Op(turn, amount, skip, NOTHING, FirstPhase(cfg));
            OwnedOk(cfg, first) && !Needs(cfg, first, mark)
    ensures var release := Op(turn, 0, true, NOTHING, Drop(hold, Finished(Released)));
            OwnedOk(cfg, release) && !Needs(cfg, release, mark)
  {
  }

  lemma StepNeeds(cfg: Config, s: State, step: Step)
    requires Inv(cfg, s) && NeedsOk(cfg, s)
    ensures NeedsOk(cfg, Apply(cfg, s, step))
  {
    hide Apply, Inv, Had, Shows, Needs, OwnedOk;
    var t := Apply(cfg, s, step);
    forall i | 0 <= i < |t.ops| ensures OwnedOk(cfg, t.ops[i]) {
      OpNeeds(cfg, s, step, i, GaveUp);
    }
    forall i, mark | 0 <= i < |t.ops| && Needs(cfg, t.ops[i], mark) ensures Had(cfg, t.history, i, mark) {
      OpNeeds(cfg, s, step, i, mark);
    }
  }

  lemma OpNeeds(cfg: Config, s: State, step: Step, i: nat, mark: Mark)
    requires Inv(cfg, s) && NeedsOk(cfg, s) && i < |Apply(cfg, s, step).ops|
    ensures var t := Apply(cfg, s, step);
            OwnedOk(cfg, t.ops[i]) && (Needs(cfg, t.ops[i], mark) ==> Had(cfg, t.history, i, mark))
  {
    hide OpAfter, SpentAfter, HoldsAfter, Had, Shows, Needs, OwnedOk, NeverShort, Balanced, Standing, CapOk, FirstPhase;
    match step {
      case Call(j, answer) =>
        if j < |s.ops| {
          CallNeeds(cfg, s, j, answer, mark);
          HadStays(cfg, s.history, CallOf(s, j, answer), i, mark);
        }
      case ForeignHold(turn, text) => HadStays(cfg, s.history, Foreign(turn, text), i, mark);
      case Enforce(turn, amount, skip) => BeginsFree(cfg, turn, amount, skip, NOTHING, mark);
      case Release(turn, hold) => BeginsFree(cfg, turn, 0, true, hold, mark);
    }
  }

  lemma {:induction false} NeedsRun(cfg: Config, steps: seq<Step>)
    requires RoundTrips(cfg)
    ensures NeedsOk(cfg, Run(cfg, EMPTY, steps))
  {
    hide Apply, Inv, Had;
    if steps != [] {
      var most := steps[..|steps| - 1];
      NeedsRun(cfg, most);
      RunKeeps(cfg, most);
      StepNeeds(cfg, Run(cfg, EMPTY, most), steps[|steps| - 1]);
    }
  }

  // ------------------------------------------------------- what a call decides

  /** An operation that gives a reservation back for whoever ends the turn. */
  predicate Releasing(phase: Phase) {
    match phase
    case Drop(_, next) => next == Finished(Released)
    case Give(next) => next == Finished(Released)
    case Finished(outcome) => outcome == Released || outcome == ReleaseFailed
    case _ => false
  }

  /** What one call makes of its operation for good. */
  ghost predicate Leads(cfg: Config, e: Event, phase: Phase)
    requires e.Called?
  {
    && (forall reason :: Explains(cfg, e, e.op, reason) ==> Denial(phase) == Some(reason))
    && (e.was.phase.Bucket? && e.answer == Answers(true) ==>
          phase == Finished(Admitted(e.was.phase.hold, e.was.phase.created)))
    && (Releasing(e.was.phase) && !e.was.phase.Finished? && e.answer.Fails? ==> phase == Finished(ReleaseFailed))
  }

  ghost predicate LeadsOk(cfg: Config, s: State) {
    forall j :: 0 <= j < |s.history| && s.history[j].Called? ==>
      s.history[j].op < |s.ops| && Leads(cfg, s.history[j], s.ops[s.history[j].op].phase)
  }

  lemma CallLeads(cfg: Config, s: State, i: nat, answer: Answer)
    requires i < |s.ops| && OpOk(s.ops[i])
    ensures Leads(cfg, CallOf(s, i, answer), OpAfter(cfg, s.spent, s.holds, s.ops[i], answer).phase)
  {
  }

  lemma LeadsStays(cfg: Config, s: State, i: nat, answer: Answer, e: Event)
    requires i < |s.ops| && OpOk(s.ops[i]) && e.Called? && Leads(cfg, e, s.ops[i].phase)
    ensures Leads(cfg, e, OpAfter(cfg, s.spent, s.holds, s.ops[i], answer).phase)
  {
    hide Explains;
    CallExplains(cfg, s, i, answer);
  }

  lemma StepLeads(cfg: Config, s: State, step: Step)
    requires Inv(cfg, s) && LeadsOk(cfg, s)
    ensures LeadsOk(cfg, Apply(cfg, s, step))
  {
    hide OpAfter, SpentAfter, HoldsAfter, Leads, NeverShort, Balanced, Standing, CapOk, FirstPhase;
    var t := Apply(cfg, s, step);
    forall j | 0 <= j < |t.history| && t.history[j].Called?
      ensures t.history[j].op < |t.ops| && Leads(cfg, t.history[j], t.ops[t.history[j].op].phase)
    {
      if step.Call? && step.op < |s.ops| {
        if j == |s.history| {
          CallLeads(cfg, s, step.op, step.answer);
        } else if s.history[j].op == step.op {
          LeadsStays(cfg, s, step.op, step.answer, s.history[j]);
        }
      }
    }
  }

  lemma {:induction false} LeadsRun(cfg: Config, steps: seq<Step>)
    requires RoundTrips(cfg)
    ensures LeadsOk(cfg, Run(cfg, EMPTY, steps))
  {
    hide Apply, Inv, Leads;
    if steps != [] {
      var most := steps[..|steps| - 1];
      LeadsRun(cfg, most);
      RunKeeps(cfg, most);
      StepLeads(cfg, Run(cfg, EMPTY, most), steps[|steps| - 1]);
    }
  }

  // ------------------------------------------------------------------ main results

  /**
   * In every run a request that was admitted had room in each counter that is capped,
   * and its claim answered; it goes on with the hold it recorded, or with the one it
   * found; and unless it skips the bucket, the bucket allowed the turn.
   */
  lemma AdmissionsAreEarned(cfg: Config, steps: seq<Step>, i: nat)
    requires RoundTrips(cfg) && i < |Run(cfg, EMPTY, steps).ops|
    requires var phase := Run(cfg, EMPTY, steps).ops[i].phase; phase.Finished? && phase.outcome.Admitted?
    ensures var t := Run(cfg, EMPTY, steps); var op := t.ops[i];
            && (cfg.companyCap > 0 ==> Had(cfg, t.history, i, RoomInCompany))
            && (cfg.globalCap > 0 ==> Had(cfg, t.history, i, RoomInGlobal))
            && Had(cfg, t.history, i, HoldTaken(op.phase.outcome.hold, op.phase.outcome.created))
            && (!op.skipBucket ==> Had(cfg, t.history, i, TurnAllowed))
  {
    hide Run, Had;
    NeedsRun(cfg, steps);
    var op := Run(cfg, EMPTY, steps).ops[i];
    assert cfg.companyCap > 0 ==> Needs(cfg, op, RoomInCompany);
    assert cfg.globalCap > 0 ==> Needs(cfg, op, RoomInGlobal);
    assert Needs(cfg, op, HoldTaken(op.phase.outcome.hold, op.phase.outcome.created));
    assert !op.skipBucket ==> Needs(cfg, op, TurnAllowed);
  }

  /**
   * In every run a call that is answered decides: an operation that ended was denied
   * for a reason exactly when one of its calls showed that reason, and admitted
   * whenever the bucket allowed it.
   */
  lemma DeniedIff(cfg: Config, steps: seq<Step>, i: nat, reason: Reason)
    requires RoundTrips(cfg) && i < |Run(cfg, EMPTY, steps).ops| && Run(cfg, EMPTY, steps).ops[i].phase.Finished?
    ensures var t := Run(cfg, EMPTY, steps);
            && (t.ops[i].phase == Finished(Denied(reason)) <==>
                  exists j :: 0 <= j < |t.history| && Explains(cfg, t.history[j], i, reason))
            && forall j :: 0 <= j < |t.history| && Shows(cfg, t.history[j], i, TurnAllowed) ==>
                 var was := t.history[j].was.phase; t.ops[i].phase == Finished(Admitted(was.hold, was.created))
  {
    hide Run, Explains;
    LeadsRun(cfg, steps);
    var t := Run(cfg, EMPTY, steps);
    if t.ops[i].phase == Finished(Denied(reason)) {
      DenialsAreClassified(cfg, steps, i, reason);
    }
    forall j | 0 <= j < |t.history| && Explains(cfg, t.history[j], i, reason)
      ensures t.ops[i].phase == Finished(Denied(reason))
    {
      ExplainsOwn(cfg, t.history[j], i, reason);
      assert Leads(cfg, t.history[j], t.ops[i].phase);
    }
    forall j | 0 <= j < |t.history| && Shows(cfg, t.history[j], i, TurnAllowed)
      ensures var was := t.history[j].was.phase; t.ops[i].phase == Finished(Admitted(was.hold, was.created))
    {
      assert Leads(cfg, t.history[j], t.ops[i].phase);
    }
  }

  lemma ExplainsOwn(cfg: Config, e: Event, i: nat, reason: Reason)
    requires Explains(cfg, e, i, reason)
    ensures e.Called? && e.op == i
  {
  }

  /** A release that ended failed exactly when one of its calls was not answered. */
  lemma ReleaseFailsIff(cfg: Config, steps: seq<Step>, i: nat)
    requires RoundTrips(cfg) && i < |Run(cfg, EMPTY, steps).ops|
    requires var phase := Run(cfg, EMPTY, steps).ops[i].phase; phase.Finished? && Releasing(phase)
    ensures var t := Run(cfg, EMPTY, steps);
            t.ops[i].phase == Finished(ReleaseFailed) <==>
            exists j :: 0 <= j < |t.history| && AsksToRelease(t.history[j], i) && t.history[j].answer.Fails?
  {
    hide Run;
    LeadsRun(cfg, steps);
    NeedsRun(cfg, steps);
    var t := Run(cfg, EMPTY, steps);
    if t.ops[i].phase == Finished(ReleaseFailed) {
      assert Needs(cfg, t.ops[i], GaveUp);
    }
  }

  /** A call of a release that had not ended. */
  predicate AsksToRelease(e: Event, i: nat) {
    e.Called? && e.op == i && Releasing(e.was.phase) && !e.was.phase.Finished?
  }

  // ---------------------------------------------------------------- every call acts

  /** Store calls an operation can still make, counting those that give something back. */
  function Left(op: Op): nat {
    match op.phase
    case AddCompany => 9
    case AddGlobal => 8
    case Claim => 7
    case Undo(next) => 4 + Parts(op.owned)
    case Bucket(_, _) => 4
    case Drop(_, _) => 3
    case Give(_) => Parts(op.owned)
    case Finished(_) => 0
  }

  function Parts(a: Amounts): nat {
    (if a.company > 0 then 1 else 0) + if a.global > 0 then 1 else 0
  }

  /** Each call, however it is answered, brings its operation nearer to its outcome, which is for good. */
  lemma CallsEnd(cfg: Config, s: State, i: nat, answer: Answer)
    requires i < |s.ops| && OpOk(s.ops[i]) && Follows(s.ops[i].phase)
    ensures var t := Apply(cfg, s, Call(i, answer));
            && |t.ops| == |s.ops|
            && (s.ops[i].phase.Finished? ==> t.ops[i] == s.ops[i])
            && (!s.ops[i].phase.Finished? ==> Left(t.ops[i]) < Left(s.ops[i]))
            && (Left(t.ops[i]) == 0 ==> t.ops[i].phase.Finished?)
  {
    hide SpentAfter, HoldsAfter;
  }
}
