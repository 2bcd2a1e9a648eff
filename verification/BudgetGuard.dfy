/**
 * The budget reservation protocol
 * (packages/assistant-runtime/src/assistant-budget-guard.ts) over the atomic store
 * steps of packages/assistant-runtime/src/stores/budget.ts.
 *
 * Every store call is a step; a call may fail without effect; any number of
 * enforce and release operations interleave.  `history` is a trace that no
 * operation reads: each store call as it was answered, with what its keys held.
 */
module BudgetGuard {
  import opened Wrappers
  import opened BudgetHold

  datatype Counter = CompanyDay(company: string, date: string) | GlobalDay(date: string)

  datatype Turn = Turn(company: string, date: string, kind: string, conversation: string, command: string)

  /** The two daily caps, and how a hold is recorded as text. */
  datatype Config = Config(companyCap: int, globalCap: int, encode: Amounts -> string, decode: string -> Option<Amounts>)

  ghost predicate RoundTrips(cfg: Config) {
    forall a :: cfg.decode(cfg.encode(a)) == Some(a)
  }

  /** The guard as it is wired: holds recorded as two whole numbers and a colon. */
  function GuardConfig(companyCap: int, globalCap: int, other: OtherNumbers): (cfg: Config)
    ensures RoundTrips(cfg)
  {
    var cfg := Config(companyCap, globalCap, a => EncodeHold(a), text => DecodeHold(text, other));
    assert RoundTrips(cfg) by {
      forall a: Amounts ensures cfg.decode(cfg.encode(a)) == Some(a) {
        HoldRoundTrip(a, other);
      }
    }
    cfg
  }

  function CompanyKey(turn: Turn): Counter { CompanyDay(turn.company, turn.date) }

  function GlobalKey(turn: Turn): Counter { GlobalDay(turn.date) }

  datatype Reason = TurnLimit | CompanyBudget | GlobalBudget | BudgetStore | RateLimitStore

  datatype Outcome =
    | Admitted(hold: Amounts, created: bool)
    | Denied(reason: Reason)
    | Released
    | ReleaseFailed

  /** `next` is where an operation goes once it gave back what it took. */
  datatype Phase =
    | AddCompany
    | AddGlobal
    | Claim
    | Undo(next: Phase)
    | Bucket(hold: Amounts, created: bool)
    | Drop(hold: Amounts, next: Phase)
    | Give(next: Phase)
    | Finished(outcome: Outcome)

  /** `owned` is what this operation charged and has neither recorded nor given back. */
  datatype Op = Op(turn: Turn, amount: nat, skipBucket: bool, owned: Amounts, phase: Phase)

  datatype Answer = Fails | Answers(allowed: bool)

  /** One call: the operation as it was, the answer, and what its two counters and its record held. */
  datatype Event =
    | Called(op: nat, was: Op, answer: Answer, company: nat, global: nat, held: Option<string>)
    | Foreign(turn: Turn, text: string)

  datatype State = State(spent: map<Counter, nat>, holds: map<Turn, string>, ops: seq<Op>, history: seq<Event>)

  datatype Step =
    | Enforce(turn: Turn, amount: nat, skipBucket: bool)
    | Release(turn: Turn, hold: Amounts)
    | Call(op: nat, answer: Answer)
    | ForeignHold(turn: Turn, text: string)

  function At(m: map<Counter, nat>, k: Counter): nat {
    if k in m then m[k] else 0
  }

  // ------------------------------------------------------------- the store

  /** Adds, stopping at zero. */
  function Added(spent: map<Counter, nat>, k: Counter, delta: int): map<Counter, nat> {
    var next := At(spent, k) + delta;
    spent[k := if next > 0 then next else 0]
  }

  predicate TryAddAllows(spent: map<Counter, nat>, k: Counter, amount: nat, cap: int) {
    At(spent, k) + amount <= cap
  }

  // ---------------------------------------------------------- one operation

  const NOTHING := Amounts(0, 0)

  function AfterCompany(cfg: Config): Phase {
    if cfg.globalCap > 0 then AddGlobal else Claim
  }

  function FirstPhase(cfg: Config): Phase {
    if cfg.companyCap > 0 then AddCompany else AfterCompany(cfg)
  }

  function BucketOrDone(op: Op, hold: Amounts, created: bool): Phase {
    if op.skipBucket then Finished(Admitted(hold, created)) else Bucket(hold, created)
  }

  /** Give back what is owned, skipping counters nothing was added to. */
  function Undoing(op: Op, next: Phase): Op {
    op.(phase := if op.owned == NOTHING then next else Undo(next))
  }

  function Giving(op: Op, next: Phase): Op {
    op.(phase := if op.owned == NOTHING then next else Give(next))
  }

  function Refused(reason: Reason): Phase {
    Finished(Denied(reason))
  }

  /** A release whose store call failed says so; a request goes on to its own answer. */
  function Stuck(next: Phase): Phase {
    if next == Finished(Released) then Finished(ReleaseFailed) else next
  }

  // ------------------------------------- what one store call does to its operation

  /** tryAdd on the company counter. */
  function ReserveCompany(cfg: Config, spent: map<Counter, nat>, op: Op, ok: bool): Op {
    if !ok then Undoing(op, Refused(BudgetStore))
    else if !TryAddAllows(spent, CompanyKey(op.turn), op.amount, cfg.companyCap) then Undoing(op, Refused(CompanyBudget))
    else op.(owned := Amounts(op.amount, op.owned.global), phase := AfterCompany(cfg))
  }

  /** tryAdd on the global counter. */
  function ReserveGlobal(cfg: Config, spent: map<Counter, nat>, op: Op, ok: bool): Op {
    if !ok then Undoing(op, Refused(BudgetStore))
    else if !TryAddAllows(spent, GlobalKey(op.turn), op.amount, cfg.globalCap) then Undoing(op, Refused(GlobalBudget))
    else op.(owned := Amounts(op.owned.company, op.amount), phase := Claim)
  }

  /** claimHold: the counters have moved, the record comes second. */
  function ClaimHold(cfg: Config, holds: map<Turn, string>, op: Op, ok: bool): Op {
    if !ok then Undoing(op, Refused(BudgetStore))
    else if op.turn !in holds then op.(owned := NOTHING, phase := BucketOrDone(op, op.owned, true))
    else
      var recorded := cfg.decode(holds[op.turn]);
      if recorded.Some? then Undoing(op, BucketOrDone(op, recorded.value, false))
      else op.(owned := NOTHING, phase := BucketOrDone(op, op.owned, false))
  }

  /** Undoing a request's own increments: the company counter first, then the global one. */
  function UndoNext(op: Op, next: Phase, ok: bool): Op {
    if ok && op.owned.company > 0 then Undoing(op.(owned := Amounts(0, op.owned.global)), next)
    else op.(owned := NOTHING, phase := next)
  }

  /** Giving back a dropped record's amounts, in the same order. */
  function GiveNext(op: Op, next: Phase, ok: bool): Op {
    if !ok then op.(owned := NOTHING, phase := Stuck(next))
    else if op.owned.company > 0 then Giving(op.(owned := Amounts(0, op.owned.global)), next)
    else op.(owned := NOTHING, phase := next)
  }

  /** The turn bucket; only a reservation this request took is given back. */
  function AskBucket(op: Op, hold: Amounts, created: bool, answer: Answer): Op {
    if answer.Answers? && answer.allowed then op.(phase := Finished(Admitted(hold, created)))
    else
      var reason := if answer.Fails? then RateLimitStore else TurnLimit;
      op.(phase := if created then Drop(hold, Refused(reason)) else Refused(reason))
  }

  /** dropHold: only the caller that deleted the record subtracts. */
  function DropHold(holds: map<Turn, string>, op: Op, hold: Amounts, next: Phase, ok: bool): Op {
    if !ok then op.(phase := Stuck(next))
    else if op.turn !in holds then op.(phase := next)
    else Giving(op.(owned := hold), next)
  }

  function OpAfter(cfg: Config, spent: map<Counter, nat>, holds: map<Turn, string>, op: Op, answer: Answer): Op {
    match op.phase
    case AddCompany => ReserveCompany(cfg, spent, op, answer.Answers?)
    case AddGlobal => ReserveGlobal(cfg, spent, op, answer.Answers?)
    case Claim => ClaimHold(cfg, holds, op, answer.Answers?)
    case Undo(next) => UndoNext(op, next, answer.Answers?)
    case Give(next) => GiveNext(op, next, answer.Answers?)
    case Bucket(hold, created) => AskBucket(op, hold, created, answer)
    case Drop(hold, next) => DropHold(holds, op, hold, next, answer.Answers?)
    case Finished(_) => op
  }

  // ---------------------------------------------- and to the counters and records

  function SpentAfter(cfg: Config, spent: map<Counter, nat>, op: Op, ok: bool): map<Counter, nat> {
    if !ok then spent
    else match op.phase {
      case AddCompany =>
        if TryAddAllows(spent, CompanyKey(op.turn), op.amount, cfg.companyCap)
        then Added(spent, CompanyKey(op.turn), op.amount) else spent
      case AddGlobal =>
        if TryAddAllows(spent, GlobalKey(op.turn), op.amount, cfg.globalCap)
        then Added(spent, GlobalKey(op.turn), op.amount) else spent
      case Undo(_) => GivenBack(spent, op)
      case Give(_) => GivenBack(spent, op)
      case _ => spent
    }
  }

  /** One subtraction: company before global. */
  function GivenBack(spent: map<Counter, nat>, op: Op): map<Counter, nat> {
    if op.owned.company > 0 then Added(spent, CompanyKey(op.turn), -(op.owned.company as int))
    else Added(spent, GlobalKey(op.turn), -(op.owned.global as int))
  }

  function HoldsAfter(cfg: Config, holds: map<Turn, string>, op: Op, ok: bool): map<Turn, string> {
    if ok && op.phase.Claim? && op.turn !in holds then holds[op.turn := cfg.encode(op.owned)]
    else if ok && op.phase.Drop? then holds - {op.turn}
    else holds
  }

  function HeldFor(holds: map<Turn, string>, turn: Turn): Option<string> {
    if turn in holds then Some(holds[turn]) else None
  }

  function CallOf(s: State, i: nat, answer: Answer): Event
    requires i < |s.ops|
  {
    var op := s.ops[i];
    Called(i, op, answer, At(s.spent, CompanyKey(op.turn)), At(s.spent, GlobalKey(op.turn)), HeldFor(s.holds, op.turn))
  }

  function CallStep(cfg: Config, s: State, i: nat, answer: Answer): State
    requires i < |s.ops|
  {
    var op, ok := s.ops[i], answer.Answers?;
    State(SpentAfter(cfg, s.spent, op, ok),
          HoldsAfter(cfg, s.holds, op, ok),
          s.ops[i := OpAfter(cfg, s.spent, s.holds, op, answer)],
          s.history + [CallOf(s, i, answer)])
  }

  function Apply(cfg: Config, s: State, step: Step): State {
    match step
    case Enforce(turn, amount, skipBucket) => s.(ops := s.ops + [Op(turn, amount, skipBucket, NOTHING, FirstPhase(cfg))])
    case Release(turn, hold) =>
      s.(ops := s.ops + [Op(turn, 0, true, NOTHING, Drop(hold, Finished(Released)))])
    case Call(i, answer) => if i < |s.ops| then CallStep(cfg, s, i, answer) else s
    case ForeignHold(turn, text) =>
      if turn in s.holds || cfg.decode(text).Some? then s
      else s.(holds := s.holds[turn := text], history := s.history + [Foreign(turn, text)])
  }

  function Run(cfg: Config, s: State, steps: seq<Step>): State {
    if steps == [] then s else Apply(cfg, Run(cfg, s, steps[..|steps| - 1]), steps[|steps| - 1])
  }

  const EMPTY := State(map[], map[], [], [])

  // ------------------------------------------------------------- the books

  /** What an amount held for a turn means for one counter. */
  function Share(turn: Turn, a: Amounts, k: Counter): nat {
    if k == CompanyKey(turn) then a.company else if k == GlobalKey(turn) then a.global else 0
  }

  function TextShare(cfg: Config, turn: Turn, text: string, k: Counter): nat {
    var a := cfg.decode(text);
    if a.Some? then Share(turn, a.value, k) else 0
  }

  // ------------------------------------------------------- what a call came to

  function TurnOf(e: Event): Turn {
    if e.Called? then e.was.turn else e.turn
  }

  predicate Records(e: Event) {
    e.Foreign? || (e.was.phase.Claim? && e.answer.Answers? && e.held.None?)
  }

  /** A record deleted: only this caller gives its amounts back. */
  predicate Drops(e: Event) {
    e.Called? && e.was.phase.Drop? && e.answer.Answers? && e.held.Some?
  }

  /** A subtraction that failed: what was left of it stays charged and is nobody's any more. */
  predicate GivesUp(e: Event) {
    e.Called? && e.answer.Fails? && (e.was.phase.Undo? || e.was.phase.Give?)
  }

  /** A recorded hold this build cannot read: neither reservation can be given back. */
  predicate FindsUnreadable(cfg: Config, e: Event) {
    e.Called? && e.was.phase.Claim? && e.answer.Answers? && e.held.Some? && cfg.decode(e.held.value).None?
  }

  /**
   * What a call leaves on a counter that no record and no operation accounts for,
   * negative for a drop that gives back more than its record held.
   */
  function LeakOf(cfg: Config, e: Event, k: Counter): int {
    if GivesUp(e) || FindsUnreadable(cfg, e) then Share(e.was.turn, e.was.owned, k)
    else if Drops(e) then TextShare(cfg, e.was.turn, e.held.value, k) - Share(e.was.turn, e.was.phase.hold, k)
    else 0
  }

  function Leaked(cfg: Config, h: seq<Event>, k: Counter): int {
    if h == [] then 0 else Leaked(cfg, h[..|h| - 1], k) + LeakOf(cfg, h[|h| - 1], k)
  }

  /** At no earlier point had more been given back than was unaccounted for. */
  ghost predicate NeverShort(cfg: Config, h: seq<Event>, k: Counter) {
    forall j :: 0 <= j < |h| ==> Leaked(cfg, h[..j], k) >= 0
  }

  ghost function RecordedSum(cfg: Config, holds: map<Turn, string>, k: Counter): nat {
    if holds == map[] then 0
    else
      var turn :| turn in holds;
      TextShare(cfg, turn, holds[turn], k) + RecordedSum(cfg, holds - {turn}, k)
  }

  function OwnedSum(ops: seq<Op>, k: Counter): nat {
    if ops == [] then 0
    else OwnedSum(ops[..|ops| - 1], k) + Share(ops[|ops| - 1].turn, ops[|ops| - 1].owned, k)
  }

  lemma {:induction false} RecordedWithout(cfg: Config, holds: map<Turn, string>, turn: Turn, k: Counter)
    requires turn in holds
    ensures RecordedSum(cfg, holds, k) == TextShare(cfg, turn, holds[turn], k) + RecordedSum(cfg, holds - {turn}, k)
    decreases |holds|
  {
    var first :| first in holds && RecordedSum(cfg, holds, k) ==
                 TextShare(cfg, first, holds[first], k) + RecordedSum(cfg, holds - {first}, k);
    if first != turn {
      RecordedWithout(cfg, holds - {first}, turn, k);
      RecordedWithout(cfg, holds - {turn}, first, k);
      assert holds - {first} - {turn} == holds - {turn} - {first};
    }
  }

  lemma RecordedWith(cfg: Config, holds: map<Turn, string>, turn: Turn, text: string, k: Counter)
    requires turn !in holds
    ensures RecordedSum(cfg, holds[turn := text], k) == RecordedSum(cfg, holds, k) + TextShare(cfg, turn, text, k)
  {
    RecordedWithout(cfg, holds[turn := text], turn, k);
    assert holds[turn := text] - {turn} == holds;
  }

  lemma {:induction false} OwnedUpdated(ops: seq<Op>, i: nat, op: Op, k: Counter)
    requires i < |ops|
    ensures OwnedSum(ops[i := op], k) ==
            OwnedSum(ops, k) - Share(ops[i].turn, ops[i].owned, k) + Share(op.turn, op.owned, k)
  {
    var n := |ops| - 1;
    if i < n {
      OwnedUpdated(ops[..n], i, op, k);
      assert ops[i := op][..n] == ops[..n][i := op];
    } else {
      assert ops[i := op][..n] == ops[..n];
    }
  }

  /** What is on a counter is what records, operations and leaks account for. */
  ghost predicate Balanced(cfg: Config, s: State, k: Counter) {
    At(s.spent, k) == RecordedSum(cfg, s.holds, k) + OwnedSum(s.ops, k) + Leaked(cfg, s.history, k)
  }

  /** A counter holds what the records and the operations in flight say, at least. */
  ghost predicate Covers(cfg: Config, s: State, k: Counter) {
    At(s.spent, k) >= RecordedSum(cfg, s.holds, k) + OwnedSum(s.ops, k)
  }

  /** Where an operation waits owning nothing. */
  predicate Resting(phase: Phase) {
    phase.Finished? || phase.Bucket?
  }

  ghost predicate OpOk(op: Op) {
    match op.phase
    case AddCompany => op.owned == NOTHING
    case AddGlobal => op.owned.global == 0
    case Claim => true
    case Undo(next) => op.owned != NOTHING && Resting(next)
    case Give(next) => op.owned != NOTHING && Resting(next)
    case Drop(_, next) => op.owned == NOTHING && Resting(next)
    case _ => op.owned == NOTHING
  }

  /** A disabled counter is not asked. */
  ghost predicate PhaseOk(cfg: Config, op: Op) {
    (op.phase.AddCompany? ==> cfg.companyCap > 0) && (op.phase.AddGlobal? ==> cfg.globalCap > 0)
  }

  ghost predicate Inv(cfg: Config, s: State) {
    && (forall i :: 0 <= i < |s.ops| ==> OpOk(s.ops[i]) && PhaseOk(cfg, s.ops[i]))
    && (forall k :: NeverShort(cfg, s.history, k) ==> Balanced(cfg, s, k))
    && (forall k :: CapOk(cfg, s, k))
    && (forall turn :: Standing(s.history, turn) == if turn in s.holds then 1 else 0)
  }

  function CapOf(cfg: Config, k: Counter): int {
    if k.CompanyDay? then cfg.companyCap else cfg.globalCap
  }

  /** An enabled cap is never passed, and a disabled counter never charged. */
  ghost predicate CapOk(cfg: Config, s: State, k: Counter) {
    At(s.spent, k) <= var cap := CapOf(cfg, k); if cap > 0 then cap else 0
  }

  /** Records made less records dropped, for one turn. */
  function Standing(h: seq<Event>, turn: Turn): int {
    if h == [] then 0
    else
      var e := h[|h| - 1];
      Standing(h[..|h| - 1], turn) + if TurnOf(e) != turn then 0 else if Records(e) then 1 else if Drops(e) then -1 else 0
  }

  lemma HistoryGrows(cfg: Config, h: seq<Event>, e: Event, turn: Turn, k: Counter)
    ensures Standing(h + [e], turn) ==
            Standing(h, turn) + if TurnOf(e) != turn then 0 else if Records(e) then 1 else if Drops(e) then -1 else 0
    ensures Leaked(cfg, h + [e], k) == Leaked(cfg, h, k) + LeakOf(cfg, e, k)
    ensures NeverShort(cfg, h + [e], k) <==> NeverShort(cfg, h, k) && Leaked(cfg, h, k) >= 0
  {
    var g := h + [e];
    assert g[..|h|] == h;
    assert forall j :: 0 <= j < |h| ==> g[..j] == h[..j];
    if NeverShort(cfg, g, k) {
      assert Leaked(cfg, g[..|h|], k) >= 0;
      forall j | 0 <= j < |h| ensures Leaked(cfg, h[..j], k) >= 0 {
        assert Leaked(cfg, g[..j], k) >= 0;
      }
    }
  }

  /** An operation never owns more of a counter than the counter holds. */
  lemma OwnedIsThere(cfg: Config, s: State, i: nat, k: Counter)
    requires i < |s.ops| && Covers(cfg, s, k)
    ensures Share(s.ops[i].turn, s.ops[i].owned, k) <= At(s.spent, k)
  {
    OwnedUpdated(s.ops, i, s.ops[i].(owned := NOTHING), k);
  }

  lemma OpStaysOk(cfg: Config, spent: map<Counter, nat>, holds: map<Turn, string>, op: Op, answer: Answer)
    requires OpOk(op) && PhaseOk(cfg, op)
    ensures var next := OpAfter(cfg, spent, holds, op, answer);
            OpOk(next) && PhaseOk(cfg, next) && next.turn == op.turn
  {
  }

  /** Counters: what is charged is what the operation comes to own. */
  lemma ReserveAccounts(cfg: Config, spent: map<Counter, nat>, holds: map<Turn, string>, op: Op, answer: Answer, k: Counter)
    requires OpOk(op) && (op.phase.AddCompany? || op.phase.AddGlobal?)
    ensures var next := OpAfter(cfg, spent, holds, op, answer);
            At(SpentAfter(cfg, spent, op, answer.Answers?), k) - At(spent, k) ==
            Share(op.turn, next.owned, k) - Share(op.turn, op.owned, k)
  {
  }

  /** What is given back the operation stops owning; what a failure leaves behind leaks. */
  lemma GiveBackAccounts(cfg: Config, s: State, i: nat, answer: Answer, k: Counter)
    requires i < |s.ops| && OpOk(s.ops[i]) && (s.ops[i].phase.Undo? || s.ops[i].phase.Give?)
    requires Share(s.ops[i].turn, s.ops[i].owned, k) <= At(s.spent, k)
    ensures var op := s.ops[i]; var next := OpAfter(cfg, s.spent, s.holds, op, answer);
            At(SpentAfter(cfg, s.spent, op, answer.Answers?), k) - At(s.spent, k) ==
            Share(op.turn, next.owned, k) - Share(op.turn, op.owned, k) + LeakOf(cfg, CallOf(s, i, answer), k)
  {
  }

  /** Records: what a claim records it stops owning, what a drop removes and what it comes to own differ by a leak. */
  lemma RecordAccounts(cfg: Config, s: State, i: nat, answer: Answer, k: Counter)
    requires i < |s.ops| && OpOk(s.ops[i]) && (s.ops[i].phase.Claim? || s.ops[i].phase.Drop?) && RoundTrips(cfg)
    ensures var op := s.ops[i]; var next := OpAfter(cfg, s.spent, s.holds, op, answer);
            RecordedSum(cfg, HoldsAfter(cfg, s.holds, op, answer.Answers?), k) - RecordedSum(cfg, s.holds, k) +
            Share(op.turn, next.owned, k) - Share(op.turn, op.owned, k) + LeakOf(cfg, CallOf(s, i, answer), k) == 0
  {
    var op := s.ops[i];
    if answer.Answers? && op.turn !in s.holds {
      if op.phase.Claim? {
        RecordedWith(cfg, s.holds, op.turn, cfg.encode(op.owned), k);
      } else {
        assert s.holds - {op.turn} == s.holds;
      }
    } else if answer.Answers? && op.phase.Drop? {
      RecordedWithout(cfg, s.holds, op.turn, k);
    }
  }

  /** A reservation never passes its cap, and giving back never raises a counter. */
  lemma CapsStand(cfg: Config, spent: map<Counter, nat>, op: Op, ok: bool, k: Counter)
    requires PhaseOk(cfg, op)
    ensures At(SpentAfter(cfg, spent, op, ok), k) <= At(spent, k)
            || At(SpentAfter(cfg, spent, op, ok), k) <= CapOf(cfg, k)
  {
  }

  lemma CallBalances(cfg: Config, s: State, i: nat, answer: Answer, k: Counter)
    requires i < |s.ops| && OpOk(s.ops[i]) && PhaseOk(cfg, s.ops[i]) && RoundTrips(cfg)
    requires Balanced(cfg, s, k) && Leaked(cfg, s.history, k) >= 0
    ensures Balanced(cfg, CallStep(cfg, s, i, answer), k)
  {
    hide OpAfter, SpentAfter, HoldsAfter, LeakOf, Leaked, OwnedSum, RecordedSum, Share;
    var op, e := s.ops[i], CallOf(s, i, answer);
    var next := OpAfter(cfg, s.spent, s.holds, op, answer);
    OwnedIsThere(cfg, s, i, k);
    OpStaysOk(cfg, s.spent, s.holds, op, answer);
    OwnedUpdated(s.ops, i, next, k);
    HistoryGrows(cfg, s.history, e, op.turn, k);
    if op.phase.AddCompany? || op.phase.AddGlobal? {
      ReserveAccounts(cfg, s.spent, s.holds, op, answer, k);
      QuietCall(cfg, s, i, answer, k);
    } else if op.phase.Undo? || op.phase.Give? {
      GiveBackAccounts(cfg, s, i, answer, k);
      CountersOnly(cfg, s, i, answer);
    } else if op.phase.Claim? || op.phase.Drop? {
      RecordAccounts(cfg, s, i, answer, k);
      RecordsOnly(cfg, s, i, answer);
    } else {
      NeitherMoves(cfg, s, i, answer, k);
    }
  }

  lemma QuietCall(cfg: Config, s: State, i: nat, answer: Answer, k: Counter)
    requires i < |s.ops| && (s.ops[i].phase.AddCompany? || s.ops[i].phase.AddGlobal?)
    ensures LeakOf(cfg, CallOf(s, i, answer), k) == 0
    ensures HoldsAfter(cfg, s.holds, s.ops[i], answer.Answers?) == s.holds
  {
  }

  lemma CountersOnly(cfg: Config, s: State, i: nat, answer: Answer)
    requires i < |s.ops| && (s.ops[i].phase.Undo? || s.ops[i].phase.Give?)
    ensures HoldsAfter(cfg, s.holds, s.ops[i], answer.Answers?) == s.holds
  {
  }

  lemma RecordsOnly(cfg: Config, s: State, i: nat, answer: Answer)
    requires i < |s.ops| && (s.ops[i].phase.Claim? || s.ops[i].phase.Drop?)
    ensures SpentAfter(cfg, s.spent, s.ops[i], answer.Answers?) == s.spent
  {
  }

  lemma NeitherMoves(cfg: Config, s: State, i: nat, answer: Answer, k: Counter)
    requires i < |s.ops| && (s.ops[i].phase.Bucket? || s.ops[i].phase.Finished?)
    ensures SpentAfter(cfg, s.spent, s.ops[i], answer.Answers?) == s.spent
    ensures HoldsAfter(cfg, s.holds, s.ops[i], answer.Answers?) == s.holds
    ensures LeakOf(cfg, CallOf(s, i, answer), k) == 0
    ensures var next := OpAfter(cfg, s.spent, s.holds, s.ops[i], answer);
            next.owned == s.ops[i].owned && next.turn == s.ops[i].turn
  {
  }

  /** What stands recorded is what the trace says. */
  lemma RecordsStand(cfg: Config, s: State, i: nat, answer: Answer, turn: Turn)
    requires i < |s.ops| && Standing(s.history, turn) == if turn in s.holds then 1 else 0
    ensures var t := CallStep(cfg, s, i, answer);
            Standing(t.history, turn) == if turn in t.holds then 1 else 0
  {
    hide OpAfter, SpentAfter;
    HistoryGrows(cfg, s.history, CallOf(s, i, answer), turn, GlobalKey(turn));
  }

  lemma CallKeeps(cfg: Config, s: State, i: nat, answer: Answer)
    requires Inv(cfg, s) && i < |s.ops| && RoundTrips(cfg)
    ensures Inv(cfg, CallStep(cfg, s, i, answer))
  {
    hide OpAfter, SpentAfter, HoldsAfter, Balanced, NeverShort, Standing, OpOk, PhaseOk;
    var t := CallStep(cfg, s, i, answer);
    OpStaysOk(cfg, s.spent, s.holds, s.ops[i], answer);
    forall k ensures CapOk(cfg, t, k) {
      assert CapOk(cfg, s, k);
      CapsStand(cfg, s.spent, s.ops[i], answer.Answers?, k);
    }
    forall turn ensures Standing(t.history, turn) == if turn in t.holds then 1 else 0 {
      RecordsStand(cfg, s, i, answer, turn);
    }
    forall k | NeverShort(cfg, t.history, k) ensures Balanced(cfg, t, k) {
      HistoryGrows(cfg, s.history, CallOf(s, i, answer), s.ops[i].turn, k);
      CallBalances(cfg, s, i, answer, k);
    }
  }

  /** A new operation owns nothing. */
  lemma StartKeeps(cfg: Config, s: State, op: Op)
    requires Inv(cfg, s) && op.owned == NOTHING && OpOk(op) && PhaseOk(cfg, op)
    ensures Inv(cfg, s.(ops := s.ops + [op]))
  {
    hide NeverShort, Standing, Leaked, RecordedSum;
    var t := s.(ops := s.ops + [op]);
    assert t.ops[..|t.ops| - 1] == s.ops;
    forall k ensures CapOk(cfg, t, k) {
      assert CapOk(cfg, s, k);
    }
  }

  /** A hold another build recorded, unreadable here, counts for nothing. */
  lemma ForeignKeeps(cfg: Config, s: State, turn: Turn, text: string)
    requires Inv(cfg, s) && turn !in s.holds && cfg.decode(text).None?
    ensures Inv(cfg, s.(holds := s.holds[turn := text], history := s.history + [Foreign(turn, text)]))
  {
    hide Standing, Leaked, OwnedSum, NeverShort, OpOk, PhaseOk;
    var e := Foreign(turn, text);
    var t := s.(holds := s.holds[turn := text], history := s.history + [e]);
    forall k ensures CapOk(cfg, t, k) {
      assert CapOk(cfg, s, k);
    }
    forall other ensures Standing(t.history, other) == if other in t.holds then 1 else 0 {
      HistoryGrows(cfg, s.history, e, other, GlobalKey(other));
    }
    forall k | NeverShort(cfg, t.history, k) ensures Balanced(cfg, t, k) {
      HistoryGrows(cfg, s.history, e, turn, k);
      RecordedWith(cfg, s.holds, turn, text, k);
    }
  }

  lemma ApplyKeeps(cfg: Config, s: State, step: Step)
    requires Inv(cfg, s) && RoundTrips(cfg)
    ensures Inv(cfg, Apply(cfg, s, step))
  {
    hide Inv, CallStep;
    match step {
      case Enforce(turn, amount, skip) =>
        StartKeeps(cfg, s, Op(turn, amount, skip, NOTHING, FirstPhase(cfg)));
      case Release(turn, hold) =>
        StartKeeps(cfg, s, Op(turn, 0, true, NOTHING, Drop(hold, Finished(Released))));
      case ForeignHold(turn, text) =>
        if turn !in s.holds && cfg.decode(text).None? {
          ForeignKeeps(cfg, s, turn, text);
        }
      case Call(i, answer) =>
        if i < |s.ops| {
          CallKeeps(cfg, s, i, answer);
        }
    }
  }

  lemma {:induction false} RunKeeps(cfg: Config, steps: seq<Step>)
    requires RoundTrips(cfg)
    ensures Inv(cfg, Run(cfg, EMPTY, steps))
  {
    hide Apply;
    if steps == [] {
      assert forall k :: CapOk(cfg, EMPTY, k);
    } else {
      RunKeeps(cfg, steps[..|steps| - 1]);
      ApplyKeeps(cfg, Run(cfg, EMPTY, steps[..|steps| - 1]), steps[|steps| - 1]);
    }
  }
}
