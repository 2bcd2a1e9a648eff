/**
 * What each operation of the pause protocol answers, over whole runs
 * (packages/assistant-kit/src/create-kit.ts): by what its last read found, by the
 * clock when it decided, and by what the key held when it wrote.
 */
module PauseAnswers {
  import opened Wrappers
  import opened PauseStore
  import opened PauseProtocol
  import opened PauseTheorems
  import opened PauseRaces
  import opened PauseReads

  /**
   * What an operation's answer rests on: what its last read found, the clock at its
   * decision, and what the key held before and after the step that answered.
   */
  datatype Grounds = Grounds(raw: Option<Raw>, now: int, before: Option<Raw>, after: Option<Raw>)

  /** The last attempt of an operation: its last read, its decision, and the step that answered. */
  datatype Attempt = Attempt(read: nat, decide: nat, end: nat)

  ghost predicate IsLastAttempt(reg: Registry, s: State, steps: seq<Step>, i: nat, a: Attempt) {
    && a.read < a.decide <= a.end < |steps|
    && LastReadAt(reg, s, steps, i, a.read)
    && steps[a.decide] == Decide(i) && (a.end > a.decide ==> steps[a.end] == Put(i))
  }

  function GroundsOf(reg: Registry, s: State, steps: seq<Step>, key: Key, a: Attempt): Grounds
    requires a.read <= |steps| && a.decide <= |steps| && a.end < |steps|
  {
    Grounds(Get(Upto(reg, s, steps, a.read).entries, key), Upto(reg, s, steps, a.decide).now,
            Get(Upto(reg, s, steps, a.end).entries, key), Get(Upto(reg, s, steps, a.end + 1).entries, key))
  }

  // ------------------------------------------------------ what is answered, and when

  /** An open record of this owner and interaction was read. */
  predicate FoundOpen(raw: Option<Raw>, bind: string, id: nat) {
    && raw.Some? && raw.value.Encoded?
    && raw.value.record.bind == bind && raw.value.record.interactionId == id && raw.value.record.status == Open
  }

  predicate Untouched(g: Grounds) {
    g.after == g.before
  }

  /**
   * A claim: gone without an open record of its own, then too late, stale, and the
   * three ways an answer cannot be resolved; else its value is resolved from the
   * record's secret, and the claim is its own exactly when the key is as it was read.
   */
  ghost predicate ClaimTold(reg: Registry, call: Call, g: Grounds, result: Result)
    requires call.ClaimCall?
  {
    if !FoundOpen(g.raw, call.bind, call.id) then result == Gone && Untouched(g)
    else
      var r := g.raw.value.record;
      var kind := reg(r.kind);
      if g.now >= r.expiresAt then result == TooLate && Untouched(g)
      else if r.revision != call.revision then result == Stale(r) && Untouched(g)
      else if kind.None? then result == UnknownKind && Untouched(g)
      else
        var answer := kind.value.answer(call.answer);
        if answer.None? then result == InvalidAnswer && Untouched(g)
        else
          var value := kind.value.resolve(answer.value, r.secret);
          if value.None? then result == Unresolvable && Untouched(g)
          else if g.before == g.raw then
            && result == ClaimedResult(r.(status := Claimed), value.value)
            && g.after == Some(Encoded(r.(status := Claimed)))
          else result == Gone && Untouched(g)
  }

  /** The record of an opened or revised pause: its prompt parsed, its time counted from the decision. */
  function Fresh(kind: string, k: Kind, bind: string, id: nat, revision: nat, conversation: string,
                 continuation: string, prompt: string, secret: string, now: int): Record
  {
    Record(kind, bind, id, revision, conversation, Open, continuation, prompt, secret, now + k.ttlMs)
  }

  /** A revise: of an open record of its own, with a kind and a prompt that are accepted. */
  ghost predicate ReviseTold(reg: Registry, call: Call, g: Grounds, result: Result)
    requires call.ReviseCall?
  {
    if !FoundOpen(g.raw, call.bind, call.id) then result == Gone && Untouched(g)
    else
      var r := g.raw.value.record;
      var kind := reg(call.kind);
      if kind.None? then result == UnknownKind && Untouched(g)
      else
        var prompt := kind.value.prompt(call.prompt);
        if prompt.None? then result == InvalidPrompt && Untouched(g)
        else if g.before == g.raw then
          var next := Fresh(call.kind, kind.value, call.bind, call.id, r.revision + 1, call.conversation,
                            call.continuation, prompt.value, call.secret, g.now);
          result == OpenedResult(next) && g.after == Some(Encoded(next))
        else result == AlreadyOpen(r) && Untouched(g)
  }

  /** A release: of a claimed record of its own. */
  ghost predicate ReleaseTold(call: Call, g: Grounds, result: Result)
    requires call.ReleaseCall?
  {
    if g.raw.Some? && g.raw.value.Encoded? && g.raw.value.record.bind == call.bind
       && g.raw.value.record.interactionId == call.id && g.raw.value.record.status == Claimed && g.before == g.raw
    then result == Released && g.after == Some(Encoded(g.raw.value.record.(status := Open)))
    else result == Gone && Untouched(g)
  }

  /** An open record, or one an abandon still holds, that has not expired. */
  predicate Live(raw: Option<Raw>, now: int) {
    && raw.Some? && raw.value.Encoded?
    && raw.value.record.status in {Open, Cancelled} && now < raw.value.record.expiresAt
  }

  /**
   * An open: the live record it found, or its own record written over a dead one or
   * none; after both writes were refused, whatever record is there.
   */
  ghost predicate OpenTold(call: Call, last: bool, g: Grounds, result: Result)
    requires call.OpenCall?
  {
    var readable := g.raw.Some? && g.raw.value.Encoded?;
    if last then result == AlreadyOpen(if readable then g.raw.value.record else call.record) && Untouched(g)
    else if Live(g.raw, g.now) then result == AlreadyOpen(g.raw.value.record) && Untouched(g)
    else
      && result == OpenedResult(call.record) && g.after == Some(Encoded(call.record))
      && g.before == if readable then g.raw else None
  }

  /** An abandon that did not cancel: it found no open record of its own, or lost both writes. */
  ghost predicate AbandonTold(call: Call, last: bool, g: Grounds, result: Result)
    requires call.AbandonCall?
  {
    && Untouched(g)
    && if !(g.raw.Some? && g.raw.value.Encoded? && g.raw.value.record.bind == call.bind
            && g.raw.value.record.interactionId == call.id) then result == Gone
       else if last then result == AlreadyClaimed
       else
         && g.raw.value.record.status != Open
         && result == if g.raw.value.record.status == Claimed then AlreadyClaimed else Gone
  }

  /** What an abandon that cancels puts there: its own record held for a while, never past its expiry. */
  ghost predicate CancelHeld(call: Call, g: Grounds)
    requires call.AbandonCall?
  {
    && FoundOpen(g.raw, call.bind, call.id) && g.before == g.raw
    && g.after.Some? && g.after.value.Encoded?
    && var r, held := g.raw.value.record, g.after.value.record;
    && held == r.(status := Cancelled, expiresAt := held.expiresAt)
    && held.expiresAt <= r.expiresAt && held.expiresAt <= g.now + 10_000
    && (held.expiresAt == r.expiresAt || held.expiresAt == g.now + 10_000)
  }

  // -------------------------------------------------------------- one decision

  /** What an operation decides on what it read, and what comes of the write it decides on. */
  ghost predicate Decided(reg: Registry, call: Call, g: Grounds, wrote: bool, result: Result) {
    var d := DecideOn(reg, call, g.raw, g.now);
    if !wrote then d == Answer(result) && Untouched(g)
    else
      && d.Propose?
      && var taken := g.before == (if d.expected.Some? then Some(Encoded(d.expected.value)) else None)
                      && (call.OpenCall? || d.expected.Some?);
      && g.after == (if taken then Some(Encoded(d.next)) else g.before)
      && (if taken then AfterWin(call, d.next, d.value) else AfterLoss(call, 0, d.expected)) == Finished(result)
  }

  lemma ClaimIsTold(reg: Registry, call: Call, g: Grounds, wrote: bool, result: Result)
    requires call.ClaimCall? && Decided(reg, call, g, wrote, result)
    ensures ClaimTold(reg, call, g, result)
  {
  }

  lemma ReviseIsTold(reg: Registry, call: Call, g: Grounds, wrote: bool, result: Result)
    requires call.ReviseCall? && Decided(reg, call, g, wrote, result)
    ensures ReviseTold(reg, call, g, result)
  {
  }

  lemma ReleaseIsTold(reg: Registry, call: Call, g: Grounds, wrote: bool, result: Result)
    requires call.ReleaseCall? && Decided(reg, call, g, wrote, result)
    ensures ReleaseTold(call, g, result)
  {
  }

  lemma OpenIsTold(reg: Registry, call: Call, g: Grounds, wrote: bool, result: Result)
    requires call.OpenCall? && Decided(reg, call, g, wrote, result)
    ensures OpenTold(call, false, g, result)
  {
  }

  lemma AbandonIsTold(reg: Registry, call: Call, g: Grounds, result: Result)
    requires call.AbandonCall? && Decided(reg, call, g, false, result)
    ensures AbandonTold(call, false, g, result)
  {
  }

  // ------------------------------------------------------------------ over a run

  /** An operation answers from a decision, or from the write it decided on. */
  lemma AnsweredBy(reg: Registry, s: State, steps: seq<Step>, i: nat) returns (decide: nat, end: nat)
    requires s.ops == [] && i < |Run(reg, s, steps).ops|
    requires var op := Run(reg, s, steps).ops[i];
             op.phase.Finished? && (op.call.AbandonCall? ==> op.phase.result != CancelledResult)
    ensures decide <= end < |steps| && steps[decide] == Decide(i) && (end > decide ==> steps[end] == Put(i))
    ensures LastMovedAt(reg, s, steps, i, end)
    ensures var op, u, v := Run(reg, s, steps).ops[i], Upto(reg, s, steps, end), Upto(reg, s, steps, decide);
            && i < |u.ops| && i < |v.ops| && u.ops[i].call == v.ops[i].call == op.call
            && (v.ops[i].phase.Deciding? || v.ops[i].phase.LastDeciding?)
            && FinishedBy(reg, u, steps[end], i, op.call, op.phase.result)
            && (end > decide ==>
                  && v.ops[i].phase.Deciding? && u.ops[i].phase.Putting?
                  && DecideOn(reg, op.call, v.ops[i].phase.raw, v.now) ==
                     Propose(u.ops[i].phase.expected, u.ops[i].phase.next, u.ops[i].phase.value)
                  && forall m :: decide < m <= end ==>
                       i < |Upto(reg, s, steps, m).ops| && Upto(reg, s, steps, m).ops[i] == u.ops[i])
  {
    hide Run, Apply, DecideOn, LastAnswer, AfterWin, AfterLoss, Refuses;
    end := LastMoveCame(reg, s, steps, i);
    var u := Upto(reg, s, steps, end);
    decide := end;
    if u.ops[i].phase.Putting? {
      decide := LastMoveCame(reg, s, steps[..end], i);
      UptoPrefix(reg, s, steps, end, decide);
      forall m | decide < m <= end
        ensures i < |Upto(reg, s, steps, m).ops| && Upto(reg, s, steps, m).ops[i] == u.ops[i]
      {
        UptoPrefix(reg, s, steps, end, m);
      }
    } else if u.ops[i].phase.Holding? {
      var put := LastMoveCame(reg, s, steps[..end], i);
    }
  }

  /** The answer of a decision, and of the write it led to, by what the key held. */
  lemma Answers(reg: Registry, u: State, v: State, step: Step, i: nat, raw: Option<Raw>, result: Result)
    requires i < |u.ops| && FinishedBy(reg, u, step, i, u.ops[i].call, result)
    requires var ph := u.ops[i].phase;
             if ph.Putting? then DecideOn(reg, u.ops[i].call, raw, v.now) == Propose(ph.expected, ph.next, ph.value)
             else (ph.Deciding? || ph.LastDeciding?) && ph.raw == raw && v == u
    ensures var key, call := KeyOf(u.ops[i].call), u.ops[i].call;
            var g := Grounds(raw, v.now, Get(u.entries, key), Get(Apply(reg, u, step).entries, key));
            if u.ops[i].phase.LastDeciding? then Untouched(g) && result == LastAnswer(call, raw)
            else Decided(reg, call, g, u.ops[i].phase.Putting?, result)
  {
    hide DecideOn, LastAnswer;
  }

  /** The last attempt of an operation that answered, unless it was an abandon that cancelled. */
  lemma LastAttemptOf(reg: Registry, s: State, steps: seq<Step>, i: nat) returns (a: Attempt)
    requires s.ops == [] && i < |Run(reg, s, steps).ops|
    requires var op := Run(reg, s, steps).ops[i];
             op.phase.Finished? && (op.call.AbandonCall? ==> op.phase.result != CancelledResult)
    ensures IsLastAttempt(reg, s, steps, i, a)
    ensures var op := Run(reg, s, steps).ops[i];
            var g, last := GroundsOf(reg, s, steps, KeyOf(op.call), a), Upto(reg, s, steps, a.read).ops[i].phase.LastReading?;
            if last then Untouched(g) && op.phase.result == LastAnswer(op.call, g.raw)
            else Decided(reg, op.call, g, a.end > a.decide, op.phase.result)
  {
    hide Run, Apply, DecideOn, LastAnswer, Decided, FinishedBy;
    var op := Run(reg, s, steps).ops[i];
    var decide, end := AnsweredBy(reg, s, steps, i);
    var read := ReadBefore(reg, s, steps[..decide], i);
    UptoPrefix(reg, s, steps, decide, read);
    a := Attempt(read, decide, end);
    UptoNext(reg, s, steps, end);
    Answers(reg, Upto(reg, s, steps, end), Upto(reg, s, steps, decide), steps[end], i,
            Get(Upto(reg, s, steps, read).entries, KeyOf(op.call)), op.phase.result);
    forall m | read < m <= |steps|
      ensures i < |Upto(reg, s, steps, m).ops| && !ToRead(Upto(reg, s, steps, m).ops[i].phase)
    {
      if m <= decide {
        UptoPrefix(reg, s, steps, decide, m);
      }
    }
  }

  /** What a finished operation was told, whichever it is. */
  ghost predicate Told(reg: Registry, call: Call, last: bool, g: Grounds, result: Result) {
    match call
    case OpenCall(_) => OpenTold(call, last, g, result)
    case ClaimCall(_, _, _, _, _) => ClaimTold(reg, call, g, result)
    case ReviseCall(_, _, _, _, _, _, _) => ReviseTold(reg, call, g, result)
    case AbandonCall(_, _, _) => AbandonTold(call, last, g, result)
    case ReleaseCall(_, _, _) => ReleaseTold(call, g, result)
  }

  lemma LastReaders(reg: Registry, s: State, steps: seq<Step>, i: nat)
    requires s.ops == [] && i < |Run(reg, s, steps).ops| && Run(reg, s, steps).ops[i].phase.LastReading?
    ensures Run(reg, s, steps).ops[i].call.OpenCall? || Run(reg, s, steps).ops[i].call.AbandonCall?
  {
    hide Run, Apply, Refuses;
    var n := LastMoveCame(reg, s, steps, i);
  }

  lemma LastIsTold(call: Call, g: Grounds, result: Result)
    requires (call.OpenCall? || call.AbandonCall?) && Untouched(g) && result == LastAnswer(call, g.raw)
    ensures call.OpenCall? ==> OpenTold(call, true, g, result)
    ensures call.AbandonCall? ==> AbandonTold(call, true, g, result)
  {
  }

  lemma DecidedIsTold(reg: Registry, call: Call, g: Grounds, wrote: bool, result: Result)
    requires Decided(reg, call, g, wrote, result) && (call.AbandonCall? ==> result != CancelledResult)
    ensures Told(reg, call, false, g, result)
  {
    hide ClaimTold, ReviseTold, ReleaseTold, OpenTold, AbandonTold, DecideOn;
    match call
    case OpenCall(_) => OpenIsTold(reg, call, g, wrote, result);
    case ClaimCall(_, _, _, _, _) => ClaimIsTold(reg, call, g, wrote, result);
    case ReviseCall(_, _, _, _, _, _, _) => ReviseIsTold(reg, call, g, wrote, result);
    case AbandonCall(_, _, _) => AbandonIsTold(reg, call, g, result);
    case ReleaseCall(_, _, _) => ReleaseIsTold(reg, call, g, wrote, result);
  }

  /**
   * Every operation of every run is told what its last read, its clock and its write
   * make of it: for an abandon that cancelled see `CancelsAreHeld`.
   */
  lemma AnswersAreTold(reg: Registry, s: State, steps: seq<Step>, i: nat) returns (a: Attempt)
    requires s.ops == [] && i < |Run(reg, s, steps).ops|
    requires var op := Run(reg, s, steps).ops[i];
             op.phase.Finished? && (op.call.AbandonCall? ==> op.phase.result != CancelledResult)
    ensures IsLastAttempt(reg, s, steps, i, a)
    ensures var op := Run(reg, s, steps).ops[i];
            Told(reg, op.call, Upto(reg, s, steps, a.read).ops[i].phase.LastReading?,
                 GroundsOf(reg, s, steps, KeyOf(op.call), a), op.phase.result)
  {
    hide Run, Apply, DecideOn, LastAnswer, Decided, ClaimTold, ReviseTold, ReleaseTold, OpenTold, AbandonTold;
    a := LastAttemptOf(reg, s, steps, i);
    var op, g := Run(reg, s, steps).ops[i], GroundsOf(reg, s, steps, KeyOf(Run(reg, s, steps).ops[i].call), a);
    SameCall(reg, s, steps, i, a.read);
    if Upto(reg, s, steps, a.read).ops[i].phase.LastReading? {
      LastReaders(reg, s, steps[..a.read], i);
      LastIsTold(op.call, g, op.phase.result);
    } else {
      DecidedIsTold(reg, op.call, g, a.end > a.decide, op.phase.result);
    }
  }

  lemma SameCall(reg: Registry, s: State, steps: seq<Step>, i: nat, n: nat)
    requires n <= |steps| && i < |Upto(reg, s, steps, n).ops| && i < |Run(reg, s, steps).ops|
    ensures Upto(reg, s, steps, n).ops[i].call == Run(reg, s, steps).ops[i].call
  {
    hide Run;
    RunJoins(reg, s, steps[..n], steps[n..]);
    assert steps[..n] + steps[n..] == steps;
    OpStands(reg, Upto(reg, s, steps, n), steps[n..], i);
  }

  // -------------------------------------------------------------- cancels and opens

  lemma HoldIsBrief(reg: Registry, call: Call, g: Grounds, next: Record)
    requires call.AbandonCall? && g.before == g.raw && g.after == Some(Encoded(next))
    requires exists expected, value :: DecideOn(reg, call, g.raw, g.now) == Propose(expected, next, value)
    ensures CancelHeld(call, g)
  {
  }

  /**
   * An abandon that cancelled put its own record on hold, for ten seconds at most and
   * never past its expiry; then it removed that record, if it was still there, and
   * nothing else.
   */
  lemma CancelsAreHeld(reg: Registry, s: State, steps: seq<Step>, i: nat) returns (a: Attempt, delete: nat)
    requires s.ops == [] && i < |Run(reg, s, steps).ops|
    requires var op := Run(reg, s, steps).ops[i]; op.call.AbandonCall? && op.phase == Finished(CancelledResult)
    ensures IsLastAttempt(reg, s, steps, i, a)
    ensures a.end < delete < |steps| && steps[delete] == Delete(i)
    ensures var call := Run(reg, s, steps).ops[i].call; var key := KeyOf(call);
            var g, found := GroundsOf(reg, s, steps, key, a), Upto(reg, s, steps, delete).entries;
            && CancelHeld(call, g)
            && Upto(reg, s, steps, delete + 1).entries == if Get(found, key) == g.after then found - {key} else found
  {
    hide Run, Apply, DecideOn, LastAnswer, AfterWin, AfterLoss;
    var call := Run(reg, s, steps).ops[i].call;
    delete := LastMoveCame(reg, s, steps, i);
    UptoNext(reg, s, steps, delete);
    CancelsByDelete(reg, Upto(reg, s, steps, delete), steps[delete], i, call);
    var put := LastMoveCame(reg, s, steps[..delete], i);
    UptoPrefix(reg, s, steps, delete, put);
    var u := Upto(reg, s, steps, put);
    var decide := LastMoveCame(reg, s, steps[..put], i);
    UptoPrefix(reg, s, steps, put, decide);
    var read := ReadBefore(reg, s, steps[..decide], i);
    UptoPrefix(reg, s, steps, decide, read);
    a := Attempt(read, decide, put);
    var g := GroundsOf(reg, s, steps, KeyOf(call), a);
    UptoNext(reg, s, steps, put);
    PutLands(reg, u, i);
    ExpectedIsRead(reg, call, g.raw, g.now);
    HoldIsBrief(reg, call, g, u.ops[i].phase.next);
    forall m | read < m <= |steps|
      ensures i < |Upto(reg, s, steps, m).ops| && !ToRead(Upto(reg, s, steps, m).ops[i].phase)
    {
      if m <= delete {
        UptoPrefix(reg, s, steps, delete, m);
        if m <= put {
          UptoPrefix(reg, s, steps, put, m);
          if m <= decide {
            UptoPrefix(reg, s, steps, decide, m);
          }
        }
      }
    }
  }

  lemma CancelsByDelete(reg: Registry, u: State, step: Step, i: nat, call: Call)
    requires i < |u.ops| && u.ops[i].call == call && call.AbandonCall?
    requires FinishedBy(reg, u, step, i, call, CancelledResult)
    ensures u.ops[i].phase.Holding? && step == Delete(i)
    ensures var found, key := u.entries, KeyOf(call);
            Apply(reg, u, step).entries ==
            if Get(found, key) == Some(Encoded(u.ops[i].phase.cancelled)) then found - {key} else found
  {
  }

  /** A write that is not refused leaves its record under the key it was refused on otherwise. */
  lemma PutLands(reg: Registry, u: State, i: nat)
    requires i < |u.ops| && u.ops[i].phase.Putting? && u.ops[i].call.AbandonCall?
    requires !Refuses(u, u.ops[i].call, u.ops[i].phase.expected)
    ensures var key, ph := KeyOf(u.ops[i].call), u.ops[i].phase;
            && ph.expected.Some? && Get(u.entries, key) == Some(Encoded(ph.expected.value))
            && Get(Apply(reg, u, Put(i)).entries, key) == Some(Encoded(ph.next))
  {
  }

  lemma ExpectedIsRead(reg: Registry, call: Call, raw: Option<Raw>, now: int)
    requires call.AbandonCall? && DecideOn(reg, call, raw, now).Propose?
    ensures var d := DecideOn(reg, call, raw, now); d.expected.Some? && raw == Some(Encoded(d.expected.value))
  {
  }

  /** Where an operation came from: the step that put it on the list. */
  ghost predicate BornAt(reg: Registry, s: State, steps: seq<Step>, i: nat, n: nat) {
    n < |steps| && |Upto(reg, s, steps, n).ops| == i < |Upto(reg, s, steps, n + 1).ops|
  }

  lemma {:induction false} Born(reg: Registry, s: State, steps: seq<Step>, i: nat) returns (n: nat)
    requires |s.ops| <= i < |Run(reg, s, steps).ops|
    ensures BornAt(reg, s, steps, i, n)
    decreases |steps|
  {
    hide Apply, Run;
    if steps == [] {
      RunNothing(reg, s);
    }
    var last := |steps| - 1;
    UptoAll(reg, s, steps);
    UptoNext(reg, s, steps, last);
    if i < |Upto(reg, s, steps, last).ops| {
      n := Born(reg, s, steps[..last], i);
      UptoPrefix(reg, s, steps, last, n);
      UptoPrefix(reg, s, steps, last, n + 1);
    } else {
      n := last;
      StepAddsOne(reg, Upto(reg, s, steps, last), steps[last]);
    }
  }

  lemma RunNothing(reg: Registry, s: State)
    ensures Run(reg, s, []) == s
  {
  }

  lemma StepAddsOne(reg: Registry, s: State, step: Step)
    ensures |Apply(reg, s, step).ops| <= |s.ops| + 1
  {
    hide DecideOn, EventOf, AfterWin, AfterLoss;
  }

  /** An open begins exactly when its kind is registered and takes its prompt. */
  predicate MayOpen(reg: Registry, step: Step) {
    step.StartOpen? && reg(step.kind).Some? && reg(step.kind).value.prompt(step.prompt).Some?
  }

  lemma OpenBegins(reg: Registry, u: State, step: Step)
    requires step.StartOpen?
    ensures var t := Apply(reg, u, step);
            && (|t.ops| == |u.ops| + 1 <==> MayOpen(reg, step)) && (|t.ops| == |u.ops| <==> !MayOpen(reg, step))
            && (MayOpen(reg, step) ==>
                  var k := reg(step.kind).value;
                  t.ops[|u.ops|].call == OpenCall(Fresh(step.kind, k, step.bind, u.nextId, 1, step.conversation,
                                                        step.continuation, k.prompt(step.prompt).value, step.secret, u.now)))
  {
  }

  /**
   * The record an open would install was made when it began: a first revision under an
   * id of its own, its prompt as the kind takes it, its time counted from then.
   */
  lemma OpensAreFresh(reg: Registry, s: State, steps: seq<Step>, i: nat) returns (n: nat)
    requires s.ops == [] && i < |Run(reg, s, steps).ops| && Run(reg, s, steps).ops[i].call.OpenCall?
    ensures BornAt(reg, s, steps, i, n) && MayOpen(reg, steps[n])
    ensures var u, step := Upto(reg, s, steps, n), steps[n]; var k := reg(step.kind).value;
            Run(reg, s, steps).ops[i].call.record ==
            Fresh(step.kind, k, step.bind, u.nextId, 1, step.conversation, step.continuation,
                  k.prompt(step.prompt).value, step.secret, u.now)
  {
    hide Run, Apply;
    n := Born(reg, s, steps, i);
    var u := Upto(reg, s, steps, n);
    UptoNext(reg, s, steps, n);
    SameCall(reg, s, steps, i, n + 1);
    if steps[n].StartOpen? {
      OpenBegins(reg, u, steps[n]);
    } else {
      OnlyStartOpens(reg, u, steps[n]);
    }
  }

  lemma OnlyStartOpens(reg: Registry, u: State, step: Step)
    requires |Apply(reg, u, step).ops| > |u.ops| && !step.StartOpen?
    ensures !Apply(reg, u, step).ops[|u.ops|].call.OpenCall?
  {
  }

  /** A claim, a revise or a release has answered once it read, decided and wrote. */
  lemma SingleAttemptEnds(reg: Registry, s: State, i: nat)
    requires i < |s.ops| && s.ops[i].phase == FirstPhase(s.ops[i].call)
    requires s.ops[i].call.ClaimCall? || s.ops[i].call.ReviseCall? || s.ops[i].call.ReleaseCall?
    ensures var t := Apply(reg, Apply(reg, Apply(reg, s, Read(i)), Decide(i)), Put(i));
            i < |t.ops| && t.ops[i].phase.Finished?
  {
    hide EventOf, Resolve, Build;
  }
}
