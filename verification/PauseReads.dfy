/**
 * What an operation of the pause protocol had read when it answered, over whole runs
 * (packages/assistant-kit/src/create-kit.ts): which of its reads was its last, what
 * the store held there, and how many changes of the key a lost attempt takes.
 */
module PauseReads {
  import opened Wrappers
  import opened PauseStore
  import opened PauseProtocol
  import opened PauseRaces

  // ------------------------------------------------------------ points of a run

  /** The state after the first `n` steps. */
  function Upto(reg: Registry, s: State, steps: seq<Step>, n: nat): State
    requires n <= |steps|
  {
    Run(reg, s, steps[..n])
  }

  lemma UptoPrefix(reg: Registry, s: State, steps: seq<Step>, n: nat, m: nat)
    requires m <= n <= |steps|
    ensures Upto(reg, s, steps[..n], m) == Upto(reg, s, steps, m)
  {
    hide Run;
    assert steps[..n][..m] == steps[..m];
  }

  lemma UptoAll(reg: Registry, s: State, steps: seq<Step>)
    ensures Upto(reg, s, steps, |steps|) == Run(reg, s, steps)
  {
    hide Run;
    assert steps[..|steps|] == steps;
  }

  lemma UptoNext(reg: Registry, s: State, steps: seq<Step>, n: nat)
    requires n < |steps|
    ensures Upto(reg, s, steps, n + 1) == Apply(reg, Upto(reg, s, steps, n), steps[n])
  {
    hide Apply;
    assert steps[..n + 1][..n] == steps[..n];
  }

  /** No operation is ever taken off the list. */
  lemma {:induction false} OpsGrow(reg: Registry, s: State, steps: seq<Step>, n: nat)
    requires n <= |steps|
    ensures |Upto(reg, s, steps, n).ops| <= |Run(reg, s, steps).ops|
    decreases |steps|
  {
    hide Apply, Run;
    if n == |steps| {
      UptoAll(reg, s, steps);
    } else {
      var most := steps[..|steps| - 1];
      OpsGrow(reg, s, most, n);
      UptoPrefix(reg, s, steps, |steps| - 1, n);
      UptoNext(reg, s, steps, |steps| - 1);
      UptoAll(reg, s, steps);
      StepOpsGrow(reg, Run(reg, s, most), steps[|steps| - 1]);
    }
  }

  lemma StepOpsGrow(reg: Registry, s: State, step: Step)
    ensures |s.ops| <= |Apply(reg, s, step).ops|
  {
    hide DecideOn, EventOf, AfterWin, AfterLoss;
  }

  /** From after `n` on the operation is as it is in the end. */
  ghost predicate StandsSince(reg: Registry, s: State, steps: seq<Step>, i: nat, n: nat)
    requires i < |Run(reg, s, steps).ops|
  {
    forall m :: n < m <= |steps| ==>
      i < |Upto(reg, s, steps, m).ops| && Upto(reg, s, steps, m).ops[i] == Run(reg, s, steps).ops[i]
  }

  /** The last step that moved an operation. */
  ghost predicate LastMovedAt(reg: Registry, s: State, steps: seq<Step>, i: nat, n: nat)
    requires i < |Run(reg, s, steps).ops|
  {
    && n < |steps| && StandsSince(reg, s, steps, i, n)
    && (i < |Upto(reg, s, steps, n).ops| ==> Upto(reg, s, steps, n).ops[i] != Run(reg, s, steps).ops[i])
  }

  lemma {:induction false} LastMove(reg: Registry, s: State, steps: seq<Step>, i: nat) returns (n: nat)
    requires s.ops == [] && i < |Run(reg, s, steps).ops|
    ensures LastMovedAt(reg, s, steps, i, n)
    decreases |steps|
  {
    hide Apply;
    var most := steps[..|steps| - 1];
    var u, t := Run(reg, s, most), Run(reg, s, steps);
    UptoAll(reg, s, steps);
    UptoAll(reg, s, most);
    UptoPrefix(reg, s, steps, |steps| - 1, |steps| - 1);
    if i < |u.ops| && u.ops[i] == t.ops[i] {
      n := LastMove(reg, s, most, i);
      UptoPrefix(reg, s, steps, |steps| - 1, n);
      forall m | n < m <= |steps|
        ensures i < |Upto(reg, s, steps, m).ops| && Upto(reg, s, steps, m).ops[i] == t.ops[i]
      {
        if m < |steps| {
          UptoPrefix(reg, s, steps, |steps| - 1, m);
        }
      }
    } else {
      n := |steps| - 1;
    }
  }

  // -------------------------------------------------------- what moves an operation

  /** An operation that is still to read the store. */
  predicate ToRead(phase: Phase) {
    phase.Reading? || phase.LastReading?
  }

  /** The record read is one of the abandon's own interaction, under its owner. */
  predicate Own(raw: Option<Raw>, call: Call)
    requires call.AbandonCall?
  {
    Scoped(raw, call.bind).Some? && Scoped(raw, call.bind).value.interactionId == call.id
  }

  /** The write an operation is about to make would be refused. */
  predicate Refuses(u: State, call: Call, expected: Option<Record>) {
    !Accepts(u.entries, KeyOf(call), expected) || (!call.OpenCall? && expected.None?)
  }

  /** How an operation came to its answer: by a decision, by its write, or by giving up its hold. */
  ghost predicate FinishedBy(reg: Registry, u: State, step: Step, i: nat, call: Call, result: Result)
    requires i < |u.ops|
  {
    match u.ops[i].phase
    case Deciding(_, raw) => step == Decide(i) && DecideOn(reg, call, raw, u.now) == Answer(result)
    case LastDeciding(raw) => step == Decide(i) && result == LastAnswer(call, raw)
    case Putting(left, expected, next, value, _) =>
      && step == Put(i)
      && (if Refuses(u, call, expected) then AfterLoss(call, left, expected) else AfterWin(call, next, value)) == Finished(result)
    case Holding(_) => step == Delete(i) && result == CancelledResult
    case _ => false
  }

  /** How an operation got into the phase it is in, by the step that put it there. */
  ghost predicate CameBy(reg: Registry, u: State, step: Step, i: nat, op: Op) {
    var there := i < |u.ops|;
    && (there ==> u.ops[i].call == op.call)
    && (!there ==> op.phase == FirstPhase(op.call))
    && match op.phase
       case Deciding(left, raw) =>
         there && step == Read(i) && u.ops[i].phase == Reading(left) && raw == Get(u.entries, KeyOf(op.call))
       case LastDeciding(raw) =>
         there && step == Read(i) && u.ops[i].phase == LastReading && raw == Get(u.entries, KeyOf(op.call))
       case Putting(left, expected, next, value, _) =>
         && there && step == Decide(i) && u.ops[i].phase.Deciding? && u.ops[i].phase.left == left
         && DecideOn(reg, op.call, u.ops[i].phase.raw, u.now) == Propose(expected, next, value)
       case Reading(left) =>
         there ==> (u.ops[i].phase.Putting? && u.ops[i].phase.left == left + 1
                    && Refuses(u, op.call, u.ops[i].phase.expected))
       case LastReading =>
         && there && (op.call.OpenCall? || op.call.AbandonCall?)
         && u.ops[i].phase.Putting? && u.ops[i].phase.left == 0
         && Refuses(u, op.call, u.ops[i].phase.expected)
       case Holding(cancelled) =>
         && there && op.call.AbandonCall? && step == Put(i)
         && u.ops[i].phase.Putting? && u.ops[i].phase.next == cancelled
         && !Refuses(u, op.call, u.ops[i].phase.expected)
       case Finished(result) => there && FinishedBy(reg, u, step, i, op.call, result)
  }

  lemma Moved(reg: Registry, u: State, step: Step, i: nat)
    requires i < |Apply(reg, u, step).ops| && (i < |u.ops| ==> u.ops[i] != Apply(reg, u, step).ops[i])
    ensures CameBy(reg, u, step, i, Apply(reg, u, step).ops[i])
  {
  }

  /** Operation `i` read the store by step `n`, and what it read is what it decides on in the end. */
  ghost predicate ReadAt(reg: Registry, s: State, steps: seq<Step>, i: nat, n: nat)
    requires i < |Run(reg, s, steps).ops|
    requires var phase := Run(reg, s, steps).ops[i].phase; phase.Deciding? || phase.LastDeciding?
  {
    var op := Run(reg, s, steps).ops[i];
    && n < |steps| && steps[n] == Read(i) && i < |Upto(reg, s, steps, n).ops|
    && var u := Upto(reg, s, steps, n);
    && u.ops[i] == Op(op.call, if op.phase.Deciding? then Reading(op.phase.left) else LastReading)
    && op.phase.raw == Get(u.entries, KeyOf(op.call))
    && StandsSince(reg, s, steps, i, n)
  }

  lemma ReadBefore(reg: Registry, s: State, steps: seq<Step>, i: nat) returns (n: nat)
    requires s.ops == [] && i < |Run(reg, s, steps).ops|
    requires var phase := Run(reg, s, steps).ops[i].phase; phase.Deciding? || phase.LastDeciding?
    ensures ReadAt(reg, s, steps, i, n)
  {
    hide Run, Apply;
    n := LastMoveCame(reg, s, steps, i);
  }

  /** The step that last moved an operation, and how. */
  lemma LastMoveCame(reg: Registry, s: State, steps: seq<Step>, i: nat) returns (n: nat)
    requires s.ops == [] && i < |Run(reg, s, steps).ops|
    ensures LastMovedAt(reg, s, steps, i, n)
    ensures CameBy(reg, Upto(reg, s, steps, n), steps[n], i, Run(reg, s, steps).ops[i])
  {
    hide Run, Apply, CameBy;
    n := LastMove(reg, s, steps, i);
    UptoNext(reg, s, steps, n);
    Moved(reg, Upto(reg, s, steps, n), steps[n], i);
  }

  // ------------------------------------------------------------ changes of a key

  /** How many steps from `from` on changed what the key holds. */
  function Changes(reg: Registry, s: State, steps: seq<Step>, key: Key, from: nat): nat
    decreases |steps|
  {
    if |steps| <= from then 0
    else
      var most := steps[..|steps| - 1];
      Changes(reg, s, most, key, from) +
      if Get(Run(reg, s, most).entries, key) != Get(Run(reg, s, steps).entries, key) then 1 else 0
  }

  lemma {:induction false} Unchanged(reg: Registry, s: State, steps: seq<Step>, key: Key, from: nat)
    requires from <= |steps| && Changes(reg, s, steps, key, from) == 0
    ensures Get(Upto(reg, s, steps, from).entries, key) == Get(Run(reg, s, steps).entries, key)
    decreases |steps|
  {
    hide Run, Get;
    if from == |steps| {
      UptoAll(reg, s, steps);
    } else {
      Unchanged(reg, s, steps[..|steps| - 1], key, from);
      UptoPrefix(reg, s, steps, |steps| - 1, from);
    }
  }

  lemma {:induction false} ChangesJoin(reg: Registry, s: State, steps: seq<Step>, key: Key, from: nat, mid: nat)
    requires from <= mid <= |steps|
    ensures Changes(reg, s, steps, key, from) ==
            Changes(reg, s, steps[..mid], key, from) + Changes(reg, s, steps, key, mid)
    decreases |steps|
  {
    hide Run, Get;
    if mid == |steps| {
      assert steps[..mid] == steps;
    } else {
      var most := steps[..|steps| - 1];
      ChangesJoin(reg, s, most, key, from, mid);
      assert most[..mid] == steps[..mid];
    }
  }

  // --------------------------------------------------------------- attempts lost

  /** The key holds bytes that read as no pause. */
  predicate GarbledAt(u: State, key: Key) {
    key in u.entries && !u.entries[key].Encoded?
  }

  /** An open record of the abandon's own is what it reads. */
  predicate OpensOwn(u: State, call: Call) {
    call.AbandonCall? ==>
      var raw := Get(u.entries, KeyOf(call)); Own(raw, call) && Decode(raw).value.status == Open
  }

  /**
   * By step `n` the operation read what its attempt of `left` more was decided on;
   * the key was changed since, or held bytes that no open can displace.
   */
  ghost predicate LostSince(reg: Registry, s: State, steps: seq<Step>, i: nat, n: nat, left: nat) {
    && n < |steps| && steps[n] == Read(i)
    && var u := Upto(reg, s, steps, n);
    && i < |u.ops| && i < |Run(reg, s, steps).ops|
    && u.ops[i] == Op(Run(reg, s, steps).ops[i].call, Reading(left))
    && var call := u.ops[i].call;
    && (GarbledAt(u, KeyOf(call)) || Changes(reg, s, steps, KeyOf(call), n) >= 1)
    && OpensOwn(u, call)
  }

  lemma LostAttempt(reg: Registry, s: State, steps: seq<Step>, i: nat) returns (n: nat)
    requires s.ops == [] && i < |Run(reg, s, steps).ops|
    requires var op := Run(reg, s, steps).ops[i];
             (op.call.OpenCall? || op.call.AbandonCall?) && (op.phase == LastReading || op.phase == Reading(0))
    ensures LostSince(reg, s, steps, i, n, if Run(reg, s, steps).ops[i].phase.LastReading? then 0 else 1)
  {
    hide Run, Apply, Refuses, DecideOn, Changes, Own;
    var op := Run(reg, s, steps).ops[i];
    var put := LastMoveCame(reg, s, steps, i);
    var u := Upto(reg, s, steps, put);
    var decide := LastMoveCame(reg, s, steps[..put], i);
    UptoPrefix(reg, s, steps, put, decide);
    var v := Upto(reg, s, steps, decide);
    n := ReadBefore(reg, s, steps[..decide], i);
    UptoPrefix(reg, s, steps, decide, n);
    RefusedChange(reg, s, steps, i, n, decide, put);
  }

  lemma RefusedChange(reg: Registry, s: State, steps: seq<Step>, i: nat, n: nat, decide: nat, put: nat)
    requires n < decide < put < |steps|
    requires i < |Upto(reg, s, steps, put).ops| && i < |Upto(reg, s, steps, decide).ops|
    requires var u, v := Upto(reg, s, steps, put).ops[i], Upto(reg, s, steps, decide).ops[i];
             && (u.call.OpenCall? || u.call.AbandonCall?) && v.call == u.call && u.phase.Putting? && v.phase.Deciding?
             && v.phase.raw == Get(Upto(reg, s, steps, n).entries, KeyOf(u.call))
             && DecideOn(reg, u.call, v.phase.raw, Upto(reg, s, steps, decide).now) ==
                Propose(u.phase.expected, u.phase.next, u.phase.value)
             && Refuses(Upto(reg, s, steps, put), u.call, u.phase.expected)
    ensures var call := Upto(reg, s, steps, put).ops[i].call; var u := Upto(reg, s, steps, n);
            && (GarbledAt(u, KeyOf(call)) || Changes(reg, s, steps, KeyOf(call), n) >= 1)
            && OpensOwn(u, call)
  {
    hide Run, Apply, Changes;
    var key := KeyOf(Upto(reg, s, steps, put).ops[i].call);
    ChangesJoin(reg, s, steps, key, n, put);
    if Changes(reg, s, steps[..put], key, n) == 0 {
      Unchanged(reg, s, steps[..put], key, n);
      UptoPrefix(reg, s, steps, put, n);
    }
  }

  /** Both attempts of an open or an abandon that has come to its last read. */
  lemma LostTwice(reg: Registry, s: State, steps: seq<Step>, i: nat) returns (first: nat, second: nat)
    requires s.ops == [] && i < |Run(reg, s, steps).ops|
    requires var op := Run(reg, s, steps).ops[i]; (op.call.OpenCall? || op.call.AbandonCall?) && op.phase == LastReading
    ensures first < second < |steps|
    ensures LostSince(reg, s, steps[..second], i, first, 1) && LostSince(reg, s, steps, i, second, 0)
  {
    hide Run, Apply, Changes, OpensOwn, GarbledAt;
    second := LostAttempt(reg, s, steps, i);
    first := LostAttempt(reg, s, steps[..second], i);
  }

  lemma StartedBefore(reg: Registry, s: State, steps: seq<Step>, i: nat, start: nat, n: nat)
    requires start <= |steps| && n <= |steps| && |Upto(reg, s, steps, start).ops| <= i < |Upto(reg, s, steps, n).ops|
    ensures start < n
  {
    hide Run;
    if n <= start {
      UptoPrefix(reg, s, steps, start, n);
      OpsGrow(reg, s, steps[..start], n);
    }
  }

  /**
   * An open comes to its last branch only after both its writes were refused, each
   * after a read of its own: over a key that reads as a record or as nothing, it takes
   * two changes of the key by others while it runs, one after each read.
   */
  lemma OpenLosesTwice(reg: Registry, s: State, steps: seq<Step>, i: nat, start: nat) returns (first: nat, second: nat)
    requires Initial(s) && i < |Run(reg, s, steps).ops|
    requires Run(reg, s, steps).ops[i].call.OpenCall? && Run(reg, s, steps).ops[i].phase == LastReading
    requires start <= |steps| && |Upto(reg, s, steps, start).ops| <= i
    ensures start < first < second < |steps| && steps[first] == steps[second] == Read(i)
    ensures var key := KeyOf(Run(reg, s, steps).ops[i].call);
            && (GarbledAt(Upto(reg, s, steps, first), key) || Changes(reg, s, steps[..second], key, first) >= 1)
            && (GarbledAt(Upto(reg, s, steps, second), key) || Changes(reg, s, steps, key, second) >= 1)
            && (!GarbledAt(Upto(reg, s, steps, first), key) && !GarbledAt(Upto(reg, s, steps, second), key) ==>
                  Changes(reg, s, steps, key, start) >= 2)
  {
    hide Run, Apply, Changes, OpensOwn, GarbledAt;
    first, second := LostTwice(reg, s, steps, i);
    UptoPrefix(reg, s, steps, second, first);
    var key := KeyOf(Run(reg, s, steps).ops[i].call);
    ChangesJoin(reg, s, steps, key, first, second);
    StartedBefore(reg, s, steps, i, start, first);
    ChangesJoin(reg, s, steps, key, start, first);
  }

  // ------------------------------------------------ changes of one's own interaction

  /** Accepted writes of an interaction that was opened. */
  function Writes(h: seq<Event>, id: nat): nat {
    Count(h, ClaimTag, id) + Count(h, ReviseTag, id) + Count(h, ReleaseTag, id) + Count(h, CancelTag, id)
  }

  predicate InSlot(u: State, key: Key, id: nat) {
    key in u.entries && u.entries[key].Encoded? && u.entries[key].record.interactionId == id
  }

  lemma StepHistory(reg: Registry, u: State, step: Step)
    ensures var t := Apply(reg, u, step);
            t.history == u.history || (|t.history| == |u.history| + 1 && t.history == u.history + [t.history[|u.history|]])
  {
    hide DecideOn, AfterWin, AfterLoss, EventOf;
  }

  lemma StepCounts(reg: Registry, u: State, step: Step, tag: Tag, id: nat)
    ensures Count(u.history, tag, id) <= Count(Apply(reg, u, step).history, tag, id)
  {
    hide Apply;
    StepHistory(reg, u, step);
    var t := Apply(reg, u, step);
    if t.history != u.history {
      CountPushed(u.history, t.history[|u.history|]);
    }
  }

  lemma {:induction false} CountsGrow(reg: Registry, s: State, steps: seq<Step>, n: nat, tag: Tag, id: nat)
    requires n <= |steps|
    ensures Count(Upto(reg, s, steps, n).history, tag, id) <= Count(Run(reg, s, steps).history, tag, id)
    decreases |steps|
  {
    hide Apply, Count;
    if n == |steps| {
      UptoAll(reg, s, steps);
    } else {
      CountsGrow(reg, s, steps[..|steps| - 1], n, tag, id);
      UptoPrefix(reg, s, steps, |steps| - 1, n);
      StepCounts(reg, Run(reg, s, steps[..|steps| - 1]), steps[|steps| - 1], tag, id);
    }
  }

  lemma WritesGrow(reg: Registry, s: State, steps: seq<Step>, n: nat, id: nat)
    requires n <= |steps|
    ensures Writes(Upto(reg, s, steps, n).history, id) <= Writes(Run(reg, s, steps).history, id)
  {
    hide Run, Count;
    CountsGrow(reg, s, steps, n, ClaimTag, id);
    CountsGrow(reg, s, steps, n, ReviseTag, id);
    CountsGrow(reg, s, steps, n, ReleaseTag, id);
    CountsGrow(reg, s, steps, n, CancelTag, id);
  }

  /** What a write that an operation decided on makes of a record is of the same interaction. */
  lemma SameInteraction(reg: Registry, u: State, i: nat)
    requires Inv(reg, u) && i < |u.ops| && u.ops[i].phase.Putting? && !u.ops[i].call.OpenCall?
    ensures var ph := u.ops[i].phase; ph.expected.Some? && ph.next.interactionId == ph.expected.value.interactionId
  {
    hide StoreOk, CountsOk, CancelIsFinal, DeletesOwn;
    assert OpOk(reg, u, i);
    var ph := u.ops[i].phase;
    var raw :| DecideOn(reg, u.ops[i].call, raw, ph.decidedAt) == Propose(ph.expected, ph.next, ph.value);
  }

  /** An accepted write of an interaction opened before is a claim, revise, release or cancel of the record there. */
  lemma PutWrites(reg: Registry, u: State, i: nat, key: Key, id: nat)
    requires Inv(reg, u) && i < |u.ops| && u.ops[i].phase.Putting?
    requires Count(u.history, OpenTag, id) == 1 && InSlot(PutStep(u, i), key, id)
    ensures InSlot(u, key, id)
    ensures u.entries[key] != PutStep(u, i).entries[key] ==> Writes(PutStep(u, i).history, id) > Writes(u.history, id)
  {
    hide StoreOk, CountsOk, CancelIsFinal, DeletesOwn, OpOk, AfterWin, AfterLoss;
    var t := PutStep(u, i);
    var call, ph := u.ops[i].call, u.ops[i].phase;
    if t.history != u.history {
      var e := t.history[|u.history|];
      CountPushed(u.history, e);
      if key == KeyOf(call) {
        if call.OpenCall? {
          assert OpOk(reg, u, i);
          OpenIsNew(reg, u, i);
        } else {
          SameInteraction(reg, u, i);
        }
      }
    }
  }

  lemma OpenIsNew(reg: Registry, u: State, i: nat)
    requires Inv(reg, u) && i < |u.ops| && u.ops[i].phase.Putting? && u.ops[i].call.OpenCall?
    ensures u.ops[i].phase.next == u.ops[i].call.record && Count(u.history, OpenTag, u.ops[i].phase.next.interactionId) == 0
  {
    hide StoreOk, CountsOk, CancelIsFinal, DeletesOwn, Count;
    assert OpOk(reg, u, i);
    var ph := u.ops[i].phase;
    var raw :| DecideOn(reg, u.ops[i].call, raw, ph.decidedAt) == Propose(ph.expected, ph.next, ph.value);
  }

  lemma StepWrites(reg: Registry, u: State, step: Step, key: Key, id: nat)
    requires Inv(reg, u) && Count(u.history, OpenTag, id) == 1 && InSlot(Apply(reg, u, step), key, id)
    ensures InSlot(u, key, id)
    ensures u.entries[key] != Apply(reg, u, step).entries[key] ==>
              Writes(Apply(reg, u, step).history, id) > Writes(u.history, id)
  {
    hide Inv, PutStep, DecideOn, Count, Writes;
    match step {
      case Put(i) =>
        if i < |u.ops| && u.ops[i].phase.Putting? {
          PutWrites(reg, u, i, key, id);
        }
      case _ =>
    }
  }

  /** As long as an opened interaction is in its slot, each change of the slot is an accepted write of it. */
  lemma {:induction false} ChangesAreWrites(reg: Registry, s: State, steps: seq<Step>, key: Key, id: nat, from: nat)
    requires Initial(s) && from <= |steps| && InSlot(Run(reg, s, steps), key, id)
    requires Count(Upto(reg, s, steps, from).history, OpenTag, id) == 1
    ensures Changes(reg, s, steps, key, from) + Writes(Upto(reg, s, steps, from).history, id) <=
            Writes(Run(reg, s, steps).history, id)
    decreases |steps|
  {
    hide Apply, Count, Writes;
    if from == |steps| {
      UptoAll(reg, s, steps);
    } else {
      var n := |steps| - 1;
      var most := steps[..n];
      var u := Run(reg, s, most);
      RunKeeps(reg, s, most);
      UptoPrefix(reg, s, steps, n, from);
      CountsGrow(reg, s, most, from, OpenTag, id);
      assert Balanced(u.history, id);
      StepWrites(reg, u, steps[n], key, id);
      WritesGrow(reg, s, steps, n, id);
      ChangesAreWrites(reg, s, most, key, id, from);
    }
  }

  // -------------------------------------------------- when an abandon's answer is right

  /** The last step by which an operation read the store. */
  ghost predicate LastReadAt(reg: Registry, s: State, steps: seq<Step>, i: nat, n: nat) {
    && n < |steps| && steps[n] == Read(i)
    && i < |Upto(reg, s, steps, n).ops| && ToRead(Upto(reg, s, steps, n).ops[i].phase)
    && forall m :: n < m <= |steps| ==>
         i < |Upto(reg, s, steps, m).ops| && !ToRead(Upto(reg, s, steps, m).ops[i].phase)
  }

  lemma ClaimedIsOwn(reg: Registry, call: Call, raw: Option<Raw>, now: int)
    requires call.AbandonCall?
    ensures DecideOn(reg, call, raw, now) == Answer(AlreadyClaimed) ==>
              Own(raw, call) && Scoped(raw, call.bind).value.status == Claimed
    ensures LastAnswer(call, raw) == AlreadyClaimed ==> Own(raw, call)
  {
  }

  /** The last read of an abandon that answered claimed: of its own record, and claimed unless both its writes were refused. */
  lemma LastReadOf(reg: Registry, s: State, steps: seq<Step>, i: nat) returns (n: nat)
    requires s.ops == [] && i < |Run(reg, s, steps).ops|
    requires Run(reg, s, steps).ops[i].call.AbandonCall? && Run(reg, s, steps).ops[i].phase == Finished(AlreadyClaimed)
    ensures LastReadAt(reg, s, steps, i, n)
    ensures var u, call := Upto(reg, s, steps, n), Run(reg, s, steps).ops[i].call;
            && u.ops[i].call == call
            && Own(Get(u.entries, KeyOf(call)), call)
            && (u.ops[i].phase.Reading? ==> Scoped(Get(u.entries, KeyOf(call)), call.bind).value.status == Claimed)
  {
    hide Run, Apply, Own;
    var decide := LastMoveCame(reg, s, steps, i);
    var v := Upto(reg, s, steps, decide);
    ClaimedIsOwn(reg, v.ops[i].call, if v.ops[i].phase.Deciding? || v.ops[i].phase.LastDeciding? then v.ops[i].phase.raw else None, v.now);
    n := ReadBefore(reg, s, steps[..decide], i);
    UptoPrefix(reg, s, steps, decide, n);
    forall m | n < m <= |steps|
      ensures i < |Upto(reg, s, steps, m).ops| && !ToRead(Upto(reg, s, steps, m).ops[i].phase)
    {
      if m <= decide {
        UptoPrefix(reg, s, steps, decide, m);
      }
    }
  }

  /** An abandon whose last read found its own record not claimed lost two attempts to two writes of that record. */
  lemma WrongTakesTwo(reg: Registry, s: State, steps: seq<Step>, i: nat, start: nat)
    requires Initial(s) && i < |Run(reg, s, steps).ops|
    requires Run(reg, s, steps).ops[i].call.AbandonCall? && Run(reg, s, steps).ops[i].phase == LastReading
    requires var call := Run(reg, s, steps).ops[i].call; Own(Get(Run(reg, s, steps).entries, KeyOf(call)), call)
    requires start <= |steps| && |Upto(reg, s, steps, start).ops| <= i
    ensures var id := Run(reg, s, steps).ops[i].call.id;
            Writes(Run(reg, s, steps).history, id) >= Writes(Upto(reg, s, steps, start).history, id) + 2
  {
    hide Run, Apply, Changes, Count, Writes;
    var call := Run(reg, s, steps).ops[i].call;
    var key := KeyOf(call);
    var first, second := LostTwice(reg, s, steps, i);
    UptoPrefix(reg, s, steps, second, first);
    ChangesJoin(reg, s, steps, key, first, second);
    StartedBefore(reg, s, steps, i, start, first);
    var u := Upto(reg, s, steps, first);
    RunKeeps(reg, s, steps[..first]);
    assert RecordOk(u.history, key.conversation, u.entries[key].record);
    ChangesAreWrites(reg, s, steps, key, call.id, first);
    UptoPrefix(reg, s, steps, first, start);
    WritesGrow(reg, s, steps[..first], start, call.id);
  }

  /**
   * An abandon that answered claimed is right exactly when the record of its own that
   * its last read found had one more accepted claim than releases.  When it is wrong
   * it had lost both its writes, and its pause was written twice at least between its
   * start and that read: with fewer writes by others, the answer is right.
   */
  lemma AbandonIsRightIff(reg: Registry, s: State, steps: seq<Step>, i: nat, start: nat) returns (n: nat)
    requires Initial(s) && i < |Run(reg, s, steps).ops|
    requires Run(reg, s, steps).ops[i].call.AbandonCall? && Run(reg, s, steps).ops[i].phase == Finished(AlreadyClaimed)
    requires start <= |steps| && |Upto(reg, s, steps, start).ops| <= i
    ensures start < n && LastReadAt(reg, s, steps, i, n)
    ensures var u, call := Upto(reg, s, steps, n), Run(reg, s, steps).ops[i].call;
            var last := Scoped(Get(u.entries, KeyOf(call)), call.bind);
            && last.Some? && last.value.interactionId == call.id
            && (last.value.status == Claimed <==>
                  Count(u.history, ClaimTag, call.id) == Count(u.history, ReleaseTag, call.id) + 1)
            && (last.value.status != Claimed ==>
                  && u.ops[i].phase == LastReading
                  && Writes(u.history, call.id) >= Writes(Upto(reg, s, steps, start).history, call.id) + 2)
  {
    hide Run, Apply, Count, Writes;
    n := LastReadOf(reg, s, steps, i);
    StartedBefore(reg, s, steps, i, start, n);
    var u, call := Upto(reg, s, steps, n), Run(reg, s, steps).ops[i].call;
    var key := KeyOf(call);
    RunKeeps(reg, s, steps[..n]);
    assert RecordOk(u.history, key.conversation, u.entries[key].record);
    if u.entries[key].record.status != Claimed {
      UptoPrefix(reg, s, steps, n, start);
      WrongTakesTwo(reg, s, steps[..n], i, start);
    }
  }
}
