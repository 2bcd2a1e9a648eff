/**
 * The message log and the write that changes it by compare-and-set on a revision
 * (packages/assistant-kit/src/testing.ts, packages/assistant-kit/src/create-kit.ts).
 *
 * One conversation: its log, the writes in flight, and every accepted change in
 * the order the store accepted it.  Reading the latest message and committing are
 * separate steps; any number of writes interleave between them.
 */
module MessageLog {
  import opened Wrappers
  import opened Messages

  const MESSAGE_WRITE_ATTEMPTS := 4

  datatype Body = Readable(role: string, parts: seq<Part>) | Garbled(bytes: string)

  datatype Stored = Stored(seqNo: nat, messageId: string, bind: string, body: Body, revision: nat)

  type Log = seq<Stored>

  function Latest(log: Log): Option<Stored> {
    if log == [] then None else Some(log[|log| - 1])
  }

  function IndexOfId(log: Log, id: string): (at: int)
    ensures -1 <= at < |log|
    ensures at >= 0 ==> log[at].messageId == id
    ensures at < 0 ==> forall k :: 0 <= k < |log| ==> log[k].messageId != id
  {
    if log == [] then -1
    else if log[|log| - 1].messageId == id then |log| - 1
    else IndexOfId(log[..|log| - 1], id)
  }

  /** The message a (seq, id) pair names, or -1. */
  function IndexOfPair(log: Log, seqNo: nat, id: string): (at: int)
    ensures -1 <= at < |log|
    ensures at >= 0 ==> log[at].messageId == id && log[at].seqNo == seqNo
    ensures at < 0 ==> forall k :: 0 <= k < |log| ==> !(log[k].messageId == id && log[k].seqNo == seqNo)
  {
    if log == [] then -1
    else if log[|log| - 1].messageId == id && log[|log| - 1].seqNo == seqNo then |log| - 1
    else IndexOfPair(log[..|log| - 1], seqNo, id)
  }

  function NextSeq(log: Log): nat {
    (if log == [] then 0 else log[|log| - 1].seqNo) + 1
  }

  datatype StoreAnswer = Done | Stale | Rejected

  /** Sequence numbers rise and no message id is used twice. */
  ghost predicate Ordered(log: Log) {
    forall j, k :: 0 <= j < k < |log| ==> log[j].seqNo < log[k].seqNo && log[j].messageId != log[k].messageId
  }

  /** Insert refuses an id the log already holds; it never updates. */
  function InsertAnswer(log: Log, messageId: string): StoreAnswer {
    if IndexOfId(log, messageId) >= 0 then Rejected else Done
  }

  function InsertedLog(log: Log, messageId: string, bind: string, body: Body): Log {
    log + [Stored(NextSeq(log), messageId, bind, body, 1)]
  }

  /** Update replaces a message only while its revision is still the one read. */
  function UpdateAnswer(log: Log, seqNo: nat, messageId: string, revision: nat): StoreAnswer {
    var at := IndexOfPair(log, seqNo, messageId);
    if at < 0 then Rejected else if log[at].revision != revision then Stale else Done
  }

  function UpdatedLog(log: Log, seqNo: nat, messageId: string, body: Body): Log
    requires IndexOfPair(log, seqNo, messageId) >= 0
  {
    var at := IndexOfPair(log, seqNo, messageId);
    log[at := log[at].(body := body, revision := log[at].revision + 1)]
  }

  class MemoryMessageLog {
    var log: Log
    var writes: nat

    constructor ()
      ensures log == [] && writes == 0
    {
      log, writes := [], 0;
    }

    method LatestPage() returns (latest: Option<Stored>)
      ensures latest == Latest(log)
    {
      latest := if log == [] then None else Some(log[|log| - 1]);
    }

    method Insert(messageId: string, bind: string, body: Body) returns (answer: StoreAnswer)
      requires Ordered(log)
      modifies this
      ensures Ordered(log)
      ensures answer == InsertAnswer(old(log), messageId)
      ensures log == if answer == Done then InsertedLog(old(log), messageId, bind, body) else old(log)
      ensures writes == old(writes) + if answer == Done then 1 else 0
    {
      if IndexOfId(log, messageId) >= 0 {
        return Rejected;
      }
      log := log + [Stored(NextSeq(log), messageId, bind, body, 1)];
      writes := writes + 1;
      answer := Done;
    }

    method Update(seqNo: nat, messageId: string, revision: nat, body: Body) returns (answer: StoreAnswer)
      requires Ordered(log)
      modifies this
      ensures Ordered(log)
      ensures answer == UpdateAnswer(old(log), seqNo, messageId, revision)
      ensures log == if answer == Done then UpdatedLog(old(log), seqNo, messageId, body) else old(log)
      ensures writes == old(writes) + if answer == Done then 1 else 0
    {
      var at := IndexOfPair(log, seqNo, messageId);
      if at < 0 {
        return Rejected;
      }
      if log[at].revision != revision {
        return Stale;
      }
      log := log[at := log[at].(body := body, revision := log[at].revision + 1)];
      writes := writes + 1;
      answer := Done;
    }
  }

  // ------------------------------------------------------------------ writes

  datatype Result = Written | Unchanged | WrongOwner | Conflict | Unreadable | Refused

  datatype Phase =
    | Reading(attempt: nat)
    | Updating(attempt: nat, seen: Stored, parts: seq<Part>, since: nat)
    | Inserting(parts: seq<Part>)
    | Finished(result: Result)

  /**
   * `base` is how often the message had been updated when the write began, and
   * `since` how many changes had been accepted when it was read.
   */
  datatype Op = Op(bind: string, messageId: string, role: string, write: Write, base: nat, phase: Phase)

  datatype Event =
    | Inserted(op: nat, at: nat, messageId: string, write: Write)
    | Updated(op: nat, at: nat, messageId: string, write: Write, since: nat)

  datatype State = State(log: Log, ops: seq<Op>, history: seq<Event>)

  datatype Step =
    | Start(bind: string, messageId: string, role: string, write: Write)
    | ReadLatest(op: nat)
    | Commit(op: nat)

  function DecideOn(op: Op, attempt: nat, latest: Option<Stored>, since: nat): Phase {
    if latest.Some? && latest.value.bind != op.bind then Finished(WrongOwner)
    else if latest.Some? && latest.value.messageId == op.messageId then
      (match latest.value.body
       case Garbled(_) => Finished(Unreadable)
       case Readable(_, parts) =>
         var next := ApplyWrite(parts, op.write);
         if next.None? then Finished(Unchanged) else Updating(attempt, latest.value, next.value, since))
    else
      (match op.write
       case EndText(_) => Finished(Unchanged)
       case Append(parts) => Inserting(Appended([], parts)))
  }

  function SetPhase(s: State, i: nat, phase: Phase): State
    requires i < |s.ops|
  {
    s.(ops := s.ops[i := s.ops[i].(phase := phase)])
  }

  function CommitUpdate(s: State, i: nat): State
    requires i < |s.ops| && s.ops[i].phase.Updating?
  {
    var op, ph := s.ops[i], s.ops[i].phase;
    var role := if ph.seen.body.Readable? then ph.seen.body.role else "";
    match UpdateAnswer(s.log, ph.seen.seqNo, ph.seen.messageId, ph.seen.revision)
    case Rejected => SetPhase(s, i, Finished(Refused))
    case Stale =>
      SetPhase(s, i, if ph.attempt + 1 < MESSAGE_WRITE_ATTEMPTS then Reading(ph.attempt + 1) else Finished(Conflict))
    case Done =>
      SetPhase(s, i, Finished(Written))
      .(log := UpdatedLog(s.log, ph.seen.seqNo, ph.seen.messageId, Readable(role, ph.parts)),
        history := s.history + [Updated(i, IndexOfPair(s.log, ph.seen.seqNo, ph.seen.messageId),
                                        op.messageId, op.write, ph.since)])
  }

  function CommitInsert(s: State, i: nat): State
    requires i < |s.ops| && s.ops[i].phase.Inserting?
  {
    var op := s.ops[i];
    if InsertAnswer(s.log, op.messageId) == Rejected then SetPhase(s, i, Finished(Refused))
    else
      SetPhase(s, i, Finished(Written))
      .(log := InsertedLog(s.log, op.messageId, op.bind, Readable(op.role, op.phase.parts)),
        history := s.history + [Inserted(i, |s.log|, op.messageId, op.write)])
  }

  function Apply(s: State, step: Step): State {
    match step
    case Start(bind, messageId, role, write) =>
      s.(ops := s.ops + [Op(bind, messageId, role, write, Updates(s.history, messageId), Reading(0))])
    case ReadLatest(i) =>
      if i < |s.ops| && s.ops[i].phase.Reading?
      then SetPhase(s, i, DecideOn(s.ops[i], s.ops[i].phase.attempt, Latest(s.log), |s.history|))
      else s
    case Commit(i) =>
      if i >= |s.ops| then s
      else if s.ops[i].phase.Updating? then CommitUpdate(s, i)
      else if s.ops[i].phase.Inserting? then CommitInsert(s, i)
      else s
  }

  function Run(s: State, steps: seq<Step>): State {
    if steps == [] then s else Apply(Run(s, steps[..|steps| - 1]), steps[|steps| - 1])
  }

  // ------------------------------------------------------- reading the history

  /** Accepted updates of one message id; its insert is not one. */
  function Updates(h: seq<Event>, id: string): nat {
    if h == [] then 0
    else Updates(h[..|h| - 1], id) + if h[|h| - 1].Updated? && h[|h| - 1].messageId == id then 1 else 0
  }

  /** Accepted changes of the message at one place of the log. */
  function ChangesAt(h: seq<Event>, at: nat): nat {
    if h == [] then 0 else ChangesAt(h[..|h| - 1], at) + if h[|h| - 1].at == at then 1 else 0
  }

  /** Accepted changes made by one write. */
  function ChangesBy(h: seq<Event>, op: nat): nat {
    if h == [] then 0 else ChangesBy(h[..|h| - 1], op) + if h[|h| - 1].op == op then 1 else 0
  }

  lemma ChangesPushed(h: seq<Event>, e: Event)
    ensures forall id :: Updates(h + [e], id) == Updates(h, id) + if e.Updated? && e.messageId == id then 1 else 0
    ensures forall at :: ChangesAt(h + [e], at) == ChangesAt(h, at) + if e.at == at then 1 else 0
    ensures forall op :: ChangesBy(h + [e], op) == ChangesBy(h, op) + if e.op == op then 1 else 0
  {
    assert (h + [e])[..|h + [e]| - 1] == h;
  }

  /** The message at one place, its accepted writes applied one after another. */
  function Replayed(first: Log, h: seq<Event>, at: nat): Option<seq<Part>> {
    if h == [] then
      if at < |first| && first[at].body.Readable? then Some(first[at].body.parts) else None
    else
      var e, before := h[|h| - 1], Replayed(first, h[..|h| - 1], at);
      if e.at != at then before
      else if e.Inserted? then Some(Appended([], if e.write.Append? then e.write.parts else []))
      else if before.Some? then ApplyWrite(before.value, e.write)
      else None
  }

  // ---------------------------------------------------------------- invariant

  /** The log as the history determines it. */
  ghost predicate LogOk(first: Log, s: State) {
    && Ordered(s.log)
    && |first| <= |s.log|
    && (forall k :: 0 <= k < |first| ==>
          && s.log[k].messageId == first[k].messageId && s.log[k].bind == first[k].bind
          && s.log[k].seqNo == first[k].seqNo && (first[k].body.Garbled? ==> s.log[k] == first[k]))
    && (forall k :: 0 <= k < |s.log| ==>
          && s.log[k].revision == (if k < |first| then first[k].revision else 0) + ChangesAt(s.history, k)
          && Replayed(first, s.history, k) == (if s.log[k].body.Readable? then Some(s.log[k].body.parts) else None))
    && (forall k :: k >= |s.log| ==> ChangesAt(s.history, k) == 0)
  }

  ghost predicate HistoryOk(first: Log, s: State) {
    forall j :: 0 <= j < |s.history| ==> EventOk(first, s, j)
  }

  ghost predicate EventOk(first: Log, s: State, j: nat)
    requires j < |s.history|
  {
    var e := s.history[j];
    && e.op < |s.ops| && e.at < |s.log| && s.log[e.at].messageId == e.messageId
    && e.write == s.ops[e.op].write && s.log[e.at].bind == s.ops[e.op].bind
    && (if e.Inserted? then ChangesAt(s.history[..j], e.at) == 0 && e.at >= |first| && e.write.Append?
        else Replayed(first, s.history[..j], e.at).Some?
             && ApplyWrite(Replayed(first, s.history[..j], e.at).value, e.write).Some?)
  }

  ghost predicate OpOk(s: State, i: nat)
    requires i < |s.ops|
  {
    var op := s.ops[i];
    && ChangesBy(s.history, i) == (if op.phase == Finished(Written) then 1 else 0)
    && match op.phase {
      case Reading(attempt) =>
        attempt < MESSAGE_WRITE_ATTEMPTS && Updates(s.history, op.messageId) >= op.base + attempt
      case Updating(attempt, seen, parts, since) =>
        var at := IndexOfPair(s.log, seen.seqNo, seen.messageId);
        && attempt < MESSAGE_WRITE_ATTEMPTS
        && at >= 0 && seen.messageId == op.messageId && seen.bind == op.bind
        && s.log[at].bind == seen.bind
        && seen.body.Readable? && ApplyWrite(seen.body.parts, op.write) == Some(parts)
        && seen.revision <= s.log[at].revision
        && (seen.revision == s.log[at].revision ==> s.log[at] == seen)
        && Updates(s.history, op.messageId) >= op.base + attempt + (s.log[at].revision - seen.revision)
      case Inserting(parts) => op.write.Append? && parts == Appended([], op.write.parts)
      case Finished(result) =>
        result == Conflict ==> Updates(s.history, op.messageId) >= op.base + MESSAGE_WRITE_ATTEMPTS
    }
  }

  ghost predicate Inv(first: Log, s: State) {
    && LogOk(first, s)
    && HistoryOk(first, s)
    && (forall i :: 0 <= i < |s.ops| ==> OpOk(s, i))
    && (forall i :: i >= |s.ops| ==> ChangesBy(s.history, i) == 0)
  }

  lemma PairFound(log: Log, k: nat)
    requires Ordered(log) && k < |log|
    ensures IndexOfPair(log, log[k].seqNo, log[k].messageId) == k
  {
    var at := IndexOfPair(log, log[k].seqNo, log[k].messageId);
    assert at >= 0;
  }

  lemma ReplayedPushed(first: Log, h: seq<Event>, e: Event, at: nat)
    ensures Replayed(first, h + [e], at) ==
            if e.at != at then Replayed(first, h, at)
            else if e.Inserted? then Some(Appended([], if e.write.Append? then e.write.parts else []))
            else if Replayed(first, h, at).Some? then ApplyWrite(Replayed(first, h, at).value, e.write)
            else None
  {
    assert (h + [e])[..|h + [e]| - 1] == h;
  }

  /** A step that changes neither the log nor the history. */
  lemma QuietKeeps(first: Log, s: State, t: State)
    requires Inv(first, s) && t.log == s.log && t.history == s.history && |s.ops| <= |t.ops|
    requires forall i :: 0 <= i < |s.ops| ==>
               t.ops[i].write == s.ops[i].write && t.ops[i].bind == s.ops[i].bind && OpOk(t, i)
    requires forall i :: |s.ops| <= i < |t.ops| ==> OpOk(t, i)
    ensures Inv(first, t)
  {
    forall j | 0 <= j < |t.history| ensures EventOk(first, t, j) {
      assert EventOk(first, s, j);
    }
  }

  lemma StartKeeps(first: Log, s: State, step: Step)
    requires Inv(first, s) && step.Start?
    ensures Inv(first, Apply(s, step))
  {
    var t := Apply(s, step);
    forall i | 0 <= i < |t.ops| ensures OpOk(t, i) {
      if i < |s.ops| {
        assert OpOk(s, i);
      }
    }
    QuietKeeps(first, s, t);
  }

  lemma ReadKeeps(first: Log, s: State, i: nat)
    requires Inv(first, s) && i < |s.ops| && s.ops[i].phase.Reading?
    ensures Inv(first, Apply(s, ReadLatest(i)))
  {
    var t := Apply(s, ReadLatest(i));
    forall j | 0 <= j < |t.ops| ensures OpOk(t, j) {
      assert OpOk(s, j);
      if j == i && s.log != [] {
        PairFound(s.log, |s.log| - 1);
      }
    }
    QuietKeeps(first, s, t);
  }

  /** A lost race costs one attempt, and another write of the message was accepted. */
  lemma LossKeeps(first: Log, s: State, i: nat)
    requires Inv(first, s) && i < |s.ops|
    requires s.ops[i].phase.Updating? || s.ops[i].phase.Inserting?
    requires Apply(s, Commit(i)).history == s.history
    ensures Inv(first, Apply(s, Commit(i)))
  {
    hide HistoryOk, ApplyWrite, Appended;
    var t := Apply(s, Commit(i));
    assert OpOk(s, i);
    forall j | 0 <= j < |t.ops| ensures OpOk(t, j) {
      assert OpOk(s, j);
    }
    QuietKeeps(first, s, t);
  }

  /** An operation other than the one accepted, after a change at place `at`. */
  lemma OtherOpOk(first: Log, s: State, t: State, e: Event, i: nat, j: nat)
    requires Inv(first, s) && i < |s.ops| && j < |s.ops| && j != i && |t.ops| == |s.ops|
    requires t.ops[j] == s.ops[j] && t.history == s.history + [e] && e.op == i
    requires Ordered(t.log) && |s.log| <= |t.log|
    requires forall k :: 0 <= k < |s.log| ==>
               && t.log[k].messageId == s.log[k].messageId && t.log[k].seqNo == s.log[k].seqNo
               && t.log[k].bind == s.log[k].bind
               && (if k == e.at then
                     t.log[k].revision == s.log[k].revision + 1 && s.log[k].messageId == e.messageId && e.Updated?
                   else t.log[k] == s.log[k])
    ensures OpOk(t, j)
  {
    assert OpOk(s, j);
    ChangesPushed(s.history, e);
    if s.ops[j].phase.Updating? {
      var seen := s.ops[j].phase.seen;
      var at := IndexOfPair(s.log, seen.seqNo, seen.messageId);
      PairFound(t.log, at);
    }
  }

  lemma EventsStand(first: Log, s: State, t: State, e: Event)
    requires HistoryOk(first, s) && t.history == s.history + [e]
    requires |s.ops| == |t.ops| && |s.log| <= |t.log|
    requires forall i :: 0 <= i < |s.ops| ==> t.ops[i].write == s.ops[i].write && t.ops[i].bind == s.ops[i].bind
    requires forall k :: 0 <= k < |s.log| ==> t.log[k].messageId == s.log[k].messageId && t.log[k].bind == s.log[k].bind
    requires EventOk(first, t, |s.history|)
    ensures HistoryOk(first, t)
  {
    forall j | 0 <= j < |t.history| ensures EventOk(first, t, j) {
      if j < |s.history| {
        assert EventOk(first, s, j);
        assert t.history[j] == s.history[j] && t.history[..j] == s.history[..j];
      }
    }
  }

  lemma UpdateKeepsLog(first: Log, s: State, i: nat)
    requires Inv(first, s) && i < |s.ops| && s.ops[i].phase.Updating?
    requires CommitUpdate(s, i).history != s.history
    ensures LogOk(first, CommitUpdate(s, i))
  {
    var t := CommitUpdate(s, i);
    var op, ph := s.ops[i], s.ops[i].phase;
    var at := IndexOfPair(s.log, ph.seen.seqNo, ph.seen.messageId);
    var e := Updated(i, at, op.messageId, op.write, ph.since);
    assert OpOk(s, i);
    ChangesPushed(s.history, e);
    forall k | 0 <= k < |t.log|
      ensures t.log[k].revision == (if k < |first| then first[k].revision else 0) + ChangesAt(t.history, k)
      ensures Replayed(first, t.history, k) == (if t.log[k].body.Readable? then Some(t.log[k].body.parts) else None)
    {
      ReplayedPushed(first, s.history, e, k);
    }
  }

  /** An accepted update replaced exactly the version it had read. */
  lemma UpdateKeeps(first: Log, s: State, i: nat)
    requires Inv(first, s) && i < |s.ops| && s.ops[i].phase.Updating?
    requires CommitUpdate(s, i).history != s.history
    ensures Inv(first, CommitUpdate(s, i))
  {
    var t := CommitUpdate(s, i);
    var op, ph := s.ops[i], s.ops[i].phase;
    var at := IndexOfPair(s.log, ph.seen.seqNo, ph.seen.messageId);
    var e := Updated(i, at, op.messageId, op.write, ph.since);
    assert OpOk(s, i);
    UpdateKeepsLog(first, s, i);
    ChangesPushed(s.history, e);
    assert t.history[..|s.history|] == s.history;
    assert EventOk(first, t, |s.history|);
    EventsStand(first, s, t, e);
    forall j | 0 <= j < |t.ops| ensures OpOk(t, j) {
      if j != i {
        OtherOpOk(first, s, t, e, i, j);
      }
    }
  }

  lemma InsertKeepsLog(first: Log, s: State, i: nat)
    requires Inv(first, s) && i < |s.ops| && s.ops[i].phase.Inserting?
    requires CommitInsert(s, i).history != s.history
    ensures LogOk(first, CommitInsert(s, i))
  {
    var t := CommitInsert(s, i);
    var op := s.ops[i];
    var e := Inserted(i, |s.log|, op.messageId, op.write);
    assert OpOk(s, i);
    ChangesPushed(s.history, e);
    forall k | 0 <= k < |t.log|
      ensures t.log[k].revision == (if k < |first| then first[k].revision else 0) + ChangesAt(t.history, k)
      ensures Replayed(first, t.history, k) == (if t.log[k].body.Readable? then Some(t.log[k].body.parts) else None)
    {
      ReplayedPushed(first, s.history, e, k);
    }
  }

  lemma InsertKeeps(first: Log, s: State, i: nat)
    requires Inv(first, s) && i < |s.ops| && s.ops[i].phase.Inserting?
    requires CommitInsert(s, i).history != s.history
    ensures Inv(first, CommitInsert(s, i))
  {
    var t := CommitInsert(s, i);
    var op := s.ops[i];
    var e := Inserted(i, |s.log|, op.messageId, op.write);
    assert OpOk(s, i);
    InsertKeepsLog(first, s, i);
    ChangesPushed(s.history, e);
    assert t.history[..|s.history|] == s.history;
    assert EventOk(first, t, |s.history|);
    EventsStand(first, s, t, e);
    forall j | 0 <= j < |t.ops| ensures OpOk(t, j) {
      if j != i {
        OtherOpOk(first, s, t, e, i, j);
      }
    }
  }

  lemma ApplyKeeps(first: Log, s: State, step: Step)
    requires Inv(first, s)
    ensures Inv(first, Apply(s, step))
  {
    match step {
      case Start(_, _, _, _) => StartKeeps(first, s, step);
      case ReadLatest(i) =>
        if i < |s.ops| && s.ops[i].phase.Reading? {
          ReadKeeps(first, s, i);
        }
      case Commit(i) =>
        if i < |s.ops| && (s.ops[i].phase.Updating? || s.ops[i].phase.Inserting?) {
          if Apply(s, step).history == s.history {
            LossKeeps(first, s, i);
          } else if s.ops[i].phase.Updating? {
            UpdateKeeps(first, s, i);
          } else {
            InsertKeeps(first, s, i);
          }
        }
    }
  }

  /** A log as an earlier process left it, and no write in flight. */
  function Begin(first: Log): State {
    State(first, [], [])
  }

  lemma {:induction false} RunKeeps(first: Log, steps: seq<Step>)
    requires Ordered(first)
    ensures Inv(first, Run(Begin(first), steps))
  {
    if steps != [] {
      RunKeeps(first, steps[..|steps| - 1]);
      ApplyKeeps(first, Run(Begin(first), steps[..|steps| - 1]), steps[|steps| - 1]);
    }
  }

  // ------------------------------------------------------------------ theorems

  /**
   * A message at revision r holds the accepted writes of its life applied one
   * after another in the order they were accepted: r of them when it was inserted
   * here, r less the revision it was found with otherwise.
   */
  lemma WritesLinearize(first: Log, steps: seq<Step>, k: nat)
    requires Ordered(first) && k < |Run(Begin(first), steps).log|
    ensures var t := Run(Begin(first), steps);
            && t.log[k].revision == (if k < |first| then first[k].revision else 0) + ChangesAt(t.history, k)
            && (t.log[k].body.Readable? ==> Replayed(first, t.history, k) == Some(t.log[k].body.parts))
            && (t.log[k].body.Garbled? ==> k < |first| && t.log[k] == first[k])
  {
    RunKeeps(first, steps);
  }

  /** Each `written` is one accepted write, and any other answer is none. */
  lemma WrittenIsOneWrite(first: Log, steps: seq<Step>, i: nat)
    requires Ordered(first) && i < |Run(Begin(first), steps).ops|
    ensures var t := Run(Begin(first), steps);
            && (t.ops[i].phase == Finished(Written) <==> ChangesBy(t.history, i) == 1)
            && (t.ops[i].phase != Finished(Written) <==> ChangesBy(t.history, i) == 0)
  {
    RunKeeps(first, steps);
    assert OpOk(Run(Begin(first), steps), i);
  }

  /**
   * An accepted update applied its write to the version it replaced, and changed
   * it, under the owner the message has.
   */
  lemma UpdatesSawWhatTheyReplaced(first: Log, steps: seq<Step>, j: nat)
    requires Ordered(first) && j < |Run(Begin(first), steps).history|
    ensures var t := Run(Begin(first), steps); var e := t.history[j];
            && e.op < |t.ops| && e.at < |t.log| && t.log[e.at].bind == t.ops[e.op].bind
            && (!e.Inserted? ==>
                  && Replayed(first, t.history[..j], e.at).Some?
                  && ApplyWrite(Replayed(first, t.history[..j], e.at).value, t.ops[e.op].write).Some?)
            && (e.Inserted? ==> ChangesAt(t.history[..j], e.at) == 0)
  {
    RunKeeps(first, steps);
    assert EventOk(first, Run(Begin(first), steps), j);
  }

  /** `conflict` means four other updates of the message were accepted since this write began. */
  lemma ConflictIsEarned(first: Log, steps: seq<Step>, i: nat)
    requires Ordered(first) && i < |Run(Begin(first), steps).ops|
    requires Run(Begin(first), steps).ops[i].phase == Finished(Conflict)
    ensures var t := Run(Begin(first), steps);
            && Updates(t.history, t.ops[i].messageId) >= t.ops[i].base + MESSAGE_WRITE_ATTEMPTS
            && ChangesBy(t.history, i) == 0
  {
    RunKeeps(first, steps);
    assert OpOk(Run(Begin(first), steps), i);
  }

  lemma BaseStands(s: State, step: Step, i: nat)
    requires i < |s.ops|
    ensures i < |Apply(s, step).ops| && Apply(s, step).ops[i].base == s.ops[i].base
  {
  }

  /** `base` is the count of updates at the moment the write began. */
  lemma {:induction false} BaseIsTheStart(s: State, start: Step, more: seq<Step>)
    requires start.Start?
    ensures var t := Run(Apply(s, start), more);
            |t.ops| > |s.ops| && t.ops[|s.ops|].base == Updates(s.history, start.messageId)
    decreases |more|
  {
    if more != [] {
      BaseIsTheStart(s, start, more[..|more| - 1]);
      BaseStands(Run(Apply(s, start), more[..|more| - 1]), more[|more| - 1], |s.ops|);
    }
  }

  /** Nothing stored moves, changes owner or goes away, and revisions only rise. */
  lemma LogKeepsItsPlaces(first: Log, steps: seq<Step>, step: Step, k: nat)
    requires Ordered(first) && k < |Run(Begin(first), steps).log|
    ensures var s := Run(Begin(first), steps); var t := Apply(s, step);
            && k < |t.log| <= |s.log| + 1
            && t.log[k].seqNo == s.log[k].seqNo && t.log[k].messageId == s.log[k].messageId
            && t.log[k].bind == s.log[k].bind
            && (t.log[k] == s.log[k] || t.log[k].revision == s.log[k].revision + 1)
  {
  }

  lemma RunFour(s: State, a: Step, b: Step, c: Step, d: Step)
    ensures Run(s, [a, b, c, d]) == Apply(Apply(Apply(Apply(s, a), b), c), d)
  {
    assert [a, b, c, d][..3] == [a, b, c] && [a, b, c][..2] == [a, b] && [a, b][..1] == [a] && [a][..0] == [];
    assert Run(s, [a]) == Apply(s, a);
    assert Run(s, [a, b]) == Apply(Run(s, [a]), b);
    assert Run(s, [a, b, c]) == Apply(Run(s, [a, b]), c);
  }

  lemma {:induction false} RunJoins(s: State, a: seq<Step>, b: seq<Step>)
    ensures Run(s, a + b) == Run(Run(s, a), b)
    decreases |b|
  {
    if b == [] {
      assert a + b == a;
    } else {
      assert (a + b)[..|a + b| - 1] == a + b[..|b| - 1];
      RunJoins(s, a, b[..|b| - 1]);
    }
  }

  lemma BothFindItEmpty(a: string, b: string, first: string, second: string, w: Write)
    requires w.Append?
    ensures var p := Appended([], w.parts);
            Apply(Apply(Apply(Apply(Begin([]), Start(a, first, "user", w)), Start(b, second, "user", w)),
                        ReadLatest(0)), ReadLatest(1)) ==
            State([], [Op(a, first, "user", w, 0, Inserting(p)), Op(b, second, "user", w, 0, Inserting(p))], [])
  {
    var p := Appended([], w.parts);
    var x, y := Op(a, first, "user", w, 0, Reading(0)), Op(b, second, "user", w, 0, Reading(0));
    var s1 := Apply(Begin([]), Start(a, first, "user", w));
    assert s1 == State([], [x], []);
    var s2 := Apply(s1, Start(b, second, "user", w));
    assert s2 == State([], [x, y], []);
    var s3 := Apply(s2, ReadLatest(0));
    assert s3 == State([], [x.(phase := Inserting(p)), y], []);
  }

  lemma BothInsert(x: Op, y: Op)
    requires x.phase.Inserting? && y.phase.Inserting? && x.messageId != y.messageId
    ensures var t := Apply(Apply(State([], [x, y], []), Commit(0)), Commit(1));
            |t.log| == 2 && t.log[0].bind == x.bind && t.log[1].bind == y.bind
  {
    var s := State([], [x, y], []);
    var t := Apply(s, Commit(0));
    assert t.log == [Stored(1, x.messageId, x.bind, Readable(x.role, x.phase.parts), 1)] && t.ops[1] == y;
    assert IndexOfId(t.log, y.messageId) < 0;
  }

  /**
   * The owner check is made on what was read: two owners that both find the log
   * empty both insert, whoever they are.
   */
  lemma TwoOwnersCanBothInsert(a: string, b: string, first: string, second: string, parts: seq<Part>)
    requires a != b && first != second
    ensures exists steps :: var log := Run(Begin([]), steps).log;
              |log| == 2 && log[0].bind == a && log[1].bind == b
  {
    hide Apply, Appended;
    var w, p := Append(parts), Appended([], parts);
    var early := [Start(a, first, "user", w), Start(b, second, "user", w), ReadLatest(0), ReadLatest(1)];
    var both := [Commit(0), Commit(1)];
    RunJoins(Begin([]), early, both);
    RunFour(Begin([]), early[0], early[1], early[2], early[3]);
    BothFindItEmpty(a, b, first, second, w);
    BothInsert(Op(a, first, "user", w, 0, Inserting(p)), Op(b, second, "user", w, 0, Inserting(p)));
    var s := Run(Begin([]), early);
    assert both[..1] == [Commit(0)] && both[..1][..0] == [];
    assert Run(s, both[..1]) == Apply(s, Commit(0));
    assert Run(s, both) == Apply(Apply(s, Commit(0)), Commit(1));
    var log := Run(Begin([]), early + both).log;
    assert |log| == 2 && log[0].bind == a && log[1].bind == b;
  }

  // -------------------------------------------------------------- who owns a log

  /** All of a log under one owner. */
  ghost predicate OneBind(log: Log) {
    forall j, k :: 0 <= j < k < |log| ==> log[j].bind == log[k].bind
  }

  /** A log under this owner, and no write on its way for another. */
  ghost predicate OwnedBy(s: State, bind: string) {
    && s.log != [] && (forall k :: 0 <= k < |s.log| ==> s.log[k].bind == bind)
    && forall i :: 0 <= i < |s.ops| && (s.ops[i].phase.Updating? || s.ops[i].phase.Inserting?) ==> s.ops[i].bind == bind
  }

  lemma StepKeepsOwner(s: State, step: Step, bind: string)
    requires OwnedBy(s, bind)
    ensures OwnedBy(Apply(s, step), bind)
  {
    hide ApplyWrite, Appended, Updates;
  }

  lemma {:induction false} RunKeepsOwner(first: Log, steps: seq<Step>, bind: string)
    requires first != [] && forall k :: 0 <= k < |first| ==> first[k].bind == bind
    ensures OwnedBy(Run(Begin(first), steps), bind)
  {
    hide Apply;
    if steps != [] {
      RunKeepsOwner(first, steps[..|steps| - 1], bind);
      StepKeepsOwner(Run(Begin(first), steps[..|steps| - 1]), steps[|steps| - 1], bind);
    }
  }

  /**
   * The owner check keeps a log under one owner in every run exactly when the log
   * had a message to check against, all of it under one owner, before the writes began.
   */
  lemma OneOwnerIff(first: Log)
    ensures (forall steps :: OneBind(Run(Begin(first), steps).log)) <==> first != [] && OneBind(first)
  {
    hide Run, Apply;
    if first != [] && OneBind(first) {
      forall steps ensures OneBind(Run(Begin(first), steps).log) {
        RunKeepsOwner(first, steps, first[0].bind);
      }
    } else if first == [] {
      TwoOwnersCanBothInsert("a", "b", "first", "second", []);
      var steps :| var log := Run(Begin([]), steps).log; |log| == 2 && log[0].bind == "a" && log[1].bind == "b";
      assert !OneBind(Run(Begin(first), steps).log);
    } else {
      NothingRun(Begin(first));
      assert !OneBind(Run(Begin(first), []).log);
    }
  }

  lemma NothingRun(s: State)
    ensures Run(s, []) == s
  {
  }

  // --------------------------------------------------------- where an update lands

  function Inserts(h: seq<Event>): nat {
    if h == [] then 0 else Inserts(h[..|h| - 1]) + if h[|h| - 1].Inserted? then 1 else 0
  }

  lemma InsertsPushed(h: seq<Event>, e: Event)
    ensures Inserts(h + [e]) == Inserts(h) + if e.Inserted? then 1 else 0
  {
    assert (h + [e])[..|h|] == h;
  }

  lemma {:induction false} NoInsertsIff(h: seq<Event>, since: nat)
    requires since <= |h|
    ensures Inserts(h[..since]) <= Inserts(h)
    ensures Inserts(h[..since]) == Inserts(h) <==> forall k :: since <= k < |h| ==> h[k].Updated?
    decreases |h|
  {
    if since < |h| {
      assert h[..|h| - 1][..since] == h[..since];
      NoInsertsIff(h[..|h| - 1], since);
    } else {
      assert h[..since] == h;
    }
  }

  /** The place of an update is where the log ended when it was read. */
  ghost predicate ReadAtTheEnd(first: Log, h: seq<Event>, at: int, since: nat) {
    since <= |h| && at == |first| + Inserts(h[..since]) - 1
  }

  ghost predicate UpdateFromEnd(first: Log, h: seq<Event>, j: nat)
    requires j < |h|
  {
    h[j].Updated? ==> h[j].since <= j && ReadAtTheEnd(first, h, h[j].at, h[j].since)
  }

  ghost predicate PlacesOk(first: Log, s: State) {
    && |s.log| == |first| + Inserts(s.history)
    && (forall i :: 0 <= i < |s.ops| && s.ops[i].phase.Updating? ==>
          var ph := s.ops[i].phase;
          ReadAtTheEnd(first, s.history, IndexOfPair(s.log, ph.seen.seqNo, ph.seen.messageId), ph.since))
    && (forall j :: 0 <= j < |s.history| ==> UpdateFromEnd(first, s.history, j))
  }

  lemma ReadAtStays(first: Log, h: seq<Event>, e: Event, at: int, since: nat)
    requires ReadAtTheEnd(first, h, at, since)
    ensures ReadAtTheEnd(first, h + [e], at, since)
  {
    assert (h + [e])[..since] == h[..since];
  }

  lemma EventsFromEnd(first: Log, h: seq<Event>, e: Event)
    requires forall j :: 0 <= j < |h| ==> UpdateFromEnd(first, h, j)
    requires e.Updated? ==> e.since <= |h| && ReadAtTheEnd(first, h, e.at, e.since)
    ensures forall j :: 0 <= j < |h| + 1 ==> UpdateFromEnd(first, h + [e], j)
  {
    hide ReadAtTheEnd;
    var g := h + [e];
    forall j | 0 <= j < |g| ensures UpdateFromEnd(first, g, j) {
      if j < |h| && h[j].Updated? {
        assert UpdateFromEnd(first, h, j);
        ReadAtStays(first, h, e, h[j].at, h[j].since);
      } else if e.Updated? {
        ReadAtStays(first, h, e, e.at, e.since);
      }
    }
  }

  /** The pair that names a message names it as long as the log only grows. */
  lemma PairStays(log: Log, next: Log, seqNo: nat, id: string)
    requires Ordered(next) && |log| <= |next| && IndexOfPair(log, seqNo, id) >= 0
    requires forall k :: 0 <= k < |log| ==> next[k].messageId == log[k].messageId && next[k].seqNo == log[k].seqNo
    ensures IndexOfPair(next, seqNo, id) == IndexOfPair(log, seqNo, id)
  {
    PairFound(next, IndexOfPair(log, seqNo, id));
  }

  lemma ReadPlaces(first: Log, s: State, i: nat)
    requires Inv(first, s) && PlacesOk(first, s) && i < |s.ops| && s.ops[i].phase.Reading?
    ensures PlacesOk(first, Apply(s, ReadLatest(i)))
  {
    hide ApplyWrite, Appended, Updates, HistoryOk;
    assert s.history[..|s.history|] == s.history;
    if s.log != [] {
      PairFound(s.log, |s.log| - 1);
    }
  }

  lemma CommitPlaces(first: Log, s: State, t: State, e: Event, i: nat)
    requires Inv(first, s) && PlacesOk(first, s) && i < |s.ops| == |t.ops|
    requires t.history == s.history + [e] && !t.ops[i].phase.Updating? && Ordered(t.log)
    requires |t.log| == |s.log| + if e.Inserted? then 1 else 0
    requires forall k :: 0 <= k < |s.log| ==> t.log[k].messageId == s.log[k].messageId && t.log[k].seqNo == s.log[k].seqNo
    requires forall j :: 0 <= j < |s.ops| && j != i ==> t.ops[j] == s.ops[j]
    requires e.Updated? ==> e.since <= |s.history| && ReadAtTheEnd(first, s.history, e.at, e.since)
    ensures PlacesOk(first, t)
  {
    hide LogOk, HistoryOk, ReadAtTheEnd, UpdateFromEnd, Updates;
    InsertsPushed(s.history, e);
    EventsFromEnd(first, s.history, e);
    forall j | 0 <= j < |t.ops| && t.ops[j].phase.Updating?
      ensures var ph := t.ops[j].phase;
              ReadAtTheEnd(first, t.history, IndexOfPair(t.log, ph.seen.seqNo, ph.seen.messageId), ph.since)
    {
      var ph := s.ops[j].phase;
      assert OpOk(s, j);
      PairStays(s.log, t.log, ph.seen.seqNo, ph.seen.messageId);
      ReadAtStays(first, s.history, e, IndexOfPair(s.log, ph.seen.seqNo, ph.seen.messageId), ph.since);
    }
  }

  lemma CommitStepPlaces(first: Log, s: State, i: nat)
    requires Inv(first, s) && PlacesOk(first, s) && i < |s.ops|
    ensures PlacesOk(first, Apply(s, Commit(i)))
  {
    hide ApplyWrite, Appended, Updates, HistoryOk, OpOk, UpdateFromEnd;
    var t := Apply(s, Commit(i));
    if t.history != s.history {
      ApplyKeeps(first, s, Commit(i));
      CommitPlaces(first, s, t, t.history[|s.history|], i);
    }
  }

  lemma StepPlaces(first: Log, s: State, step: Step)
    requires Inv(first, s) && PlacesOk(first, s)
    ensures PlacesOk(first, Apply(s, step))
  {
    hide Inv, UpdateFromEnd, ReadAtTheEnd, DecideOn, CommitUpdate, CommitInsert;
    match step {
      case ReadLatest(i) =>
        if i < |s.ops| && s.ops[i].phase.Reading? {
          ReadPlaces(first, s, i);
        }
      case Commit(i) =>
        if i < |s.ops| {
          CommitStepPlaces(first, s, i);
        }
      case Start(_, _, _, _) =>
    }
  }

  lemma {:induction false} PlacesRun(first: Log, steps: seq<Step>)
    requires Ordered(first)
    ensures PlacesOk(first, Run(Begin(first), steps))
  {
    hide Apply, Inv;
    if steps != [] {
      RunKeeps(first, steps[..|steps| - 1]);
      PlacesRun(first, steps[..|steps| - 1]);
      StepPlaces(first, Run(Begin(first), steps[..|steps| - 1]), steps[|steps| - 1]);
    }
  }

  /** How long the log is at any point of a run. */
  lemma LogGrowsByInserts(first: Log, steps: seq<Step>)
    requires Ordered(first)
    ensures |Run(Begin(first), steps).log| == |first| + Inserts(Run(Begin(first), steps).history)
  {
    hide Run, Inserts;
    PlacesRun(first, steps);
  }

  lemma StepHistory(s: State, step: Step)
    ensures var t := Apply(s, step);
            t.history == s.history || (|t.history| == |s.history| + 1 && t.history[..|s.history|] == s.history)
  {
    hide ApplyWrite, Appended;
  }

  /** The step of a run that left its event `j`. */
  ghost predicate LeftBy(first: Log, steps: seq<Step>, j: nat, c: nat) {
    && c < |steps| && j < |Run(Begin(first), steps).history|
    && Run(Begin(first), steps[..c]).history == Run(Begin(first), steps).history[..j]
    && Run(Begin(first), steps[..c + 1]).history == Run(Begin(first), steps).history[..j + 1]
  }

  lemma {:induction false} AcceptedAt(first: Log, steps: seq<Step>, j: nat) returns (c: nat)
    requires j < |Run(Begin(first), steps).history|
    ensures LeftBy(first, steps, j, c)
    decreases |steps|
  {
    hide Apply;
    var n := |steps| - 1;
    var most := steps[..n];
    var h, t := Run(Begin(first), most).history, Run(Begin(first), steps).history;
    StepHistory(Run(Begin(first), most), steps[n]);
    if j < |h| {
      c := AcceptedAt(first, most, j);
      assert most[..c] == steps[..c] && most[..c + 1] == steps[..c + 1];
      assert t[..j] == h[..j] && t[..j + 1] == h[..j + 1];
    } else {
      c := n;
      assert steps[..n + 1] == steps && t[..j + 1] == t;
    }
  }

  /**
   * The step that accepts an update finds the message it lands on last in the log
   * exactly when no insert was accepted between the update's read and that step.
   */
  lemma UpdateLandsOnTheLastIff(first: Log, steps: seq<Step>, j: nat) returns (c: nat)
    requires Ordered(first) && j < |Run(Begin(first), steps).history|
    requires Run(Begin(first), steps).history[j].Updated?
    ensures LeftBy(first, steps, j, c)
    ensures var h := Run(Begin(first), steps).history; var e := h[j];
            && e.since <= j
            && (e.at == |Run(Begin(first), steps[..c]).log| - 1 <==> forall k :: e.since <= k < j ==> h[k].Updated?)
  {
    hide Run, Inserts;
    c := AcceptedAt(first, steps, j);
    LogGrowsByInserts(first, steps[..c]);
    PlacesRun(first, steps);
    var h := Run(Begin(first), steps).history;
    assert UpdateFromEnd(first, h, j);
    assert h[..j][..h[j].since] == h[..h[j].since];
    NoInsertsIff(h[..j], h[j].since);
  }

  /** An update that follows the insert of another message. */
  ghost predicate LandedBehind(first: Log, t: State) {
    && |t.log| == |first| + 1 && |t.history| == 2
    && t.history[0].Inserted? && t.history[1].Updated? && t.history[1].at == |first| - 1
  }

  /** Both writes read the log before either commits. */
  function Behind(first: Log, w: Write, id: string, more: seq<Part>): State
    requires first != [] && first[|first| - 1].body.Readable? && ApplyWrite(first[|first| - 1].body.parts, w).Some?
  {
    var last := first[|first| - 1];
    State(first,
          [Op(last.bind, last.messageId, "user", w, 0, Updating(0, last, ApplyWrite(last.body.parts, w).value, 0)),
           Op(last.bind, id, "user", Append(more), 0, Inserting(Appended([], more)))], [])
  }

  lemma BothRead(first: Log, w: Write, id: string, more: seq<Part>)
    requires first != [] && first[|first| - 1].body.Readable? && ApplyWrite(first[|first| - 1].body.parts, w).Some?
    requires IndexOfId(first, id) < 0
    ensures var last := first[|first| - 1];
            Apply(Apply(Apply(Apply(Begin(first), Start(last.bind, last.messageId, "user", w)),
                              Start(last.bind, id, "user", Append(more))), ReadLatest(0)), ReadLatest(1)) ==
            Behind(first, w, id, more)
  {
    hide ApplyWrite, Appended;
    var last := first[|first| - 1];
    var x := Op(last.bind, last.messageId, "user", w, 0, Reading(0));
    var y := Op(last.bind, id, "user", Append(more), 0, Reading(0));
    var s2 := Apply(Apply(Begin(first), Start(last.bind, last.messageId, "user", w)), Start(last.bind, id, "user", Append(more)));
    assert s2 == State(first, [x, y], []);
    var s3 := Apply(s2, ReadLatest(0));
    assert s3 == State(first, [Behind(first, w, id, more).ops[0], y], []);
  }

  lemma ThenCommit(first: Log, w: Write, id: string, more: seq<Part>)
    requires Ordered(first)
    requires first != [] && first[|first| - 1].body.Readable? && ApplyWrite(first[|first| - 1].body.parts, w).Some?
    requires IndexOfId(first, id) < 0
    ensures LandedBehind(first, Apply(Apply(Behind(first, w, id, more), Commit(1)), Commit(0)))
  {
    hide ApplyWrite, Appended;
    var s := Behind(first, w, id, more);
    var u := Apply(s, Commit(1));
    assert u.log[|first| - 1] == first[|first| - 1] && u.ops[0] == s.ops[0] && |u.history| == 1;
    assert Ordered(u.log);
    PairFound(u.log, |first| - 1);
  }

  /**
   * A run in which an update read as the latest lands on a message that is no longer
   * the last, from any log whose last message the write would change.
   */
  lemma UpdateCanLandBehind(first: Log, w: Write, id: string, more: seq<Part>) returns (steps: seq<Step>)
    requires Ordered(first) && first != [] && first[|first| - 1].body.Readable?
    requires ApplyWrite(first[|first| - 1].body.parts, w).Some? && IndexOfId(first, id) < 0
    ensures LandedBehind(first, Run(Begin(first), steps))
  {
    hide Apply, ApplyWrite, Appended, LandedBehind;
    var last := first[|first| - 1];
    var early := [Start(last.bind, last.messageId, "user", w), Start(last.bind, id, "user", Append(more)),
                  ReadLatest(0), ReadLatest(1)];
    RunFour(Begin(first), early[0], early[1], early[2], early[3]);
    BothRead(first, w, id, more);
    ThenCommit(first, w, id, more);
    var s := Run(Begin(first), early);
    RunOne(Begin(first), early, Commit(1));
    RunOne(Begin(first), early + [Commit(1)], Commit(0));
    steps := early + [Commit(1)] + [Commit(0)];
  }

  lemma RunOne(s: State, steps: seq<Step>, step: Step)
    ensures Run(s, steps + [step]) == Apply(Run(s, steps), step)
  {
    assert (steps + [step])[..|steps|] == steps;
  }
}
