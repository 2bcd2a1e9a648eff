/**
 * What a message write answers, over whole runs
 * (packages/assistant-kit/src/create-kit.ts): by the log as its last read found it,
 * and by the log it committed to.
 */
module MessageAnswers {
  import opened Messages
  import opened MessageLog

  /** The state after the first `n` steps. */
  function Upto(first: Log, steps: seq<Step>, n: nat): State
    requires n <= |steps|
  {
    Run(Begin(first), steps[..n])
  }

  lemma UptoPrefix(first: Log, steps: seq<Step>, n: nat, m: nat)
    requires m <= n <= |steps|
    ensures Upto(first, steps[..n], m) == Upto(first, steps, m)
  {
    hide Run;
    assert steps[..n][..m] == steps[..m];
  }

  lemma UptoNext(first: Log, steps: seq<Step>, n: nat)
    requires n < |steps|
    ensures Upto(first, steps, n + 1) == Apply(Upto(first, steps, n), steps[n])
  {
    hide Apply;
    assert steps[..n + 1][..n] == steps[..n];
  }

  lemma UptoAll(first: Log, steps: seq<Step>)
    ensures Upto(first, steps, |steps|) == Run(Begin(first), steps)
  {
    hide Run;
    assert steps[..|steps|] == steps;
  }

  /** The last step that moved a write: since then it is as it is in the end. */
  ghost predicate LastMovedAt(first: Log, steps: seq<Step>, i: nat, n: nat)
    requires i < |Run(Begin(first), steps).ops|
  {
    var op := Run(Begin(first), steps).ops[i];
    && n < |steps|
    && (forall m :: n < m <= |steps| ==> i < |Upto(first, steps, m).ops| && Upto(first, steps, m).ops[i] == op)
    && (i < |Upto(first, steps, n).ops| ==> Upto(first, steps, n).ops[i] != op)
  }

  lemma {:induction false} LastMove(first: Log, steps: seq<Step>, i: nat) returns (n: nat)
    requires i < |Run(Begin(first), steps).ops|
    ensures LastMovedAt(first, steps, i, n)
    decreases |steps|
  {
    hide Apply;
    var last := |steps| - 1;
    var most := steps[..last];
    var u, t := Run(Begin(first), most), Run(Begin(first), steps);
    UptoAll(first, steps);
    UptoAll(first, most);
    UptoPrefix(first, steps, last, last);
    if i < |u.ops| && u.ops[i] == t.ops[i] {
      n := LastMove(first, most, i);
      UptoPrefix(first, steps, last, n);
      forall m | n < m <= |steps| ensures i < |Upto(first, steps, m).ops| && Upto(first, steps, m).ops[i] == t.ops[i] {
        if m < |steps| {
          UptoPrefix(first, steps, last, m);
        }
      }
    } else {
      n := last;
    }
  }

  // ---------------------------------------------------------- one step of a write

  /** How a write got into the phase it is in. */
  ghost predicate CameBy(u: State, step: Step, i: nat, op: Op) {
    var there := i < |u.ops|;
    && (there ==> u.ops[i].(phase := op.phase) == op)
    && match op.phase
       case Reading(_) => there ==> (step == Commit(i) && u.ops[i].phase.Updating?)
       case Finished(result) =>
         && there
         && if u.ops[i].phase.Reading? then step == ReadLatest(i)
                                            && DecideOn(u.ops[i], u.ops[i].phase.attempt, Latest(u.log), |u.history|) == op.phase
            else step == Commit(i) && (u.ops[i].phase.Updating? || u.ops[i].phase.Inserting?)
       case _ =>
         && there && step == ReadLatest(i) && u.ops[i].phase.Reading?
         && DecideOn(u.ops[i], u.ops[i].phase.attempt, Latest(u.log), |u.history|) == op.phase
  }

  lemma Moved(u: State, step: Step, i: nat)
    requires i < |Apply(u, step).ops| && (i < |u.ops| ==> u.ops[i] != Apply(u, step).ops[i])
    ensures CameBy(u, step, i, Apply(u, step).ops[i])
  {
    hide DecideOn, UpdateAnswer, UpdatedLog, InsertAnswer, InsertedLog;
    if i < |u.ops| {
      DecisionsMove(u, i);
    }
  }

  /** A read never leaves a write reading. */
  lemma DecisionsMove(u: State, i: nat)
    requires i < |u.ops|
    ensures forall attempt, latest, since :: !DecideOn(u.ops[i], attempt, latest, since).Reading?
  {
  }

  lemma LastMoveCame(first: Log, steps: seq<Step>, i: nat) returns (n: nat)
    requires i < |Run(Begin(first), steps).ops|
    ensures LastMovedAt(first, steps, i, n)
    ensures CameBy(Upto(first, steps, n), steps[n], i, Run(Begin(first), steps).ops[i])
  {
    hide Run, Apply, CameBy;
    n := LastMove(first, steps, i);
    UptoNext(first, steps, n);
    Moved(Upto(first, steps, n), steps[n], i);
  }

  // ------------------------------------------------------ what is answered, and when

  /** A write that changes nothing: texts already held only, or the end of a text that is not streaming. */
  ghost predicate ChangesNothing(parts: seq<Part>, w: Write) {
    match w
    case Append(more) => forall p :: p in more ==> p.Text? && p in parts
    case EndText(_) => forall p :: p in parts ==> !IsStreaming(p)
  }

  /**
   * What a write rests on: itself, the log at its last read and the attempt that was,
   * and the log before and after the step that answered.
   */
  datatype Grounds = Grounds(
    bind: string, messageId: string, role: string, write: Write, seen: Log, attempt: nat, before: Log, after: Log)

  function GroundsOf(op: Op, seen: Log, attempt: nat, before: Log, after: Log): Grounds {
    Grounds(op.bind, op.messageId, op.role, op.write, seen, attempt, before, after)
  }

  /** The message read, as it is in the log by then, if it has not changed. */
  ghost predicate StillThere(g: Grounds, last: Stored, at: nat) {
    at < |g.before| && g.before[at] == last
  }

  ghost predicate ChangedSince(g: Grounds, last: Stored, at: nat) {
    at < |g.before| && g.before[at].seqNo == last.seqNo && g.before[at].messageId == last.messageId
    && g.before[at].revision != last.revision
  }

  /** A write of the last message: the result is stored over what was read, or the race is lost for good. */
  ghost predicate UpdateTold(g: Grounds, last: Stored, result: Result) {
    match last.body
    case Garbled(_) => result == Unreadable && g.after == g.before
    case Readable(role, parts) =>
      if ChangesNothing(parts, g.write) then result == Unchanged && g.after == g.before
      else
        && (result == Written || result == Conflict)
        && exists at: nat ::
             if result == Written then
               && StillThere(g, last, at) && ApplyWrite(parts, g.write).Some?
               && g.after == g.before[at := last.(body := Readable(role, ApplyWrite(parts, g.write).value),
                                                  revision := last.revision + 1)]
             else ChangedSince(g, last, at) && g.attempt == 3 && g.after == g.before
  }

  /** A new message at the end, unless the log holds its id by then. */
  ghost predicate InsertTold(g: Grounds, result: Result)
    requires g.write.Append?
  {
    if exists k :: 0 <= k < |g.before| && g.before[k].messageId == g.messageId then result == Refused && g.after == g.before
    else
      && result == Written && |g.after| == |g.before| + 1 && g.after[..|g.before|] == g.before
      && var m := g.after[|g.before|];
      && m.messageId == g.messageId && m.bind == g.bind && m.revision == 1
      && m.body == Readable(g.role, Settled(g.write.parts))
      && forall k :: 0 <= k < |g.before| ==> g.before[k].seqNo < m.seqNo
  }

  ghost predicate Told(g: Grounds, result: Result) {
    if g.seen != [] && g.seen[|g.seen| - 1].bind != g.bind then result == WrongOwner && g.after == g.before
    else if g.seen != [] && g.seen[|g.seen| - 1].messageId == g.messageId then UpdateTold(g, g.seen[|g.seen| - 1], result)
    else if g.write.EndText? then result == Unchanged && g.after == g.before
    else InsertTold(g, result)
  }

  // ------------------------------------------------------------------ over a run

  lemma NothingKept(current: seq<Part>, more: seq<Part>)
    ensures NotHeld(current, more) == [] <==> forall p :: p in more ==> p.Text? && p in current
  {
    var kept := NotHeld(current, more);
    if kept != [] {
      assert kept[0] in kept;
    }
  }

  lemma NothingChanged(parts: seq<Part>, w: Write)
    ensures ApplyWrite(parts, w).None? <==> ChangesNothing(parts, w)
  {
    if w.Append? {
      NothingKept(parts, w.parts);
    }
  }

  /** A write that answers as soon as it has read. */
  lemma ReadAnswers(u: State, i: nat, result: Result)
    requires i < |u.ops| && u.ops[i].phase.Reading?
    requires DecideOn(u.ops[i], u.ops[i].phase.attempt, Latest(u.log), |u.history|) == Finished(result)
    ensures Told(GroundsOf(u.ops[i], u.log, u.ops[i].phase.attempt, u.log, u.log), result)
  {
    hide ApplyWrite, ChangesNothing;
    if u.log != [] && u.log[|u.log| - 1].body.Readable? {
      NothingChanged(u.log[|u.log| - 1].body.parts, u.ops[i].write);
    }
  }

  lemma UpdateAnswers(first: Log, u: State, i: nat, seen: Log, attempt: nat, result: Result)
    requires Inv(first, u) && i < |u.ops| && u.ops[i].phase.Updating? && u.ops[i].phase.attempt == attempt
    requires seen != [] && seen[|seen| - 1] == u.ops[i].phase.seen
    requires i < |Apply(u, Commit(i)).ops| && Apply(u, Commit(i)).ops[i].phase == Finished(result)
    ensures Told(GroundsOf(u.ops[i], seen, attempt, u.log, Apply(u, Commit(i)).log), result)
  {
    hide ApplyWrite, ChangesNothing, LogOk, HistoryOk, Updates;
    assert OpOk(u, i);
    var ph := u.ops[i].phase;
    var at := IndexOfPair(u.log, ph.seen.seqNo, ph.seen.messageId);
    var g := GroundsOf(u.ops[i], seen, attempt, u.log, Apply(u, Commit(i)).log);
    NothingChanged(ph.seen.body.parts, u.ops[i].write);
    if result == Written {
      assert StillThere(g, ph.seen, at);
    } else {
      assert ChangedSince(g, ph.seen, at);
    }
  }

  lemma InsertAnswers(first: Log, u: State, i: nat, seen: Log, attempt: nat, result: Result)
    requires Inv(first, u) && i < |u.ops| && u.ops[i].phase.Inserting?
    requires seen == [] || (seen[|seen| - 1].bind == u.ops[i].bind && seen[|seen| - 1].messageId != u.ops[i].messageId)
    requires i < |Apply(u, Commit(i)).ops| && Apply(u, Commit(i)).ops[i].phase == Finished(result)
    ensures Told(GroundsOf(u.ops[i], seen, attempt, u.log, Apply(u, Commit(i)).log), result)
  {
    hide Updates, HistoryOk, Replayed;
    assert OpOk(u, i);
    AppendedIsSettled(u.ops[i].write.parts);
  }

  /** The last read of a write, and the step that answered it. */
  ghost predicate IsLastAttempt(first: Log, steps: seq<Step>, i: nat, read: nat, end: nat) {
    && read <= end < |steps| && steps[read] == ReadLatest(i) && (end > read ==> steps[end] == Commit(i))
    && i < |Upto(first, steps, read).ops| && Upto(first, steps, read).ops[i].phase.Reading?
    && forall m :: read < m <= |steps| ==>
         i < |Upto(first, steps, m).ops| && !Upto(first, steps, m).ops[i].phase.Reading?
  }

  /**
   * Every write of every run is told what the log at its last read and the log it
   * committed to make of it: another's conversation by the last message's owner,
   * unreadable by its own message's bytes, unchanged by a write that changes nothing or
   * ends the text of a message not there, conflict by a change at its fourth attempt,
   * refused by an id used meanwhile; else its result is what the log holds.
   */
  lemma AnswersAreTold(first: Log, steps: seq<Step>, i: nat) returns (read: nat, end: nat)
    requires Ordered(first) && i < |Run(Begin(first), steps).ops| && Run(Begin(first), steps).ops[i].phase.Finished?
    ensures IsLastAttempt(first, steps, i, read, end)
    ensures var op, u := Run(Begin(first), steps).ops[i], Upto(first, steps, read);
            Told(GroundsOf(op, u.log, u.ops[i].phase.attempt, Upto(first, steps, end).log, Upto(first, steps, end + 1).log),
                 op.phase.result)
  {
    hide Run, Apply, Told, DecideOn;
    var op := Run(Begin(first), steps).ops[i];
    end := LastMoveCame(first, steps, i);
    var u := Upto(first, steps, end);
    UptoNext(first, steps, end);
    if u.ops[i].phase.Reading? {
      read := end;
      ReadKeepsLog(u, i);
      ReadAnswers(u, i, op.phase.result);
    } else {
      read := LastMoveCame(first, steps[..end], i);
      UptoPrefix(first, steps, end, read);
      var v := Upto(first, steps, read);
      RunKeeps(first, steps[..end]);
      Decisions(v, i, u.ops[i]);
      if u.ops[i].phase.Updating? {
        UpdateAnswers(first, u, i, v.log, v.ops[i].phase.attempt, op.phase.result);
      } else {
        InsertAnswers(first, u, i, v.log, v.ops[i].phase.attempt, op.phase.result);
      }
    }
    forall m | read < m <= |steps|
      ensures i < |Upto(first, steps, m).ops| && !Upto(first, steps, m).ops[i].phase.Reading?
    {
      if m <= end {
        UptoPrefix(first, steps, end, m);
      }
    }
  }

  lemma ReadKeepsLog(u: State, i: nat)
    ensures Apply(u, ReadLatest(i)).log == u.log
  {
  }

  /** What a write that did not answer at once decided on. */
  lemma Decisions(v: State, i: nat, op: Op)
    requires i < |v.ops| && v.ops[i].phase.Reading? && v.ops[i].(phase := op.phase) == op
    requires DecideOn(v.ops[i], v.ops[i].phase.attempt, Latest(v.log), |v.history|) == op.phase
    ensures op.phase.Updating? ==> v.log != [] && v.log[|v.log| - 1] == op.phase.seen && op.phase.attempt == v.ops[i].phase.attempt
    ensures op.phase.Inserting? ==>
              v.log == [] || (v.log[|v.log| - 1].bind == op.bind && v.log[|v.log| - 1].messageId != op.messageId)
  {
  }

  /** An update of a message the log does not hold would be refused; `AnswersAreTold` shows that no run comes to that. */
  lemma MissingIsRefused(s: State, i: nat)
    requires i < |s.ops| && s.ops[i].phase.Updating?
    requires var seen := s.ops[i].phase.seen;
             forall k :: 0 <= k < |s.log| ==> s.log[k].seqNo != seen.seqNo || s.log[k].messageId != seen.messageId
    ensures var t := Apply(s, Commit(i)); t.ops[i].phase == Finished(Refused) && t.log == s.log
  {
    hide UpdatedLog, InsertedLog, Appended, Updates;
  }

  /** A write that runs alone has answered once it read and committed, and never with a lost race. */
  lemma LoneWriteEnds(first: Log, s: State, i: nat)
    requires Inv(first, s) && i < |s.ops| && s.ops[i].phase.Reading?
    ensures var t := Apply(Apply(s, ReadLatest(i)), Commit(i));
            i < |t.ops| && t.ops[i].phase.Finished? && t.ops[i].phase.result != Conflict
  {
    hide ApplyWrite, Appended, HistoryOk, Updates;
    var u := Apply(s, ReadLatest(i));
    if u.ops[i].phase.Updating? {
      assert Ordered(s.log);
      PairFound(s.log, |s.log| - 1);
    }
  }
}
