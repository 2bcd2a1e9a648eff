/**
 * How an open and an abandon end when they run alone, and how they end when others
 * write between their reads and their writes (packages/assistant-kit/src/create-kit.ts).
 */
module PauseRaces {
  import opened Wrappers
  import opened PauseStore
  import opened PauseProtocol
  import opened PauseTheorems

  function KeyOf(call: Call): Key {
    PauseKey(Conversation(call))
  }

  // ---------------------------------------------------------------- an open alone

  /** The steps of one operation with nothing between them, enough for any open. */
  function Alone(i: nat): seq<Step> {
    [Read(i), Decide(i), Put(i), Read(i)] + [Decide(i), Put(i), Read(i), Decide(i)]
  }

  /** What an open finds in its slot. */
  datatype Found = Vacant | Displaceable(record: Record) | Taken(record: Record) | Garbled

  function FoundBy(s: State, key: Key): Found {
    if key !in s.entries then Vacant
    else if !s.entries[key].Encoded? then Garbled
    else if HoldsTheSlot(s.entries[key].record, s.now) then Taken(s.entries[key].record)
    else Displaceable(s.entries[key].record)
  }

  /** A finished operation does nothing more. */
  lemma FinishedRests(reg: Registry, s: State, i: nat)
    requires i < |s.ops| && s.ops[i].phase.Finished?
    ensures Apply(reg, s, Read(i)) == Apply(reg, s, Decide(i)) == Apply(reg, s, Put(i)) == s
  {
  }

  lemma FirstAttemptEnds(reg: Registry, s: State, i: nat)
    requires i < |s.ops| && s.ops[i].call.OpenCall? && s.ops[i].phase == FirstPhase(s.ops[i].call)
    requires !FoundBy(s, KeyOf(s.ops[i].call)).Garbled?
    ensures var t := Apply(reg, Apply(reg, Apply(reg, s, Read(i)), Decide(i)), Put(i));
            var found := FoundBy(s, KeyOf(s.ops[i].call));
            && i < |t.ops|
            && t.ops[i].phase == Finished(if found.Taken? then AlreadyOpen(found.record) else OpenedResult(s.ops[i].call.record))
            && t.entries == if found.Taken? then s.entries else s.entries[KeyOf(s.ops[i].call) := Encoded(s.ops[i].call.record)]
  {
  }

  /**
   * An open that runs alone opens exactly when the slot is free or holds a record
   * that is claimed or expired, answers with the record there exactly when one holds
   * the slot, and falls through both attempts exactly over bytes it cannot read.
   */
  lemma OpenAloneEnds(reg: Registry, s: State, i: nat)
    requires i < |s.ops| && s.ops[i].call.OpenCall? && s.ops[i].phase == FirstPhase(s.ops[i].call)
    ensures var t := Run(reg, s, Alone(i)); var record := s.ops[i].call.record; var found := FoundBy(s, KeyOf(s.ops[i].call));
            && i < |t.ops|
            && t.ops[i].phase == Finished(match found
                                          case Taken(r) => AlreadyOpen(r)
                                          case Garbled => AlreadyOpen(record)
                                          case _ => OpenedResult(record))
            && (t.ops[i].phase == Finished(OpenedResult(record)) <==> found.Vacant? || found.Displaceable?)
            && t.entries == if found.Vacant? || found.Displaceable? then s.entries[KeyOf(s.ops[i].call) := Encoded(record)]
                            else s.entries
    ensures Run(reg, s, Alone(i)[..7]).ops[i].phase.LastDeciding? <==> FoundBy(s, KeyOf(s.ops[i].call)).Garbled?
  {
    hide Apply, Run;
    var first, second := [Read(i), Decide(i), Put(i), Read(i)], [Decide(i), Put(i), Read(i), Decide(i)];
    RunJoins(reg, s, first, second);
    RunFour(reg, s, Read(i), Decide(i), Put(i), Read(i));
    var half := Run(reg, s, first);
    RunFour(reg, half, Decide(i), Put(i), Read(i), Decide(i));
    AllButLast(reg, s, i);
    if FoundBy(s, KeyOf(s.ops[i].call)).Garbled? {
      GarbledEnds(reg, s, i);
    } else {
      FirstAttemptEnds(reg, s, i);
      var t := Apply(reg, Apply(reg, Apply(reg, s, Read(i)), Decide(i)), Put(i));
      FinishedRests(reg, t, i);
    }
  }

  lemma AllButLast(reg: Registry, s: State, i: nat)
    ensures Run(reg, s, Alone(i)[..7]) ==
            Apply(reg, Apply(reg, Apply(reg, Run(reg, s, [Read(i), Decide(i), Put(i), Read(i)]), Decide(i)), Put(i)), Read(i))
  {
    hide Apply;
    var first, three := [Read(i), Decide(i), Put(i), Read(i)], [Decide(i), Put(i), Read(i)];
    assert Alone(i)[..7] == first + three;
    RunJoins(reg, s, first, three);
    var u := Run(reg, s, first);
    assert three[..2] == [Decide(i), Put(i)] && [Decide(i), Put(i)][..1] == [Decide(i)] && [Decide(i)][..0] == [];
    assert Run(reg, u, [Decide(i)]) == Apply(reg, u, Decide(i));
    assert Run(reg, u, [Decide(i), Put(i)]) == Apply(reg, Run(reg, u, [Decide(i)]), Put(i));
  }

  /** Over unreadable bytes both attempts are refused, and the last read finds them still there. */
  lemma GarbledEnds(reg: Registry, s: State, i: nat)
    requires i < |s.ops| && s.ops[i].call.OpenCall? && s.ops[i].phase == FirstPhase(s.ops[i].call)
    requires FoundBy(s, KeyOf(s.ops[i].call)).Garbled?
    ensures var u := Apply(reg, Apply(reg, Apply(reg, Apply(reg, s, Read(i)), Decide(i)), Put(i)), Read(i));
            var v := Apply(reg, Apply(reg, Apply(reg, u, Decide(i)), Put(i)), Read(i));
            && i < |v.ops| && v.ops[i].phase.LastDeciding?
            && i < |Apply(reg, v, Decide(i)).ops|
            && Apply(reg, v, Decide(i)).ops[i].phase == Finished(AlreadyOpen(s.ops[i].call.record))
            && Apply(reg, v, Decide(i)).entries == s.entries
  {
    hide DecideOn, Run;
    var raw := Some(s.entries[KeyOf(s.ops[i].call)]);
    var a := SetPhase(s, i, Deciding(1, raw));
    RefusedOnce(reg, a, i);
    SetTwice(s, i, Deciding(1, raw), Reading(0));
    SetTwice(s, i, Reading(0), Deciding(0, raw));
    var half := SetPhase(s, i, Deciding(0, raw));
    RefusedOnce(reg, half, i);
    SetTwice(s, i, Deciding(0, raw), LastReading);
    SetTwice(s, i, LastReading, LastDeciding(raw));
  }

  // ------------------------------------------------------------- an abandon alone

  /** What an abandon makes of what it reads. */
  lemma AbandonDecides(reg: Registry, s: State, i: nat)
    requires i < |s.ops| && s.ops[i].call.AbandonCall? && s.ops[i].phase == FirstPhase(s.ops[i].call)
    ensures var call := s.ops[i].call; var last := Scoped(Get(s.entries, KeyOf(call)), call.bind);
            var t := Apply(reg, Apply(reg, s, Read(i)), Decide(i));
            && t.entries == s.entries && i < |t.ops|
            && t.ops[i] == Op(call,
                              if last.None? || last.value.interactionId != call.id || last.value.status !in {Open, Claimed}
                              then Finished(Gone)
                              else if last.value.status == Claimed then Finished(AlreadyClaimed)
                              else Putting(1, last, CancelledFrom(last.value, s.now), "", s.now))
  {
  }

  /** An abandon that runs alone tells the truth: claimed exactly over a claimed record of its own. */
  lemma AbandonAloneEnds(reg: Registry, s: State, i: nat)
    requires i < |s.ops| && s.ops[i].call.AbandonCall? && s.ops[i].phase == FirstPhase(s.ops[i].call)
    ensures var call := s.ops[i].call; var last := Scoped(Get(s.entries, KeyOf(call)), call.bind);
            var t := Run(reg, s, [Read(i), Decide(i), Put(i), Delete(i)]);
            var mine := last.Some? && last.value.interactionId == call.id;
            && i < |t.ops|
            && (t.ops[i].phase == Finished(AlreadyClaimed) <==> mine && last.value.status == Claimed)
            && (t.ops[i].phase == Finished(CancelledResult) <==> mine && last.value.status == Open)
            && (t.ops[i].phase == Finished(CancelledResult) ==> t.entries == s.entries - {KeyOf(call)})
  {
    hide Run;
    RunFour(reg, s, Read(i), Decide(i), Put(i), Delete(i));
    AbandonDecides(reg, s, i);
  }

  // -------------------------------------------------------- writes in between

  /** The four steps of another caller's operation with nothing between them. */
  function Lone(s: State, call: Call): seq<Step> {
    var n := |s.ops|;
    [Start(call), Read(n), Decide(n), Put(n)]
  }

  /** Everything an operation that reads this key could see or carry is as it was. */
  ghost predicate Around(s: State, t: State) {
    t.now == s.now && |s.ops| <= |t.ops| && forall j :: 0 <= j < |s.ops| ==> t.ops[j] == s.ops[j]
  }

  /** A claim, revise or release by itself writes what it decides. */
  lemma LoneWrites(reg: Registry, s: State, call: Call, expected: Record, next: Record, value: string)
    requires call.ClaimCall? || call.ReviseCall? || call.ReleaseCall?
    requires Holds(s.entries, KeyOf(call), Encoded(expected))
    requires DecideOn(reg, call, Some(Encoded(expected)), s.now) == Propose(Some(expected), next, value)
    ensures var t := Run(reg, s, Lone(s, call));
            t.entries == s.entries[KeyOf(call) := Encoded(next)] && Around(s, t)
  {
    hide DecideOn, Run, EventOf, AfterWin, AfterLoss;
    var n := |s.ops|;
    RunFour(reg, s, Start(call), Read(n), Decide(n), Put(n));
    var s1 := Apply(reg, s, Start(call));
    var s2 := Apply(reg, s1, Read(n));
    assert s2.ops[n] == Op(call, Deciding(0, Some(Encoded(expected))));
    var s3 := Apply(reg, s2, Decide(n));
    assert s3.ops[n] == Op(call, Putting(0, Some(expected), next, value, s.now));
  }

  /** An operation about to read, whose write another's lone write forestalls. */
  lemma LostRound(reg: Registry, s: State, i: nat, expected: Record, other: Call, next: Record, value: string)
    returns (steps: seq<Step>)
    requires i < |s.ops| && (s.ops[i].call.OpenCall? || s.ops[i].call.AbandonCall?) && s.ops[i].phase.Reading?
    requires Holds(s.entries, KeyOf(s.ops[i].call), Encoded(expected)) && KeyOf(other) == KeyOf(s.ops[i].call)
    requires var d := DecideOn(reg, s.ops[i].call, Some(Encoded(expected)), s.now); d.Propose? && d.expected == Some(expected)
    requires other.ClaimCall? || other.ReviseCall? || other.ReleaseCall?
    requires DecideOn(reg, other, Some(Encoded(expected)), s.now) == Propose(Some(expected), next, value)
    requires next != expected
    ensures var t := Run(reg, s, steps);
            && t.now == s.now && |s.ops| <= |t.ops|
            && Holds(t.entries, KeyOf(s.ops[i].call), Encoded(next))
            && t.ops[i] == Op(s.ops[i].call, AfterLoss(s.ops[i].call, s.ops[i].phase.left, Some(expected)))
  {
    hide DecideOn, Run, EventOf, AfterWin, AfterLoss;
    var left := s.ops[i].phase.left;
    var s1 := Apply(reg, Apply(reg, s, Read(i)), Decide(i));
    assert s1.entries == s.entries && s1.now == s.now && |s1.ops| == |s.ops|;
    assert s1.ops[i].phase.Putting? && s1.ops[i].phase.expected == Some(expected) && s1.ops[i].phase.left == left;
    LoneWrites(reg, s1, other, expected, next, value);
    var lone := Lone(s1, other);
    var s2 := Run(reg, s1, lone);
    RunTwo(reg, s, Read(i), Decide(i));
    RunJoins(reg, s, [Read(i), Decide(i)], lone);
    RunLast(reg, s, [Read(i), Decide(i)] + lone, Put(i));
    steps := [Read(i), Decide(i)] + lone + [Put(i)];
  }

  lemma RunTwo(reg: Registry, s: State, a: Step, b: Step)
    ensures Run(reg, s, [a, b]) == Apply(reg, Apply(reg, s, a), b)
  {
    hide Apply;
    assert [a, b][..1] == [a] && [a][..0] == [];
    assert Run(reg, s, [a]) == Apply(reg, s, a);
  }

  lemma RunLast(reg: Registry, s: State, steps: seq<Step>, step: Step)
    ensures Run(reg, s, steps + [step]) == Apply(reg, Run(reg, s, steps), step)
  {
    assert (steps + [step])[..|steps|] == steps;
  }

  /** The last read and the last answer. */
  lemma LastWords(reg: Registry, s: State, i: nat)
    requires i < |s.ops| && s.ops[i].phase.LastReading?
    ensures var t := Run(reg, s, [Read(i), Decide(i)]);
            && i < |t.ops| && t.entries == s.entries
            && t.ops[i].phase == Finished(LastAnswer(s.ops[i].call, Get(s.entries, KeyOf(s.ops[i].call))))
  {
    hide Run;
    RunTwo(reg, s, Read(i), Decide(i));
  }

  // ------------------------------------------------------------- an open forestalled

  function Reopened(r: Record): Record {
    r.(status := Open)
  }

  function ReleaseOf(conversation: string, r: Record): Call {
    ReleaseCall(conversation, r.bind, r.interactionId)
  }

  function ClaimOf(conversation: string, r: Record, answer: string): Call {
    ClaimCall(conversation, r.bind, r.interactionId, r.revision, answer)
  }

  /** A claimed record, released between an open's read and its write. */
  lemma ReleaseForestalls(reg: Registry, s: State, i: nat, r: Record) returns (steps: seq<Step>)
    requires i < |s.ops| && s.ops[i].call.OpenCall? && s.ops[i].phase.Reading?
    requires Holds(s.entries, KeyOf(s.ops[i].call), Encoded(r)) && r.status == Claimed
    ensures var t := Run(reg, s, steps);
            && t.now == s.now && |s.ops| <= |t.ops|
            && Holds(t.entries, KeyOf(s.ops[i].call), Encoded(Reopened(r)))
            && t.ops[i] == Op(s.ops[i].call, AfterLoss(s.ops[i].call, s.ops[i].phase.left, Some(r)))
  {
    var other := ReleaseOf(Conversation(s.ops[i].call), r);
    hide Run;
    steps := LostRound(reg, s, i, r, other, Reopened(r), "");
  }

  /**
   * The branch after both attempts is reached over readable records too: a claimed
   * pause released, claimed and released again between the reads and the writes of an
   * open leaves it there, and it answers with the record that is then open.
   */
  lemma RacedOpenFallsThrough(reg: Registry, s: State, i: nat, r: Record, answer: string) returns (steps: seq<Step>)
    requires i < |s.ops| && s.ops[i].call.OpenCall? && s.ops[i].phase == FirstPhase(s.ops[i].call)
    requires Holds(s.entries, KeyOf(s.ops[i].call), Encoded(r)) && r.status == Claimed && !IsExpired(r, s.now)
    requires Resolve(reg, Reopened(r), answer).ClaimedResult?
    ensures var u, t := Run(reg, s, steps), Run(reg, s, steps + [Read(i), Decide(i)]);
            && i < |u.ops| && u.ops[i].phase == LastReading
            && i < |t.ops| && t.ops[i].phase == Finished(AlreadyOpen(Reopened(r)))
            && Holds(t.entries, KeyOf(s.ops[i].call), Encoded(Reopened(r)))
  {
    hide Run, Apply;
    var key, call := KeyOf(s.ops[i].call), s.ops[i].call;
    var once := ReleaseForestalls(reg, s, i, r);
    var s1 := Run(reg, s, once);
    var claim := ClaimOf(Conversation(call), r, answer);
    ClaimGoesThrough(reg, Reopened(r), claim, s1.now);
    var value := DecideOn(reg, claim, Some(Encoded(Reopened(r))), s1.now).value;
    LoneWrites(reg, s1, claim, Reopened(r), r, value);
    var s2 := Run(reg, s1, Lone(s1, claim));
    RunJoins(reg, s, once, Lone(s1, claim));
    var twice := ReleaseForestalls(reg, s2, i, r);
    RunJoins(reg, s, once + Lone(s1, claim), twice);
    steps := once + Lone(s1, claim) + twice;
    LastWords(reg, Run(reg, s, steps), i);
    RunJoins(reg, s, steps, [Read(i), Decide(i)]);
  }

  lemma ClaimGoesThrough(reg: Registry, r: Record, claim: Call, now: int)
    requires claim.ClaimCall? && r.status == Open && !IsExpired(r, now)
    requires r.bind == claim.bind && r.interactionId == claim.id && r.revision == claim.revision
    requires Resolve(reg, r, claim.answer).ClaimedResult?
    ensures var d := DecideOn(reg, claim, Some(Encoded(r)), now);
            d.Propose? && d == Propose(Some(r), r.(status := Claimed), d.value)
  {
  }

  /** From an empty store: a pause opened and claimed, and a second open about to read. */
  lemma SecondOpenStarts(reg: Registry, claimed: Record) returns (steps: seq<Step>)
    requires AcceptsAll(reg) && claimed == Record("k", "b", 0, 1, "c", Claimed, "x", "p", "s", 10)
    ensures var t := Run(reg, Nothing(), steps);
            && |t.ops| == 3 && t.now == 0 && t.ops[2].call.OpenCall? && t.ops[2].phase == FirstPhase(t.ops[2].call)
            && KeyOf(t.ops[2].call) == PauseKey("c") && Holds(t.entries, PauseKey("c"), Encoded(claimed))
  {
    hide Run;
    var r := claimed.(status := Open);
    var claim := ClaimOf("c", r, "a");
    var second := StartOpen("c", "b", "k", "p", "s", "y");
    assert Resolve(reg, r, "a") == ClaimedResult(claimed, "a");
    ClaimGoesThrough(reg, r, claim, 0);
    OpenAlone(reg, r);
    var s1 := OnePause(r);
    LoneWrites(reg, s1, claim, r, claimed, "a");
    LoneLength(reg, s1, claim);
    RunJoins(reg, Nothing(), Opening(), Lone(s1, claim));
    steps := Opening() + Lone(s1, claim);
    SecondOpens(reg, Run(reg, Nothing(), steps), second);
    RunLast(reg, Nothing(), steps, second);
    steps := steps + [second];
  }

  /** And then raced. */
  lemma RacedOpenHappens(reg: Registry) returns (steps: seq<Step>)
    requires AcceptsAll(reg)
    ensures var u, t := Run(reg, Nothing(), steps), Run(reg, Nothing(), steps + [Read(2), Decide(2)]);
            && 2 < |u.ops| && u.ops[2].call.OpenCall? && u.ops[2].phase == LastReading
            && 2 < |t.ops| && t.ops[2].phase.Finished? && t.ops[2].phase.result.AlreadyOpen?
            && Holds(t.entries, PauseKey("c"), Encoded(t.ops[2].phase.result.current))
  {
    hide Run, Apply, Nothing, KeyOf;
    var claimed := Record("k", "b", 0, 1, "c", Claimed, "x", "p", "s", 10);
    assert Resolve(reg, Reopened(claimed), "a").ClaimedResult?;
    var before := SecondOpenStarts(reg, claimed);
    var s := Run(reg, Nothing(), before);
    var more := RacedOpenFallsThrough(reg, s, 2, claimed, "a");
    OpStands(reg, s, more, 2);
    RunJoins(reg, Nothing(), before, more);
    steps := before + more;
    assert steps + [Read(2), Decide(2)] == before + (more + [Read(2), Decide(2)]);
    RunJoins(reg, Nothing(), before, more + [Read(2), Decide(2)]);
  }

  lemma LoneLength(reg: Registry, s: State, call: Call)
    requires !call.OpenCall?
    ensures |Run(reg, s, Lone(s, call)).ops| == |s.ops| + 1
  {
    hide Run, DecideOn, EventOf, AfterWin, AfterLoss;
    var n := |s.ops|;
    RunFour(reg, s, Start(call), Read(n), Decide(n), Put(n));
  }

  lemma SecondOpens(reg: Registry, s: State, step: Step)
    requires step.StartOpen? && Build(reg, step.conversation, step.bind, step.kind, step.prompt, step.secret,
                                      step.continuation, s.nextId, 1, s.now).BuiltRecord?
    ensures var t := Apply(reg, s, step); var n := |s.ops|;
            && t.entries == s.entries && t.now == s.now && |t.ops| == n + 1
            && t.ops[n].call.OpenCall? && t.ops[n].phase == FirstPhase(t.ops[n].call)
            && t.ops[n].call.record.conversation == step.conversation
  {
  }

  // ---------------------------------------------------------- an abandon forestalled

  /** A revise of a record, and what it makes of it. */
  function RevisedTo(reg: Registry, r: Record, call: Call, now: int): Built
    requires call.ReviseCall?
  {
    Build(reg, call.conversation, call.bind, call.kind, call.prompt, call.secret, call.continuation, call.id,
          r.revision + 1, now)
  }

  /** An open record of this owner and interaction. */
  predicate OpenFor(r: Record, call: Call)
    requires call.AbandonCall?
  {
    r.status == Open && r.bind == call.bind && r.interactionId == call.id
  }

  /** An open record revised between an abandon's read and its write. */
  lemma ReviseForestalls(reg: Registry, s: State, i: nat, r: Record, revise: Call) returns (steps: seq<Step>, next: Record)
    requires i < |s.ops| && s.ops[i].call.AbandonCall? && s.ops[i].phase.Reading?
    requires Holds(s.entries, KeyOf(s.ops[i].call), Encoded(r)) && OpenFor(r, s.ops[i].call)
    requires revise.ReviseCall? && KeyOf(revise) == KeyOf(s.ops[i].call)
    requires revise.bind == r.bind && revise.id == r.interactionId && RevisedTo(reg, r, revise, s.now).BuiltRecord?
    ensures var t := Run(reg, s, steps);
            && t.now == s.now && |s.ops| <= |t.ops| && next == RevisedTo(reg, r, revise, s.now).record
            && Holds(t.entries, KeyOf(s.ops[i].call), Encoded(next)) && OpenFor(next, s.ops[i].call)
            && t.ops[i] == Op(s.ops[i].call, AfterLoss(s.ops[i].call, s.ops[i].phase.left, Some(r)))
  {
    hide Run;
    next := RevisedTo(reg, r, revise, s.now).record;
    steps := LostRound(reg, s, i, r, revise, next, "");
  }

  /**
   * The last answer of an abandon looks at no status: two revises, each between its
   * read and its write, and it says claimed while the pause is open.
   */
  lemma AbandonGuessesClaimed(reg: Registry, s: State, i: nat, r: Record, revise: Call) returns (steps: seq<Step>)
    requires i < |s.ops| && s.ops[i].call.AbandonCall? && s.ops[i].phase == FirstPhase(s.ops[i].call)
    requires Holds(s.entries, KeyOf(s.ops[i].call), Encoded(r)) && OpenFor(r, s.ops[i].call)
    requires revise.ReviseCall? && KeyOf(revise) == KeyOf(s.ops[i].call)
    requires revise.bind == r.bind && revise.id == r.interactionId && RevisedTo(reg, r, revise, s.now).BuiltRecord?
    ensures var t := Run(reg, s, steps); var key := KeyOf(s.ops[i].call);
            && i < |t.ops| && t.ops[i].phase == Finished(AlreadyClaimed)
            && key in t.entries && t.entries[key].Encoded? && OpenFor(t.entries[key].record, s.ops[i].call)
  {
    hide Run, Apply;
    var once, next := ReviseForestalls(reg, s, i, r, revise);
    var s1 := Run(reg, s, once);
    var twice, last := ReviseForestalls(reg, s1, i, next, revise);
    RunJoins(reg, s, once, twice);
    LastWords(reg, Run(reg, s, once + twice), i);
    RunJoins(reg, s, once + twice, [Read(i), Decide(i)]);
    steps := once + twice + [Read(i), Decide(i)];
  }

  /** And so from an empty store: one pause, opened, abandoned and twice revised meanwhile. */
  lemma GuessHappens(reg: Registry) returns (steps: seq<Step>)
    requires AcceptsAll(reg)
    ensures var t := Run(reg, Nothing(), steps);
            && 1 < |t.ops| && t.ops[1].call == AbandonCall("c", "b", 0) && t.ops[1].phase == Finished(AlreadyClaimed)
            && PauseKey("c") in t.entries && t.entries[PauseKey("c")].Encoded?
            && t.entries[PauseKey("c")].record.interactionId == 0 && t.entries[PauseKey("c")].record.status == Open
  {
    var r := Record("k", "b", 0, 1, "c", Open, "x", "p", "s", 10);
    var abandon, revise := AbandonCall("c", "b", 0), ReviseCall("c", "b", 0, "k", "p", "s", "x");
    var opening := Opening();
    OpenAlone(reg, r);
    RunLast(reg, Nothing(), opening, Start(abandon));
    var s := Apply(reg, OnePause(r), Start(abandon));
    assert s.ops[1] == Op(abandon, FirstPhase(abandon)) && s.entries == OnePause(r).entries && s.now == 0;
    assert RevisedTo(reg, r, revise, 0).BuiltRecord?;
    hide Run, Apply;
    var more := AbandonGuessesClaimed(reg, s, 1, r, revise);
    OpStands(reg, s, more, 1);
    RunJoins(reg, Nothing(), opening + [Start(abandon)], more);
    steps := opening + [Start(abandon)] + more;
  }

  /** An operation's call never changes. */
  lemma {:induction false} OpStands(reg: Registry, s: State, steps: seq<Step>, i: nat)
    requires i < |s.ops|
    ensures |s.ops| <= |Run(reg, s, steps).ops| && Run(reg, s, steps).ops[i].call == s.ops[i].call
  {
    hide Apply;
    if steps != [] {
      OpStands(reg, s, steps[..|steps| - 1], i);
      StepOpStands(reg, Run(reg, s, steps[..|steps| - 1]), steps[|steps| - 1], i);
    }
  }

  lemma StepOpStands(reg: Registry, s: State, step: Step, i: nat)
    requires i < |s.ops|
    ensures |s.ops| <= |Apply(reg, s, step).ops| && Apply(reg, s, step).ops[i].call == s.ops[i].call
  {
    hide DecideOn, EventOf, AfterWin, AfterLoss;
  }
}
