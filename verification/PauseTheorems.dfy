/**
 * What the pause protocol promises of every run, whatever interleaves
 * (packages/assistant-kit/src/create-kit.ts, packages/assistant-kit/src/kit.ts).
 */
module PauseTheorems {
  import opened Wrappers
  import opened PauseStore
  import opened PauseProtocol

  // ------------------------------------------------------- runs and their events

  lemma {:induction false} RunJoins(reg: Registry, s: State, a: seq<Step>, b: seq<Step>)
    ensures Run(reg, s, a + b) == Run(reg, Run(reg, s, a), b)
    decreases |b|
  {
    if b == [] {
      assert a + b == a;
    } else {
      assert (a + b)[..|a + b| - 1] == a + b[..|b| - 1];
      RunJoins(reg, s, a, b[..|b| - 1]);
    }
  }

  lemma {:induction false} HistoryOnlyGrows(reg: Registry, s: State, steps: seq<Step>)
    ensures s.history <= Run(reg, s, steps).history
  {
    if steps != [] {
      HistoryOnlyGrows(reg, s, steps[..|steps| - 1]);
    }
  }

  lemma {:induction false} CountMonotone(h: seq<Event>, more: seq<Event>, tag: Tag, id: nat)
    ensures Count(h, tag, id) <= Count(h + more, tag, id)
    decreases |more|
  {
    if more == [] {
      assert h + more == h;
    } else {
      assert (h + more)[..|h + more| - 1] == h + more[..|more| - 1];
      CountMonotone(h, more[..|more| - 1], tag, id);
    }
  }

  /** Claims and releases of one interaction alternate, and it opens at most once. */
  lemma ClaimBalance(reg: Registry, s: State, steps: seq<Step>, id: nat)
    requires Initial(s)
    ensures var h := Run(reg, s, steps).history;
            && 0 <= Count(h, ClaimTag, id) - Count(h, ReleaseTag, id) <= 1
            && Count(h, OpenTag, id) <= 1 && Count(h, CancelTag, id) <= 1
  {
    RunKeeps(reg, s, steps);
    assert Balanced(Run(reg, s, steps).history, id);
  }

  /** A stored pause carries one revision for every accepted revise; it never falls. */
  lemma RevisionNeverDecreases(reg: Registry, s: State, steps: seq<Step>, more: seq<Step>, k: Key, l: Key)
    requires Initial(s)
    requires var a, b := Run(reg, s, steps).entries, Run(reg, s, steps + more).entries;
             && k in a && l in b && a[k].Encoded? && b[l].Encoded?
             && a[k].record.interactionId == b[l].record.interactionId
    ensures var a, b := Run(reg, s, steps), Run(reg, s, steps + more);
            var id := a.entries[k].record.interactionId;
            && a.entries[k].record.revision == 1 + Count(a.history, ReviseTag, id)
            && b.entries[l].record.revision == 1 + Count(b.history, ReviseTag, id)
            && a.entries[k].record.revision <= b.entries[l].record.revision
  {
    RunKeeps(reg, s, steps);
    RunKeeps(reg, s, steps + more);
    RunJoins(reg, s, steps, more);
    var a, b := Run(reg, s, steps), Run(reg, s, steps + more);
    HistoryOnlyGrows(reg, a, more);
    assert b.history == a.history + b.history[|a.history|..];
    CountMonotone(a.history, b.history[|a.history|..], ReviseTag, a.entries[k].record.interactionId);
  }

  /**
   * An accepted claim matched the record in the store at the compare-and-set:
   * its owner, its id, its revision, and an answer its own secret resolves.  The
   * record was open, and unexpired when the claim was decided.
   */
  lemma ClaimsMatchTheStore(reg: Registry, s: State, steps: seq<Step>, e: Event)
    requires Initial(s)
    requires e in Run(reg, s, steps).history && e.Claims?
    ensures e.call.ClaimCall?
    ensures e.before.status == Open && e.before.bind == e.call.bind && e.before.interactionId == e.call.id
    ensures e.before.revision == e.call.revision
    ensures e.decidedAt < e.before.expiresAt && e.decidedAt <= e.at
    ensures reg(e.before.kind).Some?
    ensures var k := reg(e.before.kind).value;
            k.answer(e.call.answer).Some? && k.resolve(k.answer(e.call.answer).value, e.before.secret) == Some(e.value)
  {
    RunKeeps(reg, s, steps);
    assert EventOk(reg, e);
  }

  /** Opening displaces nothing, a claimed record, or one expired by then. */
  lemma OpenDisplacesOnlyTheDead(reg: Registry, s: State, steps: seq<Step>, e: Event)
    requires Initial(s)
    requires e in Run(reg, s, steps).history && e.Opened?
    ensures e.displaced.Some? ==>
              && e.displaced.value.Encoded?
              && (e.displaced.value.record.status == Open || e.displaced.value.record.status == Cancelled ==>
                    e.at >= e.displaced.value.record.expiresAt)
  {
    RunKeeps(reg, s, steps);
    assert EventOk(reg, e);
  }

  /** Once an interaction is cancelled, nothing else of it is ever accepted. */
  lemma NothingAfterCancel(reg: Registry, s: State, steps: seq<Step>, i: nat, j: nat, tag: Tag, id: nat)
    requires Initial(s)
    requires i < j < |Run(reg, s, steps).history|
    requires Tagged(Run(reg, s, steps).history[i], CancelTag, id)
    ensures !Tagged(Run(reg, s, steps).history[j], tag, id)
  {
    RunKeeps(reg, s, steps);
  }

  /** The last delete of an abandon removes the record that abandon wrote, and no other's. */
  lemma AbandonDeletesItsOwn(reg: Registry, s: State, steps: seq<Step>, j: nat)
    requires Initial(s)
    requires j < |Run(reg, s, steps).history| && Run(reg, s, steps).history[j].Deletes?
    ensures var h := Run(reg, s, steps).history;
            exists i, before :: 0 <= i < j && h[i] == Cancels(h[j].op, before, h[j].removed)
              && forall k :: 0 <= k < |h| && k != i ==> !Tagged(h[k], CancelTag, h[j].removed.interactionId)
  {
    RunKeeps(reg, s, steps);
    var h := Run(reg, s, steps).history;
    var i, before :| 0 <= i < j && h[i] == Cancels(h[j].op, before, h[j].removed);
    assert EventOk(reg, h[i]);
    forall k | 0 <= k < |h| && k != i ensures !Tagged(h[k], CancelTag, h[j].removed.interactionId) {
      CancelledOnce(h, i, k, h[j].removed.interactionId);
    }
  }

  lemma CancelledOnce(h: seq<Event>, i: nat, k: nat, id: nat)
    requires CancelIsFinal(h) && i < |h| && k < |h| && i != k
    requires Tagged(h[i], CancelTag, id)
    ensures !Tagged(h[k], CancelTag, id)
  {
  }

  // --------------------------------------------- the results callers are given

  predicate Won(op: Op, id: nat) {
    op.phase.Finished? && op.phase.result.ClaimedResult? && op.phase.result.record.interactionId == id
  }

  function Winners(ops: seq<Op>, id: nat): nat {
    if ops == [] then 0 else Winners(ops[..|ops| - 1], id) + if Won(ops[|ops| - 1], id) then 1 else 0
  }

  lemma {:induction false} WinnersUpdated(ops: seq<Op>, i: nat, op: Op, id: nat)
    requires i < |ops|
    ensures Winners(ops[i := op], id) ==
            Winners(ops, id) - (if Won(ops[i], id) then 1 else 0) + if Won(op, id) then 1 else 0
  {
    var n := |ops| - 1;
    if i < n {
      WinnersUpdated(ops[..n], i, op, id);
      assert ops[i := op][..n] == ops[..n][i := op];
    } else {
      assert ops[i := op][..n] == ops[..n];
    }
  }

  /** A step that moves one operation and writes nothing tells nobody `claimed`. */
  lemma QuietTellsNobody(reg: Registry, s: State, i: nat, id: nat)
    requires i < |s.ops| && !Won(s.ops[i], id)
    ensures !Won(ReadStep(s, i).ops[i], id) && !Won(DecideStep(reg, s, i).ops[i], id)
    ensures Winners(ReadStep(s, i).ops, id) == Winners(s.ops, id) == Winners(DecideStep(reg, s, i).ops, id)
  {
    var r, d := ReadStep(s, i), DecideStep(reg, s, i);
    assert s.ops[i := s.ops[i]] == s.ops;
    assert r.ops == s.ops[i := r.ops[i]] && d.ops == s.ops[i := d.ops[i]];
    WinnersUpdated(s.ops, i, r.ops[i], id);
    WinnersUpdated(s.ops, i, d.ops[i], id);
  }

  /** A caller wins by the event of an accepted claim, and by nothing else. */
  lemma PutWins(reg: Registry, s: State, i: nat, id: nat)
    requires Inv(reg, s) && i < |s.ops| && s.ops[i].phase.Putting?
    ensures var t := PutStep(s, i);
            && (t.history == s.history ==> !Won(t.ops[i], id))
            && (t.history != s.history ==>
                  && t.history == s.history + [t.history[|s.history|]]
                  && (Won(t.ops[i], id) <==> Tagged(t.history[|s.history|], ClaimTag, id)))
  {
    var call, ph := s.ops[i].call, s.ops[i].phase;
    assert OpOk(reg, s, i);
    var raw :| DecideOn(reg, call, raw, ph.decidedAt) == Propose(ph.expected, ph.next, ph.value);
  }

  lemma PutTellsTheWinner(reg: Registry, s: State, i: nat, id: nat)
    requires Inv(reg, s) && i < |s.ops| && s.ops[i].phase.Putting?
    ensures var t := PutStep(s, i);
            Winners(t.ops, id) - Winners(s.ops, id) == Count(t.history, ClaimTag, id) - Count(s.history, ClaimTag, id)
  {
    var t := PutStep(s, i);
    PutWins(reg, s, i, id);
    assert t.ops == s.ops[i := t.ops[i]];
    WinnersUpdated(s.ops, i, t.ops[i], id);
    if t.history != s.history {
      CountPushed(s.history, t.history[|s.history|]);
    }
  }

  /** A step that ends no operation, whatever event it leaves. */
  lemma OthersTellNobody(s: State, e: Event, t: State, id: nat)
    requires t.ops == s.ops || exists op :: t.ops == s.ops + [op] && !Won(op, id)
    requires !Tagged(e, ClaimTag, id)
    requires t.history == s.history || t.history == s.history + [e]
    ensures Winners(t.ops, id) == Winners(s.ops, id)
    ensures Count(t.history, ClaimTag, id) == Count(s.history, ClaimTag, id)
  {
    CountPushed(s.history, e);
    if t.ops != s.ops {
      assert t.ops[..|t.ops| - 1] == s.ops;
    }
  }

  lemma DeleteTellsNobody(s: State, i: nat, id: nat)
    requires i < |s.ops| && s.ops[i].phase.Holding?
    ensures var t := DeleteStep(s, i);
            Winners(t.ops, id) == Winners(s.ops, id) && Count(t.history, ClaimTag, id) == Count(s.history, ClaimTag, id)
  {
    WinnersUpdated(s.ops, i, DeleteStep(s, i).ops[i], id);
    CountPushed(s.history, Deletes(i, s.ops[i].phase.cancelled));
  }

  /** One step gives `claimed` to a caller exactly when it accepts a claim. */
  lemma StepTellsTheWinner(reg: Registry, s: State, step: Step, id: nat)
    requires Inv(reg, s)
    ensures var t := Apply(reg, s, step);
            Winners(t.ops, id) - Winners(s.ops, id) == Count(t.history, ClaimTag, id) - Count(s.history, ClaimTag, id)
  {
    hide Inv, DecideOn, Winners, Count;
    var t := Apply(reg, s, step);
    match step {
      case Read(i) =>
        if i < |s.ops| && !Won(s.ops[i], id) {
          QuietTellsNobody(reg, s, i, id);
        }
      case Decide(i) =>
        if i < |s.ops| && !Won(s.ops[i], id) {
          QuietTellsNobody(reg, s, i, id);
        }
      case Put(i) =>
        if i < |s.ops| && s.ops[i].phase.Putting? {
          PutTellsTheWinner(reg, s, i, id);
        }
      case Delete(i) =>
        if i < |s.ops| && s.ops[i].phase.Holding? {
          DeleteTellsNobody(s, i, id);
        }
      case StartOpen(_, _, _, _, _, _) => OthersTellNobody(s, TurnLapsed(""), t, id);
      case Start(_) => OthersTellNobody(s, TurnLapsed(""), t, id);
      case Tick(_) => OthersTellNobody(s, TurnLapsed(""), t, id);
      case Evict(key) => OthersTellNobody(s, TurnLapsed(key.conversation), t, id);
      case BeginTurn(c) => OthersTellNobody(s, TurnBegan(c, s.nextId), t, id);
      case EndTurn(c, token) => OthersTellNobody(s, TurnEnded(c, token), t, id);
    }
  }

  /** As many callers were told `claimed` as claims were accepted, so one at a time owns the answer. */
  lemma {:induction false} OneWinnerAtATime(reg: Registry, s: State, steps: seq<Step>, id: nat)
    requires Initial(s)
    ensures var t := Run(reg, s, steps);
            && Winners(t.ops, id) == Count(t.history, ClaimTag, id)
            && Winners(t.ops, id) <= Count(t.history, ReleaseTag, id) + 1
  {
    ClaimBalance(reg, s, steps, id);
    if steps != [] {
      OneWinnerAtATime(reg, s, steps[..|steps| - 1], id);
      RunKeeps(reg, s, steps[..|steps| - 1]);
      StepTellsTheWinner(reg, Run(reg, s, steps[..|steps| - 1]), steps[|steps| - 1], id);
    }
  }

  // ------------------------------------------------------------------ turn leases

  /** Who holds the turn of a conversation, read off the events alone. */
  function Holder(h: seq<Event>, conversation: string): Option<nat> {
    if h == [] then None
    else
      var e := h[|h| - 1];
      if e.TurnBegan? && e.conversation == conversation then Some(e.token)
      else if (e.TurnEnded? || e.TurnLapsed?) && e.conversation == conversation then None
      else Holder(h[..|h| - 1], conversation)
  }

  /** No turn before this one began with this token. */
  predicate NewToken(h: seq<Event>, token: nat) {
    forall k :: 0 <= k < |h| && h[k].TurnBegan? ==> h[k].token != token
  }

  /** A turn begins over no holder, with a token of its own, and ends only by the token that holds it. */
  ghost predicate TurnsExclude(h: seq<Event>) {
    forall j :: 0 <= j < |h| ==>
      && (h[j].TurnBegan? ==> Holder(h[..j], h[j].conversation) == None && NewToken(h[..j], h[j].token))
      && (h[j].TurnEnded? ==> Holder(h[..j], h[j].conversation) == Some(h[j].token))
  }

  ghost predicate LeasesOk(s: State) {
    && (forall c: string :: Holder(s.history, c) ==
          if TurnKey(c) in s.entries && s.entries[TurnKey(c)].Token? then Some(s.entries[TurnKey(c)].token) else None)
    && TurnsExclude(s.history) && forall token :: token >= s.nextId ==> NewToken(s.history, token)
  }

  /** An event that follows the rule keeps it, and moves only its own lease. */
  lemma LeaseGrows(h: seq<Event>, e: Event)
    requires TurnsExclude(h)
    requires e.TurnBegan? ==> Holder(h, e.conversation) == None && NewToken(h, e.token)
    requires e.TurnEnded? ==> Holder(h, e.conversation) == Some(e.token)
    ensures TurnsExclude(h + [e])
    ensures forall c :: Holder(h + [e], c) ==
              if e.TurnBegan? && e.conversation == c then Some(e.token)
              else if (e.TurnEnded? || e.TurnLapsed?) && e.conversation == c then None
              else Holder(h, c)
    ensures forall token :: NewToken(h, token) && !(e.TurnBegan? && e.token == token) ==> NewToken(h + [e], token)
  {
    var g := h + [e];
    assert g[..|g| - 1] == h;
    forall j | 0 <= j < |g| ensures g[..j] == if j < |h| then h[..j] else h {
    }
  }

  lemma LeaseStep(reg: Registry, s: State, step: Step)
    requires Inv(reg, s) && LeasesOk(s)
    ensures LeasesOk(Apply(reg, s, step))
  {
    hide Inv, TurnsExclude, Holder, NewToken;
    match step {
      case Put(i) =>
        if i < |s.ops| && s.ops[i].phase.Putting? {
          var t := PutStep(s, i);
          if t.history != s.history {
            LeaseGrows(s.history, t.history[|s.history|]);
          }
        }
      case Delete(i) =>
        if i < |s.ops| && s.ops[i].phase.Holding? {
          LeaseGrows(s.history, Deletes(i, s.ops[i].phase.cancelled));
        }
      case Evict(key) => LeaseGrows(s.history, TurnLapsed(key.conversation));
      case BeginTurn(c) =>
        if TurnKey(c) !in s.entries {
          LeaseGrows(s.history, TurnBegan(c, s.nextId));
        }
      case EndTurn(c, token) =>
        if Holds(s.entries, TurnKey(c), Token(token)) {
          LeaseGrows(s.history, TurnEnded(c, token));
        }
      case _ =>
    }
  }

  /** One turn at a time, and a lapsed holder cannot end a later one. */
  lemma {:induction false} TurnsNeverOverlap(reg: Registry, s: State, steps: seq<Step>)
    requires Initial(s)
    ensures LeasesOk(Run(reg, s, steps))
  {
    if steps != [] {
      TurnsNeverOverlap(reg, s, steps[..|steps| - 1]);
      RunKeeps(reg, s, steps[..|steps| - 1]);
      LeaseStep(reg, Run(reg, s, steps[..|steps| - 1]), steps[|steps| - 1]);
    }
  }

  /** At every point of a run a turn may begin exactly when nobody holds it, and its holder may end it. */
  lemma TurnsMove(reg: Registry, s: State, steps: seq<Step>, c: string, token: nat)
    requires Initial(s)
    ensures var h := Run(reg, s, steps).history;
            && Holder(Run(reg, s, steps + [BeginTurn(c)]).history, c) ==
               (if Holder(h, c).Some? then Holder(h, c) else Some(Run(reg, s, steps).nextId))
            && Holder(Run(reg, s, steps + [EndTurn(c, token)]).history, c) ==
               (if Holder(h, c) == Some(token) then None else Holder(h, c))
            && Holder(Run(reg, s, steps + [Evict(TurnKey(c))]).history, c) == None
  {
    hide Run, Apply, Inv, LeasesOk, Holder;
    TurnsNeverOverlap(reg, s, steps);
    RunKeeps(reg, s, steps);
    OneMore(reg, s, steps, BeginTurn(c));
    OneMore(reg, s, steps, EndTurn(c, token));
    OneMore(reg, s, steps, Evict(TurnKey(c)));
    LeaseMoves(reg, Run(reg, s, steps), c, token);
  }

  lemma LeaseMoves(reg: Registry, s: State, c: string, token: nat)
    requires Inv(reg, s) && LeasesOk(s)
    ensures var h := s.history;
            && Holder(Apply(reg, s, BeginTurn(c)).history, c) == (if Holder(h, c).Some? then Holder(h, c) else Some(s.nextId))
            && Holder(Apply(reg, s, EndTurn(c, token)).history, c) == (if Holder(h, c) == Some(token) then None else Holder(h, c))
            && Holder(Apply(reg, s, Evict(TurnKey(c))).history, c) == None
  {
    hide Inv, TurnsExclude, Holder, NewToken;
    TurnKeysHoldTokens(reg, s);
    LeaseStep(reg, s, BeginTurn(c));
    LeaseStep(reg, s, EndTurn(c, token));
    LeaseStep(reg, s, Evict(TurnKey(c)));
  }

  lemma OneMore(reg: Registry, s: State, steps: seq<Step>, step: Step)
    ensures Run(reg, s, steps + [step]) == Apply(reg, Run(reg, s, steps), step)
  {
    assert (steps + [step])[..|steps|] == steps;
  }

  lemma TurnKeysHoldTokens(reg: Registry, s: State)
    requires Inv(reg, s)
    ensures forall c :: TurnKey(c) in s.entries ==> s.entries[TurnKey(c)].Token?
  {
  }

  // ---------------------------------------------------- what the code does not do

  /** Expiry is not looked at again: a decided claim is accepted however late it lands. */
  lemma ExpiryIsNotRechecked(reg: Registry, s: State, i: nat, ms: nat)
    requires Inv(reg, s) && i < |s.ops| && s.ops[i].phase.Putting? && s.ops[i].call.ClaimCall?
    requires Accepts(s.entries, PauseKey(Conversation(s.ops[i].call)), s.ops[i].phase.expected)
    ensures var t := Apply(reg, Apply(reg, s, Tick(ms)), Put(i));
            && Won(t.ops[i], s.ops[i].call.id)
            && |t.history| == |s.history| + 1 && t.history[|s.history|].Claims? && t.history[|s.history|].at == s.now + ms
  {
    assert OpOk(reg, s, i);
    var call, ph := s.ops[i].call, s.ops[i].phase;
    var raw :| DecideOn(reg, call, raw, ph.decidedAt) == Propose(ph.expected, ph.next, ph.value);
  }

  /** Two events, the second a claim accepted at or after the expiry of the record it replaced. */
  ghost predicate ClaimsExpired(h: seq<Event>) {
    |h| == 2 && h[1].Claims? && h[1].at >= h[1].before.expiresAt
  }

  /** A kind of pause that accepts any prompt and any answer, under one name. */
  ghost predicate AcceptsAll(reg: Registry) {
    reg("k") == Some(Kind(10, p => Some(p), a => Some(a), (a, s) => Some(a)))
  }

  /** An open by itself. */
  function Opening(): seq<Step> {
    [StartOpen("c", "b", "k", "p", "s", "x"), Read(0), Decide(0), Put(0)]
  }

  /** A claim up to its decision, and then the clock. */
  function Dawdling(call: Call): seq<Step> {
    [Start(call), Read(1), Decide(1), Tick(100)]
  }

  /** A run in which an accepted claim landed after the pause expired. */
  lemma ClaimCanLandExpired(reg: Registry)
    requires AcceptsAll(reg)
    ensures exists steps :: ClaimsExpired(Run(reg, Nothing(), steps).history)
  {
    var r := Record("k", "b", 0, 1, "c", Open, "x", "p", "s", 10);
    var call := ClaimCall("c", "b", 0, 1, "a");
    hide Run, Apply, OnePause, Late, Nothing, ClaimsExpired, AcceptsAll, Opening, Dawdling;
    OpenAlone(reg, r);
    DecidedInTime(reg, r, call);
    RunJoins(reg, Nothing(), Opening(), Dawdling(call));
    RunJoins(reg, Nothing(), Opening() + Dawdling(call), [Put(1)]);
    LandsLate(reg, r, call);
    assert ClaimsExpired(Run(reg, Nothing(), Opening() + Dawdling(call) + [Put(1)]).history);
  }

  /** The claim as decided, and the clock past the expiry before it is put. */
  function Late(r: Record, call: Call): State {
    var s1 := OnePause(r);
    s1.(ops := s1.ops + [Op(call, Putting(0, Some(r), r.(status := Claimed), "a", 0))], now := 100)
  }

  lemma DecidedInTime(reg: Registry, r: Record, call: Call)
    requires AcceptsAll(reg)
    requires r == Record("k", "b", 0, 1, "c", Open, "x", "p", "s", 10) && call == ClaimCall("c", "b", 0, 1, "a")
    ensures Run(reg, OnePause(r), Dawdling(call)) == Late(r, call)
  {
    var s1 := OnePause(r);
    RunFour(reg, s1, Start(call), Read(1), Decide(1), Tick(100));
    assert (s1.ops + [Op(call, FirstPhase(call))])[1 := Op(call, Deciding(0, Some(Encoded(r))))] ==
           s1.ops + [Op(call, Deciding(0, Some(Encoded(r))))];
  }

  lemma LandsLate(reg: Registry, r: Record, call: Call)
    requires r == Record("k", "b", 0, 1, "c", Open, "x", "p", "s", 10) && call == ClaimCall("c", "b", 0, 1, "a")
    ensures ClaimsExpired(Run(reg, Late(r, call), [Put(1)]).history)
  {
    assert [Put(1)][..0] == [];
    assert Run(reg, Late(r, call), [Put(1)]) == Apply(reg, Late(r, call), Put(1));
    assert Apply(reg, Late(r, call), Put(1)).history == [Opened(0, r, None, 0), Claims(1, call, r, "a", 0, 100)];
  }

  function Nothing(): State {
    State(map[], [], 0, 0, [])
  }

  function OnePause(r: Record): State {
    State(map[PauseKey("c") := Encoded(r)], [Op(OpenCall(r), Finished(OpenedResult(r)))], 0, 1, [Opened(0, r, None, 0)])
  }

  lemma OpenAlone(reg: Registry, r: Record)
    requires AcceptsAll(reg)
    requires r == Record("k", "b", 0, 1, "c", Open, "x", "p", "s", 10)
    ensures Run(reg, Nothing(), Opening()) == OnePause(r)
  {
    RunFour(reg, Nothing(), StartOpen("c", "b", "k", "p", "s", "x"), Read(0), Decide(0), Put(0));
    var s1 := Apply(reg, Nothing(), StartOpen("c", "b", "k", "p", "s", "x"));
    assert s1 == State(map[], [Op(OpenCall(r), Reading(1))], 0, 1, []);
    var s2 := Apply(reg, s1, Read(0));
    assert s2 == s1.(ops := [Op(OpenCall(r), Deciding(1, None))]);
    var s3 := Apply(reg, s2, Decide(0));
    assert s3 == s1.(ops := [Op(OpenCall(r), Putting(1, None, r, "", 0))]);
  }

  lemma RunFour(reg: Registry, s: State, a: Step, b: Step, c: Step, d: Step)
    ensures Run(reg, s, [a, b, c, d]) == Apply(reg, Apply(reg, Apply(reg, Apply(reg, s, a), b), c), d)
  {
    assert [a, b, c, d][..3] == [a, b, c] && [a, b, c][..2] == [a, b] && [a, b][..1] == [a] && [a][..0] == [];
    assert Run(reg, s, [a]) == Apply(reg, s, a);
    assert Run(reg, s, [a, b]) == Apply(reg, Run(reg, s, [a]), b);
    assert Run(reg, s, [a, b, c]) == Apply(reg, Run(reg, s, [a, b]), c);
  }

  lemma SetTwice(s: State, i: nat, a: Phase, b: Phase)
    requires i < |s.ops|
    ensures SetPhase(SetPhase(s, i, a), i, b) == SetPhase(s, i, b)
  {
  }

  /** One attempt over unreadable bytes: proposed, and refused. */
  lemma RefusedOnce(reg: Registry, s: State, i: nat)
    requires i < |s.ops| && s.ops[i].call.OpenCall? && s.ops[i].phase.Deciding?
    requires var key := PauseKey(s.ops[i].call.record.conversation);
             key in s.entries && !s.entries[key].Encoded? && s.ops[i].phase.raw == Some(s.entries[key])
    ensures var left := s.ops[i].phase.left;
            Apply(reg, Apply(reg, s, Decide(i)), Put(i)) ==
            SetPhase(s, i, if left > 0 then Reading(left - 1) else LastReading)
  {
    var left, record := s.ops[i].phase.left, s.ops[i].call.record;
    SetTwice(s, i, Putting(left, None, record, "", s.now), AfterLoss(s.ops[i].call, left, None));
  }
}
