/**
 * The parts of one stored chat message and the two writes that change them
 * (packages/assistant-kit/src/messages.ts).
 *
 * AppendParts edits a list in place while it walks the incoming parts.  Settled
 * says what the list is worth at the end without any editing: every card once,
 * where it was first written and with its last content, every settled text where
 * it was written, and the text still being streamed, if any, at the end.
 */
module Messages {
  import opened Wrappers

  datatype TextStatus = Streaming | Complete | Errored | Interrupted

  datatype Part =
    | Text(text: string, status: TextStatus)
    | Card(cardId: string, revision: nat, cardType: string, payload: string)
    | Interaction(interactionId: string, interactionRevision: nat, pause: string)
    | Trace(traceId: string, interactionKind: string, outcome: string, attempts: string)

  /** The statuses a text can end with. */
  type EndStatus = s: TextStatus | s != Streaming witness Complete

  predicate IsStreaming(p: Part) {
    p.Text? && p.status == Streaming
  }

  predicate IsCard(p: Part, id: string) {
    p.Card? && p.cardId == id
  }

  /** Index of the first streaming text, or -1. */
  function StreamingAt(parts: seq<Part>): (at: int)
    ensures -1 <= at < |parts|
    ensures at >= 0 ==> IsStreaming(parts[at])
    ensures forall j :: 0 <= j < (if at < 0 then |parts| else at) ==> !IsStreaming(parts[j])
  {
    if parts == [] then -1
    else if IsStreaming(parts[0]) then 0
    else
      var rest := StreamingAt(parts[1..]);
      assert forall j :: 1 <= j < |parts| ==> parts[j] == parts[1..][j - 1];
      if rest < 0 then -1 else rest + 1
  }

  /** Index of the first card with this id, or -1. */
  function CardAt(parts: seq<Part>, id: string): (at: int)
    ensures -1 <= at < |parts|
    ensures at >= 0 ==> IsCard(parts[at], id)
    ensures forall j :: 0 <= j < (if at < 0 then |parts| else at) ==> !IsCard(parts[j], id)
  {
    if parts == [] then -1
    else if IsCard(parts[0], id) then 0
    else
      var rest := CardAt(parts[1..], id);
      assert forall j :: 1 <= j < |parts| ==> parts[j] == parts[1..][j - 1];
      if rest < 0 then -1 else rest + 1
  }

  /** One incoming part added to a message. */
  function AppendOne(parts: seq<Part>, part: Part): seq<Part> {
    var streaming := StreamingAt(parts);
    if part.Text? && streaming >= 0 then
      parts[streaming := part]
    else
      var at := if part.Card? then CardAt(parts, part.cardId) else -1;
      if at >= 0 then parts[at := part.(revision := parts[at].revision + 1)]
      else if streaming < 0 then parts + [part]
      else parts[..streaming] + [part] + parts[streaming..]
  }

  /** The parts added one after another. */
  function Appended(existing: seq<Part>, incoming: seq<Part>): seq<Part> {
    if incoming == [] then existing
    else AppendOne(Appended(existing, incoming[..|incoming| - 1]), incoming[|incoming| - 1])
  }

  method AppendParts(existing: seq<Part>, incoming: seq<Part>) returns (parts: seq<Part>)
    ensures parts == Appended(existing, incoming)
    ensures existing == [] ==> parts == Settled(incoming)
    ensures WellFormed(existing) ==> WellFormed(parts)
  {
    parts := existing;
    for i := 0 to |incoming|
      invariant parts == Appended(existing, incoming[..i])
      invariant WellFormed(existing) ==> WellFormed(parts)
    {
      var part := incoming[i];
      ghost var before := parts;
      assert incoming[..i + 1][..i] == incoming[..i];
      if WellFormed(parts) {
        AppendOneKeepsShape(parts, part);
      }
      var streaming := StreamingAt(parts);
      if part.Text? && streaming != -1 {
        parts := parts[streaming := part];
      } else {
        var at := -1;
        if part.Card? {
          at := CardAt(parts, part.cardId);
        }
        if at >= 0 {
          parts := parts[at := part.(revision := parts[at].revision + 1)];
        } else if streaming == -1 {
          parts := parts + [part];
        } else {
          parts := parts[..streaming] + [part] + parts[streaming..];
        }
      }
      assert parts == AppendOne(before, part);
    }
    assert incoming[..|incoming|] == incoming;
    AppendedIsSettled(incoming);
  }

  /** A streaming text settled with the status given; None when there is none. */
  function EndStreamingText(parts: seq<Part>, status: EndStatus): (r: Option<seq<Part>>)
    ensures r.None? <==> forall p :: p in parts ==> !IsStreaming(p)
    ensures r.Some? ==> |r.value| == |parts|
                        && forall j :: 0 <= j < |parts| && r.value[j] != parts[j] ==>
                          j == StreamingAt(parts) && r.value[j] == Text(parts[j].text, status)
  {
    var at := StreamingAt(parts);
    if at < 0 then None else Some(parts[at := parts[at].(status := status)])
  }

  /** A text part is held when a part with the same status and text is there. */
  function NotHeld(current: seq<Part>, incoming: seq<Part>): (kept: seq<Part>)
    ensures forall p :: p in kept <==> p in incoming && !(p.Text? && p in current)
  {
    if incoming == [] then []
    else
      var rest := NotHeld(current, incoming[..|incoming| - 1]);
      var last := incoming[|incoming| - 1];
      assert incoming == incoming[..|incoming| - 1] + [last];
      if last.Text? && last in current then rest else rest + [last]
  }

  /** Filtering keeps the order: what is kept of two runs of parts is what is kept of each, one after the other. */
  lemma {:induction false} NotHeldJoins(current: seq<Part>, a: seq<Part>, b: seq<Part>)
    ensures NotHeld(current, a + b) == NotHeld(current, a) + NotHeld(current, b)
    decreases |b|
  {
    if b == [] {
      assert a + b == a;
    } else {
      assert (a + b)[..|a + b| - 1] == a + b[..|b| - 1];
      NotHeldJoins(current, a, b[..|b| - 1]);
    }
  }

  function AppendPartsNotHeld(current: seq<Part>, incoming: seq<Part>): Option<seq<Part>> {
    var kept := NotHeld(current, incoming);
    if kept == [] then None else Some(Appended(current, kept))
  }

  // ------------------------------------------------------------------ shape

  /** At most one streaming text, and it is last; no card id twice. */
  ghost predicate WellFormed(parts: seq<Part>) {
    && (forall i :: 0 <= i < |parts| - 1 ==> !IsStreaming(parts[i]))
    && (forall i, j :: 0 <= i < j < |parts| && parts[i].Card? && parts[j].Card? ==>
          parts[i].cardId != parts[j].cardId)
  }

  lemma AppendOneKeepsShape(parts: seq<Part>, part: Part)
    requires WellFormed(parts)
    ensures WellFormed(AppendOne(parts, part))
  {
    var streaming := StreamingAt(parts);
    if streaming >= 0 {
      assert streaming == |parts| - 1;
      assert parts[..streaming] + [part] + parts[streaming..] == parts[..streaming] + [part, parts[streaming]];
    }
  }

  lemma {:induction false} AppendedJoins(existing: seq<Part>, a: seq<Part>, b: seq<Part>)
    ensures Appended(existing, a + b) == Appended(Appended(existing, a), b)
    decreases |b|
  {
    if b == [] {
      assert a + b == a;
    } else {
      var b' := b[..|b| - 1];
      assert (a + b)[..|a + b| - 1] == a + b';
      AppendedJoins(existing, a, b');
    }
  }

  // ------------------------------------------- what a sequence of parts is worth

  function Occurrences(xs: seq<Part>, id: string): nat {
    if xs == [] then 0
    else Occurrences(xs[..|xs| - 1], id) + if IsCard(xs[|xs| - 1], id) then 1 else 0
  }

  /** The card of this id written last. */
  function LastCard(xs: seq<Part>, id: string): (c: Part)
    requires Occurrences(xs, id) > 0
    ensures IsCard(c, id)
  {
    if IsCard(xs[|xs| - 1], id) then xs[|xs| - 1] else LastCard(xs[..|xs| - 1], id)
  }

  lemma {:induction false} OccursWhen(xs: seq<Part>, id: string)
    ensures Occurrences(xs, id) > 0 <==> exists i :: 0 <= i < |xs| && IsCard(xs[i], id)
  {
    if xs != [] {
      OccursWhen(xs[..|xs| - 1], id);
      if i :| 0 <= i < |xs| && IsCard(xs[i], id) {
        assert i < |xs| - 1 ==> IsCard(xs[..|xs| - 1][i], id);
      }
    }
  }

  /** The last text written, when it is still streaming: it stands at the end. */
  function Tail(xs: seq<Part>): seq<Part> {
    if xs == [] then []
    else if xs[|xs| - 1].Text? then if IsStreaming(xs[|xs| - 1]) then [xs[|xs| - 1]] else []
    else Tail(xs[..|xs| - 1])
  }

  /**
   * What the part at i shows in the end: nothing for a text that was streaming,
   * nothing for a card written before, the last content under the first revision
   * plus the number of later writes for a card, and itself otherwise.
   */
  function Shown(xs: seq<Part>, i: nat): seq<Part>
    requires i < |xs|
  {
    var p := xs[i];
    if IsStreaming(p) then []
    else if !p.Card? then [p]
    else if Occurrences(xs[..i], p.cardId) > 0 then []
    else
      OccursWhen(xs, p.cardId);
      assert IsCard(xs[i], p.cardId);
      var last := LastCard(xs, p.cardId);
      [last.(revision := p.revision + Occurrences(xs, p.cardId) - 1)]
  }

  function Body(xs: seq<Part>, n: nat): seq<Part>
    requires n <= |xs|
  {
    if n == 0 then [] else Body(xs, n - 1) + Shown(xs, n - 1)
  }

  /** The message a list of parts amounts to, read off the list itself. */
  function Settled(xs: seq<Part>): seq<Part> {
    Body(xs, |xs|) + Tail(xs)
  }

  /** What one more card of a known id does to the parts it finds. */
  function Rewritten(parts: seq<Part>, p: Part): seq<Part> {
    if p.Card? && CardAt(parts, p.cardId) >= 0
    then
      var at := CardAt(parts, p.cardId);
      parts[at := p.(revision := parts[at].revision + 1)]
    else parts
  }

  lemma CardAtPushed(parts: seq<Part>, q: Part, id: string)
    ensures CardAt(parts + [q], id) ==
            if CardAt(parts, id) >= 0 then CardAt(parts, id) else if IsCard(q, id) then |parts| else -1
  {
    var at, here := CardAt(parts + [q], id), CardAt(parts, id);
    assert forall j :: 0 <= j < |parts| ==> (parts + [q])[j] == parts[j];
    if here >= 0 {
      assert IsCard((parts + [q])[here], id);
    } else if IsCard(q, id) {
      assert IsCard((parts + [q])[|parts|], id);
    }
  }

  lemma {:induction false} BodyHolds(xs: seq<Part>, n: nat, id: string)
    requires n <= |xs|
    ensures forall p :: p in Body(xs, n) ==> !IsStreaming(p)
    ensures CardAt(Body(xs, n), id) >= 0 <==> Occurrences(xs[..n], id) > 0
  {
    if n > 0 {
      BodyHolds(xs, n - 1, id);
      assert xs[..n][..n - 1] == xs[..n - 1];
      var now := Shown(xs, n - 1);
      if now == [] {
        assert Body(xs, n) == Body(xs, n - 1);
      } else {
        assert now == [now[0]];
        CardAtPushed(Body(xs, n - 1), now[0], id);
      }
    }
  }

  lemma {:induction false} ShownExtended(ys: seq<Part>, p: Part, i: nat)
    requires i < |ys|
    ensures Shown(ys + [p], i) == if p.Card? && IsCard(ys[i], p.cardId) then Rewritten(Shown(ys, i), p) else Shown(ys, i)
  {
    var xs := ys + [p];
    assert xs[..i] == ys[..i] && xs[..|xs| - 1] == ys;
    if ys[i].Card? {
      OccursWhen(ys, ys[i].cardId);
      assert IsCard(ys[i], ys[i].cardId);
    }
  }

  lemma RewrittenPushed(before: seq<Part>, q: Part, p: Part)
    requires p.Card? && IsCard(q, p.cardId) ==> CardAt(before, p.cardId) < 0
    ensures Rewritten(before + [q], p) ==
            Rewritten(before, p) + if p.Card? && IsCard(q, p.cardId) then Rewritten([q], p) else [q]
  {
    if p.Card? {
      CardAtPushed(before, q, p.cardId);
      if IsCard(q, p.cardId) {
        assert CardAt([q], p.cardId) == 0;
      }
    }
  }

  /** What a place shows: nothing, or one part, which is a card of the same id if the place holds a card. */
  lemma ShownIsOne(ys: seq<Part>, i: nat, id: string)
    requires i < |ys|
    ensures Shown(ys, i) == [] || Shown(ys, i) == [Shown(ys, i)[0]]
    ensures Shown(ys, i) != [] ==> (IsCard(Shown(ys, i)[0], id) <==> IsCard(ys[i], id))
    ensures Shown(ys, i) != [] && IsCard(ys[i], id) ==> Occurrences(ys[..i], id) == 0
  {
  }

  lemma NothingRewritten(p: Part)
    ensures Rewritten([], p) == []
  {
  }

  lemma {:induction false} BodyExtended(ys: seq<Part>, p: Part, n: nat)
    requires n <= |ys|
    ensures Body(ys + [p], n) == Rewritten(Body(ys, n), p)
  {
    hide CardAt, Shown, Rewritten, Occurrences;
    NothingRewritten(p);
    if n > 0 {
      BodyExtended(ys, p, n - 1);
      ShownExtended(ys, p, n - 1);
      var before, now, id := Body(ys, n - 1), Shown(ys, n - 1), if p.Card? then p.cardId else "";
      ShownIsOne(ys, n - 1, id);
      if now == [] {
        assert Body(ys, n) == before;
      } else {
        BodyHolds(ys, n - 1, id);
        RewrittenPushed(before, now[0], p);
      }
    }
  }

  ghost predicate Split(parts: seq<Part>, body: seq<Part>, tail: seq<Part>) {
    && parts == body + tail
    && StreamingAt(parts) == (if tail == [] then -1 else |body|)
    && |tail| <= 1
  }

  lemma TextToTail(parts: seq<Part>, body: seq<Part>, tail: seq<Part>, p: Part)
    requires Split(parts, body, tail) && p.Text?
    ensures AppendOne(parts, p) == body + [p]
  {
    if tail == [] {
      assert parts == body;
    } else {
      assert parts[|body| := p] == body + [p];
    }
  }

  lemma OtherToTail(parts: seq<Part>, body: seq<Part>, tail: seq<Part>, p: Part)
    requires Split(parts, body, tail) && !p.Text?
    requires p.Card? ==> CardAt(parts, p.cardId) == CardAt(body, p.cardId)
    ensures AppendOne(parts, p) ==
            (if p.Card? && CardAt(body, p.cardId) >= 0 then Rewritten(body, p) else body + [p]) + tail
  {
    if p.Card? && CardAt(body, p.cardId) >= 0 {
      var at := CardAt(body, p.cardId);
      var q := p.(revision := body[at].revision + 1);
      assert parts[at := q] == body[at := q] + tail;
    } else if tail == [] {
      assert parts == body;
    } else {
      assert parts[..|body|] == body && parts[|body|..] == tail;
    }
  }

  /** One part added to settled parts followed by the streaming text, if any. */
  lemma AppendOneToTail(body: seq<Part>, tail: seq<Part>, p: Part)
    requires forall q :: q in body ==> !IsStreaming(q)
    requires tail == [] || (|tail| == 1 && IsStreaming(tail[0]))
    ensures AppendOne(body + tail, p) ==
            if p.Text? then body + [p]
            else (if p.Card? && CardAt(body, p.cardId) >= 0 then Rewritten(body, p) else body + [p]) + tail
  {
    StreamingAtEnd(body, tail);
    if p.Text? {
      TextToTail(body + tail, body, tail, p);
    } else {
      if p.Card? {
        CardAtBeforeTail(body, tail, p.cardId);
      }
      OtherToTail(body + tail, body, tail, p);
    }
  }

  /** The edits made in place and the list read as a whole come to the same. */
  lemma {:induction false} AppendedIsSettled(xs: seq<Part>)
    ensures Appended([], xs) == Settled(xs)
  {
    hide AppendOne, StreamingAt, CardAt, Shown;
    if xs != [] {
      var ys, p := xs[..|xs| - 1], xs[|xs| - 1];
      assert xs == ys + [p];
      AppendedIsSettled(ys);
      BodyExtended(ys, p, |ys|);
      BodyHolds(ys, |ys|, if p.Card? then p.cardId else "");
      TailStreams(ys);
      AppendOneToTail(Body(ys, |ys|), Tail(ys), p);
      assert ys[..|ys|] == ys && xs[..|ys|] == ys;
      LastShown(ys, p);
    }
  }

  /** What the newest part shows. */
  lemma LastShown(ys: seq<Part>, p: Part)
    ensures Shown(ys + [p], |ys|) ==
            if IsStreaming(p) || (p.Card? && Occurrences(ys, p.cardId) > 0) then [] else [p]
  {
    hide Shown, Occurrences, LastCard;
    if p.Card? {
      NewestCardShown(ys, p);
    } else {
      NewestOtherShown(ys, p);
    }
  }

  lemma NewestOtherShown(ys: seq<Part>, p: Part)
    requires !p.Card?
    ensures Shown(ys + [p], |ys|) == if IsStreaming(p) then [] else [p]
  {
    hide Occurrences, LastCard;
    assert (ys + [p])[|ys|] == p;
  }

  lemma NewestCardShown(ys: seq<Part>, p: Part)
    requires p.Card?
    ensures Shown(ys + [p], |ys|) == if Occurrences(ys, p.cardId) > 0 then [] else [p]
  {
    hide Occurrences, LastCard;
    NewestCard(ys, p);
    var xs := ys + [p];
    assert xs[|ys|] == p && xs[..|ys|] == ys;
    if Occurrences(ys, p.cardId) == 0 {
      var last, n := LastCard(xs, p.cardId), Occurrences(xs, p.cardId);
      assert last.(revision := p.revision + n - 1) == p;
    }
  }

  lemma NewestCard(ys: seq<Part>, p: Part)
    requires p.Card?
    ensures Occurrences(ys + [p], p.cardId) == Occurrences(ys, p.cardId) + 1
    ensures LastCard(ys + [p], p.cardId) == p
  {
    assert (ys + [p])[..|ys|] == ys;
  }

  lemma {:induction false} TailStreams(xs: seq<Part>)
    ensures Tail(xs) == [] || (|Tail(xs)| == 1 && IsStreaming(Tail(xs)[0]))
  {
    if xs != [] {
      TailStreams(xs[..|xs| - 1]);
    }
  }

  lemma StreamingAtEnd(body: seq<Part>, tail: seq<Part>)
    requires forall p :: p in body ==> !IsStreaming(p)
    requires tail == [] || (|tail| == 1 && IsStreaming(tail[0]))
    ensures StreamingAt(body + tail) == if tail == [] then -1 else |body|
  {
    var at := StreamingAt(body + tail);
    assert forall j :: 0 <= j < |body| ==> (body + tail)[j] == body[j];
    if tail != [] {
      assert IsStreaming((body + tail)[|body|]);
    }
  }

  lemma CardAtBeforeTail(body: seq<Part>, tail: seq<Part>, id: string)
    requires tail == [] || (|tail| == 1 && IsStreaming(tail[0]))
    ensures CardAt(body + tail, id) == CardAt(body, id)
  {
    if tail == [] {
      assert body + tail == body;
    } else {
      assert tail == [tail[0]];
      CardAtPushed(body, tail[0], id);
    }
  }

  // ------------------------------------------------ messages built by writes

  datatype Write = Append(parts: seq<Part>) | EndText(status: EndStatus)

  /** The parts a write stores over those it read; None when it changes nothing. */
  function ApplyWrite(parts: seq<Part>, w: Write): Option<seq<Part>> {
    match w
    case Append(more) => AppendPartsNotHeld(parts, more)
    case EndText(status) => EndStreamingText(parts, status)
  }

  function WriteOver(parts: seq<Part>, w: Write): seq<Part> {
    var r := ApplyWrite(parts, w);
    if r.Some? then r.value else parts
  }

  /** A message after these writes, starting from none. */
  function Built(ws: seq<Write>): seq<Part> {
    if ws == [] then [] else WriteOver(Built(ws[..|ws| - 1]), ws[|ws| - 1])
  }

  /** Every part the writes carried, in order. */
  function Written(ws: seq<Write>): seq<Part> {
    if ws == [] then []
    else
      var last := ws[|ws| - 1];
      Written(ws[..|ws| - 1]) + if last.Append? then last.parts else []
  }

  /** The parts that took effect; ending a text counts as adding the ended text. */
  ghost function Effective(ws: seq<Write>): seq<Part> {
    if ws == [] then []
    else
      var before, current := Effective(ws[..|ws| - 1]), Built(ws[..|ws| - 1]);
      match ws[|ws| - 1]
      case Append(more) => before + NotHeld(current, more)
      case EndText(status) =>
        var at := StreamingAt(current);
        if at < 0 then before else before + [current[at].(status := status)]
  }

  lemma {:induction false} BuiltIsSettled(ws: seq<Write>)
    ensures Built(ws) == Settled(Effective(ws))
  {
    AppendedIsSettled(Effective(ws));
    if ws != [] {
      var early, w := ws[..|ws| - 1], ws[|ws| - 1];
      BuiltIsSettled(early);
      AppendedIsSettled(Effective(early));
      match w {
        case Append(more) =>
          AppendedJoins([], Effective(early), NotHeld(Built(early), more));
          assert NotHeld(Built(early), more) == [] ==> Effective(ws) == Effective(early);
        case EndText(status) =>
          var at := StreamingAt(Built(early));
          if at >= 0 {
            var ended := Built(early)[at].(status := status);
            assert Effective(ws)[..|Effective(ws)| - 1] == Effective(early);
          }
      }
    }
  }

  /** The card of this id written first. */
  function FirstCard(xs: seq<Part>, id: string): (c: Part)
    requires Occurrences(xs, id) > 0
    ensures IsCard(c, id)
  {
    var early := xs[..|xs| - 1];
    if Occurrences(early, id) > 0 then FirstCard(early, id) else xs[|xs| - 1]
  }

  ghost predicate SameCards(a: seq<Part>, b: seq<Part>, id: string) {
    && Occurrences(a, id) == Occurrences(b, id)
    && (Occurrences(a, id) > 0 ==> FirstCard(a, id) == FirstCard(b, id) && LastCard(a, id) == LastCard(b, id))
  }

  lemma SameCardsPushed(a: seq<Part>, b: seq<Part>, q: Part, id: string)
    requires SameCards(a, b, id)
    ensures SameCards(a + [q], b + [q], id)
    ensures !q.Card? ==> SameCards(a, b + [q], id) && SameCards(a + [q], b, id)
  {
    assert (a + [q])[..|a|] == a && (b + [q])[..|b|] == b;
  }

  lemma {:induction false} SameCardsNotHeld(a: seq<Part>, b: seq<Part>, current: seq<Part>, more: seq<Part>, id: string)
    requires SameCards(a, b, id)
    ensures SameCards(a + NotHeld(current, more), b + more, id)
    decreases |more|
  {
    if more == [] {
      assert a + NotHeld(current, more) == a && b + more == b;
    } else {
      var init, last := more[..|more| - 1], more[|more| - 1];
      SameCardsNotHeld(a, b, current, init, id);
      assert b + more == (b + init) + [last];
      var kept := NotHeld(current, init);
      assert a + (kept + [last]) == (a + kept) + [last];
      SameCardsPushed(a + kept, b + init, last, id);
    }
  }

  lemma {:induction false} EffectiveCards(ws: seq<Write>, id: string)
    ensures SameCards(Effective(ws), Written(ws), id)
  {
    if ws != [] {
      var early, w := ws[..|ws| - 1], ws[|ws| - 1];
      EffectiveCards(early, id);
      match w {
        case Append(more) =>
          SameCardsNotHeld(Effective(early), Written(early), Built(early), more, id);
        case EndText(status) =>
          assert Written(ws) == Written(early);
          var at := StreamingAt(Built(early));
          if at >= 0 {
            SameCardsPushed(Effective(early), Written(early), Built(early)[at].(status := status), id);
          }
      }
    }
  }

  /** Where a card stands among the first n parts shown, and with what content. */
  lemma {:induction false} BodyCard(xs: seq<Part>, n: nat, id: string)
    requires n <= |xs|
    ensures Occurrences(xs[..n], id) > 0 ==>
              && Occurrences(xs, id) > 0
              && CardAt(Body(xs, n), id) >= 0
              && var last, first := LastCard(xs, id), FirstCard(xs[..n], id);
              && IsCard(last, id) && IsCard(first, id)
              && Body(xs, n)[CardAt(Body(xs, n), id)] ==
                 last.(revision := first.revision + Occurrences(xs, id) - 1)
  {
    if n > 0 && Occurrences(xs[..n], id) > 0 {
      assert xs[..n][..n - 1] == xs[..n - 1];
      OccursAfter(xs, n, id);
      if Occurrences(xs[..n - 1], id) > 0 {
        BodyCard(xs, n - 1, id);
        BodyCardStays(xs, n, id);
      } else {
        BodyCardBegins(xs, n, id);
      }
    }
  }

  /** What occurs among the first parts occurs. */
  lemma OccursAfter(xs: seq<Part>, n: nat, id: string)
    requires n <= |xs| && Occurrences(xs[..n], id) > 0
    ensures Occurrences(xs, id) > 0
  {
    OccursWhen(xs[..n], id);
    OccursWhen(xs, id);
    var i :| 0 <= i < n && IsCard(xs[..n][i], id);
    assert IsCard(xs[i], id);
  }

  /** A card already shown stands where it stood. */
  lemma BodyCardStays(xs: seq<Part>, n: nat, id: string)
    requires 0 < n <= |xs| && CardAt(Body(xs, n - 1), id) >= 0
    ensures CardAt(Body(xs, n), id) == CardAt(Body(xs, n - 1), id)
    ensures Body(xs, n)[CardAt(Body(xs, n), id)] == Body(xs, n - 1)[CardAt(Body(xs, n - 1), id)]
  {
    hide Shown, CardAt;
    ShownIsOne(xs, n - 1, id);
    var now := Shown(xs, n - 1);
    if now == [] {
      assert Body(xs, n) == Body(xs, n - 1);
    } else {
      CardAtPushed(Body(xs, n - 1), now[0], id);
    }
  }

  /** The first of a card's parts shows the last one's content under the total revision. */
  lemma BodyCardBegins(xs: seq<Part>, n: nat, id: string)
    requires 0 < n <= |xs| && Occurrences(xs[..n], id) > 0 && Occurrences(xs[..n - 1], id) == 0 && Occurrences(xs, id) > 0
    ensures CardAt(Body(xs, n), id) >= 0
    ensures var last, first := LastCard(xs, id), FirstCard(xs[..n], id);
            && IsCard(last, id) && IsCard(first, id)
            && Body(xs, n)[CardAt(Body(xs, n), id)] == last.(revision := first.revision + Occurrences(xs, id) - 1)
  {
    hide CardAt, LastCard;
    assert xs[..n][..n - 1] == xs[..n - 1];
    var now := Shown(xs, n - 1);
    BodyHolds(xs, n - 1, id);
    CardAtPushed(Body(xs, n - 1), now[0], id);
    assert now == [now[0]];
  }

  /**
   * Whatever the writes were: one streaming text at most and it is last, no card
   * twice, and each card carries its last content under the revision of its
   * first write plus one for every later write.
   */
  lemma BuiltShape(ws: seq<Write>, id: string)
    ensures WellFormed(Built(ws))
    ensures var cards := Written(ws); var at := CardAt(Built(ws), id);
            if Occurrences(cards, id) == 0 then at < 0
            else at >= 0 && Built(ws)[at] ==
                 LastCard(cards, id).(revision := FirstCard(cards, id).revision + Occurrences(cards, id) - 1)
  {
    var xs := Effective(ws);
    BuiltIsSettled(ws);
    SettledWellFormed(xs);
    EffectiveCards(ws, id);
    TailStreams(xs);
    CardAtBeforeTail(Body(xs, |xs|), Tail(xs), id);
    assert xs[..|xs|] == xs;
    BodyHolds(xs, |xs|, id);
    BodyCard(xs, |xs|, id);
  }

  lemma {:induction false} SettledWellFormed(xs: seq<Part>)
    ensures WellFormed(Settled(xs))
  {
    AppendedIsSettled(xs);
    if xs != [] {
      SettledWellFormed(xs[..|xs| - 1]);
      AppendedIsSettled(xs[..|xs| - 1]);
      AppendOneKeepsShape(Settled(xs[..|xs| - 1]), xs[|xs| - 1]);
    }
  }

  function StreamingCount(parts: seq<Part>): nat {
    if parts == [] then 0
    else StreamingCount(parts[..|parts| - 1]) + if IsStreaming(parts[|parts| - 1]) then 1 else 0
  }

  lemma {:induction false} StreamingCountUpdated(parts: seq<Part>, at: nat, p: Part)
    requires at < |parts| && IsStreaming(parts[at]) && !IsStreaming(p)
    ensures StreamingCount(parts[at := p]) == StreamingCount(parts) - 1
  {
    var n := |parts| - 1;
    if at < n {
      StreamingCountUpdated(parts[..n], at, p);
      assert parts[at := p][..n] == parts[..n][at := p];
    } else {
      assert parts[at := p][..n] == parts[..n];
    }
  }

  /**
   * Each end_text that changes a message settles one streaming part, so a message
   * built by writes is changed by at most one of any number of them.
   */
  lemma EndTextOnce(parts: seq<Part>, first: EndStatus, second: EndStatus)
    ensures var r := EndStreamingText(parts, first);
            && (r.Some? ==> StreamingCount(r.value) == StreamingCount(parts) - 1)
            && (r.Some? && WellFormed(parts) ==> EndStreamingText(r.value, second).None?)
  {
    var at := StreamingAt(parts);
    if at >= 0 {
      StreamingCountUpdated(parts, at, parts[at].(status := first));
    }
  }

  /** How many of these writes ended a streaming text. */
  function Endings(ws: seq<Write>): nat {
    if ws == [] then 0
    else
      var early, w := ws[..|ws| - 1], ws[|ws| - 1];
      Endings(early) + if w.EndText? && ApplyWrite(Built(early), w).Some? then 1 else 0
  }

  /** Whether a text of the message is still streaming, as a number. */
  function StillStreaming(parts: seq<Part>): nat {
    if StreamingAt(parts) >= 0 then 1 else 0
  }

  lemma AppendOneOpens(parts: seq<Part>, part: Part)
    requires WellFormed(parts)
    ensures StillStreaming(AppendOne(parts, part)) <= StillStreaming(parts) + if IsStreaming(part) then 1 else 0
  {
    var r, at := AppendOne(parts, part), StreamingAt(AppendOne(parts, part));
    if at >= 0 {
      assert IsStreaming(r[at]);
    }
  }

  lemma {:induction false} AppendedOpens(parts: seq<Part>, more: seq<Part>)
    requires WellFormed(parts)
    ensures WellFormed(Appended(parts, more))
    ensures StillStreaming(Appended(parts, more)) <= StillStreaming(parts) + StreamingCount(more)
  {
    if more != [] {
      AppendedOpens(parts, more[..|more| - 1]);
      AppendOneKeepsShape(Appended(parts, more[..|more| - 1]), more[|more| - 1]);
      AppendOneOpens(Appended(parts, more[..|more| - 1]), more[|more| - 1]);
    }
  }

  lemma {:induction false} NotHeldStreams(current: seq<Part>, more: seq<Part>)
    ensures StreamingCount(NotHeld(current, more)) <= StreamingCount(more)
  {
    if more != [] {
      NotHeldStreams(current, more[..|more| - 1]);
      var rest, last := NotHeld(current, more[..|more| - 1]), more[|more| - 1];
      assert (rest + [last])[..|rest|] == rest;
    }
  }

  lemma {:induction false} StreamingCountJoins(a: seq<Part>, b: seq<Part>)
    ensures StreamingCount(a + b) == StreamingCount(a) + StreamingCount(b)
    decreases |b|
  {
    if b == [] {
      assert a + b == a;
    } else {
      assert (a + b)[..|a + b| - 1] == a + b[..|b| - 1];
      StreamingCountJoins(a, b[..|b| - 1]);
    }
  }

  /**
   * Over any writes, each text written as streaming is ended at most once: the
   * end_texts that changed the message, and the text still streaming if there is
   * one, are together no more than the streaming texts written.
   */
  lemma {:induction false} EndTextOncePerText(ws: seq<Write>)
    ensures Endings(ws) + StillStreaming(Built(ws)) <= StreamingCount(Written(ws))
  {
    if ws != [] {
      var early, w := ws[..|ws| - 1], ws[|ws| - 1];
      EndTextOncePerText(early);
      BuiltShape(early, "");
      match w {
        case Append(more) =>
          AppendedOpens(Built(early), NotHeld(Built(early), more));
          NotHeldStreams(Built(early), more);
          StreamingCountJoins(Written(early), more);
        case EndText(status) =>
          assert Written(ws) == Written(early);
          EndsTheOnly(Built(early), status);
      }
    }
  }

  lemma EndsTheOnly(parts: seq<Part>, status: EndStatus)
    requires WellFormed(parts)
    ensures var r := EndStreamingText(parts, status); r.Some? ==> StillStreaming(parts) == 1 && StillStreaming(r.value) == 0
  {
    EndTextOnce(parts, status, status);
  }

  /** A text sent twice is stored once: the second append finds it held. */
  lemma TextStoredOnce(parts: seq<Part>, t: Part)
    requires t.Text?
    ensures AppendPartsNotHeld(WriteOver(parts, Append([t])), [t]).None?
  {
    var once := WriteOver(parts, Append([t]));
    assert [t][..0] == [] && NotHeld(parts, []) == [];
    if t in parts {
      assert NotHeld(parts, [t]) == [];
    } else {
      assert NotHeld(parts, [t]) == [t];
      assert Appended(parts, [t]) == AppendOne(parts, t);
      var at := StreamingAt(parts);
      assert once[if at < 0 then |parts| else at] == t;
    }
    assert t in once;
    assert NotHeld(once, [t]) == [];
  }
}
