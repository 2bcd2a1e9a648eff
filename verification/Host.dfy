/**
 * The turn host (packages/assistant-kit/src/host.ts): tools run one at a time,
 * nothing acts after a pause or a failed store, and what a turn stores part by
 * part is what it reports in one go.
 *
 * The provider stream is a list of events: the tool calls of every step in the
 * order the chain runs them, and the end of each step.  Whether a store accepts a
 * write is part of the event.
 */
module Host {
  import opened Wrappers
  import opened Messages

  datatype CardRef = CardRef(cardId: string, cardType: string, payload: string)

  datatype Outcome = Done(card: Option<CardRef>) | Failed | Pausing | Throws

  datatype Event =
    | ToolCall(outcome: Outcome, stores: bool)
    | StepFinished(saves: bool)

  /** What the model sees of one tool call. */
  datatype Output = Result | ErrorResult | Prompt | Thrown | SkippedOpen | SkippedStore | NoCall

  function CardPart(card: CardRef): Part {
    Card(card.cardId, 1, card.cardType, card.payload)
  }

  function CardParts(cards: seq<CardRef>): (parts: seq<Part>)
    ensures |parts| == |cards|
    ensures forall i :: 0 <= i < |cards| ==> parts[i] == CardPart(cards[i])
  {
    seq(|cards|, i requires 0 <= i < |cards| => CardPart(cards[i]))
  }

  // ---------------------------------------------------------- when a turn stops

  predicate Pauses(e: Event) {
    e.ToolCall? && e.outcome.Pausing?
  }

  /** A write of the turn that the store refuses: a card, or the step history. */
  predicate Breaks(e: Event) {
    match e
    case ToolCall(outcome, stores) => outcome.Done? && outcome.card.Some? && !stores
    case StepFinished(saves) => !saves
  }

  /** Index of the first event that pauses the turn or breaks it, else |events|. */
  function StopAt(events: seq<Event>): (at: nat)
    ensures at <= |events|
    ensures at < |events| ==> Pauses(events[at]) || Breaks(events[at])
    ensures forall j :: 0 <= j < at ==> !Pauses(events[j]) && !Breaks(events[j])
  {
    if events == [] then 0
    else if Pauses(events[0]) || Breaks(events[0]) then 0
    else
      assert forall j :: 1 <= j < |events| ==> events[j] == events[1..][j - 1];
      1 + StopAt(events[1..])
  }

  lemma StopAtPrefix(events: seq<Event>, i: nat)
    requires i < |events|
    ensures StopAt(events[..i]) == if StopAt(events) < i then StopAt(events) else i
    ensures StopAt(events[..i + 1]) == if StopAt(events) <= i then StopAt(events) else i + 1
  {
    forall n | 0 <= n <= |events|
      ensures StopAt(events[..n]) == if StopAt(events) < n then StopAt(events) else n
    {
      var at := StopAt(events[..n]);
      assert at < n ==> events[at] == events[..n][at];
      assert StopAt(events) < n ==> events[..n][StopAt(events)] == events[StopAt(events)];
    }
  }

  /** What call i returns when the first stop of the turn is at `stop`. */
  function OutputAt(events: seq<Event>, stop: nat, i: nat): Output
    requires i < |events|
  {
    match events[i]
    case StepFinished(_) => NoCall
    case ToolCall(outcome, _) =>
      if stop < i then if Pauses(events[stop]) then SkippedOpen else SkippedStore
      else Returned(outcome)
  }

  /** What the model is told of one event: a call up to the first stop by its outcome, a later one by what stopped the turn. */
  ghost predicate ToldRight(events: seq<Event>, i: nat, output: Output)
    requires i < |events|
  {
    var e, stop := events[i], StopAt(events);
    if e.StepFinished? then output == NoCall
    else if stop < i then output == if events[stop].ToolCall? && events[stop].outcome.Pausing? then SkippedOpen else SkippedStore
    else
      && (e.outcome.Done? ==> output == Result) && (e.outcome.Failed? ==> output == ErrorResult)
      && (e.outcome.Pausing? ==> output == Prompt) && (e.outcome.Throws? ==> output == Thrown)
  }

  /** The calls whose body ran: those up to the first stop, in order. */
  ghost predicate RanUpToTheStop(events: seq<Event>, ran: seq<nat>) {
    && (forall a, b :: 0 <= a < b < |ran| ==> ran[a] < ran[b])
    && forall i: nat :: i in ran <==> i < |events| && events[i].ToolCall? && i <= StopAt(events)
  }

  /** The cards of the calls that ran. */
  function CardsRun(events: seq<Event>): seq<CardRef> {
    if events == [] then []
    else
      var e := events[|events| - 1];
      var early := events[..|events| - 1];
      CardsRun(early) +
      if StopAt(early) == |early| && e.ToolCall? && e.outcome.Done? && e.outcome.card.Some?
      then [e.outcome.card.value] else []
  }

  /** Places of the events that ran and left a card, all of them and in order. */
  ghost predicate LeftCards(events: seq<Event>, cards: seq<CardRef>, places: seq<nat>) {
    && |places| == |cards|
    && (forall a, b :: 0 <= a < b < |places| ==> places[a] < places[b])
    && (forall a :: 0 <= a < |places| ==> places[a] < |events| && Left(events, places[a]) == Some(cards[a]))
    && forall i: nat :: i < |events| && Left(events, i).Some? ==> i in places
  }

  /** The card an event left: of a call up to the first stop that was done and made one. */
  function Left(events: seq<Event>, i: nat): Option<CardRef>
    requires i < |events|
  {
    var e := events[i];
    if e.ToolCall? && e.outcome.Done? && i <= StopAt(events) then e.outcome.card else None
  }

  /** The cards of a turn are those of its calls up to the first stop, in the order they ran. */
  lemma {:induction false} CardsOfTheCallsThatRan(events: seq<Event>) returns (places: seq<nat>)
    ensures LeftCards(events, CardsRun(events), places)
  {
    hide StopAt, Pauses, Breaks;
    if events == [] {
      places := [];
    } else {
      var n := |events| - 1;
      var early := events[..n];
      places := CardsOfTheCallsThatRan(early);
      StopAtPrefix(events, n);
      assert events[..n + 1] == events;
      assert forall i: nat :: i < n ==> Left(events, i) == Left(early, i);
      if Left(events, n).Some? {
        places := places + [n];
      }
    }
  }

  // -------------------------------------------------------------- the message

  /** A message absent, or holding parts, after one append of the turn. */
  function StoredAfter(stored: Option<seq<Part>>, parts: seq<Part>): Option<seq<Part>> {
    if parts == [] then stored
    else match stored {
      case None => Some(Appended([], parts))
      case Some(held) => Some(WriteOver(held, Append(parts)))
    }
  }

  /** Where a turn may find its message: not there yet, or one streaming text. */
  predicate Fresh(start: Option<seq<Part>>) {
    start.None? || (|start.value| == 1 && IsStreaming(start.value[0]))
  }

  function StartParts(start: Option<seq<Part>>): seq<Part> {
    if start.None? then [] else start.value
  }

  /** The message as a reload shows it: absent reads as no parts. */
  function Shows(stored: Option<seq<Part>>): seq<Part> {
    StartParts(stored)
  }

  predicate HasText(parts: seq<Part>) {
    exists p :: p in parts && p.Text?
  }

  predicate NoStreaming(parts: seq<Part>) {
    forall p :: p in parts ==> !IsStreaming(p)
  }

  lemma {:induction false} AppendedKeepsKinds(xs: seq<Part>)
    ensures NoStreaming(xs) ==> NoStreaming(Appended([], xs))
    ensures !HasText(xs) ==> !HasText(Appended([], xs))
  {
    if xs != [] {
      var ys, p := xs[..|xs| - 1], xs[|xs| - 1];
      assert xs == ys + [p];
      AppendedKeepsKinds(ys);
      if NoStreaming(xs) {
        forall q | q in Appended([], xs) ensures !IsStreaming(q) {
          PartOfAppendOne(Appended([], ys), p, q);
        }
      }
      if !HasText(xs) {
        forall q | q in Appended([], xs) ensures !q.Text? {
          PartOfAppendOne(Appended([], ys), p, q);
        }
      }
    }
  }

  lemma PartOfAppendOne(parts: seq<Part>, p: Part, q: Part)
    requires q in AppendOne(parts, p)
    ensures q in parts || ((q.Text? <==> p.Text?) && (IsStreaming(q) <==> IsStreaming(p)))
  {
  }

  /** A streaming placeholder stays last until a text takes its place. */
  lemma {:induction false} PlaceholderTransparent(placeholder: Part, xs: seq<Part>)
    requires IsStreaming(placeholder) && NoStreaming(xs)
    ensures Appended([placeholder], xs) == Appended([], xs) + if HasText(xs) then [] else [placeholder]
  {
    if xs == [] {
      assert Appended([], xs) + [placeholder] == [placeholder];
    } else {
      var ys, p := xs[..|xs| - 1], xs[|xs| - 1];
      assert xs == ys + [p];
      PlaceholderTransparent(placeholder, ys);
      AppendedKeepsKinds(ys);
      var body := Appended([], ys);
      assert body + [] == body;
      AppendOneToTail(body, [], p);
      AppendOneToTail(body, [placeholder], p);
      assert HasText(xs) <==> HasText(ys) || p.Text?;
    }
  }

  /** What the turn has stored once it wrote `xs`, in however many appends. */
  function StoredParts(start: Option<seq<Part>>, xs: seq<Part>): Option<seq<Part>> {
    if xs == [] then start else Some(Appended(StartParts(start), xs))
  }

  /** No append of a turn finds its own text already held, so all of it lands. */
  lemma AppendLands(start: Option<seq<Part>>, xs: seq<Part>, more: seq<Part>)
    requires Fresh(start) && !HasText(xs) && NoStreaming(more)
    ensures StoredAfter(StoredParts(start, xs), more) == StoredParts(start, xs + more)
  {
    AppendedJoins(StartParts(start), xs, more);
    if more == [] {
      assert xs + more == xs;
    } else {
      assert xs == [] ==> xs + more == more;
      var stored := StoredParts(start, xs);
      if stored.Some? {
        var held := stored.value;
        AppendedKeepsKinds(xs);
        if start.Some? {
          assert start.value == [start.value[0]];
          assert NoStreaming(xs);
          PlaceholderTransparent(start.value[0], xs);
        }
        assert forall p :: p in more && p.Text? ==> p !in held;
        AllKept(held, more);
      }
    }
  }

  lemma {:induction false} AllKept(held: seq<Part>, more: seq<Part>)
    requires forall p :: p in more && p.Text? ==> p !in held
    ensures NotHeld(held, more) == more
  {
    if more != [] {
      AllKept(held, more[..|more| - 1]);
    }
  }

  // ------------------------------------------------------------------- the turn

  /** How the run ended: its text, and the interaction part when one was opened. */
  datatype Ending = Ending(interrupted: bool, text: string, status: EndStatus, asked: Option<Part>)

  predicate LegalEnding(e: Ending) {
    e.asked.Some? ==> e.asked.value.Interaction?
  }

  function EndParts(e: Ending): seq<Part> {
    (if e.interrupted then [Text(e.text, e.status)]
     else if |e.text| > 0 then [Text(e.text, Complete)]
     else []) +
    (if e.asked.Some? then [e.asked.value] else [])
  }

  /** A run that was interrupted leaves a text, empty or not; one that ended well only when it said something. */
  predicate LeavesText(e: Ending) {
    e.interrupted || e.text != ""
  }

  /**
   * These parts end as the run did: cards first, then its text, broken if it was
   * interrupted and complete if not, then the interaction it asked for, and no more.
   */
  ghost predicate EndsAs(parts: seq<Part>, cards: seq<Part>, e: Ending) {
    && |parts| == |cards| + (if LeavesText(e) then 1 else 0) + (if e.asked.Some? then 1 else 0)
    && parts[..|cards|] == cards && (forall p :: p in cards ==> p.Card?)
    && (LeavesText(e) && e.interrupted ==> parts[|cards|] == Text(e.text, e.status))
    && (LeavesText(e) && !e.interrupted ==> parts[|cards|] == Text(e.text, Complete))
    && (e.asked.Some? ==> parts[|parts| - 1] == e.asked.value)
  }

  lemma SettledPushed(xs: seq<Part>, p: Part)
    requires NoStreaming(xs) && !p.Card?
    ensures Appended([], xs + [p]) == Appended([], xs) + [p]
  {
    assert (xs + [p])[..|xs|] == xs;
    AppendedKeepsKinds(xs);
    assert StreamingAt(Appended([], xs)) < 0;
  }

  lemma {:induction false} CardsStayCards(xs: seq<Part>)
    requires forall p :: p in xs ==> p.Card?
    ensures forall p :: p in Appended([], xs) ==> p.Card?
  {
    if xs != [] {
      var ys, p := xs[..|xs| - 1], xs[|xs| - 1];
      assert xs == ys + [p];
      CardsStayCards(ys);
      forall q | q in Appended([], xs) ensures q.Card? {
        CardOfAppendOne(Appended([], ys), p, q);
      }
    }
  }

  lemma CardOfAppendOne(parts: seq<Part>, p: Part, q: Part)
    requires q in AppendOne(parts, p) && p.Card? && forall x :: x in parts ==> x.Card?
    ensures q.Card?
  {
  }

  /** How often a card was written. */
  function Writes(cards: seq<CardRef>, id: string): nat {
    if cards == [] then 0
    else Writes(cards[..|cards| - 1], id) + if cards[|cards| - 1].cardId == id then 1 else 0
  }

  function LastWrite(cards: seq<CardRef>, id: string): Option<CardRef> {
    if cards == [] then None
    else if cards[|cards| - 1].cardId == id then Some(cards[|cards| - 1])
    else LastWrite(cards[..|cards| - 1], id)
  }

  /** The card as it was written last, its revision the number of its writes. */
  predicate ShowsCard(p: Part, cards: seq<CardRef>) {
    && p.Card? && p.revision == Writes(cards, p.cardId)
    && LastWrite(cards, p.cardId) == Some(CardRef(p.cardId, p.cardType, p.payload))
  }

  ghost predicate ShowsCards(parts: seq<Part>, cards: seq<CardRef>) {
    && WellFormed(parts)
    && (forall p :: p in parts ==> ShowsCard(p, cards))
    && forall id :: LastWrite(cards, id).Some? ==> CardAt(parts, id) >= 0
  }

  /** The cards a turn reports: each it wrote, once, as it was written last, counted. */
  lemma {:induction false} CardsCountTheirWrites(cards: seq<CardRef>)
    ensures ShowsCards(Settled(CardParts(cards)), cards)
  {
    hide Settled, ShowsCards, AppendOne;
    AppendedIsSettled(CardParts(cards));
    if cards == [] {
      NoCards();
    } else {
      var early, c := cards[..|cards| - 1], cards[|cards| - 1];
      CardsCountTheirWrites(early);
      AppendedIsSettled(CardParts(early));
      assert CardParts(cards)[..|cards| - 1] == CardParts(early);
      assert early + [c] == cards;
      CardPushed(Appended([], CardParts(early)), early, c);
    }
  }

  lemma NoCards()
    ensures ShowsCards(Appended([], []), []) && CardParts([]) == []
  {
  }

  /** One more card among cards: its part is the newest, and the others are as they were. */
  lemma CardLands(parts: seq<Part>, c: CardRef)
    requires WellFormed(parts) && forall p :: p in parts ==> p.Card?
    ensures var all, at := AppendOne(parts, CardPart(c)), CardAt(parts, c.cardId);
            var newest := Card(c.cardId, (if at >= 0 then parts[at].revision else 0) + 1, c.cardType, c.payload);
            && (forall p :: p in all ==> p == newest || (p in parts && p.cardId != c.cardId))
            && (forall id :: CardAt(parts, id) >= 0 || id == c.cardId ==> CardAt(all, id) >= 0)
  {
    var all, at := AppendOne(parts, CardPart(c)), CardAt(parts, c.cardId);
    if at >= 0 {
      assert forall k :: 0 <= k < |all| && k != at ==> all[k] == parts[k] && parts[k] in parts;
      assert forall k :: 0 <= k < |parts| && k != at ==> parts[k].cardId != c.cardId;
    } else {
      assert all == parts + [CardPart(c)];
      assert forall p :: p in parts ==> p.cardId != c.cardId;
    }
    forall id | CardAt(parts, id) >= 0 || id == c.cardId ensures CardAt(all, id) >= 0 {
      var k := if id == c.cardId then if at >= 0 then at else |parts| else CardAt(parts, id);
      assert IsCard(all[k], id);
    }
  }

  lemma CardPushed(parts: seq<Part>, early: seq<CardRef>, c: CardRef)
    requires ShowsCards(parts, early)
    ensures ShowsCards(AppendOne(parts, CardPart(c)), early + [c])
  {
    hide AppendOne, WellFormed;
    var cards, all, at := early + [c], AppendOne(parts, CardPart(c)), CardAt(parts, c.cardId);
    assert cards[..|cards| - 1] == early;
    AppendOneKeepsShape(parts, CardPart(c));
    CardLands(parts, c);
    NeverWritten(early, c.cardId);
    forall p | p in all ensures ShowsCard(p, cards) {
      if p in parts && p.cardId != c.cardId {
        assert ShowsCard(p, early);
      } else if at >= 0 {
        assert ShowsCard(parts[at], early);
      }
    }
  }

  lemma {:induction false} NeverWritten(cards: seq<CardRef>, id: string)
    ensures LastWrite(cards, id).None? ==> Writes(cards, id) == 0
  {
    if cards != [] {
      NeverWritten(cards[..|cards| - 1], id);
    }
  }

  function TextOf(e: Ending): Part {
    if e.interrupted then Text(e.text, e.status) else Text(e.text, Complete)
  }

  /** The end of a run, part by part. */
  lemma EndPartsAre(e: Ending)
    ensures EndParts(e) == (if LeavesText(e) then [TextOf(e)] else []) + (if e.asked.Some? then [e.asked.value] else [])
    ensures HasText(EndParts(e)) <==> LeavesText(e) || (e.asked.Some? && e.asked.value.Text?)
  {
    assert LeavesText(e) ==> EndParts(e)[0].Text?;
  }

  lemma NothingSaid(cards: seq<Part>, e: Ending)
    requires LegalEnding(e) && forall p :: p in cards ==> p.Card?
    ensures !HasText(cards) && NoStreaming(EndParts(e))
  {
  }

  /** What a turn reports: its cards, each once, and then how it ended. */
  lemma ReportEndsAs(cards: seq<Part>, e: Ending)
    requires LegalEnding(e) && forall p :: p in cards ==> p.Card?
    ensures EndsAs(Settled(cards + EndParts(e)), Settled(cards), e)
    ensures EndParts(e) != [] <==> LeavesText(e) || e.asked.Some?
    ensures HasText(EndParts(e)) <==> LeavesText(e)
  {
    hide Settled, Appended, EndParts, HasText;
    AppendedIsSettled(cards);
    AppendedIsSettled(cards + EndParts(e));
    CardsStayCards(cards);
    EndPartsAre(e);
    var said := if LeavesText(e) then [TextOf(e)] else [];
    var asked := if e.asked.Some? then [e.asked.value] else [];
    assert cards + (said + asked) == (cards + said) + asked;
    assert cards + [] == cards && (cards + said) + [] == cards + said;
    if LeavesText(e) {
      SettledPushed(cards, TextOf(e));
    }
    if e.asked.Some? {
      SettledPushed(cards + said, e.asked.value);
    }
  }

  /** A turn that settles reports these parts; one that rejects reports nothing. */
  datatype Report = Report(parts: seq<Part>) | Rejected

  /** Tool calls before or at the first stop. */
  function CallsUpTo(events: seq<Event>, n: nat): seq<nat>
    requires n <= |events|
  {
    if n == 0 then []
    else CallsUpTo(events, n - 1) + if events[n - 1].ToolCall? && n - 1 <= StopAt(events) then [n - 1] else []
  }

  lemma {:induction false} CallsAreThose(events: seq<Event>, n: nat)
    requires n <= |events|
    ensures forall a, b :: 0 <= a < b < |CallsUpTo(events, n)| ==> CallsUpTo(events, n)[a] < CallsUpTo(events, n)[b]
    ensures forall i: nat :: i in CallsUpTo(events, n) <==> i < n && events[i].ToolCall? && i <= StopAt(events)
  {
    if n > 0 {
      CallsAreThose(events, n - 1);
      var early := CallsUpTo(events, n - 1);
      assert forall a :: 0 <= a < |early| ==> early[a] in early;
    }
  }

  lemma {:induction false} CallsUpToPrefix(events: seq<Event>, e: Event, n: nat)
    requires n <= |events|
    ensures CallsUpTo(events + [e], n) == CallsUpTo(events, n)
  {
    if n > 0 {
      CallsUpToPrefix(events, e, n - 1);
      StopAtPrefix(events + [e], |events|);
      assert (events + [e])[..|events|] == events;
    }
  }

  lemma StopStep(before: seq<Event>, e: Event)
    ensures var stop, next := StopAt(before), StopAt(before + [e]);
            && (stop < |before| ==> next == stop && (before + [e])[next] == before[stop])
            && (stop == |before| ==> next == if Pauses(e) || Breaks(e) then |before| else |before| + 1)
    ensures CardsRun(before + [e]) ==
            CardsRun(before) +
            if StopAt(before) == |before| && e.ToolCall? && e.outcome.Done? && e.outcome.card.Some?
            then [e.outcome.card.value] else []
  {
    hide Pauses, Breaks;
    var events := before + [e];
    assert events[..|events| - 1] == before;
    assert events[..|before| + 1] == events && events[..|before|] == before;
    StopAtPrefix(events, |before|);
  }

  lemma CardStored(start: Option<seq<Part>>, first: seq<Part>, cards: seq<CardRef>, card: CardRef)
    requires Fresh(start) && !HasText(first)
    ensures StoredAfter(StoredParts(start, first + CardParts(cards)), [CardPart(card)]) ==
            StoredParts(start, first + CardParts(cards + [card]))
  {
    var xs := first + CardParts(cards);
    assert CardParts(cards + [card]) == CardParts(cards) + [CardPart(card)];
    assert first + CardParts(cards + [card]) == xs + [CardPart(card)];
    AppendLands(start, xs, [CardPart(card)]);
  }

  /** The mutable state of a turn as one value; `ran` lists the calls whose body ran. */
  datatype Turn = Turn(paused: Option<nat>, failure: bool, cards: seq<CardRef>, stored: Option<seq<Part>>, ran: seq<nat>)

  /** A tool body that runs: what it changes. */
  function Acted(t: Turn, call: nat, outcome: Outcome, stores: bool): Turn {
    var u := t.(ran := t.ran + [call]);
    match outcome
    case Done(card) =>
      if card.None? then u
      else if stores then
        u.(cards := u.cards + [card.value], stored := StoredAfter(u.stored, [CardPart(card.value)]))
      else u.(cards := u.cards + [card.value], failure := true)
    case Pausing => u.(paused := Some(call))
    case _ => u
  }

  function Returned(outcome: Outcome): Output {
    match outcome
    case Done(_) => Result
    case Failed => ErrorResult
    case Pausing => Prompt
    case Throws => Thrown
  }

  /** The state is what the events so far determine. */
  ghost predicate Follows(t: Turn, events: seq<Event>, start: Option<seq<Part>>, first: seq<Part>) {
    var stop := StopAt(events);
    && (t.paused.Some? <==> stop < |events| && Pauses(events[stop]))
    && (t.failure <==> stop < |events| && Breaks(events[stop]))
    && t.cards == CardsRun(events)
    && (!t.failure ==> t.stored == StoredParts(start, first + CardParts(t.cards)))
    && t.ran == CallsUpTo(events, |events|)
  }

  lemma ActedFollows(t: Turn, before: seq<Event>, outcome: Outcome, stores: bool,
                     start: Option<seq<Part>>, first: seq<Part>)
    requires Follows(t, before, start, first) && t.paused.None? && !t.failure
    requires Fresh(start) && !HasText(first)
    ensures Follows(Acted(t, |before|, outcome, stores), before + [ToolCall(outcome, stores)], start, first)
  {
    var e := ToolCall(outcome, stores);
    StopStep(before, e);
    CallsUpToPrefix(before, e, |before|);
    if outcome.Done? && outcome.card.Some? && stores {
      CardStored(start, first, t.cards, outcome.card.value);
    }
  }

  lemma SkippedFollows(t: Turn, before: seq<Event>, e: Event, start: Option<seq<Part>>, first: seq<Part>)
    requires Follows(t, before, start, first)
    requires e.ToolCall? ==> t.paused.Some? || t.failure
    ensures Follows(if e.StepFinished? && t.paused.None? && !t.failure && !e.saves then t.(failure := true) else t,
                    before + [e], start, first)
  {
    StopStep(before, e);
    CallsUpToPrefix(before, e, |before|);
  }

  class TurnState {
    var paused: Option<nat>
    var failure: bool
    var cards: seq<CardRef>
    var stored: Option<seq<Part>>
    var ran: seq<nat>

    ghost function Value(): Turn
      reads this
    {
      Turn(paused, failure, cards, stored, ran)
    }

    constructor (start: Option<seq<Part>>)
      ensures Value() == Turn(None, false, [], start, [])
    {
      paused, failure, cards, stored, ran := None, false, [], start, [];
    }

    /** One tool call: skipped once the turn stopped, run otherwise. */
    method Execute(call: nat, outcome: Outcome, stores: bool) returns (output: Output)
      modifies this
      ensures var t := old(Value());
              if t.paused.Some? then output == SkippedOpen && Value() == t
              else if t.failure then output == SkippedStore && Value() == t
              else output == Returned(outcome) && Value() == Acted(t, call, outcome, stores)
    {
      if paused.Some? {
        return SkippedOpen;
      }
      if failure {
        return SkippedStore;
      }
      ran := ran + [call];
      match outcome {
        case Done(card) =>
          if card.Some? {
            cards := cards + [card.value];
            if stores {
              stored := StoredAfter(stored, [CardPart(card.value)]);
            } else {
              failure := true;
            }
          }
          output := Result;
        case Failed => output := ErrorResult;
        case Pausing =>
          paused := Some(call);
          output := Prompt;
        case Throws => output := Thrown;
      }
    }

    /** The end of a step saves the history, unless the turn stopped. */
    method FinishStep(saves: bool)
      modifies this
      ensures var t := old(Value());
              Value() == if t.paused.None? && !t.failure && !saves then t.(failure := true) else t
    {
      if paused.None? && !failure && !saves {
        failure := true;
      }
    }

    /** One event of the stream. */
    method Handle(call: nat, ghost before: seq<Event>, e: Event, ghost start: Option<seq<Part>>, ghost first: seq<Part>)
      returns (output: Output)
      requires call == |before| && Follows(Value(), before, start, first) && Fresh(start) && !HasText(first)
      modifies this
      ensures Follows(Value(), before + [e], start, first)
      ensures output == OutputAt(before + [e], StopAt(before), call)
    {
      StopStep(before, e);
      ghost var t := Value();
      match e {
        case StepFinished(saves) =>
          SkippedFollows(t, before, e, start, first);
          FinishStep(saves);
          output := NoCall;
        case ToolCall(outcome, stores) =>
          if paused.Some? || failure {
            SkippedFollows(t, before, e, start, first);
          } else {
            ActedFollows(t, before, outcome, stores, start, first);
          }
          output := Execute(call, outcome, stores);
      }
    }
  }

  /**
   * A whole turn.  A body runs for exactly the calls up to the first pause or
   * failed store, each later call is told why it did not act, the turn rejects
   * exactly when a store refused it, and a turn that settles reports its cards, how it
   * ended and no more, which are the parts its message holds, but for the placeholder
   * a turn without a text leaves behind.
   */
  method RunLoop(start: Option<seq<Part>>, commitFirst: seq<CardRef>, events: seq<Event>, ending: Ending,
                 commitStores: bool, endStores: bool)
    returns (report: Report, stored: Option<seq<Part>>, outputs: seq<Output>, ran: seq<nat>)
    requires Fresh(start) && LegalEnding(ending)
    ensures var stop := StopAt(events);
            var commits := commitStores || commitFirst == [];
            report.Rejected? <==>
            || !commits
            || (stop < |events| && Breaks(events[stop]))
            || (!endStores && (LeavesText(ending) || ending.asked.Some?))
    ensures report.Report? ==>
              && var cards := commitFirst + CardsRun(events);
              && EndsAs(report.parts, Settled(CardParts(cards)), ending) && ShowsCards(Settled(CardParts(cards)), cards)
              && Shows(stored) == report.parts + if LeavesText(ending) then [] else StartParts(start)
    ensures (commitStores || commitFirst == []) ==>
              && RanUpToTheStop(events, ran)
              && |outputs| == |events| && forall i :: 0 <= i < |events| ==> ToldRight(events, i, outputs[i])
  {
    hide ToldRight, RanUpToTheStop, ShowsCards, EndParts, EndsAs, Settled, Appended, CardsRun, CallsUpTo, OutputAt, NoStreaming, StoredAfter, LeavesText;
    report, stored, outputs, ran := Rejected, start, [], [];
    var first := CardParts(commitFirst);
    if commitFirst != [] && !commitStores {
      return;
    }
    var state := new TurnState(start);
    state.stored := StoredAfter(start, first);
    NothingYet(state.Value(), start, first);
    outputs := RunEvents(state, events, start, first);
    stored, ran := state.stored, state.ran;
    ThoseRan(events, ran);
    TellsRight(events, outputs);
    if state.failure {
      return;
    }
    var last := EndParts(ending);
    assert CardParts(commitFirst + state.cards) == first + CardParts(state.cards);
    CardsCountTheirWrites(commitFirst + state.cards);
    ReportEndsAs(first + CardParts(state.cards), ending);
    NothingSaid(first + CardParts(state.cards), ending);
    if last != [] && !endStores {
      return;
    }
    var xs := first + CardParts(state.cards);
    AppendLands(start, xs, last);
    stored := StoredAfter(stored, last);
    var parts := AppendParts([], xs + last);
    report := Report(parts);
    LiveAndReloadAgree(start, xs, last);
  }

  lemma ThoseRan(events: seq<Event>, ran: seq<nat>)
    requires ran == CallsUpTo(events, |events|)
    ensures RanUpToTheStop(events, ran)
  {
    CallsAreThose(events, |events|);
  }

  lemma TellsRight(events: seq<Event>, outputs: seq<Output>)
    requires |outputs| == |events| && forall i :: 0 <= i < |events| ==> outputs[i] == OutputAt(events, StopAt(events), i)
    ensures forall i :: 0 <= i < |events| ==> ToldRight(events, i, outputs[i])
  {
  }

  lemma NothingYet(t: Turn, start: Option<seq<Part>>, first: seq<Part>)
    requires Fresh(start) && !HasText(first)
    requires t == Turn(None, false, [], StoredAfter(start, first), [])
    ensures Follows(t, [], start, first)
  {
    AppendLands(start, [], first);
    assert [] + first == first && first + CardParts([]) == first;
  }

  /** The serial chain: every event handled after the one before it. */
  method RunEvents(state: TurnState, events: seq<Event>, ghost start: Option<seq<Part>>, ghost first: seq<Part>)
    returns (outputs: seq<Output>)
    requires Follows(state.Value(), [], start, first) && Fresh(start) && !HasText(first)
    modifies state
    ensures Follows(state.Value(), events, start, first)
    ensures |outputs| == |events|
    ensures forall j :: 0 <= j < |events| ==> outputs[j] == OutputAt(events, StopAt(events), j)
  {
    hide Follows, OutputAt;
    outputs := [];
    assert events[..0] == [];
    for i := 0 to |events|
      invariant Follows(state.Value(), events[..i], start, first)
      invariant |outputs| == i
      invariant forall j :: 0 <= j < i ==> outputs[j] == OutputAt(events, StopAt(events), j)
    {
      assert events[..i] + [events[i]] == events[..i + 1];
      var output := state.Handle(i, events[..i], events[i], start, first);
      OutputStands(events, i);
      outputs := outputs + [output];
    }
    assert events[..|events|] == events;
  }

  /** What a call returned does not depend on what comes after it. */
  lemma OutputStands(events: seq<Event>, i: nat)
    requires i < |events|
    ensures OutputAt(events[..i] + [events[i]], StopAt(events[..i]), i) == OutputAt(events, StopAt(events), i)
  {
    StopAtPrefix(events, i);
    var stop := StopAt(events);
    assert stop < i ==> (events[..i] + [events[i]])[stop] == events[stop];
  }

  /** One fold reported, many appends stored: the same parts. */
  lemma LiveAndReloadAgree(start: Option<seq<Part>>, cards: seq<Part>, last: seq<Part>)
    requires Fresh(start) && !HasText(cards) && NoStreaming(last)
    ensures Shows(StoredParts(start, cards + last)) ==
            Settled(cards + last) + if HasText(last) then [] else StartParts(start)
  {
    var xs := cards + last;
    AppendedIsSettled(xs);
    assert HasText(xs) <==> HasText(last);
    if start.Some? {
      assert start.value == [start.value[0]];
      PlaceholderTransparent(start.value[0], xs);
    }
  }
}
