/**
 * The pause protocol (packages/assistant-kit/src/create-kit.ts).
 *
 * An operation is a read, a decision, and one compare-and-set, each a step of its
 * own: any number of operations interleave between them, the clock moves, and the
 * store may drop a key whose time to live ran out.  A run is any sequence of
 * steps.  Every accepted write leaves an event in `history`, which no operation
 * reads; what the protocol promises is said about it.
 */
module PauseProtocol {
  import opened Wrappers
  import opened PauseStore

  const ABANDON_HOLD_MS := 10_000

  /** One registered kind of interaction; None refuses a prompt, answer or pair. */
  datatype Kind = Kind(
    ttlMs: nat,
    prompt: string -> Option<string>,
    answer: string -> Option<string>,
    resolve: (string, string) -> Option<string>)

  type Registry = string -> Option<Kind>

  datatype Call =
    | OpenCall(record: Record)
    | ClaimCall(conversation: string, bind: string, id: nat, revision: nat, answer: string)
    | ReviseCall(conversation: string, bind: string, id: nat, kind: string, prompt: string, secret: string,
                 continuation: string)
    | AbandonCall(conversation: string, bind: string, id: nat)
    | ReleaseCall(conversation: string, bind: string, id: nat)

  datatype Result =
    | OpenedResult(pause: Record)
    | AlreadyOpen(current: Record)
    | ClaimedResult(record: Record, value: string)
    | Released
    | CancelledResult
    | AlreadyClaimed
    | Gone
    | TooLate
    | Stale(current: Record)
    | UnknownKind
    | InvalidPrompt
    | InvalidAnswer
    | Unresolvable

  datatype Phase =
    | Reading(left: nat)
    | Deciding(left: nat, raw: Option<Raw>)
    | Putting(left: nat, expected: Option<Record>, next: Record, value: string, decidedAt: int)
    | LastReading
    | LastDeciding(raw: Option<Raw>)
    | Holding(cancelled: Record)
    | Finished(result: Result)

  datatype Op = Op(call: Call, phase: Phase)

  datatype Event =
    | Opened(op: nat, after: Record, displaced: Option<Raw>, at: int)
    | Revised(op: nat, before: Record, after: Record)
    | Claims(op: nat, call: Call, before: Record, value: string, decidedAt: int, at: int)
    | Releases(op: nat, before: Record)
    | Cancels(op: nat, before: Record, after: Record)
    | Deletes(op: nat, removed: Record)
    | TurnBegan(conversation: string, token: nat)
    | TurnEnded(conversation: string, token: nat)
    | TurnLapsed(conversation: string)

  datatype State = State(entries: Entries, ops: seq<Op>, now: int, nextId: nat, history: seq<Event>)

  datatype Step =
    | StartOpen(conversation: string, bind: string, kind: string, prompt: string, secret: string, continuation: string)
    | Start(call: Call)
    | Read(op: nat)
    | Decide(op: nat)
    | Put(op: nat)
    | Delete(op: nat)
    | Tick(ms: nat)
    | Evict(key: Key)
    | BeginTurn(conversation: string)
    | EndTurn(conversation: string, token: nat)

  // ------------------------------------------------------------ the pure parts

  predicate IsExpired(record: Record, now: int) {
    now >= record.expiresAt
  }

  predicate HoldsTheSlot(record: Record, now: int) {
    (record.status == Open || record.status == Cancelled) && !IsExpired(record, now)
  }

  /** Bytes that do not parse are read as no pause. */
  function Decode(raw: Option<Raw>): Option<Record> {
    if raw.Some? && raw.value.Encoded? then Some(raw.value.record) else None
  }

  /** A record of another owner is read as no pause. */
  function Scoped(raw: Option<Raw>, bind: string): Option<Record> {
    var record := Decode(raw);
    if record.Some? && record.value.bind == bind then record else None
  }

  datatype Built = BuiltRecord(record: Record) | Refused(result: Result)

  function Build(reg: Registry, conversation: string, bind: string, kind: string, prompt: string, secret: string,
                 continuation: string, id: nat, revision: nat, now: int): Built
  {
    match reg(kind)
    case None => Refused(UnknownKind)
    case Some(k) =>
      match k.prompt(prompt)
      case None => Refused(InvalidPrompt)
      case Some(parsed) =>
        BuiltRecord(Record(kind, bind, id, revision, conversation, Open, continuation, parsed, secret, now + k.ttlMs))
  }

  /** What the kind makes of an answer to a record, or why it does not. */
  function Resolve(reg: Registry, record: Record, answer: string): Result {
    match reg(record.kind)
    case None => UnknownKind
    case Some(k) =>
      match k.answer(answer)
      case None => InvalidAnswer
      case Some(parsed) =>
        match k.resolve(parsed, record.secret)
        case None => Unresolvable
        case Some(value) => ClaimedResult(record.(status := Claimed), value)
  }

  datatype Decision = Answer(result: Result) | Propose(expected: Option<Record>, next: Record, value: string)

  function Min(a: int, b: int): int {
    if a < b then a else b
  }

  function CancelledFrom(record: Record, now: int): Record {
    record.(status := Cancelled, expiresAt := Min(record.expiresAt, now + ABANDON_HOLD_MS))
  }

  /** What an operation does with what it read. */
  function DecideOn(reg: Registry, call: Call, raw: Option<Raw>, now: int): Decision {
    match call
    case OpenCall(record) =>
      (match Decode(raw)
       case None => Propose(None, record, "")
       case Some(existing) =>
         if HoldsTheSlot(existing, now) then Answer(AlreadyOpen(existing)) else Propose(Some(existing), record, ""))
    case ClaimCall(_, bind, id, revision, answer) =>
      (match Scoped(raw, bind)
       case None => Answer(Gone)
       case Some(record) =>
         if record.interactionId != id || record.status != Open then Answer(Gone)
         else if IsExpired(record, now) then Answer(TooLate)
         else if record.revision != revision then Answer(Stale(record))
         else
           var resolved := Resolve(reg, record, answer);
           if resolved.ClaimedResult? then Propose(Some(record), resolved.record, resolved.value) else Answer(resolved))
    case ReviseCall(conversation, bind, id, kind, prompt, secret, continuation) =>
      (match Scoped(raw, bind)
       case None => Answer(Gone)
       case Some(record) =>
         if record.interactionId != id || record.status != Open then Answer(Gone)
         else match Build(reg, conversation, bind, kind, prompt, secret, continuation, id, record.revision + 1, now)
           case Refused(result) => Answer(result)
           case BuiltRecord(next) => Propose(Some(record), next, ""))
    case AbandonCall(_, bind, id) =>
      (match Scoped(raw, bind)
       case None => Answer(Gone)
       case Some(record) =>
         if record.interactionId != id then Answer(Gone)
         else if record.status == Claimed then Answer(AlreadyClaimed)
         else if record.status != Open then Answer(Gone)
         else Propose(Some(record), CancelledFrom(record, now), ""))
    case ReleaseCall(_, bind, id) =>
      (match Scoped(raw, bind)
       case None => Answer(Gone)
       case Some(record) =>
         if record.interactionId != id || record.status != Claimed then Answer(Gone)
         else Propose(Some(record), record.(status := Open), ""))
  }

  function Conversation(call: Call): string {
    if call.OpenCall? then call.record.conversation else call.conversation
  }

  function FirstPhase(call: Call): Phase {
    Reading(if call.OpenCall? || call.AbandonCall? then 1 else 0)
  }

  /** Where an operation goes once its compare-and-set was accepted. */
  function AfterWin(call: Call, next: Record, value: string): Phase {
    match call
    case OpenCall(_) => Finished(OpenedResult(next))
    case ClaimCall(_, _, _, _, _) => Finished(ClaimedResult(next, value))
    case ReviseCall(_, _, _, _, _, _, _) => Finished(OpenedResult(next))
    case AbandonCall(_, _, _) => Holding(next)
    case ReleaseCall(_, _, _) => Finished(Released)
  }

  /** Where it goes once it was refused: open and abandon read once more. */
  function AfterLoss(call: Call, left: nat, expected: Option<Record>): Phase {
    match call
    case OpenCall(_) => if left > 0 then Reading(left - 1) else LastReading
    case AbandonCall(_, _, _) => if left > 0 then Reading(left - 1) else LastReading
    case ReviseCall(_, _, _, _, _, _, _) => Finished(if expected.Some? then AlreadyOpen(expected.value) else Gone)
    case _ => Finished(Gone)
  }

  function LastAnswer(call: Call, raw: Option<Raw>): Result {
    match call
    case OpenCall(record) => AlreadyOpen(if Decode(raw).Some? then Decode(raw).value else record)
    case AbandonCall(_, bind, id) =>
      var last := Scoped(raw, bind);
      if last.None? || last.value.interactionId != id then Gone else AlreadyClaimed
    case _ => Gone
  }

  // -------------------------------------------------------------- one step

  predicate Accepts(entries: Entries, key: Key, expected: Option<Record>) {
    Takes(entries, key, if expected.Some? then Some(Encoded(expected.value)) else None)
  }

  /** The event an accepted write leaves; `held` is what the store held. */
  function EventOf(i: nat, call: Call, held: Option<Raw>, ph: Phase, now: int): Event
    requires ph.Putting?
    requires !call.OpenCall? ==> held.Some? && held.value.Encoded?
  {
    match call
    case OpenCall(_) => Opened(i, ph.next, held, now)
    case ClaimCall(_, _, _, _, _) => Claims(i, call, held.value.record, ph.value, ph.decidedAt, now)
    case ReviseCall(_, _, _, _, _, _, _) => Revised(i, held.value.record, ph.next)
    case AbandonCall(_, _, _) => Cancels(i, held.value.record, ph.next)
    case ReleaseCall(_, _, _) => Releases(i, held.value.record)
  }

  function SetPhase(s: State, i: nat, phase: Phase): State
    requires i < |s.ops|
  {
    s.(ops := s.ops[i := s.ops[i].(phase := phase)])
  }

  /** The compare-and-set, and its event; only an open may fill an empty key. */
  function PutStep(s: State, i: nat): State
    requires i < |s.ops| && s.ops[i].phase.Putting?
  {
    var call, ph := s.ops[i].call, s.ops[i].phase;
    var key := PauseKey(Conversation(call));
    if Accepts(s.entries, key, ph.expected) && (call.OpenCall? || ph.expected.Some?) then
      SetPhase(s, i, AfterWin(call, ph.next, ph.value))
      .(entries := s.entries[key := Encoded(ph.next)],
        history := s.history + [EventOf(i, call, Get(s.entries, key), ph, s.now)])
    else
      SetPhase(s, i, AfterLoss(call, ph.left, ph.expected))
  }

  function DeleteStep(s: State, i: nat): State
    requires i < |s.ops| && s.ops[i].phase.Holding?
  {
    var cancelled := s.ops[i].phase.cancelled;
    var key := PauseKey(Conversation(s.ops[i].call));
    var done := SetPhase(s, i, Finished(CancelledResult));
    if Holds(s.entries, key, Encoded(cancelled)) then
      done.(entries := s.entries - {key}, history := s.history + [Deletes(i, cancelled)])
    else done
  }

  function ReadStep(s: State, i: nat): State
    requires i < |s.ops|
  {
    var raw := Get(s.entries, PauseKey(Conversation(s.ops[i].call)));
    match s.ops[i].phase
    case Reading(left) => SetPhase(s, i, Deciding(left, raw))
    case LastReading => SetPhase(s, i, LastDeciding(raw))
    case _ => s
  }

  function DecideStep(reg: Registry, s: State, i: nat): State
    requires i < |s.ops|
  {
    match s.ops[i].phase
    case Deciding(left, raw) =>
      (match DecideOn(reg, s.ops[i].call, raw, s.now)
       case Answer(result) => SetPhase(s, i, Finished(result))
       case Propose(expected, next, value) => SetPhase(s, i, Putting(left, expected, next, value, s.now)))
    case LastDeciding(raw) => SetPhase(s, i, Finished(LastAnswer(s.ops[i].call, raw)))
    case _ => s
  }

  function StartOpenStep(reg: Registry, s: State, step: Step): State
    requires step.StartOpen?
  {
    var built := Build(reg, step.conversation, step.bind, step.kind, step.prompt, step.secret, step.continuation,
                       s.nextId, 1, s.now);
    match built
    case Refused(_) => s.(nextId := s.nextId + 1)
    case BuiltRecord(record) =>
      var call := OpenCall(record);
      s.(ops := s.ops + [Op(call, FirstPhase(call))], nextId := s.nextId + 1)
  }

  function EvictStep(s: State, key: Key): State {
    if key !in s.entries then s
    else s.(entries := s.entries - {key},
            history := if key.TurnKey? then s.history + [TurnLapsed(key.conversation)] else s.history)
  }

  function BeginStep(s: State, conversation: string): State {
    var key := TurnKey(conversation);
    var next := s.(nextId := s.nextId + 1);
    if key in s.entries then next
    else next.(entries := s.entries[key := Token(s.nextId)], history := s.history + [TurnBegan(conversation, s.nextId)])
  }

  function EndStep(s: State, conversation: string, token: nat): State {
    var key := TurnKey(conversation);
    if !Holds(s.entries, key, Token(token)) then s
    else s.(entries := s.entries - {key}, history := s.history + [TurnEnded(conversation, token)])
  }

  function Apply(reg: Registry, s: State, step: Step): State {
    match step
    case StartOpen(_, _, _, _, _, _) => StartOpenStep(reg, s, step)
    case Start(call) => if call.OpenCall? then s else s.(ops := s.ops + [Op(call, FirstPhase(call))])
    case Read(i) => if i < |s.ops| then ReadStep(s, i) else s
    case Decide(i) => if i < |s.ops| then DecideStep(reg, s, i) else s
    case Put(i) => if i < |s.ops| && s.ops[i].phase.Putting? then PutStep(s, i) else s
    case Delete(i) => if i < |s.ops| && s.ops[i].phase.Holding? then DeleteStep(s, i) else s
    case Tick(ms) => s.(now := s.now + ms)
    case Evict(key) => EvictStep(s, key)
    case BeginTurn(conversation) => BeginStep(s, conversation)
    case EndTurn(conversation, token) => EndStep(s, conversation, token)
  }

  function Run(reg: Registry, s: State, steps: seq<Step>): State {
    if steps == [] then s else Apply(reg, Run(reg, s, steps[..|steps| - 1]), steps[|steps| - 1])
  }

  /** A store that holds at most bytes no build can read, and nobody at work. */
  ghost predicate Initial(s: State) {
    && s.ops == [] && s.history == []
    && forall key :: key in s.entries ==> key.PauseKey? && s.entries[key].Unreadable?
  }

  // ------------------------------------------------------------- counting events

  datatype Tag = OpenTag | ClaimTag | ReviseTag | ReleaseTag | CancelTag

  predicate Tagged(e: Event, tag: Tag, id: nat) {
    match e
    case Opened(_, after, _, _) => tag == OpenTag && after.interactionId == id
    case Revised(_, before, _) => tag == ReviseTag && before.interactionId == id
    case Claims(_, _, before, _, _, _) => tag == ClaimTag && before.interactionId == id
    case Releases(_, before) => tag == ReleaseTag && before.interactionId == id
    case Cancels(_, before, _) => tag == CancelTag && before.interactionId == id
    case _ => false
  }

  function Count(h: seq<Event>, tag: Tag, id: nat): nat {
    if h == [] then 0
    else Count(h[..|h| - 1], tag, id) + if Tagged(h[|h| - 1], tag, id) then 1 else 0
  }

  lemma CountPushed(h: seq<Event>, e: Event)
    ensures forall tag, id :: Count(h + [e], tag, id) == Count(h, tag, id) + if Tagged(e, tag, id) then 1 else 0
  {
    assert (h + [e])[..|h + [e]| - 1] == h;
  }

  lemma {:induction false} CountZero(h: seq<Event>, tag: Tag, id: nat)
    requires Count(h, tag, id) == 0
    ensures forall i :: 0 <= i < |h| ==> !Tagged(h[i], tag, id)
  {
    if h != [] {
      CountZero(h[..|h| - 1], tag, id);
      assert forall i :: 0 <= i < |h| - 1 ==> h[i] == h[..|h| - 1][i];
    }
  }

  // ------------------------------------------------------------------ invariant

  /** What the history says of a record the store holds. */
  ghost predicate RecordOk(h: seq<Event>, conversation: string, r: Record) {
    var id := r.interactionId;
    && r.conversation == conversation
    && Count(h, OpenTag, id) == 1
    && r.revision == 1 + Count(h, ReviseTag, id)
    && (r.status == Open || r.status == Claimed || r.status == Cancelled)
    && Count(h, ClaimTag, id) - Count(h, ReleaseTag, id) == (if r.status == Claimed then 1 else 0)
    && Count(h, CancelTag, id) == (if r.status == Cancelled then 1 else 0)
  }

  ghost predicate StoreOk(s: State) {
    && (forall key :: key in s.entries ==>
          match s.entries[key] {
            case Unreadable(_) => key.PauseKey?
            case Token(token) => key.TurnKey? && token < s.nextId
            case Encoded(r) => key.PauseKey? && r.interactionId < s.nextId && RecordOk(s.history, key.conversation, r)
          })
    && (forall k, l | k in s.entries && l in s.entries && s.entries[k].Encoded? && s.entries[l].Encoded? ::
          s.entries[k].record.interactionId == s.entries[l].record.interactionId ==> k == l)
  }

  /** The whole life of one interaction, as the history counts it. */
  ghost predicate Balanced(h: seq<Event>, id: nat) {
    && Count(h, OpenTag, id) <= 1
    && Count(h, CancelTag, id) <= 1
    && Count(h, ReleaseTag, id) <= Count(h, ClaimTag, id) <= Count(h, ReleaseTag, id) + 1
    && (Count(h, OpenTag, id) == 0 ==>
          Count(h, ClaimTag, id) == Count(h, ReviseTag, id) == Count(h, ReleaseTag, id) == Count(h, CancelTag, id) == 0)
  }

  ghost predicate CountsOk(s: State) {
    && (forall id :: Balanced(s.history, id))
    && (forall id :: id >= s.nextId ==> Count(s.history, OpenTag, id) == 0)
  }

  /** An operation in flight has done only what its own reads and decisions allow. */
  ghost predicate OpOk(reg: Registry, s: State, i: nat)
    requires i < |s.ops|
  {
    var op := s.ops[i];
    && (op.call.OpenCall? ==>
          && op.call.record.interactionId < s.nextId
          && op.call.record.revision == 1 && op.call.record.status == Open
          && !op.phase.Holding?
          && (!op.phase.Finished? ==> Count(s.history, OpenTag, op.call.record.interactionId) == 0))
    && (op.phase.Putting? ==>
          && op.phase.decidedAt <= s.now
          && exists raw :: DecideOn(reg, op.call, raw, op.phase.decidedAt) ==
                           Propose(op.phase.expected, op.phase.next, op.phase.value))
    && (op.phase.Holding? ==>
          exists before :: Cancels(i, before, op.phase.cancelled) in s.history)
  }

  ghost predicate OpsOk(reg: Registry, s: State) {
    && (forall i :: 0 <= i < |s.ops| ==> OpOk(reg, s, i))
    && (forall i, j :: 0 <= i < j < |s.ops| && s.ops[i].call.OpenCall? && s.ops[j].call.OpenCall? ==>
          s.ops[i].call.record.interactionId != s.ops[j].call.record.interactionId)
  }

  /** What every accepted write found in the store at the moment it was accepted. */
  ghost predicate EventOk(reg: Registry, e: Event) {
    match e
    case Opened(_, after, displaced, at) =>
      && after.revision == 1 && after.status == Open
      && (displaced.Some? ==> displaced.value.Encoded? && !HoldsTheSlot(displaced.value.record, at))
    case Claims(_, call, before, value, decidedAt, at) =>
      && call.ClaimCall?
      && before.status == Open && before.bind == call.bind && before.interactionId == call.id
      && before.revision == call.revision
      && decidedAt <= at && decidedAt < before.expiresAt
      && Resolve(reg, before, call.answer) == ClaimedResult(before.(status := Claimed), value)
    case Revised(_, before, after) =>
      && before.status == Open && after.status == Open
      && after.interactionId == before.interactionId && after.bind == before.bind
      && after.revision == before.revision + 1
    case Releases(_, before) => before.status == Claimed
    case Cancels(_, before, after) =>
      && before.status == Open
      && after.status == Cancelled && after.expiresAt <= before.expiresAt
      && after == before.(status := Cancelled, expiresAt := after.expiresAt)
    case Deletes(_, removed) => removed.status == Cancelled
    case _ => true
  }

  /** After a cancel nothing is opened, claimed, revised, released or cancelled again. */
  ghost predicate CancelIsFinal(h: seq<Event>) {
    forall i, j, tag, id :: 0 <= i < j < |h| && Tagged(h[i], CancelTag, id) ==> !Tagged(h[j], tag, id)
  }

  /** A delete removes what the same operation wrote when it cancelled. */
  ghost predicate DeletesOwn(h: seq<Event>) {
    forall j :: 0 <= j < |h| && h[j].Deletes? ==>
      exists i, before :: 0 <= i < j && h[i] == Cancels(h[j].op, before, h[j].removed)
  }

  ghost predicate Inv(reg: Registry, s: State) {
    && StoreOk(s)
    && CountsOk(s)
    && OpsOk(reg, s)
    && (forall e :: e in s.history ==> EventOk(reg, e))
    && CancelIsFinal(s.history)
    && DeletesOwn(s.history)
  }

  // ------------------------------------------------- each kind of write keeps it

  /** One event more, with nothing said of any other interaction. */
  lemma HistoryGrows(h: seq<Event>, e: Event)
    requires CancelIsFinal(h) && DeletesOwn(h)
    requires forall tag, id :: Tagged(e, tag, id) ==> Count(h, CancelTag, id) == 0
    requires e.Deletes? ==> exists before :: Cancels(e.op, before, e.removed) in h
    ensures CancelIsFinal(h + [e]) && DeletesOwn(h + [e])
  {
    var g := h + [e];
    forall i, j, tag, id | 0 <= i < j < |g| && Tagged(g[i], CancelTag, id)
      ensures !Tagged(g[j], tag, id)
    {
      if j == |h| && Tagged(e, tag, id) {
        CountZero(h, CancelTag, id);
      }
    }
    forall j | 0 <= j < |g| && g[j].Deletes?
      ensures exists i, before :: 0 <= i < j && g[i] == Cancels(g[j].op, before, g[j].removed)
    {
      if j < |h| {
        var i, before :| 0 <= i < j && h[i] == Cancels(h[j].op, before, h[j].removed);
        assert g[i] == Cancels(g[j].op, before, g[j].removed);
      } else {
        var before :| Cancels(e.op, before, e.removed) in h;
        var i :| 0 <= i < |h| && h[i] == Cancels(e.op, before, e.removed);
        assert g[i] == Cancels(e.op, before, e.removed);
      }
    }
  }

  /** An event of another interaction, or of none, changes no count. */
  lemma Elsewhere(h: seq<Event>, e: Event, id: nat)
    requires forall tag :: !Tagged(e, tag, id)
    ensures forall tag :: Count(h + [e], tag, id) == Count(h, tag, id)
    ensures Balanced(h, id) ==> Balanced(h + [e], id)
    ensures forall c, r :: RecordOk(h, c, r) && r.interactionId == id ==> RecordOk(h + [e], c, r)
  {
    CountPushed(h, e);
  }

  /** A record put where the store held one of the same interaction, or none. */
  lemma StoreUpdated(s: State, key: Key, next: Record, e: Event, t: State)
    requires StoreOk(s) && CountsOk(s)
    requires key.PauseKey?
    requires t.entries == s.entries[key := Encoded(next)] && t.history == s.history + [e] && t.nextId == s.nextId
    requires forall tag, id :: Tagged(e, tag, id) ==> id == next.interactionId
    requires next.interactionId < s.nextId
    requires RecordOk(t.history, key.conversation, next)
    requires Balanced(t.history, next.interactionId)
    requires Count(s.history, OpenTag, next.interactionId) == 0
             || (key in s.entries && s.entries[key].Encoded? && s.entries[key].record.interactionId == next.interactionId)
    ensures StoreOk(t) && CountsOk(t)
  {
    forall id: nat | id != next.interactionId
      ensures Balanced(t.history, id) && Count(t.history, OpenTag, id) == Count(s.history, OpenTag, id)
    {
      assert Balanced(s.history, id);
      Elsewhere(s.history, e, id);
    }
    forall k | k in t.entries && k != key && t.entries[k].Encoded?
      ensures RecordOk(t.history, k.conversation, t.entries[k].record)
      ensures t.entries[k].record.interactionId != next.interactionId
    {
      assert k in s.entries && s.entries[k] == t.entries[k];
      Elsewhere(s.history, e, t.entries[k].record.interactionId);
    }
  }

  ghost predicate NoInteraction(e: Event) {
    forall tag, id :: !Tagged(e, tag, id)
  }

  /** Entries dropped or a token added, with an event of no interaction. */
  lemma StoreKept(s: State, e: Event, t: State)
    requires StoreOk(s) && CountsOk(s) && NoInteraction(e)
    requires t.history == s.history + [e] && s.nextId <= t.nextId
    requires forall k :: k in t.entries ==>
               || (k in s.entries && t.entries[k] == s.entries[k])
               || (k.TurnKey? && t.entries[k].Token? && t.entries[k].token < t.nextId)
    ensures StoreOk(t) && CountsOk(t)
  {
    forall id: nat
      ensures Balanced(t.history, id) && Count(t.history, OpenTag, id) == Count(s.history, OpenTag, id)
    {
      assert Balanced(s.history, id);
      Elsewhere(s.history, e, id);
    }
    forall k | k in t.entries && t.entries[k].Encoded?
      ensures RecordOk(t.history, k.conversation, t.entries[k].record)
    {
      Elsewhere(s.history, e, t.entries[k].record.interactionId);
    }
  }

  /** An accepted compare-and-set, taken apart. */
  lemma PutFound(reg: Registry, s: State, i: nat)
    requires Inv(reg, s) && i < |s.ops| && s.ops[i].phase.Putting?
    requires PutStep(s, i).history != s.history
    ensures var call, ph, t := s.ops[i].call, s.ops[i].phase, PutStep(s, i);
            var key, id := PauseKey(Conversation(call)), ph.next.interactionId;
            && id < s.nextId
            && (if call.OpenCall? then Count(s.history, OpenTag, id) == 0 && ph.next == call.record
                else key in s.entries && s.entries[key].Encoded? && s.entries[key].record.interactionId == id)
            && Count(s.history, CancelTag, id) == 0
            && (forall tag, other :: Tagged(EventOf(i, call, Get(s.entries, key), ph, s.now), tag, other) ==> other == id)
            && EventOk(reg, EventOf(i, call, Get(s.entries, key), ph, s.now))
  {
    hide CancelIsFinal, DeletesOwn;
    var call, ph := s.ops[i].call, s.ops[i].phase;
    var key := PauseKey(Conversation(call));
    assert OpOk(reg, s, i);
    var raw :| DecideOn(reg, call, raw, ph.decidedAt) == Propose(ph.expected, ph.next, ph.value);
    assert Balanced(s.history, ph.next.interactionId);
  }

  lemma OpenBalances(h: seq<Event>, e: Event, record: Record)
    requires Balanced(h, record.interactionId) && Count(h, OpenTag, record.interactionId) == 0
    requires e.Opened? && e.after == record && record.revision == 1 && record.status == Open
    ensures RecordOk(h + [e], record.conversation, record) && Balanced(h + [e], record.interactionId)
  {
    CountPushed(h, e);
  }

  /** The tag of a write of a record of some status, and the status it leaves. */
  ghost predicate LegalWrite(tag: Tag, before: Record, next: Record) {
    && next.interactionId == before.interactionId && next.conversation == before.conversation
    && next.revision == before.revision + (if tag == ReviseTag then 1 else 0)
    && match tag {
      case OpenTag => false
      case ClaimTag => before.status == Open && next.status == Claimed
      case ReviseTag => before.status == Open && next.status == Open
      case ReleaseTag => before.status == Claimed && next.status == Open
      case CancelTag => before.status == Open && next.status == Cancelled
    }
  }

  lemma WriteBalances(h: seq<Event>, e: Event, tag: Tag, before: Record, next: Record)
    requires RecordOk(h, before.conversation, before) && Balanced(h, before.interactionId)
    requires Tagged(e, tag, before.interactionId) && LegalWrite(tag, before, next)
    ensures RecordOk(h + [e], before.conversation, next) && Balanced(h + [e], before.interactionId)
  {
    CountPushed(h, e);
  }

  function TagOf(call: Call): Tag {
    match call
    case OpenCall(_) => OpenTag
    case ClaimCall(_, _, _, _, _) => ClaimTag
    case ReviseCall(_, _, _, _, _, _, _) => ReviseTag
    case AbandonCall(_, _, _) => CancelTag
    case ReleaseCall(_, _, _) => ReleaseTag
  }

  /** What an operation proposes over what it read is a legal write. */
  lemma DecidedWrite(reg: Registry, call: Call, raw: Option<Raw>, at: int)
    requires !call.OpenCall? && DecideOn(reg, call, raw, at).Propose?
    ensures var d := DecideOn(reg, call, raw, at);
            && d.expected.Some?
            && d.next.interactionId == d.expected.value.interactionId
            && d.next.revision == d.expected.value.revision + (if call.ReviseCall? then 1 else 0)
            && (d.expected.value.conversation == call.conversation ==> LegalWrite(TagOf(call), d.expected.value, d.next))
  {
  }

  lemma PutBalances(reg: Registry, s: State, i: nat)
    requires Inv(reg, s) && i < |s.ops| && s.ops[i].phase.Putting?
    requires PutStep(s, i).history != s.history
    ensures var call, ph, t := s.ops[i].call, s.ops[i].phase, PutStep(s, i);
            RecordOk(t.history, Conversation(call), ph.next) && Balanced(t.history, ph.next.interactionId)
  {
    var call, ph := s.ops[i].call, s.ops[i].phase;
    var key := PauseKey(Conversation(call));
    assert OpOk(reg, s, i);
    var raw :| DecideOn(reg, call, raw, ph.decidedAt) == Propose(ph.expected, ph.next, ph.value);
    assert Balanced(s.history, ph.next.interactionId);
    var e := EventOf(i, call, Get(s.entries, key), ph, s.now);
    PutFound(reg, s, i);
    if call.OpenCall? {
      OpenBalances(s.history, e, ph.next);
    } else {
      DecidedWrite(reg, call, raw, ph.decidedAt);
      WriteBalances(s.history, e, TagOf(call), ph.expected.value, ph.next);
    }
  }

  /** An accepted compare-and-set keeps the invariant. */
  lemma PutKeeps(reg: Registry, s: State, i: nat)
    requires Inv(reg, s) && i < |s.ops| && s.ops[i].phase.Putting?
    requires PutStep(s, i).history != s.history
    ensures Inv(reg, PutStep(s, i))
  {
    var call, ph := s.ops[i].call, s.ops[i].phase;
    var key := PauseKey(Conversation(call));
    var t := PutStep(s, i);
    var e := EventOf(i, call, Get(s.entries, key), ph, s.now);
    PutFound(reg, s, i);
    PutBalances(reg, s, i);
    StoreUpdated(s, key, ph.next, e, t);
    HistoryGrows(s.history, e);
    forall j | 0 <= j < |t.ops| ensures OpOk(reg, t, j) {
      OtherOpOk(reg, s, i, e, t, j);
    }
  }

  /** An accepted write of operation i leaves every operation in order. */
  lemma OtherOpOk(reg: Registry, s: State, i: nat, e: Event, t: State, j: nat)
    requires i < |s.ops| && j < |s.ops| && OpsOk(reg, s) && s.ops[i].phase.Putting?
    requires t == PutStep(s, i) && t.history == s.history + [e]
    requires e == EventOf(i, s.ops[i].call, Get(s.entries, PauseKey(Conversation(s.ops[i].call))), s.ops[i].phase, s.now)
    requires forall id :: Tagged(e, OpenTag, id) ==> s.ops[i].call.OpenCall? && id == s.ops[i].call.record.interactionId
    ensures OpOk(reg, t, j)
  {
    assert OpOk(reg, s, j) && OpOk(reg, s, i);
    CountPushed(s.history, e);
    if j == i {
      assert t.ops[i].phase.Holding? ==> e in t.history;
    } else {
      assert t.ops[j] == s.ops[j];
      if s.ops[j].phase.Holding? {
        var before :| Cancels(j, before, s.ops[j].phase.cancelled) in s.history;
        assert Cancels(j, before, s.ops[j].phase.cancelled) in t.history;
      }
      if s.ops[j].phase.Putting? {
        var ph := s.ops[j].phase;
        var raw :| DecideOn(reg, s.ops[j].call, raw, ph.decidedAt) == Propose(ph.expected, ph.next, ph.value);
        assert DecideOn(reg, t.ops[j].call, raw, ph.decidedAt) == Propose(ph.expected, ph.next, ph.value);
      }
      if s.ops[j].call.OpenCall? && s.ops[i].call.OpenCall? {
        assert s.ops[i].call.record.interactionId != s.ops[j].call.record.interactionId;
      }
    }
  }

  lemma DeleteKeeps(reg: Registry, s: State, i: nat)
    requires Inv(reg, s) && i < |s.ops| && s.ops[i].phase.Holding?
    ensures Inv(reg, DeleteStep(s, i))
  {
    var t := DeleteStep(s, i);
    var cancelled := s.ops[i].phase.cancelled;
    assert OpOk(reg, s, i);
    if t.history == s.history {
      QuietKeeps(reg, s, t, i);
    } else {
      var e := Deletes(i, cancelled);
      var before :| Cancels(i, before, cancelled) in s.history;
      assert EventOk(reg, Cancels(i, before, cancelled));
      StoreKept(s, e, t);
      HistoryGrows(s.history, e);
      forall j | 0 <= j < |t.ops| ensures OpOk(reg, t, j) {
        assert OpOk(reg, s, j);
        QuietOpOk(reg, s, e, t, j);
      }
    }
  }

  /** An operation that stands still, or finishes, under an event of no interaction. */
  lemma QuietOpOk(reg: Registry, s: State, e: Event, t: State, j: nat)
    requires j < |s.ops| == |t.ops| && OpOk(reg, s, j) && NoInteraction(e)
    requires t.history == s.history + [e] || t.history == s.history
    requires t.ops[j] == s.ops[j] || (t.ops[j].phase.Finished? && t.ops[j].call == s.ops[j].call)
    requires s.now <= t.now && s.nextId <= t.nextId
    ensures OpOk(reg, t, j)
  {
    CountPushed(s.history, e);
    if t.ops[j].phase.Holding? {
      var before :| Cancels(j, before, s.ops[j].phase.cancelled) in s.history;
      assert Cancels(j, before, s.ops[j].phase.cancelled) in t.history;
    }
    if t.ops[j].phase.Putting? {
      var ph := s.ops[j].phase;
      var raw :| DecideOn(reg, s.ops[j].call, raw, ph.decidedAt) == Propose(ph.expected, ph.next, ph.value);
      assert DecideOn(reg, t.ops[j].call, raw, ph.decidedAt) == Propose(ph.expected, ph.next, ph.value);
    }
  }

  /** A step that writes nothing and moves at most operation i. */
  lemma QuietKeeps(reg: Registry, s: State, t: State, i: nat)
    requires Inv(reg, s) && t.entries == s.entries && t.history == s.history
    requires s.now <= t.now && s.nextId <= t.nextId
    requires |s.ops| == |t.ops|
    requires forall j :: 0 <= j < |s.ops| ==> t.ops[j].call == s.ops[j].call && (j != i ==> t.ops[j] == s.ops[j])
    requires i < |t.ops| ==> t.ops[i] == s.ops[i] || t.ops[i].phase.Finished? || OpOk(reg, t, i)
    ensures Inv(reg, t)
  {
    forall j | 0 <= j < |t.ops| ensures OpOk(reg, t, j) {
      assert OpOk(reg, s, j);
      if j != i || t.ops[j] == s.ops[j] || t.ops[j].phase.Finished? {
        QuietOpOk(reg, s, TurnLapsed(""), t, j);
      }
    }
  }

  /** A step that only adds events about turns, or drops a key. */
  lemma TurnKeeps(reg: Registry, s: State, e: Event, t: State)
    requires Inv(reg, s) && NoInteraction(e) && !e.Deletes? && EventOk(reg, e)
    requires t.history == s.history + [e] && t.ops == s.ops && t.now == s.now && s.nextId <= t.nextId
    requires forall k :: k in t.entries ==>
               || (k in s.entries && t.entries[k] == s.entries[k])
               || (k.TurnKey? && t.entries[k].Token? && t.entries[k].token < t.nextId)
    ensures Inv(reg, t)
  {
    StoreKept(s, e, t);
    HistoryGrows(s.history, e);
    forall j | 0 <= j < |t.ops| ensures OpOk(reg, t, j) {
      assert OpOk(reg, s, j);
      QuietOpOk(reg, s, e, t, j);
    }
  }

  lemma StartKeeps(reg: Registry, s: State, call: Call, t: State)
    requires Inv(reg, s)
    requires t == s.(ops := s.ops + [Op(call, FirstPhase(call))], nextId := t.nextId) && s.nextId <= t.nextId
    requires call.OpenCall? ==>
               && s.nextId < t.nextId
               && call.record.interactionId == s.nextId && call.record.revision == 1 && call.record.status == Open
    ensures Inv(reg, t)
  {
    forall j | 0 <= j < |t.ops| ensures OpOk(reg, t, j) {
      if j < |s.ops| {
        assert OpOk(reg, s, j);
        QuietOpOk(reg, s, TurnLapsed(""), t.(ops := s.ops), j);
        assert OpOk(reg, t.(ops := s.ops), j);
      }
    }
    forall i, j | 0 <= i < j < |t.ops| && t.ops[i].call.OpenCall? && t.ops[j].call.OpenCall?
      ensures t.ops[i].call.record.interactionId != t.ops[j].call.record.interactionId
    {
      assert OpOk(reg, s, i);
    }
  }

  lemma ReadKeeps(reg: Registry, s: State, i: nat)
    requires Inv(reg, s) && i < |s.ops|
    ensures Inv(reg, ReadStep(s, i)) && Inv(reg, DecideStep(reg, s, i))
  {
    assert OpOk(reg, s, i);
    QuietKeeps(reg, s, ReadStep(s, i), i);
    var t := DecideStep(reg, s, i);
    match s.ops[i].phase {
      case Deciding(left, raw) =>
        var d := DecideOn(reg, s.ops[i].call, raw, s.now);
        if d.Propose? {
          assert DecideOn(reg, t.ops[i].call, raw, t.ops[i].phase.decidedAt) ==
                 Propose(t.ops[i].phase.expected, t.ops[i].phase.next, t.ops[i].phase.value);
        }
      case _ =>
    }
    QuietKeeps(reg, s, t, i);
  }

  lemma EvictKeeps(reg: Registry, s: State, key: Key)
    requires Inv(reg, s)
    ensures Inv(reg, EvictStep(s, key))
  {
    var t := EvictStep(s, key);
    if t.history != s.history {
      TurnKeeps(reg, s, TurnLapsed(key.conversation), t);
    } else {
      forall j | 0 <= j < |t.ops| ensures OpOk(reg, t, j) {
        assert OpOk(reg, s, j);
        QuietOpOk(reg, s, TurnLapsed(""), t, j);
      }
    }
  }

  lemma ApplyKeeps(reg: Registry, s: State, step: Step)
    requires Inv(reg, s)
    ensures Inv(reg, Apply(reg, s, step))
  {
    hide DecideOn, DeleteStep, FirstPhase, StoreOk, CountsOk, CancelIsFinal, DeletesOwn, EventOk;
    var t := Apply(reg, s, step);
    match step {
      case StartOpen(conversation, bind, kind, prompt, secret, continuation) =>
        if |t.ops| == |s.ops| {
          QuietKeeps(reg, s, t, |s.ops|);
        } else {
          StartKeeps(reg, s, t.ops[|s.ops|].call, t);
        }
      case Start(call) =>
        if !call.OpenCall? {
          StartKeeps(reg, s, call, t);
        }
      case Read(i) =>
        if i < |s.ops| {
          ReadKeeps(reg, s, i);
        }
      case Decide(i) =>
        if i < |s.ops| {
          ReadKeeps(reg, s, i);
        }
      case Put(i) =>
        if i < |s.ops| && s.ops[i].phase.Putting? {
          if t.history != s.history {
            PutKeeps(reg, s, i);
          } else {
            assert OpOk(reg, s, i);
            QuietKeeps(reg, s, t, i);
          }
        }
      case Delete(i) =>
        if i < |s.ops| && s.ops[i].phase.Holding? {
          DeleteKeeps(reg, s, i);
        }
      case Tick(ms) => QuietKeeps(reg, s, t, |s.ops|);
      case Evict(key) => EvictKeeps(reg, s, key);
      case BeginTurn(conversation) =>
        if t.history != s.history {
          TurnKeeps(reg, s, TurnBegan(conversation, s.nextId), t);
        } else {
          QuietKeeps(reg, s, t, |s.ops|);
        }
      case EndTurn(conversation, token) =>
        if t.history != s.history {
          TurnKeeps(reg, s, TurnEnded(conversation, token), t);
        }
    }
  }

  lemma {:induction false} RunKeeps(reg: Registry, s: State, steps: seq<Step>)
    requires Initial(s)
    ensures Inv(reg, Run(reg, s, steps))
  {
    if steps != [] {
      RunKeeps(reg, s, steps[..|steps| - 1]);
      ApplyKeeps(reg, Run(reg, s, steps[..|steps| - 1]), steps[|steps| - 1]);
    }
  }
}
