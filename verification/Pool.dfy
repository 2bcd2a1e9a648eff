/**
 * The worker pool (apps/sho/src/pool.ts): one queue per slot, a deadline timer per
 * call, a hang timer for the call that runs, and bounded respawns.
 *
 * The process is single-threaded, so each event handler is one step; which event
 * comes next, and when a timer fires, is free.  The lists at the end of the state
 * record what happened and are read by no handler.
 */
module Pool {
  import opened Wrappers

  datatype Reply = Busy | Deadline | Answer(worker: nat)

  /** A call in a slot: `pending` until its caller has been told. */
  datatype Call = Call(id: nat, expiresAt: int, pending: bool, timer: bool, hangTimer: bool)

  datatype Slot = Slot(worker: Option<nat>, ready: bool, failures: nat, respawnTimer: bool, running: Option<Call>,
                       queue: seq<Call>, booted: bool, respawns: nat, lostAtBoot: bool)

  datatype Settlement = Settlement(id: nat, reply: Reply)

  datatype Post = Post(slot: nat, worker: nat, id: nat)

  datatype State = State(
    slots: seq<Slot>, stopped: bool, booting: bool, nextId: nat, nextWorker: nat, disposed: nat,
    settled: seq<Settlement>, posts: seq<Post>, answers: seq<Post>, lost: seq<nat>)

  datatype Limits = Limits(queueLimit: nat, respawnLimit: nat)

  datatype Loss = Crashed | Hung

  datatype Step =
    | Send(slot: nat, now: int, deadlineMs: int)
    | DeadlineFires(slot: nat, id: nat)
    | HangFires(slot: nat)
    | ReadyArrives(slot: nat, worker: nat, now: int)
    | AnswerArrives(slot: nat, worker: nat, id: nat, now: int)
    | WorkerGone(slot: nat, worker: nat)
    | RespawnFires(slot: nat)
    | BootEnds
    | BootFails
    | Dispose
    | DisposeNext

  // ---------------------------------------------------------------- one slot

  predicate Idle(s: Slot) {
    s.worker.Some? && s.ready && s.running.None?
  }

  /** How many calls at the head of a queue are past their deadline. */
  function Overdue(queue: seq<Call>, now: int): (n: nat)
    ensures n <= |queue|
    ensures forall j :: 0 <= j < n ==> queue[j].expiresAt <= now
    ensures n < |queue| ==> queue[n].expiresAt > now
  {
    if queue == [] || queue[0].expiresAt > now then 0
    else
      var rest := Overdue(queue[1..], now);
      assert forall j :: 1 <= j < |queue| ==> queue[j] == queue[1..][j - 1];
      1 + rest
  }

  /** The callers still waiting among these calls, told the same reply. */
  function Settle(calls: seq<Call>, reply: Reply): seq<Settlement> {
    if calls == [] then []
    else
      Settle(calls[..|calls| - 1], reply) +
      if calls[|calls| - 1].pending then [Settlement(calls[|calls| - 1].id, reply)] else []
  }

  function SettleOne(call: Option<Call>, reply: Reply): seq<Settlement> {
    if call.Some? && call.value.pending then [Settlement(call.value.id, reply)] else []
  }

  /** The next live call runs; those overdue before it are gone. */
  function Pumped(s: Slot, now: int): Slot {
    var n := Overdue(s.queue, now);
    if !Idle(s) then s
    else if n == |s.queue| then s.(queue := [])
    else s.(queue := s.queue[n + 1..], running := Some(s.queue[n].(timer := true, hangTimer := true)))
  }

  function PumpSettles(s: Slot, now: int): seq<Settlement> {
    if Idle(s) then Settle(s.queue[..Overdue(s.queue, now)], Deadline) else []
  }

  function PumpPosts(i: nat, s: Slot, now: int): seq<Post> {
    var n := Overdue(s.queue, now);
    if Idle(s) && n < |s.queue| then [Post(i, s.worker.value, s.queue[n].id)] else []
  }

  function Drained(s: Slot): Slot {
    s.(worker := None, ready := false, running := None, queue := [])
  }

  function DrainSettles(s: Slot, reply: Reply): seq<Settlement> {
    SettleOne(s.running, reply) + Settle(s.queue, Busy)
  }

  /** A slot that lost its worker, with a respawn armed when one is allowed. */
  function Lost(limits: Limits, s: Slot, halted: bool, booting: bool): Slot {
    var d := Drained(s);
    if halted then d.(lostAtBoot := d.lostAtBoot || booting)
    else d.(failures := s.failures + 1, respawnTimer := s.respawnTimer || s.failures + 1 <= limits.respawnLimit)
  }

  function Spawned(s: Slot, worker: nat): Slot {
    s.(worker := Some(worker), ready := false)
  }

  function IndexOf(queue: seq<Call>, id: nat): (at: int)
    ensures -1 <= at < |queue|
    ensures at >= 0 ==> queue[at].id == id
    ensures at < 0 ==> forall j :: 0 <= j < |queue| ==> queue[j].id != id
  {
    if queue == [] then -1
    else if queue[|queue| - 1].id == id then |queue| - 1
    else IndexOf(queue[..|queue| - 1], id)
  }

  /** The deadline of one call: out of the queue, or told while it runs on. */
  function Overran(s: Slot, id: nat): Slot {
    var at := IndexOf(s.queue, id);
    if at >= 0 then s.(queue := s.queue[..at] + s.queue[at + 1..])
    else if s.running.Some? && s.running.value.id == id then
      s.(running := Some(s.running.value.(timer := false, pending := false)))
    else s
  }

  function OverranSettles(s: Slot, id: nat): seq<Settlement> {
    var at := IndexOf(s.queue, id);
    if at >= 0 then SettleOne(Some(s.queue[at]), Deadline)
    else if s.running.Some? && s.running.value.id == id then SettleOne(s.running, Deadline)
    else []
  }

  predicate TimerArmed(s: Slot, id: nat) {
    var at := IndexOf(s.queue, id);
    if at >= 0 then s.queue[at].timer else s.running.Some? && s.running.value.id == id && s.running.value.timer
  }

  function Load(s: Slot): nat {
    |s.queue| + if s.running.Some? then 1 else 0
  }

  // ---------------------------------------------------------------- the pool

  /** One slot changes; some callers are told and at most one command is posted. */
  function With(p: State, i: nat, s: Slot, settled: seq<Settlement>, posts: seq<Post>): State
    requires i < |p.slots|
  {
    p.(slots := p.slots[i := s], settled := p.settled + settled, posts := p.posts + posts)
  }

  function SendStep(limits: Limits, p: State, i: nat, now: int, deadlineMs: int): State
    requires i < |p.slots|
  {
    var s := p.slots[i];
    if p.booting || p.stopped || !s.ready || Load(s) >= limits.queueLimit then p
    else
      var budget := if deadlineMs > 0 then deadlineMs else 0;
      var pushed := s.(queue := s.queue + [Call(p.nextId, now + budget, true, true, false)]);
      With(p, i, Pumped(pushed, now), PumpSettles(pushed, now), PumpPosts(i, pushed, now)).(nextId := p.nextId + 1)
  }

  function ReadyStep(p: State, i: nat, worker: nat, now: int): State
    requires i < |p.slots|
  {
    var s := p.slots[i];
    if s.worker != Some(worker) then p
    else
      var r := s.(ready := true, failures := 0, booted := true, respawns := 0);
      With(p, i, Pumped(r, now), PumpSettles(r, now), PumpPosts(i, r, now))
  }

  function AnswerStep(p: State, i: nat, worker: nat, id: nat, now: int): State
    requires i < |p.slots|
  {
    var s := p.slots[i];
    if s.worker != Some(worker) || s.running.None? || s.running.value.id != id then p
    else
      var r := s.(running := None);
      With(p, i, Pumped(r, now), SettleOne(s.running, Answer(worker)) + PumpSettles(r, now), PumpPosts(i, r, now))
      .(answers := p.answers + [Post(i, worker, id)])
  }

  function LoseStep(limits: Limits, p: State, i: nat, loss: Loss): State
    requires i < |p.slots| && p.slots[i].worker.Some?
  {
    var s := p.slots[i];
    With(p, i, Lost(limits, s, p.stopped || p.booting, p.booting),
         DrainSettles(s, if loss.Hung? then Deadline else Busy), [])
    .(lost := p.lost + [s.worker.value])
  }

  function RespawnStep(p: State, i: nat): State
    requires i < |p.slots|
  {
    var s := p.slots[i].(respawnTimer := false);
    if p.stopped then With(p, i, s, [], [])
    else With(p, i, Spawned(s, p.nextWorker).(respawns := s.respawns + 1), [], []).(nextWorker := p.nextWorker + 1)
  }

  function DisposeStep(p: State): State
    requires p.disposed < |p.slots|
  {
    var s := p.slots[p.disposed];
    With(p, p.disposed, Drained(s).(respawnTimer := false), DrainSettles(s, Busy), []).(disposed := p.disposed + 1)
  }

  function Apply(limits: Limits, p: State, step: Step): State {
    match step
    case Send(i, now, deadlineMs) => if i < |p.slots| then SendStep(limits, p, i, now, deadlineMs) else p
    case DeadlineFires(i, id) =>
      if i < |p.slots| && TimerArmed(p.slots[i], id)
      then With(p, i, Overran(p.slots[i], id), OverranSettles(p.slots[i], id), []) else p
    case HangFires(i) =>
      if i < |p.slots| && p.slots[i].running.Some? && p.slots[i].running.value.hangTimer && p.slots[i].worker.Some?
      then LoseStep(limits, p, i, Hung) else p
    case ReadyArrives(i, worker, now) => if i < |p.slots| then ReadyStep(p, i, worker, now) else p
    case AnswerArrives(i, worker, id, now) => if i < |p.slots| then AnswerStep(p, i, worker, id, now) else p
    case WorkerGone(i, worker) =>
      if i < |p.slots| && p.slots[i].worker == Some(worker) then LoseStep(limits, p, i, Crashed) else p
    case RespawnFires(i) => if i < |p.slots| && p.slots[i].respawnTimer then RespawnStep(p, i) else p
    case BootEnds => if !p.stopped && forall s :: s in p.slots ==> s.booted then p.(booting := false) else p
    case BootFails => if p.booting && exists s :: s in p.slots && !s.booted && s.worker.None? then p.(stopped := true) else p
    case Dispose => if p.booting then p else p.(stopped := true)
    case DisposeNext => if p.stopped && !p.booting && p.disposed < |p.slots| then DisposeStep(p) else p
  }

  function Run(limits: Limits, p: State, steps: seq<Step>): State {
    if steps == [] then p else Apply(limits, Run(limits, p, steps[..|steps| - 1]), steps[|steps| - 1])
  }

  function FirstSlot(worker: nat): Slot {
    Slot(Some(worker), false, 0, false, None, [], false, 0, false)
  }

  /** Every slot spawned, none ready. */
  function Boot(size: nat): State {
    State(seq(size, i requires 0 <= i => FirstSlot(i)), false, true, 1, size, 0, [], [], [], [])
  }

  // ------------------------------------------------------------ calls and callers

  function CountPending(calls: seq<Call>, id: nat): nat {
    if calls == [] then 0
    else CountPending(calls[..|calls| - 1], id) +
         if calls[|calls| - 1].pending && calls[|calls| - 1].id == id then 1 else 0
  }

  /** Places of a slot where a call waits to be told. */
  function PendingIn(s: Slot, id: nat): nat {
    CountPending(s.queue, id) + if s.running.Some? && s.running.value.pending && s.running.value.id == id then 1 else 0
  }

  function PendingInAll(slots: seq<Slot>, id: nat): nat {
    if slots == [] then 0 else PendingInAll(slots[..|slots| - 1], id) + PendingIn(slots[|slots| - 1], id)
  }

  function Told(settled: seq<Settlement>, id: nat): nat {
    if settled == [] then 0
    else Told(settled[..|settled| - 1], id) + if settled[|settled| - 1].id == id then 1 else 0
  }

  lemma {:induction false} ToldJoins(a: seq<Settlement>, b: seq<Settlement>, id: nat)
    ensures Told(a + b, id) == Told(a, id) + Told(b, id)
    decreases |b|
  {
    if b == [] {
      assert a + b == a;
    } else {
      assert (a + b)[..|a + b| - 1] == a + b[..|b| - 1];
      ToldJoins(a, b[..|b| - 1], id);
    }
  }

  lemma {:induction false} PendingJoins(a: seq<Call>, b: seq<Call>, id: nat)
    ensures CountPending(a + b, id) == CountPending(a, id) + CountPending(b, id)
    decreases |b|
  {
    if b == [] {
      assert a + b == a;
    } else {
      assert (a + b)[..|a + b| - 1] == a + b[..|b| - 1];
      PendingJoins(a, b[..|b| - 1], id);
    }
  }

  lemma {:induction false} SettleTells(calls: seq<Call>, reply: Reply, id: nat)
    ensures Told(Settle(calls, reply), id) == CountPending(calls, id)
  {
    if calls != [] {
      SettleTells(calls[..|calls| - 1], reply, id);
      ToldJoins(Settle(calls[..|calls| - 1], reply),
                if calls[|calls| - 1].pending then [Settlement(calls[|calls| - 1].id, reply)] else [], id);
      ToldOne(calls[|calls| - 1].id, reply, id);
    }
  }

  lemma ToldOne(call: nat, reply: Reply, id: nat)
    ensures Told([Settlement(call, reply)], id) == if call == id then 1 else 0
  {
    assert [Settlement(call, reply)][..0] == [];
  }

  lemma CountOne(c: Call, id: nat)
    ensures CountPending([c], id) == if c.pending && c.id == id then 1 else 0
  {
    assert [c][..0] == [];
  }

  lemma {:induction false} SlotsUpdated(slots: seq<Slot>, i: nat, s: Slot, id: nat)
    requires i < |slots|
    ensures PendingInAll(slots[i := s], id) == PendingInAll(slots, id) - PendingIn(slots[i], id) + PendingIn(s, id)
  {
    var n := |slots| - 1;
    if i < n {
      SlotsUpdated(slots[..n], i, s, id);
      assert slots[i := s][..n] == slots[..n][i := s];
    } else {
      assert slots[i := s][..n] == slots[..n];
    }
  }

  lemma SettleOneTells(call: Option<Call>, reply: Reply, id: nat)
    ensures Told(SettleOne(call, reply), id) ==
            if call.Some? && call.value.pending && call.value.id == id then 1 else 0
  {
    if call.Some? {
      ToldOne(call.value.id, reply, id);
    }
  }

  lemma QueueCut(queue: seq<Call>, n: nat, id: nat)
    requires n < |queue|
    ensures CountPending(queue, id) ==
            CountPending(queue[..n], id) + (if queue[n].pending && queue[n].id == id then 1 else 0) +
            CountPending(queue[n + 1..], id)
  {
    PendingJoins(queue[..n], [queue[n]] + queue[n + 1..], id);
    PendingJoins([queue[n]], queue[n + 1..], id);
    CountOne(queue[n], id);
    assert queue == queue[..n] + ([queue[n]] + queue[n + 1..]);
  }

  /** Pumping neither loses nor doubles a call. */
  lemma PumpConserves(s: Slot, now: int, id: nat)
    ensures PendingIn(Pumped(s, now), id) + Told(PumpSettles(s, now), id) == PendingIn(s, id)
  {
    var n := Overdue(s.queue, now);
    if Idle(s) {
      SettleTells(s.queue[..n], Deadline, id);
      if n < |s.queue| {
        QueueCut(s.queue, n, id);
      } else {
        assert s.queue[..n] == s.queue;
      }
    }
  }

  lemma DrainConserves(s: Slot, reply: Reply, id: nat)
    ensures Told(DrainSettles(s, reply), id) == PendingIn(s, id)
    ensures PendingIn(Drained(s), id) == 0
  {
    SettleOneTells(s.running, reply, id);
    SettleTells(s.queue, Busy, id);
    ToldJoins(SettleOne(s.running, reply), Settle(s.queue, Busy), id);
  }

  lemma RemovedConserves(queue: seq<Call>, at: nat, id: nat)
    requires at < |queue|
    ensures CountPending(queue[..at] + queue[at + 1..], id) + Told(SettleOne(Some(queue[at]), Deadline), id) ==
            CountPending(queue, id)
  {
    SettleOneTells(Some(queue[at]), Deadline, id);
    QueueCut(queue, at, id);
    PendingJoins(queue[..at], queue[at + 1..], id);
  }

  lemma OverranInQueue(s: Slot, call: nat, id: nat)
    requires IndexOf(s.queue, call) >= 0
    ensures PendingIn(Overran(s, call), id) + Told(OverranSettles(s, call), id) == PendingIn(s, id)
  {
    var at := IndexOf(s.queue, call);
    var t := s.(queue := s.queue[..at] + s.queue[at + 1..]);
    assert Overran(s, call) == t;
    RemovedConserves(s.queue, at, id);
  }

  lemma OverranRunning(s: Slot, call: nat, id: nat)
    requires IndexOf(s.queue, call) < 0
    ensures PendingIn(Overran(s, call), id) + Told(OverranSettles(s, call), id) == PendingIn(s, id)
  {
    SettleOneTells(s.running, Deadline, id);
    assert Overran(s, call).queue == s.queue;
  }

  lemma OverranConserves(s: Slot, call: nat, id: nat)
    ensures PendingIn(Overran(s, call), id) + Told(OverranSettles(s, call), id) == PendingIn(s, id)
  {
    if IndexOf(s.queue, call) >= 0 {
      OverranInQueue(s, call, id);
    } else {
      OverranRunning(s, call, id);
    }
  }

  /** Every call sent so far was told once or waits in one place, and no other was. */
  ghost predicate Conserved(p: State, id: nat) {
    Told(p.settled, id) + PendingInAll(p.slots, id) == if 1 <= id < p.nextId then 1 else 0
  }

  /** A slot whose settlements match what it gave up keeps the count. */
  lemma WithConserves(p: State, i: nat, s: Slot, settled: seq<Settlement>, posts: seq<Post>, id: nat)
    requires i < |p.slots| && Conserved(p, id)
    requires PendingIn(s, id) + Told(settled, id) == PendingIn(p.slots[i], id)
    ensures Conserved(With(p, i, s, settled, posts), id)
  {
    SlotsUpdated(p.slots, i, s, id);
    ToldJoins(p.settled, settled, id);
  }

  lemma SendConserves(limits: Limits, p: State, i: nat, now: int, deadlineMs: int, id: nat)
    requires i < |p.slots| && Conserved(p, id) && p.nextId >= 1
    ensures Conserved(SendStep(limits, p, i, now, deadlineMs), id)
  {
    var s := p.slots[i];
    var t := SendStep(limits, p, i, now, deadlineMs);
    if t.nextId != p.nextId {
      var call := Call(p.nextId, now + (if deadlineMs > 0 then deadlineMs else 0), true, true, false);
      var pushed := s.(queue := s.queue + [call]);
      PendingJoins(s.queue, [call], id);
      CountOne(call, id);
      PumpConserves(pushed, now, id);
      SlotsUpdated(p.slots, i, Pumped(pushed, now), id);
      ToldJoins(p.settled, PumpSettles(pushed, now), id);
    }
  }

  lemma AnswerConserves(p: State, i: nat, worker: nat, call: nat, now: int, id: nat)
    requires i < |p.slots| && Conserved(p, id)
    ensures Conserved(AnswerStep(p, i, worker, call, now), id)
  {
    var s := p.slots[i];
    if s.worker == Some(worker) && s.running.Some? && s.running.value.id == call {
      var r := s.(running := None);
      PumpConserves(r, now, id);
      SettleOneTells(s.running, Answer(worker), id);
      ToldJoins(SettleOne(s.running, Answer(worker)), PumpSettles(r, now), id);
      WithConserves(p, i, Pumped(r, now), SettleOne(s.running, Answer(worker)) + PumpSettles(r, now), PumpPosts(i, r, now), id);
    }
  }

  lemma ReadyConserves(p: State, i: nat, worker: nat, now: int, id: nat)
    requires i < |p.slots| && Conserved(p, id)
    ensures Conserved(ReadyStep(p, i, worker, now), id)
  {
    var r := p.slots[i].(ready := true, failures := 0, booted := true, respawns := 0);
    PumpConserves(r, now, id);
    WithConserves(p, i, Pumped(r, now), PumpSettles(r, now), PumpPosts(i, r, now), id);
  }

  lemma DeadlineConserves(p: State, i: nat, call: nat, id: nat)
    requires i < |p.slots| && Conserved(p, id)
    ensures Conserved(With(p, i, Overran(p.slots[i], call), OverranSettles(p.slots[i], call), []), id)
  {
    OverranConserves(p.slots[i], call, id);
    WithConserves(p, i, Overran(p.slots[i], call), OverranSettles(p.slots[i], call), [], id);
  }

  lemma RespawnConserves(p: State, i: nat, id: nat)
    requires i < |p.slots| && Conserved(p, id)
    ensures Conserved(RespawnStep(p, i), id)
  {
    WithConserves(p, i, p.slots[i].(respawnTimer := false), [], [], id);
    var s := Spawned(p.slots[i].(respawnTimer := false), p.nextWorker);
    WithConserves(p, i, s.(respawns := s.respawns + 1), [], [], id);
  }

  lemma DisposeConserves(p: State, id: nat)
    requires p.disposed < |p.slots| && Conserved(p, id)
    ensures Conserved(DisposeStep(p), id)
  {
    var s := p.slots[p.disposed];
    DrainConserves(s, Busy, id);
    WithConserves(p, p.disposed, Drained(s).(respawnTimer := false), DrainSettles(s, Busy), [], id);
  }

  lemma StepConserves(limits: Limits, p: State, step: Step, id: nat)
    requires Conserved(p, id) && p.nextId >= 1
    ensures Conserved(Apply(limits, p, step), id)
  {
    hide SendStep, AnswerStep, LoseStep, ReadyStep, RespawnStep, DisposeStep, With, Overran, OverranSettles;
    match step {
      case Send(i, now, deadlineMs) =>
        if i < |p.slots| {
          SendConserves(limits, p, i, now, deadlineMs, id);
        }
      case DeadlineFires(i, call) =>
        if i < |p.slots| {
          DeadlineConserves(p, i, call, id);
        }
      case HangFires(i) =>
        if i < |p.slots| && p.slots[i].worker.Some? {
          LossConserves(limits, p, i, Hung, id);
        }
      case WorkerGone(i, worker) =>
        if i < |p.slots| && p.slots[i].worker.Some? {
          LossConserves(limits, p, i, Crashed, id);
        }
      case ReadyArrives(i, worker, now) =>
        if i < |p.slots| {
          ReadyConserves(p, i, worker, now, id);
        }
      case AnswerArrives(i, worker, call, now) =>
        if i < |p.slots| {
          AnswerConserves(p, i, worker, call, now, id);
        }
      case RespawnFires(i) =>
        if i < |p.slots| {
          RespawnConserves(p, i, id);
        }
      case DisposeNext =>
        if p.disposed < |p.slots| {
          DisposeConserves(p, id);
        }
      case _ =>
    }
  }

  lemma LossConserves(limits: Limits, p: State, i: nat, loss: Loss, id: nat)
    requires i < |p.slots| && p.slots[i].worker.Some? && Conserved(p, id)
    ensures Conserved(LoseStep(limits, p, i, loss), id)
  {
    var s := p.slots[i];
    DrainConserves(s, if loss.Hung? then Deadline else Busy, id);
    WithConserves(p, i, Lost(limits, s, p.stopped || p.booting, p.booting),
                  DrainSettles(s, if loss.Hung? then Deadline else Busy), [], id);
  }

  // ------------------------------------------------------------- what a slot is

  ghost predicate SlotOk(limits: Limits, s: Slot) {
    && (!s.ready ==> s.running.None? && s.queue == [])
    && (s.ready ==> s.worker.Some?)
    && (s.running.None? ==> s.queue == [])
    && Load(s) <= limits.queueLimit
    && (forall j :: 0 <= j < |s.queue| ==> s.queue[j].pending && s.queue[j].timer && !s.queue[j].hangTimer)
    && (s.running.Some? ==> s.running.value.hangTimer && (s.running.value.pending <==> s.running.value.timer))
  }

  /** Respawning is bounded, and armed only over a slot without a worker. */
  ghost predicate RespawnOk(limits: Limits, s: Slot) {
    && (s.respawnTimer ==> s.worker.None? && s.failures <= limits.respawnLimit && s.respawns + 1 == s.failures)
    && s.respawns <= limits.respawnLimit
    && s.respawns <= s.failures
    && (s.worker.Some? ==> s.respawns == s.failures)
  }

  /** A slot without a worker and without a timer is one that may have no more. */
  ghost predicate WorkerOrReason(limits: Limits, p: State, i: nat)
    requires i < |p.slots|
  {
    var s := p.slots[i];
    s.worker.None? && !s.respawnTimer ==> p.stopped || s.failures > limits.respawnLimit || s.lostAtBoot
  }

  lemma PumpKeepsSlot(limits: Limits, s: Slot, now: int)
    requires !s.ready ==> s.running.None? && s.queue == []
    requires s.ready ==> s.worker.Some?
    requires Load(s) <= limits.queueLimit
    requires forall j :: 0 <= j < |s.queue| ==> s.queue[j].pending && s.queue[j].timer && !s.queue[j].hangTimer
    requires s.running.Some? ==> s.running.value.hangTimer && (s.running.value.pending <==> s.running.value.timer)
    ensures SlotOk(limits, Pumped(s, now))
    ensures RespawnOk(limits, s) ==> RespawnOk(limits, Pumped(s, now))
  {
  }

  /** The slot an event touches, if any. */
  function Touched(p: State, step: Step): nat {
    match step
    case Send(i, _, _) => i
    case DeadlineFires(i, _) => i
    case HangFires(i) => i
    case ReadyArrives(i, _, _) => i
    case AnswerArrives(i, _, _, _) => i
    case WorkerGone(i, _) => i
    case RespawnFires(i) => i
    case DisposeNext => p.disposed
    case _ => |p.slots|
  }

  lemma OthersStand(limits: Limits, p: State, step: Step, j: nat)
    requires j < |p.slots| && j != Touched(p, step)
    ensures |Apply(limits, p, step).slots| == |p.slots| && Apply(limits, p, step).slots[j] == p.slots[j]
  {
  }

  /** What an event makes of the slot it touches. */
  function TouchedSlot(limits: Limits, p: State, step: Step): Slot
    requires Touched(p, step) < |p.slots|
  {
    var s := p.slots[Touched(p, step)];
    match step
    case Send(i, now, deadlineMs) => SendStep(limits, p, i, now, deadlineMs).slots[i]
    case DeadlineFires(_, id) => if TimerArmed(s, id) then Overran(s, id) else s
    case HangFires(_) =>
      if s.running.Some? && s.running.value.hangTimer && s.worker.Some?
      then Lost(limits, s, p.stopped || p.booting, p.booting) else s
    case ReadyArrives(_, worker, now) =>
      if s.worker == Some(worker) then Pumped(s.(ready := true, failures := 0, booted := true, respawns := 0), now) else s
    case AnswerArrives(_, worker, id, now) =>
      if s.worker == Some(worker) && s.running.Some? && s.running.value.id == id then Pumped(s.(running := None), now) else s
    case WorkerGone(_, worker) =>
      if s.worker == Some(worker) then Lost(limits, s, p.stopped || p.booting, p.booting) else s
    case RespawnFires(_) =>
      if !s.respawnTimer then s
      else if p.stopped then s.(respawnTimer := false)
      else s.(respawnTimer := false, worker := Some(p.nextWorker), ready := false, respawns := s.respawns + 1)
    case DisposeNext => if p.stopped && !p.booting then Drained(s).(respawnTimer := false) else s
  }

  lemma TouchedStands(limits: Limits, p: State, step: Step)
    requires Touched(p, step) < |p.slots|
    ensures |Apply(limits, p, step).slots| == |p.slots|
    ensures Apply(limits, p, step).slots[Touched(p, step)] == TouchedSlot(limits, p, step)
  {
    hide Pumped, PumpSettles, PumpPosts, Overran, OverranSettles, Lost, Drained, DrainSettles, SettleOne, Settle;
  }

  /** Slot by slot, whatever the event. */
  lemma StepKeepsSlot(limits: Limits, p: State, step: Step, j: nat)
    requires j < |p.slots| && SlotOk(limits, p.slots[j]) && RespawnOk(limits, p.slots[j])
    ensures |Apply(limits, p, step).slots| == |p.slots|
    ensures SlotOk(limits, Apply(limits, p, step).slots[j]) && RespawnOk(limits, Apply(limits, p, step).slots[j])
  {
    if j == Touched(p, step) {
      TouchedStands(limits, p, step);
      TouchedKeepsSlot(limits, p, step);
    } else {
      OthersStand(limits, p, step, j);
    }
  }

  lemma TouchedKeepsSlot(limits: Limits, p: State, step: Step)
    requires Touched(p, step) < |p.slots|
    requires SlotOk(limits, p.slots[Touched(p, step)]) && RespawnOk(limits, p.slots[Touched(p, step)])
    ensures SlotOk(limits, TouchedSlot(limits, p, step)) && RespawnOk(limits, TouchedSlot(limits, p, step))
  {
    var s := p.slots[Touched(p, step)];
    match step {
      case Send(i, now, deadlineMs) => SendKeepsSlot(limits, p, i, now, deadlineMs);
      case DeadlineFires(i, call) => OverranKeepsSlot(limits, s, call);
      case ReadyArrives(i, worker, now) =>
        if s.worker == Some(worker) {
          PumpKeepsSlot(limits, s.(ready := true, failures := 0, booted := true, respawns := 0), now);
        }
      case AnswerArrives(i, worker, call, now) => PumpKeepsSlot(limits, s.(running := None), now);
      case HangFires(i) =>
        if s.worker.Some? {
          LossKeepsSlot(limits, s, p.stopped || p.booting, p.booting);
        }
      case WorkerGone(i, worker) =>
        if s.worker.Some? {
          LossKeepsSlot(limits, s, p.stopped || p.booting, p.booting);
        }
      case RespawnFires(i) =>
      case DisposeNext =>
    }
  }

  lemma LossKeepsSlot(limits: Limits, s: Slot, halted: bool, booting: bool)
    requires SlotOk(limits, s) && RespawnOk(limits, s) && s.worker.Some?
    ensures SlotOk(limits, Lost(limits, s, halted, booting)) && RespawnOk(limits, Lost(limits, s, halted, booting))
  {
  }

  lemma SendKeepsSlot(limits: Limits, p: State, i: nat, now: int, deadlineMs: int)
    requires i < |p.slots| && SlotOk(limits, p.slots[i]) && RespawnOk(limits, p.slots[i])
    ensures var t := SendStep(limits, p, i, now, deadlineMs);
            |t.slots| == |p.slots| && SlotOk(limits, t.slots[i]) && RespawnOk(limits, t.slots[i])
  {
    var s := p.slots[i];
    var call := Call(p.nextId, now + (if deadlineMs > 0 then deadlineMs else 0), true, true, false);
    if s.ready && Load(s) < limits.queueLimit {
      PumpKeepsSlot(limits, s.(queue := s.queue + [call]), now);
    }
  }

  lemma OverranKeepsSlot(limits: Limits, s: Slot, call: nat)
    requires SlotOk(limits, s) && RespawnOk(limits, s)
    ensures SlotOk(limits, Overran(s, call)) && RespawnOk(limits, Overran(s, call))
  {
    var at := IndexOf(s.queue, call);
    if at >= 0 {
      var q := s.queue[..at] + s.queue[at + 1..];
      assert forall j :: 0 <= j < |q| ==> q[j] == s.queue[if j < at then j else j + 1];
    }
  }

  // ------------------------------------------------ commands, replies and losses

  /** Commands go out in order, one unanswered at a time, and a worker is lost once. */
  ghost predicate LogOk(posts: seq<Post>, answers: seq<Post>, lost: seq<nat>) {
    && (forall a, b :: 0 <= a < b < |posts| && posts[a].slot == posts[b].slot ==> posts[a].id < posts[b].id)
    && (forall a, b :: 0 <= a < b < |posts| && posts[a].worker == posts[b].worker ==> posts[a] in answers)
    && (forall x :: x in answers ==> x in posts)
    && (forall a, b :: 0 <= a < b < |answers| ==> answers[a] != answers[b])
    && (forall a, b :: 0 <= a < b < |lost| ==> lost[a] != lost[b])
  }

  /** How one slot stands to what was posted, answered and lost. */
  ghost predicate PostsOk(s: Slot, i: nat, posts: seq<Post>, answers: seq<Post>, lost: seq<nat>, nextId: nat, nextWorker: nat) {
    && (forall a, b :: 0 <= a < b < |s.queue| ==> s.queue[a].id < s.queue[b].id)
    && (forall a :: 0 <= a < |s.queue| ==> s.queue[a].id < nextId)
    && (s.running.Some? ==> forall a :: 0 <= a < |s.queue| ==> s.running.value.id < s.queue[a].id)
    && (forall x :: x in posts && x.slot == i ==>
          x.id < nextId && (forall a :: 0 <= a < |s.queue| ==> x.id < s.queue[a].id)
          && (s.running.Some? ==> x.id <= s.running.value.id))
    && (s.worker.Some? ==>
          && s.worker.value < nextWorker && s.worker.value !in lost
          && forall x :: x in posts && x.worker == s.worker.value ==>
               x.slot == i && (x in answers || (s.running.Some? && x.id == s.running.value.id)))
    && (s.running.Some? ==>
          && s.worker.Some?
          && Post(i, s.worker.value, s.running.value.id) in posts
          && Post(i, s.worker.value, s.running.value.id) !in answers)
  }

  lemma PumpPostsOk(s: Slot, i: nat, now: int, posts: seq<Post>, answers: seq<Post>, lost: seq<nat>, nextId: nat, nextWorker: nat)
    requires PostsOk(s, i, posts, answers, lost, nextId, nextWorker) && LogOk(posts, answers, lost)
    ensures PostsOk(Pumped(s, now), i, posts + PumpPosts(i, s, now), answers, lost, nextId, nextWorker)
    ensures LogOk(posts + PumpPosts(i, s, now), answers, lost)
  {
    var n := Overdue(s.queue, now);
    if Idle(s) && n < |s.queue| {
      var x := Post(i, s.worker.value, s.queue[n].id);
      assert posts + [x] == posts + PumpPosts(i, s, now);
      assert x !in posts;
      assert x !in answers;
    } else {
      assert posts + PumpPosts(i, s, now) == posts;
    }
  }

  /** Posts of another slot and another worker leave this slot as it was. */
  lemma OtherPostsOk(s: Slot, j: nat, posts: seq<Post>, answers: seq<Post>, lost: seq<nat>, nextId: nat, nextWorker: nat,
                     more: seq<Post>, moreAnswers: seq<Post>, moreLost: seq<nat>, nextId': nat, nextWorker': nat)
    requires PostsOk(s, j, posts, answers, lost, nextId, nextWorker)
    requires nextId <= nextId' && nextWorker <= nextWorker'
    requires forall x :: x in more ==> x.slot != j && (s.worker.Some? ==> x.worker != s.worker.value)
    requires forall x :: x in moreAnswers ==> x.slot != j
    requires s.worker.Some? ==> s.worker.value !in moreLost
    ensures PostsOk(s, j, posts + more, answers + moreAnswers, lost + moreLost, nextId', nextWorker')
  {
  }

  lemma PushPostsOk(s: Slot, i: nat, c: Call, posts: seq<Post>, answers: seq<Post>, lost: seq<nat>, nextWorker: nat)
    requires PostsOk(s, i, posts, answers, lost, c.id, nextWorker)
    requires s.running.Some? ==> s.running.value.id < c.id
    ensures PostsOk(s.(queue := s.queue + [c]), i, posts, answers, lost, c.id + 1, nextWorker)
  {
  }

  lemma AnswerPostsOk(s: Slot, i: nat, posts: seq<Post>, answers: seq<Post>, lost: seq<nat>, nextId: nat, nextWorker: nat)
    requires PostsOk(s, i, posts, answers, lost, nextId, nextWorker) && LogOk(posts, answers, lost) && s.running.Some?
    ensures var x := Post(i, s.worker.value, s.running.value.id);
            && PostsOk(s.(running := None), i, posts, answers + [x], lost, nextId, nextWorker)
            && LogOk(posts, answers + [x], lost)
  {
  }

  lemma RemovedPostsOk(s: Slot, i: nat, at: nat, posts: seq<Post>, answers: seq<Post>, lost: seq<nat>, nextId: nat, nextWorker: nat)
    requires PostsOk(s, i, posts, answers, lost, nextId, nextWorker) && at < |s.queue|
    ensures PostsOk(s.(queue := s.queue[..at] + s.queue[at + 1..]), i, posts, answers, lost, nextId, nextWorker)
  {
    var q := s.queue[..at] + s.queue[at + 1..];
    assert forall j :: 0 <= j < |q| ==> q[j] == s.queue[if j < at then j else j + 1];
  }

  lemma TimedPostsOk(s: Slot, i: nat, posts: seq<Post>, answers: seq<Post>, lost: seq<nat>, nextId: nat, nextWorker: nat)
    requires PostsOk(s, i, posts, answers, lost, nextId, nextWorker) && s.running.Some?
    ensures PostsOk(s.(running := Some(s.running.value.(timer := false, pending := false))), i, posts, answers, lost, nextId, nextWorker)
  {
  }

  lemma OverranPostsOk(s: Slot, i: nat, call: nat, posts: seq<Post>, answers: seq<Post>, lost: seq<nat>, nextId: nat, nextWorker: nat)
    requires PostsOk(s, i, posts, answers, lost, nextId, nextWorker)
    ensures PostsOk(Overran(s, call), i, posts, answers, lost, nextId, nextWorker)
  {
    hide PostsOk;
    var at := IndexOf(s.queue, call);
    if at >= 0 {
      RemovedPostsOk(s, i, at, posts, answers, lost, nextId, nextWorker);
    } else if s.running.Some? && s.running.value.id == call {
      TimedPostsOk(s, i, posts, answers, lost, nextId, nextWorker);
    }
  }

  ghost predicate WorkersOk(p: State) {
    && (forall x :: x in p.posts ==> x.worker < p.nextWorker)
    && (forall w :: w in p.lost ==> w < p.nextWorker)
    && (forall i, j :: 0 <= i < j < |p.slots| && p.slots[i].worker.Some? ==> p.slots[i].worker != p.slots[j].worker)
  }

  ghost predicate TraceOk(p: State) {
    && LogOk(p.posts, p.answers, p.lost)
    && WorkersOk(p)
    && forall i :: 0 <= i < |p.slots| ==> PostsOk(p.slots[i], i, p.posts, p.answers, p.lost, p.nextId, p.nextWorker)
  }

  /** A step that touches slot i, given what it posts, answers and loses. */
  lemma TraceMoves(p: State, i: nat, t: State, more: seq<Post>, answered: seq<Post>, gone: seq<nat>)
    requires TraceOk(p) && i < |p.slots| == |t.slots| && t.slots == p.slots[i := t.slots[i]]
    requires t.posts == p.posts + more && t.answers == p.answers + answered && t.lost == p.lost + gone
    requires p.nextId <= t.nextId && p.nextWorker <= t.nextWorker
    requires forall x :: x in more ==> x.slot == i && p.slots[i].worker == Some(x.worker)
    requires forall x :: x in answered ==> x.slot == i
    requires forall w :: w in gone ==> p.slots[i].worker == Some(w)
    requires t.slots[i].worker == p.slots[i].worker || t.slots[i].worker == None
             || (t.slots[i].worker == Some(p.nextWorker) && p.nextWorker < t.nextWorker)
    requires PostsOk(t.slots[i], i, t.posts, t.answers, t.lost, t.nextId, t.nextWorker)
    requires LogOk(t.posts, t.answers, t.lost)
    ensures TraceOk(t)
  {
    assert PostsOk(p.slots[i], i, p.posts, p.answers, p.lost, p.nextId, p.nextWorker);
    forall j | 0 <= j < |t.slots|
      ensures PostsOk(t.slots[j], j, t.posts, t.answers, t.lost, t.nextId, t.nextWorker)
    {
      if j != i {
        assert PostsOk(p.slots[j], j, p.posts, p.answers, p.lost, p.nextId, p.nextWorker);
        OtherPostsOk(p.slots[j], j, p.posts, p.answers, p.lost, p.nextId, p.nextWorker, more, answered, gone, t.nextId, t.nextWorker);
      }
    }
    forall a, b | 0 <= a < b < |t.slots| && t.slots[a].worker.Some?
      ensures t.slots[a].worker != t.slots[b].worker
    {
      assert PostsOk(p.slots[a], a, p.posts, p.answers, p.lost, p.nextId, p.nextWorker);
      assert PostsOk(p.slots[b], b, p.posts, p.answers, p.lost, p.nextId, p.nextWorker);
    }
  }

  /** A call pushed and the slot pumped. */
  lemma PushAndPump(s: Slot, i: nat, c: Call, now: int, posts: seq<Post>, answers: seq<Post>, lost: seq<nat>, nextWorker: nat)
    requires PostsOk(s, i, posts, answers, lost, c.id, nextWorker) && LogOk(posts, answers, lost)
    ensures var pushed := s.(queue := s.queue + [c]);
            && PostsOk(Pumped(pushed, now), i, posts + PumpPosts(i, pushed, now), answers, lost, c.id + 1, nextWorker)
            && LogOk(posts + PumpPosts(i, pushed, now), answers, lost)
  {
    PushPostsOk(s, i, c, posts, answers, lost, nextWorker);
    PumpPostsOk(s.(queue := s.queue + [c]), i, now, posts, answers, lost, c.id + 1, nextWorker);
  }

  lemma PumpKeepsWorker(s: Slot, i: nat, now: int)
    ensures Pumped(s, now).worker == s.worker
    ensures forall x :: x in PumpPosts(i, s, now) ==> x.slot == i && s.worker == Some(x.worker)
  {
  }

  lemma SendTraces(limits: Limits, p: State, i: nat, now: int, deadlineMs: int)
    requires TraceOk(p) && i < |p.slots|
    ensures TraceOk(SendStep(limits, p, i, now, deadlineMs))
  {
    hide Pumped, PumpPosts, PumpSettles;
    var s := p.slots[i];
    var t := SendStep(limits, p, i, now, deadlineMs);
    if t.nextId != p.nextId {
      var call := Call(p.nextId, now + (if deadlineMs > 0 then deadlineMs else 0), true, true, false);
      var pushed := s.(queue := s.queue + [call]);
      var q, more := Pumped(pushed, now), PumpPosts(i, pushed, now);
      PumpKeepsWorker(pushed, i, now);
      PushAndPump(s, i, call, now, p.posts, p.answers, p.lost, p.nextWorker);
      assert t.slots == p.slots[i := q] && t.posts == p.posts + more;
      SlotTraces(p, i, q, t, more, []);
    }
  }

  /** The slot keeps its worker; it posts and its worker answers. */
  lemma SlotTraces(p: State, i: nat, q: Slot, t: State, more: seq<Post>, answered: seq<Post>)
    requires TraceOk(p) && i < |p.slots| && t.slots == p.slots[i := q] && q.worker == p.slots[i].worker
    requires t.posts == p.posts + more && t.answers == p.answers + answered && t.lost == p.lost
    requires p.nextId <= t.nextId && p.nextWorker == t.nextWorker
    requires forall x :: x in more ==> x.slot == i && p.slots[i].worker == Some(x.worker)
    requires forall x :: x in answered ==> x.slot == i
    requires PostsOk(q, i, t.posts, t.answers, t.lost, t.nextId, t.nextWorker)
    requires LogOk(t.posts, t.answers, t.lost)
    ensures TraceOk(t)
  {
    assert p.lost + [] == p.lost;
    TraceMoves(p, i, t, more, answered, []);
  }

  lemma ReadyTraces(p: State, i: nat, worker: nat, now: int)
    requires TraceOk(p) && i < |p.slots|
    ensures TraceOk(ReadyStep(p, i, worker, now))
  {
    hide Pumped, PumpPosts, PumpSettles;
    var s := p.slots[i];
    if s.worker == Some(worker) {
      assert PostsOk(s, i, p.posts, p.answers, p.lost, p.nextId, p.nextWorker);
      var r := s.(ready := true, failures := 0, booted := true, respawns := 0);
      PumpKeepsWorker(r, i, now);
      PumpPostsOk(r, i, now, p.posts, p.answers, p.lost, p.nextId, p.nextWorker);
      assert p.answers + [] == p.answers && p.lost + [] == p.lost;
      TraceMoves(p, i, ReadyStep(p, i, worker, now), PumpPosts(i, r, now), [], []);
    }
  }

  /** A reply taken and the slot pumped. */
  lemma AnswerAndPump(s: Slot, i: nat, now: int, posts: seq<Post>, answers: seq<Post>, lost: seq<nat>, nextId: nat, nextWorker: nat)
    requires PostsOk(s, i, posts, answers, lost, nextId, nextWorker) && LogOk(posts, answers, lost) && s.running.Some?
    ensures var r, x := s.(running := None), Post(i, s.worker.value, s.running.value.id);
            && PostsOk(Pumped(r, now), i, posts + PumpPosts(i, r, now), answers + [x], lost, nextId, nextWorker)
            && LogOk(posts + PumpPosts(i, r, now), answers + [x], lost)
  {
    var x := Post(i, s.worker.value, s.running.value.id);
    AnswerPostsOk(s, i, posts, answers, lost, nextId, nextWorker);
    PumpPostsOk(s.(running := None), i, now, posts, answers + [x], lost, nextId, nextWorker);
  }

  lemma AnswerTraces(p: State, i: nat, worker: nat, id: nat, now: int)
    requires TraceOk(p) && i < |p.slots|
    ensures TraceOk(AnswerStep(p, i, worker, id, now))
  {
    hide Pumped, PumpPosts, PumpSettles;
    var s := p.slots[i];
    if s.worker == Some(worker) && s.running.Some? && s.running.value.id == id {
      assert PostsOk(s, i, p.posts, p.answers, p.lost, p.nextId, p.nextWorker);
      var r := s.(running := None);
      var t := AnswerStep(p, i, worker, id, now);
      PumpKeepsWorker(r, i, now);
      AnswerAndPump(s, i, now, p.posts, p.answers, p.lost, p.nextId, p.nextWorker);
      assert t.slots == p.slots[i := Pumped(r, now)] && t.posts == p.posts + PumpPosts(i, r, now);
      SlotTraces(p, i, Pumped(r, now), t, PumpPosts(i, r, now), [Post(i, worker, id)]);
    }
  }

  lemma LossTraces(limits: Limits, p: State, i: nat, loss: Loss)
    requires TraceOk(p) && i < |p.slots| && p.slots[i].worker.Some?
    ensures TraceOk(LoseStep(limits, p, i, loss))
  {
    assert PostsOk(p.slots[i], i, p.posts, p.answers, p.lost, p.nextId, p.nextWorker);
    assert p.posts + [] == p.posts && p.answers + [] == p.answers;
    TraceMoves(p, i, LoseStep(limits, p, i, loss), [], [], [p.slots[i].worker.value]);
  }

  /** A slot changed in place, with nothing posted, answered or lost. */
  lemma QuietTraces(p: State, i: nat, t: State)
    requires TraceOk(p) && i < |p.slots| == |t.slots| && t.slots == p.slots[i := t.slots[i]]
    requires t.posts == p.posts && t.answers == p.answers && t.lost == p.lost && t.nextId == p.nextId
    requires p.nextWorker <= t.nextWorker
    requires t.slots[i].worker == p.slots[i].worker || t.slots[i].worker == None
             || (t.slots[i].worker == Some(p.nextWorker) && p.nextWorker < t.nextWorker)
    requires PostsOk(t.slots[i], i, t.posts, t.answers, t.lost, t.nextId, t.nextWorker)
    ensures TraceOk(t)
  {
    assert p.posts + [] == p.posts && p.answers + [] == p.answers && p.lost + [] == p.lost;
    TraceMoves(p, i, t, [], [], []);
  }

  lemma DeadlineTraces(p: State, i: nat, call: nat)
    requires TraceOk(p) && i < |p.slots|
    ensures TraceOk(With(p, i, Overran(p.slots[i], call), OverranSettles(p.slots[i], call), []))
  {
    var s := p.slots[i];
    assert PostsOk(s, i, p.posts, p.answers, p.lost, p.nextId, p.nextWorker);
    OverranPostsOk(s, i, call, p.posts, p.answers, p.lost, p.nextId, p.nextWorker);
    QuietTraces(p, i, With(p, i, Overran(s, call), OverranSettles(s, call), []));
  }

  lemma RespawnTraces(limits: Limits, p: State, i: nat)
    requires TraceOk(p) && i < |p.slots| && p.slots[i].respawnTimer
    requires SlotOk(limits, p.slots[i]) && RespawnOk(limits, p.slots[i])
    ensures TraceOk(RespawnStep(p, i))
  {
    assert PostsOk(p.slots[i], i, p.posts, p.answers, p.lost, p.nextId, p.nextWorker);
    QuietTraces(p, i, RespawnStep(p, i));
  }

  lemma DisposeTraces(p: State)
    requires TraceOk(p) && p.disposed < |p.slots|
    ensures TraceOk(DisposeStep(p))
  {
    assert PostsOk(p.slots[p.disposed], p.disposed, p.posts, p.answers, p.lost, p.nextId, p.nextWorker);
    QuietTraces(p, p.disposed, DisposeStep(p));
  }

  lemma StepTraces(limits: Limits, p: State, step: Step)
    requires TraceOk(p)
    requires forall i :: 0 <= i < |p.slots| ==> SlotOk(limits, p.slots[i]) && RespawnOk(limits, p.slots[i])
    ensures TraceOk(Apply(limits, p, step))
  {
    hide SendStep, AnswerStep, LoseStep, ReadyStep, RespawnStep, DisposeStep, With, Overran, OverranSettles, LogOk, PostsOk;
    var i := Touched(p, step);
    if i < |p.slots| {
      match step {
        case Send(_, now, deadlineMs) => SendTraces(limits, p, i, now, deadlineMs);
        case DeadlineFires(_, call) => DeadlineTraces(p, i, call);
        case HangFires(_) =>
          if p.slots[i].worker.Some? {
            LossTraces(limits, p, i, Hung);
          }
        case WorkerGone(_, worker) =>
          if p.slots[i].worker.Some? {
            LossTraces(limits, p, i, Crashed);
          }
        case ReadyArrives(_, worker, now) => ReadyTraces(p, i, worker, now);
        case AnswerArrives(_, worker, call, now) => AnswerTraces(p, i, worker, call, now);
        case RespawnFires(_) =>
          if p.slots[i].respawnTimer {
            RespawnTraces(limits, p, i);
          }
        case DisposeNext => DisposeTraces(p);
      }
    }
  }

  // ------------------------------------------------------------ every reachable pool

  /** A slot already disposed of holds nothing and gets nothing. */
  ghost predicate DisposedOk(p: State) {
    && p.disposed <= |p.slots|
    && (p.disposed > 0 ==> p.stopped && !p.booting)
    && forall i :: 0 <= i < p.disposed ==>
         var s := p.slots[i];
         s.worker.None? && !s.ready && s.running.None? && s.queue == [] && !s.respawnTimer
  }

  ghost predicate Inv(limits: Limits, p: State) {
    && p.nextId >= 1
    && (forall id :: Conserved(p, id))
    && (forall i :: 0 <= i < |p.slots| ==>
          SlotOk(limits, p.slots[i]) && RespawnOk(limits, p.slots[i]) && WorkerOrReason(limits, p, i))
    && TraceOk(p)
    && DisposedOk(p)
  }

  lemma ReasonStands(limits: Limits, p: State, step: Step, j: nat)
    requires j < |p.slots| && WorkerOrReason(limits, p, j)
    ensures |Apply(limits, p, step).slots| == |p.slots| && WorkerOrReason(limits, Apply(limits, p, step), j)
  {
    if j == Touched(p, step) {
      TouchedStands(limits, p, step);
      TouchedReason(limits, p, step);
      StoppedStays(limits, p, step);
    } else {
      OthersStand(limits, p, step, j);
      StoppedStays(limits, p, step);
    }
  }

  lemma StoppedStays(limits: Limits, p: State, step: Step)
    ensures p.stopped ==> Apply(limits, p, step).stopped
  {
  }

  lemma TouchedReason(limits: Limits, p: State, step: Step)
    requires Touched(p, step) < |p.slots| && WorkerOrReason(limits, p, Touched(p, step))
    ensures var s := TouchedSlot(limits, p, step);
            s.worker.None? && !s.respawnTimer ==> p.stopped || s.failures > limits.respawnLimit || s.lostAtBoot
  {
  }

  lemma StepKeeps(limits: Limits, p: State, step: Step)
    requires Inv(limits, p)
    ensures Inv(limits, Apply(limits, p, step))
  {
    var t := Apply(limits, p, step);
    forall id ensures Conserved(t, id) {
      assert Conserved(p, id);
      StepConserves(limits, p, step, id);
    }
    forall i | 0 <= i < |t.slots|
      ensures SlotOk(limits, t.slots[i]) && RespawnOk(limits, t.slots[i]) && WorkerOrReason(limits, t, i)
    {
      SameSlots(limits, p, step);
      StepKeepsSlot(limits, p, step, i);
      ReasonStands(limits, p, step, i);
    }
    StepTraces(limits, p, step);
    DisposedStands(limits, p, step);
  }

  lemma SameSlots(limits: Limits, p: State, step: Step)
    ensures |Apply(limits, p, step).slots| == |p.slots| && p.nextId <= Apply(limits, p, step).nextId
  {
  }

  lemma DisposedStands(limits: Limits, p: State, step: Step)
    requires DisposedOk(p)
    ensures DisposedOk(Apply(limits, p, step))
  {
    var t := Apply(limits, p, step);
    SameSlots(limits, p, step);
    StoppedStays(limits, p, step);
    forall i | 0 <= i < p.disposed
      ensures var s := t.slots[i]; s.worker.None? && !s.ready && s.running.None? && s.queue == [] && !s.respawnTimer
    {
      if i == Touched(p, step) {
        TouchedStands(limits, p, step);
      } else {
        OthersStand(limits, p, step, i);
      }
    }
  }

  lemma BootOk(limits: Limits, size: nat)
    ensures Inv(limits, Boot(size))
  {
    forall id ensures Conserved(Boot(size), id) {
      NothingPending(Boot(size).slots, id);
    }
  }

  lemma {:induction false} NothingPending(slots: seq<Slot>, id: nat)
    requires forall s :: s in slots ==> s.running.None? && s.queue == []
    ensures PendingInAll(slots, id) == 0
  {
    if slots != [] {
      NothingPending(slots[..|slots| - 1], id);
    }
  }

  lemma {:induction false} RunKeeps(limits: Limits, size: nat, steps: seq<Step>)
    ensures Inv(limits, Run(limits, Boot(size), steps))
  {
    if steps == [] {
      BootOk(limits, size);
    } else {
      RunKeeps(limits, size, steps[..|steps| - 1]);
      StepKeeps(limits, Run(limits, Boot(size), steps[..|steps| - 1]), steps[|steps| - 1]);
    }
  }
}
