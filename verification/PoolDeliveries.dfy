/**
 * When a call reaches a worker and why its caller is told what it is told, over whole
 * runs of the pool (apps/sho/src/pool.ts).
 */
module PoolDeliveries {
  import opened Wrappers
  import opened Pool

  /** The last moment of a call sent now with this deadline. */
  function Until(now: int, deadlineMs: int): int {
    now + if deadlineMs > 0 then deadlineMs else 0
  }

  predicate Accepted(limits: Limits, p: State, i: nat) {
    && i < |p.slots| && !p.booting && !p.stopped && p.slots[i].ready
    && |p.slots[i].queue| + (if p.slots[i].running.Some? then 1 else 0) < limits.queueLimit
  }

  /**
   * What an accepted send does: on a busy slot the call waits last in the queue until
   * its deadline; on an idle one with time left it is posted at once, and nobody is
   * told anything; with no time at all it is told so and never posted.
   */
  lemma SendDelivers(limits: Limits, p: State, i: nat, now: int, deadlineMs: int)
    requires Accepted(limits, p, i) && SlotOk(limits, p.slots[i])
    ensures var s, t := p.slots[i], Apply(limits, p, Send(i, now, deadlineMs));
            var id, until := p.nextId, Until(now, deadlineMs);
            && t.nextId == id + 1 && |t.slots| == |p.slots|
            && if s.running.Some? then
                 && t.slots[i] == s.(queue := s.queue + [Call(id, until, true, true, false)])
                 && t.posts == p.posts && t.settled == p.settled
               else if deadlineMs > 0 then
                 && t.slots[i] == s.(running := Some(Call(id, until, true, true, true)))
                 && t.posts == p.posts + [Post(i, s.worker.value, id)] && t.settled == p.settled
               else
                 && t.slots[i] == s && t.posts == p.posts && t.settled == p.settled + [Settlement(id, Deadline)]
  {
    hide Settle;
    var s := p.slots[i];
    if s.running.None? {
      var call := Call(p.nextId, Until(now, deadlineMs), true, true, false);
      OnePumped(s, i, call, now);
    }
  }

  lemma OnePumped(s: Slot, i: nat, call: Call, now: int)
    requires s.queue == [] && Idle(s) && call.pending && call.timer && !call.hangTimer
    ensures var pushed := s.(queue := s.queue + [call]);
            if call.expiresAt > now then
              && Pumped(pushed, now) == s.(running := Some(call.(hangTimer := true)))
              && PumpPosts(i, pushed, now) == [Post(i, s.worker.value, call.id)] && PumpSettles(pushed, now) == []
            else
              && Pumped(pushed, now) == s && PumpPosts(i, pushed, now) == []
              && PumpSettles(pushed, now) == [Settlement(call.id, Deadline)]
  {
    assert s.queue + [call] == [call];
    assert [call][..1] == [call] && [call][..0] == [];
    assert Settle([call], Deadline) == Settle([], Deadline) + [Settlement(call.id, Deadline)];
  }

  /**
   * What a free worker is given: the first call of the queue with time left, those
   * before it being told their deadline in order; none when none has time left.
   */
  lemma FirstLiveIsPosted(s: Slot, i: nat, now: int, n: nat)
    requires Idle(s) && n <= |s.queue| && (n < |s.queue| ==> s.queue[n].expiresAt > now)
    requires forall j :: 0 <= j < n ==> s.queue[j].expiresAt <= now && s.queue[j].pending
    ensures PumpPosts(i, s, now) == if n < |s.queue| then [Post(i, s.worker.value, s.queue[n].id)] else []
    ensures Pumped(s, now).queue == if n < |s.queue| then s.queue[n + 1..] else []
    ensures |PumpSettles(s, now)| == n
    ensures forall j :: 0 <= j < n ==> PumpSettles(s, now)[j] == Settlement(s.queue[j].id, Deadline)
  {
    assert Overdue(s.queue, now) == n;
    SettleEach(s.queue[..n], Deadline);
  }

  lemma {:induction false} SettleEach(calls: seq<Call>, reply: Reply)
    requires forall j :: 0 <= j < |calls| ==> calls[j].pending
    ensures |Settle(calls, reply)| == |calls|
    ensures forall j :: 0 <= j < |calls| ==> Settle(calls, reply)[j] == Settlement(calls[j].id, reply)
  {
    if calls != [] {
      SettleEach(calls[..|calls| - 1], reply);
    }
  }

  /** The callers a slot gives up: the one it runs, if it still waits, told this, and then the queue, told busy. */
  ghost predicate GivesUp(s: Slot, told: seq<Settlement>, reply: Reply) {
    var first := if s.running.Some? && s.running.value.pending then 1 else 0;
    && |told| == first + |s.queue|
    && (first == 1 ==> told[0] == Settlement(s.running.value.id, reply))
    && forall j :: 0 <= j < |s.queue| ==> told[first + j] == Settlement(s.queue[j].id, Busy)
  }

  lemma DrainGivesUp(limits: Limits, s: Slot, reply: Reply)
    requires SlotOk(limits, s)
    ensures GivesUp(s, DrainSettles(s, reply), reply)
  {
    hide Settle;
    SettleEach(s.queue, Busy);
  }

  /** What a step tells: the settlements it adds. */
  ghost predicate Tells(p: State, t: State, s: Slot, reply: Reply) {
    && |p.settled| <= |t.settled| && t.settled[..|p.settled|] == p.settled
    && GivesUp(s, t.settled[|p.settled|..], reply)
  }

  /** A slot whose worker is gone: it holds nothing, and a respawn is armed while the pool serves and the losses allow one. */
  predicate GivenUp(limits: Limits, p: State, s: Slot, q: Slot) {
    && q.worker.None? && !q.ready && q.running.None? && q.queue == []
    && (q.respawnTimer <==> s.respawnTimer || (!p.stopped && !p.booting && s.failures < limits.respawnLimit))
  }

  /**
   * A slot that loses its worker gives up everything it held.  The caller it runs for
   * is told its deadline when the worker hung and busy when it crashed, and every
   * queued caller busy, in order.
   */
  lemma LossTells(limits: Limits, p: State, i: nat, worker: nat)
    requires i < |p.slots| && p.slots[i].worker == Some(worker) && SlotOk(limits, p.slots[i])
    ensures var t := Apply(limits, p, WorkerGone(i, worker));
            |t.slots| == |p.slots| && GivenUp(limits, p, p.slots[i], t.slots[i]) && Tells(p, t, p.slots[i], Busy)
    ensures p.slots[i].running.Some? ==>
              var t := Apply(limits, p, HangFires(i));
              |t.slots| == |p.slots| && GivenUp(limits, p, p.slots[i], t.slots[i]) && Tells(p, t, p.slots[i], Deadline)
  {
    hide GivesUp, DrainSettles;
    DrainGivesUp(limits, p.slots[i], Deadline);
    DrainGivesUp(limits, p.slots[i], Busy);
    AddedOnly(p.settled, DrainSettles(p.slots[i], Deadline));
    AddedOnly(p.settled, DrainSettles(p.slots[i], Busy));
  }

  lemma AddedOnly(settled: seq<Settlement>, told: seq<Settlement>)
    ensures (settled + told)[|settled|..] == told && (settled + told)[..|settled|] == settled
  {
  }

  /** Disposing of a slot tells every caller that waits there busy, and leaves no worker and no respawn. */
  lemma DisposalTells(limits: Limits, p: State)
    requires p.stopped && !p.booting && p.disposed < |p.slots| && SlotOk(limits, p.slots[p.disposed])
    ensures var s, t := p.slots[p.disposed], Apply(limits, p, DisposeNext);
            && |t.slots| == |p.slots| && t.disposed == p.disposed + 1 && Tells(p, t, s, Busy)
            && t.slots[p.disposed].worker.None? && t.slots[p.disposed].queue == [] && !t.slots[p.disposed].respawnTimer
  {
    hide SlotOk, GivesUp, DrainSettles;
    DrainGivesUp(limits, p.slots[p.disposed], Busy);
    AddedOnly(p.settled, DrainSettles(p.slots[p.disposed], Busy));
  }

  /** A respawn that fires gives the slot a worker of its own, not yet ready, unless the pool has stopped. */
  lemma RespawnSpawns(limits: Limits, p: State, i: nat)
    requires i < |p.slots| && p.slots[i].respawnTimer
    ensures var s, t := p.slots[i], Apply(limits, p, RespawnFires(i));
            && |t.slots| == |p.slots| && !t.slots[i].respawnTimer && t.posts == p.posts && t.settled == p.settled
            && (p.stopped ==> t.slots[i].worker == s.worker && t.nextWorker == p.nextWorker)
            && (!p.stopped ==> t.slots[i].worker == Some(p.nextWorker) && !t.slots[i].ready && t.nextWorker == p.nextWorker + 1)
  {
  }

  // ------------------------------------------------------ where a call comes from

  predicate InSlot(s: Slot, id: nat, until: int) {
    || (exists k :: 0 <= k < |s.queue| && s.queue[k].id == id && s.queue[k].expiresAt == until)
    || (s.running.Some? && s.running.value.id == id && s.running.value.expiresAt == until)
  }

  lemma PumpedFrom(s: Slot, now: int, id: nat, until: int)
    requires InSlot(Pumped(s, now), id, until)
    ensures InSlot(s, id, until)
  {
    var n := Overdue(s.queue, now);
    var q := Pumped(s, now);
    if k :| 0 <= k < |q.queue| && q.queue[k].id == id && q.queue[k].expiresAt == until {
      assert q.queue == s.queue || q.queue[k] == s.queue[n + 1 + k];
    }
  }

  lemma OverranFrom(s: Slot, call: nat, id: nat, until: int)
    requires InSlot(Overran(s, call), id, until)
    ensures InSlot(s, id, until)
  {
    var at := IndexOf(s.queue, call);
    var q := Overran(s, call);
    if at >= 0 {
      if k :| 0 <= k < |q.queue| && q.queue[k].id == id && q.queue[k].expiresAt == until {
        assert q.queue[k] == s.queue[if k < at then k else k + 1];
      }
    }
  }

  /** The step sends this call. */
  predicate Sends(limits: Limits, p: State, step: Step, id: nat, until: int) {
    step.Send? && Accepted(limits, p, step.slot) && id == p.nextId && until == Until(step.now, step.deadlineMs)
  }

  lemma PushedFrom(s: Slot, c: Call, id: nat, until: int)
    requires InSlot(s.(queue := s.queue + [c]), id, until)
    ensures InSlot(s, id, until) || (c.id == id && c.expiresAt == until)
  {
    var q := s.queue + [c];
    if k :| 0 <= k < |q| && q[k].id == id && q[k].expiresAt == until {
      assert k < |s.queue| ==> s.queue[k] == q[k];
    }
  }

  lemma TouchedFrom(limits: Limits, p: State, step: Step, id: nat, until: int)
    requires Touched(p, step) < |p.slots| && InSlot(TouchedSlot(limits, p, step), id, until)
    ensures InSlot(p.slots[Touched(p, step)], id, until) || Sends(limits, p, step, id, until)
  {
    hide Pumped, Overran, PumpSettles, PumpPosts, InSlot, TimerArmed;
    var s := p.slots[Touched(p, step)];
    match step {
      case Send(i, now, deadlineMs) =>
        if Accepted(limits, p, i) {
          var call := Call(p.nextId, Until(now, deadlineMs), true, true, false);
          PumpedFrom(s.(queue := s.queue + [call]), now, id, until);
          PushedFrom(s, call, id, until);
        }
      case DeadlineFires(_, call) =>
        if TimerArmed(s, call) {
          OverranFrom(s, call, id, until);
        }
      case ReadyArrives(_, worker, now) =>
        if s.worker == Some(worker) {
          PumpedFrom(s.(ready := true, failures := 0, booted := true, respawns := 0), now, id, until);
          SameCalls(s, s.(ready := true, failures := 0, booted := true, respawns := 0), id, until);
        }
      case AnswerArrives(_, worker, call, now) =>
        if s.worker == Some(worker) && s.running.Some? && s.running.value.id == call {
          PumpedFrom(s.(running := None), now, id, until);
          FewerCalls(s, s.(running := None), id, until);
        }
      case HangFires(_) => FewerCalls(s, TouchedSlot(limits, p, step), id, until);
      case WorkerGone(_, _) => FewerCalls(s, TouchedSlot(limits, p, step), id, until);
      case RespawnFires(_) => SameCalls(s, TouchedSlot(limits, p, step), id, until);
      case DisposeNext => FewerCalls(s, TouchedSlot(limits, p, step), id, until);
    }
  }

  lemma SameCalls(s: Slot, q: Slot, id: nat, until: int)
    requires q.queue == s.queue && q.running == s.running
    ensures InSlot(q, id, until) == InSlot(s, id, until)
  {
  }

  lemma FewerCalls(s: Slot, q: Slot, id: nat, until: int)
    requires (q.queue == s.queue || q.queue == []) && (q.running == s.running || q.running == None)
    ensures InSlot(q, id, until) ==> InSlot(s, id, until)
  {
  }

  /** The state after the first `n` steps. */
  function Upto(limits: Limits, size: nat, steps: seq<Step>, n: nat): State
    requires n <= |steps|
  {
    Run(limits, Boot(size), steps[..n])
  }

  /** Some step of the run sent this call, to be answered by then. */
  ghost predicate WasSent(limits: Limits, size: nat, steps: seq<Step>, id: nat, until: int) {
    exists n :: 0 <= n < |steps| && Sends(limits, Upto(limits, size, steps, n), steps[n], id, until)
  }

  lemma SentStays(limits: Limits, size: nat, steps: seq<Step>, id: nat, until: int)
    requires steps != []
    requires WasSent(limits, size, steps[..|steps| - 1], id, until)
             || Sends(limits, Run(limits, Boot(size), steps[..|steps| - 1]), steps[|steps| - 1], id, until)
    ensures WasSent(limits, size, steps, id, until)
  {
    hide Run, Sends;
    var most := steps[..|steps| - 1];
    if n :| 0 <= n < |most| && Sends(limits, Upto(limits, size, most, n), most[n], id, until) {
      assert most[..n] == steps[..n];
      assert Sends(limits, Upto(limits, size, steps, n), steps[n], id, until);
    } else {
      assert Sends(limits, Upto(limits, size, steps, |steps| - 1), steps[|steps| - 1], id, until);
    }
  }

  /** Every call in a slot was sent, and its last moment is the one it was sent with. */
  lemma {:induction false} CallsWereSent(limits: Limits, size: nat, steps: seq<Step>, i: nat, id: nat, until: int)
    requires i < |Run(limits, Boot(size), steps).slots| && InSlot(Run(limits, Boot(size), steps).slots[i], id, until)
    ensures WasSent(limits, size, steps, id, until)
  {
    hide Apply, InSlot, WasSent, Sends;
    if steps == [] {
      NothingInBoot(size, i, id, until);
    } else {
      var most, step := steps[..|steps| - 1], steps[|steps| - 1];
      var p := Run(limits, Boot(size), most);
      SameSlots(limits, p, step);
      if i == Touched(p, step) {
        TouchedStands(limits, p, step);
        TouchedFrom(limits, p, step, id, until);
      } else {
        OthersStand(limits, p, step, i);
      }
      if InSlot(p.slots[i], id, until) {
        CallsWereSent(limits, size, most, i, id, until);
      }
      SentStays(limits, size, steps, id, until);
    }
  }

  lemma NothingInBoot(size: nat, i: nat, id: nat, until: int)
    requires i < size
    ensures !InSlot(Boot(size).slots[i], id, until)
  {
  }

  // --------------------------------------------------------- posted or told in time

  /** The moment of a step that may pump its slot. */
  predicate Pumps(step: Step) {
    step.Send? || step.ReadyArrives? || step.AnswerArrives?
  }

  function TimeOf(step: Step): int
    requires Pumps(step)
  {
    step.now
  }

  /** A command posted by a step is a call with time left then; a deadline told by a pump is of a call without. */
  ghost predicate InTime(limits: Limits, p: State, step: Step, t: State) {
    && (forall x :: x in t.posts && x !in p.posts ==>
          Pumps(step) && exists until :: Waits(limits, p, step, x.id, until) && TimeOf(step) < until)
    && (forall x :: x in t.settled && x !in p.settled && x.reply.Deadline? && Pumps(step) ==>
          exists until :: Waits(limits, p, step, x.id, until) && until <= TimeOf(step))
  }

  /** The call is in the slot the step touches, or is the one it sends. */
  ghost predicate Waits(limits: Limits, p: State, step: Step, id: nat, until: int) {
    (Touched(p, step) < |p.slots| && InSlot(p.slots[Touched(p, step)], id, until)) || Sends(limits, p, step, id, until)
  }

  lemma {:induction false} SettleFrom(calls: seq<Call>, reply: Reply, x: Settlement)
    requires x in Settle(calls, reply)
    ensures exists j :: 0 <= j < |calls| && calls[j].id == x.id
  {
    var n := |calls| - 1;
    if x in Settle(calls[..n], reply) {
      SettleFrom(calls[..n], reply, x);
      var j :| 0 <= j < n && calls[..n][j].id == x.id;
      assert calls[j].id == x.id;
    } else {
      assert calls[n].id == x.id;
    }
  }

  lemma PumpInTime(s: Slot, i: nat, now: int)
    ensures forall x :: x in PumpPosts(i, s, now) ==> exists until :: InSlot(s, x.id, until) && now < until
    ensures forall x :: x in PumpSettles(s, now) ==> exists until :: InSlot(s, x.id, until) && until <= now
  {
    var n := Overdue(s.queue, now);
    forall x | x in PumpPosts(i, s, now) ensures exists until :: InSlot(s, x.id, until) && now < until {
      assert InSlot(s, x.id, s.queue[n].expiresAt);
    }
    forall x | x in PumpSettles(s, now) ensures exists until :: InSlot(s, x.id, until) && until <= now {
      SettleFrom(s.queue[..n], Deadline, x);
      var j :| 0 <= j < n && s.queue[..n][j].id == x.id;
      assert InSlot(s, x.id, s.queue[j].expiresAt);
    }
  }

  lemma SendInTime(limits: Limits, p: State, i: nat, now: int, deadlineMs: int)
    ensures InTime(limits, p, Send(i, now, deadlineMs), Apply(limits, p, Send(i, now, deadlineMs)))
  {
    hide Pumped, PumpSettles, PumpPosts, InSlot;
    if Accepted(limits, p, i) {
      var s := p.slots[i];
      var call := Call(p.nextId, Until(now, deadlineMs), true, true, false);
      var pushed := s.(queue := s.queue + [call]);
      PumpInTime(pushed, i, now);
      forall id, until | InSlot(pushed, id, until) ensures Waits(limits, p, Send(i, now, deadlineMs), id, until) {
        PushedFrom(s, call, id, until);
      }
    }
  }

  lemma ReadyInTime(limits: Limits, p: State, i: nat, worker: nat, now: int)
    ensures InTime(limits, p, ReadyArrives(i, worker, now), Apply(limits, p, ReadyArrives(i, worker, now)))
  {
    hide Pumped, PumpSettles, PumpPosts, InSlot;
    if i < |p.slots| && p.slots[i].worker == Some(worker) {
      var s := p.slots[i];
      var r := s.(ready := true, failures := 0, booted := true, respawns := 0);
      PumpInTime(r, i, now);
      forall id, until | InSlot(r, id, until) ensures Waits(limits, p, ReadyArrives(i, worker, now), id, until) {
        SameCalls(s, r, id, until);
      }
    }
  }

  lemma AnswerInTime(limits: Limits, p: State, i: nat, worker: nat, call: nat, now: int)
    ensures InTime(limits, p, AnswerArrives(i, worker, call, now), Apply(limits, p, AnswerArrives(i, worker, call, now)))
  {
    hide Pumped, PumpSettles, PumpPosts, InSlot;
    if i < |p.slots| && p.slots[i].worker == Some(worker) && p.slots[i].running.Some? && p.slots[i].running.value.id == call {
      var s := p.slots[i];
      var r := s.(running := None);
      PumpInTime(r, i, now);
      forall id, until | InSlot(r, id, until) ensures Waits(limits, p, AnswerArrives(i, worker, call, now), id, until) {
        FewerCalls(s, r, id, until);
      }
    }
  }

  lemma StepInTime(limits: Limits, p: State, step: Step)
    ensures InTime(limits, p, step, Apply(limits, p, step))
  {
    match step
    case Send(i, now, deadlineMs) => SendInTime(limits, p, i, now, deadlineMs);
    case ReadyArrives(i, worker, now) => ReadyInTime(limits, p, i, worker, now);
    case AnswerArrives(i, worker, call, now) => AnswerInTime(limits, p, i, worker, call, now);
    case _ => OthersPostNothing(limits, p, step);
  }

  lemma OthersPostNothing(limits: Limits, p: State, step: Step)
    requires !Pumps(step)
    ensures Apply(limits, p, step).posts == p.posts
  {
    hide Overran, OverranSettles, Lost, Drained, DrainSettles;
  }

  /**
   * In every run a command is posted only before the last moment its call was sent
   * with, and a caller is told its deadline on the way to a worker only from that
   * moment on.
   */
  lemma DeadlinesAreKept(limits: Limits, size: nat, steps: seq<Step>, step: Step, id: nat)
    ensures var p, t := Run(limits, Boot(size), steps), Run(limits, Boot(size), steps + [step]);
            && (forall x :: x in t.posts && x !in p.posts && x.id == id ==>
                  Pumps(step) && exists until :: WasSent(limits, size, steps + [step], id, until) && TimeOf(step) < until)
            && (Settlement(id, Deadline) in t.settled && Settlement(id, Deadline) !in p.settled && Pumps(step) ==>
                  exists until :: WasSent(limits, size, steps + [step], id, until) && until <= TimeOf(step))
  {
    hide Apply, Waits, WasSent, Sends;
    var p, t := Run(limits, Boot(size), steps), Run(limits, Boot(size), steps + [step]);
    assert (steps + [step])[..|steps|] == steps;
    StepInTime(limits, p, step);
    forall until | Waits(limits, p, step, id, until) ensures WasSent(limits, size, steps + [step], id, until) {
      WaitsWasSent(limits, size, steps, step, id, until);
    }
  }

  lemma WaitsWasSent(limits: Limits, size: nat, steps: seq<Step>, step: Step, id: nat, until: int)
    requires Waits(limits, Run(limits, Boot(size), steps), step, id, until)
    ensures WasSent(limits, size, steps + [step], id, until)
  {
    hide Run, InSlot, WasSent, Sends;
    var p := Run(limits, Boot(size), steps);
    assert (steps + [step])[..|steps|] == steps;
    if Touched(p, step) < |p.slots| && InSlot(p.slots[Touched(p, step)], id, until) {
      CallsWereSent(limits, size, steps, Touched(p, step), id, until);
    }
    SentStays(limits, size, steps + [step], id, until);
  }

  // ------------------------------------------------------------ every event acts

  /** The current worker's reply to the command it runs is taken, and told to a caller that still waits. */
  lemma ReplyIsTaken(limits: Limits, p: State, i: nat, worker: nat, id: nat, now: int)
    requires i < |p.slots| && p.slots[i].worker == Some(worker)
    requires p.slots[i].running.Some? && p.slots[i].running.value.id == id
    ensures var t := Apply(limits, p, AnswerArrives(i, worker, id, now)); var n := |p.settled|;
            && t.answers == p.answers + [Post(i, worker, id)]
            && n <= |t.settled| && t.settled[..n] == p.settled
            && (p.slots[i].running.value.pending ==> n < |t.settled| && t.settled[n] == Settlement(id, Answer(worker)))
            && (p.slots[i].queue == [] ==> t.slots == p.slots[i := p.slots[i].(running := None)])
  {
    hide Pumped, PumpSettles, PumpPosts;
    var r := p.slots[i].(running := None);
    if p.slots[i].queue == [] {
      NothingPumped(r, now);
    }
    AddedOnly(p.settled, SettleOne(p.slots[i].running, Answer(worker)) + PumpSettles(r, now));
  }

  lemma NothingPumped(s: Slot, now: int)
    requires s.queue == []
    ensures Pumped(s, now) == s
  {
  }

  /** What a slot hears of a worker it no longer has, or of a command that is not running, changes nothing. */
  lemma StaleChangesNothing(limits: Limits, p: State, i: nat, worker: nat, id: nat, now: int)
    requires i < |p.slots|
    ensures p.slots[i].worker != Some(worker) ==>
              && Apply(limits, p, WorkerGone(i, worker)) == p && Apply(limits, p, ReadyArrives(i, worker, now)) == p
              && Apply(limits, p, AnswerArrives(i, worker, id, now)) == p
    ensures p.slots[i].running.None? ==> Apply(limits, p, HangFires(i)) == p
    ensures p.slots[i].running.None? || p.slots[i].running.value.id != id ==>
              Apply(limits, p, AnswerArrives(i, worker, id, now)) == p
    ensures !p.slots[i].respawnTimer ==> Apply(limits, p, RespawnFires(i)) == p
  {
    hide Pumped, PumpSettles, PumpPosts, LoseStep, Lost, DrainSettles;
  }

  /** A worker that says it is ready makes its slot take calls, with none of its losses held against it. */
  lemma ReadyServes(limits: Limits, p: State, i: nat, worker: nat, now: int)
    requires i < |p.slots| && p.slots[i].worker == Some(worker)
    ensures var t := Apply(limits, p, ReadyArrives(i, worker, now));
            |t.slots| == |p.slots| && t.slots[i].ready && t.slots[i].failures == 0 && t.slots[i].booted
            && t.slots[i].worker == Some(worker)
  {
  }

  predicate LastOf(queue: seq<Call>, at: int, id: nat)
    requires 0 <= at < |queue|
  {
    queue[at].id == id && forall k :: at < k < |queue| ==> queue[k].id != id
  }

  predicate WaitsRunning(s: Slot, id: nat) {
    && (forall k :: 0 <= k < |s.queue| ==> s.queue[k].id != id)
    && s.running.Some? && s.running.value.id == id && s.running.value.pending
  }

  /** A deadline that fires tells its caller so; the call leaves the queue, or runs on with nobody to tell. */
  lemma DeadlineTells(limits: Limits, p: State, i: nat, id: nat)
    requires i < |p.slots| && SlotOk(limits, p.slots[i])
    ensures var s, t := p.slots[i], Apply(limits, p, DeadlineFires(i, id));
            && |t.slots| == |p.slots| && t.posts == p.posts
            && (forall at :: 0 <= at < |s.queue| && LastOf(s.queue, at, id) ==>
                  && t.settled == p.settled + [Settlement(id, Deadline)]
                  && t.slots[i] == s.(queue := s.queue[..at] + s.queue[at + 1..]))
            && (WaitsRunning(s, id) ==>
                  && t.settled == p.settled + [Settlement(id, Deadline)]
                  && t.slots[i] == s.(running := Some(s.running.value.(timer := false, pending := false))))
  {
    var s := p.slots[i];
    var found := IndexOf(s.queue, id);
    forall at | 0 <= at < |s.queue| && LastOf(s.queue, at, id) ensures found == at {
      LastIndex(s.queue, id, at);
    }
  }

  lemma {:induction false} LastIndex(queue: seq<Call>, id: nat, at: nat)
    requires at < |queue| && LastOf(queue, at, id)
    ensures IndexOf(queue, id) == at
  {
    if at < |queue| - 1 {
      LastIndex(queue[..|queue| - 1], id, at);
    }
  }

  /** The pool boots as soon as every worker was ready once, fails to when one was lost before, and stops once it is told to. */
  lemma PoolMoves(limits: Limits, p: State)
    ensures !Apply(limits, p, BootEnds).booting <==>
            !p.booting || (!p.stopped && forall i :: 0 <= i < |p.slots| ==> p.slots[i].booted)
    ensures Apply(limits, p, BootFails).stopped <==>
            p.stopped || (p.booting && exists i :: 0 <= i < |p.slots| && !p.slots[i].booted && p.slots[i].worker.None?)
    ensures Apply(limits, p, Dispose).stopped <==> p.stopped || !p.booting
  {
    if forall i :: 0 <= i < |p.slots| ==> p.slots[i].booted {
      assert forall s :: s in p.slots ==> s.booted;
    }
    if i :| 0 <= i < |p.slots| && !p.slots[i].booted {
      assert p.slots[i] in p.slots;
    }
  }
}
