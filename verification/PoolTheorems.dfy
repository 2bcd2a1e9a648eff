/** What the worker pool promises in every reachable state (apps/sho/src/pool.ts). */
module PoolTheorems {
  import opened Wrappers
  import opened Pool

  /**
   * Each call sent was told exactly once or waits in exactly one place, and no
   * other id was ever told: nothing is lost and nothing settles twice.
   */
  lemma EachCallInOnePlace(limits: Limits, size: nat, steps: seq<Step>, id: nat)
    ensures var p := Run(limits, Boot(size), steps);
            Told(p.settled, id) + PendingInAll(p.slots, id) == if 1 <= id < p.nextId then 1 else 0
  {
    RunKeeps(limits, size, steps);
    assert Conserved(Run(limits, Boot(size), steps), id);
  }

  /**
   * A slot that is not ready holds nothing; one with nothing running has nothing
   * queued; the load stays within the limit; every waiting call has its deadline
   * armed and the running one its hang timer; respawns stay within their limit.
   */
  lemma SlotsAreSound(limits: Limits, size: nat, steps: seq<Step>, i: nat)
    requires i < |Run(limits, Boot(size), steps).slots|
    ensures var s := Run(limits, Boot(size), steps).slots[i];
            && (!s.ready ==> s.running.None? && s.queue == [])
            && (s.ready && s.running.None? ==> s.queue == [])
            && Load(s) <= limits.queueLimit
            && (forall j :: 0 <= j < |s.queue| ==> s.queue[j].pending && s.queue[j].timer && !s.queue[j].hangTimer)
            && (s.running.Some? ==> s.running.value.hangTimer && (s.running.value.pending <==> s.running.value.timer))
            && s.respawns <= limits.respawnLimit
  {
    RunKeeps(limits, size, steps);
    assert SlotOk(limits, Run(limits, Boot(size), steps).slots[i]);
  }

  /**
   * Commands leave a slot in rising order of id, and the next one to a worker only
   * after the one before was answered; a reply taken answers a posted command, each
   * once; a worker is lost at most once.
   */
  lemma CommandsAndReplies(limits: Limits, size: nat, steps: seq<Step>)
    ensures var p := Run(limits, Boot(size), steps);
            && (forall a, b :: 0 <= a < b < |p.posts| && p.posts[a].slot == p.posts[b].slot ==> p.posts[a].id < p.posts[b].id)
            && (forall a, b :: 0 <= a < b < |p.posts| && p.posts[a].worker == p.posts[b].worker ==> p.posts[a] in p.answers)
            && (forall x :: x in p.answers ==> x in p.posts)
            && (forall a, b :: 0 <= a < b < |p.answers| ==> p.answers[a] != p.answers[b])
            && (forall a, b :: 0 <= a < b < |p.lost| ==> p.lost[a] != p.lost[b])
  {
    RunKeeps(limits, size, steps);
  }

  // ------------------------------------------------------------ who answers a call

  lemma {:induction false} SettlesAlike(calls: seq<Call>, reply: Reply)
    ensures forall x :: x in Settle(calls, reply) ==> x.reply == reply
  {
    if calls != [] {
      SettlesAlike(calls[..|calls| - 1], reply);
    }
  }

  lemma NoReplyIsAnAnswer(s: Slot, now: int, id: nat, reply: Reply)
    requires !reply.Answer?
    ensures forall x :: x in PumpSettles(s, now) + OverranSettles(s, id) + DrainSettles(s, reply) ==> !x.reply.Answer?
  {
    SettlesAlike(s.queue[..Overdue(s.queue, now)], Deadline);
    SettlesAlike(s.queue, Busy);
  }

  /** A step that tells a caller an answer is a reply from the slot's own worker to the command it runs. */
  ghost predicate Replies(p: State, step: Step, t: State, x: Settlement) {
    && step.AnswerArrives? && step.slot < |p.slots|
    && x == Settlement(step.id, Answer(step.worker))
    && p.slots[step.slot].worker == Some(step.worker)
    && p.slots[step.slot].running.Some? && p.slots[step.slot].running.value.id == step.id
    && Post(step.slot, step.worker, step.id) in t.answers
  }

  lemma StepReplies(limits: Limits, p: State, step: Step)
    ensures var t := Apply(limits, p, step);
            && p.settled <= t.settled && p.answers <= t.answers && p.posts <= t.posts
            && forall x :: x in t.settled && x.reply.Answer? ==> x in p.settled || Replies(p, step, t, x)
  {
    hide Pumped, PumpSettles, PumpPosts, Overran, OverranSettles, Lost, Drained, DrainSettles, Settle, TimerArmed, Overdue, IndexOf;
    var t := Apply(limits, p, step);
    var i := Touched(p, step);
    if i < |p.slots| {
      var s := p.slots[i];
      match step {
        case Send(_, now, deadlineMs) =>
          var call := Call(p.nextId, now + (if deadlineMs > 0 then deadlineMs else 0), true, true, false);
          NoReplyIsAnAnswer(s.(queue := s.queue + [call]), now, 0, Busy);
        case DeadlineFires(_, id) => NoReplyIsAnAnswer(s, 0, id, Busy);
        case HangFires(_) => NoReplyIsAnAnswer(s, 0, 0, Deadline);
        case WorkerGone(_, _) => NoReplyIsAnAnswer(s, 0, 0, Busy);
        case ReadyArrives(_, worker, now) =>
          NoReplyIsAnAnswer(s.(ready := true, failures := 0, booted := true, respawns := 0), now, 0, Busy);
        case AnswerArrives(_, worker, id, now) => NoReplyIsAnAnswer(s.(running := None), now, 0, Busy);
        case RespawnFires(_) =>
        case DisposeNext => NoReplyIsAnAnswer(s, 0, 0, Busy);
      }
    }
  }

  /** The worker answered a command of this id that it had been given. */
  ghost predicate Answered(p: State, worker: nat, id: nat) {
    exists slot :: Post(slot, worker, id) in p.answers && Post(slot, worker, id) in p.posts
  }

  lemma {:induction false} AnswersComeFromReplies(limits: Limits, size: nat, steps: seq<Step>, id: nat, worker: nat)
    requires Settlement(id, Answer(worker)) in Run(limits, Boot(size), steps).settled
    ensures exists slot :: Post(slot, worker, id) in Run(limits, Boot(size), steps).answers
  {
    var before, last := steps[..|steps| - 1], steps[|steps| - 1];
    var p, t := Run(limits, Boot(size), before), Run(limits, Boot(size), steps);
    StepReplies(limits, p, last);
    var x := Settlement(id, Answer(worker));
    if x in p.settled {
      AnswersComeFromReplies(limits, size, before, id, worker);
      var slot :| Post(slot, worker, id) in p.answers;
      assert Post(slot, worker, id) in t.answers;
    } else {
      assert Replies(p, last, t, x);
    }
  }

  /** No slot has this worker any more. */
  ghost predicate Replaced(p: State, worker: nat) {
    worker < p.nextWorker && forall j :: 0 <= j < |p.slots| ==> p.slots[j].worker != Some(worker)
  }

  lemma WorkersMove(limits: Limits, p: State, step: Step, j: nat)
    requires j < |p.slots|
    ensures var t := Apply(limits, p, step);
            && |t.slots| == |p.slots|
            && (t.slots[j].worker == p.slots[j].worker || t.slots[j].worker == None || t.slots[j].worker == Some(p.nextWorker))
  {
    hide Apply;
    SameSlots(limits, p, step);
    if j == Touched(p, step) {
      TouchedStands(limits, p, step);
    } else {
      OthersStand(limits, p, step, j);
    }
  }

  lemma {:induction false} ReplacedStays(limits: Limits, p: State, steps: seq<Step>, worker: nat)
    requires Replaced(p, worker)
    ensures var t := Run(limits, p, steps);
            Replaced(t, worker) && forall id :: Settlement(id, Answer(worker)) in t.settled ==> Settlement(id, Answer(worker)) in p.settled
  {
    if steps != [] {
      var last := steps[|steps| - 1];
      var q := Run(limits, p, steps[..|steps| - 1]);
      ReplacedStays(limits, p, steps[..|steps| - 1], worker);
      StepReplies(limits, q, last);
      SameSlots(limits, q, last);
      forall j | 0 <= j < |q.slots| ensures Apply(limits, q, last).slots[j].worker != Some(worker) {
        WorkersMove(limits, q, last, j);
      }
      assert q.nextWorker <= Apply(limits, q, last).nextWorker;
    }
  }

  /**
   * Every answer a caller was told came from a worker that had been given the
   * command, and was given it once; a worker that was lost is in no slot, and from
   * then on whatever it sends changes nothing, so it tells nobody anything more.
   */
  lemma OnlyTheCurrentWorkerAnswers(limits: Limits, size: nat, steps: seq<Step>, more: seq<Step>, worker: nat)
    ensures var p, t := Run(limits, Boot(size), steps), Run(limits, Run(limits, Boot(size), steps), more);
            && (forall id :: Settlement(id, Answer(worker)) in p.settled ==> Answered(p, worker, id))
            && (worker in p.lost ==> Replaced(p, worker))
            && (Replaced(p, worker) ==>
                  && (forall id :: Settlement(id, Answer(worker)) in t.settled ==> Settlement(id, Answer(worker)) in p.settled)
                  && (forall i, id, now :: Apply(limits, t, AnswerArrives(i, worker, id, now)) == t))
  {
    var p, t := Run(limits, Boot(size), steps), Run(limits, Run(limits, Boot(size), steps), more);
    RunKeeps(limits, size, steps);
    forall id | Settlement(id, Answer(worker)) in p.settled ensures Answered(p, worker, id) {
      AnswersComeFromReplies(limits, size, steps, id, worker);
      var slot :| Post(slot, worker, id) in p.answers;
      assert Post(slot, worker, id) in p.posts;
    }
    if Replaced(p, worker) {
      ReplacedStays(limits, p, more, worker);
    }
    if worker in p.lost {
      LostIsReplaced(limits, p, worker);
    }
  }

  lemma LostIsReplaced(limits: Limits, p: State, worker: nat)
    requires Inv(limits, p) && worker in p.lost
    ensures Replaced(p, worker)
  {
    hide SlotOk, RespawnOk, WorkerOrReason, LogOk, DisposedOk, Conserved;
    forall j | 0 <= j < |p.slots| ensures p.slots[j].worker != Some(worker) {
      assert PostsOk(p.slots[j], j, p.posts, p.answers, p.lost, p.nextId, p.nextWorker);
    }
  }

  // ------------------------------------------- a reply taken reaches its caller

  /** The caller of the command that runs still waits, or was told its deadline. */
  ghost predicate RunningTold(s: Slot, settled: seq<Settlement>) {
    s.running.Some? && !s.running.value.pending ==> Settlement(s.running.value.id, Deadline) in settled
  }

  ghost predicate AnswersTold(p: State) {
    && (forall i :: 0 <= i < |p.slots| ==> RunningTold(p.slots[i], p.settled))
    && forall x :: x in p.answers ==>
         Settlement(x.id, Answer(x.worker)) in p.settled || Settlement(x.id, Deadline) in p.settled
  }

  lemma TouchedTold(limits: Limits, p: State, step: Step)
    requires Touched(p, step) < |p.slots|
    requires SlotOk(limits, p.slots[Touched(p, step)]) && RunningTold(p.slots[Touched(p, step)], p.settled)
    ensures RunningTold(TouchedSlot(limits, p, step), Apply(limits, p, step).settled)
  {
    hide PumpSettles, PumpPosts, DrainSettles, Settle;
    StepReplies(limits, p, step);
  }

  lemma StepTells(limits: Limits, p: State, step: Step)
    requires AnswersTold(p) && forall i :: 0 <= i < |p.slots| ==> SlotOk(limits, p.slots[i])
    ensures AnswersTold(Apply(limits, p, step))
  {
    hide SlotOk, TouchedSlot;
    var t := Apply(limits, p, step);
    StepReplies(limits, p, step);
    SameSlots(limits, p, step);
    forall i | 0 <= i < |t.slots| ensures RunningTold(t.slots[i], t.settled) {
      if i == Touched(p, step) {
        TouchedStands(limits, p, step);
        TouchedTold(limits, p, step);
      } else {
        OthersStand(limits, p, step, i);
      }
    }
    forall x | x in t.answers
      ensures Settlement(x.id, Answer(x.worker)) in t.settled || Settlement(x.id, Deadline) in t.settled
    {
      if x !in p.answers {
        AnswerTells(limits, p, step, x);
      }
    }
  }

  lemma AnswerTells(limits: Limits, p: State, step: Step, x: Post)
    requires forall i :: 0 <= i < |p.slots| ==> RunningTold(p.slots[i], p.settled)
    requires x in Apply(limits, p, step).answers && x !in p.answers
    ensures var t := Apply(limits, p, step);
            Settlement(x.id, Answer(x.worker)) in t.settled || Settlement(x.id, Deadline) in t.settled
  {
    hide Pumped, PumpSettles, PumpPosts;
    assert step.AnswerArrives?;
    assert RunningTold(p.slots[step.slot], p.settled);
  }

  /** A reply taken from a worker told its caller, unless the deadline had told it first. */
  lemma {:induction false} RepliesReachTheirCallers(limits: Limits, size: nat, steps: seq<Step>)
    ensures AnswersTold(Run(limits, Boot(size), steps))
  {
    if steps != [] {
      RepliesReachTheirCallers(limits, size, steps[..|steps| - 1]);
      RunKeeps(limits, size, steps[..|steps| - 1]);
      StepTells(limits, Run(limits, Boot(size), steps[..|steps| - 1]), steps[|steps| - 1]);
    }
  }

  // ------------------------------------------------------------ when all is disposed

  lemma {:induction false} EmptySlotsHoldNothing(slots: seq<Slot>, id: nat)
    requires forall i :: 0 <= i < |slots| ==> slots[i].running.None? && slots[i].queue == []
    ensures PendingInAll(slots, id) == 0
  {
    if slots != [] {
      EmptySlotsHoldNothing(slots[..|slots| - 1], id);
    }
  }

  /** Once every slot is disposed of, every call ever accepted has been told, once. */
  lemma DisposeTellsEveryone(limits: Limits, size: nat, steps: seq<Step>, id: nat)
    requires var p := Run(limits, Boot(size), steps); p.disposed == |p.slots| && 1 <= id < p.nextId
    ensures Told(Run(limits, Boot(size), steps).settled, id) == 1
  {
    var p := Run(limits, Boot(size), steps);
    RunKeeps(limits, size, steps);
    assert Conserved(p, id);
    EmptySlotsHoldNothing(p.slots, id);
  }

  // --------------------------------------------- why a slot may have no worker

  /** The step takes the slot's worker away. */
  ghost predicate Loses(p: State, step: Step, i: nat) {
    i < |p.slots| &&
    match step
    case HangFires(j) => j == i && p.slots[i].worker.Some? && p.slots[i].running.Some? && p.slots[i].running.value.hangTimer
    case WorkerGone(j, worker) => j == i && p.slots[i].worker == Some(worker)
    case _ => false
  }

  /** And while the pool boots. */
  ghost predicate LosesAtBoot(p: State, step: Step, i: nat) {
    p.booting && Loses(p, step, i)
  }

  /** The slot's own worker says it is ready. */
  ghost predicate Readies(p: State, step: Step, i: nat) {
    step.ReadyArrives? && step.slot == i < |p.slots| && p.slots[i].worker == Some(step.worker)
  }

  /** Losses of a running pool's slot since one of its workers was last ready. */
  ghost function LossesInARow(limits: Limits, size: nat, steps: seq<Step>, i: nat): nat {
    if steps == [] then 0
    else
      var most, step := steps[..|steps| - 1], steps[|steps| - 1];
      var p := Run(limits, Boot(size), most);
      if Readies(p, step, i) then 0
      else LossesInARow(limits, size, most, i) + if Loses(p, step, i) && !p.booting && !p.stopped then 1 else 0
  }

  lemma TouchedFails(limits: Limits, p: State, step: Step)
    requires Touched(p, step) < |p.slots|
    ensures var i := Touched(p, step); var s, t := p.slots[i], TouchedSlot(limits, p, step);
            && t.failures == (if Readies(p, step, i) then 0
                              else s.failures + if Loses(p, step, i) && !p.booting && !p.stopped then 1 else 0)
            && (t.booted <==> s.booted || Readies(p, step, i))
  {
    hide PumpSettles, PumpPosts, IndexOf, Overdue, Settle, DrainSettles, TimerArmed, SettleOne, OverranSettles;
  }

  lemma StepFails(limits: Limits, p: State, step: Step, i: nat)
    requires i < |p.slots|
    ensures var t := Apply(limits, p, step);
            && |t.slots| == |p.slots|
            && t.slots[i].failures == (if Readies(p, step, i) then 0
                                       else p.slots[i].failures + if Loses(p, step, i) && !p.booting && !p.stopped then 1 else 0)
            && (t.slots[i].booted <==> p.slots[i].booted || Readies(p, step, i))
  {
    hide Apply;
    if i == Touched(p, step) {
      TouchedStands(limits, p, step);
      TouchedFails(limits, p, step);
    } else {
      OthersStand(limits, p, step, i);
    }
  }

  /** What a slot counts is what happened to it. */
  lemma {:induction false} FailuresAreLosses(limits: Limits, size: nat, steps: seq<Step>, i: nat)
    requires i < size
    ensures var p := Run(limits, Boot(size), steps);
            |p.slots| == size && p.slots[i].failures == LossesInARow(limits, size, steps, i)
  {
    hide Apply, Loses, Readies;
    if steps != [] {
      FailuresAreLosses(limits, size, steps[..|steps| - 1], i);
      StepFails(limits, Run(limits, Boot(size), steps[..|steps| - 1]), steps[|steps| - 1], i);
    }
  }

  /** Some step of the run had the slot's worker ready. */
  ghost predicate WasReady(limits: Limits, size: nat, steps: seq<Step>, i: nat) {
    exists k :: 0 <= k < |steps| && Readies(Run(limits, Boot(size), steps[..k]), steps[k], i)
  }

  lemma {:induction false} BootedWasReady(limits: Limits, size: nat, steps: seq<Step>, i: nat)
    requires i < size
    ensures var p := Run(limits, Boot(size), steps);
            && |p.slots| == size
            && (p.slots[i].booted ==> WasReady(limits, size, steps, i))
            && (!p.booting ==> p.slots[i].booted)
  {
    hide Readies;
    if steps != [] {
      var n := |steps| - 1;
      var p := Run(limits, Boot(size), steps[..n]);
      BootedWasReady(limits, size, steps[..n], i);
      StepFails(limits, p, steps[n], i);
      if p.booting && !Apply(limits, p, steps[n]).booting {
        BootEndsWhole(limits, p, steps[n], i);
      }
      if WasReady(limits, size, steps[..n], i) {
        var k :| 0 <= k < n && Readies(Run(limits, Boot(size), steps[..n][..k]), steps[..n][k], i);
        assert steps[..n][..k] == steps[..k];
        assert Readies(Run(limits, Boot(size), steps[..k]), steps[k], i);
      } else if Readies(p, steps[n], i) {
        assert WasReady(limits, size, steps, i);
      }
    }
  }

  lemma BootEndsWhole(limits: Limits, p: State, step: Step, i: nat)
    requires i < |p.slots| && p.booting && !Apply(limits, p, step).booting
    ensures p.slots[i].booted
  {
  }

  /** A pool that has booted had every slot's worker ready at some step. */
  lemma BootsWhole(limits: Limits, size: nat, steps: seq<Step>, i: nat)
    requires i < size && !Run(limits, Boot(size), steps).booting
    ensures WasReady(limits, size, steps, i)
  {
    BootedWasReady(limits, size, steps, i);
  }

  /** The slot lost its worker at some step of the run, before the pool had booted. */
  ghost predicate LostAtBoot(limits: Limits, size: nat, steps: seq<Step>, i: nat) {
    exists k :: 0 <= k < |steps| && LosesAtBoot(Run(limits, Boot(size), steps[..k]), steps[k], i)
  }

  lemma TouchedLost(limits: Limits, p: State, step: Step)
    requires Touched(p, step) < |p.slots|
    ensures TouchedSlot(limits, p, step).lostAtBoot <==>
            p.slots[Touched(p, step)].lostAtBoot || LosesAtBoot(p, step, Touched(p, step))
  {
    hide PumpSettles, PumpPosts, IndexOf, Overdue, Settle, DrainSettles, TimerArmed, SettleOne, OverranSettles;
  }

  lemma StepLoses(limits: Limits, p: State, step: Step, i: nat)
    requires i < |p.slots|
    ensures |Apply(limits, p, step).slots| == |p.slots|
    ensures Apply(limits, p, step).slots[i].lostAtBoot <==> p.slots[i].lostAtBoot || LosesAtBoot(p, step, i)
  {
    hide Apply;
    if i == Touched(p, step) {
      TouchedStands(limits, p, step);
      TouchedLost(limits, p, step);
    } else {
      OthersStand(limits, p, step, i);
    }
  }

  lemma {:induction false} LostAtBootIff(limits: Limits, size: nat, steps: seq<Step>, i: nat)
    requires i < size
    ensures |Run(limits, Boot(size), steps).slots| == size
    ensures Run(limits, Boot(size), steps).slots[i].lostAtBoot <==> LostAtBoot(limits, size, steps, i)
  {
    if steps != [] {
      var n := |steps| - 1;
      var p := Run(limits, Boot(size), steps[..n]);
      LostAtBootIff(limits, size, steps[..n], i);
      StepLoses(limits, p, steps[n], i);
      forall k | 0 <= k < n ensures steps[..n][..k] == steps[..k] {
      }
      if LostAtBoot(limits, size, steps[..n], i) {
        var k :| 0 <= k < n && LosesAtBoot(Run(limits, Boot(size), steps[..n][..k]), steps[..n][k], i);
        assert LosesAtBoot(Run(limits, Boot(size), steps[..k]), steps[k], i);
      }
      if LostAtBoot(limits, size, steps, i) {
        var k :| 0 <= k < |steps| && LosesAtBoot(Run(limits, Boot(size), steps[..k]), steps[k], i);
        assert k < n ==> LosesAtBoot(Run(limits, Boot(size), steps[..n][..k]), steps[..n][k], i);
      }
    }
  }

  /** While the pool boots nothing is counted or armed, and a slot lost then stays as it is. */
  ghost predicate BootsOk(p: State, s: Slot) {
    && (p.booting ==> s.failures == 0 && !s.respawnTimer)
    && (s.lostAtBoot ==> Dead(s))
  }

  lemma TouchedBoots(limits: Limits, p: State, step: Step)
    requires Touched(p, step) < |p.slots| && BootsOk(p, p.slots[Touched(p, step)])
    requires RespawnOk(limits, p.slots[Touched(p, step)])
    ensures BootsOk(Apply(limits, p, step), TouchedSlot(limits, p, step))
  {
  }

  lemma StepBoots(limits: Limits, p: State, step: Step, i: nat)
    requires i < |p.slots| && BootsOk(p, p.slots[i]) && RespawnOk(limits, p.slots[i])
    ensures |Apply(limits, p, step).slots| == |p.slots| && BootsOk(Apply(limits, p, step), Apply(limits, p, step).slots[i])
  {
    if i == Touched(p, step) {
      TouchedStands(limits, p, step);
      TouchedBoots(limits, p, step);
    } else {
      OthersStand(limits, p, step, i);
    }
  }

  lemma {:induction false} RunBoots(limits: Limits, size: nat, steps: seq<Step>, i: nat)
    requires i < size
    ensures var p := Run(limits, Boot(size), steps); |p.slots| == size && BootsOk(p, p.slots[i])
  {
    if steps != [] {
      var p := Run(limits, Boot(size), steps[..|steps| - 1]);
      RunBoots(limits, size, steps[..|steps| - 1], i);
      RunKeeps(limits, size, steps[..|steps| - 1]);
      StepBoots(limits, p, steps[|steps| - 1], i);
    }
  }

  /**
   * A slot of a running pool has no worker and none on its way exactly when its
   * losses in a row are past the limit, or it lost its worker while the pool was
   * still booting.
   */
  lemma NoWorkerForAReason(limits: Limits, size: nat, steps: seq<Step>, i: nat)
    requires i < size && !Run(limits, Boot(size), steps).stopped
    ensures |Run(limits, Boot(size), steps).slots| == size
    ensures var s := Run(limits, Boot(size), steps).slots[i];
            s.worker.None? && !s.respawnTimer <==>
            LossesInARow(limits, size, steps, i) > limits.respawnLimit || LostAtBoot(limits, size, steps, i)
  {
    hide LostAtBoot, LossesInARow;
    var p := Run(limits, Boot(size), steps);
    FailuresAreLosses(limits, size, steps, i);
    RunKeeps(limits, size, steps);
    RunBoots(limits, size, steps, i);
    LostAtBootIff(limits, size, steps, i);
    assert WorkerOrReason(limits, p, i) && RespawnOk(limits, p.slots[i]);
  }

  // ------------------------------------------------ a slot lost while the pool boots

  predicate Dead(s: Slot) {
    s.worker.None? && !s.respawnTimer && !s.ready
  }

  lemma DeadStep(limits: Limits, p: State, step: Step, i: nat)
    requires i < |p.slots| && Dead(p.slots[i])
    ensures |Apply(limits, p, step).slots| == |p.slots| && Dead(Apply(limits, p, step).slots[i])
  {
    if i == Touched(p, step) {
      TouchedStands(limits, p, step);
      DeadTouched(limits, p, step);
    } else {
      OthersStand(limits, p, step, i);
    }
  }

  lemma DeadTouched(limits: Limits, p: State, step: Step)
    requires Touched(p, step) < |p.slots| && Dead(p.slots[Touched(p, step)])
    ensures Dead(TouchedSlot(limits, p, step))
  {
  }

  /** Nothing that can happen brings a dead slot back: every call to it is refused. */
  lemma {:induction false} DeadForGood(limits: Limits, p: State, steps: seq<Step>, i: nat)
    requires i < |p.slots| && Dead(p.slots[i])
    ensures var t := Run(limits, p, steps);
            && |t.slots| == |p.slots| && Dead(t.slots[i])
            && forall now, deadlineMs :: Apply(limits, t, Send(i, now, deadlineMs)) == t
  {
    if steps != [] {
      DeadForGood(limits, p, steps[..|steps| - 1], i);
      DeadStep(limits, Run(limits, p, steps[..|steps| - 1]), steps[|steps| - 1], i);
    }
  }

  lemma RunFour(limits: Limits, p: State, a: Step, b: Step, c: Step, d: Step)
    ensures Run(limits, p, [a, b, c, d]) ==
            Apply(limits, Apply(limits, Apply(limits, Apply(limits, p, a), b), c), d)
  {
    assert [a, b, c, d][..3] == [a, b, c] && [a, b, c][..2] == [a, b] && [a, b][..1] == [a] && [a][..0] == [];
    assert Run(limits, p, [a]) == Apply(limits, p, a);
    assert Run(limits, p, [a, b]) == Apply(limits, Run(limits, p, [a]), b);
    assert Run(limits, p, [a, b, c]) == Apply(limits, Run(limits, p, [a, b]), c);
  }

  lemma BootsWithout(limits: Limits)
    ensures var p := Run(limits, Boot(2), [ReadyArrives(0, 0, 0), WorkerGone(0, 0), ReadyArrives(1, 1, 0), BootEnds]);
            && !p.booting && !p.stopped && |p.slots| == 2 && p.slots[1].ready
            && Dead(p.slots[0]) && p.slots[0].failures == 0
  {
    hide Run;
    RunFour(limits, Boot(2), ReadyArrives(0, 0, 0), WorkerGone(0, 0), ReadyArrives(1, 1, 0), BootEnds);
    var a := FirstSlot(0).(ready := true, booted := true);
    var s1 := Apply(limits, Boot(2), ReadyArrives(0, 0, 0));
    assert s1.slots == [a, FirstSlot(1)] && s1.booting && !s1.stopped;
    var s2 := Apply(limits, s1, WorkerGone(0, 0));
    var dead := a.(worker := None, ready := false, lostAtBoot := true);
    assert s2.slots == [dead, FirstSlot(1)] && s2.booting && !s2.stopped;
    var s3 := Apply(limits, s2, ReadyArrives(1, 1, 0));
    assert s3.slots == [dead, FirstSlot(1).(ready := true, booted := true)] && s3.booting && !s3.stopped;
    assert forall s :: s in s3.slots ==> s.booted;
  }

  /** The pool booted with slot 0 refusing every call, whatever happens from here on. */
  ghost predicate BootedOneShort(limits: Limits, boot: seq<Step>) {
    var p := Run(limits, Boot(2), boot);
    && !p.booting && !p.stopped && |p.slots| == 2 && p.slots[0].failures == 0
    && forall more :: SlotZeroRefuses(limits, Run(limits, p, more))
  }

  ghost predicate SlotZeroRefuses(limits: Limits, p: State) {
    |p.slots| == 2 && !p.slots[0].ready && forall now, deadlineMs :: Apply(limits, p, Send(0, now, deadlineMs)) == p
  }

  /**
   * A worker that was ready and died while another was still booting is not
   * respawned, and the pool boots all the same: that slot refuses every call for
   * good, with not one of its respawns spent.
   */
  lemma LostWhileBootingIsLostForGood(limits: Limits)
    ensures exists boot :: BootedOneShort(limits, boot)
  {
    var boot := [ReadyArrives(0, 0, 0), WorkerGone(0, 0), ReadyArrives(1, 1, 0), BootEnds];
    BootsWithout(limits);
    var p := Run(limits, Boot(2), boot);
    forall more ensures SlotZeroRefuses(limits, Run(limits, p, more)) {
      DeadForGood(limits, p, more, 0);
    }
    assert BootedOneShort(limits, boot);
  }
}
