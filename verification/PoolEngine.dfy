/**
 * The handlers of the worker pool as they run (apps/sho/src/pool.ts), each proved
 * to do to the fields what the pool's step does to its state; and the hash that
 * gives a context its slot.
 */
module PoolEngine {
  import opened Wrappers
  import opened Pool

  class ShoPool {
    const limits: Limits
    var slots: seq<Slot>
    var stopped: bool
    var booting: bool
    var nextId: nat
    var nextWorker: nat
    var disposed: nat
    var settled: seq<Settlement>
    var posts: seq<Post>
    var answers: seq<Post>
    var lost: seq<nat>

    ghost function Value(): State
      reads this
    {
      State(slots, stopped, booting, nextId, nextWorker, disposed, settled, posts, answers, lost)
    }

    constructor (size: nat, limits: Limits)
      ensures Value() == Boot(size) && this.limits == limits
    {
      this.limits := limits;
      slots := seq(size, i requires 0 <= i => FirstSlot(i));
      stopped, booting, nextId, nextWorker, disposed := false, true, 1, size, 0;
      settled, posts, answers, lost := [], [], [], [];
    }

    /** Tell a caller, unless it was told already. */
    method SettleCall(call: Call, reply: Reply)
      modifies this`settled
      ensures settled == old(settled) + SettleOne(Some(call), reply)
    {
      if call.pending {
        settled := settled + [Settlement(call.id, reply)];
      }
    }

    /** Takes overdue calls off the front and tells them. */
    method SkipOverdue(i: nat, s: Slot, now: int) returns (slot: Slot)
      requires Idle(s)
      modifies this`settled
      ensures Idle(slot) && Skips(i, slot, s, now)
      ensures settled + PumpSettles(slot, now) == old(settled) + PumpSettles(s, now)
      ensures slot.queue == [] || slot.queue[0].expiresAt > now
    {
      slot := s;
      ghost var told: seq<Settlement> := [];
      while slot.queue != [] && slot.queue[0].expiresAt - now <= 0
        invariant Skipped(i, s, slot, told, now)
        invariant settled == old(settled) + told
        decreases |slot.queue|
      {
        SkipOne(i, s, slot, told, now);
        told := told + SettleOne(Some(slot.queue[0]), Deadline);
        SettleCall(slot.queue[0], Deadline);
        slot := slot.(queue := slot.queue[1..]);
      }
      assert old(settled) + (told + PumpSettles(slot, now)) == settled + PumpSettles(slot, now);
    }

    /** Then the first live call runs. */
    method RunNext(i: nat, s: Slot, now: int) returns (slot: Slot)
      requires Idle(s)
      modifies this`settled, this`posts
      ensures slot == Pumped(s, now)
      ensures settled == old(settled) + PumpSettles(s, now)
      ensures posts == old(posts) + PumpPosts(i, s, now)
    {
      slot := SkipOverdue(i, s, now);
      assert settled + [] == settled && posts + [] == posts;
      if slot.queue != [] {
        NextRuns(i, slot, now);
        var next := slot.queue[0];
        slot := slot.(queue := slot.queue[1..], running := Some(next.(timer := true, hangTimer := true)));
        posts := posts + [Post(i, slot.worker.value, next.id)];
      } else {
        NothingRuns(i, slot, now);
      }
    }

    method Pump(i: nat, now: int)
      requires i < |slots|
      modifies this`slots, this`settled, this`posts
      ensures slots == old(slots)[i := Pumped(old(slots[i]), now)]
      ensures settled == old(settled) + PumpSettles(old(slots[i]), now)
      ensures posts == old(posts) + PumpPosts(i, old(slots[i]), now)
    {
      var slot := slots[i];
      if Idle(slot) {
        slot := RunNext(i, slot, now);
      }
      slots := slots[i := slot];
    }

    /** Every waiting call told, and the slot emptied. */
    method Drain(i: nat, reply: Reply)
      requires i < |slots|
      modifies this`slots, this`settled
      ensures slots == old(slots)[i := Drained(old(slots[i]))]
      ensures settled == old(settled) + DrainSettles(old(slots[i]), reply)
    {
      var s := slots[i];
      slots := slots[i := s.(worker := None, ready := false, running := None, queue := [])];
      if s.running.Some? {
        SettleCall(s.running.value, reply);
      }
      ghost var base := settled;
      assert base == old(settled) + SettleOne(s.running, reply);
      for k := 0 to |s.queue|
        invariant slots == old(slots)[i := Drained(s)]
        invariant settled == base + Settle(s.queue[..k], Busy)
      {
        assert s.queue[..k + 1][..k] == s.queue[..k];
        SettleCall(s.queue[k], Busy);
      }
      assert s.queue[..|s.queue|] == s.queue;
      assert settled == old(settled) + (SettleOne(s.running, reply) + Settle(s.queue, Busy));
    }

    method Lose(i: nat, loss: Loss)
      requires i < |slots| && slots[i].worker.Some?
      modifies this`slots, this`settled, this`lost
      ensures Value() == LoseStep(limits, old(Value()), i, loss)
    {
      hide DrainSettles, Settle, SettleOne;
      var victim := slots[i].worker;
      Drain(i, if loss == Hung then Deadline else Busy);
      assert posts + [] == posts;
      lost := lost + [victim.value];
      var s := slots[i];
      if stopped || booting {
        slots := slots[i := s.(lostAtBoot := s.lostAtBoot || booting)];
        return;
      }
      s := s.(failures := s.failures + 1);
      if s.failures <= limits.respawnLimit {
        s := s.(respawnTimer := true);
      }
      slots := slots[i := s];
    }

    /** Accepts a call, or refuses it at once. */
    method Send(i: nat, now: int, deadlineMs: int) returns (accepted: Option<nat>)
      requires i < |slots|
      modifies this`slots, this`settled, this`posts, this`nextId
      ensures Value() == Apply(limits, old(Value()), Step.Send(i, now, deadlineMs))
      ensures accepted.None? <==>
              old(booting) || old(stopped) || !old(slots)[i].ready || Load(old(slots)[i]) >= limits.queueLimit
      ensures accepted.Some? ==> accepted.value == old(nextId)
    {
      hide Pumped, PumpSettles, PumpPosts;
      var s := slots[i];
      if booting || stopped || !s.ready || |s.queue| + (if s.running.Some? then 1 else 0) >= limits.queueLimit {
        return None;
      }
      var id := nextId;
      nextId := nextId + 1;
      var budget := if deadlineMs > 0 then deadlineMs else 0;
      slots := slots[i := s.(queue := s.queue + [Call(id, now + budget, true, true, false)])];
      Pump(i, now);
      accepted := Some(id);
    }

    method OnMessageReady(i: nat, worker: nat, now: int)
      requires i < |slots|
      modifies this`slots, this`settled, this`posts
      ensures Value() == Apply(limits, old(Value()), ReadyArrives(i, worker, now))
    {
      if slots[i].worker != Some(worker) {
        return;
      }
      slots := slots[i := slots[i].(ready := true, failures := 0, booted := true, respawns := 0)];
      Pump(i, now);
    }

    method OnMessageAnswer(i: nat, worker: nat, id: nat, now: int)
      requires i < |slots|
      modifies this`slots, this`settled, this`posts, this`answers
      ensures Value() == Apply(limits, old(Value()), AnswerArrives(i, worker, id, now))
    {
      hide Pumped, PumpSettles, PumpPosts;
      var s := slots[i];
      if s.worker != Some(worker) || s.running.None? || s.running.value.id != id {
        return;
      }
      slots := slots[i := s.(running := None)];
      SettleCall(s.running.value, Answer(worker));
      answers := answers + [Post(i, worker, id)];
      Pump(i, now);
      assert settled == old(settled) + (SettleOne(s.running, Answer(worker)) + PumpSettles(s.(running := None), now));
    }

    method OnDeadline(i: nat, id: nat)
      requires i < |slots| && TimerArmed(slots[i], id)
      modifies this`slots, this`settled
      ensures Value() == Apply(limits, old(Value()), DeadlineFires(i, id))
    {
      var s := slots[i];
      var at := IndexOf(s.queue, id);
      if at >= 0 {
        slots := slots[i := s.(queue := s.queue[..at] + s.queue[at + 1..])];
        SettleCall(s.queue[at], Deadline);
      } else {
        slots := slots[i := s.(running := Some(s.running.value.(timer := false, pending := false)))];
        SettleCall(s.running.value, Deadline);
      }
    }

    method OnRespawn(i: nat)
      requires i < |slots| && slots[i].respawnTimer
      modifies this`slots, this`nextWorker
      ensures Value() == Apply(limits, old(Value()), RespawnFires(i))
    {
      slots := slots[i := slots[i].(respawnTimer := false)];
      if !stopped {
        slots := slots[i := slots[i].(worker := Some(nextWorker), ready := false, respawns := slots[i].respawns + 1)];
        nextWorker := nextWorker + 1;
      }
    }

    /** One turn of the loop of dispose. */
    method DisposeSlot()
      requires stopped && !booting && disposed < |slots|
      modifies this`slots, this`settled, this`disposed
      ensures Value() == DisposeStep(old(Value()))
      ensures disposed == old(disposed) + 1
      ensures slots == old(slots)[old(disposed) := Emptied(old(slots)[old(disposed)])]
      ensures settled == old(settled) + DrainSettles(old(slots)[old(disposed)], Busy)
    {
      var s := slots[disposed];
      Drain(disposed, Busy);
      assert posts + [] == posts;
      slots := slots[disposed := Drained(s).(respawnTimer := false)];
      disposed := disposed + 1;
    }

    /** That loop when nothing else happens between its slots: every call is told, no slot keeps a worker. */
    method DisposeAll()
      requires !booting && disposed == 0
      modifies this`slots, this`settled, this`stopped, this`disposed
      ensures stopped && disposed == |slots| == |old(slots)|
      ensures forall i :: 0 <= i < |slots| ==> slots[i] == Emptied(old(slots)[i])
      ensures settled == old(settled) + AllTold(old(slots))
    {
      hide DisposeStep, Value, Emptied, DrainSettles;
      ghost var before := slots;
      stopped := true;
      while disposed < |slots|
        invariant stopped && disposed <= |slots| == |before|
        invariant forall i :: 0 <= i < disposed ==> slots[i] == Emptied(before[i])
        invariant forall i :: disposed <= i < |slots| ==> slots[i] == before[i]
        invariant settled == old(settled) + AllTold(before[..disposed])
      {
        assert before[..disposed + 1][..disposed] == before[..disposed];
        DisposeSlot();
      }
      assert before[..|before|] == before;
    }
  }

  /** A slot after dispose went over it. */
  function Emptied(s: Slot): Slot {
    Drained(s).(respawnTimer := false)
  }

  /** Every waiting call of every slot, told busy, slot after slot. */
  function AllTold(slots: seq<Slot>): seq<Settlement> {
    if slots == [] then [] else AllTold(slots[..|slots| - 1]) + DrainSettles(slots[|slots| - 1], Busy)
  }

  /** The head of the queue is live: it is the one that runs. */
  lemma NextRuns(i: nat, s: Slot, now: int)
    requires Idle(s) && s.queue != [] && s.queue[0].expiresAt > now
    ensures Overdue(s.queue, now) == 0
    ensures Pumped(s, now) == s.(queue := s.queue[1..], running := Some(s.queue[0].(timer := true, hangTimer := true)))
    ensures PumpSettles(s, now) == [] && PumpPosts(i, s, now) == [Post(i, s.worker.value, s.queue[0].id)]
  {
    assert s.queue[..0] == [];
  }

  /** The queue is empty: nothing runs. */
  lemma NothingRuns(i: nat, s: Slot, now: int)
    requires Idle(s) && s.queue == []
    ensures Pumped(s, now) == s && PumpSettles(s, now) == [] && PumpPosts(i, s, now) == []
  {
    assert s.queue[..0] == [];
  }

  /** Pumping either slot runs the same call and leaves the same slot. */
  ghost predicate Skips(i: nat, a: Slot, b: Slot, now: int) {
    Pumped(a, now) == Pumped(b, now) && PumpPosts(i, a, now) == PumpPosts(i, b, now)
  }

  /** The head of the queue is overdue: pumping is telling it and pumping the rest. */
  lemma HeadIsOverdue(i: nat, s: Slot, now: int)
    requires Idle(s) && s.queue != [] && s.queue[0].expiresAt <= now
    ensures var rest := s.(queue := s.queue[1..]);
            && Skips(i, rest, s, now)
            && PumpSettles(s, now) == SettleOne(Some(s.queue[0]), Deadline) + PumpSettles(rest, now)
  {
    var n := Overdue(s.queue, now);
    assert n == 1 + Overdue(s.queue[1..], now);
    if n < |s.queue| {
      assert s.queue[1..][n..] == s.queue[n + 1..];
    }
    SettleHead(s.queue[..n], Deadline);
    assert s.queue[..n][1..] == s.queue[1..][..n - 1];
  }

  /** The slot is what is left of `s` once these were told. */
  ghost predicate Skipped(i: nat, s: Slot, slot: Slot, told: seq<Settlement>, now: int) {
    Idle(slot) && Skips(i, slot, s, now) && PumpSettles(s, now) == told + PumpSettles(slot, now)
  }

  lemma SkipOne(i: nat, s: Slot, slot: Slot, told: seq<Settlement>, now: int)
    requires Skipped(i, s, slot, told, now) && slot.queue != [] && slot.queue[0].expiresAt <= now
    ensures Skipped(i, s, slot.(queue := slot.queue[1..]), told + SettleOne(Some(slot.queue[0]), Deadline), now)
  {
    HeadIsOverdue(i, slot, now);
    var rest := PumpSettles(slot.(queue := slot.queue[1..]), now);
    var head := SettleOne(Some(slot.queue[0]), Deadline);
    assert told + (head + rest) == told + head + rest;
  }

  lemma {:induction false} SettleHead(calls: seq<Call>, reply: Reply)
    requires calls != []
    ensures Settle(calls, reply) == SettleOne(Some(calls[0]), reply) + Settle(calls[1..], reply)
  {
    var n := |calls| - 1;
    if n == 0 {
      assert calls[..0] == [] == calls[1..];
    } else {
      SettleHead(calls[..n], reply);
      assert calls[..n][1..] == calls[1..][..n - 1];
    }
  }

  // ------------------------------------------------------------------- the slot

  /** UTF-16 code units of a key. */
  type CodeUnit = bv16

  const COLON: CodeUnit := 58

  /** The part of a context key before its first colon. */
  function CompanyOf(key: seq<CodeUnit>): seq<CodeUnit> {
    if key == [] || key[0] == COLON then [] else [key[0]] + CompanyOf(key[1..])
  }

  function HashStep(hash: bv32, unit: CodeUnit): bv32 {
    (hash ^ (unit as bv32)) * 16777619
  }

  function HashOf(company: seq<CodeUnit>): bv32 {
    if company == [] then 2166136261 else HashStep(HashOf(company[..|company| - 1]), company[|company| - 1])
  }

  method ShoSlotOf(key: seq<CodeUnit>, size: nat) returns (slot: nat)
    requires size > 0
    ensures slot < size
    ensures slot == HashOf(CompanyOf(key)) as int % size
  {
    var company := CompanyOf(key);
    var hash := HashLoop(company);
    slot := hash as int % size;
  }

  method HashLoop(company: seq<CodeUnit>) returns (hash: bv32)
    ensures hash == HashOf(company)
  {
    hash := 2166136261;
    for at := 0 to |company|
      invariant hash == HashOf(company[..at])
    {
      assert company[..at + 1][..at] == company[..at];
      hash := HashStep(hash, company[at]);
    }
    assert company[..|company|] == company;
  }

  /** The hash is FNV-1a: its published values for no text and for the letter a. */
  lemma HashIsFnv()
    ensures HashOf([]) == 0x811C9DC5 && HashOf([0x61]) == 0xE40C292C
  {
    assert [0x61 as CodeUnit][..0] == [];
    assert HashOf([0x61]) == HashStep(0x811C9DC5, 0x61);
  }

  /** Every context of one company goes to the same slot. */
  lemma {:induction false} CompanyStaysTogether(company: seq<CodeUnit>, a: seq<CodeUnit>, b: seq<CodeUnit>, size: nat)
    requires size > 0 && COLON !in company
    ensures CompanyOf(company + [COLON] + a) == company == CompanyOf(company + [COLON] + b)
    ensures HashOf(CompanyOf(company + [COLON] + a)) as int % size == HashOf(CompanyOf(company + [COLON] + b)) as int % size
  {
    if company != [] {
      assert (company + [COLON] + a)[1..] == company[1..] + [COLON] + a;
      assert (company + [COLON] + b)[1..] == company[1..] + [COLON] + b;
      CompanyStaysTogether(company[1..], a, b, size);
    }
  }
}
