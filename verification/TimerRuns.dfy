/** What every run of the timer queue keeps, and what follows for whole runs. */
module TimerRuns {
  import opened TimerSpec

  function Init(clock: Time): State {
    State(Core(map[], {}, {}, false, Disarmed), Idle, [], clock, [], [], 0)
  }

  // ----- creation

  lemma AddAddrsSnoc(tasks: seq<Task>, t: Task)
    ensures AddAddrs(tasks + [t]) == AddAddrs(tasks) + if t.AddTask? then {t.addr} else {}
  {
    var all := tasks + [t];
    assert all[|tasks|] == t;
    assert forall i :: 0 <= i < |tasks| ==> all[i] == tasks[i];
  }

  lemma AddAddrsCons(tasks: seq<Task>)
    requires tasks != []
    ensures AddAddrs(tasks) == (if tasks[0].AddTask? then {tasks[0].addr} else {}) + AddAddrs(tasks[1..])
  {
    assert forall i :: 1 <= i < |tasks| ==> tasks[i] == tasks[1..][i - 1];
    assert forall i :: 0 <= i < |tasks| - 1 ==> tasks[1..][i] == tasks[i + 1];
  }

  /** A new timer, at an address nobody uses and with the next sequence number, disturbs nothing
      that is known about the others. */
  lemma CreateNames(heap: map<Addr, Timer>, born: seq<Timer>, a: Addr, t: Timer)
    requires Named(heap, born) && a !in heap && a < ADDR_MAX
    requires t.sequence == |born| && (t.repeat ==> 0 <= t.interval)
    ensures Named(heap[a := t], born + [t])
  {
  }

  lemma CreateSchedules(heap: map<Addr, Timer>, born: seq<Timer>, a: Addr, t: Timer,
                        p: Phase, log: seq<Firing>, batches: nat)
    requires Scheduled(heap, p, log, batches) && a !in heap && t.sequence == |born|
    requires Punctual(born, log, batches)
    ensures Scheduled(heap[a := t], p, log, batches) && Punctual(born + [t], log, batches)
    ensures p.Calling? && Followed(heap, p, log, batches) ==> Followed(heap[a := t], p, log, batches)
  {
  }

  /** The common part of the two ways to add a timer. */
  ghost predicate Created(s: State, s': State, a: Addr) {
    && Named(s'.core.heap, s'.born) && Punctual(s'.born, s.log, s.batches)
    && Scheduled(s'.core.heap, s.phase, s.log, s.batches)
    && (s.phase.Calling? ==> Followed(s'.core.heap, s.phase, s.log, s.batches))
    && Sound(s'.core) && Watched(s'.core, s.clock)
    && s'.core.heap.Keys == s.core.heap.Keys + {a}
  }

  lemma CreateKeeps(s: State, a: Addr, when: Time, interval: int, repeat: bool)
    requires Inv(s) && Fresh(s, a) && (repeat ==> 0 <= interval)
    ensures Created(s, Create(s, a, when, interval, repeat), a)
  {
    var t := Timer(when, interval, repeat, |s.born|);
    CreateNames(s.core.heap, s.born, a, t);
    CreateSchedules(s.core.heap, s.born, a, t, s.phase, s.log, s.batches);
  }

  // ----- insertion

  /** Inserting keeps the timerfd early enough, whatever its expiration and whether or not a
      batch is being run. */
  lemma InsertWatches(c: Core, a: Addr, clock: Time)
    requires Sound(c) && Watched(c, clock) && a in c.heap && a !in c.queued
    ensures Sound(Insert(c, a, clock)) && Watched(Insert(c, a, clock), clock)
  {
    var c' := Insert(c, a, clock);
    forall b | b in c'.queued && (!c.calling || c.heap[b].expiration <= 0)
      ensures Covers(c'.fd, c.heap[b].expiration)
    {
      if !EarlierThanAll(c, a) && b == a {
        var d :| d in c.queued && c.heap[d].expiration <= c.heap[a].expiration;
        assert Covers(c.fd, c.heap[d].expiration);
      }
    }
  }

  lemma PostAddKeeps(s: State, a: Addr, when: Time, interval: int, repeat: bool)
    requires Inv(s) && Enabled(s, PostAdd(a, when, interval, repeat))
    ensures Inv(Step(s, PostAdd(a, when, interval, repeat)))
  {
    CreateKeeps(s, a, when, interval, repeat);
    AddAddrsSnoc(s.tasks, AddTask(a));
  }

  lemma AddNowKeeps(s: State, a: Addr, when: Time, interval: int, repeat: bool)
    requires Inv(s) && Enabled(s, AddNow(a, when, interval, repeat))
    ensures Inv(Step(s, AddNow(a, when, interval, repeat)))
  {
    CreateKeeps(s, a, when, interval, repeat);
    InsertWatches(Create(s, a, when, interval, repeat).core, a, s.clock);
  }

  lemma TickKeeps(s: State, to: Time)
    requires Inv(s) && Enabled(s, Tick(to))
    ensures Inv(Step(s, Tick(to)))
  {
  }

  lemma PostCancelKeeps(s: State, id: TimerId)
    requires Inv(s)
    ensures Inv(Step(s, PostCancel(id)))
  {
    AddAddrsSnoc(s.tasks, CancelTask(id));
  }

  // ----- cancellation

  /** Freeing timers outside the batch leaves names, schedule and log as they are. */
  lemma FreeKeeps(heap: map<Addr, Timer>, born: seq<Timer>, gone: Addr, p: Phase, log: seq<Firing>, batches: nat)
    requires Named(heap, born) && Scheduled(heap, p, log, batches) && gone !in BatchAddrs(p)
    requires p.Calling? ==> Followed(heap, p, log, batches)
    ensures Named(heap - {gone}, born) && Scheduled(heap - {gone}, p, log, batches)
    ensures p.Calling? ==> Followed(heap - {gone}, p, log, batches)
  {
  }

  lemma CancelKeeps(s: State, id: TimerId)
    requires Inv(s)
    ensures Inv(s.(core := Cancel(s.core, id)))
  {
    if IsQueued(s.core, id) {
      FreeKeeps(s.core.heap, s.born, id.addr, s.phase, s.log, s.batches);
    }
  }

  lemma RunTaskKeeps(s: State)
    requires Inv(s) && Enabled(s, RunTask)
    ensures Inv(Step(s, RunTask))
  {
    AddAddrsCons(s.tasks);
    var s1 := s.(tasks := s.tasks[1..]);
    match s.tasks[0]
    case AddTask(a) =>
      InsertWatches(s.core, a, s.clock);
      assert a !in AddAddrs(s.tasks[1..]) by {
        assert forall i :: 0 <= i < |s.tasks| - 1 ==> s.tasks[1..][i] == s.tasks[i + 1];
      }
    case CancelTask(id) =>
      CancelKeeps(s1, id);
  }

  // ----- the batch

  lemma FireKeeps(s: State, order: seq<Addr>, drained: bool)
    requires Inv(s) && Enabled(s, Fire(order, drained))
    ensures Inv(Step(s, Fire(order, drained)))
  {
    FireOwns(s.core.heap, s.core.queued, s.tasks, order);
    FireSchedules(s.core.heap, order, s.clock, s.log, s.batches);
  }

  /** The batch takes its timers over from the queue. */
  lemma FireOwns(heap: map<Addr, Timer>, queued: set<Addr>, tasks: seq<Task>, order: seq<Addr>)
    requires Owned(heap.Keys, queued, tasks, Idle) && InOrder(heap, order) && forall a :: a in order ==> a in queued
    ensures forall now :: Owned(heap.Keys, queued - (set a | a in order), tasks, Calling(now, order, 0))
  {
  }

  lemma FireSchedules(heap: map<Addr, Timer>, order: seq<Addr>, now: Time, log: seq<Firing>, batches: nat)
    requires Scheduled(heap, Idle, log, batches) && InOrder(heap, order) && Past(log, now) && 0 < now
    requires forall i :: 0 <= i < |order| ==> heap[order[i]].expiration <= now
    ensures Scheduled(heap, Calling(now, order, 0), log, batches + 1)
  {
    assert forall i :: 0 <= i < |order| ==> order[i] !in BatchAddrs(Idle);
  }

  /** Running the next callback: it is due and rested, so the log stays punctual. */
  lemma CallKeeps(heap: map<Addr, Timer>, born: seq<Timer>, p: Phase, log: seq<Firing>, batches: nat)
    requires Named(heap, born) && Punctual(born, log, batches)
    requires p.Calling? && Ready(heap, p, log, batches) && p.next < |p.batch|
    ensures var f := Firing(heap[p.batch[p.next]].sequence, batches, p.now);
      Punctual(born, log + [f], batches) && Ready(heap, p.(next := p.next + 1), log + [f], batches)
  {
    var t := heap[p.batch[p.next]];
    assert Descends(born, t) && Rested(t, log, batches);
  }

  lemma CallFollows(heap: map<Addr, Timer>, p: Phase, log: seq<Firing>, batches: nat)
    requires p.Calling? && InOrder(heap, p.batch) && Followed(heap, p, log, batches) && p.next < |p.batch|
    ensures var f := Firing(heap[p.batch[p.next]].sequence, batches, p.now);
      Followed(heap, p.(next := p.next + 1), log + [f], batches)
  {
  }

  /** The other timers have other names, so they stay rested. */
  lemma CallSpares(heap: map<Addr, Timer>, born: seq<Timer>, p: Phase, log: seq<Firing>, batches: nat, a: Addr)
    requires Named(heap, born) && p.Calling? && InOrder(heap, p.batch) && p.next < |p.batch|
    requires a in heap && a !in p.batch && Rested(heap[a], log, batches + 1)
    ensures Rested(heap[a], log + [Firing(heap[p.batch[p.next]].sequence, batches, p.now)], batches + 1)
  {
    assert p.batch[p.next] in p.batch;
  }

  lemma CallNextKeeps(s: State)
    requires Inv(s) && Enabled(s, CallNext)
    ensures Inv(Step(s, CallNext))
  {
    hide Punctual, Rested;
    var heap, p := s.core.heap, s.phase;
    CallKeeps(heap, s.born, p, s.log, s.batches);
    CallFollows(heap, p, s.log, s.batches);
    var log' := s.log + [Firing(heap[p.batch[p.next]].sequence, s.batches, p.now)];
    forall a | a in heap && a !in BatchAddrs(p.(next := p.next + 1))
      ensures Rested(heap[a], log', s.batches + 1)
    {
      CallSpares(heap, s.born, p, s.log, s.batches, a);
    }
    assert Scheduled(heap, p.(next := p.next + 1), log', s.batches);
  }

  /** The timers that come back are named, rested and placed in the queue; the others are gone. */
  lemma RequeueNames(c: Core, born: seq<Timer>, order: seq<Addr>, now: Time)
    requires Named(c.heap, born) && forall i :: 0 <= i < |order| ==> order[i] in c.heap && c.heap[order[i]].expiration <= now
    ensures Named(Requeue(c, order, now).heap, born)
  {
    var heap' := Requeue(c, order, now).heap;
    forall a | a in heap'
      ensures Descends(born, heap'[a])
    {
      assert Descends(born, c.heap[a]);
    }
  }

  lemma RequeueSchedules(c: Core, order: seq<Addr>, now: Time, p: Phase, log: seq<Firing>, batches: nat)
    requires p.Calling? && p.batch == order && p.now == now
    requires Scheduled(c.heap, p, log, batches) && forall i :: 0 <= i < |log| ==> log[i].batch <= batches
    ensures Scheduled(Requeue(c, order, now).heap, Idle, log, batches)
  {
    var heap' := Requeue(c, order, now).heap;
    forall a | a in heap'
      ensures Rested(heap'[a], log, batches + 1)
    {
      if a !in order {
        assert Rested(c.heap[a], log, batches + 1);
      }
    }
  }

  lemma RequeueOwns(c: Core, order: seq<Addr>, now: Time, tasks: seq<Task>, p: Phase)
    requires p.Calling? && p.batch == order && forall i :: 0 <= i < |order| ==> order[i] in c.heap
    requires Owned(c.heap.Keys, c.queued, tasks, p)
    ensures Owned(Requeue(c, order, now).heap.Keys, Requeue(c, order, now).queued, tasks, Idle)
  {
  }

  /** Rearming covers the whole queue again.  When the earliest expiration is not a valid
      timestamp the timerfd is left as it was set during the batch, which is early enough. */
  lemma RearmWatches(c: Core, clock: Time)
    requires Sound(c) && 0 < clock && (c.fd.Armed? ==> 0 < c.fd.at <= clock)
    requires forall a :: a in c.queued && c.heap[a].expiration <= 0 ==> Covers(c.fd, c.heap[a].expiration)
    ensures Watched(Rearm(c, clock), clock)
  {
    if c.queued != {} && Earliest(c) <= 0 {
      var b :| b in c.queued && c.heap[b].expiration == Earliest(c);
      assert Covers(c.fd, c.heap[b].expiration);
    }
  }

  lemma DoneKeeps(s: State)
    requires Inv(s) && Enabled(s, Done)
    ensures Inv(Step(s, Done))
  {
    var c, p := s.core.(calling := false), s.phase;
    RequeueNames(c, s.born, p.batch, p.now);
    RequeueSchedules(c, p.batch, p.now, p, s.log, s.batches);
    RequeueOwns(c, p.batch, p.now, s.tasks, p);
    RearmWatches(Requeue(c, p.batch, p.now), s.clock);
  }

  // ----- whole runs

  lemma StepKeeps(s: State, ev: Event)
    requires Inv(s) && Enabled(s, ev)
    ensures Inv(Step(s, ev))
  {
    match ev
    case Tick(to) => TickKeeps(s, to);
    case PostAdd(a, when, interval, repeat) => PostAddKeeps(s, a, when, interval, repeat);
    case AddNow(a, when, interval, repeat) => AddNowKeeps(s, a, when, interval, repeat);
    case PostCancel(id) => PostCancelKeeps(s, id);
    case CancelNow(id) => CancelKeeps(s, id);
    case RunTask => RunTaskKeeps(s);
    case Fire(order, drained) => FireKeeps(s, order, drained);
    case CallNext => CallNextKeeps(s);
    case Done => DoneKeeps(s);
  }

  /** `evs` can happen one after the other from `s`. */
  ghost predicate Possible(s: State, evs: seq<Event>)
    requires Inv(s)
    decreases |evs|
  {
    evs == [] || (Enabled(s, evs[0]) && (StepKeeps(s, evs[0]); Possible(Step(s, evs[0]), evs[1..])))
  }

  ghost function After(s: State, evs: seq<Event>): State
    requires Inv(s) && Possible(s, evs)
    decreases |evs|
  {
    if evs == [] then s else
      StepKeeps(s, evs[0]);
      After(Step(s, evs[0]), evs[1..])
  }

  lemma StartsInv(clock: Time)
    requires 0 < clock
    ensures Inv(Init(clock))
  {
  }

  /** The invariant holds after every run, in particular from `Init`: an empty queue and a clock
      after the epoch.  The lemmas below say what it means. */
  lemma {:induction false} EveryRunKeepsInv(s: State, evs: seq<Event>)
    requires Inv(s) && Possible(s, evs)
    ensures Inv(After(s, evs))
    decreases |evs|
  {
    if evs != [] {
      StepKeeps(s, evs[0]);
      EveryRunKeepsInv(Step(s, evs[0]), evs[1..]);
    }
  }

  /** A run followed by one more event. */
  lemma {:induction false} RunSnoc(s: State, evs: seq<Event>, ev: Event)
    requires Inv(s) && Possible(s, evs) && Inv(After(s, evs)) && Enabled(After(s, evs), ev)
    ensures Possible(s, evs + [ev]) && After(s, evs + [ev]) == Step(After(s, evs), ev)
    decreases |evs|
  {
    var all := evs + [ev];
    if evs == [] {
      StepKeeps(s, ev);
      assert all[1..] == [];
    } else {
      StepKeeps(s, evs[0]);
      assert all[0] == evs[0] && all[1..] == evs[1..] + [ev];
      RunSnoc(Step(s, evs[0]), evs[1..], ev);
    }
  }

  /** The events `evs` lead the machine from `s` to `s'`. */
  ghost predicate Leads(s: State, evs: seq<Event>, s': State) {
    Inv(s) && Possible(s, evs) && s' == After(s, evs) && Inv(s')
  }

  lemma LeadsNowhere(s: State)
    requires Inv(s)
    ensures Leads(s, [], s)
  {
  }

  lemma LeadsOn(s: State, evs: seq<Event>, t: State, more: seq<Event>, t': State)
    requires Leads(s, evs, t) && |more| <= 1 && Inv(t')
    requires if more == [] then t' == t else Enabled(t, more[0]) && t' == Step(t, more[0])
    ensures Leads(s, evs + more, t')
  {
    if more == [] {
      assert evs + more == evs;
    } else {
      assert more == [more[0]];
      RunSnoc(s, evs, more[0]);
    }
  }

  lemma {:induction false} LeadsTrans(s: State, evs: seq<Event>, t: State, more: seq<Event>, u: State)
    requires Leads(s, evs, t) && Leads(t, more, u)
    ensures Leads(s, evs + more, u)
    decreases |more|
  {
    if more == [] {
      assert evs + more == evs;
    } else {
      StepKeeps(t, more[0]);
      LeadsOn(s, evs, t, [more[0]], Step(t, more[0]));
      LeadsTrans(s, evs + [more[0]], Step(t, more[0]), more[1..], u);
      assert evs + [more[0]] + more[1..] == evs + more;
    }
  }

  lemma LeadsCons(s: State, ev: Event, t: State, evs: seq<Event>, u: State)
    requires Inv(s) && Enabled(s, ev) && t == Step(s, ev) && Leads(t, evs, u)
    ensures Leads(s, [ev] + evs, u)
  {
    assert ([ev] + evs)[1..] == evs;
  }

  // ----- ownership

  /** At all times each live timer is in exactly one place, and no two live timers
      share a sequence number: nothing is freed twice, run after it was freed, or lost. */
  lemma OneOwner(s: State, a: Addr)
    requires Inv(s)
    ensures a in s.core.heap <==> (a in AddAddrs(s.tasks) || a in s.core.queued || a in BatchAddrs(s.phase))
    ensures !(a in AddAddrs(s.tasks) && a in s.core.queued)
    ensures !(a in AddAddrs(s.tasks) && a in BatchAddrs(s.phase))
    ensures !(a in s.core.queued && a in BatchAddrs(s.phase))
    ensures a in s.core.heap ==> forall b :: b in s.core.heap && s.core.heap[b].sequence == s.core.heap[a].sequence ==> b == a
  {
  }

  // ----- no timer is forgotten

  /** Outside `handleRead`, if any timer is queued the timerfd is set (or has fired and was not
      read), and it fires no later than the earliest expiration or 100us after it was set. */
  lemma NoTimerForgotten(s: State)
    requires Inv(s) && s.phase.Idle? && s.core.queued != {}
    ensures Sound(s.core) && s.core.fd.Armed? && s.core.fd.at <= s.clock
    ensures s.core.fd.deadline <= Max(Earliest(s.core), s.core.fd.at + MIN_DELAY)
  {
    var a :| a in s.core.queued && s.core.heap[a].expiration == Earliest(s.core);
    assert Covers(s.core.fd, s.core.heap[a].expiration);
  }

  /** So once the clock passes the deadline, `handleRead` runs; and it takes every due timer and
      leaves every other one queued. */
  lemma FireTakesAllDue(s: State, order: seq<Addr>, drained: bool, a: Addr)
    requires Inv(s) && Enabled(s, Fire(order, drained)) && a in s.core.queued
    ensures a in BatchAddrs(Step(s, Fire(order, drained)).phase) <==> s.core.heap[a].expiration <= s.clock
    ensures a in Step(s, Fire(order, drained)).core.queued <==> s.clock < s.core.heap[a].expiration
  {
  }

  /** When a batch ends, the log ends with exactly its timers, in order of expiration. */
  lemma BatchRunsInOrder(s: State)
    requires Inv(s) && Enabled(s, Done)
    ensures |s.phase.batch| <= |s.log| && InOrder(s.core.heap, s.phase.batch)
    ensures forall i, j :: 0 <= i < j < |s.phase.batch| ==>
      var t, u := s.core.heap[s.phase.batch[i]], s.core.heap[s.phase.batch[j]];
      t.expiration < u.expiration || (t.expiration == u.expiration && s.phase.batch[i] < s.phase.batch[j])
    ensures forall i :: 0 <= i < |s.phase.batch| ==>
      s.log[|s.log| - |s.phase.batch| + i] == Firing(s.core.heap[s.phase.batch[i]].sequence, s.batches, s.phase.now)
  {
  }

  // ----- punctuality

  /** Over any run, no timer runs before its time, a one-shot timer runs at most once, and two
      runs of a repeating timer have batch times at least its interval apart. */
  lemma RunsArePunctual(s: State, i: nat, j: nat)
    requires Inv(s) && i < j < |s.log|
    ensures s.log[j].timer < |s.born| && s.born[s.log[j].timer].expiration <= s.log[j].now <= s.clock
    ensures s.log[i].timer == s.log[j].timer ==>
      s.born[s.log[i].timer].repeat && s.log[i].now + s.born[s.log[i].timer].interval <= s.log[j].now
  {
  }
}
