/** What a cancellation achieves: it is final, except for a timer whose add task has not run yet. */
module TimerCancels {
  import opened TimerSpec
  import opened TimerRuns

  /** `id` is the name `addTimer` gave: if that timer is alive, it is at that address. */
  ghost predicate Genuine(s: State, id: TimerId) {
    id.sequence < |s.born| && forall a :: a in s.core.heap && s.core.heap[a].sequence == id.sequence ==> a == id.addr
  }

  lemma GenuineStep(s: State, id: TimerId, ev: Event)
    requires Inv(s) && Genuine(s, id) && Enabled(s, ev)
    ensures Genuine(Step(s, ev), id)
  {
  }

  /** A name stays good for ever: a timer never moves, and its number is never given again, even
      when its address is. */
  lemma {:induction false} GenuineForever(s: State, id: TimerId, evs: seq<Event>)
    requires Inv(s) && Genuine(s, id) && Possible(s, evs)
    ensures Genuine(After(s, evs), id)
    decreases |evs|
  {
    if evs != [] {
      StepKeeps(s, evs[0]);
      GenuineStep(s, id, evs[0]);
      GenuineForever(Step(s, evs[0]), id, evs[1..]);
    }
  }

  /** The timer named `k` has no future beyond batch `b`. */
  ghost predicate Doomed(s: State, k: nat, b: nat) {
    k < |s.born| && forall a :: a in s.core.heap && s.core.heap[a].sequence == k ==>
      s.phase.Calling? && s.batches == b && a in s.phase.batch && !Survives(s.core, a)
  }

  lemma DoomedStep(s: State, ev: Event, k: nat, b: nat)
    requires Inv(s) && Enabled(s, ev) && Doomed(s, k, b)
    ensures Doomed(Step(s, ev), k, b) && s.log <= Step(s, ev).log
    ensures forall i :: |s.log| <= i < |Step(s, ev).log| && Step(s, ev).log[i].timer == k ==>
      Step(s, ev).log[i].batch == b && exists a :: a in s.core.heap && s.core.heap[a].sequence == k
  {
    hide Watched, Punctual, Past, Followed;
  }

  lemma {:induction false} DoomedRun(s: State, evs: seq<Event>, k: nat, b: nat)
    requires Inv(s) && Possible(s, evs) && Doomed(s, k, b)
    ensures s.log <= After(s, evs).log
    ensures forall i :: |s.log| <= i < |After(s, evs).log| && After(s, evs).log[i].timer == k ==>
      After(s, evs).log[i].batch == b && exists a :: a in s.core.heap && s.core.heap[a].sequence == k
    decreases |evs|
  {
    if evs != [] {
      StepKeeps(s, evs[0]);
      DoomedStep(s, evs[0], k, b);
      DoomedRun(Step(s, evs[0]), evs[1..], k, b);
    }
  }

  /** Cancellation is final.  Once `cancelInLoop` is applied to a timer that is not still waiting
      in an add task (it is queued, or in the batch being run, or already freed), that timer never
      runs in a later batch; and if it was not in the batch being run, it never runs again. */
  lemma CancelIsFinal(s: State, id: TimerId, evs: seq<Event>)
    requires Inv(s) && Genuine(s, id)
    requires forall a :: a in AddAddrs(s.tasks) && a in s.core.heap ==> s.core.heap[a].sequence != id.sequence
    requires (CancelKeeps(s, id); Possible(Step(s, CancelNow(id)), evs))
    ensures (CancelKeeps(s, id); s.log <= After(Step(s, CancelNow(id)), evs).log)
    ensures (CancelKeeps(s, id);
      var log := After(Step(s, CancelNow(id)), evs).log;
      forall i :: |s.log| <= i < |log| && log[i].timer == id.sequence ==>
        s.phase.Calling? && id.addr in s.phase.batch && log[i].batch == s.batches)
  {
    CancelKeeps(s, id);
    var s1 := Step(s, CancelNow(id));
    DoomedRun(s1, evs, id.sequence, s.batches);
  }

  /** Cancelling one timer changes nothing for any other, not even for a timer that now lives at
      the address of a stale id. */
  lemma CancelSparesOthers(s: State, id: TimerId, b: Addr)
    requires Inv(s) && b in s.core.heap && s.core.heap[b].sequence != id.sequence
    ensures var c := Cancel(s.core, id);
      && b in c.heap && c.heap[b] == s.core.heap[b]
      && (b in c.queued <==> b in s.core.queued)
      && (b in BatchAddrs(s.phase) ==> (Survives(c, b) <==> Survives(s.core, b)))
  {
  }

  /** The condition of `CancelIsFinal` is needed: a cancel that reaches the loop before the add
      task of its timer is lost.  It changes nothing in the queue or in the end of the current
      batch, and the next batch forgets it. */
  lemma CancelBeforeInsertIsLost(s: State, id: TimerId, order: seq<Addr>, drained: bool)
    requires Inv(s) && id.addr in AddAddrs(s.tasks)
    ensures var c := Cancel(s.core, id);
      && c.heap == s.core.heap && c.queued == s.core.queued && c.fd == s.core.fd
      && Expire(c, order, drained) == Expire(s.core, order, drained)
      && (s.phase.Calling? ==>
            Requeue(c, s.phase.batch, s.phase.now).(canceling := {}) == Requeue(s.core, s.phase.batch, s.phase.now).(canceling := {}))
  {
    var c := Cancel(s.core, id);
    if s.phase.Calling? {
      assert forall a :: a in s.phase.batch ==> (Survives(c, a) <==> Survives(s.core, a));
      assert Requeue(c, s.phase.batch, s.phase.now).queued == Requeue(s.core, s.phase.batch, s.phase.now).queued;
    }
  }

  // ----- exactly when

  /** The timer named by `id` still waits for its add task. */
  ghost predicate Waiting(s: State, id: TimerId) {
    id.addr in AddAddrs(s.tasks) && id.addr in s.core.heap && s.core.heap[id.addr].sequence == id.sequence
  }

  ghost function Cancelled(s: State, id: TimerId): (s': State)
    requires Inv(s)
    ensures Inv(s')
  {
    CancelKeeps(s, id);
    Step(s, CancelNow(id))
  }

  /** No run of timer `k` is in a batch after number `b`. */
  predicate NoneLater(log: seq<Firing>, k: nat, b: nat) {
    forall i :: 0 <= i < |log| && log[i].timer == k ==> log[i].batch <= b
  }

  /** Whatever happens after the cancel, the timer never runs in a later batch. */
  ghost predicate Final(s: State, id: TimerId)
    requires Inv(s)
  {
    forall evs :: Possible(Cancelled(s, id), evs) ==> NoneLater(After(Cancelled(s, id), evs).log, id.sequence, s.batches)
  }

  /** A cancel is final if and only if the timer it names is not waiting for its add task. */
  lemma CancelFinalIff(s: State, id: TimerId)
    requires Inv(s) && Genuine(s, id)
    ensures Final(s, id) <==> !Waiting(s, id)
  {
    hide Inv, Possible, After;
    if Waiting(s, id) {
      var evs, s' := LostCancelRuns(s, id);
    } else {
      forall evs | Possible(Cancelled(s, id), evs)
        ensures NoneLater(After(Cancelled(s, id), evs).log, id.sequence, s.batches)
      {
        assert forall a :: a in AddAddrs(s.tasks) && a in s.core.heap ==> s.core.heap[a].sequence != id.sequence;
        CancelIsFinal(s, id, evs);
        LogBefore(s);
      }
    }
  }

  lemma LogBefore(s: State)
    requires Inv(s)
    ensures forall i :: 0 <= i < |s.log| ==> s.log[i].batch <= s.batches
  {
  }

  /** From any state, a timer cancelled while it waits can still be called in a later batch: finish
      the current batch, run the tasks up to its own, and let it expire. */
  lemma LostCancelRuns(s: State, id: TimerId) returns (evs: seq<Event>, s': State)
    requires Inv(s) && Waiting(s, id)
    ensures Leads(Cancelled(s, id), evs, s') && !NoneLater(s'.log, id.sequence, s.batches)
    ensures Possible(Cancelled(s, id), evs) && s' == After(Cancelled(s, id), evs)
  {
    hide Inv, Leads;
    var a := id.addr;
    var s0 := Cancelled(s, id);
    CancelWaits(s, id);
    var evs1, s1 := FinishBatch(s0, a);
    LeadsMeans(s0, evs1, s1);
    var evs2, s2 := RunTasksUpTo(s1, a);
    LeadsMeans(s1, evs2, s2);
    var evs3, s3 := ExpireAndCall(s2, a);
    LeadsTrans(s0, evs1, s1, evs2, s2);
    LeadsTrans(s0, evs1 + evs2, s2, evs3, s3);
    evs, s' := evs1 + evs2 + evs3, s3;
    LeadsMeans(s0, evs, s');
  }

  lemma LeadsMeans(s: State, evs: seq<Event>, s': State)
    requires Leads(s, evs, s')
    ensures Inv(s) && Possible(s, evs) && s' == After(s, evs) && Inv(s')
  {
  }

  /** The timer at `a` waits for its add task, and it is `t`. */
  ghost predicate Awaits(s: State, a: Addr, t: Timer) {
    a in AddAddrs(s.tasks) && a in s.core.heap && s.core.heap[a] == t
  }

  lemma CancelWaits(s: State, id: TimerId)
    requires Inv(s) && Waiting(s, id)
    ensures Awaits(Cancelled(s, id), id.addr, s.core.heap[id.addr]) && Cancelled(s, id).batches == s.batches
  {
  }

  /** The callbacks that are left are called. */
  lemma {:induction false} CallRest(s: State) returns (evs: seq<Event>, s': State)
    requires Inv(s) && s.phase.Calling? && s.phase.next <= |s.phase.batch|
    ensures Leads(s, evs, s') && s' == s.(phase := s.phase.(next := |s.phase.batch|), log := s'.log)
    decreases |s.phase.batch| - s.phase.next
  {
    hide Inv, Leads;
    if s.phase.next == |s.phase.batch| {
      evs, s' := [], s;
      LeadsNowhere(s);
    } else {
      CallNextKeeps(s);
      var s1 := Step(s, CallNext);
      evs, s' := CallRest(s1);
      LeadsCons(s, CallNext, s1, evs, s');
      evs := [CallNext] + evs;
    }
  }

  lemma FinishBatch(s: State, a: Addr) returns (evs: seq<Event>, s': State)
    requires Inv(s) && a in AddAddrs(s.tasks) && a in s.core.heap
    ensures Leads(s, evs, s') && s'.phase.Idle? && Awaits(s', a, s.core.heap[a]) && s'.batches == s.batches
  {
    hide Inv, Leads;
    if s.phase.Idle? {
      evs, s' := [], s;
      LeadsNowhere(s);
    } else {
      InBatch(s);
      var s1;
      evs, s1 := CallRest(s);
      assert Inv(s1) by { LeadsMeans(s, evs, s1); }
      DoneKeeps(s1);
      s' := Step(s1, Done);
      LeadsOn(s, evs, s1, [Done], s');
      evs := evs + [Done];
      DoneSpares(s1, a);
    }
  }

  lemma InBatch(s: State)
    requires Inv(s) && s.phase.Calling?
    ensures s.phase.next <= |s.phase.batch|
  {
  }

  /** The end of a batch does not touch a timer that waits. */
  lemma DoneSpares(s: State, a: Addr)
    requires Inv(s) && Enabled(s, Done) && a in AddAddrs(s.tasks) && a in s.core.heap
    ensures Awaits(Step(s, Done), a, s.core.heap[a])
  {
    assert a !in BatchAddrs(s.phase);
  }

  /** The tasks up to the one that adds `a` are run. */
  lemma {:induction false} RunTasksUpTo(s: State, a: Addr) returns (evs: seq<Event>, s': State)
    requires Inv(s) && s.phase.Idle? && a in AddAddrs(s.tasks) && a in s.core.heap
    ensures Leads(s, evs, s') && s'.phase.Idle? && s'.batches == s.batches
    ensures a in s'.core.queued && a in s'.core.heap && s'.core.heap[a] == s.core.heap[a]
    decreases |s.tasks|
  {
    hide Inv, Leads;
    assert s.tasks != [];
    RunTaskKeeps(s);
    var s1 := Step(s, RunTask);
    TaskSpares(s, a);
    if s.tasks[0] == AddTask(a) {
      evs, s' := [], s1;
      LeadsNowhere(s1);
    } else {
      evs, s' := RunTasksUpTo(s1, a);
    }
    LeadsCons(s, RunTask, s1, evs, s');
    evs := [RunTask] + evs;
  }

  /** A task leaves a waiting timer waiting, unless it is its own, which queues it. */
  lemma TaskSpares(s: State, a: Addr)
    requires Inv(s) && Enabled(s, RunTask) && a in AddAddrs(s.tasks) && a in s.core.heap
    ensures var s' := Step(s, RunTask);
      && s'.phase == s.phase && s'.batches == s.batches && |s'.tasks| < |s.tasks|
      && a in s'.core.heap && s'.core.heap[a] == s.core.heap[a]
      && (if s.tasks[0] == AddTask(a) then a in s'.core.queued else a in AddAddrs(s'.tasks))
  {
    AddAddrsCons(s.tasks);
  }

  lemma {:induction false} FirstExists(heap: map<Addr, Timer>, some: set<Addr>) returns (a: Addr)
    requires some != {} && some <= heap.Keys
    ensures a in some && forall b :: b in some && b != a ==> Before(heap, a, b)
    decreases |some|
  {
    a :| a in some;
    var others := some - {a};
    assert forall x :: x in some ==> x == a || x in others;
    if others != {} {
      var b := FirstExists(heap, others);
      if Before(heap, b, a) {
        a := b;
      }
    }
  }

  lemma {:induction false} OrderExists(heap: map<Addr, Timer>, some: set<Addr>) returns (order: seq<Addr>)
    requires some <= heap.Keys
    ensures InOrder(heap, order) && forall a :: a in order <==> a in some
    decreases |some|
  {
    if some == {} {
      order := [];
    } else {
      var a := FirstExists(heap, some);
      var rest := OrderExists(heap, some - {a});
      order := [a] + rest;
      assert forall i :: 0 <= i < |rest| ==> rest[i] in rest;
    }
  }

  /** There always is a batch to fire. */
  lemma BatchExists(c: Core, now: Time) returns (order: seq<Addr>)
    requires Sound(c)
    ensures IsBatch(c, order, now)
  {
    order := OrderExists(c.heap, set a | a in c.queued && c.heap[a].expiration <= now);
  }

  /** Time passes, the timerfd fires, and every callback of the batch is called. */
  lemma ExpireAndCall(s: State, a: Addr) returns (evs: seq<Event>, s': State)
    requires Inv(s) && s.phase.Idle? && a in s.core.queued && a in s.core.heap
    ensures Leads(s, evs, s') && !NoneLater(s'.log, s.core.heap[a].sequence, s.batches)
  {
    hide Inv, Leads;
    var later := TimerSpec.Max(s.clock, s.core.heap[a].expiration);
    TickKeeps(s, later);
    var s1 := Step(s, Tick(later));
    assert Sound(s1.core) by { IsSound(s1); }
    var order := BatchExists(s1.core, later);
    FireKeeps(s1, order, true);
    var s2 := Step(s1, Fire(order, true));
    evs, s' := CallRest(s2);
    LeadsCons(s1, Fire(order, true), s2, evs, s');
    LeadsCons(s, Tick(later), s1, [Fire(order, true)] + evs, s');
    evs := [Tick(later)] + ([Fire(order, true)] + evs);
    assert Inv(s') by { LeadsMeans(s, evs, s'); }
    assert a in order;
    CalledInBatch(s', a);
  }

  lemma IsSound(s: State)
    requires Inv(s)
    ensures Sound(s.core)
  {
  }

  /** At the end of a batch the log shows each of its timers. */
  lemma CalledInBatch(s: State, a: Addr)
    requires Inv(s) && Enabled(s, Done) && a in s.phase.batch && 0 < s.batches && a in s.core.heap
    ensures !NoneLater(s.log, s.core.heap[a].sequence, s.batches - 1)
  {
    BatchRunsInOrder(s);
    var i :| 0 <= i < |s.phase.batch| && s.phase.batch[i] == a;
    assert s.log[|s.log| - |s.phase.batch| + i] == Firing(s.core.heap[a].sequence, s.batches, s.phase.now);
  }

  // ----- cancels from other threads

  /** A cancel in another thread is queued behind all tasks, and changes nothing else. */
  lemma PostedIsQueued(s: State, id: TimerId)
    requires Inv(s)
    ensures Step(s, PostCancel(id)) == s.(tasks := s.tasks + [CancelTask(id)])
  {
  }

  /** The next task is the cancel of `id`. */
  ghost predicate CancelIsNext(s: State, id: TimerId) {
    s.phase.Idle? && s.tasks != [] && s.tasks[0] == CancelTask(id)
  }

  ghost function TaskRun(s: State): (s': State)
    requires Inv(s) && s.phase.Idle? && s.tasks != []
    ensures Inv(s')
  {
    RunTaskKeeps(s);
    Step(s, RunTask)
  }

  /** Whatever happens after the next task was run, the timer never runs in a later batch. */
  ghost predicate TaskIsFinal(s: State, id: TimerId)
    requires Inv(s) && s.phase.Idle? && s.tasks != []
  {
    forall evs :: Possible(TaskRun(s), evs) ==> NoneLater(After(TaskRun(s), evs).log, id.sequence, s.batches)
  }

  /** Once its task runs, a posted cancel is as final as one in the loop. */
  lemma PostedCancelFinalIff(s: State, id: TimerId)
    requires Inv(s) && Genuine(s, id) && CancelIsNext(s, id)
    ensures TaskIsFinal(s, id) <==> !Waiting(s, id)
  {
    var s1 := s.(tasks := s.tasks[1..]);
    AddAddrsCons(s.tasks);
    PopKeeps(s);
    assert TaskRun(s) == Cancelled(s1, id);
    hide Inv, Possible, After;
    CancelFinalIff(s1, id);
  }

  lemma PopKeeps(s: State)
    requires Inv(s) && s.tasks != [] && s.tasks[0].CancelTask?
    ensures Inv(s.(tasks := s.tasks[1..]))
  {
    AddAddrsCons(s.tasks);
  }

  /** No task adds the timer named by `id` behind one that cancels it. */
  ghost predicate AddsFirst(s: State, id: TimerId) {
    id.addr in s.core.heap && s.core.heap[id.addr].sequence == id.sequence ==>
      forall i, j :: 0 <= i < j < |s.tasks| && s.tasks[i] == CancelTask(id) ==> s.tasks[j] != AddTask(id.addr)
  }

  lemma AddsFirstStep(s: State, ev: Event, id: TimerId)
    requires Inv(s) && Enabled(s, ev) && Genuine(s, id) && AddsFirst(s, id)
    ensures AddsFirst(Step(s, ev), id)
  {
    hide Owned, Watched, Punctual, Scheduled, Past, Followed;
    var s' := Step(s, ev);
    if ev == RunTask {
      assert forall i :: 0 <= i < |s'.tasks| ==> s'.tasks[i] == s.tasks[i + 1];
    }
  }

  lemma {:induction false} AddsFirstRun(s: State, evs: seq<Event>, id: TimerId)
    requires Inv(s) && Possible(s, evs) && Genuine(s, id) && AddsFirst(s, id)
    ensures AddsFirst(After(s, evs), id)
    decreases |evs|
  {
    if evs != [] {
      StepKeeps(s, evs[0]);
      GenuineStep(s, id, evs[0]);
      AddsFirstStep(s, evs[0], id);
      AddsFirstRun(Step(s, evs[0]), evs[1..], id);
    }
  }

  /** A posted cancel is never lost: the queue is first in, first out, so the add task of a timer
      that was named when the cancel was posted runs before it. */
  lemma PostedCancelIsFinal(s: State, id: TimerId, evs: seq<Event>)
    requires Inv(s) && Genuine(s, id) && CancelTask(id) !in s.tasks && Possible(s, evs)
    requires CancelIsNext(After(s, evs), id)
    ensures Inv(After(s, evs)) && TaskIsFinal(After(s, evs), id)
  {
    hide Inv, Possible, After;
    EveryRunKeepsInv(s, evs);
    GenuineForever(s, id, evs);
    AddsFirstRun(s, evs, id);
    assert !Waiting(After(s, evs), id);
    PostedCancelFinalIff(After(s, evs), id);
  }

  // ----- a run from the start

  lemma RunCons(s: State, ev: Event, evs: seq<Event>)
    requires Inv(s) && Enabled(s, ev) && Inv(Step(s, ev)) && Possible(Step(s, ev), evs)
    ensures Possible(s, [ev] + evs) && After(s, [ev] + evs) == After(Step(s, ev), evs)
  {
    StepKeeps(s, ev);
    assert ([ev] + evs)[1..] == evs;
  }

  /** A run that shows it: the timer was cancelled, and still its callback is called. */
  lemma LostCancelStillRuns(s: State, id: TimerId, later: Time)
    requires Inv(s) && s.phase.Idle? && s.tasks == [AddTask(id.addr)] && s.core.queued == {}
    requires id.addr in s.core.heap && s.core.heap[id.addr].sequence == id.sequence
    requires s.clock <= later && s.core.heap[id.addr].expiration <= later
    ensures var evs := [CancelNow(id), RunTask, Tick(later), Fire([id.addr], true), CallNext];
      Possible(s, evs) && After(s, evs).log == s.log + [Firing(id.sequence, s.batches + 1, later)]
  {
    hide Possible, After, Owned, Named, Watched, Punctual, Scheduled;
    CancelKeeps(s, id);
    assert Step(s, CancelNow(id)) == s;
    RunTaskKeeps(s);
    var s2 := Step(s, RunTask);
    assert s2.core.queued == {id.addr} && s2.core.heap == s.core.heap;
    TickKeeps(s2, later);
    var s3 := Step(s2, Tick(later));
    FireCall(s3, id.addr);
    var evs := [Fire([id.addr], true), CallNext];
    RunCons(s2, Tick(later), evs);
    RunCons(s, RunTask, [Tick(later)] + evs);
    RunCons(s, CancelNow(id), [RunTask] + ([Tick(later)] + evs));
    assert [CancelNow(id)] + ([RunTask] + ([Tick(later)] + evs)) == [CancelNow(id), RunTask, Tick(later), evs[0], evs[1]];
  }

  lemma FireCall(s: State, a: Addr)
    requires Inv(s) && s.phase.Idle? && s.core.queued == {a} && s.core.heap[a].expiration <= s.clock
    ensures var evs := [Fire([a], true), CallNext];
      Possible(s, evs) && After(s, evs).log == s.log + [Firing(s.core.heap[a].sequence, s.batches + 1, s.clock)]
  {
    hide Owned, Named, Watched, Punctual, Scheduled;
    var fire := Fire([a], true);
    assert IsBatch(s.core, [a], s.clock);
    FireKeeps(s, [a], true);
    var s1 := Step(s, fire);
    CallNextKeeps(s1);
    RunCons(s1, CallNext, []);
    assert [CallNext] + [] == [CallNext];
    RunCons(s, fire, [CallNext]);
    assert [fire] + [CallNext] == [fire, CallNext];
  }

  /** The same from the start: a timer is added by another thread, cancelled in the loop before its
      task runs, and called. */
  lemma LostCancelRun(clock: Time, a: Addr, when: Time, interval: int, repeat: bool, later: Time)
    requires 0 < clock <= later && when <= later && a < ADDR_MAX && (repeat ==> 0 <= interval)
    ensures Inv(Init(clock))
    ensures var evs := [PostAdd(a, when, interval, repeat), CancelNow(TimerId(a, 0)), RunTask, Tick(later), Fire([a], true), CallNext];
      Possible(Init(clock), evs) && After(Init(clock), evs).log == [Firing(0, 1, later)]
  {
    hide Possible, After, Inv;
    var s, add, id := Init(clock), PostAdd(a, when, interval, repeat), TimerId(a, 0);
    StartsInv(clock);
    PostAddKeeps(s, a, when, interval, repeat);
    LostCancelStillRuns(Step(s, add), id, later);
    var evs := [CancelNow(id), RunTask, Tick(later), Fire([a], true), CallNext];
    RunCons(s, add, evs);
    assert [add] + evs == [add, evs[0], evs[1], evs[2], evs[3], evs[4]];
  }
}
