/** What a timer queue does, told without its two indices: the live timers, which of them are
    queued, the batch being run, the cancellations noted during a batch, and the one timerfd.
    Whole runs are sequences of events; module `TimerQueues` proves that the code follows them. */
module TimerSpec {

  type Addr = nat
  type Time = int

  /** The address used as the upper sentry of a search; no timer lives there. */
  const ADDR_MAX: Addr := 0xFFFF_FFFF_FFFF_FFFF

  const MIN_DELAY: int := 100

  /** Microseconds throughout.  `repeat` is "the interval in seconds is positive", so a repeating
      timer may have an interval that truncates to zero microseconds, never a negative one. */
  datatype Timer = Timer(expiration: Time, interval: int, repeat: bool, sequence: nat)

  datatype TimerId = TimerId(addr: Addr, sequence: nat)

  /** The timerfd: silent, or set at time `at` to become readable at `deadline` and to stay
      readable until it is read. */
  datatype Fd = Disarmed | Armed(at: Time, deadline: Time)

  function Max(a: int, b: int): int { if a <= b then b else a }

  /** The delay handed to `timerfd_settime`. */
  function Delay(when: Time, now: Time): int { Max(MIN_DELAY, when - now) }

  function Arm(when: Time, now: Time): Fd { Armed(now, now + Delay(when, now)) }

  /** The part of the state that belongs to the queue itself. */
  datatype Core = Core(heap: map<Addr, Timer>, queued: set<Addr>, canceling: set<TimerId>, calling: bool, fd: Fd)

  ghost predicate Sound(c: Core) {
    c.queued <= c.heap.Keys
  }

  /** `a` would expire before every queued timer. */
  ghost predicate EarlierThanAll(c: Core, a: Addr)
    requires Sound(c) && a in c.heap
  {
    forall b :: b in c.queued ==> c.heap[a].expiration < c.heap[b].expiration
  }

  /** `addTimerInLoop`. */
  ghost function Insert(c: Core, a: Addr, now: Time): Core
    requires Sound(c) && a in c.heap
  {
    c.(queued := c.queued + {a}, fd := if EarlierThanAll(c, a) then Arm(c.heap[a].expiration, now) else c.fd)
  }

  ghost predicate IsQueued(c: Core, id: TimerId)
    requires Sound(c)
  {
    id.addr in c.queued && c.heap[id.addr].sequence == id.sequence
  }

  /** `cancelInLoop`. */
  ghost function Cancel(c: Core, id: TimerId): Core
    requires Sound(c)
  {
    if IsQueued(c, id) then c.(heap := c.heap - {id.addr}, queued := c.queued - {id.addr})
    else if c.calling then c.(canceling := c.canceling + {id})
    else c
  }

  predicate Before(heap: map<Addr, Timer>, a: Addr, b: Addr)
    requires a in heap && b in heap
  {
    heap[a].expiration < heap[b].expiration || (heap[a].expiration == heap[b].expiration && a < b)
  }

  ghost predicate InOrder(heap: map<Addr, Timer>, order: seq<Addr>) {
    && (forall i :: 0 <= i < |order| ==> order[i] in heap)
    && (forall i, j :: 0 <= i < j < |order| ==> Before(heap, order[i], order[j]))
  }

  /** `order` lists exactly the queued timers that are due, earliest first. */
  ghost predicate IsBatch(c: Core, order: seq<Addr>, now: Time)
    requires Sound(c)
  {
    && InOrder(c.heap, order)
    && (forall a :: a in order <==> a in c.queued && c.heap[a].expiration <= now)
  }

  /** The start of `handleRead`: the timerfd is read and the batch leaves the queue.  The read finds
      nothing if another callback of the same poll set the timerfd anew; then it stays set. */
  ghost function Expire(c: Core, order: seq<Addr>, drained: bool): Core {
    c.(queued := c.queued - (set a | a in order), canceling := {}, calling := true, fd := if drained then Disarmed else c.fd)
  }

  ghost predicate Survives(c: Core, a: Addr)
    requires a in c.heap
  {
    c.heap[a].repeat && TimerId(a, c.heap[a].sequence) !in c.canceling
  }

  function Restarted(t: Timer, now: Time): Timer { t.(expiration := now + t.interval) }

  /** The loop of `reset` over `order`: repeating timers that were not cancelled come back at
      `now` plus their interval, the others are freed. */
  ghost function Requeue(c: Core, order: seq<Addr>, now: Time): Core
    requires forall i :: 0 <= i < |order| ==> order[i] in c.heap
  {
    var back := set a | a in order && Survives(c, a);
    c.(heap := map a | a in c.heap && (a in order ==> a in back) ::
                 if a in back then Restarted(c.heap[a], now) else c.heap[a],
       queued := c.queued + back)
  }

  ghost predicate IsEarliest(c: Core, e: Time)
    requires Sound(c)
  {
    (exists a :: a in c.queued && c.heap[a].expiration == e) && (forall a :: a in c.queued ==> e <= c.heap[a].expiration)
  }

  lemma {:induction false} EarliestExists(heap: map<Addr, Timer>, some: set<Addr>) returns (a: Addr)
    requires some != {} && some <= heap.Keys
    ensures a in some && forall b :: b in some ==> heap[a].expiration <= heap[b].expiration
    decreases |some|
  {
    a :| a in some;
    var others := some - {a};
    assert forall x :: x in some ==> x == a || x in others;
    if others != {} {
      var b := EarliestExists(heap, others);
      if heap[b].expiration < heap[a].expiration {
        a := b;
      }
    }
  }

  ghost function Earliest(c: Core): (e: Time)
    requires Sound(c) && c.queued != {}
    ensures IsEarliest(c, e)
  {
    assert exists e :: IsEarliest(c, e) by {
      var a := EarliestExists(c.heap, c.queued);
      assert IsEarliest(c, c.heap[a].expiration);
    }
    var e :| IsEarliest(c, e);
    e
  }

  /** The end of `reset`: the timerfd follows the earliest queued timer, unless that one's
      expiration is not a valid timestamp. */
  ghost function Rearm(c: Core, clock: Time): Core
    requires Sound(c)
  {
    if c.queued != {} && Earliest(c) > 0 then c.(fd := Arm(Earliest(c), clock)) else c
  }

  /** The end of `handleRead`. */
  ghost function Finish(c: Core, order: seq<Addr>, now: Time, clock: Time): Core
    requires Sound(c) && forall i :: 0 <= i < |order| ==> order[i] in c.heap
    requires forall i :: 0 <= i < |order| ==> order[i] !in c.queued
  {
    Rearm(Requeue(c.(calling := false), order, now), clock)
  }

  // ----- the machine

  datatype Task = AddTask(addr: Addr) | CancelTask(id: TimerId)

  /** Outside `handleRead`, or inside it with the timers `batch[..next]` already run. */
  datatype Phase = Idle | Calling(now: Time, batch: seq<Addr>, next: nat)

  datatype Firing = Firing(timer: nat, batch: nat, now: Time)

  /** `born[k]` is the timer with sequence number `k` as it was created; `log` lists the
      callbacks run so far, with the number and the time of their batch. */
  datatype State = State(core: Core, phase: Phase, tasks: seq<Task>, clock: Time,
                         born: seq<Timer>, log: seq<Firing>, batches: nat)

  datatype Event =
    | Tick(to: Time)
    | PostAdd(addr: Addr, when: Time, interval: int, repeat: bool)  // addTimer, from another thread
    | PostCancel(id: TimerId)                                       // cancel, from another thread
    | RunTask                                                       // the loop runs a queued add or cancel
    | AddNow(addr: Addr, when: Time, interval: int, repeat: bool)   // addTimer, in the loop thread
    | CancelNow(id: TimerId)                                        // cancel, in the loop thread
    | Fire(order: seq<Addr>, drained: bool)
    | CallNext
    | Done

  predicate Fresh(s: State, a: Addr) { a !in s.core.heap && a < ADDR_MAX }

  ghost predicate Enabled(s: State, ev: Event) {
    match ev
    case Tick(to) => s.clock <= to
    case PostAdd(a, _, interval, repeat) => Fresh(s, a) && (repeat ==> 0 <= interval)
    case AddNow(a, _, interval, repeat) => Fresh(s, a) && (repeat ==> 0 <= interval)
    case PostCancel(_) => true
    case CancelNow(_) => true
    case RunTask => s.phase.Idle? && s.tasks != []
    case Fire(order, _) => s.phase.Idle? && Sound(s.core) && IsBatch(s.core, order, s.clock)
    case CallNext => s.phase.Calling? && s.phase.next < |s.phase.batch|
    case Done => s.phase.Calling? && s.phase.next == |s.phase.batch|
  }

  function Create(s: State, a: Addr, when: Time, interval: int, repeat: bool): State {
    var t := Timer(when, interval, repeat, |s.born|);
    s.(core := s.core.(heap := s.core.heap[a := t]), born := s.born + [t])
  }

  ghost function Step(s: State, ev: Event): State
    requires Inv(s) && Enabled(s, ev)
  {
    match ev
    case Tick(to) => s.(clock := to)
    case PostAdd(a, when, interval, repeat) =>
      Create(s, a, when, interval, repeat).(tasks := s.tasks + [AddTask(a)])
    case AddNow(a, when, interval, repeat) =>
      var s' := Create(s, a, when, interval, repeat);
      s'.(core := Insert(s'.core, a, s.clock))
    case PostCancel(id) => s.(tasks := s.tasks + [CancelTask(id)])
    case CancelNow(id) => s.(core := Cancel(s.core, id))
    case RunTask =>
      var s' := s.(tasks := s.tasks[1..]);
      (match s.tasks[0]
       case AddTask(a) => assert a in AddAddrs(s.tasks); s'.(core := Insert(s.core, a, s.clock))
       case CancelTask(id) => s'.(core := Cancel(s.core, id)))
    case Fire(order, drained) => s.(core := Expire(s.core, order, drained), phase := Calling(s.clock, order, 0), batches := s.batches + 1)
    case CallNext =>
      var p := s.phase;
      s.(phase := p.(next := p.next + 1),
         log := s.log + [Firing(s.core.heap[p.batch[p.next]].sequence, s.batches, p.now)])
    case Done => s.(core := Finish(s.core, s.phase.batch, s.phase.now, s.clock), phase := Idle)
  }

  // ----- ownership

  function AddAddrs(tasks: seq<Task>): set<Addr> {
    set i | 0 <= i < |tasks| && tasks[i].AddTask? :: tasks[i].addr
  }

  function BatchAddrs(p: Phase): set<Addr> {
    if p.Idle? then {} else set a | a in p.batch
  }

  ghost predicate NoDoubleAdd(tasks: seq<Task>) {
    forall i, j :: 0 <= i < j < |tasks| && tasks[i].AddTask? && tasks[j].AddTask? ==> tasks[i].addr != tasks[j].addr
  }

  /** Every live timer is in exactly one place: a queued add task, the queue, or the batch. */
  ghost predicate Owned(live: set<Addr>, queued: set<Addr>, tasks: seq<Task>, p: Phase) {
    && NoDoubleAdd(tasks)
    && (p.Calling? ==> forall i, j :: 0 <= i < j < |p.batch| ==> p.batch[i] != p.batch[j])
    && AddAddrs(tasks) !! queued
    && AddAddrs(tasks) !! BatchAddrs(p)
    && queued !! BatchAddrs(p)
    && live == AddAddrs(tasks) + queued + BatchAddrs(p)
  }

  predicate Descends(born: seq<Timer>, t: Timer) {
    && t.sequence < |born|
    && t.interval == born[t.sequence].interval
    && t.repeat == born[t.sequence].repeat
    && born[t.sequence].expiration <= t.expiration
  }

  /** Sequence numbers name timers uniquely, and a live timer still has the interval and the
      repeat flag it was created with and is not scheduled before its first time. */
  ghost predicate Named(heap: map<Addr, Timer>, born: seq<Timer>) {
    && (forall k :: 0 <= k < |born| ==> born[k].sequence == k && (born[k].repeat ==> 0 <= born[k].interval))
    && (forall a :: a in heap ==> a < ADDR_MAX && Descends(born, heap[a]))
    && (forall a, b :: a in heap && b in heap && a != b ==> heap[a].sequence != heap[b].sequence)
  }

  // ----- the timerfd

  /** The timerfd is set early enough for expiration `e`. */
  predicate Covers(fd: Fd, e: Time) {
    fd.Armed? && fd.deadline <= Max(e, fd.at + MIN_DELAY)
  }

  /** Outside `handleRead` every queued timer is covered.  Inside it only those that the final
      rearming would skip need to be. */
  ghost predicate Watched(c: Core, clock: Time)
    requires Sound(c)
  {
    && 0 < clock && (c.fd.Armed? ==> 0 < c.fd.at <= clock)
    && forall a :: a in c.queued && (!c.calling || c.heap[a].expiration <= 0) ==> Covers(c.fd, c.heap[a].expiration)
  }

  // ----- the log

  /** `g` is a later firing of the timer that fired as `f`. */
  predicate Apart(born: seq<Timer>, f: Firing, g: Firing) {
    && f.timer < |born| && born[f.timer].repeat
    && f.batch < g.batch && f.now + born[f.timer].interval <= g.now
  }

  /** No firing is early, and two firings of one timer are at least its interval apart, which
      only a repeating timer has. */
  ghost predicate Punctual(born: seq<Timer>, log: seq<Firing>, batches: nat) {
    && (forall i :: 0 <= i < |log| ==>
          log[i].timer < |born| && born[log[i].timer].expiration <= log[i].now && log[i].batch <= batches)
    && (forall i, j :: 0 <= i < j < |log| && log[i].timer == log[j].timer ==> Apart(born, log[i], log[j]))
  }

  /** A timer waiting to run comes no sooner than its interval after any of its firings, all of
      which were in earlier batches than `bound`. */
  ghost predicate Rested(t: Timer, log: seq<Firing>, bound: nat) {
    forall i :: 0 <= i < |log| && log[i].timer == t.sequence ==>
      t.repeat && log[i].now + t.interval <= t.expiration && log[i].batch < bound
  }

  ghost predicate Past(log: seq<Firing>, now: Time) {
    forall i :: 0 <= i < |log| ==> log[i].now <= now
  }

  /** The timers of the batch are due, and those still to run are rested. */
  ghost predicate Ready(heap: map<Addr, Timer>, p: Phase, log: seq<Firing>, batches: nat)
    requires p.Calling?
  {
    && 0 < p.now && p.next <= |p.batch| && Past(log, p.now) && InOrder(heap, p.batch)
    && (forall i :: 0 <= i < |p.batch| ==> heap[p.batch[i]].expiration <= p.now)
    && (forall i :: p.next <= i < |p.batch| ==> Rested(heap[p.batch[i]], log, batches))
  }

  ghost predicate Scheduled(heap: map<Addr, Timer>, p: Phase, log: seq<Firing>, batches: nat) {
    && (forall a :: a in heap && a !in BatchAddrs(p) ==> Rested(heap[a], log, batches + 1))
    && (p.Calling? ==> Ready(heap, p, log, batches))
  }

  /** In the middle of a batch, the last entries of the log are its timers, in order. */
  ghost predicate Followed(heap: map<Addr, Timer>, p: Phase, log: seq<Firing>, batches: nat)
    requires p.Calling? && InOrder(heap, p.batch)
  {
    && p.next <= |log| && p.next <= |p.batch|
    && forall i :: 0 <= i < p.next ==>
         log[|log| - p.next + i] == Firing(heap[p.batch[i]].sequence, batches, p.now)
  }

  ghost predicate Inv(s: State) {
    var c := s.core;
    && Owned(c.heap.Keys, c.queued, s.tasks, s.phase)
    && Named(c.heap, s.born)
    && Sound(c) && Watched(c, s.clock)
    && Punctual(s.born, s.log, s.batches)
    && Scheduled(c.heap, s.phase, s.log, s.batches)
    && Past(s.log, s.clock)
    && c.calling == s.phase.Calling?
    && (s.phase.Calling? ==> s.phase.now <= s.clock && Followed(c.heap, s.phase, s.log, s.batches))
  }
}
