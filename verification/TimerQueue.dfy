/** `net::TimerQueue`: two indices over the same heap-allocated timers and one timerfd, proved to
    follow the machine of module `TimerSpec`. */
module TimerQueues {
  import opened TimerSpec
  import opened TimerRuns

  const MICROS_PER_SECOND: int := 1_000_000

  datatype Timespec = Timespec(seconds: int, nanos: int)

  /** `howMuchTimeFromNow`.  The result is never zero, which would switch the timerfd off. */
  function HowMuchTimeFromNow(when: Time, now: Time): (ts: Timespec)
    ensures 0 <= ts.seconds && 0 <= ts.nanos < 1_000_000_000
    ensures ts.seconds * MICROS_PER_SECOND + ts.nanos / 1000 == Delay(when, now) && ts.nanos % 1000 == 0
    ensures Delay(when, now) == if when - now >= 100 then when - now else 100
    ensures ts != Timespec(0, 0)
  {
    var micros := if when - now < MIN_DELAY then MIN_DELAY else when - now;
    Timespec(micros / MICROS_PER_SECOND, micros % MICROS_PER_SECOND * 1000)
  }

  // ----- the ordered index, `std::set<std::pair<Timestamp, Timer*>>` in iteration order

  datatype Entry = Entry(when: Time, addr: Addr)

  predicate Less(e: Entry, f: Entry) {
    e.when < f.when || (e.when == f.when && e.addr < f.addr)
  }

  ghost predicate Sorted(s: seq<Entry>) {
    forall i, j :: 0 <= i < j < |s| ==> Less(s[i], s[j])
  }

  function Addrs(s: seq<Entry>): (r: seq<Addr>)
    ensures |r| == |s| && forall i :: 0 <= i < |s| ==> r[i] == s[i].addr
  {
    if s == [] then [] else [s[0].addr] + Addrs(s[1..])
  }

  ghost function Queued(s: seq<Entry>): set<Addr> {
    set i | 0 <= i < |s| :: s[i].addr
  }

  /** Every key is the current expiration of its timer. */
  ghost predicate Keyed(s: seq<Entry>, heap: map<Addr, Timer>) {
    forall i :: 0 <= i < |s| ==> s[i].addr in heap && heap[s[i].addr].expiration == s[i].when && s[i].addr < ADDR_MAX
  }

  ghost function Ids(s: seq<Entry>, heap: map<Addr, Timer>): set<TimerId>
    requires Keyed(s, heap)
  {
    set i | 0 <= i < |s| :: TimerId(s[i].addr, heap[s[i].addr].sequence)
  }

  /** The sizes that the source compares in its asserts. */
  lemma {:induction false} SizesAgree(s: seq<Entry>, heap: map<Addr, Timer>)
    requires Sorted(s) && Keyed(s, heap)
    ensures |Ids(s, heap)| == |s|
  {
    if s != [] {
      var last := s[|s| - 1];
      var init := s[..|s| - 1];
      SizesAgree(init, heap);
      var id := TimerId(last.addr, heap[last.addr].sequence);
      assert id !in Ids(init, heap);
      assert Ids(s, heap) == Ids(init, heap) + {id} by {
        assert forall i :: 0 <= i < |init| ==> s[i] == init[i];
      }
    }
  }

  function InsertAt(s: seq<Entry>, k: nat, e: Entry): seq<Entry>
    requires k <= |s|
  {
    s[..k] + [e] + s[k..]
  }

  lemma InsertAtSorted(s: seq<Entry>, k: nat, e: Entry)
    requires Sorted(s) && k <= |s|
    requires (forall i :: 0 <= i < k ==> Less(s[i], e)) && (forall i :: k <= i < |s| ==> Less(e, s[i]))
    ensures Sorted(InsertAt(s, k, e)) && Queued(InsertAt(s, k, e)) == Queued(s) + {e.addr}
  {
    var r := InsertAt(s, k, e);
    assert forall i :: 0 <= i < k ==> r[i] == s[i];
    assert r[k] == e;
    assert forall i :: k <= i < |s| ==> r[i + 1] == s[i];
  }

  lemma InsertAtKeyed(s: seq<Entry>, k: nat, e: Entry, heap: map<Addr, Timer>)
    requires k <= |s| && Keyed(s, heap) && e.addr in heap && heap[e.addr].expiration == e.when && e.addr < ADDR_MAX
    ensures Keyed(InsertAt(s, k, e), heap)
  {
    var r := InsertAt(s, k, e);
    assert forall i :: 0 <= i < |r| ==> r[i] == e || (i < k && r[i] == s[i]) || (k < i && r[i] == s[i - 1]);
  }

  lemma InsertAtIds(s: seq<Entry>, k: nat, e: Entry, heap: map<Addr, Timer>)
    requires k <= |s| && Keyed(s, heap) && e.addr in heap && heap[e.addr].expiration == e.when && e.addr < ADDR_MAX
    ensures Keyed(InsertAt(s, k, e), heap)
    ensures Ids(InsertAt(s, k, e), heap) == Ids(s, heap) + {TimerId(e.addr, heap[e.addr].sequence)}
  {
    InsertAtKeyed(s, k, e, heap);
    hide Keyed;
    var r := InsertAt(s, k, e);
    forall id
      ensures id in Ids(r, heap) <==> id in Ids(s, heap) || id == TimerId(e.addr, heap[e.addr].sequence)
    {
      assert r[k] == e;
      assert forall i :: 0 <= i < k ==> r[i] == s[i];
      assert forall i :: k <= i < |s| ==> r[i + 1] == s[i];
    }
  }

  /** A timer outside the index goes before everything that is not below it, and its name is not
      among the names of the index: both insertions of `insert` succeed. */
  lemma BothAreNew(s: seq<Entry>, heap: map<Addr, Timer>, a: Addr, k: nat)
    requires Sorted(s) && Keyed(s, heap) && a in heap && a !in Queued(s) && k <= |s|
    requires forall i :: k <= i < |s| ==> !Less(s[i], Entry(heap[a].expiration, a))
    ensures forall i :: k <= i < |s| ==> Less(Entry(heap[a].expiration, a), s[i])
    ensures TimerId(a, heap[a].sequence) !in Ids(s, heap)
  {
    assert forall i :: 0 <= i < |s| ==> s[i].addr in Queued(s);
  }

  function RemoveAt(s: seq<Entry>, k: nat): seq<Entry>
    requires k < |s|
  {
    s[..k] + s[k + 1..]
  }

  lemma RemoveAtSorted(s: seq<Entry>, k: nat, heap: map<Addr, Timer>)
    requires Sorted(s) && Keyed(s, heap) && k < |s|
    ensures var r := RemoveAt(s, k); var a := s[k].addr;
      && Sorted(r) && Queued(r) == Queued(s) - {a} && Keyed(r, heap - {a})
      && Ids(r, heap - {a}) == Ids(s, heap) - {TimerId(a, heap[a].sequence)}
  {
    var r := RemoveAt(s, k);
    assert forall i :: 0 <= i < |r| ==> r[i] == if i < k then s[i] else s[i + 1];
    assert forall i :: 0 <= i < k ==> r[i] == s[i];
    assert forall i :: k < i < |s| ==> r[i - 1] == s[i];
    assert forall i :: 0 <= i < |s| && i != k ==> s[i].addr != s[k].addr;
  }

  class TimerQueue {
    /** The timers that are allocated. */
    var heap: map<Addr, Timer>
    var timers: seq<Entry>
    var active: set<TimerId>
    var canceling: set<TimerId>
    var calling: bool
    var fd: Fd

    /** The counter behind the sequence numbers. */
    var created: nat

    /** The two indices describe the same timers. */
    ghost predicate Valid()
      reads this
    {
      Sorted(timers) && Keyed(timers, heap) && active == Ids(timers, heap)
    }

    ghost function View(): Core
      reads this
    {
      Core(heap, Queued(timers), canceling, calling, fd)
    }

    /** This queue is in the state `s` of the machine. */
    ghost predicate Tracks(s: State)
      reads this
    {
      Inv(s) && Valid() && View() == s.core && created == |s.born|
    }

    /** The assert made before and after every operation. */
    lemma SizesMatch()
      requires Valid()
      ensures |timers| == |active|
    {
      SizesAgree(timers, heap);
    }

    constructor ()
      ensures Valid() && created == 0 && View() == Core(map[], {}, {}, false, Disarmed)
    {
      heap, timers, active, canceling, calling, fd, created := map[], [], {}, {}, false, Disarmed, 0;
    }

    /** `std::set::lower_bound`. */
    method LowerBound(e: Entry) returns (k: nat)
      requires Sorted(timers)
      ensures k <= |timers|
      ensures (forall i :: 0 <= i < k ==> Less(timers[i], e)) && (forall i :: k <= i < |timers| ==> !Less(timers[i], e))
    {
      k := 0;
      while k < |timers| && Less(timers[k], e)
        invariant k <= |timers| && forall i :: 0 <= i < k ==> Less(timers[i], e)
      {
        k := k + 1;
      }
    }

    /** Puts a timer into both indices; both insertions are new. */
    method Insert(a: Addr) returns (earliestChanged: bool)
      requires Valid() && a in heap && a !in Queued(timers) && a < ADDR_MAX
      modifies this`timers, this`active
      ensures Valid() && View() == old(View()).(queued := old(View()).queued + {a})
      ensures earliestChanged == old(EarlierThanAll(View(), a))
    {
      SizesMatch();
      var e := Entry(heap[a].expiration, a);
      earliestChanged := timers == [] || e.when < timers[0].when;
      EarliestIsFirst(a);
      hide Ids, Queued, Sorted, Keyed, EarlierThanAll;
      var k := LowerBound(e);
      BothAreNew(timers, heap, a, k);
      InsertAtSorted(timers, k, e);
      InsertAtIds(timers, k, e, heap);
      timers := InsertAt(timers, k, e);
      var id := TimerId(a, heap[a].sequence);
      assert id !in active;
      active := active + {id};
      SizesMatch();
    }

    /** The front of the ordered index decides whether the newcomer is the earliest. */
    lemma EarliestIsFirst(a: Addr)
      requires Valid() && a in heap
      ensures EarlierThanAll(View(), a) <==> timers == [] || heap[a].expiration < timers[0].when
    {
      if timers != [] {
        assert timers[0].addr in Queued(timers);
        assert forall i :: 0 <= i < |timers| ==> timers[0].when <= timers[i].when;
      }
    }

    method ResetTimerfd(expiration: Time, clock: Time)
      modifies this`fd
      ensures fd == Arm(expiration, clock)
      ensures fd == Armed(clock, if expiration - clock >= 100 then expiration else clock + 100)
    {
      var ts := HowMuchTimeFromNow(expiration, clock);
      fd := Armed(clock, clock + ts.seconds * MICROS_PER_SECOND + ts.nanos / 1000);
    }

    method AddTimerInLoop(a: Addr, clock: Time)
      requires Valid() && a in heap && a !in Queued(timers) && a < ADDR_MAX
      modifies this`timers, this`active, this`fd
      ensures Valid() && View() == TimerSpec.Insert(old(View()), a, clock)
    {
      var earliestChanged := Insert(a);
      if earliestChanged {
        ResetTimerfd(heap[a].expiration, clock);
      }
    }

    method CancelInLoop(id: TimerId)
      requires Valid()
      modifies this`heap, this`timers, this`active, this`canceling
      ensures Valid() && View() == Cancel(old(View()), id)
    {
      SizesMatch();
      if id in active {
        var e := Entry(heap[id.addr].expiration, id.addr);
        var k := LowerBound(e);
        KeyFound(id.addr, k);
        assert k < |timers| && timers[k] == e;
        RemoveAtSorted(timers, k, heap);
        timers := RemoveAt(timers, k);
        heap := heap - {id.addr};
        active := active - {id};
      } else if calling {
        canceling := canceling + {id};
      }
      SizesMatch();
    }

    /** Looking up a queued timer by its current expiration finds it: one entry is erased. */
    lemma KeyFound(a: Addr, k: nat)
      requires Valid() && a in Queued(timers) && k <= |timers|
      requires forall i :: 0 <= i < k ==> Less(timers[i], Entry(heap[a].expiration, a))
      requires forall i :: k <= i < |timers| ==> !Less(timers[i], Entry(heap[a].expiration, a))
      ensures k < |timers| && timers[k] == Entry(heap[a].expiration, a)
    {
      var i :| 0 <= i < |timers| && timers[i].addr == a;
      assert timers[i] == Entry(heap[a].expiration, a);
    }

    /** Takes the due entries off the front of the ordered index and their names out of the other.
        The sentry compares above every timer that expires at `now`. */
    method GetExpired(now: Time) returns (expired: seq<Entry>)
      requires Valid()
      modifies this`timers, this`active
      ensures Valid() && Keyed(expired, heap)
      ensures IsBatch(old(View()), Addrs(expired), now)
      ensures View() == old(View()).(queued := old(View()).queued - (set a | a in Addrs(expired)))
    {
      SizesMatch();
      var end := LowerBound(Entry(now, ADDR_MAX));
      assert end == |timers| || now < timers[end].when;
      BatchIsPrefix(end, now);
      expired := TakeFront(end);
      SizesMatch();
    }

    method TakeFront(end: nat) returns (expired: seq<Entry>)
      requires Valid() && end <= |timers|
      modifies this`timers, this`active
      ensures Valid() && expired == old(timers[..end]) && timers == old(timers[end..]) && Keyed(expired, heap)
    {
      CutAt(timers, end, heap);
      expired := timers[..end];
      timers := timers[end..];
      EraseActive(expired);
    }

    /** The loop of `getExpired`: each name is found and erased. */
    method EraseActive(expired: seq<Entry>)
      requires Sorted(expired) && Keyed(expired, heap) && Keyed(timers, heap)
      requires active == Ids(timers, heap) + Ids(expired, heap) && Ids(timers, heap) !! Ids(expired, heap)
      modifies this`active
      ensures active == Ids(timers, heap)
    {
      var i := 0;
      assert expired[0..] == expired;
      while i < |expired|
        invariant i <= |expired| && Ids(timers, heap) !! Ids(expired[i..], heap)
        invariant active == Ids(timers, heap) + Ids(expired[i..], heap)
      {
        var e, rest := expired[i], expired[i + 1..];
        assert expired[i..][..1] == [e] && expired[i..][1..] == rest;
        CutAt(expired[i..], 1, heap);
        var id := TimerId(e.addr, heap[e.addr].sequence);
        assert Ids([e], heap) == {id};
        assert id in active;
        active := active - {id};
        i := i + 1;
      }
    }

    lemma BatchIsPrefix(end: nat, now: Time)
      requires Valid() && end <= |timers|
      requires forall i :: 0 <= i < end ==> Less(timers[i], Entry(now, ADDR_MAX))
      requires forall i :: end <= i < |timers| ==> !Less(timers[i], Entry(now, ADDR_MAX))
      ensures IsBatch(View(), Addrs(timers[..end]), now)
      ensures Queued(timers[end..]) == Queued(timers) - (set a | a in Addrs(timers[..end]))
    {
      CutAt(timers, end, heap);
      AddrsQueued(timers[..end]);
      DueExactly(timers[..end], heap, now);
      LateExactly(timers[end..], heap, now);
      assert Queued(timers) == Queued(timers[..end]) + Queued(timers[end..]);
    }

    /** Every timer of the batch is either restarted from `now` and put back, or freed; then the
        timerfd is set for the front of the index. */
    method Reset(expired: seq<Entry>, now: Time, clock: Time)
      requires Valid() && Distinct(Addrs(expired)) && Queued(expired) !! Queued(timers)
      requires forall i :: 0 <= i < |expired| ==> expired[i].addr in heap && expired[i].addr < ADDR_MAX
      modifies this`heap, this`timers, this`active, this`fd
      ensures Valid() && View() == Rearm(Requeue(old(View()), Addrs(expired), now), clock)
      ensures forall i :: 0 <= i < |expired| ==>
        var a := expired[i].addr; var t := old(heap)[a];
        if t.repeat && TimerId(a, t.sequence) !in canceling
        then a in heap && heap[a] == Timer(now + t.interval, t.interval, t.repeat, t.sequence) && a in Queued(timers)
        else a !in heap && a !in Queued(timers)
    {
      hide Requeue, Survives, Ids, Sorted;
      RequeueDecides(View(), expired, now);
      ghost var c, order := View(), Addrs(expired);
      var i := 0;
      RequeueNone(c, order, now);
      while i < |expired|
        invariant i <= |expired| && Valid() && View() == Requeue(c, order[..i], now)
      {
        RequeueSnoc(c, order, i, now);
        PutBack(expired[i].addr, now);
        i := i + 1;
      }
      assert order[..i] == order;
      FrontIsEarliest();
      var nextExpire := if timers == [] then 0 else heap[timers[0].addr].expiration;
      if nextExpire > 0 {
        ResetTimerfd(nextExpire, clock);
      }
    }

    /** One round of that loop. */
    method PutBack(a: Addr, now: Time)
      requires Valid() && a in heap && a !in Queued(timers) && a < ADDR_MAX
      modifies this`heap, this`timers, this`active
      ensures Valid()
      ensures View() == if old(Survives(View(), a))
        then old(View()).(heap := old(heap)[a := Restarted(old(heap)[a], now)], queued := old(View()).queued + {a})
        else old(View()).(heap := old(heap) - {a})
      ensures var t := old(heap)[a];
        if t.repeat && TimerId(a, t.sequence) !in canceling
        then a in heap && heap[a] == Timer(now + t.interval, t.interval, t.repeat, t.sequence) && a in Queued(timers)
        else a !in heap && a !in Queued(timers)
    {
      OtherTimersKeyed(timers, heap, heap[a := Restarted(heap[a], now)], a);
      OtherTimersKeyed(timers, heap, heap - {a}, a);
      if heap[a].repeat && TimerId(a, heap[a].sequence) !in canceling {
        heap := heap[a := Restart(heap[a], now)];
        var _ := Insert(a);
      } else {
        heap := heap - {a};
      }
    }

    /** `new Timer` at the address `a` that the allocator chose: the next sequence number. */
    method Create(a: Addr, when: Time, interval: int, repeat: bool) returns (id: TimerId)
      requires Valid() && a !in heap && a < ADDR_MAX
      modifies this`heap, this`created
      ensures Valid() && created == old(created) + 1 && id == TimerId(a, old(created)) && timers == old(timers)
      ensures View() == var c := old(View()); c.(heap := c.heap[a := Timer(when, interval, repeat, old(created))])
    {
      OtherTimersKeyed(timers, heap, heap[a := Timer(when, interval, repeat, created)], a);
      heap := heap[a := Timer(when, interval, repeat, created)];
      id := TimerId(a, created);
      created := created + 1;
    }

    /** `addTimer` in another thread: the insertion is left to the loop as a task. */
    method PostTimer(a: Addr, when: Time, interval: int, repeat: bool, ghost s: State) returns (id: TimerId, task: TimerSpec.Task)
      requires Tracks(s) && Enabled(s, PostAdd(a, when, interval, repeat))
      modifies this`heap, this`created
      ensures Tracks(Step(s, PostAdd(a, when, interval, repeat)))
      ensures Step(s, PostAdd(a, when, interval, repeat)).tasks == s.tasks + [task]
      ensures id == TimerId(a, |s.born|) && s.born == Step(s, PostAdd(a, when, interval, repeat)).born[..id.sequence]
    {
      PostAddKeeps(s, a, when, interval, repeat);
      id := Create(a, when, interval, repeat);
      task := AddTask(a);
    }

    /** The loop runs a task that `addTimer` or `cancel` left to it. */
    method RunTask(task: TimerSpec.Task, clock: Time, ghost s: State)
      requires Tracks(s) && s.clock == clock && Enabled(s, Event.RunTask) && s.tasks[0] == task
      modifies this
      ensures Tracks(Step(s, Event.RunTask))
    {
      RunTaskKeeps(s);
      match task {
        case AddTask(a) =>
          TaskOwns(s.core.heap, s.born, s.core.queued, s.tasks, s.phase);
          AddTimerInLoop(a, clock);
        case CancelTask(id) =>
          CancelInLoop(id);
      }
    }

    /** `addTimer` in the loop thread. */
    method AddTimer(a: Addr, when: Time, interval: int, repeat: bool, clock: Time) returns (id: TimerId)
      requires Valid() && a !in heap && a < ADDR_MAX
      modifies this
      ensures Valid() && created == old(created) + 1 && id == TimerId(a, old(created))
      ensures View() == var c := old(View());
        TimerSpec.Insert(c.(heap := c.heap[a := Timer(when, interval, repeat, old(created))]), a, clock)
    {
      id := Create(a, when, interval, repeat);
      AddTimerInLoop(a, clock);
    }

    /** One thing a callback does.  An allocation at an address in use cannot happen and is
        skipped, as is a clock that would run backwards. */
    method Act(action: Action, clock: Time, ghost s: State) returns (clock': Time, ghost evs: seq<Event>, ghost s': State)
      requires Tracks(s) && s.clock == clock
      modifies this
      ensures Tracks(s') && s'.clock == clock' && s'.phase == s.phase && |evs| <= 1
      ensures evs == [] ==> s' == s
      ensures evs != [] ==> Enabled(s, evs[0]) && s' == Step(s, evs[0])
      ensures s' == ActOn(s, action)
    {
      hide Inv;
      clock', evs, s' := clock, [], s;
      match action
      case Pause(to) =>
        if clock <= to {
          clock', evs := to, [Tick(to)];
          TickKeeps(s, to);
          s' := Step(s, Tick(to));
        }
      case StartTimer(a, when, interval, repeat) =>
        if a !in heap && a < ADDR_MAX && (repeat ==> 0 <= interval) {
          evs := [AddNow(a, when, interval, repeat)];
          AddNowKeeps(s, a, when, interval, repeat);
          s' := Step(s, evs[0]);
          var _ := AddTimer(a, when, interval, repeat, clock);
        }
      case StopTimer(id) =>
        evs := [CancelNow(id)];
        CancelKeeps(s, id);
        s' := Step(s, evs[0]);
        CancelInLoop(id);
    }

    /** A whole callback. */
    method RunCallback(actions: seq<Action>, clock: Time, ghost s: State)
      returns (clock': Time, ghost evs: seq<Event>, ghost s': State)
      requires Tracks(s) && s.clock == clock
      modifies this
      ensures Tracks(s') && s'.clock == clock' && s'.phase == s.phase && Leads(s, evs, s')
      ensures s' == ActAll(s, actions)
    {
      hide Inv, ActOn;
      clock', evs, s' := clock, [], s;
      LeadsNowhere(s);
      assert actions[0..] == actions;
      var i := 0;
      while i < |actions|
        invariant i <= |actions| && Tracks(s') && s'.clock == clock' && s'.phase == s.phase && Leads(s, evs, s')
        invariant ActAll(s', actions[i..]) == ActAll(s, actions)
      {
        assert actions[i..][0] == actions[i] && actions[i..][1..] == actions[i + 1..];
        ghost var more, s1;
        clock', more, s1 := Act(actions[i], clock', s');
        LeadsOn(s, evs, s', more, s1);
        evs, s' := evs + more, s1;
        i := i + 1;
      }
    }

    /** The first part of `handleRead`: the timerfd is read, the due timers leave both indices,
        and cancellations start to be noted. */
    method BeginBatch(now: Time, drained: bool, ghost s: State) returns (expired: seq<Entry>)
      requires Tracks(s) && s.phase.Idle? && s.clock == now
      modifies this
      ensures Enabled(s, Fire(Addrs(expired), drained)) && Tracks(Step(s, Fire(Addrs(expired), drained)))
    {
      if drained {
        fd := Disarmed;
      }
      expired := GetExpired(now);
      calling := true;
      canceling := {};
      assert IsBatch(s.core, Addrs(expired), now);
      FireKeeps(s, Addrs(expired), drained);
    }

    /** The middle part: the callbacks, in order. */
    method RunBatch(script: nat -> seq<Action>, expired: seq<Entry>, now: Time, ghost s: State)
      returns (clock: Time, ghost evs: seq<Event>, ghost s': State)
      requires Tracks(s) && s.clock == now && s.phase == Calling(now, Addrs(expired), 0)
      modifies this
      ensures Tracks(s') && s'.clock == clock && s'.phase == Calling(now, Addrs(expired), |expired|) && Leads(s, evs, s')
      ensures s' == Callbacks(s, script)
    {
      hide Inv, ActAll;
      clock, evs, s' := now, [], s;
      LeadsNowhere(s);
      var i := 0;
      while i < |expired|
        invariant i <= |expired| && Tracks(s') && s'.clock == clock && Leads(s, evs, s')
        invariant s'.phase == Calling(now, Addrs(expired), i) && Callbacks(s', script) == Callbacks(s, script)
      {
        CallNextKeeps(s');
        ghost var called := Step(s', CallNext);
        LeadsOn(s, evs, s', [CallNext], called);
        ghost var more, s1;
        clock, more, s1 := RunCallback(script(i), clock, called);
        LeadsTrans(s, evs + [CallNext], called, more, s1);
        evs, s' := evs + [CallNext] + more, s1;
        i := i + 1;
      }
    }

    /** The last part. */
    method EndBatch(expired: seq<Entry>, now: Time, clock: Time, ghost s: State)
      requires Tracks(s) && s.clock == clock && s.phase == Calling(now, Addrs(expired), |expired|)
      modifies this
      ensures Enabled(s, Done) && Tracks(Step(s, Done))
    {
      BatchIsOwned(s.core.heap, s.born, s.core.queued, s.tasks, s.phase, expired);
      DoneKeeps(s);
      LeaveBatch(expired, now, clock);
    }

    method LeaveBatch(expired: seq<Entry>, now: Time, clock: Time)
      requires Valid() && Distinct(Addrs(expired)) && Queued(expired) !! Queued(timers)
      requires forall i :: 0 <= i < |expired| ==> expired[i].addr in heap && expired[i].addr < ADDR_MAX
      modifies this`heap, this`timers, this`active, this`fd, this`calling
      ensures forall i :: 0 <= i < |expired| ==> Addrs(expired)[i] !in old(View()).queued
      ensures Valid() && View() == Finish(old(View()), Addrs(expired), now, clock)
    {
      assert forall i :: 0 <= i < |expired| ==> expired[i].addr in Queued(expired);
      calling := false;
      Reset(expired, now, clock);
    }

    /** `handleRead` with arbitrary callbacks: `script(i)` is what the callback of the i-th expired
        timer does, and `drained` says whether the read of the timerfd found anything.  Whatever
        they do, the whole call is a run of the machine: the timerfd fires, the callbacks are called
        and do exactly what the script says, and the batch ends. */
    method HandleRead(script: nat -> seq<Action>, now: Time, drained: bool, ghost s: State)
      returns (clock: Time, ghost evs: seq<Event>, ghost s': State)
      requires Tracks(s) && s.phase.Idle? && s.clock == now
      modifies this
      ensures Tracks(s') && s'.phase.Idle? && s'.clock == clock && Leads(s, evs, s')
      ensures evs != [] && evs[0].Fire? && evs[0].drained == drained && Enabled(s, evs[0])
      ensures s' == WholeBatch(s, evs[0], script)
    {
      hide Inv, Callbacks;
      LeadsNowhere(s);
      var expired := BeginBatch(now, drained, s);
      ghost var first := [Fire(Addrs(expired), drained)];
      ghost var s1 := Step(s, first[0]);
      LeadsOn(s, [], s, first, s1);
      ghost var more, s2;
      clock, more, s2 := RunBatch(script, expired, now, s1);
      LeadsTrans(s, first, s1, more, s2);
      EndBatch(expired, now, clock, s2);
      s' := Step(s2, Done);
      LeadsOn(s, first + more, s2, [Done], s');
      evs := first + more + [Done];
    }

    lemma FrontIsEarliest()
      requires Valid()
      ensures timers == [] <==> View().queued == {}
      ensures timers != [] ==> Earliest(View()) == timers[0].when
    {
      if timers != [] {
        assert timers[0].addr in Queued(timers);
        assert forall i :: 0 <= i < |timers| ==> timers[0].when <= timers[i].when;
        assert IsEarliest(View(), timers[0].when);
      }
    }
  }

  /** What a callback may do to the queue, with time passing in between. */
  datatype Action =
    | Pause(to: Time)
    | StartTimer(addr: Addr, when: Time, interval: int, repeat: bool)
    | StopTimer(id: TimerId)

  /** What one action comes to. */
  ghost function ActOn(s: State, action: Action): (s': State)
    requires Inv(s)
    ensures Inv(s') && s'.phase == s.phase
  {
    match action
    case Pause(to) =>
      if s.clock <= to then TickKeeps(s, to); Step(s, Tick(to)) else s
    case StartTimer(a, when, interval, repeat) =>
      if a !in s.core.heap && a < ADDR_MAX && (repeat ==> 0 <= interval) then
        AddNowKeeps(s, a, when, interval, repeat); Step(s, AddNow(a, when, interval, repeat))
      else s
    case StopTimer(id) => CancelKeeps(s, id); Step(s, CancelNow(id))
  }

  ghost function ActAll(s: State, actions: seq<Action>): (s': State)
    requires Inv(s)
    ensures Inv(s') && s'.phase == s.phase
    decreases |actions|
  {
    if actions == [] then s else ActAll(ActOn(s, actions[0]), actions[1..])
  }

  /** The callbacks that are left in a batch, one after the other, each doing what the script says. */
  ghost function Callbacks(s: State, script: nat -> seq<Action>): (s': State)
    requires Inv(s) && s.phase.Calling? && s.phase.next <= |s.phase.batch|
    ensures Inv(s') && s'.phase == s.phase.(next := |s.phase.batch|)
    decreases |s.phase.batch| - s.phase.next
  {
    if s.phase.next == |s.phase.batch| then s else
      CallNextKeeps(s);
      Callbacks(ActAll(Step(s, CallNext), script(s.phase.next)), script)
  }

  /** The timerfd fires with `fire`, the callbacks do what the script says, and the batch ends. */
  ghost function WholeBatch(s: State, fire: Event, script: nat -> seq<Action>): (s': State)
    requires Inv(s) && Enabled(s, fire) && fire.Fire?
    ensures Inv(s') && s'.phase.Idle?
  {
    FireKeeps(s, fire.order, fire.drained);
    var called := Callbacks(Step(s, fire), script);
    DoneKeeps(called);
    Step(called, Done)
  }

  /** The timer of the first task is alive and not queued yet. */
  lemma TaskOwns(heap: map<Addr, Timer>, born: seq<Timer>, queued: set<Addr>, tasks: seq<TimerSpec.Task>, p: Phase)
    requires Owned(heap.Keys, queued, tasks, p) && Named(heap, born) && tasks != [] && tasks[0].AddTask?
    ensures tasks[0].addr in heap && tasks[0].addr !in queued && tasks[0].addr < ADDR_MAX
  {
    assert tasks[0].addr in AddAddrs(tasks);
  }

  /** The batch of the machine is the vector of the code: alive, without duplicates, and out of
      the queue, so each of its timers may be freed or inserted. */
  lemma BatchIsOwned(heap: map<Addr, Timer>, born: seq<Timer>, queued: set<Addr>, tasks: seq<Task>, p: Phase, expired: seq<Entry>)
    requires Owned(heap.Keys, queued, tasks, p) && Named(heap, born) && p.Calling? && p.batch == Addrs(expired)
    ensures Distinct(Addrs(expired)) && Queued(expired) !! queued
    ensures forall i :: 0 <= i < |expired| ==> expired[i].addr in heap && expired[i].addr < ADDR_MAX
  {
    AddrsQueued(expired);
    assert BatchAddrs(p) == Queued(expired);
    assert forall i :: 0 <= i < |expired| ==> expired[i].addr in Queued(expired);
  }

  /** `Timer::restart`. */
  function Restart(t: Timer, now: Time): Timer {
    if t.repeat then t.(expiration := now + t.interval) else t.(expiration := 0)
  }

  ghost predicate Distinct(order: seq<Addr>) {
    forall i, j :: 0 <= i < j < |order| ==> order[i] != order[j]
  }

  /** Changing a timer that is not in the index changes nothing about the index. */
  lemma OtherTimersKeyed(s: seq<Entry>, heap: map<Addr, Timer>, heap': map<Addr, Timer>, a: Addr)
    requires Keyed(s, heap) && a !in Queued(s)
    requires forall b :: b in heap && b != a ==> b in heap' && heap'[b] == heap[b]
    ensures Keyed(s, heap') && Ids(s, heap') == Ids(s, heap)
  {
    assert forall i :: 0 <= i < |s| ==> s[i].addr in Queued(s);
  }

  lemma RequeueNone(c: Core, order: seq<Addr>, now: Time)
    ensures Requeue(c, order[..0], now) == c
  {
    assert order[..0] == [];
    assert Requeue(c, [], now).heap == c.heap;
    assert Requeue(c, [], now).queued == c.queued;
  }

  /** `Requeue` one timer at a time. */
  lemma RequeueSnoc(c: Core, order: seq<Addr>, i: nat, now: Time)
    requires Distinct(order) && i < |order| && forall k :: 0 <= k < |order| ==> order[k] in c.heap
    ensures var r, a := Requeue(c, order[..i], now), order[i];
      && a in r.heap && r.heap[a] == c.heap[a] && (a in r.queued <==> a in c.queued)
      && Requeue(c, order[..i + 1], now) ==
           (if Survives(r, a) then r.(heap := r.heap[a := Restarted(r.heap[a], now)], queued := r.queued + {a})
            else r.(heap := r.heap - {a}))
  {
    var a := order[i];
    assert order[..i + 1] == order[..i] + [a];
    assert a !in order[..i];
    var r, r' := Requeue(c, order[..i], now), Requeue(c, order[..i + 1], now);
    assert forall b :: b in order[..i + 1] <==> b in order[..i] || b == a;
    if Survives(c, a) {
      assert r'.heap == r.heap[a := Restarted(r.heap[a], now)];
      assert r'.queued == r.queued + {a};
    } else {
      assert r'.heap == r.heap - {a};
      assert r'.queued == r.queued;
    }
  }

  /** What becomes of each timer of the batch. */
  lemma RequeueDecides(c: Core, expired: seq<Entry>, now: Time)
    requires Queued(expired) !! c.queued && forall i :: 0 <= i < |expired| ==> expired[i].addr in c.heap
    ensures var c' := Requeue(c, Addrs(expired), now);
      forall i :: 0 <= i < |expired| ==>
        var a := expired[i].addr; var t := c.heap[a];
        if t.repeat && TimerId(a, t.sequence) !in c.canceling
        then a in c'.heap && c'.heap[a] == Timer(now + t.interval, t.interval, t.repeat, t.sequence) && a in c'.queued
        else a !in c'.heap && a !in c'.queued
  {
    hide Requeue;
    var order, c' := Addrs(expired), Requeue(c, Addrs(expired), now);
    forall i | 0 <= i < |expired|
      ensures var a := expired[i].addr; var t := c.heap[a];
        if t.repeat && TimerId(a, t.sequence) !in c.canceling
        then a in c'.heap && c'.heap[a] == Timer(now + t.interval, t.interval, t.repeat, t.sequence) && a in c'.queued
        else a !in c'.heap && a !in c'.queued
    {
      assert order[i] == expired[i].addr && expired[i].addr in Queued(expired);
      RequeueDecidesAt(c, order, order[i], now);
    }
  }

  lemma RequeueDecidesAt(c: Core, order: seq<Addr>, a: Addr, now: Time)
    requires a in order && a !in c.queued && forall i :: 0 <= i < |order| ==> order[i] in c.heap
    ensures a in c.heap
    ensures var c', t := Requeue(c, order, now), c.heap[a];
      if t.repeat && TimerId(a, t.sequence) !in c.canceling
      then a in c'.heap && c'.heap[a] == Timer(now + t.interval, t.interval, t.repeat, t.sequence) && a in c'.queued
      else a !in c'.heap && a !in c'.queued
  {
  }

  lemma AddrsQueued(s: seq<Entry>)
    ensures (set a | a in Addrs(s)) == Queued(s)
  {
    assert forall i :: 0 <= i < |s| ==> s[i].addr == Addrs(s)[i];
  }

  lemma DueExactly(s: seq<Entry>, heap: map<Addr, Timer>, now: Time)
    requires Sorted(s) && Keyed(s, heap) && forall i :: 0 <= i < |s| ==> Less(s[i], Entry(now, ADDR_MAX))
    ensures InOrder(heap, Addrs(s)) && forall a :: a in Queued(s) ==> heap[a].expiration <= now
  {
  }

  lemma LateExactly(s: seq<Entry>, heap: map<Addr, Timer>, now: Time)
    requires Keyed(s, heap) && forall i :: 0 <= i < |s| ==> !Less(s[i], Entry(now, ADDR_MAX))
    ensures forall a :: a in Queued(s) ==> now < heap[a].expiration
  {
  }

  /** Cutting a keyed sequence cuts its addresses and its names. */
  lemma CutAt(s: seq<Entry>, k: nat, heap: map<Addr, Timer>)
    requires Sorted(s) && Keyed(s, heap) && k <= |s|
    ensures Sorted(s[..k]) && Sorted(s[k..]) && Keyed(s[..k], heap) && Keyed(s[k..], heap)
    ensures Queued(s) == Queued(s[..k]) + Queued(s[k..])
    ensures Ids(s, heap) == Ids(s[..k], heap) + Ids(s[k..], heap)
    ensures Ids(s[..k], heap) !! Ids(s[k..], heap)
  {
    assert forall i :: 0 <= i < |s| - k ==> s[k..][i] == s[k + i];
    assert forall i :: k <= i < |s| ==> s[k..][i - k] == s[i];
    assert forall i :: 0 <= i < k ==> s[..k][i] == s[i];
  }
}
