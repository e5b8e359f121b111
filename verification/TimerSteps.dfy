/** What the single events of the timer queue come to, written out for the timers they concern. */
module TimerSteps {
  import opened TimerSpec
  import opened TimerRuns

  /** The timer that `addTimer` creates has exactly the time, the interval and the flag asked for and
      the next sequence number; in the loop thread it is queued at once, elsewhere a task is left. */
  lemma CreatedAsAsked(s: State, a: Addr, when: Time, interval: int, repeat: bool)
    requires Inv(s) && a !in s.core.heap && a < ADDR_MAX && (repeat ==> 0 <= interval)
    ensures var t, now, post := Timer(when, interval, repeat, |s.born|), AddNow(a, when, interval, repeat), PostAdd(a, when, interval, repeat);
      && Step(s, now).born == Step(s, post).born == s.born + [t]
      && Step(s, now).core.heap == Step(s, post).core.heap == s.core.heap[a := t]
      && Step(s, now).core.queued == s.core.queued + {a} && Step(s, now).tasks == s.tasks
      && Step(s, post).core.queued == s.core.queued && Step(s, post).tasks == s.tasks + [AddTask(a)]
  {
  }

  /** An arming for `when`: to the microsecond, unless less than 100us are left. */
  lemma ArmedFor(when: Time, now: Time)
    ensures Arm(when, now) == Armed(now, if when - now >= 100 then when else now + 100)
  {
  }

  lemma InsertSets(c: Core, a: Addr, t: Timer, clock: Time)
    requires Sound(c) && a !in c.heap
    ensures Insert(c.(heap := c.heap[a := t]), a, clock).fd ==
      if forall b :: b in c.queued ==> t.expiration < c.heap[b].expiration
      then Armed(clock, if t.expiration - clock >= 100 then t.expiration else clock + 100)
      else c.fd
  {
    assert forall b :: b in c.queued ==> c.heap[a := t][b] == c.heap[b];
  }

  lemma RearmSets(c: Core, clock: Time, a: Addr)
    requires Sound(c) && a in c.queued && forall b :: b in c.queued ==> c.heap[a].expiration <= c.heap[b].expiration
    ensures var when := c.heap[a].expiration;
      Rearm(c, clock) == c.(fd := if when > 0 then Armed(clock, if when - clock >= 100 then when else clock + 100) else c.fd)
  {
    assert IsEarliest(c, Earliest(c));
  }

  /** Adding a timer in the loop sets the timerfd if and only if the timer comes before all that are
      queued, and then for its time. */
  lemma AddSetsTimerfd(s: State, a: Addr, when: Time, interval: int, repeat: bool)
    requires Inv(s) && a !in s.core.heap && a < ADDR_MAX && (repeat ==> 0 <= interval)
    ensures Step(s, AddNow(a, when, interval, repeat)).core.fd ==
      if forall b :: b in s.core.queued ==> when < s.core.heap[b].expiration
      then Armed(s.clock, if when - s.clock >= 100 then when else s.clock + 100)
      else s.core.fd
  {
    InsertSets(s.core, a, Timer(when, interval, repeat, |s.born|), s.clock);
  }

  /** A queued add task does the same for its timer. */
  lemma TaskSetsTimerfd(s: State)
    requires Inv(s) && s.phase.Idle? && s.tasks != [] && s.tasks[0].AddTask?
    ensures s.tasks[0].addr in s.core.heap
    ensures var a, s' := s.tasks[0].addr, Step(s, RunTask);
      && s'.tasks == s.tasks[1..] && s'.core.heap == s.core.heap && s'.core.queued == s.core.queued + {a}
      && var when := s.core.heap[a].expiration;
         s'.core.fd == if forall b :: b in s.core.queued ==> when < s.core.heap[b].expiration
           then Armed(s.clock, if when - s.clock >= 100 then when else s.clock + 100)
           else s.core.fd
  {
    assert s.tasks[0].addr in AddAddrs(s.tasks);
  }

  /** The end of a batch decides about each of its timers: one that repeats and was not cancelled
      is queued again, one interval after the time of the batch and otherwise unchanged; every
      other one is gone. */
  lemma DoneDecides(s: State, a: Addr)
    requires Inv(s) && Enabled(s, Done) && a in s.phase.batch
    ensures a in s.core.heap
    ensures var t, c := s.core.heap[a], Step(s, Done).core;
      if t.repeat && TimerId(a, t.sequence) !in s.core.canceling
      then a in c.queued && a in c.heap && c.heap[a] == Timer(s.phase.now + t.interval, t.interval, t.repeat, t.sequence)
      else a !in c.heap && a !in c.queued
  {
    assert a in BatchAddrs(s.phase);
  }

  /** And it changes nothing about any other timer. */
  lemma DoneLeavesOthers(s: State, b: Addr)
    requires Inv(s) && Enabled(s, Done) && b !in s.phase.batch
    ensures var c := Step(s, Done).core;
      && (b in c.heap <==> b in s.core.heap) && (b in c.heap ==> c.heap[b] == s.core.heap[b])
      && (b in c.queued <==> b in s.core.queued)
  {
  }

  /** It sets the timerfd for the earliest of the timers then queued, if there is one and its time
      is after the epoch. */
  lemma DoneSetsTimerfd(s: State, a: Addr)
    requires Inv(s) && Enabled(s, Done)
    ensures Sound(Step(s, Done).core)
    ensures var c := Step(s, Done).core;
      && (c.queued == {} ==> c.fd == s.core.fd)
      && (a in c.queued && (forall b :: b in c.queued ==> c.heap[a].expiration <= c.heap[b].expiration) ==>
            var when := c.heap[a].expiration;
            c.fd == if when > 0 then Armed(s.clock, if when - s.clock >= 100 then when else s.clock + 100) else s.core.fd)
  {
    DoneIs(s);
    FinishSets(s.core, s.phase.batch, s.phase.now, s.clock, a);
  }

  lemma DoneIs(s: State)
    requires Inv(s) && Enabled(s, Done)
    ensures Sound(s.core) && forall i :: 0 <= i < |s.phase.batch| ==> s.phase.batch[i] in s.core.heap && s.phase.batch[i] !in s.core.queued
    ensures Step(s, Done).core == Finish(s.core, s.phase.batch, s.phase.now, s.clock)
  {
    assert forall i :: 0 <= i < |s.phase.batch| ==> s.phase.batch[i] in BatchAddrs(s.phase);
  }

  lemma FinishSets(c: Core, order: seq<Addr>, now: Time, clock: Time, a: Addr)
    requires Sound(c) && forall i :: 0 <= i < |order| ==> order[i] in c.heap && order[i] !in c.queued
    ensures var d := Finish(c, order, now, clock);
      && Sound(d) && (d.queued == {} ==> d.fd == c.fd)
      && (a in d.queued && (forall b :: b in d.queued ==> d.heap[a].expiration <= d.heap[b].expiration) ==>
            var when := d.heap[a].expiration;
            d.fd == if when > 0 then Armed(clock, if when - clock >= 100 then when else clock + 100) else c.fd)
  {
    hide Earliest;
    var r, d := Requeue(c.(calling := false), order, now), Finish(c, order, now, clock);
    assert d.heap == r.heap && d.queued == r.queued && r.fd == c.fd;
    if a in d.queued && (forall b :: b in d.queued ==> d.heap[a].expiration <= d.heap[b].expiration) {
      RearmSets(r, clock, a);
    }
  }

  /** The start of a batch takes the time, empties the list of cancellations, and, if the read finds
      something, silences the timerfd. */
  lemma FireBegins(s: State, order: seq<Addr>, drained: bool)
    requires Inv(s) && Enabled(s, Fire(order, drained))
    ensures var s' := Step(s, Fire(order, drained));
      && s'.phase == Calling(s.clock, order, 0) && s'.batches == s.batches + 1
      && s'.core.heap == s.core.heap && s'.core.canceling == {} && s'.core.calling
      && s'.core.fd == if drained then Disarmed else s.core.fd
  {
  }

  /** A cancel in the loop: a queued timer is freed; otherwise the name is noted while a batch is
      being run, and nothing happens outside one. */
  lemma CancelDecides(s: State, id: TimerId)
    requires Inv(s)
    ensures var c := Step(s, CancelNow(id)).core;
      if id.addr in s.core.queued && id.addr in s.core.heap && s.core.heap[id.addr].sequence == id.sequence
      then c == s.core.(heap := s.core.heap - {id.addr}, queued := s.core.queued - {id.addr})
      else c == s.core.(canceling := if s.phase.Calling? then s.core.canceling + {id} else s.core.canceling)
  {
  }
}
