/** `net::EventLoop`: the task queue, the eventfd and the quit flag, shared by the loop thread and
    any number of other threads.  Every step between two shared accesses is an event of its own,
    so a run is an arbitrary interleaving. */
module EventLoops {

  /** `early` says that the loop thread queued the task before it entered `loop()`. */
  datatype Task = Task(id: nat, early: bool)

  /** Where the loop thread is.  `Handling(true)` still has the wakeup channel to serve. */
  datatype Pc = Outside | Checking | Polling | Handling(wakeup: bool) | Swapping | Running | Stopped

  const EVENTFD_MAX: nat := 0xFFFF_FFFF_FFFF_FFFE

  /** `writers` threads other than the loop's are between their push (or their setting of the quit
      flag) and their eventfd write; `owes` says the same of the loop thread.  `executed` and
      `pushed` are histories. */
  datatype State = State(pc: Pc, quit: bool, calling: bool, pending: seq<Task>, batch: seq<Task>, count: nat,
                         owes: bool, writers: nat, executed: seq<Task>, pushed: seq<Task>)

  datatype Event =
    | Enter | Check | PollReturn(wakeup: bool) | ReadWakeup | HandlersDone | Swap | RunTask | TasksDone
    | OwnPush(id: nat) | OwnWrite | OwnQuit              // user code in the loop thread
    | OtherPush(id: nat) | OtherQuit | OtherWrite        // other threads

  const INIT: State := State(Outside, false, false, [], [], 0, false, 0, [], [])

  /** `write` to the eventfd: it adds one, or fails when the counter is full. */
  function Signalled(count: nat): nat { if count < EVENTFD_MAX then count + 1 else count }

  predicate Enabled(s: State, ev: Event) {
    match ev
    case Enter => s.pc == Outside && !s.owes
    case Check => s.pc == Checking
    case PollReturn(wakeup) => s.pc == Polling && (wakeup ==> 0 < s.count)
    case ReadWakeup => s.pc == Handling(true)
    case HandlersDone => s.pc == Handling(false)
    case Swap => s.pc == Swapping
    case RunTask => s.pc == Running && !s.owes && s.batch != []
    case TasksDone => s.pc == Running && !s.owes && s.batch == []
    case OwnPush(_) => (s.pc == Outside || s.pc.Handling? || s.pc == Running) && !s.owes
    case OwnQuit => (s.pc == Outside || s.pc.Handling? || s.pc == Running) && !s.owes
    case OwnWrite => s.owes
    case OtherPush(_) => true
    case OtherQuit => true
    case OtherWrite => 0 < s.writers
  }

  function Queue(s: State, t: Task): State { s.(pending := s.pending + [t], pushed := s.pushed + [t]) }

  function Step(s: State, ev: Event): State
    requires Enabled(s, ev)
  {
    match ev
    case Enter => s.(pc := Checking, quit := false)
    case Check => s.(pc := if s.quit then Stopped else Polling)
    case PollReturn(wakeup) => s.(pc := Handling(wakeup))
    case ReadWakeup => s.(pc := Handling(false), count := 0)
    case HandlersDone => s.(pc := Swapping, calling := true)
    case Swap => s.(pc := Running, batch := s.pending, pending := [])
    case RunTask => s.(batch := s.batch[1..], executed := s.executed + [s.batch[0]])
    case TasksDone => s.(pc := Checking, calling := false)
    case OwnPush(id) => Queue(s, Task(id, s.pc == Outside)).(owes := s.calling)
    case OwnQuit => s.(quit := true)
    case OwnWrite => s.(owes := false, count := Signalled(s.count))
    case OtherPush(id) => Queue(s, Task(id, false)).(writers := s.writers + 1)
    case OtherQuit => s.(quit := true, writers := s.writers + 1)
    case OtherWrite => s.(writers := s.writers - 1, count := Signalled(s.count))
  }

  /** Somebody has signalled the eventfd, or is about to. */
  predicate WakeupDue(s: State) { 0 < s.count || 0 < s.writers || s.owes }

  /** Every task pushed is, exactly once and in order, executed, in the batch, or pending. */
  predicate Conserved(s: State) { s.executed + s.batch + s.pending == s.pushed }

  /** Something is pending that ought to wake the loop. */
  predicate Waiting(pending: seq<Task>) { exists i :: 0 <= i < |pending| && !pending[i].early }

  lemma WaitingSnoc(pending: seq<Task>, t: Task)
    ensures Waiting(pending + [t]) <==> Waiting(pending) || !t.early
  {
    var all := pending + [t];
    assert all[|pending|] == t;
    assert forall i :: 0 <= i < |pending| ==> all[i] == pending[i];
  }

  predicate Inv(s: State) {
    && Conserved(s)
    && (s.batch != [] ==> s.pc == Running)
    && (s.calling <==> s.pc == Swapping || s.pc == Running)
    && (s.owes ==> s.pc == Running)
    && (Waiting(s.pending) && (s.pc == Outside || s.pc == Checking || s.pc == Polling || s.pc == Running) ==> WakeupDue(s))
    && (s.quit && s.pc == Polling ==> WakeupDue(s))
  }

  lemma QueueConserves(s: State, t: Task)
    requires Conserved(s)
    ensures Conserved(Queue(s, t))
  {
    assert s.executed + s.batch + (s.pending + [t]) == (s.executed + s.batch + s.pending) + [t];
  }

  lemma StepConserves(s: State, ev: Event)
    requires Inv(s) && Enabled(s, ev)
    ensures Conserved(Step(s, ev))
  {
    match ev
    case RunTask =>
      assert s.executed + s.batch + s.pending == (s.executed + [s.batch[0]]) + s.batch[1..] + s.pending;
    case OwnPush(id) =>
      QueueConserves(s, Task(id, s.pc == Outside));
    case OtherPush(id) =>
      QueueConserves(s, Task(id, false));
    case Swap =>
      assert s.executed + s.pending + [] == s.executed + s.batch + s.pending;
    case _ =>
  }

  lemma StepKeeps(s: State, ev: Event)
    requires Inv(s) && Enabled(s, ev)
    ensures Inv(Step(s, ev))
  {
    StepConserves(s, ev);
    match ev
    case OwnPush(id) => WaitingSnoc(s.pending, Task(id, s.pc == Outside));
    case OtherPush(id) => WaitingSnoc(s.pending, Task(id, false));
    case _ =>
  }

  predicate Possible(s: State, evs: seq<Event>)
    decreases |evs|
  {
    evs == [] || (Enabled(s, evs[0]) && Possible(Step(s, evs[0]), evs[1..]))
  }

  function Reached(s: State, evs: seq<Event>): State
    requires Possible(s, evs)
    decreases |evs|
  {
    if evs == [] then s else Reached(Step(s, evs[0]), evs[1..])
  }

  lemma {:induction false} RunKeeps(s: State, evs: seq<Event>)
    requires Inv(s) && Possible(s, evs)
    ensures Inv(Reached(s, evs))
    decreases |evs|
  {
    if evs != [] {
      StepKeeps(s, evs[0]);
      RunKeeps(Step(s, evs[0]), evs[1..]);
    }
  }

  /** No lost wakeup, in any interleaving: when the loop thread is about to sleep in poll while a
      task is pending or the loop was asked to quit, the eventfd is readable or some thread is
      about to make it so.  The only tasks that do not count are those that the loop thread itself
      queued before it entered `loop()`. */
  lemma NoLostWakeup(evs: seq<Event>, i: nat)
    requires Possible(INIT, evs)
    ensures var s := Reached(INIT, evs);
      s.pc == Polling && ((i < |s.pending| && !s.pending[i].early) || s.quit) ==> 0 < s.count || 0 < s.writers
  {
    RunKeeps(INIT, evs);
  }

  /** The exception is real: such a task does not wake the loop. */
  lemma EarlyTaskSleeps(id: nat)
    ensures var evs := [OwnPush(id), Enter, Check];
      && Possible(INIT, evs)
      && var s := Reached(INIT, evs);
         s.pc == Polling && s.pending == [Task(id, true)] && s.count == 0 && s.writers == 0
  {
    var s1 := Step(INIT, OwnPush(id));
    var s2 := Step(s1, Enter);
    var e2 := Prefix(s2, Check, []);
    var e1 := Prefix(s1, Enter, e2);
    var e0 := Prefix(INIT, OwnPush(id), e1);
    assert e0 == [OwnPush(id), Enter, Check];
  }

  /** The event `evs[i]` is a push by the loop thread before it enters `loop()`. */
  predicate IsEarly(evs: seq<Event>, i: nat)
    requires i < |evs|
  {
    evs[i].OwnPush? && Enter !in evs[..i]
  }

  predicate NoneEarly(s: State) { forall i :: 0 <= i < |s.pending| ==> !s.pending[i].early }

  /** And it takes such a push: in a run where the loop thread queues nothing before it enters
      `loop()`, every pending task counts. */
  lemma {:induction false} EarlyNeedsEarlyPush(s: State, evs: seq<Event>)
    requires Possible(s, evs) && (s.pc == Outside ==> forall i :: 0 <= i < |evs| ==> !IsEarly(evs, i))
    requires NoneEarly(s)
    ensures NoneEarly(Reached(s, evs))
    decreases |evs|
  {
    if evs != [] {
      var ev, s' := evs[0], Step(s, evs[0]);
      if s.pc == Outside {
        assert !IsEarly(evs, 0);
        if s'.pc == Outside {
          forall i | 0 <= i < |evs[1..]|
            ensures !IsEarly(evs[1..], i)
          {
            assert !IsEarly(evs, i + 1);
            assert evs[..i + 1] == [ev] + evs[1..][..i];
          }
        }
      }
      EarlyNeedsEarlyPush(s', evs[1..]);
    }
  }

  /** First in, first out, exactly once: at any moment the executed tasks, the rest of the swapped
      batch and the pending tasks, in this order, are all the tasks ever queued. */
  lemma TasksAreFifo(evs: seq<Event>)
    requires Possible(INIT, evs)
    ensures var s := Reached(INIT, evs); s.executed + s.batch + s.pending == s.pushed && s.executed <= s.pushed
  {
    RunKeeps(INIT, evs);
    var s := Reached(INIT, evs);
    assert s.executed + s.batch + s.pending == s.executed + (s.batch + s.pending);
  }

  lemma BatchStep(s: State, ev: Event)
    requires s.pc == Running && Enabled(s, ev) && ev != TasksDone
    ensures var s' := Step(s, ev);
      s'.pc == Running && s'.executed + s'.batch == s.executed + s.batch && s.pending <= s'.pending
  {
    if ev == RunTask {
      assert s.executed + [s.batch[0]] + s.batch[1..] == s.executed + s.batch;
    }
  }

  /** One `doPendingFunctors` call runs the tasks present at its swap and no others, however many
      more are queued meanwhile: they stay pending, in order. */
  lemma {:induction false} BatchIsFixed(s: State, evs: seq<Event>)
    requires s.pc == Running && Possible(s, evs) && TasksDone !in evs
    ensures var s' := Reached(s, evs);
      && s'.pc == Running && s'.executed + s'.batch == s.executed + s.batch && s.pending <= s'.pending
      && (Enabled(s', TasksDone) ==> s'.executed == s.executed + s.batch)
    decreases |evs|
  {
    if evs != [] {
      BatchStep(s, evs[0]);
      BatchIsFixed(Step(s, evs[0]), evs[1..]);
    }
  }

  lemma Prefix(s: State, ev: Event, evs: seq<Event>) returns (all: seq<Event>)
    requires Enabled(s, ev) && Possible(Step(s, ev), evs)
    ensures all == [ev] + evs && Possible(s, all) && Reached(s, all) == Reached(Step(s, ev), evs)
  {
    all := [ev] + evs;
    assert all[1..] == evs;
  }

  lemma {:induction false} RunAll(s: State) returns (evs: seq<Event>)
    requires s.pc == Running && !s.owes
    ensures |evs| == |s.batch| && Possible(s, evs) && Reached(s, evs) == s.(batch := [], executed := s.executed + s.batch)
    decreases |s.batch|
  {
    if s.batch == [] {
      evs := [];
    } else {
      var s' := Step(s, RunTask);
      var rest := RunAll(s');
      evs := Prefix(s, RunTask, rest);
      assert s.executed + [s.batch[0]] + s.batch[1..] == s.executed + s.batch;
    }
  }

  /** The state once a turn of the loop has run what was pending. */
  function Served(s: State): State {
    s.(pc := Running, calling := true, count := 0, batch := [], pending := [], executed := s.executed + s.pending)
  }

  lemma SwapAndRun(s: State) returns (evs: seq<Event>)
    requires s.pc == Handling(false) && !s.owes && s.count == 0
    ensures |evs| == 2 + |s.pending| && Possible(s, evs) && Reached(s, evs) == Served(s)
  {
    var s1 := Step(s, HandlersDone);
    evs := RunAll(Step(s1, Swap));
    evs := Prefix(s1, Swap, evs);
    evs := Prefix(s, HandlersDone, evs);
  }

  /** A readable eventfd is enough: one turn of the loop, in a bounded number of its steps, empties
      the eventfd and executes everything that is pending, and then everything ever queued has been
      executed. */
  lemma WokenLoopServes(s: State) returns (evs: seq<Event>)
    requires Inv(s) && s.pc == Polling && 0 < s.count
    ensures |evs| == 4 + |s.pending| && Possible(s, evs) && Reached(s, evs) == Served(s)
    ensures Reached(s, evs).executed == s.pushed && Reached(s, evs).pending == [] && Reached(s, evs).count == 0
  {
    var s1 := Step(s, PollReturn(true));
    var s2 := Step(s1, ReadWakeup);
    evs := SwapAndRun(s2);
    assert s.executed + [] + s.pending == s.executed + s.pending;
    evs := Prefix(s1, ReadWakeup, evs);
    evs := Prefix(s, PollReturn(true), evs);
  }

  lemma {:induction false} RunsJoin(s: State, evs: seq<Event>, more: seq<Event>)
    requires Possible(s, evs) && Possible(Reached(s, evs), more)
    ensures Possible(s, evs + more) && Reached(s, evs + more) == Reached(Reached(s, evs), more)
    decreases |evs|
  {
    if evs == [] {
      assert evs + more == more;
    } else {
      assert (evs + more)[1..] == evs[1..] + more;
      RunsJoin(Step(s, evs[0]), evs[1..], more);
    }
  }

  /** Serving the wakeup channel empties the eventfd; a write adds one to it, or fails when it is
      full, and in any case it is readable then. */
  lemma EventfdCounts(s: State)
    ensures Enabled(s, ReadWakeup) ==> Step(s, ReadWakeup).count == 0
    ensures forall w :: (w == OwnWrite || w == OtherWrite) && Enabled(s, w) ==>
      0 < Step(s, w).count && (Step(s, w).count == s.count + 1 || (Step(s, w).count == s.count && 0xFFFF_FFFF_FFFF_FFFE <= s.count))
  {
  }

  // ----- quitting

  /** Both ways to quit set the flag; the one from another thread still has to write the eventfd. */
  lemma QuitIsAsked(s: State)
    ensures Enabled(s, OwnQuit) ==> Step(s, OwnQuit) == s.(quit := true)
    ensures Step(s, OtherQuit) == s.(quit := true, writers := s.writers + 1)
  {
  }

  /** Entering `loop()` forgets an earlier request to quit. */
  lemma EnterStartsAnew(s: State)
    requires Enabled(s, Enter)
    ensures Step(s, Enter) == s.(pc := Checking, quit := false)
  {
  }

  /** Once asked to quit, and unless `loop()` is entered anew, the loop ends the next time it looks
      at the flag, whatever happens in between. */
  lemma {:induction false} QuitStops(s: State, evs: seq<Event>)
    requires s.quit && Possible(s, evs) && Enter !in evs
    ensures Reached(s, evs).quit
    ensures Reached(s, evs).pc == Checking ==> Step(Reached(s, evs), Check).pc == Stopped
    decreases |evs|
  {
    if evs != [] {
      assert evs[0] != Enter;
      QuitStops(Step(s, evs[0]), evs[1..]);
    }
  }

  /** A loop asked to quit while it sleeps on a readable eventfd serves what is pending and stops. */
  lemma WokenLoopStops(s: State) returns (evs: seq<Event>)
    requires Inv(s) && s.pc == Polling && 0 < s.count && s.quit
    ensures |evs| == 6 + |s.pending| && Possible(s, evs)
    ensures Reached(s, evs).pc == Stopped && Reached(s, evs).executed == s.pushed
  {
    evs := WokenLoopServes(s);
    var s1 := Served(s);
    var end := Prefix(Step(s1, TasksDone), Check, []);
    end := Prefix(s1, TasksDone, end);
    RunsJoin(s, evs, end);
    evs := evs + end;
  }

  // ----- the history is what the threads queued

  function Pushed(ev: Event): seq<nat> { if ev.OwnPush? || ev.OtherPush? then [ev.id] else [] }

  /** The tasks that the events queue, in order. */
  function Pushes(evs: seq<Event>): seq<nat> {
    if evs == [] then []
    else Pushed(evs[0]) + Pushes(evs[1..])
  }

  function Ids(tasks: seq<Task>): (r: seq<nat>)
    ensures |r| == |tasks| && forall i :: 0 <= i < |r| ==> r[i] == tasks[i].id
  {
    if tasks == [] then [] else [tasks[0].id] + Ids(tasks[1..])
  }

  lemma HistoryStep(s: State, ev: Event)
    requires Enabled(s, ev)
    ensures Ids(Step(s, ev).pushed) == Ids(s.pushed) + Pushed(ev)
  {
    assert Ids(s.pushed) + [] == Ids(s.pushed);
  }

  lemma {:induction false} HistoryIsPushes(s: State, evs: seq<Event>)
    requires Possible(s, evs)
    ensures Ids(Reached(s, evs).pushed) == Ids(s.pushed) + Pushes(evs)
    decreases |evs|
  {
    hide Ids, Step, Enabled, Pushed;
    if evs == [] {
      assert Ids(s.pushed) + [] == Ids(s.pushed);
    } else {
      var s' := Step(s, evs[0]);
      HistoryIsPushes(s', evs[1..]);
      HistoryStep(s, evs[0]);
      var now, later := Pushed(evs[0]), Pushes(evs[1..]);
      assert Ids(s.pushed) + now + later == Ids(s.pushed) + (now + later);
    }
  }

  /** So over any run from the start, the tasks executed, swapped and pending are, in this order, the
      tasks that the threads queued, each exactly once. */
  lemma ExecutedAsQueued(evs: seq<Event>)
    requires Possible(INIT, evs)
    ensures var s := Reached(INIT, evs); Ids(s.executed + s.batch + s.pending) == Pushes(evs)
  {
    TasksAreFifo(evs);
    HistoryIsPushes(INIT, evs);
    assert Ids([]) + Pushes(evs) == Pushes(evs);
  }
}
