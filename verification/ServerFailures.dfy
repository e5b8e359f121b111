/** When the server's asserts fail: exactly after polls that report what a connection cannot bear,
    with whole runs from the start that show it. */
module ServerFailures {
  import opened Pollers
  import opened ConnSpec
  import opened ServerSpec
  import opened ServerRuns

  // ----- runs that fail

  /** The events `evs` can happen from `s`, all the asserts of the code hold until the last event,
      and that one fails an assert. */
  ghost predicate Fails(s: Sys, evs: seq<Event>)
    decreases |evs|
  {
    && Wf(s) && evs != [] && Enabled(s, evs[0])
    && if |evs| == 1 then !Asserts(s, evs[0]) else Asserts(s, evs[0]) && Fails(Step(s, evs[0]), evs[1..])
  }

  ghost predicate NoPolls(evs: seq<Event>) {
    forall i :: 0 <= i < |evs| ==> !evs[i].Poll?
  }

  /** A run that fails without another poll. */
  ghost predicate FailsBeforePoll(s: Sys, evs: seq<Event>) {
    Fails(s, evs) && NoPolls(evs)
  }

  lemma FailsNow(s: Sys, ev: Event)
    requires Wf(s) && Enabled(s, ev) && !Asserts(s, ev)
    ensures Fails(s, [ev])
  {
  }

  lemma FailsLater(s: Sys, ev: Event, evs: seq<Event>)
    requires Wf(s) && Enabled(s, ev) && Asserts(s, ev) && Fails(Step(s, ev), evs)
    ensures Fails(s, [ev] + evs)
  {
    assert ([ev] + evs)[1..] == evs;
  }

  /** A run whose polls are all clean fails nowhere. */
  lemma {:induction false} CleanRunsNeverFail(s: Sys, evs: seq<Event>, k: nat)
    requires SysInv(s) && CleanRun(s, evs) && k <= |evs|
    ensures !Fails(s, evs[..k])
    decreases k
  {
    hide SysInv, Step, Asserts, Enabled, Clean;
    if 0 < k {
      WfOf(s);
      SysStepKeeps(s, evs[0]);
      assert evs[..k][0] == evs[0] && evs[..k][1..] == evs[1..][..k - 1];
      CleanRunsNeverFail(Step(s, evs[0]), evs[1..], k - 1);
    }
  }

  lemma {:induction false} NeverFailsBeforePoll(s: Sys, evs: seq<Event>)
    requires SysInv(s) && NoPolls(evs)
    ensures !Fails(s, evs)
    decreases |evs|
  {
    hide SysInv, Step, Asserts, Enabled;
    if evs != [] && Wf(s) && Enabled(s, evs[0]) {
      assert !evs[0].Poll?;
      SysStepKeeps(s, evs[0]);
      assert forall i :: 0 <= i < |evs| - 1 ==> evs[1..][i] == evs[i + 1];
      NeverFailsBeforePoll(Step(s, evs[0]), evs[1..]);
    }
  }

  // ----- what cannot be borne leads to a failure

  /** What an operation leaves of its connection, of the others, and of the loop that serves it. */
  lemma ApplyEffect(s: Sys, c: ConnId, op: Op)
    requires Wf(s) && c in s.conns && Legal(s.conns[c].conn, op)
    ensures var s', l := Apply(s, c, op), s.conns[c].loop;
      && Wf(s') && c in s'.conns && s'.conns[c].conn == Next(s.conns[c].conn, op) && s'.conns[c].loop == l
      && s'.conns - {c} == s.conns - {c} && s'.loops.Keys == s.loops.Keys
      && (forall m :: m in s.loops ==> s'.loops[m].active == s.loops[m].active && s'.loops[m].due == s.loops[m].due)
  {
    hide Concerns, HandAll;
    var r, ps := s.conns[c], Posts(s.conns[c].conn, op, s.hooks);
    var s1 := s.(conns := s.conns[c := r.(conn := Next(r.conn, op))]);
    NoticeIsLast(r.conn, op, s.hooks);
    HandAllStatus(s1, c, ps);
    ConcernsEffect(s1, HandAll(s1, c, ps), c);
    assert s1.conns - {c} == s.conns - {c};
  }

  lemma ConcernsEffect(s: Sys, s': Sys, c: ConnId)
    requires Concerns(s, s', c)
    ensures c in s.conns && c in s'.conns && s'.conns - {c} == s.conns - {c} && s'.conns[c].conn == s.conns[c].conn && s'.conns[c].loop == s.conns[c].loop
    ensures s'.loops.Keys == s.loops.Keys
    ensures forall m :: m in s.loops ==> s'.loops[m].active == s.loops[m].active && s'.loops[m].due == s.loops[m].due
  {
    forall m | m in s.loops
      ensures s'.loops[m].active == s.loops[m].active && s'.loops[m].due == s.loops[m].due
    {
      assert Grew(s.loops[m], s'.loops[m], m, c, s.base, s.conns);
    }
  }

  /** The callbacks of `a` will enter `handleClose` of a connection that is down. */
  predicate Unbearable(a: Activity, conns: map<ConnId, Rec>)
    requires a.conn in conns
  {
    if Up(conns[a.conn].conn) then a.todo != [] && a.todo[0] == OnClose && OnRead in a.todo[1..]
    else OnClose in a.todo || OnRead in a.todo
  }

  lemma ReportIsUnbearable(s: Sys, r: Report)
    requires SysInv(s) && r.conn in s.conns && s.conns[r.conn].conn.index == Added
    requires r.flags <= s.conns[r.conn].conn.events + ALWAYS && !Bearable(r.flags, s.conns[r.conn].conn)
    ensures Unbearable(Activity(r.conn, Dispatch(r.flags)), s.conns)
  {
    AddedReports(s, r);
    HangupDispatch(r.flags);
  }

  lemma HangupDispatch(flags: set<Flag>)
    requires Hup in flags && In !in flags
    ensures Dispatch(flags) != [] && Dispatch(flags)[0] == OnClose
    ensures Pri in flags ==> OnRead in Dispatch(flags)[1..]
  {
    if Pri in flags {
      assert Pri in flags * {In, Pri, RdHup};
      var rest := Dispatch(flags)[1..];
      assert rest[if Err in flags then 1 else 0] == OnRead;
    }
  }

  /** The activities of a loop name connections that exist, each once. */
  ghost predicate Listed(s: Sys, l: LoopId) {
    && l in s.loops
    && (forall i :: 0 <= i < |s.loops[l].active| ==> s.loops[l].active[i].conn in s.conns)
    && (forall i, j :: 0 <= i < j < |s.loops[l].active| ==> s.loops[l].active[i].conn != s.loops[l].active[j].conn)
  }

  /** A callback that meets end of stream and a full send buffer. */
  function Eof(l: LoopId): Event { Serve(l, EndOfStream, Failed(EWouldBlock)) }

  /** One callback is made; nothing is known to change but its connection, and a connection whose
      first callback is neither to close nor to read does not change either. */
  lemma EofEffect(s: Sys, l: LoopId)
    requires Wf(s) && Listed(s, l) && s.loops[l].active != [] && s.loops[l].active[0].todo != [] && Asserts(s, Eof(l))
    ensures Enabled(s, Eof(l))
    ensures var s', a := Step(s, Eof(l)), s.loops[l].active[0];
      && Wf(s') && l in s'.loops && s'.loops[l].active == [Activity(a.conn, a.todo[1..])] + s.loops[l].active[1..]
      && a.conn in s'.conns && s'.conns - {a.conn} == s.conns - {a.conn}
      && (if a.todo[0] == OnClose || a.todo[0] == OnRead then Up(s.conns[a.conn].conn) && !Up(s'.conns[a.conn].conn) else s'.conns[a.conn].conn == s.conns[a.conn].conn)
  {
    var a := s.loops[l].active[0];
    ApplyEffect(Begun(s, l), a.conn, CallbackOp(a.todo[0], EndOfStream, Failed(EWouldBlock)));
  }

  /** Serving the activities in order runs into the unbearable one, if not into a failure before. */
  lemma {:induction false} UnbearableFails(s: Sys, l: LoopId, k: nat) returns (evs: seq<Event>)
    requires Wf(s) && Listed(s, l) && k < |s.loops[l].active| && Unbearable(s.loops[l].active[k], s.conns)
    ensures FailsBeforePoll(s, evs)
    decreases k, |s.loops[l].active[0].todo| + 1
  {
    hide Fails;
    var a := s.loops[l].active[0];
    if a.todo == [] {
      evs := SkipServed(s, l, k);
    } else if !Asserts(s, Eof(l)) {
      FailsNow(s, Eof(l));
      evs := [Eof(l)];
    } else {
      EofEffect(s, l);
      StillUnbearable(s, l, k);
      evs := UnbearableFails(Step(s, Eof(l)), l, k);
      FailsLater(s, Eof(l), evs);
      evs := [Eof(l)] + evs;
    }
  }

  lemma {:induction false} SkipServed(s: Sys, l: LoopId, k: nat) returns (evs: seq<Event>)
    requires Wf(s) && Listed(s, l) && k < |s.loops[l].active| && Unbearable(s.loops[l].active[k], s.conns)
    requires s.loops[l].active[0].todo == []
    ensures FailsBeforePoll(s, evs)
    decreases k, 0
  {
    hide Fails;
    var s' := Step(s, Served(l));
    assert forall i :: 0 <= i < |s'.loops[l].active| ==> s'.loops[l].active[i] == s.loops[l].active[i + 1];
    evs := UnbearableFails(s', l, k - 1);
    FailsLater(s, Served(l), evs);
    evs := [Served(l)] + evs;
  }

  lemma StillUnbearable(s: Sys, l: LoopId, k: nat)
    requires Wf(s) && Listed(s, l) && k < |s.loops[l].active| && Unbearable(s.loops[l].active[k], s.conns)
    requires s.loops[l].active[0].todo != [] && Asserts(s, Eof(l)) && Enabled(s, Eof(l))
    requires Wf(Step(s, Eof(l)))
    ensures var s' := Step(s, Eof(l));
      Listed(s', l) && |s'.loops[l].active| == |s.loops[l].active| && Unbearable(s'.loops[l].active[k], s'.conns)
  {
    hide Wf, Step, Asserts, Enabled;
    EofEffect(s, l);
    var s' := Step(s, Eof(l));
    StillListed(s.loops[l].active, s.conns, s'.loops[l].active, s'.conns);
    StillIn(s.loops[l].active, s.conns, s'.loops[l].active, s'.conns, k);
  }

  lemma StillListed(active: seq<Activity>, conns: map<ConnId, Rec>, active': seq<Activity>, conns': map<ConnId, Rec>)
    requires active != [] && active[0].todo != [] && active' == [Activity(active[0].conn, active[0].todo[1..])] + active[1..]
    requires forall i :: 0 <= i < |active| ==> active[i].conn in conns
    requires active[0].conn in conns' && conns' - {active[0].conn} == conns - {active[0].conn}
    ensures forall i :: 0 <= i < |active'| ==> active'[i].conn in conns'
  {
    forall i | 1 <= i < |active'|
      ensures active'[i].conn in conns'
    {
      assert active'[i].conn == active[0].conn || active'[i].conn in conns - {active[0].conn};
    }
  }

  lemma StillIn(active: seq<Activity>, conns: map<ConnId, Rec>, active': seq<Activity>, conns': map<ConnId, Rec>, k: nat)
    requires active != [] && active[0].todo != [] && active' == [Activity(active[0].conn, active[0].todo[1..])] + active[1..]
    requires k < |active| && (0 < k ==> active[k].conn != active[0].conn)
    requires active[0].conn in conns && active[k].conn in conns && Unbearable(active[k], conns)
    requires active[0].conn in conns' && conns' - {active[0].conn} == conns - {active[0].conn}
    requires active[0].todo[0] != OnClose && active[0].todo[0] != OnRead ==> conns'[active[0].conn].conn == conns[active[0].conn].conn
    requires active[0].todo[0] == OnClose || active[0].todo[0] == OnRead ==> Up(conns[active[0].conn].conn) && !Up(conns'[active[0].conn].conn)
    ensures active'[k].conn in conns' && Unbearable(active'[k], conns')
  {
    var c := active[0].conn;
    if k == 0 {
      assert active[0].todo == [active[0].todo[0]] + active[0].todo[1..];
    } else {
      var d := active[k].conn;
      assert d in conns - {c} && d in conns' - {c} && (conns - {c})[d] == conns[d] && (conns' - {c})[d] == conns'[d];
    }
  }

  lemma PollStep(s: Sys, l: LoopId, reports: seq<Report>)
    requires Wf(s) && Enabled(s, Poll(l, reports))
    ensures var s' := Step(s, Poll(l, reports));
      Wf(s') && Listed(s', l) && s'.loops[l].active == TasksOf(reports) && s'.conns == s.conns
  {
  }

  lemma UncleanFails(s: Sys, l: LoopId, reports: seq<Report>) returns (evs: seq<Event>)
    requires SysInv(s) && Enabled(s, Poll(l, reports)) && !Clean(s, Poll(l, reports))
    ensures Wf(Step(s, Poll(l, reports))) && FailsBeforePoll(Step(s, Poll(l, reports)), evs)
  {
    hide SysInv, Bearable, Listed, FailsBeforePoll;
    assert Wf(s) by { WfOf(s); }
    PollStep(s, l, reports);
    var k :| 0 <= k < |reports| && !Bearable(reports[k].flags, s.conns[reports[k].conn].conn);
    ReportIsUnbearable(s, reports[k]);
    evs := UnbearableFails(Step(s, Poll(l, reports)), l, k);
  }

  /** The condition is exact.  In every good state the asserts of the very next step hold; and a
      step can be followed by a failure, before anything else is polled, if and only if it is a
      poll that reports what cannot be borne. */
  lemma CleanIsExact(s: Sys, ev: Event)
    requires SysInv(s) && Enabled(s, ev)
    ensures Asserts(s, ev)
    ensures !Clean(s, ev) <==> exists evs :: FailsBeforePoll(Step(s, ev), evs)
  {
    hide Fails;
    SysStepKeeps(s, ev);
    if Clean(s, ev) {
      forall evs | NoPolls(evs)
        ensures !Fails(Step(s, ev), evs)
      {
        NeverFailsBeforePoll(Step(s, ev), evs);
      }
    } else {
      var evs := UncleanFails(s, ev.loop, ev.reports);
    }
  }

  /** A connection that is closed while it watches nothing is put back into the kernel's table;
      if the peer then hangs up before it is destroyed, the next poll may report it and
      `handleClose` is entered a second time. */
  lemma UnwatchedCloseCanFail(s: Sys, c: ConnId, r: ReadOutcome)
    requires Wf(s) && c in s.conns && s.conns[c].conn.state == Disconnected && s.conns[c].conn.index == Added
    requires Quiet(s, s.conns[c].loop)
    ensures Fails(s, [Poll(s.conns[c].loop, [Report(c, {Hup})]), Serve(s.conns[c].loop, r, Failed(EWouldBlock))])
  {
    var l, reports := s.conns[c].loop, [Report(c, {Hup})];
    var hangup, serve := Poll(l, reports), Serve(l, r, Failed(EWouldBlock));
    assert {Hup} * {In, Pri, RdHup} == {};
    assert TasksOf(reports)[0] == Activity(c, [OnClose]);
    assert Step(s, hangup).loops[l].active[0] == Activity(c, [OnClose]);
    FailsNow(Step(s, hangup), serve);
    FailsLater(s, hangup, [serve]);
    assert [hangup] + [serve] == [hangup, serve];
  }

  /** Such a state is reached from any good state with an idle loop: a connection whose reading
      was stopped and that has nothing to write is closed by `forceClose`, the peer hangs up, and
      the assert at the top of `handleClose` fails. */
  lemma StoppedReaderCanFail(s: Sys, c: ConnId, r: ReadOutcome)
    requires SysInv(s) && c in s.conns && Up(s.conns[c].conn) && !s.conns[c].conn.reading && s.conns[c].conn.output == []
    requires Quiet(s, s.conns[c].loop) && s.loops[s.conns[c].loop].queue == []
    ensures var l := s.conns[c].loop;
      Fails(s, [UserForceClose(c), Swap(l), RunTask(l), Poll(l, [Report(c, {Hup})]), Serve(l, r, Failed(EWouldBlock))])
  {
    hide LoopsOk, ConnsOk, AboutToClose, Fails;
    var l := s.conns[c].loop;
    ForceCloseQueues(s, c);
    ForceCloseWaits(s, c);
    var s1 := Asked(s, c);
    var s2 := Step(s1, Swap(l));
    ForcedCloseOf(s2, c);
    var s3 := Step(s2, RunTask(l));
    var evs := [Poll(l, [Report(c, {Hup})]), Serve(l, r, Failed(EWouldBlock))];
    UnwatchedCloseCanFail(s3, c, r);
    FailsLater(s2, RunTask(l), evs);
    FailsLater(s1, Swap(l), [RunTask(l)] + evs);
    FailsLater(s, UserForceClose(c), [Swap(l)] + ([RunTask(l)] + evs));
    assert [UserForceClose(c)] + ([Swap(l)] + ([RunTask(l)] + evs)) == [UserForceClose(c), Swap(l), RunTask(l)] + evs;
    assert [UserForceClose(c), Swap(l), RunTask(l)] + evs == [UserForceClose(c), Swap(l), RunTask(l), evs[0], evs[1]];
  }

  /** The state after `forceClose`. */
  function Asked(s: Sys, c: ConnId): Sys
    requires c in s.conns && s.conns[c].loop in s.loops
  {
    var r := s.conns[c];
    Push(s.(conns := s.conns[c := r.(conn := r.conn.(state := Disconnecting))]), r.loop, Task(ForceK, c))
  }

  lemma ForceCloseQueues(s: Sys, c: ConnId)
    requires Wf(s) && c in s.conns && Up(s.conns[c].conn)
    ensures Wf(Asked(s, c)) && Step(s, UserForceClose(c)) == Asked(s, c)
  {
    var ps := Posts(s.conns[c].conn, ForceClose, s.hooks);
    var s1 := s.(conns := s.conns[c := s.conns[c].(conn := Next(s.conns[c].conn, ForceClose))]);
    var s2 := Hand(s1, c, ps[0]);
    assert ps == [ForceCloseTask] && ps[1..] == [];
    assert HandAll(s1, c, ps) == HandAll(s2, c, []) == s2;
  }

  /** The loop is about to run the forced close of a connection that watches nothing. */
  ghost predicate AboutToClose(s: Sys, c: ConnId) {
    && Wf(s) && c in s.conns && Up(s.conns[c].conn) && ConnSpec.Inv(s.conns[c].conn) && EraseAsserts(s, c)
    && !s.conns[c].conn.reading && s.conns[c].conn.output == []
    && s.loops[s.conns[c].loop] == Loop([Task(ForceK, c)], 1, [])
  }

  lemma ForceCloseWaits(s: Sys, c: ConnId)
    requires SysInv(s) && c in s.conns && Wf(Asked(s, c)) && Up(s.conns[c].conn) && !s.conns[c].conn.reading && s.conns[c].conn.output == []
    requires Quiet(s, s.conns[c].loop) && s.loops[s.conns[c].loop].queue == []
    ensures var s1, l := Asked(s, c), s.conns[c].loop;
      var s2 := SetLoop(s1, l, s1.loops[l].(due := 1));
      Enabled(s1, Swap(l)) && s2 == Step(s1, Swap(l)) && AboutToClose(s2, c)
  {
    hide LoopsOk, ConnsOk;
    ConnInv(s, c);
    assert Staged(s, c);
  }

  /** The queued task closes the connection and leaves it in the kernel's table. */
  lemma ForcedCloseOf(s: Sys, c: ConnId)
    requires AboutToClose(s, c) && c in s.conns
    ensures var l := s.conns[c].loop;
      && Wf(s) && Enabled(s, RunTask(l)) && Asserts(s, RunTask(l))
      && var s' := Step(s, RunTask(l));
         Wf(s') && c in s'.conns && s'.conns[c].loop == l && Quiet(s', l) &&
         s'.conns[c].conn.state == Disconnected && s'.conns[c].conn.index == Added
  {
    ApplyEffect(Popped(s, s.conns[c].loop), c, ForceCloseInLoop);
    ClosedIsUnwatchedIff(s.conns[c].conn, ForceCloseInLoop);
  }

  /** A hang-up reported with priority data but without readable data makes both closing
      callbacks: after the first, the second fails its assert when it reads end of stream. */
  lemma HangupWithPriorityCanFail(s: Sys, c: ConnId)
    requires SysInv(s) && c in s.conns && Up(s.conns[c].conn) && Pri in s.conns[c].conn.events && Quiet(s, s.conns[c].loop)
    ensures var l := s.conns[c].loop;
      var hangup, eof := Poll(l, [Report(c, {Hup, Pri})]), Eof(l);
      Fails(s, [hangup, eof, eof])
  {
    hide LoopsOk, Fails;
    var l := s.conns[c].loop;
    var hangup, eof := Poll(l, [Report(c, {Hup, Pri})]), Eof(l);
    assert ConnSpec.Inv(s.conns[c].conn);
    HangupReported(s, c);
    assert EraseAsserts(s, c) by { assert Staged(s, c); }
    SecondCloseFails(Step(s, hangup), c);
    FailsLater(s, hangup, [eof, eof]);
    assert [hangup] + [eof, eof] == [hangup, eof, eof];
  }

  lemma HangupReported(s: Sys, c: ConnId)
    requires Wf(s) && c in s.conns && s.conns[c].conn.index == Added && Pri in s.conns[c].conn.events && Quiet(s, s.conns[c].loop)
    ensures var l := s.conns[c].loop;
      var hangup := Poll(l, [Report(c, {Hup, Pri})]);
      && Enabled(s, hangup)
      && Step(s, hangup) == SetLoop(s, l, s.loops[l].(active := [Activity(c, [OnClose, OnRead])]))
  {
    assert Pri in {Hup, Pri} * {In, Pri, RdHup};
    assert Dispatch({Hup, Pri}) == [OnClose, OnRead];
    var reports := [Report(c, {Hup, Pri})];
    assert TasksOf(reports)[0] == Activity(c, Dispatch(reports[0].flags));
    assert TasksOf(reports) == [Activity(c, [OnClose, OnRead])];
  }

  lemma SecondCloseFails(s: Sys, c: ConnId)
    requires Wf(s) && c in s.conns && Up(s.conns[c].conn) && EraseAsserts(s, c)
    requires s.loops[s.conns[c].loop].active == [Activity(c, [OnClose, OnRead])]
    ensures var eof := Eof(s.conns[c].loop); Fails(s, [eof, eof])
  {
    hide Fails;
    var l := s.conns[c].loop;
    var eof := Eof(l);
    var b := Begun(s, l);
    assert b.loops[l].active == [Activity(c, [OnRead])];
    ApplyEffect(b, c, HandleRead(EndOfStream));
    FailsNow(Step(s, eof), eof);
    FailsLater(s, eof, [eof]);
    assert [eof] + [eof] == [eof, eof];
  }

  // ----- from the start

  /** The first connection of a new server, accepted on the base loop. */
  function Opened(base: LoopId, others: set<LoopId>, hooks: Hooks): Sys {
    Init(base, others, hooks).(conns := map[1 := Rec(base, Next(INIT, Establish), 0, 0, 0)], registry := {1}, nextId := 2)
  }

  lemma FirstAccept(base: LoopId, others: set<LoopId>, hooks: Hooks)
    ensures var s := Init(base, others, hooks);
      Wf(s) && Enabled(s, Accept(base)) && Step(s, Accept(base)) == Opened(base, others, hooks) && SysInv(Opened(base, others, hooks))
  {
    var s := Init(base, others, hooks);
    StartsInv(base, others, hooks);
    AcceptKeeps(s, base);
    AcceptIs(s, base);
  }

  /** Reading stopped, nothing to write, a forced close, and the peer hangs up. */
  lemma StoppedReaderRun(base: LoopId, others: set<LoopId>, hooks: Hooks, r: ReadOutcome)
    ensures Fails(Init(base, others, hooks),
      [Accept(base), UserStopRead(1), UserForceClose(1), Swap(base), RunTask(base), Poll(base, [Report(1, {Hup})]), Serve(base, r, Failed(EWouldBlock))])
  {
    hide Fails, SysInv;
    var s0, s1 := Init(base, others, hooks), Opened(base, others, hooks);
    FirstAccept(base, others, hooks);
    UserKeeps(s1, 1, StopRead);
    var s2 := Step(s1, UserStopRead(1));
    StopReadIs(s1, 1);
    StoppedReaderCanFail(s2, 1, r);
    var evs := [UserForceClose(1), Swap(base), RunTask(base), Poll(base, [Report(1, {Hup})]), Serve(base, r, Failed(EWouldBlock))];
    FailsLater(s1, UserStopRead(1), evs);
    FailsLater(s0, Accept(base), [UserStopRead(1)] + evs);
    assert [Accept(base)] + ([UserStopRead(1)] + evs) == [Accept(base), UserStopRead(1), evs[0], evs[1], evs[2], evs[3], evs[4]];
  }

  lemma StopReadIs(s: Sys, c: ConnId)
    requires Wf(s) && c in s.conns && Up(s.conns[c].conn)
    ensures Step(s, UserStopRead(c)) == s.(conns := s.conns[c := s.conns[c].(conn := Next(s.conns[c].conn, StopRead))])
  {
    assert Posts(s.conns[c].conn, StopRead, s.hooks) == [];
  }

  /** One report that makes both closing callbacks. */
  lemma HangupWithPriorityRun(base: LoopId, others: set<LoopId>, hooks: Hooks)
    ensures Fails(Init(base, others, hooks), [Accept(base), Poll(base, [Report(1, {Hup, Pri})]), Eof(base), Eof(base)])
  {
    hide Fails, SysInv;
    var s := Opened(base, others, hooks);
    FirstAccept(base, others, hooks);
    HangupWithPriorityCanFail(s, 1);
    var evs := [Poll(base, [Report(1, {Hup, Pri})]), Eof(base), Eof(base)];
    FailsLater(Init(base, others, hooks), Accept(base), evs);
    assert [Accept(base)] + evs == [Accept(base), evs[0], evs[1], evs[2]];
  }
}
