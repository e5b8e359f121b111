/** What the single events of the server come to, written out for the connection they concern. */
module ServerSteps {
  import opened Pollers
  import opened ConnSpec
  import opened ServerSpec
  import opened ServerRuns
  import opened ServerFailures
  import opened ConnSteps

  // ----- what is queued

  /** What a post puts on the queue of the connection's own loop. */
  function HomeTasks(c: ConnId, ps: seq<Post>, onBase: bool): seq<Task> {
    if ps == [] then []
    else (match ps[0]
          case ForceCloseTask => [Task(ForceK, c)]
          case CloseNotice => if onBase then [Task(DestroyK, c)] else []
          case _ => [Task(UserK, c)]) + HomeTasks(c, ps[1..], onBase)
  }

  /** From `s` to `s'`, connection `c` put the tasks `home` on its own loop's queue and, if `told`,
      told the owner; no other queue and no other entry of the map changed. */
  ghost predicate Posted(s: Sys, s': Sys, c: ConnId, home: seq<Task>, told: bool) {
    && Wf(s) && Wf(s') && c in s.conns && c in s'.conns && s'.base == s.base
    && s'.conns[c].loop == s.conns[c].loop && s'.loops.Keys == s.loops.Keys
    && (forall l :: l in s.loops ==> s'.loops[l].queue == s.loops[l].queue + Queued(l, s.base, s.conns[c].loop, c, home, told))
    && s'.registry == if told && s.conns[c].loop == s.base then s.registry - {c} else s.registry
  }

  function Queued(l: LoopId, base: LoopId, own: LoopId, c: ConnId, home: seq<Task>, told: bool): seq<Task> {
    if l == own then home else if l == base && told then [Task(RemoveK, c)] else []
  }

  lemma PostedTrans(s: Sys, t: Sys, u: Sys, c: ConnId, home1: seq<Task>, told1: bool, home2: seq<Task>, told2: bool)
    requires Posted(s, t, c, home1, told1) && Posted(t, u, c, home2, told2) && !(told1 && told2)
    ensures Posted(s, u, c, home1 + home2, told1 || told2)
  {
    hide Queued;
    var own := s.conns[c].loop;
    forall l | l in s.loops
      ensures u.loops[l].queue == s.loops[l].queue + Queued(l, s.base, own, c, home1 + home2, told1 || told2)
    {
      var q1, q2 := Queued(l, s.base, own, c, home1, told1), Queued(l, s.base, own, c, home2, told2);
      assert t.loops[l].queue == s.loops[l].queue + q1 && u.loops[l].queue == t.loops[l].queue + q2;
      QueuedJoin(l, s.base, own, c, home1, told1, home2, told2);
      assert s.loops[l].queue + q1 + q2 == s.loops[l].queue + (q1 + q2);
    }
  }

  lemma QueuedJoin(l: LoopId, base: LoopId, own: LoopId, c: ConnId, home1: seq<Task>, told1: bool, home2: seq<Task>, told2: bool)
    requires !(told1 && told2)
    ensures Queued(l, base, own, c, home1, told1) + Queued(l, base, own, c, home2, told2) ==
      Queued(l, base, own, c, home1 + home2, told1 || told2)
  {
  }

  lemma PushPosts(s: Sys, c: ConnId, t: Task)
    requires Wf(s) && c in s.conns
    ensures Posted(s, Push(s, s.conns[c].loop, t), c, [t], false)
  {
    assert forall l :: l in s.loops ==> s.loops[l].queue + [] == s.loops[l].queue;
  }

  lemma NoticePosts(s: Sys, c: ConnId)
    requires Wf(s) && c in s.conns
    ensures Posted(s, Notice(s, c), c, if s.conns[c].loop == s.base then [Task(DestroyK, c)] else [], true)
  {
    assert forall l :: l in s.loops ==> s.loops[l].queue + [] == s.loops[l].queue;
  }

  lemma HandQueues(s: Sys, c: ConnId, p: Post)
    requires Wf(s) && c in s.conns
    ensures Posted(s, Hand(s, c, p), c, HomeTasks(c, [p], s.conns[c].loop == s.base), p == CloseNotice)
  {
    hide Posted;
    HomeOne(c, p, s.conns[c].loop == s.base);
    if p == CloseNotice {
      NoticePosts(s, c);
    } else {
      PushPosts(s, c, Task(if p == ForceCloseTask then ForceK else UserK, c));
    }
  }

  lemma HomeOne(c: ConnId, p: Post, onBase: bool)
    ensures HomeTasks(c, [p], onBase) ==
      if p == CloseNotice then if onBase then [Task(DestroyK, c)] else []
      else [Task(if p == ForceCloseTask then ForceK else UserK, c)]
  {
    assert [p][1..] == [];
    assert HomeTasks(c, [], onBase) == [];
  }

  /** The tasks for the user, the forced closes and the notices all go where they belong, in order. */
  lemma {:induction false} PostsAreQueued(s: Sys, c: ConnId, ps: seq<Post>)
    requires Wf(s) && c in s.conns && forall i :: 0 <= i < |ps| - 1 ==> ps[i] != CloseNotice
    ensures Posted(s, HandAll(s, c, ps), c, HomeTasks(c, ps, s.conns[c].loop == s.base), CloseNotice in ps)
    decreases |ps|
  {
    if ps == [] {
      assert forall l :: l in s.loops ==> s.loops[l].queue + [] == s.loops[l].queue;
    } else {
      hide Posted, Hand;
      var s1, onBase := Hand(s, c, ps[0]), s.conns[c].loop == s.base;
      HandQueues(s, c, ps[0]);
      PostedMeans(s, s1, c, HomeTasks(c, [ps[0]], onBase), ps[0] == CloseNotice);
      NoticeInTail(ps);
      PostsAreQueued(s1, c, ps[1..]);
      HomeCons(c, ps, onBase);
      PostedTrans(s, s1, HandAll(s, c, ps), c, HomeTasks(c, [ps[0]], onBase), ps[0] == CloseNotice,
                  HomeTasks(c, ps[1..], onBase), CloseNotice in ps[1..]);
      assert CloseNotice in ps <==> ps[0] == CloseNotice || CloseNotice in ps[1..];
    }
  }

  lemma PostedMeans(s: Sys, s': Sys, c: ConnId, home: seq<Task>, told: bool)
    requires Posted(s, s', c, home, told)
    ensures Wf(s') && c in s'.conns && s'.base == s.base && s'.conns[c].loop == s.conns[c].loop
  {
  }

  lemma HomeCons(c: ConnId, ps: seq<Post>, onBase: bool)
    requires ps != []
    ensures HomeTasks(c, ps, onBase) == HomeTasks(c, [ps[0]], onBase) + HomeTasks(c, ps[1..], onBase)
  {
    assert [ps[0]][1..] == [];
    assert HomeTasks(c, [], onBase) == [];
  }

  /** An operation takes its connection to the next state, queues what it posts, and leaves every
      other connection and what every loop is serving as they are. */
  lemma OperationMeans(s: Sys, c: ConnId, op: Op)
    requires Wf(s) && c in s.conns && Legal(s.conns[c].conn, op)
    ensures var s', ps := Apply(s, c, op), Posts(s.conns[c].conn, op, s.hooks);
      && Posted(s, s', c, HomeTasks(c, ps, s.conns[c].loop == s.base), CloseNotice in ps)
      && Wf(s') && c in s'.conns && s'.loops.Keys == s.loops.Keys
      && s'.conns[c].conn == Next(s.conns[c].conn, op) && s'.conns - {c} == s.conns - {c}
      && (forall l :: l in s.loops ==> s'.loops[l].active == s.loops[l].active && s'.loops[l].due == s.loops[l].due)
      && (forall l :: l in s.loops ==> s.loops[l].queue <= s'.loops[l].queue)
  {
    hide HandAll, Concerns;
    var r, ps := s.conns[c], Posts(s.conns[c].conn, op, s.hooks);
    ApplyEffect(s, c, op);
    NoticeIsLast(r.conn, op, s.hooks);
    PostsAreQueued(s.(conns := s.conns[c := r.(conn := Next(r.conn, op))]), c, ps);
  }

  // ----- event by event

  lemma NumberIsNew(s: Sys)
    requires SysInv(s)
    ensures Wf(s) && s.nextId !in s.conns
  {
    assert ConnsOk(s.conns, s.nextId);
  }

  /** From `s` to `s'`, connection `c` was listed under the next number, on loop `io`. */
  predicate NewlyListed(s: Sys, s': Sys, io: LoopId) {
    var c := s.nextId;
    && c !in s.conns && s'.nextId == c + 1 && s'.registry == s.registry + {c}
    && c in s'.conns && s'.conns - {c} == s.conns && s'.conns[c].loop == io
  }

  lemma ListedAnew(s: Sys, io: LoopId, r: Rec)
    requires s.nextId !in s.conns && r.loop == io
    ensures NewlyListed(s, s.(conns := s.conns[s.nextId := r], registry := s.registry + {s.nextId}, nextId := s.nextId + 1), io)
  {
    assert s.conns[s.nextId := r] - {s.nextId} == s.conns;
  }

  /** Accepting on the base loop: the connection is listed under a new number, and connected and
      reading at once. */
  lemma AcceptHereMeans(s: Sys)
    requires SysInv(s) && Enabled(s, Accept(s.base))
    ensures var s', c := Step(s, Accept(s.base)), s.nextId;
      && NewlyListed(s, s', s.base) && s'.loops == s.loops
      && s'.conns[c].conn.state == Connected && s'.conns[c].conn.events == {In, Pri} && s'.conns[c].conn.index == Added
  {
    NumberIsNew(s);
    AcceptIs(s, s.base);
    hide SysInv, Step, Enabled, Next, NewlyListed;
    EstablishMeans(INIT, s.hooks);
    ListedAnew(s, s.base, Rec(s.base, Next(INIT, Establish), 0, 0, 0));
  }

  /** Accepting on another loop: it is listed, and its establishment is queued there. */
  lemma AcceptThereMeans(s: Sys, io: LoopId)
    requires SysInv(s) && Enabled(s, Accept(io)) && io != s.base
    ensures var s', c := Step(s, Accept(io)), s.nextId;
      && NewlyListed(s, s', io) && s'.conns[c].conn.state == Connecting
      && s'.loops == s.loops[io := s.loops[io].(queue := s.loops[io].queue + [Task(EstablishK, c)])]
  {
    NumberIsNew(s);
    AcceptIs(s, io);
    hide SysInv, Step, Enabled, NewlyListed;
    ListedAnew(s, io, Rec(io, INIT, 0, 0, 0));
  }

  /** A poll makes one activity of each report, in order: the callbacks still to be made are those
      that its flags ask for; in particular, readable data will be read. */
  lemma PollMeans(s: Sys, l: LoopId, reports: seq<Report>, i: nat)
    requires Wf(s) && Enabled(s, Poll(l, reports)) && i < |reports|
    ensures var s' := Step(s, Poll(l, reports));
      && s' == s.(loops := s.loops[l := s.loops[l].(active := s'.loops[l].active)]) && |s'.loops[l].active| == |reports|
      && var a, flags := s'.loops[l].active[i], reports[i].flags;
      && a.conn == reports[i].conn
      && (OnRead in a.todo <==> In in flags || Pri in flags || RdHup in flags) && (OnWrite in a.todo <==> Out in flags)
      && (OnError in a.todo <==> Err in flags) && (OnClose in a.todo <==> Hup in flags && In !in flags)
  {
    DispatchIff(reports[i].flags);
  }

  /** The next callback is taken off and made.  Closing, and reading to the end of the stream, bring
      the connection down; data, read errors and socket errors leave it as it is; writing moves the
      bytes that the kernel takes. */
  lemma ServeMeans(s: Sys, l: LoopId, r: ReadOutcome, w: WriteResult)
    requires Wf(s) && Enabled(s, Serve(l, r, w)) && Asserts(s, Serve(l, r, w))
    requires ConnSpec.Inv(s.conns[s.loops[l].active[0].conn].conn)
    ensures var s', a := Step(s, Serve(l, r, w)), s.loops[l].active[0];
      && l in s'.loops && s'.loops[l].active == [Activity(a.conn, a.todo[1..])] + s.loops[l].active[1..]
      && a.conn in s'.conns && s'.conns - {a.conn} == s.conns - {a.conn}
      && var c, d := s.conns[a.conn].conn, s'.conns[a.conn].conn;
      match a.todo[0]
      case OnClose => IsClosed(c, d)
      case OnError => d == c
      case OnRead => if r == EndOfStream then IsClosed(c, d) else d == c
      case OnWrite =>
        if c.state == Disconnected || w.Failed? || w.n == 0 then d == c
        else d.sent == c.sent + c.output[..w.n] && d.output == c.output[w.n..] &&
             d.state == (if w.n == |c.output| && c.state == Disconnecting then Disconnected else c.state)
  {
    hide Posted;
    var a := s.loops[l].active[0];
    var c := s.conns[a.conn].conn;
    OperationMeans(Begun(s, l), a.conn, CallbackOp(a.todo[0], r, w));
    match a.todo[0]
    case OnClose => HandleReadMeans(c, EndOfStream, s.hooks);
    case OnError => HandleReadMeans(c, ReadFailed, s.hooks);
    case OnRead => HandleReadMeans(c, r, s.hooks);
    case OnWrite => HandleWriteMeans(c, w, s.hooks);
  }

  lemma ServedMeans(s: Sys, l: LoopId)
    requires Wf(s)
    ensures Enabled(s, Served(l)) ==>
      Step(s, Served(l)) == s.(loops := s.loops[l := Loop(s.loops[l].queue, s.loops[l].due, s.loops[l].active[1..])])
    ensures Enabled(s, Swap(l)) ==>
      Step(s, Swap(l)) == s.(loops := s.loops[l := Loop(s.loops[l].queue, |s.loops[l].queue|, [])])
  {
  }

  /** Running the first task of the batch. */
  lemma TaskIs(s: Sys, l: LoopId)
    requires Wf(s) && Enabled(s, RunTask(l)) && Asserts(s, RunTask(l))
    ensures var s1, t := Popped(s, l), s.loops[l].queue[0];
      && Wf(s1) && t.conn in s1.conns
      && (t.kind == EstablishK ==> Legal(s1.conns[t.conn].conn, Establish) && Step(s, RunTask(l)) == Apply(s1, t.conn, Establish))
      && (t.kind == ForceK ==> Step(s, RunTask(l)) == Apply(s1, t.conn, ForceCloseInLoop))
      && (t.kind == RemoveK ==> Step(s, RunTask(l)) == Erase(s1, t.conn))
      && (t.kind == DestroyK ==> Legal(s1.conns[t.conn].conn, Destroy) && Step(s, RunTask(l)) == Apply(CountDestroy(s1, t.conn), t.conn, Destroy))
      && (t.kind == UserK ==> Step(s, RunTask(l)) == s1)
  {
  }

  /** The first task of the batch is gone, those behind it are still there, and no other connection
      changed. */
  predicate TaskDone(s: Sys, s': Sys, l: LoopId)
    requires l in s.loops && s.loops[l].queue != []
  {
    var c := s.loops[l].queue[0].conn;
    && c in s.conns && c in s'.conns && s'.conns - {c} == s.conns - {c}
    && l in s'.loops && s'.loops[l].due == s.loops[l].due - 1 && s.loops[l].queue[1..] <= s'.loops[l].queue
  }

  /** An establishment connects; a forced close brings down what is up. */
  lemma OpenCloseTaskMeans(s: Sys, l: LoopId)
    requires Wf(s) && Enabled(s, RunTask(l)) && Asserts(s, RunTask(l))
    requires s.loops[l].queue[0].kind == EstablishK || s.loops[l].queue[0].kind == ForceK
    ensures TaskDone(s, Step(s, RunTask(l)), l)
    ensures var t := s.loops[l].queue[0]; var c, d := s.conns[t.conn].conn, Step(s, RunTask(l)).conns[t.conn].conn;
      if t.kind == EstablishK then d.state == Connected && d.events == c.events + {In, Pri}
      else if c.state == Connected || c.state == Disconnecting then IsClosed(c, d)
      else d == c
  {
    TaskIs(s, l);
    hide Step, Posted, Apply;
    var t, s1 := s.loops[l].queue[0], Popped(s, l);
    var c := s.conns[t.conn].conn;
    if t.kind == EstablishK {
      OperationMeans(s1, t.conn, Establish);
      EstablishMeans(c, s.hooks);
    } else {
      OperationMeans(s1, t.conn, ForceCloseInLoop);
      ForceCloseInLoopMeans(c, s.hooks);
    }
  }

  /** A removal erases its connection from the map and queues the destruction on the io loop. */
  lemma RemoveTaskMeans(s: Sys, l: LoopId)
    requires Wf(s) && Enabled(s, RunTask(l)) && Asserts(s, RunTask(l)) && s.loops[l].queue[0].kind == RemoveK
    ensures TaskDone(s, Step(s, RunTask(l)), l)
    ensures var c, s' := s.loops[l].queue[0].conn, Step(s, RunTask(l));
      && c !in s'.registry && s'.conns[c] == s.conns[c].(erased := s.conns[c].erased + 1)
      && s.conns[c].loop in s'.loops && Task(DestroyK, c) in s'.loops[s.conns[c].loop].queue
  {
    TaskIs(s, l);
    hide Step, Erase;
    EraseMeans(Popped(s, l), s.loops[l].queue[0].conn);
  }

  /** A destruction takes the channel out of the poller; a user's task is just taken off. */
  lemma OtherTaskMeans(s: Sys, l: LoopId)
    requires Wf(s) && Enabled(s, RunTask(l)) && Asserts(s, RunTask(l))
    requires s.loops[l].queue[0].kind == DestroyK || s.loops[l].queue[0].kind == UserK
    requires ConnSpec.Inv(s.conns[s.loops[l].queue[0].conn].conn)
    ensures TaskDone(s, Step(s, RunTask(l)), l)
    ensures var t := s.loops[l].queue[0]; var c, d := s.conns[t.conn], Step(s, RunTask(l)).conns[t.conn];
      if t.kind == DestroyK then d.conn.state == Disconnected && d.conn.index == New && d.destroyed == c.destroyed + 1
      else d == c
  {
    TaskIs(s, l);
    hide Step, Posted, Apply;
    var t, s1 := s.loops[l].queue[0], Popped(s, l);
    if t.kind == DestroyK {
      OperationMeans(CountDestroy(s1, t.conn), t.conn, Destroy);
      DestroyMeans(s.conns[t.conn].conn, s.hooks);
      DestroyCounts(s1, t.conn);
    }
  }

  lemma EraseMeans(s: Sys, c: ConnId)
    requires Wf(s) && c in s.conns
    ensures var s', home := Erase(s, c), s.conns[c].loop;
      && c in s'.conns && s'.conns - {c} == s.conns - {c} && s'.conns[c] == s.conns[c].(erased := s.conns[c].erased + 1)
      && s'.registry == s.registry - {c}
      && s'.loops == s.loops[home := s.loops[home].(queue := s.loops[home].queue + [Task(DestroyK, c)])]
  {
  }

  lemma DestroyCounts(s: Sys, c: ConnId)
    requires Wf(s) && c in s.conns && Legal(s.conns[c].conn, Destroy)
    ensures Apply(CountDestroy(s, c), c, Destroy).conns[c].destroyed == s.conns[c].destroyed + 1
  {
    assert Posts(s.conns[c].conn, Destroy, s.hooks) == [];
  }

  /** What the user's calls do: a message is delivered or lost as a whole, a forced close is queued,
      and reading is switched; nobody else's connection changes. */
  lemma UserSendMeans(s: Sys, c: ConnId, m: seq<Byte>, w: WriteResult)
    requires Wf(s) && Enabled(s, UserSend(c, m, w)) && ConnSpec.Inv(s.conns[c].conn)
    ensures var s' := Step(s, UserSend(c, m, w));
      && c in s'.conns && s'.conns - {c} == s.conns - {c} && Delivered(s.conns[c].conn, m, w, s'.conns[c].conn)
  {
    hide Posted, Delivered;
    OperationMeans(s, c, Send(m, w));
    SendMeans(s.conns[c].conn, m, w);
  }

  lemma UserForceCloseMeans(s: Sys, c: ConnId)
    requires Wf(s) && c in s.conns && s.conns[c].conn.state != Connecting && s.conns[c].conn.state != Disconnected
    ensures var s', home := Step(s, UserForceClose(c)), s.conns[c].loop;
      && c in s'.conns && s'.conns[c].conn == s.conns[c].conn.(state := Disconnecting) && s'.conns - {c} == s.conns - {c}
      && home in s'.loops && s'.loops[home].queue == s.loops[home].queue + [Task(ForceK, c)]
  {
    OperationMeans(s, c, ForceClose);
    HomeOne(c, ForceCloseTask, s.conns[c].loop == s.base);
  }

  lemma UserSwitchMeans(s: Sys, c: ConnId)
    requires Wf(s) && c in s.conns && Up(s.conns[c].conn) && ConnSpec.Inv(s.conns[c].conn)
    ensures var off, on, d := Step(s, UserStopRead(c)), Step(s, UserStartRead(c)), s.conns[c].conn;
      && c in off.conns && off.conns - {c} == s.conns - {c} && c in on.conns && on.conns - {c} == s.conns - {c}
      && !off.conns[c].conn.reading && off.conns[c].conn.events == d.events - {In, Pri}
      && on.conns[c].conn.reading && on.conns[c].conn.events == d.events + {In, Pri}
  {
    hide Posted;
    OperationMeans(s, c, StopRead);
    OperationMeans(s, c, StartRead);
    SwitchReadMeans(s.conns[c].conn, s.hooks);
  }

  /** The last reference gone, the object is gone, and nothing else. */
  lemma ReleaseMeans(s: Sys, c: ConnId)
    requires SysInv(s) && c in s.conns && !Held(s, c)
    ensures Enabled(s, Release(c)) && Asserts(s, Release(c))
    ensures Step(s, Release(c)).conns == s.conns - {c} && Step(s, Release(c)).loops == s.loops && Step(s, Release(c)).registry == s.registry
  {
    hide LoopsOk, ConnsOk, Held;
    UnheldIsDead(s, c);
  }
}
