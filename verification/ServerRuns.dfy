/** What every run of the server keeps. */
module ServerRuns {
  import opened Pollers
  import opened ConnSpec
  import opened ServerSpec

  // ----- one connection at a time

  /** Everything the stage of a connection depends on. */
  datatype Status = Status(rec: Rec, listed: bool, establish: nat, remove: nat, destroy: nat)

  function StatusOf(s: Sys, c: ConnId): Status
    requires Wf(s) && c in s.conns
  {
    var r := s.conns[c];
    Status(r, c in s.registry, Tally(s, r.loop, EstablishK, c), Tally(s, s.base, RemoveK, c), Tally(s, r.loop, DestroyK, c))
  }

  predicate StageOk(st: Status) { Stage(st.rec, st.listed, st.establish, st.remove, st.destroy) }

  /** The invariant, except for the stage of connection `c`. */
  ghost predicate InvBut(s: Sys, c: ConnId) {
    && Wf(s) && c in s.conns
    && s.registry <= s.conns.Keys
    && ConnsOk(s.conns, s.nextId)
    && LoopsOk(s.loops, s.base, s.conns)
    && (forall d :: d in s.conns && d != c ==> Staged(s, d))
  }

  lemma Focus(s: Sys, c: ConnId)
    requires Wf(s) && c in s.conns
    ensures SysInv(s) <==> InvBut(s, c) && StageOk(StatusOf(s, c))
  {
  }

  lemma SameStatus(s: Sys, s': Sys, d: ConnId)
    requires Wf(s) && Wf(s') && d in s.conns && d in s'.conns && StatusOf(s', d) == StatusOf(s, d) && Staged(s, d)
    ensures Staged(s', d)
  {
  }

  function Bump(st: Status, k: Kind): Status {
    match k
    case EstablishK => st.(establish := st.establish + 1)
    case RemoveK => st.(remove := st.remove + 1)
    case DestroyK => st.(destroy := st.destroy + 1)
    case _ => st
  }

  lemma TallySnoc(q: seq<Task>, t: Task, u: Task)
    ensures multiset(q + [t])[u] == multiset(q)[u] + if t == u then 1 else 0
  {
  }

  lemma PushTally(s: Sys, l: LoopId, t: Task, m: LoopId, k: Kind, c: ConnId)
    requires l in s.loops && m in s.loops
    ensures Tally(Push(s, l, t), m, k, c) == Tally(s, m, k, c) + if l == m && t == Task(k, c) then 1 else 0
  {
    TallySnoc(s.loops[l].queue, t, Task(k, c));
  }

  lemma PushTallies(s: Sys, l: LoopId, t: Task, d: ConnId)
    requires Wf(s) && d in s.conns && l in s.loops && Placed(t, l, s.base, s.conns)
    ensures StatusOf(Push(s, l, t), d) == if d == t.conn then Bump(StatusOf(s, d), t.kind) else StatusOf(s, d)
  {
    var home := s.conns[d].loop;
    PushTally(s, l, t, home, EstablishK, d);
    PushTally(s, l, t, home, DestroyK, d);
    PushTally(s, l, t, s.base, RemoveK, d);
  }

  // ----- changes that concern one connection only

  /** The queue grew by well-placed tasks of `c`; nothing else about the loop changed. */
  ghost predicate Grew(was: Loop, now: Loop, l: LoopId, c: ConnId, base: LoopId, conns: map<ConnId, Rec>) {
    && now.due == was.due && now.active == was.active && |was.queue| <= |now.queue|
    && now.queue[..|was.queue|] == was.queue
    && (forall i :: |was.queue| <= i < |now.queue| ==> now.queue[i].conn == c && Placed(now.queue[i], l, base, conns))
  }

  /** From `s` to `s'` only the counts of `c`, its place in the map and the tasks for it changed. */
  ghost predicate Concerns(s: Sys, s': Sys, c: ConnId) {
    && c in s.conns && s'.base == s.base && s'.hooks == s.hooks && s'.nextId == s.nextId
    && c in s'.conns && s'.conns[c].loop == s.conns[c].loop && s'.conns[c].conn == s.conns[c].conn
    && s'.conns == s.conns[c := s'.conns[c]]
    && s'.registry - {c} == s.registry - {c} && s'.registry <= s.registry
    && s'.loops.Keys == s.loops.Keys
    && (forall l :: l in s.loops ==> Grew(s.loops[l], s'.loops[l], l, c, s.base, s.conns))
  }

  lemma GrewTrans(a: Loop, b: Loop, d: Loop, l: LoopId, c: ConnId, base: LoopId, conns: map<ConnId, Rec>, conns': map<ConnId, Rec>)
    requires Grew(a, b, l, c, base, conns) && Grew(b, d, l, c, base, conns')
    requires c in conns && c in conns' && conns'[c].loop == conns[c].loop
    ensures Grew(a, d, l, c, base, conns)
  {
    assert d.queue[..|a.queue|] == d.queue[..|b.queue|][..|a.queue|];
    forall i | |a.queue| <= i < |b.queue|
      ensures d.queue[i] == b.queue[i]
    {
      assert d.queue[i] == d.queue[..|b.queue|][i];
    }
  }

  lemma ConcernsTrans(s: Sys, t: Sys, u: Sys, c: ConnId)
    requires Concerns(s, t, c) && Concerns(t, u, c)
    ensures Concerns(s, u, c)
  {
    forall l | l in s.loops
      ensures Grew(s.loops[l], u.loops[l], l, c, s.base, s.conns)
    {
      assert Grew(s.loops[l], t.loops[l], l, c, s.base, s.conns) && Grew(t.loops[l], u.loops[l], l, c, t.base, t.conns);
      GrewTrans(s.loops[l], t.loops[l], u.loops[l], l, c, s.base, s.conns, t.conns);
    }
  }

  lemma TallyGrew(was: seq<Task>, now: seq<Task>, u: Task)
    requires |was| <= |now| && now[..|was|] == was && forall i :: |was| <= i < |now| ==> now[i] != u
    ensures multiset(now)[u] == multiset(was)[u]
  {
    var more := now[|was|..];
    assert now == was + more;
    assert forall i :: 0 <= i < |more| ==> more[i] == now[|was| + i];
    assert u !in more;
    assert multiset(now) == multiset(was) + multiset(more);
  }

  lemma GrewOk(was: Loop, now: Loop, l: LoopId, c: ConnId, base: LoopId, conns: map<ConnId, Rec>)
    requires LoopOk(was, l, base, conns) && Grew(was, now, l, c, base, conns)
    ensures LoopOk(now, l, base, conns)
  {
    forall i | 0 <= i < |now.queue|
      ensures Placed(now.queue[i], l, base, conns)
    {
      if i < |was.queue| {
        assert now.queue[i] == now.queue[..|was.queue|][i];
        assert Placed(was.queue[i], l, base, conns);
      }
    }
  }

  lemma ConcernsStatus(s: Sys, s': Sys, c: ConnId, d: ConnId)
    requires Wf(s) && Wf(s') && Concerns(s, s', c) && d in s.conns && d != c
    ensures StatusOf(s', d) == StatusOf(s, d)
  {
    var home := s.conns[d].loop;
    assert Grew(s.loops[home], s'.loops[home], home, c, s.base, s.conns);
    assert Grew(s.loops[s.base], s'.loops[s.base], s.base, c, s.base, s.conns);
    TallyGrew(s.loops[home].queue, s'.loops[home].queue, Task(EstablishK, d));
    TallyGrew(s.loops[home].queue, s'.loops[home].queue, Task(DestroyK, d));
    TallyGrew(s.loops[s.base].queue, s'.loops[s.base].queue, Task(RemoveK, d));
    assert d in s'.registry <==> d in s'.registry - {c};
    assert d in s.registry <==> d in s.registry - {c};
  }

  lemma ConcernsLoops(s: Sys, s': Sys, c: ConnId)
    requires LoopsOk(s.loops, s.base, s.conns) && Concerns(s, s', c)
    ensures LoopsOk(s'.loops, s'.base, s'.conns)
  {
    forall l | l in s.loops
      ensures LoopOk(s'.loops[l], l, s.base, s.conns)
    {
      GrewOk(s.loops[l], s'.loops[l], l, c, s.base, s.conns);
    }
    var mid := s.(loops := s'.loops);
    assert LoopsOk(mid.loops, mid.base, mid.conns);
    AdmitsItself(mid, c);
    SetRecLoops(mid.loops, s.base, s.conns, c, s'.conns[c]);
  }

  /** Such a change keeps the invariant but for the stage of `c`. */
  lemma ConcernsKeeps(s: Sys, s': Sys, c: ConnId)
    requires InvBut(s, c) && Wf(s') && Concerns(s, s', c)
    ensures InvBut(s', c)
  {
    ConcernsLoops(s, s', c);
    SetRecConns(s.conns, s.nextId, c, s'.conns[c]);
    forall d | d in s'.conns && d != c
      ensures Staged(s', d)
    {
      ConcernsStatus(s, s', c, d);
      SameStatus(s, s', d);
    }
  }

  /** The activities on `c` do not mind if its connection becomes `conn`. */
  ghost predicate Admits(loops: map<LoopId, Loop>, c: ConnId, conn: Conn) {
    forall l, i :: l in loops && 0 <= i < |loops[l].active| && loops[l].active[i].conn == c ==> Awaits(loops[l].active[i].todo, conn)
  }

  lemma SetRecLoops(loops: map<LoopId, Loop>, base: LoopId, conns: map<ConnId, Rec>, c: ConnId, r: Rec)
    requires LoopsOk(loops, base, conns) && c in conns && r.loop == conns[c].loop && Admits(loops, c, r.conn)
    ensures LoopsOk(loops, base, conns[c := r])
  {
    var conns' := conns[c := r];
    forall l | l in loops
      ensures QueueOk(loops[l].queue, l, base, conns') && ActiveOk(loops[l].active, l, conns')
    {
      assert LoopOk(loops[l], l, base, conns);
      forall i | 0 <= i < |loops[l].queue|
        ensures Placed(loops[l].queue[i], l, base, conns')
      {
        assert Placed(loops[l].queue[i], l, base, conns);
      }
      forall i | 0 <= i < |loops[l].active|
        ensures Serving(loops[l].active[i], l, conns')
      {
        assert Serving(loops[l].active[i], l, conns);
      }
    }
  }

  lemma SetRecConns(conns: map<ConnId, Rec>, nextId: ConnId, c: ConnId, r: Rec)
    requires ConnsOk(conns, nextId) && c in conns && ConnSpec.Inv(r.conn)
    ensures ConnsOk(conns[c := r], nextId)
  {
  }

  lemma SetRecWf(s: Sys, c: ConnId, r: Rec)
    requires Wf(s) && c in s.conns && r.loop == s.conns[c].loop
    ensures var s' := s.(conns := s.conns[c := r]);
      && Wf(s') && s'.conns.Keys == s.conns.Keys
      && (forall d :: d in s.conns ==> StatusOf(s', d) == if d == c then StatusOf(s, d).(rec := r) else StatusOf(s, d))
  {
  }

  lemma SetRecStatus(s: Sys, c: ConnId, r: Rec)
    requires InvBut(s, c) && r.loop == s.conns[c].loop && ConnSpec.Inv(r.conn) && Admits(s.loops, c, r.conn)
    ensures var s' := s.(conns := s.conns[c := r]);
      InvBut(s', c) && StatusOf(s', c) == StatusOf(s, c).(rec := r)
  {
    var s' := s.(conns := s.conns[c := r]);
    SetRecLoops(s.loops, s.base, s.conns, c, r);
    SetRecConns(s.conns, s.nextId, c, r);
    SetRecWf(s, c, r);
    forall d | d in s.conns && d != c
      ensures Staged(s', d)
    {
      SameStatus(s, s', d);
    }
  }

  lemma AdmitsItself(s: Sys, c: ConnId)
    requires LoopsOk(s.loops, s.base, s.conns) && c in s.conns
    ensures Admits(s.loops, c, s.conns[c].conn)
  {
    forall l, i | l in s.loops && 0 <= i < |s.loops[l].active| && s.loops[l].active[i].conn == c
      ensures Awaits(s.loops[l].active[i].todo, s.conns[c].conn)
    {
      assert LoopOk(s.loops[l], l, s.base, s.conns);
      assert Serving(s.loops[l].active[i], l, s.conns);
    }
  }

  // ----- what posting does to the status

  function Erased(st: Status): Status {
    st.(rec := st.rec.(erased := st.rec.erased + 1), listed := false, destroy := st.destroy + 1)
  }

  lemma PushConcerns(s: Sys, l: LoopId, t: Task)
    requires Wf(s) && l in s.loops && t.conn in s.conns && Placed(t, l, s.base, s.conns)
    ensures Concerns(s, Push(s, l, t), t.conn) && Wf(Push(s, l, t))
  {
    assert s.conns == s.conns[t.conn := s.conns[t.conn]];
  }

  lemma RecordConcerns(s: Sys, c: ConnId, r: Rec, registry: set<ConnId>)
    requires Wf(s) && c in s.conns && r.loop == s.conns[c].loop && r.conn == s.conns[c].conn
    requires registry == s.registry || registry == s.registry - {c}
    ensures var s' := s.(conns := s.conns[c := r], registry := registry);
      Concerns(s, s', c) && Wf(s') && StatusOf(s', c) == StatusOf(s, c).(rec := r, listed := c in registry)
  {
  }

  lemma EraseStatus(s: Sys, c: ConnId)
    requires Wf(s) && c in s.conns
    ensures Wf(Erase(s, c)) && Concerns(s, Erase(s, c), c) && StatusOf(Erase(s, c), c) == Erased(StatusOf(s, c))
  {
    hide Concerns, Tally;
    var r := s.conns[c].(erased := s.conns[c].erased + 1);
    RecordConcerns(s, c, r, s.registry - {c});
    var s1 := s.(registry := s.registry - {c}, conns := s.conns[c := r]);
    PushConcerns(s1, r.loop, Task(DestroyK, c));
    PushTallies(s1, r.loop, Task(DestroyK, c), c);
    ConcernsTrans(s, s1, Erase(s, c), c);
  }

  /** The owner was told: erased at once on the base loop, or a removal queued there. */
  function Told(st: Status, base: LoopId): Status {
    var st1 := st.(rec := st.rec.(closed := st.rec.closed + 1));
    if st.rec.loop == base then Erased(st1) else st1.(remove := st1.remove + 1)
  }

  lemma NoticeStatus(s: Sys, c: ConnId)
    requires Wf(s) && c in s.conns
    ensures Wf(Notice(s, c)) && Concerns(s, Notice(s, c), c) && StatusOf(Notice(s, c), c) == Told(StatusOf(s, c), s.base)
  {
    hide Concerns;
    RecordConcerns(s, c, s.conns[c].(closed := s.conns[c].closed + 1), s.registry);
    TellStatus(CountClose(s, c), c);
    ConcernsTrans(s, CountClose(s, c), Notice(s, c), c);
  }

  lemma TellStatus(s: Sys, c: ConnId)
    requires Wf(s) && c in s.conns
    ensures Wf(Tell(s, c)) && Concerns(s, Tell(s, c), c)
    ensures StatusOf(Tell(s, c), c) == var st := StatusOf(s, c); if st.rec.loop == s.base then Erased(st) else st.(remove := st.remove + 1)
  {
    if s.conns[c].loop == s.base {
      EraseStatus(s, c);
    } else {
      PushConcerns(s, s.base, Task(RemoveK, c));
      PushTallies(s, s.base, Task(RemoveK, c), c);
    }
  }

  lemma HandStatus(s: Sys, c: ConnId, p: Post)
    requires Wf(s) && c in s.conns
    ensures Wf(Hand(s, c, p)) && Concerns(s, Hand(s, c, p), c)
    ensures StatusOf(Hand(s, c, p), c) == if p == CloseNotice then Told(StatusOf(s, c), s.base) else StatusOf(s, c)
  {
    if p == CloseNotice {
      NoticeStatus(s, c);
    } else {
      var t := Task(if p == ForceCloseTask then ForceK else UserK, c);
      PushConcerns(s, s.conns[c].loop, t);
      PushTallies(s, s.conns[c].loop, t, c);
    }
  }

  lemma ConcernsRefl(s: Sys, c: ConnId)
    requires c in s.conns
    ensures Concerns(s, s, c)
  {
    assert s.conns == s.conns[c := s.conns[c]];
  }

  /** At most the last of the posts is the notice. */
  lemma {:induction false} HandAllStatus(s: Sys, c: ConnId, ps: seq<Post>)
    requires Wf(s) && c in s.conns && forall i :: 0 <= i < |ps| - 1 ==> ps[i] != CloseNotice
    ensures Wf(HandAll(s, c, ps)) && Concerns(s, HandAll(s, c, ps), c)
    ensures StatusOf(HandAll(s, c, ps), c) == if CloseNotice in ps then Told(StatusOf(s, c), s.base) else StatusOf(s, c)
    decreases |ps|
  {
    hide Concerns, Hand, Wf;
    if ps == [] {
      ConcernsRefl(s, c);
    } else {
      HandStatus(s, c, ps[0]);
      var s1 := Hand(s, c, ps[0]);
      NoticeInTail(ps);
      HandAllStatus(s1, c, ps[1..]);
      ConcernsTrans(s, s1, HandAll(s, c, ps), c);
    }
  }

  lemma NoticeInTail(ps: seq<Post>)
    requires ps != [] && forall i :: 0 <= i < |ps| - 1 ==> ps[i] != CloseNotice
    ensures forall i :: 0 <= i < |ps[1..]| - 1 ==> ps[1..][i] != CloseNotice
    ensures if ps[0] == CloseNotice then ps[1..] == [] else CloseNotice in ps <==> CloseNotice in ps[1..]
  {
    assert ps == [ps[0]] + ps[1..];
  }

  lemma ApplyStatus(s: Sys, c: ConnId, op: Op)
    requires InvBut(s, c) && Legal(s.conns[c].conn, op) && Admits(s.loops, c, Next(s.conns[c].conn, op))
    ensures InvBut(Apply(s, c, op), c)
    ensures var st := StatusOf(s, c).(rec := s.conns[c].(conn := Next(s.conns[c].conn, op)));
      StatusOf(Apply(s, c, op), c) == if CloseNotice in Posts(s.conns[c].conn, op, s.hooks) then Told(st, s.base) else st
  {
    var r := s.conns[c];
    ConnSpec.StepKeeps(r.conn, op);
    SetRecStatus(s, c, r.(conn := Next(r.conn, op)));
    NoticeIsLast(r.conn, op, s.hooks);
    var s1 := s.(conns := s.conns[c := r.(conn := Next(r.conn, op))]);
    HandAllStatus(s1, c, Posts(r.conn, op, s.hooks));
    ConcernsKeeps(s1, Apply(s, c, op), c);
  }

  lemma NoticeIsLast(c: Conn, op: Op, h: Hooks)
    requires Legal(c, op)
    ensures forall i :: 0 <= i < |Posts(c, op, h)| - 1 ==> Posts(c, op, h)[i] != CloseNotice
  {
  }

  lemma ConnInv(s: Sys, c: ConnId)
    requires ConnsOk(s.conns, s.nextId) && c in s.conns
    ensures ConnSpec.Inv(s.conns[c].conn)
  {
  }

  // ----- the two kinds of operations

  /** An operation that neither opens, closes nor destroys leaves the stage. */
  lemma NeutralKeeps(s: Sys, c: ConnId, op: Op)
    requires SysInv(s) && c in s.conns && Legal(s.conns[c].conn, op)
    requires op != Establish && op != Destroy && !Closes(s.conns[c].conn, op)
    requires s.conns[c].conn.state == Connecting ==> Next(s.conns[c].conn, op) == s.conns[c].conn
    ensures SysInv(Apply(s, c, op))
  {
    hide LoopsOk, ConnsOk;
    var conn := s.conns[c].conn;
    Focus(s, c);
    assert ConnSpec.Inv(conn) by { ConnInv(s, c); }
    NeutralConn(conn, op, s.hooks);
    AdmitsItself(s, c);
    ApplyStatus(s, c, op);
    Focus(Apply(s, c, op), c);
  }

  lemma NeutralConn(c: Conn, op: Op, h: Hooks)
    requires ConnSpec.Inv(c) && Legal(c, op) && op != Establish && op != Destroy && !Closes(c, op)
    requires c.state == Connecting ==> Next(c, op) == c
    ensures CloseNotice !in Posts(c, op, h)
    ensures c.state == Disconnected ==> Next(c, op) == c
    ensures Up(c) ==> Up(Next(c, op)) && Next(c, op).index != New
  {
    MovesForward(c, op, h);
  }

  /** Every close, also of a connection that watches nothing, tells the owner once. */
  lemma CloseKeeps(s: Sys, c: ConnId, op: Op)
    requires SysInv(s) && c in s.conns && Legal(s.conns[c].conn, op) && Up(s.conns[c].conn)
    requires Closes(s.conns[c].conn, op)
    requires Admits(s.loops, c, Next(s.conns[c].conn, op))
    ensures SysInv(Apply(s, c, op))
  {
    hide LoopsOk, ConnsOk;
    var conn := s.conns[c].conn;
    Focus(s, c);
    ConnInv(s, c);
    MovesForward(conn, op, s.hooks);
    ClosedIsUnwatchedIff(conn, op);
    ApplyStatus(s, c, op);
    ClosedStage(StatusOf(s, c), Next(conn, op), s.base);
    Focus(Apply(s, c, op), c);
  }

  lemma ClosedStage(st: Status, conn: Conn, base: LoopId)
    requires StageOk(st) && Up(st.rec.conn) && conn.state == Disconnected && conn.index != New
    ensures StageOk(Told(st.(rec := st.rec.(conn := conn)), base))
  {
  }

  // ----- changes of one loop

  lemma SetLoopStatus(s: Sys, l: LoopId, loop: Loop, d: ConnId)
    requires Wf(s) && l in s.loops && d in s.conns && loop.queue == s.loops[l].queue
    ensures Wf(SetLoop(s, l, loop)) && StatusOf(SetLoop(s, l, loop), d) == StatusOf(s, d)
  {
  }

  /** Changing the phase of a loop, but not its queue, concerns nobody's stage. */
  lemma SetLoopKeeps(s: Sys, l: LoopId, loop: Loop)
    requires SysInv(s) && l in s.loops && loop.queue == s.loops[l].queue && LoopOk(loop, l, s.base, s.conns)
    ensures SysInv(SetLoop(s, l, loop))
  {
    var s' := SetLoop(s, l, loop);
    assert LoopsOk(s'.loops, s.base, s.conns);
    forall c | c in s.conns
      ensures Staged(s', c)
    {
      SetLoopStatus(s, l, loop, c);
      SameStatus(s, s', c);
    }
  }

  lemma TallyCons(q: seq<Task>, u: Task)
    requires q != []
    ensures multiset(q)[u] == multiset(q[1..])[u] + if q[0] == u then 1 else 0
  {
    assert q == [q[0]] + q[1..];
  }

  /** The loop without the first task of its batch. */
  function Popped(s: Sys, l: LoopId): Sys
    requires l in s.loops && s.loops[l].queue != [] && 0 < s.loops[l].due
  {
    SetLoop(s, l, s.loops[l].(queue := s.loops[l].queue[1..], due := s.loops[l].due - 1))
  }

  lemma PopTally(s: Sys, l: LoopId, m: LoopId, k: Kind, c: ConnId)
    requires l in s.loops && m in s.loops && s.loops[l].queue != [] && 0 < s.loops[l].due
    ensures Tally(s, m, k, c) == Tally(Popped(s, l), m, k, c) + if l == m && s.loops[l].queue[0] == Task(k, c) then 1 else 0
  {
    TallyCons(s.loops[l].queue, Task(k, c));
  }

  lemma PopTallies(s: Sys, l: LoopId, d: ConnId)
    requires Wf(s) && d in s.conns && l in s.loops && s.loops[l].queue != [] && 0 < s.loops[l].due
    requires Placed(s.loops[l].queue[0], l, s.base, s.conns)
    ensures var t := s.loops[l].queue[0];
      Wf(Popped(s, l)) && StatusOf(s, d) == if d == t.conn then Bump(StatusOf(Popped(s, l), d), t.kind) else StatusOf(Popped(s, l), d)
  {
    var home := s.conns[d].loop;
    PopTally(s, l, home, EstablishK, d);
    PopTally(s, l, home, DestroyK, d);
    PopTally(s, l, s.base, RemoveK, d);
  }

  lemma PopStatus(s: Sys, l: LoopId)
    requires SysInv(s) && l in s.loops && 0 < s.loops[l].due
    ensures s.loops[l].queue != []
    ensures var c := s.loops[l].queue[0].conn;
      && InvBut(Popped(s, l), c) && StageOk(StatusOf(s, c))
      && StatusOf(s, c) == Bump(StatusOf(Popped(s, l), c), s.loops[l].queue[0].kind)
      && (forall m, i :: m in s.loops && 0 <= i < |s.loops[m].active| && s.loops[m].active[i].conn == c ==> m == s.conns[c].loop)
  {
    var loop, s' := s.loops[l], Popped(s, l);
    assert LoopOk(loop, l, s.base, s.conns);
    var c := loop.queue[0].conn;
    assert Placed(loop.queue[0], l, s.base, s.conns);
    assert forall i :: 0 <= i < |loop.queue| - 1 ==> loop.queue[1..][i] == loop.queue[i + 1];
    assert LoopOk(s'.loops[l], l, s.base, s.conns);
    assert LoopsOk(s'.loops, s.base, s.conns);
    PopTallies(s, l, c);
    Focus(s, c);
    forall d | d in s.conns && d != c
      ensures Staged(s', d)
    {
      PopTallies(s, l, d);
      SameStatus(s, s', d);
    }
    ActiveAtHome(s, c);
  }

  /** A connection is served on its own loop only. */
  lemma ActiveAtHome(s: Sys, c: ConnId)
    requires LoopsOk(s.loops, s.base, s.conns) && c in s.conns
    ensures forall m, i :: m in s.loops && 0 <= i < |s.loops[m].active| && s.loops[m].active[i].conn == c ==> m == s.conns[c].loop
  {
    forall m, i | m in s.loops && 0 <= i < |s.loops[m].active| && s.loops[m].active[i].conn == c
      ensures m == s.conns[c].loop
    {
      assert LoopOk(s.loops[m], m, s.base, s.conns);
      assert Serving(s.loops[m].active[i], m, s.conns);
    }
  }

  // ----- one lemma per event

  lemma ServedKeeps(s: Sys, l: LoopId)
    requires SysInv(s) && Enabled(s, Served(l))
    ensures SysInv(Step(s, Served(l)))
  {
    var loop := s.loops[l];
    assert LoopOk(loop, l, s.base, s.conns);
    assert forall i :: 0 <= i < |loop.active| - 1 ==> loop.active[1..][i] == loop.active[i + 1];
    SetLoopKeeps(s, l, loop.(active := loop.active[1..]));
  }

  lemma SwapKeeps(s: Sys, l: LoopId)
    requires SysInv(s) && Enabled(s, Swap(l))
    ensures SysInv(Step(s, Swap(l)))
  {
    assert LoopOk(s.loops[l], l, s.base, s.conns);
    SetLoopKeeps(s, l, s.loops[l].(due := |s.loops[l].queue|));
  }

  lemma DispatchShape(flags: set<Flag>)
    requires RdHup !in flags && !(Hup in flags && Pri in flags && In !in flags)
    ensures TodoOk(Dispatch(flags))
  {
    TwoClosersIff(flags);
  }

  /** What can be reported of a registered connection: if it is down, errors and hang-ups only. */
  lemma AddedReports(s: Sys, r: Report)
    requires SysInv(s) && r.conn in s.conns && s.conns[r.conn].conn.index == Added
    requires r.flags <= s.conns[r.conn].conn.events + ALWAYS
    ensures ConnSpec.Inv(s.conns[r.conn].conn) && RdHup !in r.flags
    ensures Up(s.conns[r.conn].conn) || r.flags <= {Err, Hup}
  {
    hide LoopsOk;
    assert Staged(s, r.conn);
    ConnInv(s, r.conn);
    AddedFlags(s.conns[r.conn].conn, r.flags);
  }

  lemma AddedFlags(c: Conn, flags: set<Flag>)
    requires ConnSpec.Inv(c) && c.state != Connecting && flags <= c.events + ALWAYS
    ensures RdHup !in flags && (Up(c) || flags <= {Err, Hup})
  {
  }

  lemma ReportServes(conns: map<ConnId, Rec>, l: LoopId, r: Report)
    requires r.conn in conns && conns[r.conn].loop == l && conns[r.conn].conn.index == Added
    requires RdHup !in r.flags && (Up(conns[r.conn].conn) || r.flags <= {Err, Hup}) && Bearable(r.flags, conns[r.conn].conn)
    ensures Serving(Activity(r.conn, Dispatch(r.flags)), l, conns)
  {
    DispatchShape(r.flags);
    if !Up(conns[r.conn].conn) {
      assert r.flags * {In, Pri, RdHup} == {};
    }
  }

  lemma PollKeeps(s: Sys, l: LoopId, reports: seq<Report>)
    requires SysInv(s) && Enabled(s, Poll(l, reports)) && Clean(s, Poll(l, reports))
    ensures SysInv(Step(s, Poll(l, reports)))
  {
    var active := TasksOf(reports);
    assert LoopOk(s.loops[l], l, s.base, s.conns);
    forall i | 0 <= i < |active|
      ensures Serving(active[i], l, s.conns)
    {
      AddedReports(s, reports[i]);
      ReportServes(s.conns, l, reports[i]);
    }
    assert ActiveOk(active, l, s.conns);
    SetLoopKeeps(s, l, s.loops[l].(active := active));
  }

  // ----- serving an event

  /** The callback about to be made has been taken off the list. */
  function Begun(s: Sys, l: LoopId): Sys
    requires l in s.loops && s.loops[l].active != [] && s.loops[l].active[0].todo != []
  {
    var loop := s.loops[l];
    var a := loop.active[0];
    SetLoop(s, l, loop.(active := [a.(todo := a.todo[1..])] + loop.active[1..]))
  }

  lemma TodoTail(todo: seq<Callback>)
    requires todo != [] && TodoOk(todo)
    ensures TodoOk(todo[1..]) && todo[0] !in todo[1..] && (todo[0] == OnWrite ==> todo[1..] == [])
    ensures forall cb :: cb in todo[1..] ==> cb in todo
  {
    var rest := todo[1..];
    assert forall i :: 0 <= i < |rest| ==> rest[i] == todo[i + 1] && todo[0] != todo[i + 1];
    forall i, j | 0 <= i < j < |rest|
      ensures rest[i] != rest[j] && rest[i] != OnWrite
    {
      assert todo[i + 1] != todo[j + 1] && todo[i + 1] != OnWrite;
    }
    if rest != [] {
      assert todo[0] != todo[1];
    }
  }

  lemma BegunActive(active: seq<Activity>, l: LoopId, conns: map<ConnId, Rec>)
    requires ActiveOk(active, l, conns) && active != [] && active[0].todo != []
    ensures ActiveOk([active[0].(todo := active[0].todo[1..])] + active[1..], l, conns)
  {
    var a := active[0];
    assert Serving(a, l, conns);
    TodoTail(a.todo);
    var active' := [a.(todo := a.todo[1..])] + active[1..];
    assert Serving(active'[0], l, conns);
    assert forall i :: 1 <= i < |active'| ==> active'[i] == active[i];
  }

  lemma BegunKeeps(s: Sys, l: LoopId)
    requires SysInv(s) && l in s.loops && s.loops[l].active != [] && s.loops[l].active[0].todo != []
    ensures SysInv(Begun(s, l))
  {
    var loop := s.loops[l];
    assert LoopOk(loop, l, s.base, s.conns);
    BegunActive(loop.active, l, s.conns);
    SetLoopKeeps(s, l, Begun(s, l).loops[l]);
  }

  /** After a closing callback was taken off, nothing still to be made can close. */
  lemma BegunAdmits(s: Sys, l: LoopId, conn: Conn)
    requires LoopsOk(s.loops, s.base, s.conns) && l in s.loops && s.loops[l].active != [] && s.loops[l].active[0].todo != []
    requires conn.index != New && (Up(conn) || s.loops[l].active[0].todo[0] != OnError)
    ensures Admits(Begun(s, l).loops, s.loops[l].active[0].conn, conn)
  {
    var active, s' := s.loops[l].active, Begun(s, l);
    var a := active[0];
    assert LoopOk(s.loops[l], l, s.base, s.conns) && Serving(a, l, s.conns);
    BegunTodo(a.todo, conn);
    ActiveAtHome(s, a.conn);
    assert forall k :: 1 <= k < |s'.loops[l].active| ==> s'.loops[l].active[k] == active[k] && active[k].conn != active[0].conn;
    forall m, i | m in s'.loops && 0 <= i < |s'.loops[m].active| && s'.loops[m].active[i].conn == a.conn
      ensures Awaits(s'.loops[m].active[i].todo, conn)
    {
      if m != l {
        assert s.loops[m].active[i].conn == a.conn;
      }
    }
  }

  lemma BegunTodo(todo: seq<Callback>, conn: Conn)
    requires todo != [] && TodoOk(todo) && conn.index != New && (Up(conn) || todo[0] != OnError)
    ensures Awaits(todo[1..], conn)
  {
    TodoTail(todo);
    assert todo[0] in todo;
  }

  /** What the stages say about a connection being served. */
  lemma ServedFacts(s: Sys, l: LoopId)
    requires SysInv(s) && l in s.loops && s.loops[l].active != []
    ensures var a := s.loops[l].active[0];
      && Serving(a, l, s.conns) && ConnSpec.Inv(s.conns[a.conn].conn)
      && s.conns[a.conn].conn.state != Connecting && EraseAsserts(s, a.conn)
  {
    var a := s.loops[l].active[0];
    assert LoopOk(s.loops[l], l, s.base, s.conns);
    assert Serving(a, l, s.conns);
    assert Staged(s, a.conn);
  }

  lemma CallbackIsLegal(todo: seq<Callback>, conn: Conn, r: ReadOutcome, w: WriteResult)
    requires todo != [] && Awaits(todo, conn) && Taken(w) <= |conn.output|
    ensures Legal(conn, CallbackOp(todo[0], r, w))
    ensures todo[0] == OnError ==> !Closes(conn, CallbackOp(todo[0], r, w))
  {
    assert todo[0] in todo;
  }

  /** Making the next callback is taking it off and doing what it does. */
  lemma ServeIs(s: Sys, l: LoopId, r: ReadOutcome, w: WriteResult)
    requires Wf(s) && Enabled(s, Serve(l, r, w))
    ensures var a := s.loops[l].active[0];
      && Wf(Begun(s, l)) && a.conn in Begun(s, l).conns && Begun(s, l).conns == s.conns
      && (Asserts(s, Serve(l, r, w)) <==> Legal(s.conns[a.conn].conn, CallbackOp(a.todo[0], r, w)) && EraseAsserts(s, a.conn))
      && (Asserts(s, Serve(l, r, w)) ==> Step(s, Serve(l, r, w)) == Apply(Begun(s, l), a.conn, CallbackOp(a.todo[0], r, w)))
  {
  }

  lemma ServeKeeps(s: Sys, l: LoopId, r: ReadOutcome, w: WriteResult)
    requires SysInv(s) && Enabled(s, Serve(l, r, w))
    ensures Asserts(s, Serve(l, r, w)) && SysInv(Step(s, Serve(l, r, w)))
  {
    hide SysInv, LoopsOk, Begun, Apply;
    WfOf(s);
    var a := s.loops[l].active[0];
    ServedFacts(s, l);
    ServeIs(s, l, r, w);
    CallbackIsLegal(a.todo, s.conns[a.conn].conn, r, w);
    BegunKeeps(s, l);
    CallbackKeeps(s, l, CallbackOp(a.todo[0], r, w));
  }

  lemma CallbackKeeps(s: Sys, l: LoopId, op: Op)
    requires LoopsOk(s.loops, s.base, s.conns) && l in s.loops && s.loops[l].active != [] && s.loops[l].active[0].todo != []
    requires SysInv(Begun(s, l)) && s.loops[l].active[0].conn in s.conns
    requires var conn := s.conns[s.loops[l].active[0].conn].conn;
      && conn.state != Connecting && ConnSpec.Inv(conn) && Legal(conn, op) && op != Establish && op != Destroy
      && (s.loops[l].active[0].todo[0] == OnError ==> !Closes(conn, op))
    ensures SysInv(Apply(Begun(s, l), s.loops[l].active[0].conn, op))
  {
    var c := s.loops[l].active[0].conn;
    var conn := s.conns[c].conn;
    if Closes(conn, op) {
      ClosedIsUnwatchedIff(conn, op);
      BegunAdmits(s, l, Next(conn, op));
      CloseKeeps(Begun(s, l), c, op);
    } else {
      NeutralKeeps(Begun(s, l), c, op);
    }
  }

  // ----- running a task

  lemma NobodyServes(s: Sys, l: LoopId, c: ConnId, conn: Conn)
    requires LoopsOk(s.loops, s.base, s.conns) && c in s.conns && s.conns[c].loop == l && l in s.loops && s.loops[l].active == []
    ensures Admits(s.loops, c, conn)
  {
    ActiveAtHome(s, c);
  }

  /** The state in which a task of connection `c` finds the system. */
  ghost predicate AtTask(s1: Sys, c: ConnId, l: LoopId, k: Kind) {
    && InvBut(s1, c) && StageOk(Bump(StatusOf(s1, c), k))
    && l in s1.loops && s1.loops[l].active == [] && (k != RemoveK ==> s1.conns[c].loop == l)
  }

  lemma TaskBegins(s: Sys, l: LoopId)
    requires SysInv(s) && l in s.loops && 0 < s.loops[l].due
    ensures s.loops[l].queue != [] && s.loops[l].active == []
    ensures AtTask(Popped(s, l), s.loops[l].queue[0].conn, l, s.loops[l].queue[0].kind)
    ensures StatusOf(s, s.loops[l].queue[0].conn) == Bump(StatusOf(Popped(s, l), s.loops[l].queue[0].conn), s.loops[l].queue[0].kind)
  {
    assert LoopOk(s.loops[l], l, s.base, s.conns);
    PopStatus(s, l);
    assert Placed(s.loops[l].queue[0], l, s.base, s.conns);
  }

  lemma EstablishTaskKeeps(s1: Sys, c: ConnId, l: LoopId)
    requires AtTask(s1, c, l, EstablishK)
    ensures Legal(s1.conns[c].conn, Establish) && SysInv(Apply(s1, c, Establish))
  {
    hide LoopsOk, ConnsOk;
    NobodyServes(s1, l, c, Next(s1.conns[c].conn, Establish));
    ApplyStatus(s1, c, Establish);
    Focus(Apply(s1, c, Establish), c);
  }

  lemma ForceTaskKeeps(s1: Sys, c: ConnId, l: LoopId)
    requires AtTask(s1, c, l, ForceK)
    ensures EraseAsserts(s1, c) && SysInv(Apply(s1, c, ForceCloseInLoop))
  {
    Focus(s1, c);
    var conn := s1.conns[c].conn;
    if Up(conn) {
      NobodyServes(s1, l, c, Next(conn, ForceCloseInLoop));
      CloseKeeps(s1, c, ForceCloseInLoop);
    } else {
      NeutralKeeps(s1, c, ForceCloseInLoop);
    }
  }

  /** The erasure finds the connection in the map: `n == 1`. */
  lemma RemoveTaskKeeps(s1: Sys, c: ConnId, l: LoopId)
    requires AtTask(s1, c, l, RemoveK)
    ensures c in s1.registry && SysInv(Erase(s1, c))
  {
    hide LoopsOk, ConnsOk, Concerns;
    EraseStatus(s1, c);
    ConcernsKeeps(s1, Erase(s1, c), c);
    Focus(Erase(s1, c), c);
  }

  function CountDestroy(s: Sys, c: ConnId): Sys
    requires c in s.conns
  {
    s.(conns := s.conns[c := s.conns[c].(destroyed := s.conns[c].destroyed + 1)])
  }

  lemma DestroyTaskKeeps(s1: Sys, c: ConnId, l: LoopId)
    requires AtTask(s1, c, l, DestroyK)
    ensures Legal(s1.conns[c].conn, Destroy) && SysInv(Apply(CountDestroy(s1, c), c, Destroy))
  {
    hide LoopsOk, Admits;
    AdmitsItself(s1, c);
    SetRecStatus(s1, c, s1.conns[c].(destroyed := s1.conns[c].destroyed + 1));
    var s2 := CountDestroy(s1, c);
    NobodyServes(s2, l, c, Next(s2.conns[c].conn, Destroy));
    ApplyStatus(s2, c, Destroy);
    Focus(Apply(s2, c, Destroy), c);
  }

  lemma UserTaskKeeps(s1: Sys, c: ConnId, l: LoopId)
    requires AtTask(s1, c, l, UserK)
    ensures SysInv(s1)
  {
    Focus(s1, c);
  }

  lemma RunTaskKeeps(s: Sys, l: LoopId)
    requires SysInv(s) && Enabled(s, RunTask(l))
    ensures Asserts(s, RunTask(l)) && SysInv(Step(s, RunTask(l)))
  {
    hide InvBut, SysInv, LoopsOk;
    TaskBegins(s, l);
    var t, s1 := s.loops[l].queue[0], Popped(s, l);
    match t.kind
    case EstablishK => EstablishTaskKeeps(s1, t.conn, l);
    case ForceK => ForceTaskKeeps(s1, t.conn, l);
    case RemoveK => RemoveTaskKeeps(s1, t.conn, l);
    case DestroyK => DestroyTaskKeeps(s1, t.conn, l);
    case UserK => UserTaskKeeps(s1, t.conn, l);
  }

  // ----- user calls, accepting and releasing

  lemma UserKeeps(s: Sys, c: ConnId, op: Op)
    requires SysInv(s) && c in s.conns && Legal(s.conns[c].conn, op)
    requires op.ForceClose? || (op.Send? && s.conns[c].conn.state != Connecting) || op.StopRead? || op.StartRead?
    ensures SysInv(Apply(s, c, op))
  {
    hide LoopsOk, ConnsOk;
    ConnInv(s, c);
    NeutralKeeps(s, c, op);
  }

  /** The new connection is in the map and nobody knows it yet. */
  function Admitted(s: Sys, io: LoopId): Sys {
    s.(conns := s.conns[s.nextId := Rec(io, INIT, 0, 0, 0)], registry := s.registry + {s.nextId}, nextId := s.nextId + 1)
  }

  lemma NewLoops(loops: map<LoopId, Loop>, base: LoopId, conns: map<ConnId, Rec>, c: ConnId, r: Rec)
    requires LoopsOk(loops, base, conns) && c !in conns
    ensures LoopsOk(loops, base, conns[c := r]) && forall conn :: Admits(loops, c, conn)
    ensures forall l, k :: l in loops ==> multiset(loops[l].queue)[Task(k, c)] == 0
  {
    forall l | l in loops
      ensures LoopOk(loops[l], l, base, conns[c := r]) && (forall k :: Task(k, c) !in loops[l].queue)
      ensures forall i :: 0 <= i < |loops[l].active| ==> loops[l].active[i].conn != c
    {
      assert LoopOk(loops[l], l, base, conns);
      assert forall i :: 0 <= i < |loops[l].queue| ==> Placed(loops[l].queue[i], l, base, conns);
      assert forall i :: 0 <= i < |loops[l].active| ==> Serving(loops[l].active[i], l, conns);
    }
  }

  lemma NewConns(conns: map<ConnId, Rec>, c: ConnId, r: Rec)
    requires ConnsOk(conns, c) && r.conn == INIT
    ensures ConnsOk(conns[c := r], c + 1)
  {
  }

  lemma AdmittedStatus(s: Sys, io: LoopId)
    requires SysInv(s) && io in s.loops
    ensures var s1, c := Admitted(s, io), s.nextId;
      && InvBut(s1, c) && StatusOf(s1, c) == Status(Rec(io, INIT, 0, 0, 0), true, 0, 0, 0)
      && forall conn :: Admits(s1.loops, c, conn)
  {
    var s1, c := Admitted(s, io), s.nextId;
    hide LoopsOk, Admits;
    assert c !in s.conns;
    NewLoops(s.loops, s.base, s.conns, c, Rec(io, INIT, 0, 0, 0));
    NewConns(s.conns, c, Rec(io, INIT, 0, 0, 0));
    forall d | d in s1.conns && d != c
      ensures Staged(s1, d)
    {
      SameStatus(s, s1, d);
    }
  }

  lemma AcceptKeeps(s: Sys, io: LoopId)
    requires SysInv(s) && Enabled(s, Accept(io))
    ensures SysInv(Step(s, Accept(io)))
  {
    hide LoopsOk, ConnsOk, Concerns, Admits;
    AdmittedStatus(s, io);
    var s1, c := Admitted(s, io), s.nextId;
    if io == s.base {
      ApplyStatus(s1, c, Establish);
    } else {
      var t := Task(EstablishK, c);
      PushConcerns(s1, io, t);
      PushTallies(s1, io, t, c);
      ConcernsKeeps(s1, Push(s1, io, t), c);
    }
    Focus(Step(s, Accept(io)), c);
  }

  /** What accepting comes to, written out. */
  lemma AcceptIs(s: Sys, io: LoopId)
    requires Wf(s) && Enabled(s, Accept(io))
    ensures var s1, c := Admitted(s, io), s.nextId;
      Step(s, Accept(io)) == if io == s.base then s1.(conns := s1.conns[c := Rec(io, Next(INIT, Establish), 0, 0, 0)])
                             else Push(s1, io, Task(EstablishK, c))
  {
    assert Posts(INIT, Establish, s.hooks) == [];
  }

  /** When nobody holds a connection any more, it has been closed, erased and destroyed, each
      once, and its channel is in no poller: its descriptor may be closed. */
  lemma UnheldIsDead(s: Sys, c: ConnId)
    requires SysInv(s) && c in s.conns && !Held(s, c)
    ensures s.conns[c].conn.state == Disconnected && s.conns[c].conn.index == New && Counts(s.conns[c], 1, 1, 1)
  {
    var r := s.conns[c];
    assert Staged(s, c);
    UnheldTally(s, c, r.loop, EstablishK);
    UnheldTally(s, c, s.base, RemoveK);
    UnheldTally(s, c, r.loop, DestroyK);
  }

  lemma UnheldTally(s: Sys, c: ConnId, l: LoopId, k: Kind)
    requires l in s.loops && !Held(s, c)
    ensures Tally(s, l, k, c) == 0
  {
    assert Task(k, c) !in s.loops[l].queue;
  }

  lemma ReleaseLoops(s: Sys, c: ConnId)
    requires LoopsOk(s.loops, s.base, s.conns) && c in s.conns && !Held(s, c) && s.conns[c].conn.index == New
    ensures LoopsOk(s.loops, s.base, s.conns - {c})
  {
    forall l | l in s.loops
      ensures LoopOk(s.loops[l], l, s.base, s.conns - {c})
    {
      assert LoopOk(s.loops[l], l, s.base, s.conns);
      assert forall i :: 0 <= i < |s.loops[l].queue| ==> Placed(s.loops[l].queue[i], l, s.base, s.conns);
      assert forall i :: 0 <= i < |s.loops[l].active| ==> Serving(s.loops[l].active[i], l, s.conns);
    }
  }

  lemma ReleaseKeeps(s: Sys, c: ConnId)
    requires SysInv(s) && Enabled(s, Release(c))
    ensures Asserts(s, Release(c)) && SysInv(Step(s, Release(c)))
  {
    hide LoopsOk;
    UnheldIsDead(s, c);
    ReleaseLoops(s, c);
    var s' := Step(s, Release(c));
    assert c !in s.registry;
    forall d | d in s'.conns
      ensures Staged(s', d)
    {
      SameStatus(s, s', d);
    }
  }

  // ----- whole runs

  /** Every step that the environment can make passes all the asserts of the code and, if a poll
      reports only what can be borne, keeps the invariant. */
  lemma SysStepKeeps(s: Sys, ev: Event)
    requires SysInv(s) && Enabled(s, ev)
    ensures Asserts(s, ev) && (Clean(s, ev) ==> SysInv(Step(s, ev)))
  {
    hide SysInv, InvBut, LoopsOk;
    match ev
    case Accept(io) => AcceptKeeps(s, io);
    case Poll(l, reports) => if Clean(s, ev) { PollKeeps(s, l, reports); }
    case Serve(l, r, w) => ServeKeeps(s, l, r, w);
    case Served(l) => ServedKeeps(s, l);
    case Swap(l) => SwapKeeps(s, l);
    case RunTask(l) => RunTaskKeeps(s, l);
    case UserSend(c, message, w) => UserKeeps(s, c, Send(message, w));
    case UserForceClose(c) => UserKeeps(s, c, ForceClose);
    case UserStopRead(c) => UserKeeps(s, c, StopRead);
    case UserStartRead(c) => UserKeeps(s, c, StartRead);
    case Release(c) => ReleaseKeeps(s, c);
  }

  lemma StartsInv(base: LoopId, others: set<LoopId>, hooks: Hooks)
    ensures SysInv(Init(base, others, hooks))
  {
  }

  /** `evs` can happen one after the other from `s`, and every poll among them is clean. */
  ghost predicate CleanRun(s: Sys, evs: seq<Event>)
    requires SysInv(s)
    decreases |evs|
  {
    evs == [] || (Enabled(s, evs[0]) && Clean(s, evs[0]) && (SysStepKeeps(s, evs[0]); CleanRun(Step(s, evs[0]), evs[1..])))
  }

  ghost function SysAfter(s: Sys, evs: seq<Event>): Sys
    requires SysInv(s) && CleanRun(s, evs)
    decreases |evs|
  {
    if evs == [] then s else
      SysStepKeeps(s, evs[0]);
      SysAfter(Step(s, evs[0]), evs[1..])
  }

  lemma {:induction false} EveryCleanRunKeepsInv(s: Sys, evs: seq<Event>)
    requires SysInv(s) && CleanRun(s, evs)
    ensures SysInv(SysAfter(s, evs))
    decreases |evs|
  {
    if evs != [] {
      SysStepKeeps(s, evs[0]);
      EveryCleanRunKeepsInv(Step(s, evs[0]), evs[1..]);
    }
  }

  lemma WfOf(s: Sys)
    requires SysInv(s)
    ensures Wf(s) && LoopsOk(s.loops, s.base, s.conns)
  {
  }

  /** A run followed by one more event. */
  lemma {:induction false} SysRunSnoc(s: Sys, evs: seq<Event>, ev: Event)
    requires SysInv(s) && CleanRun(s, evs) && SysInv(SysAfter(s, evs)) && Enabled(SysAfter(s, evs), ev) && Clean(SysAfter(s, evs), ev)
    ensures Asserts(SysAfter(s, evs), ev) && CleanRun(s, evs + [ev]) && SysAfter(s, evs + [ev]) == Step(SysAfter(s, evs), ev)
    decreases |evs|
  {
    hide SysInv, Step, Asserts, Enabled, Clean;
    var all := evs + [ev];
    if evs == [] {
      WfOf(s);
      SysStepKeeps(s, ev);
      assert all[0] == ev && all[1..] == [];
    } else {
      WfOf(s);
      SysStepKeeps(s, evs[0]);
      assert all[0] == evs[0] && all[1..] == evs[1..] + [ev];
      SysRunSnoc(Step(s, evs[0]), evs[1..], ev);
    }
  }

  /** At all times a connection is closed, erased and destroyed at most once each and in this
      order; it is in the map exactly until it is erased, and known to its poller exactly from its
      establishment to its destruction; once closed it asks its poller for nothing. */
  lemma LifeCycle(s: Sys, c: ConnId)
    requires SysInv(s) && c in s.conns
    ensures var r := s.conns[c];
      && r.destroyed <= r.erased <= r.closed <= 1
      && (c in s.registry <==> r.erased == 0)
      && (r.conn.state == Disconnected <==> r.closed == 1)
      && (r.conn.index == New <==> r.conn.state == Connecting || r.destroyed == 1)
      && (r.closed == 1 ==> r.conn.events == {})
  {
    hide LoopsOk;
    Focus(s, c);
    ConnInv(s, c);
    StageCounts(StatusOf(s, c));
  }

  lemma StageCounts(st: Status)
    requires StageOk(st)
    ensures var r := st.rec;
      && r.destroyed <= r.erased <= r.closed <= 1
      && (st.listed <==> r.erased == 0)
      && (r.conn.state == Disconnected <==> r.closed == 1)
      && (r.conn.index == New <==> r.conn.state == Connecting || r.destroyed == 1)
  {
  }

  /** Nothing dangles: whatever is queued or being served refers to a connection that exists, and
      a channel being served is still known to its poller. */
  lemma NothingDangles(s: Sys, l: LoopId, i: nat)
    requires SysInv(s) && l in s.loops
    ensures i < |s.loops[l].queue| ==> s.loops[l].queue[i].conn in s.conns
    ensures i < |s.loops[l].active| ==> s.loops[l].active[i].conn in s.conns && s.conns[s.loops[l].active[i].conn].conn.index != New
  {
    assert LoopOk(s.loops[l], l, s.base, s.conns);
    if i < |s.loops[l].queue| {
      assert Placed(s.loops[l].queue[i], l, s.base, s.conns);
    }
    if i < |s.loops[l].active| {
      assert Serving(s.loops[l].active[i], l, s.conns);
    }
  }
}
