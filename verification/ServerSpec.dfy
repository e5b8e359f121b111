/** `net::TcpServer` and its connections across event loops: accepted on the base loop, served and
    closed on an io loop, erased from the map on the base loop, destroyed on the io loop.  The
    loops take steps in any order; the io loop may be the base loop. */
module ServerSpec {
  import opened Pollers
  import opened ConnSpec

  type LoopId = nat
  type ConnId = nat

  datatype Kind = EstablishK | ForceK | RemoveK | DestroyK | UserK

  /** A queued function object; it holds a reference to its connection. */
  datatype Task = Task(kind: Kind, conn: ConnId)

  /** A connection whose events are being served, with the callbacks still to be made. */
  datatype Activity = Activity(conn: ConnId, todo: seq<Callback>)

  /** `queue[..due]` is the batch taken by `doPendingFunctors`, the rest is pending.  The channels
      in `active` are served before any task of the next batch runs; the first one is being served
      and its connection is guarded. */
  datatype Loop = Loop(queue: seq<Task>, due: nat, active: seq<Activity>)

  /** A live connection object, with counts of its closes, erasures and destructions. */
  datatype Rec = Rec(loop: LoopId, conn: Conn, closed: nat, erased: nat, destroyed: nat)

  /** `registry` is the server's map of connections; a name is given once and never again. */
  datatype Sys = Sys(base: LoopId, hooks: Hooks, loops: map<LoopId, Loop>, conns: map<ConnId, Rec>,
                     registry: set<ConnId>, nextId: ConnId)

  datatype Report = Report(conn: ConnId, flags: set<Flag>)

  datatype Event =
    | Accept(io: LoopId)
    | Poll(loop: LoopId, reports: seq<Report>)
    | Serve(loop: LoopId, r: ReadOutcome, w: WriteResult)  // the next callback of the channel being served
    | Served(loop: LoopId)
    | Swap(loop: LoopId)
    | RunTask(loop: LoopId)
    | UserSend(conn: ConnId, message: seq<Byte>, w: WriteResult)
    | UserForceClose(conn: ConnId)
    | UserStopRead(conn: ConnId)
    | UserStartRead(conn: ConnId)
    | Release(conn: ConnId)                                // the last reference is gone

  // ----- effects

  function Push(s: Sys, l: LoopId, t: Task): Sys
    requires l in s.loops
  {
    s.(loops := s.loops[l := s.loops[l].(queue := s.loops[l].queue + [t])])
  }

  /** `removeConnectionInLoop`: out of the map, and the destruction is queued on the io loop. */
  function Erase(s: Sys, c: ConnId): Sys
    requires c in s.conns && s.conns[c].loop in s.loops
  {
    var r := s.conns[c];
    Push(s.(registry := s.registry - {c}, conns := s.conns[c := r.(erased := r.erased + 1)]), r.loop, Task(DestroyK, c))
  }

  /** `removeConnection`: at once if the connection's loop is the base loop, otherwise as a task
      there. */
  function Tell(s: Sys, c: ConnId): Sys
    requires c in s.conns && s.conns[c].loop in s.loops && s.base in s.loops
  {
    if s.conns[c].loop == s.base then Erase(s, c) else Push(s, s.base, Task(RemoveK, c))
  }

  function CountClose(s: Sys, c: ConnId): Sys
    requires c in s.conns
  {
    s.(conns := s.conns[c := s.conns[c].(closed := s.conns[c].closed + 1)])
  }

  /** The close callback, made once the connection is down. */
  function Notice(s: Sys, c: ConnId): Sys
    requires c in s.conns && s.conns[c].loop in s.loops && s.base in s.loops
  {
    Tell(CountClose(s, c), c)
  }

  function Hand(s: Sys, c: ConnId, p: Post): Sys
    requires c in s.conns && s.conns[c].loop in s.loops && s.base in s.loops
  {
    match p
    case CloseNotice => Notice(s, c)
    case ForceCloseTask => Push(s, s.conns[c].loop, Task(ForceK, c))
    case _ => Push(s, s.conns[c].loop, Task(UserK, c))
  }

  function HandAll(s: Sys, c: ConnId, ps: seq<Post>): Sys
    requires c in s.conns && s.conns[c].loop in s.loops && s.base in s.loops
    decreases |ps|
  {
    if ps == [] then s else HandAll(Hand(s, c, ps[0]), c, ps[1..])
  }

  /** An operation of connection `c`, and what follows from what it posts. */
  function Apply(s: Sys, c: ConnId, op: Op): Sys
    requires c in s.conns && s.conns[c].loop in s.loops && s.base in s.loops && Legal(s.conns[c].conn, op)
  {
    var r := s.conns[c];
    HandAll(s.(conns := s.conns[c := r.(conn := Next(r.conn, op))]), c, Posts(r.conn, op, s.hooks))
  }

  /** What a callback of the channel does to its connection.  `handleClose` is reached directly. */
  function CallbackOp(cb: Callback, r: ReadOutcome, w: WriteResult): Op {
    match cb
    case OnClose => HandleRead(EndOfStream)
    case OnError => HandleRead(ReadFailed)
    case OnRead => HandleRead(r)
    case OnWrite => HandleWrite(w)
  }

  // ----- steps

  predicate Wf(s: Sys) {
    s.base in s.loops && forall c :: c in s.conns ==> s.conns[c].loop in s.loops
  }

  /** What `epoll_wait` may report on loop `l`. */
  ghost predicate Reportable(s: Sys, l: LoopId, reports: seq<Report>) {
    && (forall i :: 0 <= i < |reports| ==>
          && reports[i].conn in s.conns && s.conns[reports[i].conn].loop == l
          && s.conns[reports[i].conn].conn.index == Added
          && reports[i].flags <= s.conns[reports[i].conn].conn.events + ALWAYS)
    && (forall i, j :: 0 <= i < j < |reports| ==> reports[i].conn != reports[j].conn)
  }

  /** Somebody holds a reference: the map, a queued task, or the guard of the event being served. */
  ghost predicate Held(s: Sys, c: ConnId) {
    || c in s.registry
    || (exists l, i :: l in s.loops && 0 <= i < |s.loops[l].queue| && s.loops[l].queue[i].conn == c)
    || (exists l :: l in s.loops && s.loops[l].active != [] && s.loops[l].active[0].conn == c)
  }

  predicate Quiet(s: Sys, l: LoopId) { l in s.loops && s.loops[l].active == [] && s.loops[l].due == 0 }

  /** When an event can happen, apart from the asserts of the code. */
  ghost predicate Enabled(s: Sys, ev: Event)
    requires Wf(s)
  {
    match ev
    case Accept(io) => io in s.loops && s.loops[s.base].due == 0
    case Poll(l, reports) => Quiet(s, l) && Reportable(s, l, reports)
    case Serve(l, r, w) =>
      && l in s.loops && s.loops[l].active != [] && s.loops[l].active[0].todo != []
      && s.loops[l].active[0].conn in s.conns
      && Taken(w) <= |s.conns[s.loops[l].active[0].conn].conn.output|
    case Served(l) => l in s.loops && s.loops[l].active != [] && s.loops[l].active[0].todo == []
    case Swap(l) => Quiet(s, l)
    case RunTask(l) => l in s.loops && s.loops[l].active == [] && 0 < s.loops[l].due <= |s.loops[l].queue| && s.loops[l].queue[0].conn in s.conns
    case UserSend(c, message, w) => c in s.conns && s.conns[c].conn.state != Connecting && Taken(w) <= |message|
    case UserForceClose(c) => c in s.conns
    case UserStopRead(c) => c in s.conns && Up(s.conns[c].conn)
    case UserStartRead(c) => c in s.conns && Up(s.conns[c].conn)
    case Release(c) => c in s.conns && !Held(s, c)
  }

  /** The asserts that the step executes all hold. */
  predicate Asserts(s: Sys, ev: Event)
    requires Wf(s)
  {
    match ev
    case Serve(l, r, w) =>
      l in s.loops && s.loops[l].active != [] && s.loops[l].active[0].todo != [] && s.loops[l].active[0].conn in s.conns &&
      var a := s.loops[l].active[0];
      Legal(s.conns[a.conn].conn, CallbackOp(a.todo[0], r, w)) && EraseAsserts(s, a.conn)
    case RunTask(l) =>
      l in s.loops && s.loops[l].queue != [] && s.loops[l].queue[0].conn in s.conns &&
      var t := s.loops[l].queue[0];
      (match t.kind
       case EstablishK => Legal(s.conns[t.conn].conn, Establish)
       case ForceK => EraseAsserts(s, t.conn)
       case RemoveK => t.conn in s.registry
       case DestroyK => Legal(s.conns[t.conn].conn, Destroy) && s.loops[l].active == []
       case UserK => true)
    case Release(c) => c in s.conns && s.conns[c].conn.state == Disconnected && s.conns[c].conn.index == New
    case _ => true
  }

  /** A connection that is still up has not been erased: `connections_.erase` will find it. */
  predicate EraseAsserts(s: Sys, c: ConnId)
    requires c in s.conns
  {
    Up(s.conns[c].conn) ==> c in s.registry
  }

  function TasksOf(reports: seq<Report>): (r: seq<Activity>)
    ensures |r| == |reports|
    ensures forall i :: 0 <= i < |r| ==> r[i] == Activity(reports[i].conn, Dispatch(reports[i].flags))
  {
    if reports == [] then [] else [Activity(reports[0].conn, Dispatch(reports[0].flags))] + TasksOf(reports[1..])
  }

  function SetLoop(s: Sys, l: LoopId, loop: Loop): Sys { s.(loops := s.loops[l := loop]) }

  ghost function Step(s: Sys, ev: Event): Sys
    requires Wf(s) && Enabled(s, ev) && Asserts(s, ev)
  {
    match ev
    case Accept(io) =>
      var c := s.nextId;
      var s1 := s.(conns := s.conns[c := Rec(io, INIT, 0, 0, 0)], registry := s.registry + {c}, nextId := c + 1);
      if io == s.base then Apply(s1, c, Establish) else Push(s1, io, Task(EstablishK, c))
    case Poll(l, reports) => SetLoop(s, l, s.loops[l].(active := TasksOf(reports)))
    case Serve(l, r, w) =>
      var loop := s.loops[l];
      var a := loop.active[0];
      var s1 := SetLoop(s, l, loop.(active := [a.(todo := a.todo[1..])] + loop.active[1..]));
      Apply(s1, a.conn, CallbackOp(a.todo[0], r, w))
    case Served(l) => SetLoop(s, l, s.loops[l].(active := s.loops[l].active[1..]))
    case Swap(l) => SetLoop(s, l, s.loops[l].(due := |s.loops[l].queue|))
    case RunTask(l) =>
      var loop := s.loops[l];
      var t := loop.queue[0];
      var s1 := SetLoop(s, l, loop.(queue := loop.queue[1..], due := loop.due - 1));
      (match t.kind
       case EstablishK => Apply(s1, t.conn, Establish)
       case ForceK => Apply(s1, t.conn, ForceCloseInLoop)
       case RemoveK => Erase(s1, t.conn)
       case DestroyK =>
         var r := s1.conns[t.conn];
         Apply(s1.(conns := s1.conns[t.conn := r.(destroyed := r.destroyed + 1)]), t.conn, Destroy)
       case UserK => s1)
    case UserSend(c, message, w) => Apply(s, c, Send(message, w))
    case UserForceClose(c) => Apply(s, c, ForceClose)
    case UserStopRead(c) => Apply(s, c, StopRead)
    case UserStartRead(c) => Apply(s, c, StartRead)
    case Release(c) => s.(conns := s.conns - {c})
  }

  function Init(base: LoopId, others: set<LoopId>, hooks: Hooks): Sys {
    Sys(base, hooks, map l | l in others + {base} :: Loop([], 0, []), map[], {}, 1)
  }

  // ----- the stages of a connection

  /** How often a task is queued on a loop. */
  function Tally(s: Sys, l: LoopId, k: Kind, c: ConnId): nat
    requires l in s.loops
  {
    multiset(s.loops[l].queue)[Task(k, c)]
  }

  predicate Counts(r: Rec, closed: nat, erased: nat, destroyed: nat) {
    r.closed == closed && r.erased == erased && r.destroyed == destroyed
  }

  /** Created, up, closed, erased, destroyed: one stage after the other, each with exactly one
      task or the map to carry it on. */
  predicate Stage(r: Rec, listed: bool, establish: nat, remove: nat, destroy: nat) {
    match r.conn.state
    case Connecting => listed && establish == 1 && remove == destroy == 0 && r.conn == INIT && Counts(r, 0, 0, 0)
    case Connected => listed && establish == remove == destroy == 0 && r.conn.index != New && Counts(r, 0, 0, 0)
    case Disconnecting => listed && establish == remove == destroy == 0 && r.conn.index != New && Counts(r, 0, 0, 0)
    case Disconnected =>
      establish == 0 &&
      if listed then remove == 1 && destroy == 0 && r.conn.index != New && Counts(r, 1, 0, 0)
      else if destroy == 1 then remove == 0 && r.conn.index != New && Counts(r, 1, 1, 0)
      else remove == destroy == 0 && r.conn.index == New && Counts(r, 1, 1, 1)
  }

  predicate Staged(s: Sys, c: ConnId)
    requires Wf(s) && c in s.conns
  {
    var r := s.conns[c];
    Stage(r, c in s.registry, Tally(s, r.loop, EstablishK, c), Tally(s, s.base, RemoveK, c), Tally(s, r.loop, DestroyK, c))
  }

  /** Tasks are on the right loop and their connection exists. */
  ghost predicate QueueOk(queue: seq<Task>, l: LoopId, base: LoopId, conns: map<ConnId, Rec>) {
    forall i :: 0 <= i < |queue| ==> Placed(queue[i], l, base, conns)
  }

  predicate Placed(t: Task, l: LoopId, base: LoopId, conns: map<ConnId, Rec>) {
    t.conn in conns && (if t.kind == RemoveK then l == base else conns[t.conn].loop == l)
  }

  /** A callback that can close is still to come only while the connection is up; at most one of
      the two is; the write callback comes last; and a channel being served is still registered
      with its poller. */
  predicate Serving(a: Activity, l: LoopId, conns: map<ConnId, Rec>) {
    a.conn in conns && conns[a.conn].loop == l && Awaits(a.todo, conns[a.conn].conn) && TodoOk(a.todo)
  }

  predicate TodoOk(todo: seq<Callback>) {
    && !(OnClose in todo && OnRead in todo)
    && (forall i, j :: 0 <= i < j < |todo| ==> todo[i] != todo[j] && todo[i] != OnWrite)
  }

  predicate Awaits(todo: seq<Callback>, c: Conn) {
    c.index != New && (OnClose in todo || OnRead in todo ==> Up(c))
  }

  ghost predicate ActiveOk(active: seq<Activity>, l: LoopId, conns: map<ConnId, Rec>) {
    && (forall i :: 0 <= i < |active| ==> Serving(active[i], l, conns))
    && (forall i, j :: 0 <= i < j < |active| ==> active[i].conn != active[j].conn)
  }

  ghost predicate LoopOk(loop: Loop, l: LoopId, base: LoopId, conns: map<ConnId, Rec>) {
    && loop.due <= |loop.queue| && (loop.active != [] ==> loop.due == 0)
    && QueueOk(loop.queue, l, base, conns)
    && ActiveOk(loop.active, l, conns)
  }

  ghost predicate LoopsOk(loops: map<LoopId, Loop>, base: LoopId, conns: map<ConnId, Rec>) {
    forall l :: l in loops ==> LoopOk(loops[l], l, base, conns)
  }

  ghost predicate ConnsOk(conns: map<ConnId, Rec>, nextId: ConnId) {
    forall c :: c in conns ==> c < nextId && ConnSpec.Inv(conns[c].conn)
  }

  ghost predicate SysInv(s: Sys) {
    && Wf(s)
    && s.registry <= s.conns.Keys
    && ConnsOk(s.conns, s.nextId)
    && LoopsOk(s.loops, s.base, s.conns)
    && (forall c :: c in s.conns ==> Staged(s, c))
  }

  // ----- the condition under which the code keeps this

  /** A report that `handleEvent` can bear: a hang-up comes only to a connection that is up, and not
      with priority data unless there is readable data too. */
  predicate Bearable(flags: set<Flag>, c: Conn) {
    Hup in flags ==> Up(c) && !(Pri in flags && In !in flags)
  }

  /** Every report of a poll is bearable.  Nothing is asked of any other event. */
  predicate Clean(s: Sys, ev: Event) {
    ev.Poll? ==> forall i :: 0 <= i < |ev.reports| ==>
      ev.reports[i].conn in s.conns ==> Bearable(ev.reports[i].flags, s.conns[ev.reports[i].conn].conn)
  }
}
