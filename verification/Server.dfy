/** `net::TcpServer` as the object that owns the map of connections and posts to the loops, proved
    to make the steps of module `ServerSpec`. */
module Servers {
  import opened Pollers
  import opened ConnSpec
  import opened ServerSpec
  import opened ServerRuns

  /** The next name was never given. */
  lemma NameIsNew(s: Sys)
    requires SysInv(s)
    ensures Wf(s) && s.nextId !in s.conns
  {
    assert ConnsOk(s.conns, s.nextId);
  }

  class TcpServer {
    const base: LoopId
    const hooks: Hooks
    var loops: map<LoopId, Loop>
    var conns: map<ConnId, Rec>
    var connections: set<ConnId>
    var nextConnId: ConnId

    ghost function View(): Sys
      reads this
    {
      Sys(base, hooks, loops, conns, connections, nextConnId)
    }

    ghost predicate Valid()
      reads this
    {
      SysInv(View())
    }

    constructor (base: LoopId, others: set<LoopId>, hooks: Hooks)
      ensures Valid() && View() == Init(base, others, hooks)
    {
      this.base, this.hooks := base, hooks;
      loops := map l | l in others + {base} :: Loop([], 0, []);
      conns, connections, nextConnId := map[], {}, 1;
    }

    /** `EventLoop::queueInLoop` on loop `l`. */
    method QueueInLoop(l: LoopId, t: Task)
      requires l in loops
      modifies this`loops
      ensures View() == Push(old(View()), l, t)
    {
      loops := loops[l := loops[l].(queue := loops[l].queue + [t])];
    }

    /** Runs on the base loop.  The new connection is established at once if it stays there. */
    method NewConnection(io: LoopId)
      requires Valid() && Enabled(View(), Accept(io))
      modifies this
      ensures Valid() && View() == Step(old(View()), Accept(io))
      ensures old(nextConnId) !in old(conns) && old(nextConnId) in connections && old(nextConnId) in conns
      ensures conns[old(nextConnId)].conn.state == if io == base then Connected else Connecting
    {
      hide SysInv;
      NameIsNew(View());
      AcceptKeeps(View(), io);
      AcceptIs(View(), io);
      var c := nextConnId;
      nextConnId := nextConnId + 1;
      conns := conns[c := Rec(io, INIT, 0, 0, 0)];
      connections := connections + {c};
      if io == base {
        conns := conns[c := conns[c].(conn := Next(INIT, Establish))];
      } else {
        QueueInLoop(io, Task(EstablishK, c));
      }
    }

    /** The close callback of every connection: only this connection is concerned.  On the base loop
        it is erased and its destruction queued; on another one a removal is queued there. */
    method RemoveConnection(c: ConnId)
      requires Wf(View()) && c in conns && (conns[c].loop == base ==> c in connections)
      modifies this
      ensures View() == Tell(old(View()), c)
      ensures Wf(View()) && Concerns(old(View()), View(), c) && (c in connections <==> c in old(connections) && conns[c].loop != base)
      ensures StatusOf(View(), c) == var st := StatusOf(old(View()), c); if st.rec.loop == base then Erased(st) else st.(remove := st.remove + 1)
    {
      hide Concerns, StatusOf;
      TellStatus(View(), c);
      assert Concerns(View(), Tell(View(), c), c);
      LoopStays(View(), Tell(View(), c), c);
      if conns[c].loop == base {
        RemoveConnectionInLoop(c);
      } else {
        QueueInLoop(base, Task(RemoveK, c));
      }
    }

    /** Exactly one entry is erased, and the destruction is queued, never run at once. */
    method RemoveConnectionInLoop(c: ConnId)
      requires Wf(View()) && c in conns && c in connections
      modifies this
      ensures View() == Erase(old(View()), c)
      ensures |connections| == |old(connections)| - 1
    {
      connections := connections - {c};
      conns := conns[c := conns[c].(erased := conns[c].erased + 1)];
      QueueInLoop(conns[c].loop, Task(DestroyK, c));
    }

    /** A queued removal taken off the base loop's batch finds its connection in the map. */
    method RunRemoval()
      requires Valid() && RemovalNext(View())
      modifies this
      ensures Asserts(old(View()), RunTask(base))
      ensures Valid() && View() == Step(old(View()), RunTask(base))
    {
      hide SysInv;
      ghost var s := View();
      RunTaskKeeps(s, base);
      RemovalIs(s);
      var t := loops[base].queue[0];
      loops := loops[base := loops[base].(queue := loops[base].queue[1..], due := loops[base].due - 1)];
      assert View() == Popped(s, base);
      RemoveConnectionInLoop(t.conn);
    }
  }

  lemma LoopStays(s: Sys, s': Sys, c: ConnId)
    requires Concerns(s, s', c)
    ensures s'.base == s.base && s'.conns[c].loop == s.conns[c].loop
  {
  }

  /** The next thing the base loop does is to run a queued removal. */
  ghost predicate RemovalNext(s: Sys) {
    Wf(s) && Enabled(s, RunTask(s.base)) && s.loops[s.base].queue[0].kind == RemoveK
  }

  /** Running a queued removal is an erasure after taking the task off. */
  lemma RemovalIs(s: Sys)
    requires SysInv(s) && RemovalNext(s)
    ensures Asserts(s, RunTask(s.base)) && Wf(Popped(s, s.base)) && s.loops[s.base].queue[0].conn in s.registry
    ensures Step(s, RunTask(s.base)) == Erase(Popped(s, s.base), s.loops[s.base].queue[0].conn)
  {
    hide SysInv, LoopsOk, ConnsOk;
    RunTaskKeeps(s, s.base);
    assert Wf(s) by { NameIsNew(s); }
  }
}
