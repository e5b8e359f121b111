/** Many connections on one poller, as a loop has them: whatever is done to one of them, the others
    neither notice nor lose what holds of them. */
module Sharing {
  import opened Buffers
  import opened Pollers
  import opened ConnSpec
  import opened Connections

  /** The objects a connection does not share. */
  ghost function Own(c: TcpConnection): set<object>
    reads c, c.inputBuffer, c.outputBuffer
  {
    {c, c.channel, c.inputBuffer, c.outputBuffer, c.inputBuffer.data, c.outputBuffer.data}
  }

  /** What holds of a connection apart from its poller. */
  ghost predicate Sound(c: TcpConnection)
    reads Own(c), c, c.inputBuffer, c.outputBuffer
  {
    && c.inputBuffer.Valid() && c.outputBuffer.Valid() && Inv(c.View()) && c.poller !in Own(c)
    && c.inputBuffer != c.outputBuffer && c.inputBuffer.data != c.outputBuffer.data
  }

  ghost predicate Apart(c: TcpConnection, d: TcpConnection)
    reads c, c.inputBuffer, c.outputBuffer, d, d.inputBuffer, d.outputBuffer
  {
    c.channel.fd != d.channel.fd && Own(c) !! Own(d)
  }

  /** One call in a script: operation `op` on connection number `who`, with `input` waiting in its
      socket if it reads. */
  datatype Call = Call(who: nat, op: Op, input: seq<Byte>)

  predicate Feeds(call: Call) { call.op == ConnSpec.HandleRead(Data) ==> call.input != [] }

  /** The operations of connection number `i`, in order. */
  function OpsOf(script: seq<Call>, i: nat): seq<Op> {
    if script == [] then [] else (if script[0].who == i then [script[0].op] else []) + OpsOf(script[1..], i)
  }

  lemma NextOp(script: seq<Call>, i: nat, c: Conn)
    requires script != [] && LegalRun(c, OpsOf(script, i))
    ensures script[0].who == i ==>
      Legal(c, script[0].op) && LegalRun(Next(c, script[0].op), OpsOf(script[1..], i)) &&
      Run(Next(c, script[0].op), OpsOf(script[1..], i)) == Run(c, OpsOf(script, i))
    ensures script[0].who != i ==> OpsOf(script, i) == OpsOf(script[1..], i)
  {
    var ops := OpsOf(script, i);
    if script[0].who == i {
      assert ops[0] == script[0].op && ops[1..] == OpsOf(script[1..], i);
    } else {
      assert ops == OpsOf(script[1..], i);
    }
  }

  /** What a sound connection looks like. */
  ghost function Seen(c: TcpConnection): Conn
    reads Own(c), c, c.inputBuffer, c.outputBuffer
  {
    if c.outputBuffer.Valid() then c.View() else INIT
  }

  /** The connections of poller `p`, all sound and apart from each other. */
  ghost predicate AllSound(p: EPollPoller, conns: seq<TcpConnection>)
    reads p, p.channels.Values, conns, set c <- conns :: c.channel
    reads set c <- conns :: c.inputBuffer, set c <- conns :: c.inputBuffer.data
    reads set c <- conns :: c.outputBuffer, set c <- conns :: c.outputBuffer.data
  {
    && p.Valid()
    && (forall c :: c in conns ==> c.poller == p && Sound(c) && p.Knows(c.channel))
    && (forall i, j :: 0 <= i < |conns| && 0 <= j < |conns| && i != j ==> Apart(conns[i], conns[j]))
  }

  method OpenAlone(p: EPollPoller, fd: int, hooks: Hooks) returns (c: TcpConnection)
    requires p.Valid() && fd !in p.channels
    ensures fresh(c) && fresh(Own(c)) && c.poller == p && c.channel.fd == fd
    ensures Sound(c) && p.Knows(c.channel) && Seen(c) == INIT
  {
    c := new TcpConnection(fd, p, hooks);
    assert Own(c) <= c.Parts();
    assert p !in Own(c);
    assert Own(c) <= c.Parts() - {p};
  }

  /** A new connection joins those of its poller, none of which has its descriptor. */
  method Join(p: EPollPoller, conns: seq<TcpConnection>, fd: int, hooks: Hooks) returns (c: TcpConnection)
    requires AllSound(p, conns) && fd !in p.channels && forall d :: d in conns ==> d.channel.fd != fd
    ensures fresh(c) && AllSound(p, conns + [c]) && Seen(c) == INIT
  {
    hide Sound, Seen, KnownIn, EPollPoller.Valid;
    c := OpenAlone(p, fd, hooks);
    forall d | d in conns
      ensures Apart(c, d)
    {
    }
    OneMore(p, conns, c);
  }

  lemma OneMore(p: EPollPoller, conns: seq<TcpConnection>, c: TcpConnection)
    requires AllSound(p, conns) && c.poller == p && Sound(c) && p.Knows(c.channel)
    requires forall d :: d in conns ==> Apart(c, d)
    ensures AllSound(p, conns + [c])
  {
    hide Sound, KnownIn, EPollPoller.Valid;
    var all := conns + [c];
    forall i, j | 0 <= i < |all| && 0 <= j < |all| && i != j
      ensures Apart(all[i], all[j])
    {
      assert i < |conns| ==> all[i] in conns;
      assert j < |conns| ==> all[j] in conns;
    }
  }

  /** An operation touches the poller and what the connection owns, no more. */
  method PerformAlone(c: TcpConnection, op: Op, input: seq<Byte>)
    requires c.poller.Knows(c.channel) && Sound(c)
    requires Legal(Seen(c), op) && (op == ConnSpec.HandleRead(Data) ==> input != [])
    modifies c, c.poller, c.channel, c.inputBuffer, c.inputBuffer.data, c.outputBuffer, c.outputBuffer.data
    ensures c.poller.Knows(c.channel) && Sound(c) && Seen(c) == Next(old(Seen(c)), op)
    ensures c.poller.OthersKept(c.channel.fd)
    ensures fresh(c.inputBuffer.data) || c.inputBuffer.data == old(c.inputBuffer.data)
    ensures fresh(c.outputBuffer.data) || c.outputBuffer.data == old(c.outputBuffer.data)
  {
    hide Inv, EPollPoller.Knows, Next, Legal;
    c.Perform(op, input);
  }

  /** An operation on one connection: it makes its step, the others stay as they are. */
  method PerformOn(p: EPollPoller, conns: seq<TcpConnection>, who: nat, op: Op, input: seq<Byte>)
    requires AllSound(p, conns) && who < |conns|
    requires Legal(Seen(conns[who]), op) && (op == ConnSpec.HandleRead(Data) ==> input != [])
    modifies p, conns, set c <- conns :: c.channel
    modifies set c <- conns :: c.inputBuffer, set c <- conns :: c.inputBuffer.data
    modifies set c <- conns :: c.outputBuffer, set c <- conns :: c.outputBuffer.data
    ensures AllSound(p, conns)
    ensures Seen(conns[who]) == Next(old(Seen(conns[who])), op)
    ensures forall i :: 0 <= i < |conns| && i != who ==> Seen(conns[i]) == old(Seen(conns[i]))
    ensures forall c :: c in conns ==> fresh(c.inputBuffer.data) || c.inputBuffer.data == old(c.inputBuffer.data)
    ensures forall c :: c in conns ==> fresh(c.outputBuffer.data) || c.outputBuffer.data == old(c.outputBuffer.data)
  {
    hide Sound, Seen, KnownIn, EPollPoller.Valid, Next, Legal;
    ghost var was := p.channels;
    var c := conns[who];
    assert c in conns;
    PerformAlone(c, op, input);
    forall i | 0 <= i < |conns| && i != who
      ensures Sound(conns[i]) && p.Knows(conns[i].channel) && Apart(c, conns[i]) && Seen(conns[i]) == old(Seen(conns[i]))
    {
      assert old(conns[i] in conns && Apart(c, conns[i]));
      p.KeptIsKnown(was, c.channel.fd, conns[i].channel);
    }
  }

  /** Any script of operations on any of the connections, in any order.  Each connection ends where
      its own operations alone lead, as if it had the poller to itself; and the kernel's table shows
      exact write interest for all of them. */
  method RunScript(p: EPollPoller, conns: seq<TcpConnection>, script: seq<Call>)
    requires AllSound(p, conns)
    requires forall n :: 0 <= n < |script| ==> script[n].who < |conns| && Feeds(script[n])
    requires forall i :: 0 <= i < |conns| ==> LegalRun(Seen(conns[i]), OpsOf(script, i))
    modifies p, conns, set c <- conns :: c.channel
    modifies set c <- conns :: c.inputBuffer, set c <- conns :: c.inputBuffer.data
    modifies set c <- conns :: c.outputBuffer, set c <- conns :: c.outputBuffer.data
    ensures AllSound(p, conns)
    ensures forall i :: 0 <= i < |conns| ==> Seen(conns[i]) == Run(old(Seen(conns[i])), OpsOf(script, i))
    ensures forall c :: c in conns ==> c.Valid() && c.InterestIsExact()
  {
    hide AllSound, Seen, Next, Legal, Run, LegalRun, OpsOf;
    var n := 0;
    assert script[0..] == script;
    while n < |script|
      invariant n <= |script| && AllSound(p, conns)
      invariant forall c :: c in conns ==> fresh(c.inputBuffer.data) || c.inputBuffer.data == old(c.inputBuffer.data)
      invariant forall c :: c in conns ==> fresh(c.outputBuffer.data) || c.outputBuffer.data == old(c.outputBuffer.data)
      invariant forall i :: 0 <= i < |conns| ==>
        LegalRun(Seen(conns[i]), OpsOf(script[n..], i)) &&
        Run(Seen(conns[i]), OpsOf(script[n..], i)) == Run(old(Seen(conns[i])), OpsOf(script, i))
    {
      var call := script[n];
      assert script[n..][0] == call && script[n..][1..] == script[n + 1..];
      forall i | 0 <= i < |conns| {
        NextOp(script[n..], i, Seen(conns[i]));
      }
      PerformOn(p, conns, call.who, call.op, call.input);
      n := n + 1;
    }
    assert script[n..] == [];
    forall i | 0 <= i < |conns| {
      NoOps(Seen(conns[i]), i);
    }
    SoundIsExact(p, conns);
  }

  lemma NoOps(c: Conn, i: nat)
    ensures LegalRun(c, OpsOf([], i)) && Run(c, OpsOf([], i)) == c
  {
  }

  lemma SoundIsExact(p: EPollPoller, conns: seq<TcpConnection>)
    requires AllSound(p, conns)
    ensures forall c :: c in conns ==> c.Valid() && c.InterestIsExact()
  {
    forall c | c in conns
      ensures c.Valid() && c.InterestIsExact()
    {
      c.WriteInterestIsExact();
    }
  }
}
