/** What a TCP connection does with the bytes it is given and with its channel, as a machine on
    values.  Module `Connections` proves that the class follows it. */
module ConnSpec {
  import ByteQueue
  import opened Pollers

  type Byte = ByteQueue.Byte

  datatype ConnState = Connecting | Connected | Disconnecting | Disconnected

  datatype Errno = EWouldBlock | EPipe | EConnReset | OtherErrno

  /** What the kernel did with a write: took a prefix, or failed. */
  datatype WriteResult = Wrote(n: nat) | Failed(errno: Errno)

  /** What a read delivered. */
  datatype ReadOutcome = Data | EndOfStream | ReadFailed

  /** Work handed on: user callbacks and the forced close are queued on the loop, the notice to
      the owner is the close callback. */
  datatype Post = WriteComplete | HighWater(size: nat) | ForceCloseTask | CloseNotice

  /** The callbacks that are set, and the high-water mark. */
  datatype Hooks = Hooks(writeComplete: bool, highWater: bool, mark: nat)

  /** `sent` is everything the kernel has taken so far. */
  datatype Conn = Conn(state: ConnState, reading: bool, events: set<Flag>, index: Index,
                       output: seq<Byte>, sent: seq<Byte>)

  datatype Op =
    | Establish
    | Send(message: seq<Byte>, w: WriteResult)   // sendInLoop; `w` matters only if it writes directly
    | ForceClose
    | ForceCloseInLoop
    | HandleRead(r: ReadOutcome)
    | HandleWrite(w: WriteResult)
    | StopRead
    | StartRead
    | Destroy

  predicate Up(c: Conn) { c.state == Connected || c.state == Disconnecting }

  predicate Fatal(w: WriteResult) { w.Failed? && (w.errno == EPipe || w.errno == EConnReset) }

  function Taken(w: WriteResult): nat { if w.Wrote? then w.n else 0 }

  /** The asserts of the source, the limits of the kernel, and the rule that reading is switched
      only while the connection is up. */
  predicate Legal(c: Conn, op: Op) {
    match op
    case Establish => c.state == Connecting
    case Send(message, w) => Taken(w) <= |message|
    case HandleRead(r) => r == EndOfStream ==> Up(c)
    case HandleWrite(w) => Taken(w) <= |c.output|
    case StopRead => Up(c)
    case StartRead => Up(c)
    case Destroy => c.state == Connected || (c.state == Disconnected && c.index != New)
    case _ => true
  }

  function Watch(c: Conn, events: set<Flag>): Conn {
    c.(events := events, index := NextIndex(c.index, events))
  }

  function PostIf(b: bool, p: Post): seq<Post> { if b then [p] else [] }

  /** A message is lost, and then as a whole, only if the connection is down or the direct write
      finds the peer gone. */
  predicate Dropped(c: Conn, w: WriteResult) {
    c.state == Disconnected || (c.output == [] && Fatal(w))
  }

  /** How much of a message goes straight to the kernel. */
  function Direct(c: Conn, w: WriteResult): nat {
    if c.output == [] then Taken(w) else 0
  }

  function SendNext(c: Conn, message: seq<Byte>, w: WriteResult): Conn
    requires Taken(w) <= |message|
  {
    if Dropped(c, w) then c
    else
      var d := Direct(c, w);
      var c1 := c.(sent := c.sent + message[..d], output := c.output + message[d..]);
      if d == |message| || Out in c.events then c1 else Watch(c1, c1.events + WRITE_EVENT)
  }

  function CloseNext(c: Conn): Conn {
    Watch(c.(state := Disconnected), {})
  }

  function WriteNext(c: Conn, w: WriteResult): Conn
    requires Taken(w) <= |c.output|
  {
    var n := Taken(w);
    if Out !in c.events || n == 0 then c
    else
      var c1 := c.(sent := c.sent + c.output[..n], output := c.output[n..]);
      if n < |c.output| then c1
      else
        var c2 := Watch(c1, c1.events - WRITE_EVENT);
        if c.state == Disconnecting then CloseNext(c2) else c2
  }

  function Next(c: Conn, op: Op): Conn
    requires Legal(c, op)
  {
    match op
    case Establish => Watch(c.(state := Connected), c.events + READ_EVENT)
    case Send(message, w) => SendNext(c, message, w)
    case ForceClose => if Up(c) then c.(state := Disconnecting) else c
    case ForceCloseInLoop => if Up(c) then CloseNext(c) else c
    case HandleRead(r) => if r == EndOfStream then CloseNext(c) else c
    case HandleWrite(w) => WriteNext(c, w)
    case StopRead =>
      if c.reading || c.events * READ_EVENT != {} then Watch(c, c.events - READ_EVENT).(reading := false) else c
    case StartRead =>
      if !c.reading || c.events * READ_EVENT == {} then Watch(c, c.events + READ_EVENT).(reading := true) else c
    case Destroy =>
      var c1 := if c.state == Connected then Watch(c.(state := Disconnected), {}) else c;
      c1.(index := New)
  }

  /** What an operation hands on, in order. */
  function Posts(c: Conn, op: Op, h: Hooks): seq<Post>
    requires Legal(c, op)
  {
    match op
    case Send(message, w) =>
      if Dropped(c, w) then []
      else if Direct(c, w) == |message| then PostIf(h.writeComplete && c.output == [] && w.Wrote?, WriteComplete)
      else
        var size := |c.output| + |message| - Direct(c, w);
        PostIf(h.highWater && |c.output| < h.mark <= size, HighWater(size))
    case ForceClose => PostIf(Up(c), ForceCloseTask)
    case ForceCloseInLoop => PostIf(Up(c), CloseNotice)
    case HandleRead(r) => PostIf(r == EndOfStream, CloseNotice)
    case HandleWrite(w) =>
      if Out in c.events && 0 < Taken(w) == |c.output|
      then PostIf(h.writeComplete, WriteComplete) + PostIf(c.state == Disconnecting, CloseNotice)
      else []
    case _ => []
  }

  const INIT: Conn := Conn(Connecting, true, {}, New, [], [])

  /** Write interest is exact: while the connection is not down, it asks for writability exactly
      when there is something to write; once it is down it asks for nothing.  While it is up it
      is watched exactly when it asks for something, and the reading flag tells the truth. */
  predicate Inv(c: Conn) {
    && (if c.state == Disconnected then c.events == {} else Out in c.events <==> c.output != [])
    && (c.events != {} ==> c.index == Added)
    && c.events <= READ_EVENT + WRITE_EVENT
    && (Up(c) ==> c.index == if c.events == {} then Deleted else Added)
    && (Up(c) || c.state == Connecting ==> c.events * READ_EVENT == if Up(c) && c.reading then READ_EVENT else {})
    && (c.state == Connecting ==> c.reading)
  }

  lemma StepKeeps(c: Conn, op: Op)
    requires Inv(c) && Legal(c, op)
    ensures Inv(Next(c, op))
  {
  }

  /** Once everything is written, giving up write interest restores the invariant. */
  lemma EmptiedKeeps(c: Conn, sent: seq<Byte>)
    requires Inv(c) && Out in c.events
    ensures Inv(Watch(c.(output := [], sent := sent), c.events - WRITE_EVENT))
  {
    assert (c.events - WRITE_EVENT) * READ_EVENT == c.events * READ_EVENT;
    assert c.events * READ_EVENT == {} ==> c.events - WRITE_EVENT == {};
  }

  /** A send to a connection that is not down, in two parts: what the direct write does, and what
      waits for writability. */
  lemma SendIs(c: Conn, message: seq<Byte>, w: WriteResult, h: Hooks)
    requires Inv(c) && c.state != Disconnected && Taken(w) <= |message|
    ensures c.output == [] ==> Out !in c.events
    ensures var n := Direct(c, w);
      var written := c.(sent := c.sent + message[..n]);
      if Dropped(c, w) || n == |message| then
        && Next(c, Send(message, w)) == written
        && Posts(c, Send(message, w), h) == PostIf(h.writeComplete && c.output == [] && w.Wrote? && n == |message|, WriteComplete)
      else
        && Next(c, Send(message, w)) == Waits(written, message[n..])
        && Posts(c, Send(message, w), h) ==
             PostIf(h.highWater && |c.output| < h.mark <= |c.output| + |message[n..]|, HighWater(|c.output| + |message[n..]|))
  {
    assert c.sent + message[..0] == c.sent;
    assert c.output + message[|message|..] == c.output;
  }

  /** `rest` is appended to the output, and writability is watched. */
  function Waits(c: Conn, rest: seq<Byte>): Conn {
    var c1 := c.(output := c.output + rest);
    if Out in c.events then c1 else Watch(c1, c1.events + WRITE_EVENT)
  }

  /** A write event by cases: nothing happens, some bytes leave, or the last ones do. */
  lemma WriteIs(c: Conn, w: WriteResult, h: Hooks)
    requires Inv(c) && Legal(c, HandleWrite(w))
    ensures Out in c.events ==> c.state != Disconnected
    ensures var n := Taken(w); var left := c.(sent := c.sent + c.output[..n], output := c.output[n..]);
      if Out !in c.events || n == 0 then Next(c, HandleWrite(w)) == c && Posts(c, HandleWrite(w), h) == []
      else if n < |c.output| then Next(c, HandleWrite(w)) == left && Posts(c, HandleWrite(w), h) == []
      else
        && left.output == []
        && Next(c, HandleWrite(w)) == Finished(left)
        && Posts(c, HandleWrite(w), h) == PostIf(h.writeComplete, WriteComplete) + PostIf(c.state == Disconnecting, CloseNotice)
  {
  }

  /** Nothing is left to write: write interest is given up, and a disconnecting connection closes. */
  function Finished(c: Conn): Conn {
    var c1 := Watch(c, c.events - WRITE_EVENT);
    if c.state == Disconnecting then CloseNext(c1) else c1
  }

  // ----- runs

  predicate LegalRun(c: Conn, ops: seq<Op>)
    decreases |ops|
  {
    ops == [] || (Legal(c, ops[0]) && LegalRun(Next(c, ops[0]), ops[1..]))
  }

  function Run(c: Conn, ops: seq<Op>): Conn
    requires LegalRun(c, ops)
    decreases |ops|
  {
    if ops == [] then c else Run(Next(c, ops[0]), ops[1..])
  }

  lemma {:induction false} RunKeeps(c: Conn, ops: seq<Op>)
    requires Inv(c) && LegalRun(c, ops)
    ensures Inv(Run(c, ops))
    decreases |ops|
  {
    if ops != [] {
      StepKeeps(c, ops[0]);
      RunKeeps(Next(c, ops[0]), ops[1..]);
    }
  }

  /** The bytes of one operation that the connection takes responsibility for. */
  function Kept(c: Conn, op: Op): seq<Byte> {
    if op.Send? && !Dropped(c, op.w) then op.message else []
  }

  function KeptAll(c: Conn, ops: seq<Op>): seq<Byte>
    requires LegalRun(c, ops)
    decreases |ops|
  {
    if ops == [] then [] else Kept(c, ops[0]) + KeptAll(Next(c, ops[0]), ops[1..])
  }

  lemma SendConserves(c: Conn, message: seq<Byte>, w: WriteResult)
    requires Taken(w) <= |message| && !Dropped(c, w)
    ensures SendNext(c, message, w).sent + SendNext(c, message, w).output == c.sent + c.output + message
  {
    var d := Direct(c, w);
    if c.output == [] {
      assert c.sent + message[..d] + ([] + message[d..]) == c.sent + [] + message;
    } else {
      assert c.sent + message[..0] + (c.output + message[0..]) == c.sent + c.output + message;
    }
  }

  lemma StepConserves(c: Conn, op: Op)
    requires Inv(c) && Legal(c, op)
    ensures Next(c, op).sent + Next(c, op).output == c.sent + c.output + Kept(c, op)
  {
    assert c.sent + c.output + [] == c.sent + c.output;
    if op.Send? && !Dropped(c, op.w) {
      SendConserves(c, op.message, op.w);
    } else if op.HandleWrite? {
      var n := Taken(op.w);
      assert c.sent + c.output[..n] + c.output[n..] == c.sent + c.output;
    }
  }

  /** Output conservation, for any pattern of partial writes, errors, closes and read switches:
      what the kernel has taken, followed by what is still buffered, is the concatenation in order
      of the messages that were not dropped. */
  lemma {:induction false} OutputConserved(c: Conn, ops: seq<Op>)
    requires Inv(c) && LegalRun(c, ops)
    ensures Run(c, ops).sent + Run(c, ops).output == c.sent + c.output + KeptAll(c, ops)
    decreases |ops|
  {
    var total := c.sent + c.output;
    if ops == [] {
      assert total + [] == total;
    } else {
      var c' := Next(c, ops[0]);
      StepKeeps(c, ops[0]);
      StepConserves(c, ops[0]);
      OutputConserved(c', ops[1..]);
      var k, rest := Kept(c, ops[0]), KeptAll(c', ops[1..]);
      assert total + k + rest == total + (k + rest);
    }
  }

  // ----- life cycle

  function Rank(s: ConnState): nat {
    match s case Connecting => 0 case Connected => 1 case Disconnecting => 2 case Disconnected => 3
  }

  /** A connection only ever moves forward; the owner is told of the close exactly when an
      operation other than the final destruction brings it down. */
  lemma MovesForward(c: Conn, op: Op, h: Hooks)
    requires Inv(c) && Legal(c, op)
    ensures Rank(c.state) <= Rank(Next(c, op).state)
    ensures CloseNotice in Posts(c, op, h) <==> op != Destroy && c.state != Disconnected && Next(c, op).state == Disconnected
  {
  }

  function RunPosts(c: Conn, ops: seq<Op>, h: Hooks): seq<Post>
    requires LegalRun(c, ops)
    decreases |ops|
  {
    if ops == [] then [] else Posts(c, ops[0], h) + RunPosts(Next(c, ops[0]), ops[1..], h)
  }

  /** A run followed by one more operation. */
  lemma {:induction false} RunSnoc(c: Conn, ops: seq<Op>, op: Op, h: Hooks)
    requires LegalRun(c, ops) && Legal(Run(c, ops), op)
    ensures LegalRun(c, ops + [op]) && Run(c, ops + [op]) == Next(Run(c, ops), op)
    ensures KeptAll(c, ops + [op]) == KeptAll(c, ops) + Kept(Run(c, ops), op)
    ensures RunPosts(c, ops + [op], h) == RunPosts(c, ops, h) + Posts(Run(c, ops), op, h)
    decreases |ops|
  {
    hide Next, Legal, Kept, Posts;
    var all := ops + [op];
    if ops == [] {
      assert all[0] == op && all[1..] == [];
    } else {
      var c', d := Next(c, ops[0]), Run(c, ops);
      assert all[0] == ops[0] && all[1..] == ops[1..] + [op];
      RunSnoc(c', ops[1..], op, h);
      assert Kept(c, ops[0]) + (KeptAll(c', ops[1..]) + Kept(d, op)) == Kept(c, ops[0]) + KeptAll(c', ops[1..]) + Kept(d, op);
      assert Posts(c, ops[0], h) + (RunPosts(c', ops[1..], h) + Posts(d, op, h)) ==
        Posts(c, ops[0], h) + RunPosts(c', ops[1..], h) + Posts(d, op, h);
    }
  }

  /** The owner is told at most once over any run: no two posted notices. */
  lemma {:induction false} ToldAtMostOnce(c: Conn, ops: seq<Op>, h: Hooks)
    requires Inv(c) && LegalRun(c, ops)
    ensures forall i, j :: 0 <= i < j < |RunPosts(c, ops, h)| ==>
      !(RunPosts(c, ops, h)[i] == CloseNotice && RunPosts(c, ops, h)[j] == CloseNotice)
    ensures CloseNotice in RunPosts(c, ops, h) ==> c.state != Disconnected && Run(c, ops).state == Disconnected
    decreases |ops|
  {
    if ops != [] {
      var c' := Next(c, ops[0]);
      StepKeeps(c, ops[0]);
      MovesForward(c, ops[0], h);
      ToldAtMostOnce(c', ops[1..], h);
      RunMovesForward(c', ops[1..]);
      var p, rest := Posts(c, ops[0], h), RunPosts(c', ops[1..], h);
      assert |p| <= 2 && (|p| == 2 ==> p[0] == WriteComplete);
      assert CloseNotice in p ==> CloseNotice !in rest;
    }
  }

  lemma {:induction false} RunMovesForward(c: Conn, ops: seq<Op>)
    requires Inv(c) && LegalRun(c, ops)
    ensures Rank(c.state) <= Rank(Run(c, ops).state)
    decreases |ops|
  {
    if ops != [] {
      StepKeeps(c, ops[0]);
      MovesForward(c, ops[0], Hooks(false, false, 0));
      RunMovesForward(Next(c, ops[0]), ops[1..]);
    }
  }

  // ----- the two callbacks about output

  ghost predicate Fires(c: Conn, op: Op, h: Hooks)
    requires Legal(c, op)
  {
    exists n :: HighWater(n) in Posts(c, op, h)
  }

  /** With the callback set, the high-water task is queued exactly when the buffered output
      crosses the mark upwards, and it carries the new size. */
  lemma HighWaterOnCrossing(c: Conn, op: Op, h: Hooks)
    requires Inv(c) && Legal(c, op)
    ensures Fires(c, op, h) <==> h.highWater && |c.output| < h.mark <= |Next(c, op).output|
    ensures forall n :: HighWater(n) in Posts(c, op, h) ==> n == |Next(c, op).output|
  {
    if h.highWater && |c.output| < h.mark <= |Next(c, op).output| {
      assert HighWater(|Next(c, op).output|) in Posts(c, op, h);
    }
  }

  /** A drain: a write event that takes the buffered output from the mark to below it. */
  predicate Drains(c: Conn, op: Op, h: Hooks)
    requires Legal(c, op)
  {
    op.HandleWrite? && |Next(c, op).output| < h.mark <= |c.output|
  }

  /** Getting from the mark to below it takes a drain. */
  lemma {:induction false} FallNeedsDrain(c: Conn, ops: seq<Op>, h: Hooks) returns (k: nat)
    requires Inv(c) && LegalRun(c, ops) && |Run(c, ops).output| < h.mark <= |c.output|
    ensures k < |ops| && LegalRun(c, ops[..k])
    ensures Legal(Run(c, ops[..k]), ops[k]) && Drains(Run(c, ops[..k]), ops[k], h)
    decreases |ops|
  {
    var c' := Next(c, ops[0]);
    StepKeeps(c, ops[0]);
    if |c'.output| < h.mark {
      k := 0;
      assert ops[..0] == [];
    } else {
      var j := FallNeedsDrain(c', ops[1..], h);
      k := j + 1;
      assert ops[..k][0] == ops[0] && ops[..k][1..] == ops[1..][..j];
    }
  }

  /** Two high-water tasks are always separated by a drain below the mark. */
  lemma FiringsAreSeparated(c: Conn, first: Op, ops: seq<Op>, last: Op, h: Hooks) returns (k: nat)
    requires Inv(c) && Legal(c, first) && Fires(c, first, h)
    requires LegalRun(Next(c, first), ops)
    requires Legal(Run(Next(c, first), ops), last) && Fires(Run(Next(c, first), ops), last, h)
    ensures k < |ops| && LegalRun(Next(c, first), ops[..k])
    ensures Legal(Run(Next(c, first), ops[..k]), ops[k]) && Drains(Run(Next(c, first), ops[..k]), ops[k], h)
  {
    var c1 := Next(c, first);
    StepKeeps(c, first);
    HighWaterOnCrossing(c, first, h);
    RunKeeps(c1, ops);
    HighWaterOnCrossing(Run(c1, ops), last, h);
    k := FallNeedsDrain(c1, ops, h);
  }

  /** A write-complete task is queued only when nothing is left to write, so that over the whole
      run every byte the connection took responsibility for has reached the kernel. */
  lemma WriteCompleteMeansAllSent(c: Conn, ops: seq<Op>, op: Op, h: Hooks)
    requires Inv(c) && c.output == [] && LegalRun(c, ops) && Legal(Run(c, ops), op)
    requires WriteComplete in Posts(Run(c, ops), op, h)
    ensures var d := Run(c, ops);
      Next(d, op).output == [] && Next(d, op).sent == c.sent + KeptAll(c, ops) + Kept(d, op)
  {
    var d := Run(c, ops);
    RunKeeps(c, ops);
    OutputConserved(c, ops);
    StepConserves(d, op);
    assert Next(d, op).output == [];
    assert Next(d, op).sent + [] == Next(d, op).sent;
    assert c.sent + [] == c.sent;
  }

  /** Delivery is not promised across threads: a forced close that overtakes a message lets the
      write event that empties the buffer close the connection, and the message is dropped. */
  lemma ForceCloseOvertakesSend(c: Conn, message: seq<Byte>, w: WriteResult)
    requires Inv(c) && c.state == Connected && c.output != [] && Taken(w) <= |message|
    ensures var ops := [ForceClose, HandleWrite(Wrote(|c.output|)), Send(message, w)];
      LegalRun(c, ops) && KeptAll(c, ops) == []
  {
    var write, send := HandleWrite(Wrote(|c.output|)), Send(message, w);
    var c1 := Next(c, ForceClose);
    var c2 := Next(c1, write);
    assert c2.state == Disconnected;
    OneMoreOp(c2, send, []);
    OneMoreOp(c1, write, [send]);
    OneMoreOp(c, ForceClose, [write] + [send]);
    assert [ForceClose] + ([write] + [send]) == [ForceClose, write, send];
    assert [send] + [] == [send];
  }

  lemma OneMoreOp(c: Conn, op: Op, ops: seq<Op>)
    requires Legal(c, op) && LegalRun(Next(c, op), ops)
    ensures LegalRun(c, [op] + ops) && KeptAll(c, [op] + ops) == Kept(c, op) + KeptAll(Next(c, op), ops)
  {
    assert ([op] + ops)[1..] == ops;
  }

  // ----- closing and the kernel's table

  predicate Closes(c: Conn, op: Op)
    requires Legal(c, op)
  {
    op != Destroy && c.state != Disconnected && Next(c, op).state == Disconnected
  }

  /** Closing `c` with `op` finds it still watching something: reading is on, or, unless it is the
      last write that closes, there is unwritten output. */
  predicate WatchingAtClose(c: Conn, op: Op) {
    c.reading || (c.output != [] && !op.HandleWrite?)
  }

  /** Closing takes the descriptor out of the kernel's table if and only if the connection was
      still watching something.  One that is closed while it watches nothing (reading stopped,
      nothing left to write) is put back into the table, and hang-ups still reach it. */
  lemma ClosedIsUnwatchedIff(c: Conn, op: Op)
    requires Inv(c) && Legal(c, op) && Closes(c, op)
    ensures Next(c, op).index == if WatchingAtClose(c, op) then Deleted else Added
  {
    assert c.events * READ_EVENT == if c.reading then READ_EVENT else {};
    assert c.reading ==> In in c.events * READ_EVENT;
    assert !c.reading && c.output == [] ==> c.events == {};
    assert !c.reading ==> c.events - WRITE_EVENT == {};
  }

  /** And so it stays, whatever else is done to it, until it is destroyed. */
  lemma ClosedStaysUnwatchedIff(c: Conn, op: Op, ops: seq<Op>)
    requires Inv(c) && Legal(c, op) && Closes(c, op) && LegalRun(Next(c, op), ops) && Destroy !in ops
    ensures Run(Next(c, op), ops).index == if WatchingAtClose(c, op) then Deleted else Added
    ensures Run(Next(c, op), ops).events == {}
  {
    StepKeeps(c, op);
    ClosedIsUnwatchedIff(c, op);
    DownStays(Next(c, op), ops);
  }

  lemma {:induction false} DownStays(c: Conn, ops: seq<Op>)
    requires Inv(c) && c.state == Disconnected && LegalRun(c, ops) && Destroy !in ops
    ensures Run(c, ops) == c
    decreases |ops|
  {
    if ops != [] {
      assert Next(c, ops[0]) == c;
      DownStays(c, ops[1..]);
    }
  }
}
