/** The byte queue that `net::Buffer` is meant to be: a plain sequence of bytes, together with a
    number of bytes that are certain to be free in front of it. */
module ByteQueue {

  newtype Byte = x: int | 0 <= x < 256

  const NEWLINE: Byte := 10
  const CHEAP_PREPEND: nat := 8

  function Min(a: int, b: int): int { if a <= b then a else b }

  function Max(a: int, b: int): int { if a <= b then b else a }

  /** `bytes` is what a reader can see; at least `room` bytes may be prepended, and how many more
      depends on what the buffer moved and when. */
  datatype Queue = Queue(bytes: seq<Byte>, room: nat)

  const EMPTY: Queue := Queue([], CHEAP_PREPEND)

  /** One call on the buffer.  `ReadFd` carries what the kernel delivered. */
  datatype Op =
    | Append(data: seq<Byte>)
    | Reserve(len: nat)
    | Prepend(head: seq<Byte>)
    | Retrieve(n: nat)
    | RetrieveAll
    | ReadFd(got: seq<Byte>)
    | ReadFdFailed
    | GetLine

  /** What the source asks of its caller, apart from the space in front: no more is retrieved than
      there is. */
  predicate Legal(q: Queue, op: Op) {
    op.Retrieve? ==> op.n <= |q.bytes|
  }

  /** The position of the first newline, or the length when there is none. */
  function LineEnd(s: seq<Byte>): (k: nat)
    ensures k <= |s|
    ensures k < |s| ==> s[k] == NEWLINE
    ensures NEWLINE !in s[..k]
  {
    if s == [] || s[0] == NEWLINE then 0
    else
      var k := 1 + LineEnd(s[1..]);
      assert s[..k] == [s[0]] + s[1..][..k - 1];
      k
  }

  function Drop(q: Queue, n: nat): Queue
    requires n <= |q.bytes|
  {
    if n < |q.bytes| then Queue(q.bytes[n..], q.room + n) else EMPTY
  }

  function Grow(q: Queue, data: seq<Byte>): Queue {
    Queue(q.bytes + data, Min(q.room, CHEAP_PREPEND))
  }

  function Next(q: Queue, op: Op): Queue
    requires Legal(q, op)
  {
    match op
    case Append(data) => Grow(q, data)
    case Reserve(_) => Grow(q, [])
    case Prepend(head) => Queue(head + q.bytes, Max(0, q.room - |head|))
    case Retrieve(n) => Drop(q, n)
    case RetrieveAll => EMPTY
    case ReadFd(got) => Grow(q, got)
    case ReadFdFailed => q
    case GetLine =>
      var k := LineEnd(q.bytes);
      if k < |q.bytes| then Drop(q, k + 1) else q
  }

  /** The line handed to the caller by one operation, if any. */
  function Emitted(q: Queue, op: Op): seq<seq<Byte>> {
    var k := LineEnd(q.bytes);
    if op.GetLine? && k < |q.bytes| then [q.bytes[..k + 1]] else []
  }

  /** Readable bytes plus the length asked for, when the operation asks for space. */
  function Demand(q: Queue, op: Op): nat {
    match op
    case Append(data) => |q.bytes| + |data|
    case Reserve(len) => |q.bytes| + len
    case ReadFd(got) => |q.bytes| + |got|
    case _ => 0
  }

  /** The demand is what there is to read once the asked-for bytes have arrived. */
  lemma DemandIs(q: Queue, op: Op)
    requires Legal(q, op)
    ensures op.Append? || op.ReadFd? ==> Demand(q, op) == |Next(q, op).bytes|
    ensures Demand(q, op) == if op.Append? then |q.bytes| + |op.data| else if op.ReadFd? then |q.bytes| + |op.got|
                             else if op.Reserve? then |q.bytes| + op.len else 0
  {
  }

  /** Only a prepend can take the sure room below its first size, and a queue read empty has that
      size again. */
  lemma SureRoom(q: Queue, op: Op)
    requires Legal(q, op)
    ensures !op.Prepend? && 8 <= q.room ==> 8 <= Next(q, op).room
    ensures op.Prepend? && |op.head| <= q.room ==> Next(q, op).room == q.room - |op.head|
    ensures op == RetrieveAll || op == Retrieve(|q.bytes|) ==> Next(q, op) == Queue([], 8)
  {
  }

  predicate LegalRun(q: Queue, ops: seq<Op>)
    decreases |ops|
  {
    ops == [] || (Legal(q, ops[0]) && LegalRun(Next(q, ops[0]), ops[1..]))
  }

  function Run(q: Queue, ops: seq<Op>): Queue
    requires LegalRun(q, ops)
    decreases |ops|
  {
    if ops == [] then q else Run(Next(q, ops[0]), ops[1..])
  }

  function RunLines(q: Queue, ops: seq<Op>): seq<seq<Byte>>
    requires LegalRun(q, ops)
    decreases |ops|
  {
    if ops == [] then [] else Emitted(q, ops[0]) + RunLines(Next(q, ops[0]), ops[1..])
  }

  function RunDemand(q: Queue, ops: seq<Op>): nat
    requires LegalRun(q, ops)
    decreases |ops|
  {
    if ops == [] then 0 else Max(Demand(q, ops[0]), RunDemand(Next(q, ops[0]), ops[1..]))
  }

  /** A run followed by one more operation. */
  lemma {:induction false} RunSnoc(q: Queue, ops: seq<Op>, op: Op)
    requires LegalRun(q, ops) && Legal(Run(q, ops), op)
    ensures LegalRun(q, ops + [op]) && Run(q, ops + [op]) == Next(Run(q, ops), op)
    ensures RunLines(q, ops + [op]) == RunLines(q, ops) + Emitted(Run(q, ops), op)
    ensures RunDemand(q, ops + [op]) == Max(RunDemand(q, ops), Demand(Run(q, ops), op))
    decreases |ops|
  {
    hide Next, Emitted, Demand, Legal;
    var all := ops + [op];
    if ops == [] {
      assert all[1..] == [];
    } else {
      var q', d := Next(q, ops[0]), Run(q, ops);
      assert all[0] == ops[0] && all[1..] == ops[1..] + [op];
      RunSnoc(q', ops[1..], op);
      assert Emitted(q, ops[0]) + (RunLines(q', ops[1..]) + Emitted(d, op)) ==
        Emitted(q, ops[0]) + RunLines(q', ops[1..]) + Emitted(d, op);
    }
  }

  // ----- line framing

  /** The complete lines of a byte string, each with its newline. */
  function Lines(s: seq<Byte>): seq<seq<Byte>>
    decreases |s|
  {
    var k := LineEnd(s);
    if k == |s| then [] else [s[..k + 1]] + Lines(s[k + 1..])
  }

  /** What follows the last newline. */
  function Rest(s: seq<Byte>): seq<Byte>
    decreases |s|
  {
    var k := LineEnd(s);
    if k == |s| then s else Rest(s[k + 1..])
  }

  function Flatten(ls: seq<seq<Byte>>): seq<Byte> {
    if ls == [] then [] else ls[0] + Flatten(ls[1..])
  }

  /** A line ends in a newline and holds no other. */
  predicate IsLine(l: seq<Byte>) {
    l != [] && l[|l| - 1] == NEWLINE && NEWLINE !in l[..|l| - 1]
  }

  predicate Framed(ls: seq<seq<Byte>>, rest: seq<Byte>) {
    (forall i :: 0 <= i < |ls| ==> IsLine(ls[i])) && NEWLINE !in rest
  }

  lemma {:induction false} LineEndUnique(s: seq<Byte>, k: nat)
    requires k <= |s| && NEWLINE !in s[..k] && (k < |s| ==> s[k] == NEWLINE)
    ensures LineEnd(s) == k
  {
    if s != [] && s[0] != NEWLINE {
      assert 0 < k;
      assert s[1..][..k - 1] == s[..k][1..];
      LineEndUnique(s[1..], k - 1);
    }
  }

  /** A string without a newline has no line and is its own tail. */
  lemma NoLine(s: seq<Byte>)
    ensures NEWLINE !in s <==> LineEnd(s) == |s|
    ensures NEWLINE !in s ==> Lines(s) == [] && Rest(s) == s
  {
    assert s[..|s|] == s;
    if NEWLINE !in s {
      LineEndUnique(s, |s|);
    }
  }

  lemma FlattenCons(l: seq<Byte>, ls: seq<seq<Byte>>)
    ensures Flatten([l] + ls) == l + Flatten(ls)
  {
    assert ([l] + ls)[1..] == ls;
  }

  /** No byte is lost or moved by the cut. */
  lemma {:induction false} SplitKeepsBytes(s: seq<Byte>)
    ensures Flatten(Lines(s)) + Rest(s) == s
    decreases |s|
  {
    if LineEnd(s) < |s| {
      var l, t := s[..LineEnd(s) + 1], s[LineEnd(s) + 1..];
      SplitOnce(s);
      hide LineEnd, Lines, Rest, Flatten;
      SplitKeepsBytes(t);
      FlattenCons(l, Lines(t));
      Associate(l, Flatten(Lines(t)), Rest(t));
    }
  }

  lemma Associate(a: seq<Byte>, b: seq<Byte>, c: seq<Byte>)
    ensures a + b + c == a + (b + c)
  {
  }

  lemma SplitOnce(s: seq<Byte>)
    requires LineEnd(s) < |s|
    ensures var l, t := s[..LineEnd(s) + 1], s[LineEnd(s) + 1..];
      s == l + t && Lines(s) == [l] + Lines(t) && Rest(s) == Rest(t)
  {
  }

  lemma {:induction false} SplitFrames(s: seq<Byte>)
    ensures Framed(Lines(s), Rest(s))
    decreases |s|
  {
    var k := LineEnd(s);
    if k == |s| {
      NoLine(s);
    } else {
      var l, t := s[..k + 1], s[k + 1..];
      SplitFrames(t);
      assert IsLine(l) by { assert l[..k] == s[..k]; }
      assert Lines(s) == [l] + Lines(t);
    }
  }

  /** `Lines` and `Rest` cut the input into lines and a tail without losing or moving a byte. */
  lemma SplitIsFramed(s: seq<Byte>)
    ensures Framed(Lines(s), Rest(s)) && Flatten(Lines(s)) + Rest(s) == s
  {
    SplitKeepsBytes(s);
    SplitFrames(s);
  }

  /** There is only one way to frame a byte string: any framing is the one `Lines` computes. */
  lemma {:induction false} FramingUnique(s: seq<Byte>, ls: seq<seq<Byte>>, rest: seq<Byte>)
    requires Framed(ls, rest) && s == Flatten(ls) + rest
    ensures ls == Lines(s) && rest == Rest(s)
    decreases |ls|
  {
    if ls == [] {
      assert s == rest;
      NoLine(s);
    } else {
      var l := ls[0];
      var k := |l| - 1;
      var tail := Flatten(ls[1..]) + rest;
      assert s == l + tail;
      assert s[..k] == l[..k];
      LineEndUnique(s, k);
      assert s[..k + 1] == l && s[k + 1..] == tail;
      FramingUnique(tail, ls[1..], rest);
    }
  }

  /** A sample: a line feed ends a line. */
  lemma SampleLines()
    ensures Lines([97, 10, 10, 98]) == [[97, 10], [10]] && Rest([97, 10, 10, 98]) == [98]
  {
    LineEndUnique([97, 10, 10, 98], 1);
    LineEndUnique([10, 98], 0);
    LineEndUnique([98], 1);
    assert [97, 10, 10, 98][2..] == [10, 98] && [10, 98][1..] == [98];
    assert [97, 10, 10, 98][..2] == [97, 10] && [10, 98][..1] == [10];
  }

  /** Streams: only arrivals and `getLine` calls. */
  predicate Streams(op: Op) { op.Append? || op.ReadFd? || op.ReadFdFailed? || op.GetLine? }

  predicate Streaming(ops: seq<Op>) {
    forall i :: 0 <= i < |ops| ==> Streams(ops[i])
  }

  function Arrived(op: Op): seq<Byte> {
    match op
    case Append(data) => data
    case ReadFd(got) => got
    case _ => []
  }

  function Input(ops: seq<Op>): seq<Byte> {
    if ops == [] then [] else Arrived(ops[0]) + Input(ops[1..])
  }

  lemma {:induction false} StreamingIsLegal(q: Queue, ops: seq<Op>)
    requires Streaming(ops)
    ensures LegalRun(q, ops)
    decreases |ops|
  {
    if ops != [] {
      StreamingIsLegal(Next(q, ops[0]), ops[1..]);
    }
  }

  /** At every moment the lines already handed out, followed by the lines still in the queue, are
      the lines of all the input, and the unfinished tail is the tail of all the input. */
  lemma {:induction false} FramingInvariant(q: Queue, ops: seq<Op>)
    requires Streaming(ops)
    ensures LegalRun(q, ops)
    ensures RunLines(q, ops) + Lines(Run(q, ops).bytes) == Lines(q.bytes + Input(ops))
    ensures Rest(Run(q, ops).bytes) == Rest(q.bytes + Input(ops))
    decreases |ops|
  {
    hide Next, Emitted, Legal;
    StreamingIsLegal(q, ops);
    if ops == [] {
      assert q.bytes + [] == q.bytes;
    } else {
      var op, more := ops[0], Input(ops[1..]);
      var q' := Next(q, op);
      FramingInvariant(q', ops[1..]);
      FramingStep(q, op, more);
      var e, ls, left := Emitted(q, op), RunLines(q', ops[1..]), Lines(Run(q', ops[1..]).bytes);
      assert e + ls + left == e + (ls + left);
    }
  }

  /** Taking the first line early gives what taking it after later arrivals gives. */
  lemma TakeLine(s: seq<Byte>, more: seq<Byte>)
    requires LineEnd(s) < |s|
    ensures var k := LineEnd(s);
      && [s[..k + 1]] + Lines(s[k + 1..] + more) == Lines(s + more)
      && Rest(s[k + 1..] + more) == Rest(s + more)
  {
    var k := LineEnd(s);
    assert (s + more)[..k] == s[..k];
    LineEndUnique(s + more, k);
    assert (s + more)[..k + 1] == s[..k + 1];
    assert (s + more)[k + 1..] == s[k + 1..] + more;
  }

  lemma FramingStep(q: Queue, op: Op, more: seq<Byte>)
    requires Streams(op)
    ensures Emitted(q, op) + Lines(Next(q, op).bytes + more) == Lines(q.bytes + (Arrived(op) + more))
    ensures Rest(Next(q, op).bytes + more) == Rest(q.bytes + (Arrived(op) + more))
  {
    hide Lines, Rest, LineEnd;
    var q' := Next(q, op);
    if op.GetLine? {
      assert [] + more == more;
      if LineEnd(q.bytes) < |q.bytes| {
        assert q'.bytes == q.bytes[LineEnd(q.bytes) + 1..];
        TakeLine(q.bytes, more);
      }
    } else {
      assert q'.bytes == q.bytes + Arrived(op);
      assert q'.bytes + more == q.bytes + (Arrived(op) + more);
    }
  }

  /** What a stream of arrivals and `getLine` calls does to an empty queue. */
  function After(ops: seq<Op>): Queue
    requires Streaming(ops)
  {
    StreamingIsLegal(EMPTY, ops);
    Run(EMPTY, ops)
  }

  function Received(ops: seq<Op>): seq<seq<Byte>>
    requires Streaming(ops)
  {
    StreamingIsLegal(EMPTY, ops);
    RunLines(EMPTY, ops)
  }

  /** Framing does not depend on chunking: two streams with the same bytes, however they were cut
      into arrivals and however `getLine` calls were interleaved, agree on the lines and on the
      tail once both have been drained. */
  lemma ChunkingIndependent(ops1: seq<Op>, ops2: seq<Op>)
    requires Streaming(ops1) && Streaming(ops2) && Input(ops1) == Input(ops2)
    requires NEWLINE !in After(ops1).bytes && NEWLINE !in After(ops2).bytes
    ensures Received(ops1) == Received(ops2) == Lines(Input(ops1))
    ensures After(ops1).bytes == After(ops2).bytes == Rest(Input(ops1))
    ensures Framed(Received(ops1), After(ops1).bytes)
  {
    Drained(ops1);
    Drained(ops2);
    SplitIsFramed(Input(ops1));
  }

  lemma Drained(ops: seq<Op>)
    requires Streaming(ops) && NEWLINE !in After(ops).bytes
    ensures Received(ops) == Lines(Input(ops)) && After(ops).bytes == Rest(Input(ops))
  {
    FramingInvariant(EMPTY, ops);
    NoLine(After(ops).bytes);
    assert [] + Input(ops) == Input(ops);
  }
}
