/** `net::Buffer`: a byte vector with a prepend area, in-place compaction, growth and a scatter
    read, proved to behave as the plain byte queue of module `ByteQueue`. */
module Buffers {
  import opened ByteQueue

  const INITIAL_SIZE: nat := 1024
  const EXTRA_SIZE: nat := 65536

  /** What `readv` did: delivered bytes, or failed with an errno. */
  datatype ReadResult = Got(bytes: seq<Byte>) | ReadError(errno: int)

  class Buffer {
    var data: array<Byte>
    var readerIndex: nat
    var writerIndex: nat

    /** The largest value of readable bytes plus requested length seen so far. */
    ghost var peak: nat

    ghost predicate Valid()
      reads this
    {
      && readerIndex <= writerIndex <= data.Length
      && INITIAL_SIZE <= data.Length <= Max(INITIAL_SIZE, 2 * peak + 7)
    }

    /** The readable bytes, from `peek()` on. */
    function Contents(): seq<Byte>
      requires Valid()
      reads this, data
    {
      data[readerIndex..writerIndex]
    }

    /** This buffer stands for the abstract queue `q`. */
    ghost predicate Represents(q: Queue)
      reads this, data
    {
      Valid() && Contents() == q.bytes && q.room <= readerIndex
    }

    constructor ()
      ensures Represents(EMPTY) && peak == 0 && fresh(data)
    {
      data := new Byte[INITIAL_SIZE](_ => 0);
      readerIndex, writerIndex := CHEAP_PREPEND, CHEAP_PREPEND;
      peak := 0;
    }

    function ReadableBytes(): nat
      requires Valid()
      reads this
    {
      writerIndex - readerIndex
    }

    function WritableBytes(): nat
      requires Valid()
      reads this
    {
      data.Length - writerIndex
    }

    method RetrieveAll()
      requires Valid()
      modifies this`readerIndex, this`writerIndex
      ensures Represents(EMPTY) && readerIndex == writerIndex == CHEAP_PREPEND
    {
      readerIndex, writerIndex := CHEAP_PREPEND, CHEAP_PREPEND;
    }

    method Retrieve(len: nat)
      requires Valid() && len <= ReadableBytes()
      modifies this`readerIndex, this`writerIndex
      ensures Valid() && Contents() == old(Contents())[len..]
      ensures readerIndex == if len < old(ReadableBytes()) then old(readerIndex) + len else CHEAP_PREPEND
    {
      if len < ReadableBytes() {
        readerIndex := readerIndex + len;
      } else {
        RetrieveAll();
      }
    }

    method RetrieveAsString(len: nat) returns (result: seq<Byte>)
      requires Valid() && len <= ReadableBytes()
      modifies this`readerIndex, this`writerIndex
      ensures Valid() && result + Contents() == old(Contents()) && |result| == len
    {
      result := Contents()[..len];
      Retrieve(len);
    }

    /** The forward copy of `std::copy` from `src` to a lower position `dst` in the same vector. */
    method MoveDown(src: nat, dst: nat, len: nat)
      requires dst <= src && src + len <= data.Length
      modifies data
      ensures data[dst..dst + len] == old(data[src..src + len])
    {
      var i := 0;
      while i < len
        invariant i <= len
        invariant data[dst..dst + i] == old(data[src..src + i])
        invariant data[src + i..src + len] == old(data[src + i..src + len])
      {
        assert data[src + i] == old(data[src + i..src + len])[0];
        data[dst + i] := data[src + i];
        i := i + 1;
      }
    }

    /** `resize` to a larger length: new storage with the old bytes in front. */
    method Resize(size: nat)
      requires data.Length <= size
      modifies this`data
      ensures fresh(data) && data.Length == size && data[..old(data.Length)] == old(data[..])
    {
      var was, bigger := data, new Byte[size](_ => 0);
      var i := 0;
      while i < was.Length
        modifies bigger
        invariant i <= was.Length <= bigger.Length && bigger[..i] == was[..i]
      {
        bigger[i] := was[i];
        i := i + 1;
      }
      data := bigger;
    }

    /** Grows the storage, or slides the bytes down to the prepend mark.  The assert of the
        second branch holds because the caller comes here only when the tail is too short. */
    method MakeSpace(len: nat)
      requires Valid() && WritableBytes() < len && ReadableBytes() + len <= peak
      modifies this`data, this`readerIndex, this`writerIndex, data
      ensures Valid() && Contents() == old(Contents()) && len <= WritableBytes()
      ensures fresh(data) || data == old(data)
      ensures old(data.Length) <= data.Length
      ensures Min(old(readerIndex), CHEAP_PREPEND) <= readerIndex
    {
      if readerIndex + WritableBytes() < len + CHEAP_PREPEND {
        ghost var was := data[..];
        Resize(writerIndex + len);
        assert forall k :: 0 <= k < |was| ==> data[k] == data[..|was|][k] == was[k];
      } else {
        assert CHEAP_PREPEND < readerIndex;
        var size := ReadableBytes();
        MoveDown(readerIndex, CHEAP_PREPEND, size);
        readerIndex := CHEAP_PREPEND;
        writerIndex := readerIndex + size;
        assert size == ReadableBytes();
      }
    }

    method EnsureWritableBytes(len: nat)
      requires Valid()
      modifies this, data
      ensures Valid() && Contents() == old(Contents()) && len <= WritableBytes()
      ensures peak == Max(old(peak), old(ReadableBytes()) + len)
      ensures fresh(data) || data == old(data)
      ensures old(data.Length) <= data.Length
      ensures Min(old(readerIndex), CHEAP_PREPEND) <= readerIndex
    {
      peak := Max(peak, ReadableBytes() + len);
      if WritableBytes() < len {
        MakeSpace(len);
      }
      assert len <= WritableBytes();
    }

    /** `std::copy` of outside bytes into the vector at `at`. */
    method CopyIn(at: nat, bytes: seq<Byte>)
      requires at + |bytes| <= data.Length
      modifies data
      ensures data[..at] == old(data[..at]) && data[at..at + |bytes|] == bytes
      ensures data[at + |bytes|..] == old(data[at + |bytes|..])
    {
      var i := 0;
      while i < |bytes|
        invariant i <= |bytes|
        invariant data[..at] == old(data[..at]) && data[at..at + i] == bytes[..i]
        invariant data[at + |bytes|..] == old(data[at + |bytes|..])
      {
        data[at + i] := bytes[i];
        i := i + 1;
      }
    }

    method HasWritten(len: nat)
      requires Valid() && len <= WritableBytes()
      modifies this`writerIndex
      ensures Valid() && writerIndex == old(writerIndex) + len
    {
      writerIndex := writerIndex + len;
    }

    /** Bytes arrive at the writer, and the writer moves past them. */
    method Fill(bytes: seq<Byte>)
      requires Valid() && |bytes| <= WritableBytes()
      modifies this`writerIndex, data
      ensures Valid() && Contents() == old(Contents()) + bytes && writerIndex == old(writerIndex) + |bytes|
    {
      ghost var at, was := writerIndex, Contents();
      assert was == data[..at][readerIndex..];
      CopyIn(writerIndex, bytes);
      HasWritten(|bytes|);
      assert Contents() == data[..at][readerIndex..] + data[at..at + |bytes|];
    }

    method Append(bytes: seq<Byte>)
      requires Valid()
      modifies this, data
      ensures Valid() && Contents() == old(Contents()) + bytes
      ensures peak == Max(old(peak), old(ReadableBytes()) + |bytes|)
      ensures fresh(data) || data == old(data)
      ensures old(data.Length) <= data.Length
      ensures Min(old(readerIndex), CHEAP_PREPEND) <= readerIndex
    {
      EnsureWritableBytes(|bytes|);
      Fill(bytes);
    }

    method Prepend(bytes: seq<Byte>)
      requires Valid() && |bytes| <= readerIndex
      modifies this`readerIndex, data
      ensures Valid() && Contents() == bytes + old(Contents())
      ensures readerIndex == old(readerIndex) - |bytes|
    {
      ghost var at, was := readerIndex, Contents();
      assert was == data[at..][..writerIndex - at];
      readerIndex := readerIndex - |bytes|;
      CopyIn(readerIndex, bytes);
      assert data[at..writerIndex] == data[at..][..writerIndex - at] == was;
      assert Contents() == data[readerIndex..at] + data[at..writerIndex];
    }

    /** `memchr` for the newline over the readable bytes. */
    method FindNewline() returns (k: nat)
      requires Valid()
      ensures k == LineEnd(Contents())
    {
      k := 0;
      while k < ReadableBytes() && data[readerIndex + k] != NEWLINE
        invariant k <= ReadableBytes() && NEWLINE !in Contents()[..k]
      {
        assert Contents()[..k + 1] == Contents()[..k] + [data[readerIndex + k]];
        k := k + 1;
      }
      LineEndUnique(Contents(), k);
    }

    method GetLine() returns (line: seq<seq<Byte>>)
      requires Valid()
      modifies this`readerIndex, this`writerIndex
      ensures Valid()
      ensures var s := old(Contents()); var k := LineEnd(s);
        if k < |s| then line == [s[..k + 1]] && Contents() == s[k + 1..] &&
                        readerIndex == (if k + 1 < |s| then old(readerIndex) + (k + 1) else CHEAP_PREPEND)
        else line == [] && Contents() == s && readerIndex == old(readerIndex)
    {
      var k := FindNewline();
      if k == ReadableBytes() {
        return [];
      }
      line := [Contents()[..k + 1]];
      Retrieve(k + 1);
    }

    /** How many bytes `readv` is offered: the tail of the vector, plus the stack buffer when
        that tail is the smaller of the two. */
    function Offered(): (n: nat)
      requires Valid()
      reads this
      ensures 65536 <= n && data.Length - writerIndex <= n
      ensures n == data.Length - writerIndex || n == data.Length - writerIndex + 65536
    {
      WritableBytes() + if WritableBytes() < EXTRA_SIZE then EXTRA_SIZE else 0
    }

    method ReadFd(result: ReadResult) returns (n: int)
      requires Valid() && (result.Got? ==> |result.bytes| <= Offered())
      modifies this, data
      ensures Valid() && Contents() == old(Contents()) + if result.Got? then result.bytes else []
      ensures result.Got? ==> n == |result.bytes|
      ensures result.ReadError? ==> n < 0 && readerIndex == old(readerIndex)
      ensures old(peak) <= peak
      ensures result.Got? ==> peak <= Max(old(peak), old(ReadableBytes()) + |result.bytes|)
      ensures result.ReadError? ==> peak == old(peak)
      ensures fresh(data) || data == old(data)
      ensures old(data.Length) <= data.Length
      ensures Min(old(readerIndex), CHEAP_PREPEND) <= readerIndex
    {
      match result
      case ReadError(_) =>
        n := -1;
      case Got(bytes) =>
        n := |bytes|;
        var writable := WritableBytes();
        if |bytes| <= writable {
          Fill(bytes);
        } else {
          Fill(bytes[..writable]);
          Append(bytes[writable..]);
          assert bytes == bytes[..writable] + bytes[writable..];
        }
    }

    /** The prepend area is large enough, which the source asserts, and a read delivers no more than
        it was offered. */
    predicate Fits(op: Op)
      requires Valid()
      reads this
    {
      match op
      case Prepend(head) => |head| <= readerIndex
      case ReadFd(got) => |got| <= Offered()
      case _ => true
    }

    /** One operation of the queue, carried out on the vector. */
    method Perform(op: Op, ghost q: Queue) returns (line: seq<seq<Byte>>)
      requires Represents(q) && Legal(q, op) && Fits(op)
      modifies this, data
      ensures Represents(Next(q, op)) && line == Emitted(q, op)
      ensures old(peak) <= peak <= Max(old(peak), Demand(q, op))
      ensures old(data.Length) <= data.Length
      ensures fresh(data) || data == old(data)
    {
      hide LineEnd;
      line := [];
      match op
      case Append(bytes) => Append(bytes);
      case Reserve(len) => EnsureWritableBytes(len);
      case Prepend(head) => Prepend(head);
      case Retrieve(n) => Retrieve(n);
      case RetrieveAll => RetrieveAll();
      case ReadFd(got) => var _ := ReadFd(Got(got));
      case ReadFdFailed => var _ := ReadFd(ReadError(11));
      case GetLine => line := GetLine();
    }
  }

  /** Refinement over whole runs: any sequence of calls leaves exactly the bytes, and hands out
      exactly the lines, of the plain byte queue; the storage never shrinks below its first size
      and is bounded by twice the largest demand of the run.  The replay stops only before a
      prepend that the source refuses, which has to be longer than the sure room of the queue, or
      before a read that would deliver more than it was offered. */
  method Replay(ops: seq<Op>) returns (b: Buffer, lines: seq<seq<Byte>>, done: nat)
    requires LegalRun(EMPTY, ops)
    ensures done <= |ops| && LegalRun(EMPTY, ops[..done])
    ensures b.Represents(Run(EMPTY, ops[..done])) && lines == RunLines(EMPTY, ops[..done])
    ensures b.data.Length <= Max(1024, 2 * RunDemand(EMPTY, ops[..done]) + 7)
    ensures done < |ops| ==> !b.Fits(ops[done])
    ensures done < |ops| && ops[done].Prepend? ==> Run(EMPTY, ops[..done]).room < |ops[done].head|
  {
    hide Next, Emitted, Demand;
    b := new Buffer();
    lines, done := [], 0;
    ghost var q := EMPTY;
    assert ops[0..] == ops;
    while done < |ops| && b.Fits(ops[done])
      invariant done <= |ops| && fresh(b) && fresh(b.data)
      invariant LegalRun(EMPTY, ops[..done]) && q == Run(EMPTY, ops[..done]) && LegalRun(q, ops[done..])
      invariant b.Represents(q) && lines == RunLines(EMPTY, ops[..done])
      invariant b.peak <= RunDemand(EMPTY, ops[..done])
    {
      assert ops[done..][0] == ops[done] && ops[done..][1..] == ops[done + 1..];
      assert ops[..done + 1] == ops[..done] + [ops[done]];
      RunSnoc(EMPTY, ops[..done], ops[done]);
      var line := b.Perform(ops[done], q);
      lines := lines + line;
      q := Next(q, ops[done]);
      done := done + 1;
    }
  }
}
