/** `base::FixedBuffer` and `base::LogStream`: a bounded text buffer and in-place formatting of
    integers. */
module LogStreams {

  const SIZE: nat := 4096
  const MAX_NUMERIC: nat := 32

  // ----- decimal notation

  function DigitChar(d: int): char
    requires -10 < d < 10
  {
    ('0' as int + d) as char
  }

  function Decimal(n: nat): string {
    if n < 10 then [DigitChar(n)] else Decimal(n / 10) + [DigitChar(n % 10)]
  }

  /** The digits still to be produced when `u` is left: none once it reaches zero. */
  function Pending(u: int): string {
    if u > 0 then Decimal(u) else []
  }

  function Text(v: int): string {
    if v < 0 then "-" + Decimal(-v) else Decimal(v)
  }

  datatype Option<T> = None | Some(value: T)

  predicate IsDigit(c: char) { '0' <= c <= '9' }

  /** Reads an unsigned decimal number; anything but digits is refused. */
  function ParseNat(s: string): Option<int> {
    if s == [] || !IsDigit(s[|s| - 1]) then None
    else
      var d := s[|s| - 1] as int - '0' as int;
      if |s| == 1 then Some(d)
      else match ParseNat(s[..|s| - 1])
        case None => None
        case Some(n) => Some(10 * n + d)
  }

  function Parse(s: string): Option<int> {
    if s != [] && s[0] == '-' then
      match ParseNat(s[1..])
      case None => None
      case Some(n) => Some(-n)
    else
      match ParseNat(s)
      case None => None
      case Some(n) => Some(n)
  }

  lemma {:induction false} DecimalParses(n: nat)
    ensures Decimal(n) != [] && IsDigit(Decimal(n)[0])
    ensures ParseNat(Decimal(n)) == Some(n)
    ensures n != 0 ==> Decimal(n)[0] != '0'
  {
    if 10 <= n {
      DecimalParses(n / 10);
      assert Decimal(n)[..|Decimal(n)| - 1] == Decimal(n / 10);
    }
  }

  function Pow10(k: nat): nat {
    if k == 0 then 1 else 10 * Pow10(k - 1)
  }

  lemma Pow10Twenty()
    ensures Pow10(20) == 100_000_000_000_000_000_000
  {
    assert Pow10(2) == 100 && Pow10(4) == 1_0000 && Pow10(6) == 100_0000 && Pow10(8) == 1_0000_0000;
    assert Pow10(10) == 100_0000_0000 && Pow10(12) == 1_0000_0000_0000 && Pow10(14) == 100_0000_0000_0000;
    assert Pow10(16) == 1_0000_0000_0000_0000 && Pow10(18) == 100_0000_0000_0000_0000;
  }

  lemma {:induction false} DecimalLength(n: nat, k: nat)
    requires 1 <= k && n < Pow10(k)
    ensures |Decimal(n)| <= k
  {
    if 10 <= n {
      DecimalLength(n / 10, k - 1);
    }
  }

  // ----- the integer types of the overloads

  datatype IntType = Int32 | UInt32 | Int64 | UInt64 {
    predicate Signed() { Int32? || Int64? }
    function Lo(): int {
      match this
      case Int32 => -0x8000_0000
      case Int64 => -0x8000_0000_0000_0000
      case _ => 0
    }
    function Hi(): int {
      match this
      case Int32 => 0x7FFF_FFFF
      case UInt32 => 0xFFFF_FFFF
      case Int64 => 0x7FFF_FFFF_FFFF_FFFF
      case UInt64 => 0xFFFF_FFFF_FFFF_FFFF
    }
    predicate Holds(v: int) { Lo() <= v <= Hi() }

    /** `-v` with two's-complement wrap-around: the least value is its own negation. */
    function Negate(v: int): (r: int)
      requires Holds(v) && v < 0
      ensures Holds(r)
    {
      if v == Lo() then v else -v
    }

    /** The one value that negation does not make positive. */
    predicate Least(v: int) { Signed() && v == Lo() }
  }

  /** C's remainder, which takes the sign of the dividend. */
  function Rem10(v: int): (r: int)
    ensures -10 < r < 10
  {
    if v < 0 then -(-v % 10) else v % 10
  }

  /** C's quotient, which truncates towards zero. */
  function Quot10(v: int): (q: int)
    ensures v > 0 ==> 0 <= q < v
  {
    if v < 0 then -(-v / 10) else v / 10
  }

  /** The characters `formatInteger` leaves in the buffer. */
  function Rendered(t: IntType, v: int): string
    requires t.Holds(v)
  {
    if t.Least(v) then "-" + [DigitChar(Rem10(v))] else Text(v)
  }

  lemma TextLength(t: IntType, v: int)
    requires t.Holds(v)
    ensures 1 <= |Rendered(t, v)| <= 21
  {
    Pow10Twenty();
    var n := if v < 0 then -v else v;
    DecimalLength(n, 20);
    DecimalParses(n);
  }

  /** The text of a number reads back as that number, for exactly the values other than the
      signed minimum, and has no superfluous leading zero. */
  lemma RoundTrip(t: IntType, v: int)
    requires t.Holds(v)
    ensures Parse(Rendered(t, v)) == if t.Least(v) then None else Some(v)
    ensures !t.Least(v) && v < 0 ==> 1 < |Rendered(t, v)| && Rendered(t, v)[..1] == "-" && Rendered(t, v)[1] != '0'
    ensures 0 <= v ==> Rendered(t, v) != [] && (Rendered(t, v)[0] == '0' <==> Rendered(t, v) == "0")
  {
    if t.Least(v) {
      LeastText(t, v);
    } else {
      DecimalParses(if v < 0 then -v else v);
      if v < 0 {
        assert Rendered(t, v)[1..] == Decimal(-v);
      }
    }
  }

  /** The last digit of a minimum is taken from a negative remainder. */
  lemma LeastText(t: IntType, v: int)
    requires t.Least(v)
    ensures t.Holds(v) && v < 0 && Rendered(t, v) == "-(" && Parse("-(") == None
  {
    assert Rem10(v) == -8 && DigitChar(-8) == '(';
    assert "-("[1..] == ['('] && ParseNat(['(']) == None;
  }

  /** Two numbers of any of the integer types print alike if and only if they are equal, or both are
      the minimum of their signed type; a minimum prints like no other number. */
  lemma RenderedInjective(t: IntType, v: int, u: IntType, w: int)
    requires t.Holds(v) && u.Holds(w)
    ensures Rendered(t, v) == Rendered(u, w) <==> t.Least(v) == u.Least(w) && (v == w || t.Least(v))
  {
    RoundTrip(t, v);
    RoundTrip(u, w);
  }

  function Reversed(s: string): (r: string)
    ensures |r| == |s|
  {
    if s == [] then [] else Reversed(s[1..]) + [s[0]]
  }

  lemma {:induction false} ReversedAt(s: string, k: nat)
    requires k < |s|
    ensures Reversed(s)[k] == s[|s| - 1 - k]
  {
    if k < |s| - 1 {
      ReversedAt(s[1..], k);
    }
  }

  lemma ReversedIs(s: string, r: string)
    requires |r| == |s| && forall k :: 0 <= k < |s| ==> r[k] == s[|s| - 1 - k]
    ensures r == Reversed(s)
  {
    forall k | 0 <= k < |s|
      ensures r[k] == Reversed(s)[k]
    {
      ReversedAt(s, k);
    }
  }

  lemma {:induction false} ReversedSnoc(s: string, c: char)
    ensures Reversed(s + [c]) == [c] + Reversed(s)
  {
    if s != [] {
      assert (s + [c])[1..] == s[1..] + [c];
      ReversedSnoc(s[1..], c);
    }
  }

  /** What the digit loop has to produce from `v`, high digit first. */
  function Produced(v: int): string {
    if v < 0 then [DigitChar(Rem10(v))] else Decimal(v)
  }

  lemma ProducedLength(v: int)
    requires v < 100_000_000_000_000_000_000
    ensures |Produced(v)| <= 20
  {
    Pow10Twenty();
    if v >= 0 {
      DecimalLength(v, 20);
    }
  }

  lemma RenderedParts(t: IntType, v: int)
    requires t.Holds(v)
    ensures Rendered(t, v) == if v < 0 then ['-'] + Produced(t.Negate(v)) else Produced(v)
  {
  }

  /** With `done` written, low digit first, and `u` left, the digits of `v` will come out right. */
  ghost predicate OnTheWay(v: int, u: int, done: string) {
    Produced(v) == Pending(u) + Reversed(done)
  }

  lemma FirstDigit(v: int)
    ensures OnTheWay(v, Quot10(v), [DigitChar(Rem10(v))])
  {
    assert Reversed([DigitChar(Rem10(v))]) == [DigitChar(Rem10(v))];
  }

  /** One round writes the lowest digit of what is left, and there was room for it. */
  lemma NextDigit(v: int, u: int, done: string)
    requires u > 0 && OnTheWay(v, u, done)
    ensures OnTheWay(v, Quot10(u), done + [DigitChar(Rem10(u))])
    ensures |done| < |Produced(v)|
  {
    var c := DigitChar(Rem10(u));
    ReversedSnoc(done, c);
    LowestPending(u);
    hide Reversed, Pending, Produced;
    assert Pending(Quot10(u)) + [c] + Reversed(done) == Pending(Quot10(u)) + ([c] + Reversed(done));
    assert |Produced(v)| == |Pending(u)| + |Reversed(done)|;
  }

  lemma LowestPending(u: int)
    requires u > 0
    ensures Pending(u) == Pending(Quot10(u)) + [DigitChar(Rem10(u))]
  {
  }

  lemma LastDigit(v: int, u: int, done: string)
    requires u <= 0 && OnTheWay(v, u, done)
    ensures Reversed(done) == Produced(v)
  {
  }

  // ----- the stream

  /** What is sent to the stream: text, or a number of one of the integer types. */
  datatype Item = Str(text: string) | Num(t: IntType, v: int)

  predicate WellTyped(item: Item) { item.Num? ==> item.t.Holds(item.v) }

  /** Each item is taken whole or not at all. */
  function Accept(content: string, item: Item): (r: string)
    requires |content| < SIZE && WellTyped(item)
    ensures |r| < SIZE
  {
    match item
    case Str(text) => if SIZE - |content| > |text| then content + text else content
    case Num(t, v) =>
      TextLength(t, v);
      if SIZE - |content| >= MAX_NUMERIC then content + Rendered(t, v) else content
  }

  function AcceptAll(content: string, items: seq<Item>): (r: string)
    requires |content| < SIZE && forall i :: 0 <= i < |items| ==> WellTyped(items[i])
    ensures |r| < SIZE
    decreases |items|
  {
    if items == [] then content else AcceptAll(Accept(content, items[0]), items[1..])
  }

  /** Room that surely suffices for an item: its length, or the reserve for a number. */
  function Need(item: Item): nat {
    match item case Str(text) => |text| case Num(_, _) => MAX_NUMERIC
  }

  function TextOf(item: Item): string
    requires WellTyped(item)
  {
    match item case Str(text) => text case Num(t, v) => Rendered(t, v)
  }

  function NeedAll(items: seq<Item>): nat {
    if items == [] then 0 else Need(items[0]) + NeedAll(items[1..])
  }

  function TextOfAll(items: seq<Item>): string
    requires forall i :: 0 <= i < |items| ==> WellTyped(items[i])
  {
    if items == [] then [] else TextOf(items[0]) + TextOfAll(items[1..])
  }

  /** An item is appended if there is room for it, and otherwise leaves no trace: for text, a byte
      has to be left over; for a number, the reserve has to be free. */
  lemma AcceptedIffRoom(content: string, item: Item)
    requires |content| < SIZE && WellTyped(item)
    ensures Accept(content, item) ==
      if (if item.Str? then |content| + |item.text| < SIZE else |content| + MAX_NUMERIC <= SIZE)
      then content + TextOf(item) else content
  {
  }

  /** Nothing is lost while there is room: items whose needs add up to less than what is free are
      all there afterwards, in order. */
  lemma {:induction false} AllAccepted(content: string, items: seq<Item>)
    requires |content| < SIZE && forall i :: 0 <= i < |items| ==> WellTyped(items[i])
    requires |content| + NeedAll(items) < SIZE
    ensures AcceptAll(content, items) == content + TextOfAll(items)
    decreases |items|
  {
    if items == [] {
      assert content + [] == content;
    } else {
      var item := items[0];
      AcceptedIffRoom(content, item);
      if item.Num? {
        TextLength(item.t, item.v);
      }
      AllAccepted(content + TextOf(item), items[1..]);
      assert content + TextOf(item) + TextOfAll(items[1..]) == content + (TextOf(item) + TextOfAll(items[1..]));
    }
  }

  /** Sample texts. */
  lemma Samples()
    ensures Rendered(Int32, 0) == "0" && Rendered(UInt64, 1024) == "1024" && Rendered(Int64, -90) == "-90"
  {
    assert Decimal(1) == "1" && Decimal(10) == "10" && Decimal(102) == "102" && Decimal(1024) == "1024";
    assert Decimal(9) == "9" && Decimal(90) == "90";
  }

  class LogStream {
    const data: array<char>
    var cur: nat

    /** There is always room for one more character: the terminator. */
    ghost predicate Valid()
      reads this
    {
      data.Length == SIZE && cur < SIZE
    }

    ghost function Contents(): string
      requires Valid()
      reads this, data
    {
      data[..cur]
    }

    constructor ()
      ensures Valid() && Contents() == [] && fresh(data)
    {
      data := new char[SIZE];
      cur := 0;
    }

    function Avail(): nat
      requires Valid()
      reads this
    {
      SIZE - cur
    }

    method Append(text: string)
      requires Valid()
      modifies this, data
      ensures Valid() && Contents() == Accept(old(Contents()), Str(text))
      ensures Contents() == if |text| < 4096 - |old(Contents())| then old(Contents()) + text else old(Contents())
    {
      if Avail() > |text| {
        var i := 0;
        while i < |text|
          modifies data
          invariant i <= |text| && data[..cur + i] == old(data[..cur]) + text[..i]
        {
          data[cur + i] := text[i];
          i := i + 1;
        }
        cur := cur + |text|;
      }
    }

    /** Only the characters in `data[lo..hi]` may have changed. */
    twostate predicate OnlyWithin(lo: nat, hi: nat)
      reads data
    {
      forall k :: 0 <= k < data.Length && !(lo <= k < hi) ==> data[k] == old(data[k])
    }

    /** `std::reverse` on `data[lo..hi]`. */
    method Reverse(lo: nat, hi: nat)
      requires lo <= hi <= data.Length
      modifies data
      ensures data[lo..hi] == Reversed(old(data[lo..hi])) && OnlyWithin(lo, hi)
    {
      ghost var was := data[lo..hi];
      var i, j := lo, hi;
      while i + 1 < j
        invariant lo <= i <= j <= hi && i - lo == hi - j && OnlyWithin(lo, hi)
        invariant forall k :: i <= k < j ==> data[k] == was[k - lo]
        invariant forall k :: lo <= k < i || j <= k < hi ==> data[k] == was[hi - 1 - k]
      {
        j := j - 1;
        data[i], data[j] := data[j], data[i];
        i := i + 1;
      }
      ReversedIs(was, data[lo..hi]);
    }

    /** Formats in place when the reserved bytes are there; the writes stay within them. */
    method FormatInteger(t: IntType, v: int)
      requires Valid() && t.Holds(v)
      modifies this, data
      ensures Valid() && Contents() == Accept(old(Contents()), Num(t, v))
      ensures Contents() == if 32 <= 4096 - |old(Contents())| then old(Contents()) + Rendered(t, v) else old(Contents())
      ensures OnlyWithin(old(cur), old(cur) + MAX_NUMERIC)
      ensures cur != old(cur) ==> data[cur] == '\0'
    {
      TextLength(t, v);
      AcceptedIffRoom(Contents(), Num(t, v));
      hide Rendered, Accept;
      if Avail() >= MAX_NUMERIC {
        ghost var before, start := Contents(), cur;
        var buf := Render(cur, t, v);
        cur := cur + (buf - cur);
        assert data[..start] == before;
        assert data[..cur] == data[..start] + data[start..cur];
      }
    }

    /** The digit loop, the sign, the terminator and the reversal. */
    method Render(start: nat, t: IntType, v: int) returns (buf: nat)
      requires t.Holds(v) && start + MAX_NUMERIC <= data.Length
      modifies data
      ensures start <= buf < start + MAX_NUMERIC && data[start..buf] == Rendered(t, v) && data[buf] == '\0'
      ensures OnlyWithin(start, start + MAX_NUMERIC)
    {
      var u := if v < 0 then t.Negate(v) else v;
      ProducedLength(u);
      buf := Digits(start, u);
      if v < 0 {
        ghost var done := data[start..buf];
        ReversedSnoc(done, '-');
        data[buf] := '-';
        buf := buf + 1;
        assert data[start..buf] == done + ['-'];
      }
      RenderedParts(t, v);
      data[buf] := '\0';
      Reverse(start, buf);
    }

    /** `*buf++ = c`: the characters from `start` on grow by one. */
    method Put(start: nat, buf: nat, c: char)
      requires start <= buf < data.Length
      modifies data
      ensures data[start..buf + 1] == old(data[start..buf]) + [c] && OnlyWithin(buf, buf + 1)
    {
      data[buf] := c;
    }

    /** The do-while loop: low digits first, at least one.  A negative value, which only the
        signed minimum leaves here, stops after one round. */
    method Digits(start: nat, v: int) returns (buf: nat)
      requires start + MAX_NUMERIC <= data.Length && |Produced(v)| <= 20
      modifies data
      ensures start < buf <= start + 20 && Reversed(data[start..buf]) == Produced(v)
      ensures OnlyWithin(start, start + 20)
    {
      var u := Quot10(v);
      Put(start, start, DigitChar(Rem10(v)));
      buf := start + 1;
      ghost var done := [DigitChar(Rem10(v))];
      FirstDigit(v);
      hide Produced, OnTheWay, Reversed, Rem10, Quot10, DigitChar;
      while u > 0
        invariant start < buf <= start + 20 && OnlyWithin(start, start + 20)
        invariant data[start..buf] == done && OnTheWay(v, u, done)
      {
        NextDigit(v, u, done);
        var c := DigitChar(Rem10(u));
        Put(start, buf, c);
        buf := buf + 1;
        done := done + [c];
        u := Quot10(u);
      }
      LastDigit(v, u, done);
    }

    /** Any mix of text and numbers: the buffer holds exactly the items that fitted, in order,
        and is never overrun.  If there is room for all of them, all of them are there. */
    method LogAll(items: seq<Item>)
      requires Valid() && forall i :: 0 <= i < |items| ==> WellTyped(items[i])
      modifies this, data
      ensures Valid() && Contents() == AcceptAll(old(Contents()), items)
      ensures |old(Contents())| + NeedAll(items) < 4096 ==> Contents() == old(Contents()) + TextOfAll(items)
    {
      hide Accept, NeedAll, TextOfAll;
      if |Contents()| + NeedAll(items) < SIZE {
        AllAccepted(Contents(), items);
      }
      var i := 0;
      assert items[0..] == items;
      while i < |items|
        invariant i <= |items| && Valid()
        invariant AcceptAll(Contents(), items[i..]) == AcceptAll(old(Contents()), items)
      {
        assert items[i..][0] == items[i] && items[i..][1..] == items[i + 1..];
        match items[i] {
          case Str(text) => Append(text);
          case Num(t, v) => FormatInteger(t, v);
        }
        i := i + 1;
      }
    }
  }
}
