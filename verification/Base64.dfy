/** Base64 as section 4 of RFC 4648 defines it. */
module Base64 {
  import opened Wrappers

  type Byte = b: int | 0 <= b < 256
  type Sextet = d: int | 0 <= d < 64

  const PAD: char := '='

  function Symbol(d: Sextet): char {
    if d < 26 then ('A' as int + d) as char
    else if d < 52 then ('a' as int + d - 26) as char
    else if d < 62 then ('0' as int + d - 52) as char
    else if d == 62 then '+' else '/'
  }

  function Value(c: char): Option<Sextet> {
    if 'A' <= c <= 'Z' then Some(c as int - 'A' as int)
    else if 'a' <= c <= 'z' then Some(c as int - 'a' as int + 26)
    else if '0' <= c <= '9' then Some(c as int - '0' as int + 52)
    else if c == '+' then Some(62)
    else if c == '/' then Some(63)
    else None
  }

  predicate IsSymbol(c: char) {
    Value(c).Some?
  }

  // A group of three bytes is four sextets.

  function Second(x: Byte, y: Byte): Sextet {
    x % 4 * 16 + y / 16
  }

  function Third(y: Byte, z: Byte): Sextet {
    y % 16 * 4 + z / 64
  }

  function Encode(data: seq<Byte>): string {
    if |data| == 0 then ""
    else if |data| == 1 then [Symbol(data[0] / 4), Symbol(Second(data[0], 0)), PAD, PAD]
    else if |data| == 2 then [Symbol(data[0] / 4), Symbol(Second(data[0], data[1])), Symbol(Third(data[1], 0)), PAD]
    else Quad(data[0], data[1], data[2]) + Encode(data[3..])
  }

  function Quad(x: Byte, y: Byte, z: Byte): string {
    [Symbol(x / 4), Symbol(Second(x, y)), Symbol(Third(y, z)), Symbol(z % 64)]
  }

  function First(a: Sextet, b: Sextet): Byte {
    a * 4 + b / 16
  }

  function Middle(b: Sextet, c: Sextet): Byte {
    b % 16 * 16 + c / 4
  }

  function Last(c: Sextet, d: Sextet): Byte {
    c % 4 * 64 + d
  }

  /** The bytes of one group; only the last one may be padded. */
  function DecodeGroup(p: char, q: char, r: char, s: char, last: bool): Option<seq<Byte>> {
    var a, b, c, d := Value(p), Value(q), Value(r), Value(s);
    if a.None? || b.None? then None
    else if c.Some? && d.Some? then Some([First(a.value, b.value), Middle(b.value, c.value), Last(c.value, d.value)])
    else if !last || s != PAD then None
    else if c.Some? then Some([First(a.value, b.value), Middle(b.value, c.value)])
    else if r == PAD then Some([First(a.value, b.value)])
    else None
  }

  function Decode(s: string): Option<seq<Byte>> {
    if s == "" then Some([])
    else if |s| < 4 then None
    else
      var head, tail := DecodeGroup(s[0], s[1], s[2], s[3], |s| == 4), Decode(s[4..]);
      if head.None? || tail.None? then None else Some(head.value + tail.value)
  }

  lemma SymbolValue(d: Sextet)
    ensures Value(Symbol(d)) == Some(d) && Symbol(d) != PAD
  {
  }

  lemma ValueSymbol(c: char)
    requires IsSymbol(c)
    ensures Symbol(Value(c).value) == c
  {
  }

  lemma BytesRecovered(x: Byte, y: Byte, z: Byte)
    ensures First(x / 4, Second(x, y)) == x
    ensures Middle(Second(x, y), Third(y, z)) == y
    ensures Last(Third(y, z), z % 64) == z
  {
  }

  lemma SextetsRecovered(a: Sextet, b: Sextet, c: Sextet, d: Sextet)
    ensures First(a, b) / 4 == a
    ensures Second(First(a, b), Middle(b, c)) == b
    ensures Third(Middle(b, c), Last(c, d)) == c
    ensures Last(c, d) % 64 == d
  {
  }

  lemma FullGroup(x: Byte, y: Byte, z: Byte, last: bool)
    ensures DecodeGroup(Symbol(x / 4), Symbol(Second(x, y)), Symbol(Third(y, z)), Symbol(z % 64), last)
            == Some([x, y, z])
  {
    SymbolValue(x / 4);
    SymbolValue(Second(x, y));
    SymbolValue(Third(y, z));
    SymbolValue(z % 64);
    BytesRecovered(x, y, z);
  }

  lemma PaddedTwice(p: Sextet, q: Sextet)
    ensures Decode([Symbol(p), Symbol(q), PAD, PAD]) == Some([First(p, q)])
  {
    SymbolValue(p);
    SymbolValue(q);
    assert [Symbol(p), Symbol(q), PAD, PAD][4..] == "" && [First(p, q)] + [] == [First(p, q)];
  }

  lemma PaddedOnce(p: Sextet, q: Sextet, r: Sextet)
    ensures Decode([Symbol(p), Symbol(q), Symbol(r), PAD]) == Some([First(p, q), Middle(q, r)])
  {
    SymbolValue(p);
    SymbolValue(q);
    SymbolValue(r);
    assert [Symbol(p), Symbol(q), Symbol(r), PAD][4..] == "";
    assert [First(p, q), Middle(q, r)] + [] == [First(p, q), Middle(q, r)];
  }

  lemma OneByte(x: Byte)
    ensures Decode([Symbol(x / 4), Symbol(Second(x, 0)), PAD, PAD]) == Some([x])
  {
    PaddedTwice(x / 4, Second(x, 0));
    assert First(x / 4, Second(x, 0)) == x by { BytesRecovered(x, 0, 0); }
  }

  lemma TwoBytes(x: Byte, y: Byte)
    ensures Decode([Symbol(x / 4), Symbol(Second(x, y)), Symbol(Third(y, 0)), PAD]) == Some([x, y])
  {
    PaddedOnce(x / 4, Second(x, y), Third(y, 0));
    assert First(x / 4, Second(x, y)) == x by { BytesRecovered(x, y, 0); }
    assert Middle(Second(x, y), Third(y, 0)) == y by { BytesRecovered(x, y, 0); }
  }

  lemma ShortData(data: seq<Byte>)
    requires 0 < |data| < 3
    ensures Decode(Encode(data)) == Some(data)
  {
    if |data| == 1 {
      OneByte(data[0]);
      assert data == [data[0]];
    } else {
      TwoBytes(data[0], data[1]);
      assert data == [data[0], data[1]];
    }
  }

  lemma FirstGroup(x: Byte, y: Byte, z: Byte, rest: string)
    requires Decode(rest).Some?
    ensures Decode(Quad(x, y, z) + rest) == Some([x, y, z] + Decode(rest).value)
  {
    var s := Quad(x, y, z) + rest;
    FullGroup(x, y, z, |s| == 4);
    assert s[4..] == rest;
  }

  lemma {:induction false} DecodeEncode(data: seq<Byte>)
    ensures Decode(Encode(data)) == Some(data)
  {
    if data == [] {
    } else if |data| < 3 {
      ShortData(data);
    } else {
      DecodeEncode(data[3..]);
      FirstGroup(data[0], data[1], data[2], Encode(data[3..]));
      assert [data[0], data[1], data[2]] + data[3..] == data;
    }
  }

  /** A group that is not the last, or that gave three bytes, has four symbols and one spelling. */
  lemma GroupSpelled(p: char, q: char, r: char, s: char, last: bool)
    requires DecodeGroup(p, q, r, s, last).Some?
    requires var bytes := DecodeGroup(p, q, r, s, last).value; last ==> |bytes| == 3
    ensures var bytes := DecodeGroup(p, q, r, s, last).value;
            |bytes| == 3 && Quad(bytes[0], bytes[1], bytes[2]) == [p, q, r, s]
    ensures IsSymbol(p) && IsSymbol(q) && IsSymbol(r) && IsSymbol(s)
  {
    SextetsRecovered(Value(p).value, Value(q).value, Value(r).value, Value(s).value);
    ValueSymbol(p);
    ValueSymbol(q);
    ValueSymbol(r);
    ValueSymbol(s);
  }

  lemma GroupPrepended(head: seq<Byte>, rest: seq<Byte>)
    requires |head| == 3
    ensures Encode(head + rest) == Quad(head[0], head[1], head[2]) + Encode(rest)
  {
    assert (head + rest)[3..] == rest;
  }

  predicate Whole(data: Option<seq<Byte>>) {
    data.Some? && |data.value| % 3 == 0
  }

  lemma LessThree(n: nat)
    ensures (n + 3) % 3 == n % 3
  {
  }

  /** Where the bytes fill whole groups the last group is not padded. */
  lemma HeadIsFull(s: string)
    requires s != "" && Whole(Decode(s))
    ensures |s| >= 4 && DecodeGroup(s[0], s[1], s[2], s[3], |s| == 4).Some? && Decode(s[4..]).Some?
    ensures Decode(s).value == DecodeGroup(s[0], s[1], s[2], s[3], |s| == 4).value + Decode(s[4..]).value
    ensures |s| == 4 ==> |DecodeGroup(s[0], s[1], s[2], s[3], true).value| == 3
  {
    if |s| == 4 {
      assert s[4..] == "";
      assert Decode(s).value == DecodeGroup(s[0], s[1], s[2], s[3], true).value + [];
    }
  }

  /** The first group of a string whose bytes fill whole groups. */
  lemma FirstGroupSpelled(s: string) returns (x: Byte, y: Byte, z: Byte)
    requires s != "" && Whole(Decode(s))
    ensures |s| >= 4 && Whole(Decode(s[4..])) && Decode(s).value == [x, y, z] + Decode(s[4..]).value
    ensures s == Quad(x, y, z) + s[4..]
    ensures IsSymbol(s[0]) && IsSymbol(s[1]) && IsSymbol(s[2]) && IsSymbol(s[3])
  {
    HeadIsFull(s);
    var head := DecodeGroup(s[0], s[1], s[2], s[3], |s| == 4).value;
    GroupSpelled(s[0], s[1], s[2], s[3], |s| == 4);
    LessThree(|Decode(s[4..]).value|);
    x, y, z := head[0], head[1], head[2];
    assert head == [x, y, z];
    assert s == [s[0], s[1], s[2], s[3]] + s[4..];
  }

  /** A string whose bytes fill whole groups is the only spelling of them. */
  lemma {:induction false} EncodeDecode(s: string)
    requires Whole(Decode(s))
    ensures Encode(Decode(s).value) == s
  {
    if s == "" {
    } else {
      var x, y, z := FirstGroupSpelled(s);
      EncodeDecode(s[4..]);
      GroupPrepended([x, y, z], Decode(s[4..]).value);
    }
  }

  /** It carries no padding. */
  lemma {:induction false} OnlySymbols(s: string) returns (groups: nat)
    requires Whole(Decode(s))
    ensures |s| == 4 * groups && |Decode(s).value| == 3 * groups
    ensures forall i :: 0 <= i < |s| ==> IsSymbol(s[i])
  {
    groups := 0;
    if s == "" {
    } else {
      var x, y, z := FirstGroupSpelled(s);
      groups := OnlySymbols(s[4..]);
      groups := groups + 1;
      forall i | 0 <= i < |s|
        ensures IsSymbol(s[i])
      {
        if i >= 4 { assert s[i] == s[4..][i - 4]; }
      }
    }
  }

  lemma {:induction false} SymbolsDecode(s: string)
    requires |s| % 4 == 0 && forall c :: c in s ==> IsSymbol(c)
    ensures Decode(s).Some? && |Decode(s).value| == |s| / 4 * 3
  {
    if s == "" {
    } else {
      assert forall i :: 0 <= i < 4 ==> s[i] in s;
      SymbolsDecode(s[4..]);
    }
  }

  // ----- The alphabet and the order of the bits, as RFC 4648 gives them -----

  lemma CapitalsFirst()
    ensures [Symbol(0), Symbol(1), Symbol(2), Symbol(3), Symbol(4), Symbol(5), Symbol(6), Symbol(7), Symbol(8),
               Symbol(9), Symbol(10), Symbol(11), Symbol(12), Symbol(13), Symbol(14), Symbol(15), Symbol(16),
               Symbol(17), Symbol(18), Symbol(19), Symbol(20), Symbol(21), Symbol(22), Symbol(23), Symbol(24),
               Symbol(25)]
            == "ABCDEFGHIJKLMNOPQRSTUVWXYZ"
  {
  }

  lemma SmallLettersNext()
    ensures [Symbol(26), Symbol(27), Symbol(28), Symbol(29), Symbol(30), Symbol(31), Symbol(32), Symbol(33),
               Symbol(34), Symbol(35), Symbol(36), Symbol(37), Symbol(38), Symbol(39), Symbol(40), Symbol(41),
               Symbol(42), Symbol(43), Symbol(44), Symbol(45), Symbol(46), Symbol(47), Symbol(48), Symbol(49),
               Symbol(50), Symbol(51)]
            == "abcdefghijklmnopqrstuvwxyz"
  {
  }

  lemma DigitsLast()
    ensures [Symbol(52), Symbol(53), Symbol(54), Symbol(55), Symbol(56), Symbol(57), Symbol(58), Symbol(59),
               Symbol(60), Symbol(61), Symbol(62), Symbol(63)]
            == "0123456789+/"
  {
  }

  /** A group is one number of 24 bits, the first byte highest, written from the highest six bits down. */
  lemma GroupIsNumber(x: Byte, y: Byte, z: Byte)
    ensures var n := x * 65536 + y * 256 + z;
            Encode([x, y, z]) == [Symbol(n / 262144), Symbol(n / 4096 % 64), Symbol(n / 64 % 64), Symbol(n % 64)]
  {
    HighSextets(x, y, z);
    LowSextets(x, y, z);
    assert Encode([x, y, z][3..]) == "";
  }

  lemma HighSextets(x: Byte, y: Byte, z: Byte)
    ensures var n := x * 65536 + y * 256 + z; n / 262144 == x / 4 && n / 4096 % 64 == Second(x, y)
  {
    var n := x * 65536 + y * 256 + z;
    assert n / 4096 == x * 16 + y / 16;
  }

  lemma LowSextets(x: Byte, y: Byte, z: Byte)
    ensures var n := x * 65536 + y * 256 + z; n / 64 % 64 == Third(y, z) && n % 64 == z % 64
  {
    var n := x * 65536 + y * 256 + z;
    assert n / 64 == x * 1024 + y * 4 + z / 64;
    LowBits(x, y, z / 64);
    assert n == (x * 1024 + y * 4) * 64 + z;
  }

  lemma LowBits(x: Byte, y: Byte, top: int)
    requires 0 <= top < 4
    ensures (x * 1024 + y * 4 + top) % 64 == y % 16 * 4 + top
  {
    assert x * 1024 + y * 4 + top == (x * 16 + y / 16) * 64 + (y % 16 * 4 + top);
  }

  /** Groups follow each other. */
  lemma GroupsFollow(x: Byte, y: Byte, z: Byte, rest: seq<Byte>)
    ensures Encode([x, y, z] + rest) == Encode([x, y, z]) + Encode(rest)
  {
    assert ([x, y, z] + rest)[3..] == rest && Encode([x, y, z][3..]) == "";
  }
}
