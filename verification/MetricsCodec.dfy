/** EncodeMetrics() and DecodeMetrics() (chrome/installer/util/experiment_storage.cc).  The widths of the nine fields
    are a parameter: the class that fixes them is not part of this model. */
module MetricsCodec {
  import opened Wrappers
  import opened BitFields
  import Base64

  datatype Metrics = Metrics(
    sessionLength: int,
    actionDelay: int,
    lastUsed: int,
    toastHour: int,
    firstToastOffset: int,
    toastCount: int,
    toastLocation: int,
    state: int,
    group: int)

  type Widths = seq<nat>

  /** What the DCHECKs on bit lengths, the leftover read and the six bytes need. */
  predicate ValidWidths(w: Widths) {
    |w| == 9 && (forall i :: 0 <= i < 9 ==> 0 < w[i] <= 32) && 32 <= Total(w) <= 48
  }

  const OCTETS: seq<nat> := [8, 8, 8, 8, 8, 8]

  function Fields(m: Metrics): (f: seq<int>)
    ensures |f| == 9
  {
    [m.sessionLength, m.actionDelay, m.lastUsed, m.toastHour, m.firstToastOffset, m.toastCount, m.toastLocation,
     m.state, m.group]
  }

  function FromFields(f: seq<int>): Metrics
    requires |f| == 9
  {
    Metrics(f[0], f[1], f[2], f[3], f[4], f[5], f[6], f[7], f[8])
  }

  // ----- The codec as one number in two radices -----

  /** Each field reduced to its width. */
  function Masks(f: seq<int>, w: seq<nat>): (g: seq<nat>)
    requires |f| == |w|
    ensures Fit(g, w) && forall i :: 0 <= i < |f| ==> g[i] == f[i] % Pow2(w[i])
  {
    seq(|f|, i requires 0 <= i < |f| => f[i] % Pow2(w[i]))
  }

  function Ints(g: seq<nat>): (f: seq<int>)
    ensures |f| == |g| && forall i :: 0 <= i < |g| ==> f[i] == ToInt(g[i])
  {
    seq(|g|, i requires 0 <= i < |g| => ToInt(g[i]))
  }

  function Octets(v: nat): (data: seq<Base64.Byte>)
    ensures data == Unpack(v, OCTETS) && |data| == 6
  {
    PowerValues();
    var g := Unpack(v, OCTETS);
    assert forall i :: 0 <= i < 6 ==> OCTETS[i] == 8;
    g
  }

  function Encoded(w: Widths, m: Metrics): string
    requires ValidWidths(w)
  {
    Base64.Encode(Octets(Pack(Masks(Fields(m), w), w)))
  }

  function Decoded(w: Widths, s: string): Option<Metrics>
    requires ValidWidths(w)
  {
    var data := Base64.Decode(s);
    if data.None? || |data.value| != 6 then None else
    var v := Pack(data.value, OCTETS);
    if v >= Pow2(Total(w)) then None else Some(FromFields(Ints(Unpack(v, w))))
  }

  // ----- The program -----

  /** The lowest bit of field `i`. */
  function LowBit(w: Widths, i: nat): nat
    requires i <= |w|
  {
    Total(w[..i])
  }

  lemma WindowOk(w: Widths, i: nat)
    requires ValidWidths(w) && i < 9
    ensures Window(w[i], LowBit(w, i))
  {
    TotalSplit(w, i);
    assert w[i..][0] == w[i];
  }

  /** The first `i` fields, packed. */
  function SoFar(w: Widths, m: Metrics, i: nat): nat
    requires |w| == 9 && i <= 9
  {
    Pack(Masks(Fields(m)[..i], w[..i]), w[..i])
  }

  method SetField(w: Widths, ghost m: Metrics, i: nat, value: int, target: nat) returns (v: nat)
    requires ValidWidths(w) && i < 9 && value == Fields(m)[i] && target == SoFar(w, m, i)
    ensures v == SoFar(w, m, i + 1)
  {
    WindowOk(w, i);
    ghost var f := Fields(m);
    SetAppends(Masks(f[..i], w[..i]), w[..i], f[i], w[i]);
    assert w[..i + 1] == w[..i] + [w[i]];
    assert Masks(f[..i + 1], w[..i + 1]) == Masks(f[..i], w[..i]) + [f[i] % Pow2(w[i])];
    v := SetUint64Bits(value, w[i], LowBit(w, i), target);
  }

  method PackFields(w: Widths, m: Metrics) returns (v: nat)
    requires ValidWidths(w)
    ensures v == SoFar(w, m, 9)
  {
    v := 0;
    v := SetField(w, m, 0, m.sessionLength, v);
    v := SetField(w, m, 1, m.actionDelay, v);
    v := SetField(w, m, 2, m.lastUsed, v);
    v := SetField(w, m, 3, m.toastHour, v);
    v := SetField(w, m, 4, m.firstToastOffset, v);
    v := SetField(w, m, 5, m.toastCount, v);
    v := SetField(w, m, 6, m.toastLocation, v);
    v := SetField(w, m, 7, m.state, v);
    v := SetField(w, m, 8, m.group, v);
  }

  lemma {:induction false} OctetLow(i: nat)
    requires i <= 6
    ensures Total(OCTETS[..i]) == 8 * i
  {
    if i == 0 {
    } else {
      OctetLow(i - 1);
      assert OCTETS[..i][1..] == OCTETS[..i - 1];
    }
  }

  lemma OctetRead(v: nat, i: nat)
    requires i < 6
    ensures ReadUint64Bits(v, 8, 8 * i) == Octets(v)[i]
  {
    OctetLow(i);
    ReadDigit(v, OCTETS, i);
    SmallInt(Octets(v)[i]);
  }

  method ReadOctets(v: nat) returns (data: seq<Base64.Byte>)
    ensures data == Octets(v)
  {
    data := [0, 0, 0, 0, 0, 0];
    for i := 0 to 6
      invariant |data| == 6 && forall k :: 0 <= k < i ==> data[k] == Octets(v)[k]
    {
      OctetRead(v, i);
      data := data[i := ReadUint64Bits(v, 8, 8 * i)];
    }
  }

  method EncodeMetrics(w: Widths, m: Metrics) returns (s: string)
    requires ValidWidths(w)
    ensures s == Encoded(w, m)
  {
    var v := PackFields(w, m);
    assert w[..9] == w && Fields(m)[..9] == Fields(m);
    var data := ReadOctets(v);
    s := Base64.Encode(data);
  }

  /** A char holding the byte, as an int. */
  function SignedChar(b: Base64.Byte): int {
    if b < 128 then b else b - 256
  }

  lemma SignedByte(b: Base64.Byte)
    ensures SignedChar(b) % Pow2(8) == b
  {
    PowerValues();
    assert SignedChar(b) % 256 == b;
  }

  lemma OctetsFit(data: seq<Base64.Byte>)
    requires |data| == 6
    ensures Fit(data, OCTETS)
  {
    PowerValues();
    assert forall i :: 0 <= i < 6 ==> OCTETS[i] == 8;
  }

  lemma OctetSet(data: seq<Base64.Byte>, i: nat)
    requires |data| == 6 && i < 6
    ensures SetUint64Bits(SignedChar(data[i]), 8, 8 * i, Pack(data[..i], OCTETS[..i]))
            == Pack(data[..i + 1], OCTETS[..i + 1])
  {
    OctetLow(i);
    OctetsFit(data);
    SignedByte(data[i]);
    SetAppends(data[..i], OCTETS[..i], SignedChar(data[i]), 8);
    assert data[..i + 1] == data[..i] + [data[i]] && OCTETS[..i + 1] == OCTETS[..i] + [8];
  }

  lemma ZeroQuotient(v: nat, m: nat)
    requires 0 < m
    ensures 0 <= v / m && (v / m == 0 <==> v < m)
  {
    if v < m { Quotient(0, v, m); }
  }

  lemma SmallQuotient(q: nat, bits: nat, more: nat)
    requires q < Pow2(bits) && bits <= 31 && bits <= more
    ensures ToInt(q % Pow2(more)) == q
  {
    Pow2Grows(bits, more);
    Quotient(0, q, Pow2(more));
    Pow2Grows(bits, 31);
    PowerValues();
    SmallInt(q);
  }

  lemma LeftOver(w: Widths, v: nat)
    requires ValidWidths(w) && v < Pow2(48)
    ensures ReadUint64Bits(v, 64 - Total(w), Total(w)) != 0 <==> v >= Pow2(Total(w))
  {
    var t := Total(w);
    ZeroQuotient(v, Pow2(t));
    var q: nat := v / Pow2(t);
    assert q < Pow2(48 - t) by {
      Pow2Sum(48 - t, t);
      QuotientLess(v, Pow2(48 - t), Pow2(t));
    }
    SmallQuotient(q, 48 - t, 64 - t);
  }

  lemma FieldRead(w: Widths, v: nat, i: nat)
    requires ValidWidths(w) && i < 9
    ensures Window(w[i], LowBit(w, i)) && ReadUint64Bits(v, w[i], LowBit(w, i)) == Ints(Unpack(v, w))[i]
  {
    WindowOk(w, i);
    ReadDigit(v, w, i);
  }

  method ReadFields(w: Widths, v: nat) returns (m: Metrics)
    requires ValidWidths(w)
    ensures m == FromFields(Ints(Unpack(v, w)))
  {
    forall i | 0 <= i < 9
      ensures Window(w[i], LowBit(w, i)) && ReadUint64Bits(v, w[i], LowBit(w, i)) == Ints(Unpack(v, w))[i]
    {
      FieldRead(w, v, i);
    }
    m := Metrics(
      ReadUint64Bits(v, w[0], LowBit(w, 0)),
      ReadUint64Bits(v, w[1], LowBit(w, 1)),
      ReadUint64Bits(v, w[2], LowBit(w, 2)),
      ReadUint64Bits(v, w[3], LowBit(w, 3)),
      ReadUint64Bits(v, w[4], LowBit(w, 4)),
      ReadUint64Bits(v, w[5], LowBit(w, 5)),
      ReadUint64Bits(v, w[6], LowBit(w, 6)),
      ReadUint64Bits(v, w[7], LowBit(w, 7)),
      ReadUint64Bits(v, w[8], LowBit(w, 8)));
  }

  method ReadData(data: seq<Base64.Byte>) returns (v: nat)
    requires |data| == 6
    ensures v == Pack(data, OCTETS)
  {
    v := 0;
    for i := 0 to 6
      invariant v == Pack(data[..i], OCTETS[..i])
    {
      OctetSet(data, i);
      v := SetUint64Bits(SignedChar(data[i]), 8, 8 * i, v);
    }
    assert data[..6] == data && OCTETS[..6] == OCTETS;
  }

  method DecodeMetrics(w: Widths, s: string) returns (metrics: Option<Metrics>)
    requires ValidWidths(w)
    ensures metrics == Decoded(w, s)
  {
    var decoded := Base64.Decode(s);
    if decoded.None? || |decoded.value| != 6 {
      return None;
    }
    var data := decoded.value;
    var v := ReadData(data);
    var result := ReadFields(w, v);
    PackedBound(data);
    LeftOver(w, v);
    if ReadUint64Bits(v, 64 - Total(w), Total(w)) != 0 {
      return None;
    }
    metrics := Some(result);
  }

  lemma PackedBound(data: seq<Base64.Byte>)
    requires |data| == 6
    ensures Fit(data, OCTETS) && Pack(data, OCTETS) < Pow2(48)
  {
    OctetsFit(data);
    OctetLow(6);
    assert OCTETS[..6] == OCTETS;
    PackBound(data, OCTETS);
  }

  // ----- Where each field is -----

  lemma LowBitMore(w: Widths, i: nat)
    requires i < |w|
    ensures LowBit(w, i + 1) == LowBit(w, i) + w[i]
  {
    TotalSplit(w[..i + 1], i);
    assert w[..i + 1][..i] == w[..i] && w[..i + 1][i..] == [w[i]];
  }

  /** One field more is added above the ones before it. */
  lemma SoFarMore(w: Widths, m: Metrics, i: nat)
    requires ValidWidths(w) && i < 9
    ensures SoFar(w, m, i + 1) == SoFar(w, m, i) + Fields(m)[i] % Pow2(w[i]) * Pow2(LowBit(w, i))
  {
    var f := Fields(m);
    PackAppended(Masks(f[..i], w[..i]), w[..i], f[i] % Pow2(w[i]), w[i]);
    assert w[..i + 1] == w[..i] + [w[i]];
    assert Masks(f[..i + 1], w[..i + 1]) == Masks(f[..i], w[..i]) + [f[i] % Pow2(w[i])];
  }

  /** The field, reduced to its width, at the bits above those of the fields before it. */
  function Placed(value: int, bits: nat, low: nat): int {
    value % Pow2(bits) * Pow2(low)
  }

  lemma FieldPlaced(w: Widths, m: Metrics, i: nat, low: nat)
    requires ValidWidths(w) && i < 9 && LowBit(w, i) == low
    ensures SoFar(w, m, i + 1) == SoFar(w, m, i) + Placed(Fields(m)[i], w[i], low) && LowBit(w, i + 1) == low + w[i]
  {
    SoFarMore(w, m, i);
    LowBitMore(w, i);
  }

  lemma ThreePlaced(w: Widths, m: Metrics, i: nat, low: nat)
    requires ValidWidths(w) && i < 7 && LowBit(w, i) == low
    ensures SoFar(w, m, i + 3) ==
              SoFar(w, m, i) + Placed(Fields(m)[i], w[i], low) + Placed(Fields(m)[i + 1], w[i + 1], low + w[i])
              + Placed(Fields(m)[i + 2], w[i + 2], low + w[i] + w[i + 1])
    ensures LowBit(w, i + 3) == low + w[i] + w[i + 1] + w[i + 2]
  {
    FieldPlaced(w, m, i, low);
    FieldPlaced(w, m, i + 1, low + w[i]);
    FieldPlaced(w, m, i + 2, low + w[i] + w[i + 1]);
  }

  /** Nine fields, from the lowest bits up. */
  lemma LowFieldsPlaced(w: Widths, m: Metrics)
    requires ValidWidths(w)
    ensures SoFar(w, m, 3) ==
              Placed(m.sessionLength, w[0], 0) + Placed(m.actionDelay, w[1], w[0])
              + Placed(m.lastUsed, w[2], w[0] + w[1])
    ensures LowBit(w, 3) == w[0] + w[1] + w[2]
  {
    assert SoFar(w, m, 0) == 0 && LowBit(w, 0) == 0;
    ThreePlaced(w, m, 0, 0);
  }

  lemma MiddleFieldsPlaced(w: Widths, m: Metrics)
    requires ValidWidths(w)
    ensures SoFar(w, m, 6) ==
              SoFar(w, m, 3) + Placed(m.toastHour, w[3], w[0] + w[1] + w[2])
              + Placed(m.firstToastOffset, w[4], w[0] + w[1] + w[2] + w[3])
              + Placed(m.toastCount, w[5], w[0] + w[1] + w[2] + w[3] + w[4])
    ensures LowBit(w, 6) == w[0] + w[1] + w[2] + w[3] + w[4] + w[5]
  {
    LowFieldsPlaced(w, m);
    ThreePlaced(w, m, 3, w[0] + w[1] + w[2]);
  }

  lemma HighFieldsPlaced(w: Widths, m: Metrics)
    requires ValidWidths(w)
    ensures SoFar(w, m, 9) ==
              SoFar(w, m, 6) + Placed(m.toastLocation, w[6], w[0] + w[1] + w[2] + w[3] + w[4] + w[5])
              + Placed(m.state, w[7], w[0] + w[1] + w[2] + w[3] + w[4] + w[5] + w[6])
              + Placed(m.group, w[8], w[0] + w[1] + w[2] + w[3] + w[4] + w[5] + w[6] + w[7])
  {
    MiddleFieldsPlaced(w, m);
    ThreePlaced(w, m, 6, w[0] + w[1] + w[2] + w[3] + w[4] + w[5]);
  }

  /** Byte `i` of the number, the lowest first. */
  function ByteAt(v: nat, i: nat): Base64.Byte {
    PowerValues();
    v / Pow2(8 * i) % 256
  }

  lemma OctetsPlaced(v: nat, i: nat)
    requires i < 6
    ensures Octets(v)[i] == ByteAt(v, i)
  {
    PowerValues();
    OctetLow(i);
    DigitAt(v, OCTETS, i);
    assert OCTETS[i] == 8;
  }

  /** The encoding, from the fields to the symbols: their bits from the lowest up are one number, whose six bytes, the
      lowest first, are two groups. */
  lemma EncodingSpelledOut(w: Widths, m: Metrics)
    requires ValidWidths(w)
    ensures var v := SoFar(w, m, 9);
            Encoded(w, m) == Base64.Encode([ByteAt(v, 0), ByteAt(v, 1), ByteAt(v, 2)])
                             + Base64.Encode([ByteAt(v, 3), ByteAt(v, 4), ByteAt(v, 5)])
  {
    var v := SoFar(w, m, 9);
    assert w[..9] == w && Fields(m)[..9] == Fields(m);
    forall i | 0 <= i < 6 ensures Octets(v)[i] == ByteAt(v, i) {
      OctetsPlaced(v, i);
    }
    assert Octets(v) == [ByteAt(v, 0), ByteAt(v, 1), ByteAt(v, 2)] + [ByteAt(v, 3), ByteAt(v, 4), ByteAt(v, 5)];
    Base64.GroupsFollow(ByteAt(v, 0), ByteAt(v, 1), ByteAt(v, 2), [ByteAt(v, 3), ByteAt(v, 4), ByteAt(v, 5)]);
  }

  // ----- The codec is a bijection between metrics in range and the strings it accepts -----

  predicate InRange(w: Widths, m: Metrics)
    requires |w| == 9
  {
    forall i :: 0 <= i < 9 ==> IsInt(Fields(m)[i]) && (w[i] == 32 || 0 <= Fields(m)[i] < Pow2(w[i]))
  }

  /** Encoding always decodes, to the fields as they fit. */
  lemma EncodedMasks(w: Widths, m: Metrics)
    requires ValidWidths(w)
    ensures Decoded(w, Encoded(w, m)) == Some(FromFields(Ints(Masks(Fields(m), w))))
  {
    var g := Masks(Fields(m), w);
    var v := Pack(g, w);
    PackBound(g, w);
    Pow2Grows(Total(w), 48);
    OctetLow(6);
    assert OCTETS[..6] == OCTETS;
    PackUnpack(v, OCTETS);
    Base64.DecodeEncode(Octets(v));
    UnpackPack(g, w);
  }

  /** Metrics come back from their encoding exactly when every field is in range. */
  lemma EncodeThenDecode(w: Widths, m: Metrics)
    requires ValidWidths(w) && forall i :: 0 <= i < 9 ==> IsInt(Fields(m)[i])
    ensures Decoded(w, Encoded(w, m)).Some?
    ensures Decoded(w, Encoded(w, m)) == Some(m) <==> InRange(w, m)
  {
    EncodedMasks(w, m);
    var f := Fields(m);
    var g := Ints(Masks(f, w));
    forall i | 0 <= i < 9
      ensures g[i] == f[i] <==> w[i] == 32 || 0 <= f[i] < Pow2(w[i])
    {
      FieldRoundTrip(f[i], w[i]);
    }
    assert FromFields(g) == m <==> forall i :: 0 <= i < 9 ==> g[i] == f[i] by {
      assert Fields(FromFields(g)) == g && FromFields(f) == m;
    }
  }

  /** An accepted string is the encoding of what it decodes to. */
  lemma DecodeThenEncode(w: Widths, s: string)
    requires ValidWidths(w) && Decoded(w, s).Some?
    ensures Encoded(w, Decoded(w, s).value) == s && InRange(w, Decoded(w, s).value)
  {
    var data := Base64.Decode(s).value;
    var v := Pack(data, OCTETS);
    var g := Unpack(v, w);
    var m := Decoded(w, s).value;
    assert Fields(m) == Ints(g);
    forall i | 0 <= i < 9
      ensures IsInt(ToInt(g[i])) && ToInt(g[i]) % Pow2(w[i]) == g[i] && (w[i] < 32 ==> ToInt(g[i]) == g[i])
    {
      ToIntBack(g[i], w[i]);
    }
    assert Masks(Fields(m), w) == g;
    PackUnpack(v, w);
    PackedBound(data);
    UnpackPack(data, OCTETS);
    Base64.EncodeDecode(s);
  }

  /** Exactly eight symbols whose bits end with the last field are accepted. */
  lemma Accepted(w: Widths, s: string)
    requires ValidWidths(w)
    ensures Decoded(w, s).Some? <==>
            && |s| == 8
            && (forall c :: c in s ==> Base64.IsSymbol(c))
            && Base64.Decode(s).Some? && |Base64.Decode(s).value| == 6
            && Pack(Base64.Decode(s).value, OCTETS) < Pow2(Total(w))
    ensures Total(w) == 48 && |s| == 8 && (forall c :: c in s ==> Base64.IsSymbol(c)) ==> Decoded(w, s).Some?
  {
    if Decoded(w, s).Some? { var groups := Base64.OnlySymbols(s); }
    if |s| == 8 && (forall c :: c in s ==> Base64.IsSymbol(c)) {
      Base64.SymbolsDecode(s);
      PackedBound(Base64.Decode(s).value);
    }
  }
}
