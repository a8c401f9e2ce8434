/** ReadUint64Bits() and SetUint64Bits() (chrome/installer/util/experiment_storage.cc), and the mixed-radix numbers
    they read and write. */
module BitFields {
  function Pow2(n: nat): (r: nat)
    ensures r >= 1
  {
    if n == 0 then 1 else 2 * Pow2(n - 1)
  }

  /** The bitwise disjunction of two unsigned integers. */
  function Or(a: nat, b: nat): nat
    decreases a + b
  {
    if a == 0 && b == 0 then 0 else (if a % 2 == 1 || b % 2 == 1 then 1 else 0) + 2 * Or(a / 2, b / 2)
  }

  const TWO_TO_31 := 0x8000_0000
  const TWO_TO_32 := 0x1_0000_0000
  const TWO_TO_64 := 0x1_0000_0000_0000_0000

  /** An int, sign-extended to uint64_t. */
  function ToUint64(v: int): nat {
    v % TWO_TO_64
  }

  /** The low 32 bits as an int. */
  function ToInt(v: nat): int {
    var low := v % TWO_TO_32;
    if low < TWO_TO_31 then low else low - TWO_TO_32
  }

  predicate IsInt(v: int) {
    -TWO_TO_31 <= v < TWO_TO_31
  }

  /** What the DCHECKs of both functions ask for. */
  predicate Window(bits: nat, low: nat) {
    0 < bits <= 32 && low + bits <= 64
  }

  function ReadUint64Bits(source: nat, bits: nat, low: nat): int
    requires Window(bits, low)
  {
    ToInt(source / Pow2(low) % Pow2(bits))
  }

  function SetUint64Bits(value: int, bits: nat, low: nat, target: nat): nat
    requires Window(bits, low)
  {
    Or(target, ToUint64(value) % Pow2(bits) * Pow2(low))
  }

  // ----- Arithmetic -----

  lemma {:induction false} Pow2Sum(a: nat, b: nat)
    ensures Pow2(a + b) == Pow2(a) * Pow2(b)
    decreases a
  {
    if a == 0 {
    } else {
      Pow2Sum(a - 1, b);
    }
  }

  lemma {:induction false} Pow2Grows(a: nat, b: nat)
    requires a <= b
    ensures Pow2(a) <= Pow2(b)
    decreases b - a
  {
    if a == b {
    } else {
      Pow2Grows(a, b - 1);
    }
  }

  lemma {:induction false} NotBelowZero(k: nat, m: nat)
    ensures 0 <= k * m
  {
    if k == 0 {
    } else {
      NotBelowZero(k - 1, m);
      assert k * m == (k - 1) * m + m;
    }
  }

  lemma MulLess(q: int, n: int, m: int)
    requires q < n && 0 < m
    ensures q * m + m <= n * m
  {
    NotBelowZero(n - q - 1, m);
    assert (n - q - 1) * m == n * m - q * m - m;
  }

  lemma Quotient(q: int, r: int, m: int)
    requires 0 <= r < m
    ensures (q * m + r) / m == q && (q * m + r) % m == r
  {
    var v := q * m + r;
    if v / m < q { MulLess(v / m, q, m); }
    if v / m > q { MulLess(q, v / m, m); }
  }

  lemma NotNegative(v: int, m: int)
    requires 0 <= v && 0 < m
    ensures 0 <= v / m && v == v / m * m + v % m
  {
  }

  lemma Regroup(q: int, r: int, m: int, n: int)
    ensures (q * n + r) * m == q * (n * m) + r * m
  {
    assert q * n * m == q * (n * m);
  }

  lemma TwoDigits(q: int, r: int, s: int, m: int, n: int)
    requires 0 <= r < n && 0 <= s < m
    ensures 0 < n * m && ((q * n + r) * m + s) / (n * m) == q
  {
    MulLess(r, n, m);
    MulLess(-1, r, m);
    Regroup(q, r, m, n);
    Quotient(q, r * m + s, n * m);
  }

  lemma QuotientTwice(v: nat, m: nat, n: nat)
    requires 0 < m && 0 < n
    ensures 0 < n * m && 0 <= v / m && v / m / n == v / (n * m)
  {
    NotNegative(v, m);
    var q := v / m;
    NotNegative(q, n);
    TwoDigits(q / n, q % n, v % m, m, n);
  }

  lemma QuotientLess(v: nat, n: nat, m: nat)
    requires 0 < m && v < n * m
    ensures 0 <= v / m < n && v % m + v / m * m == v
  {
    if v / m >= n { MulLess(n - 1, v / m, m); }
  }

  lemma Distribute(x: int, d: int, t: int, m: int)
    ensures (x + d * t) * m == x * m + d * (t * m)
  {
    assert d * t * m == d * (t * m);
  }

  /** A multiple of the modulus does not matter. */
  lemma ModOfMod(v: int, m: int, n: int)
    requires 0 < m && 0 < n
    ensures 0 < m * n && v % (m * n) % m == v % m
  {
    var q, r := v / (m * n), v % (m * n);
    assert v == (q * n + r / m) * m + r % m;
    Quotient(q * n + r / m, r % m, m);
  }

  lemma {:induction false} OrDisjoint(a: nat, b: nat, k: nat)
    requires a < Pow2(k)
    ensures Or(a, b * Pow2(k)) == a + b * Pow2(k)
    decreases k
  {
    if k == 0 {
      OrZero(b);
    } else {
      var h := b * Pow2(k - 1);
      assert b * Pow2(k) == 2 * h;
      OrDisjoint(a / 2, b, k - 1);
    }
  }

  lemma {:induction false} OrZero(b: nat)
    ensures Or(0, b) == b
    decreases b
  {
    if b == 0 {
    } else {
      OrZero(b / 2);
    }
  }

  // ----- Numbers whose digits have widths of their own -----

  function Total(w: seq<nat>): nat {
    if w == [] then 0 else w[0] + Total(w[1..])
  }

  predicate Fit(g: seq<nat>, w: seq<nat>) {
    |g| == |w| && forall i :: 0 <= i < |g| ==> g[i] < Pow2(w[i])
  }

  function Pack(g: seq<nat>, w: seq<nat>): nat
    requires |g| == |w|
  {
    if g == [] then 0 else g[0] + Pack(g[1..], w[1..]) * Pow2(w[0])
  }

  function Unpack(v: nat, w: seq<nat>): (g: seq<nat>)
    ensures Fit(g, w)
    decreases |w|
  {
    if w == [] then [] else
    NotNegative(v, Pow2(w[0]));
    [v % Pow2(w[0])] + Unpack(v / Pow2(w[0]), w[1..])
  }

  lemma TotalPow(w: seq<nat>)
    requires w != []
    ensures Pow2(Total(w)) == Pow2(Total(w[1..])) * Pow2(w[0])
  {
    Pow2Sum(Total(w[1..]), w[0]);
  }

  lemma {:induction false} PackBound(g: seq<nat>, w: seq<nat>)
    requires Fit(g, w)
    ensures Pack(g, w) < Pow2(Total(w))
    decreases |w|
  {
    if g == [] {
    } else {
      PackBound(g[1..], w[1..]);
      TotalPow(w);
      MulLess(Pack(g[1..], w[1..]), Pow2(Total(w[1..])), Pow2(w[0]));
    }
  }

  lemma {:induction false} UnpackPack(g: seq<nat>, w: seq<nat>)
    requires Fit(g, w)
    ensures Unpack(Pack(g, w), w) == g
    decreases |w|
  {
    if g == [] {
    } else {
      UnpackPack(g[1..], w[1..]);
      Quotient(Pack(g[1..], w[1..]), g[0], Pow2(w[0]));
    }
  }

  lemma {:induction false} PackUnpack(v: nat, w: seq<nat>)
    requires v < Pow2(Total(w))
    ensures Pack(Unpack(v, w), w) == v
    decreases |w|
  {
    if w == [] {
    } else {
      TotalPow(w);
      var m := Pow2(w[0]);
      QuotientLess(v, Pow2(Total(w[1..])), m);
      PackUnpack(v / m, w[1..]);
      var rest := Unpack(v / m, w[1..]);
      assert Unpack(v, w) == [v % m] + rest && ([v % m] + rest)[1..] == rest;
      assert Pack([v % m] + rest, w) == v % m + Pack(rest, w[1..]) * m;
    }
  }

  lemma {:induction false} TotalSplit(w: seq<nat>, i: nat)
    requires i <= |w|
    ensures Total(w) == Total(w[..i]) + Total(w[i..])
  {
    if i == 0 {
      assert w[0..] == w;
    } else {
      TotalSplit(w[1..], i - 1);
      assert w[1..][..i - 1] == w[..i][1..] && w[1..][i - 1..] == w[i..];
    }
  }

  /** The digit with number `i` starts at the bit where the digits before it end. */
  lemma {:induction false} DigitAt(v: nat, w: seq<nat>, i: nat)
    requires i < |w|
    ensures Unpack(v, w)[i] == v / Pow2(Total(w[..i])) % Pow2(w[i])
    decreases i
  {
    if i == 0 {
    } else {
      var m, t := Pow2(w[0]), Pow2(Total(w[1..][..i - 1]));
      NotNegative(v, m);
      DigitAt(v / m, w[1..], i - 1);
      assert Pow2(Total(w[..i])) == t * m by {
        assert w[..i][1..] == w[1..][..i - 1];
        TotalPow(w[..i]);
      }
      QuotientTwice(v, m, t);
    }
  }

  lemma {:induction false} PackAppended(g: seq<nat>, w: seq<nat>, d: nat, k: nat)
    requires |g| == |w|
    ensures Pack(g + [d], w + [k]) == Pack(g, w) + d * Pow2(Total(w))
  {
    if g == [] {
      assert g + [d] == [d] && w + [k] == [k];
    } else {
      PackAppended(g[1..], w[1..], d, k);
      assert (g + [d])[1..] == g[1..] + [d] && (w + [k])[1..] == w[1..] + [k];
      TotalPow(w);
      Distribute(Pack(g[1..], w[1..]), d, Pow2(Total(w[1..])), Pow2(w[0]));
    }
  }

  // ----- What the two functions do to such a number -----

  /** Setting the next field adds it as the next digit: it meets no bit that is already set. */
  lemma SetAppends(g: seq<nat>, w: seq<nat>, value: int, bits: nat)
    requires Fit(g, w) && Window(bits, Total(w))
    ensures SetUint64Bits(value, bits, Total(w), Pack(g, w)) == Pack(g + [value % Pow2(bits)], w + [bits])
    ensures Fit(g + [value % Pow2(bits)], w + [bits])
  {
    Masked(value, bits);
    PackBound(g, w);
    OrDisjoint(Pack(g, w), value % Pow2(bits), Total(w));
    PackAppended(g, w, value % Pow2(bits), bits);
  }

  lemma ReadDigit(v: nat, w: seq<nat>, i: nat)
    requires i < |w| && Window(w[i], Total(w[..i]))
    ensures ReadUint64Bits(v, w[i], Total(w[..i])) == ToInt(Unpack(v, w)[i])
  {
    DigitAt(v, w, i);
  }

  /** Sign extension does not reach the masked bits. */
  lemma Masked(value: int, bits: nat)
    requires bits <= 64
    ensures ToUint64(value) % Pow2(bits) == value % Pow2(bits)
  {
    PowerValues();
    Pow2Sum(bits, 64 - bits);
    ModOfMod(value, Pow2(bits), Pow2(64 - bits));
  }

  lemma PowerValues()
    ensures Pow2(8) == 256 && Pow2(31) == TWO_TO_31 && Pow2(32) == TWO_TO_32 && Pow2(64) == TWO_TO_64
  {
    assert Pow2(8) == 256;
    Pow2Sum(8, 8);
    Pow2Sum(16, 16);
    Pow2Sum(32, 32);
    assert Pow2(32) == 2 * Pow2(31);
  }

  lemma SmallInt(d: nat)
    requires d < TWO_TO_31
    ensures ToInt(d) == d
  {
  }

  lemma WrappedInt(v: int)
    requires IsInt(v)
    ensures ToInt(v % TWO_TO_32) == v
  {
    assert v % TWO_TO_32 == if v < 0 then v + TWO_TO_32 else v;
  }

  lemma OwnRemainder(value: int, m: nat)
    requires 0 < m
    ensures value % m == value <==> 0 <= value < m
  {
    if 0 <= value < m { Quotient(0, value, m); }
  }

  /** An int comes back from a field exactly when the field is wide enough for it. */
  lemma FieldRoundTrip(value: int, bits: nat)
    requires IsInt(value) && 0 < bits <= 32
    ensures ToInt(value % Pow2(bits)) == value <==> bits == 32 || 0 <= value < Pow2(bits)
  {
    PowerValues();
    if bits < 32 {
      Pow2Grows(bits, 31);
      SmallInt(value % Pow2(bits));
      OwnRemainder(value, Pow2(bits));
    } else {
      WrappedInt(value);
    }
  }

  lemma ToIntBack(d: nat, bits: nat)
    requires d < Pow2(bits) && 0 < bits <= 32
    ensures IsInt(ToInt(d)) && ToInt(d) % Pow2(bits) == d && (bits < 32 ==> ToInt(d) == d)
  {
    PowerValues();
    if bits < 32 {
      Pow2Grows(bits, 31);
      SmallInt(d);
      Quotient(0, d, Pow2(bits));
    }
  }
}
