/** Every command line, told without the parser: how arguments may be written, what each way means, that all of them are
    read as that, and that every line is written in one of these ways. */
module CommandLineForms {
  import opened CommandLine

  // ----- How arguments may be written -----

  /** Characters as they may be written: each after some backslashes, a quote protected. */
  datatype Run = Stop | Char(slashes: nat, c: WChar, more: Run)

  /** An argument as it may be written: bare characters, quoted runs after an even number of backslashes, a quoted run
      that ends with a quote or with two, and at last some backslashes, perhaps in a quoted run that is never closed. */
  datatype Segments =
    | Done(slashes: nat)
    | Unclosed(before: nat, run: Run, slashes: nat)
    | Bare(before: nat, c: WChar, rest: Segments)
    | Quoted(before: nat, run: Run, inside: nat, doubled: bool, rest: Segments)

  function RunShown(r: Run): Text {
    if r.Stop? then [] else Slashes(Doubled(r.c, r.slashes)) + [r.c] + RunShown(r.more)
  }

  function RunText(r: Run): Text {
    if r.Stop? then [] else Slashes(r.slashes) + [r.c] + RunText(r.more)
  }

  /** An opening quote and the run behind it. */
  function OpenShown(m: nat, run: Run): Text {
    Slashes(2 * m) + [QUOTE] + RunShown(run)
  }

  function OpenText(m: nat, run: Run): Text {
    Slashes(m) + RunText(run)
  }

  /** A closing quote, or two. */
  function CloseShown(n: nat, doubled: bool): Text {
    Slashes(2 * n) + if doubled then [QUOTE, QUOTE] else [QUOTE]
  }

  function CloseText(n: nat, doubled: bool): Text {
    Slashes(n) + if doubled then [QUOTE] else []
  }

  function Shows(s: Segments): Text {
    match s
    case Done(n) => Slashes(n)
    case Unclosed(m, run, n) => OpenShown(m, run) + Slashes(n)
    case Bare(n, c, rest) => Slashes(Doubled(c, n)) + [c] + Shows(rest)
    case Quoted(m, run, n, doubled, rest) => OpenShown(m, run) + (CloseShown(n, doubled) + Shows(rest))
  }

  /** What it means: a doubled quote inside a quoted run is one quote, and what follows it is not quoted any more. */
  function Means(s: Segments): Text {
    match s
    case Done(n) => Slashes(n)
    case Unclosed(m, run, n) => OpenText(m, run) + Slashes(n)
    case Bare(n, c, rest) => Slashes(n) + [c] + Means(rest)
    case Quoted(m, run, n, doubled, rest) => OpenText(m, run) + (CloseText(n, doubled) + Means(rest))
  }

  predicate RunOk(r: Run) {
    r.Char? ==> r.c != BACKSLASH && r.c != NUL && RunOk(r.more)
  }

  /** Blanks are quoted, and a closing quote is not followed by another. */
  predicate SegmentsOk(s: Segments) {
    match s
    case Done(_) => true
    case Unclosed(_, run, _) => RunOk(run)
    case Bare(_, c, rest) => c != BACKSLASH && c != NUL && !IsBlank(c) && SegmentsOk(rest)
    case Quoted(_, run, _, doubled, rest) => RunOk(run) && SegmentsOk(rest) && (!doubled ==> !OpensAtOnce(rest))
  }

  predicate OpensAtOnce(s: Segments) {
    (s.Unclosed? || s.Quoted?) && s.before == 0
  }

  predicate NeverClosed(s: Segments) {
    match s
    case Done(_) => false
    case Unclosed(_, _, _) => true
    case Bare(_, _, rest) => NeverClosed(rest)
    case Quoted(_, _, _, _, rest) => NeverClosed(rest)
  }

  /** The argument may end at `p`. */
  predicate Over(b: Text, p: nat, s: Segments) {
    In(b, p) && (b[p] == NUL || (IsBlank(b[p]) && !NeverClosed(s)))
  }

  // ----- Such an argument is read as what it means -----

  /** From `p` on the parser reads `u` and goes on at `q`. */
  predicate Reads(b: Text, p: nat, quoted: bool, u: Text, q: nat, after: bool) {
    In(b, p) && In(b, q) && Argument(b, p, quoted, 0) == Prepend(u, Argument(b, q, after, 0))
  }

  lemma Chain(b: Text, p: nat, first: bool, t: Text, q: nat, middle: bool, u: Text, r: nat, last: bool)
    requires Reads(b, p, first, t, q, middle) && Reads(b, q, middle, u, r, last)
    ensures Reads(b, p, first, t + u, r, last)
  {
    PrependTwice(t, u, Argument(b, r, last, 0));
  }

  lemma QuoteAt(b: Text, p: nat, n: nat, quotes: Text)
    requires quotes != [] && quotes[0] == QUOTE && At(b, p, Slashes(n) + quotes)
    ensures At(b, p, Slashes(n)) && At(b, p + n, quotes) && b[p + n] == QUOTE
  {
    AtParts(b, p, Slashes(n), quotes);
    assert b[p + n] == b[p + n..p + n + |quotes|][0];
  }

  lemma OpeningIsRead(b: Text, p: nat, m: nat)
    requires At(b, p, Slashes(2 * m) + [QUOTE])
    ensures Reads(b, p, false, Slashes(m), p + 2 * m + 1, true)
  {
    QuoteAt(b, p, 2 * m, [QUOTE]);
    HalvedSlashes(b, p, 2 * m, false);
  }

  lemma PairIsRead(b: Text, p: nat, n: nat)
    requires At(b, p, Slashes(2 * n)) && In(b, p + 2 * n + 2) && b[p + 2 * n] == QUOTE && b[p + 2 * n + 1] == QUOTE
    ensures Reads(b, p, true, Slashes(n) + [QUOTE], p + 2 * n + 2, false)
  {
    HalvedSlashes(b, p, 2 * n, true);
  }

  lemma LastQuoteIsRead(b: Text, p: nat, n: nat)
    requires At(b, p, Slashes(2 * n)) && In(b, p + 2 * n + 1) && b[p + 2 * n] == QUOTE && b[p + 2 * n + 1] != QUOTE
    ensures Reads(b, p, true, Slashes(n), p + 2 * n + 1, false)
  {
    HalvedSlashes(b, p, 2 * n, true);
  }

  lemma SecondQuote(b: Text, p: nat)
    requires At(b, p, [QUOTE, QUOTE])
    ensures b[p + 1] == QUOTE
  {
    assert b[p + 1] == b[p..p + 2][1];
  }

  lemma ClosingIsReadOnce(b: Text, p: nat, n: nat, doubled: bool)
    requires At(b, p, CloseShown(n, doubled)) && (!doubled ==> b[p + 2 * n + 1] != QUOTE)
    ensures Reads(b, p, true, CloseText(n, doubled), p + |CloseShown(n, doubled)|, false)
  {
    if doubled {
      QuoteAt(b, p, 2 * n, [QUOTE, QUOTE]);
      SecondQuote(b, p + 2 * n);
      PairIsRead(b, p, n);
    } else {
      QuoteAt(b, p, 2 * n, [QUOTE]);
      LastQuoteIsRead(b, p, n);
      assert CloseText(n, doubled) == Slashes(n);
    }
  }

  lemma CharReads(b: Text, p: nat, c: WChar, n: nat, quoted: bool)
    requires c != BACKSLASH && c != NUL && (quoted || !IsBlank(c))
    requires At(b, p, Slashes(Doubled(c, n)) + [c]) && In(b, p + Doubled(c, n) + 1)
    ensures Reads(b, p, quoted, Slashes(n) + [c], p + Doubled(c, n) + 1, quoted)
  {
    CharIsRead(b, p, c, n, quoted);
  }

  lemma NothingReads(b: Text, p: nat, quoted: bool)
    requires In(b, p)
    ensures Reads(b, p, quoted, [], p, quoted)
  {
    assert [] + Argument(b, p, quoted, 0).text == Argument(b, p, quoted, 0).text;
  }

  lemma CharParts(b: Text, p: nat, r: Run)
    requires RunOk(r) && r.Char? && At(b, p, RunShown(r))
    ensures var q := p + Doubled(r.c, r.slashes) + 1;
            && At(b, p, Slashes(Doubled(r.c, r.slashes)) + [r.c]) && At(b, q, RunShown(r.more)) && In(b, q)
            && q + |RunShown(r.more)| == p + |RunShown(r)|
  {
    AtParts(b, p, Slashes(Doubled(r.c, r.slashes)) + [r.c], RunShown(r.more));
  }

  lemma CharBeforeRun(b: Text, p: nat, r: Run, q: nat, end: nat)
    requires RunOk(r) && r.Char? && q == p + Doubled(r.c, r.slashes) + 1
    requires At(b, p, Slashes(Doubled(r.c, r.slashes)) + [r.c]) && In(b, q) && In(b, end)
    requires Argument(b, q, true, 0) == Prepend(RunText(r.more), Argument(b, end, true, 0))
    ensures In(b, p) && Argument(b, p, true, 0) == Prepend(RunText(r), Argument(b, end, true, 0))
  {
    CharReads(b, p, r.c, r.slashes, true);
    Chain(b, p, true, Slashes(r.slashes) + [r.c], q, true, RunText(r.more), end, true);
  }

  /** A run inside quotes. */
  lemma {:induction false} RunIsRead(b: Text, p: nat, r: Run)
    requires RunOk(r) && At(b, p, RunShown(r))
    ensures var q := p + |RunShown(r)|;
            In(b, p) && In(b, q) && Argument(b, p, true, 0) == Prepend(RunText(r), Argument(b, q, true, 0))
    decreases r
  {
    if r.Stop? {
      NothingReads(b, p, true);
    } else {
      var q := p + Doubled(r.c, r.slashes) + 1;
      CharParts(b, p, r);
      RunIsRead(b, q, r.more);
      CharBeforeRun(b, p, r, q, p + |RunShown(r)|);
    }
  }

  lemma OpenParts(b: Text, p: nat, m: nat, run: Run)
    requires At(b, p, OpenShown(m, run))
    ensures At(b, p, Slashes(2 * m) + [QUOTE]) && At(b, p + 2 * m + 1, RunShown(run))
    ensures p + 2 * m + 1 + |RunShown(run)| == p + |OpenShown(m, run)|
  {
    AtParts(b, p, Slashes(2 * m) + [QUOTE], RunShown(run));
  }

  lemma OpeningBeforeRun(b: Text, p: nat, m: nat, run: Run, q: nat, end: nat)
    requires At(b, p, Slashes(2 * m) + [QUOTE]) && q == p + 2 * m + 1 && In(b, end)
    requires Argument(b, q, true, 0) == Prepend(RunText(run), Argument(b, end, true, 0))
    ensures In(b, p) && Argument(b, p, false, 0) == Prepend(OpenText(m, run), Argument(b, end, true, 0))
  {
    OpeningIsRead(b, p, m);
    Chain(b, p, false, Slashes(m), q, true, RunText(run), end, true);
  }

  lemma OpenedRunIsRead(b: Text, p: nat, m: nat, run: Run, q: nat, end: nat)
    requires RunOk(run) && At(b, p, Slashes(2 * m) + [QUOTE]) && q == p + 2 * m + 1
    requires At(b, q, RunShown(run)) && end == q + |RunShown(run)|
    ensures In(b, p) && In(b, end) && Argument(b, p, false, 0) == Prepend(OpenText(m, run), Argument(b, end, true, 0))
  {
    RunIsRead(b, q, run);
    OpeningBeforeRun(b, p, m, run, q, end);
  }

  lemma OpenRunIsRead(b: Text, p: nat, m: nat, run: Run)
    requires RunOk(run) && At(b, p, OpenShown(m, run))
    ensures var q := p + |OpenShown(m, run)|;
            In(b, p) && In(b, q) && Argument(b, p, false, 0) == Prepend(OpenText(m, run), Argument(b, q, true, 0))
  {
    OpenParts(b, p, m, run);
    OpenedRunIsRead(b, p, m, run, p + 2 * m + 1, p + |OpenShown(m, run)|);
  }

  lemma DoneIsRead(b: Text, p: nat, n: nat, quoted: bool)
    requires At(b, p, Slashes(n)) && (b[p + n] == NUL || (!quoted && IsBlank(b[p + n])))
    ensures Argument(b, p, quoted, 0) == Piece(Slashes(n), p + n)
  {
    HalvedSlashes(b, p, n, quoted);
  }

  lemma ReadsToEnd(b: Text, p: nat, quoted: bool, t: Text, q: nat, after: bool, u: Text, end: nat)
    requires Reads(b, p, quoted, t, q, after) && Argument(b, q, after, 0) == Piece(u, end)
    ensures Argument(b, p, quoted, 0) == Piece(t + u, end)
  {
  }

  /** What follows a closing quote is no quote. */
  lemma NoQuoteFollows(b: Text, p: nat, s: Segments)
    requires SegmentsOk(s) && At(b, p, Shows(s)) && Over(b, p + |Shows(s)|, s) && !OpensAtOnce(s)
    ensures b[p] != QUOTE
  {
    if Shows(s) == [] {
    } else {
      assert b[p] == b[p..p + |Shows(s)|][0] == Shows(s)[0];
      match s
      case Done(_) =>
      case Unclosed(m, _, _) => assert Shows(s)[0] == Slashes(2 * m)[0];
      case Bare(n, c, _) => assert Shows(s)[0] == if Doubled(c, n) > 0 then BACKSLASH else c;
      case Quoted(m, _, _, _, _) => assert Shows(s)[0] == Slashes(2 * m)[0];
    }
  }

  lemma UnclosedIsRead(b: Text, p: nat, m: nat, run: Run, n: nat)
    requires RunOk(run) && At(b, p, OpenShown(m, run) + Slashes(n)) && b[p + |OpenShown(m, run)| + n] == NUL
    ensures Argument(b, p, false, 0) == Piece(OpenText(m, run) + Slashes(n), p + |OpenShown(m, run)| + n)
  {
    var q := p + |OpenShown(m, run)|;
    AtParts(b, p, OpenShown(m, run), Slashes(n));
    OpenRunIsRead(b, p, m, run);
    DoneIsRead(b, q, n, true);
    ReadsToEnd(b, p, false, OpenText(m, run), q, true, Slashes(n), q + n);
  }

  lemma QuotedIsReadOnce(b: Text, p: nat, m: nat, run: Run, n: nat, doubled: bool, u: Text, end: nat)
    requires RunOk(run) && At(b, p, OpenShown(m, run))
    requires At(b, p + |OpenShown(m, run)|, CloseShown(n, doubled))
    requires !doubled ==> b[p + |OpenShown(m, run)| + 2 * n + 1] != QUOTE
    requires Argument(b, p + |OpenShown(m, run)| + |CloseShown(n, doubled)|, false, 0) == Piece(u, end)
    ensures Argument(b, p, false, 0) == Piece(OpenText(m, run) + (CloseText(n, doubled) + u), end)
  {
    var q := p + |OpenShown(m, run)|;
    OpenRunIsRead(b, p, m, run);
    ClosingIsReadOnce(b, q, n, doubled);
    ReadsToEnd(b, q, true, CloseText(n, doubled), q + |CloseShown(n, doubled)|, false, u, end);
    ReadsToEnd(b, p, false, OpenText(m, run), q, true, CloseText(n, doubled) + u, end);
  }

  lemma BareIsReadOnce(b: Text, p: nat, n: nat, c: WChar, u: Text, end: nat)
    requires c != BACKSLASH && c != NUL && !IsBlank(c)
    requires At(b, p, Slashes(Doubled(c, n)) + [c]) && In(b, p + Doubled(c, n) + 1)
    requires Argument(b, p + Doubled(c, n) + 1, false, 0) == Piece(u, end)
    ensures Argument(b, p, false, 0) == Piece(Slashes(n) + [c] + u, end)
  {
    CharReads(b, p, c, n, false);
    ReadsToEnd(b, p, false, Slashes(n) + [c], p + Doubled(c, n) + 1, false, u, end);
  }

  lemma ThreeAt(b: Text, p: nat, t: Text, u: Text, v: Text)
    requires At(b, p, t + (u + v))
    ensures At(b, p, t) && At(b, p + |t|, u) && At(b, p + |t| + |u|, v)
  {
    AtParts(b, p, t, u + v);
    AtParts(b, p + |t|, u, v);
  }

  /** However an argument is written, it reads as what it means. */
  lemma {:induction false} SegmentsAreRead(b: Text, p: nat, s: Segments)
    requires SegmentsOk(s) && At(b, p, Shows(s)) && Over(b, p + |Shows(s)|, s)
    ensures Argument(b, p, false, 0) == Piece(Means(s), p + |Shows(s)|)
    decreases s, 1
  {
    match s
    case Done(n) => DoneIsRead(b, p, n, false);
    case Unclosed(m, run, n) => UnclosedIsRead(b, p, m, run, n);
    case Bare(n, c, rest) => BareThenRest(b, p, n, c, rest);
    case Quoted(m, run, n, doubled, rest) => QuotedThenRest(b, p, m, run, n, doubled, rest);
  }

  lemma {:induction false} BareThenRest(b: Text, p: nat, n: nat, c: WChar, rest: Segments)
    requires SegmentsOk(Bare(n, c, rest)) && At(b, p, Shows(Bare(n, c, rest)))
    requires Over(b, p + |Shows(Bare(n, c, rest))|, rest)
    ensures Argument(b, p, false, 0) == Piece(Means(Bare(n, c, rest)), p + |Shows(Bare(n, c, rest))|)
    decreases rest, 2
  {
    var q := p + Doubled(c, n) + 1;
    AtParts(b, p, Slashes(Doubled(c, n)) + [c], Shows(rest));
    SegmentsAreRead(b, q, rest);
    BareIsReadOnce(b, p, n, c, Means(rest), q + |Shows(rest)|);
  }

  lemma {:induction false} QuotedThenRest(b: Text, p: nat, m: nat, run: Run, n: nat, doubled: bool, rest: Segments)
    requires RunOk(run) && SegmentsOk(rest) && (!doubled ==> !OpensAtOnce(rest))
    requires At(b, p, OpenShown(m, run) + (CloseShown(n, doubled) + Shows(rest)))
    requires Over(b, p + |OpenShown(m, run) + (CloseShown(n, doubled) + Shows(rest))|, rest)
    ensures Argument(b, p, false, 0)
            == Piece(OpenText(m, run) + (CloseText(n, doubled) + Means(rest)),
                     p + |OpenShown(m, run) + (CloseShown(n, doubled) + Shows(rest))|)
    decreases rest, 2
  {
    var open, close := OpenShown(m, run), CloseShown(n, doubled);
    ThreeAt(b, p, open, close, Shows(rest));
    var r := p + |open| + |close|;
    SegmentsAreRead(b, r, rest);
    if !doubled { NoQuoteFollows(b, r, rest); }
    QuotedIsReadOnce(b, p, m, run, n, doubled, Means(rest), r + |Shows(rest)|);
  }

  // ----- Every argument is such a list -----

  lemma SlashesAt(b: Text, p: nat, q: nat)
    requires p <= q && In(b, q) && forall i :: p <= i < q ==> b[i] == BACKSLASH
    ensures At(b, p, Slashes(q - p))
  {
  }

  lemma Joined(b: Text, p: nat, t: Text, u: Text)
    requires At(b, p, t) && At(b, p + |t|, u)
    ensures At(b, p, t + u)
  {
    assert b[p..p + |t + u|] == b[p..p + |t|] + b[p + |t|..p + |t| + |u|];
  }

  lemma OneAt(b: Text, p: nat)
    requires In(b, p + 1)
    ensures At(b, p, [b[p]])
  {
  }

  /** Some backslashes and a character. */
  lemma CharAt(b: Text, p: nat, q: nat)
    requires p <= q && In(b, q + 1) && b[q] != BACKSLASH && forall i :: p <= i < q ==> b[i] == BACKSLASH
    requires b[q] == QUOTE ==> (q - p) % 2 == 1
    ensures var n := if b[q] == QUOTE then (q - p) / 2 else q - p;
            Doubled(b[q], n) == q - p && At(b, p, Slashes(Doubled(b[q], n)) + [b[q]])
  {
    SlashesAt(b, p, q);
    OneAt(b, q);
    Joined(b, p, Slashes(q - p), [b[q]]);
  }

  lemma OneMoreChar(b: Text, p: nat, q: nat, more: Run) returns (run: Run)
    requires p <= q && In(b, q + 1) && b[q] != BACKSLASH && b[q] != NUL && forall i :: p <= i < q ==> b[i] == BACKSLASH
    requires b[q] == QUOTE ==> (q - p) % 2 == 1
    requires RunOk(more) && At(b, q + 1, RunShown(more))
    ensures RunOk(run) && At(b, p, RunShown(run)) && p + |RunShown(run)| == q + 1 + |RunShown(more)|
  {
    var n := if b[q] == QUOTE then (q - p) / 2 else q - p;
    CharAt(b, p, q);
    Joined(b, p, Slashes(Doubled(b[q], n)) + [b[q]], RunShown(more));
    run := Char(n, b[q], more);
  }

  lemma RunStops(b: Text, p: nat, q: nat) returns (run: Run, k: nat)
    requires p <= q && In(b, q) && forall i :: p <= i < q ==> b[i] == BACKSLASH
    ensures RunOk(run) && At(b, p, RunShown(run)) && At(b, p + |RunShown(run)|, Slashes(k))
    ensures p + |RunShown(run)| + k == q && k == q - p
  {
    SlashesAt(b, p, q);
    run, k := Stop, q - p;
  }

  /** The run behind an opening quote: up to the end of the buffer, or a quote after an even number of backslashes. */
  lemma {:induction false} SplitRun(b: Text, p: nat) returns (run: Run, k: nat)
    requires In(b, p)
    ensures RunOk(run) && At(b, p, RunShown(run)) && At(b, p + |RunShown(run)|, Slashes(k))
    ensures var z := p + |RunShown(run)| + k; b[z] == NUL || (b[z] == QUOTE && k % 2 == 0)
    decreases |b| - p
  {
    var q := PastSlashes(b, p);
    if b[q] == NUL || (b[q] == QUOTE && (q - p) % 2 == 0) {
      run, k := RunStops(b, p, q);
    } else {
      var more;
      more, k := SplitRun(b, q + 1);
      run := OneMoreChar(b, p, q, more);
    }
  }

  lemma OpeningAt(b: Text, p: nat, q: nat)
    requires p <= q && In(b, q + 1) && b[q] == QUOTE && (q - p) % 2 == 0 && forall i :: p <= i < q ==> b[i] == BACKSLASH
    ensures At(b, p, Slashes(2 * ((q - p) / 2)) + [QUOTE])
  {
    SlashesAt(b, p, q);
    OneAt(b, q);
    Joined(b, p, Slashes(q - p), [QUOTE]);
  }

  lemma BareAt(b: Text, p: nat, q: nat, rest: Segments) returns (s: Segments)
    requires p <= q && In(b, q + 1) && b[q] != BACKSLASH && b[q] != NUL && !IsBlank(b[q])
    requires b[q] == QUOTE ==> (q - p) % 2 == 1
    requires forall i :: p <= i < q ==> b[i] == BACKSLASH
    requires SegmentsOk(rest) && At(b, q + 1, Shows(rest)) && Over(b, q + 1 + |Shows(rest)|, rest)
    ensures SegmentsOk(s) && At(b, p, Shows(s)) && Over(b, p + |Shows(s)|, s)
  {
    var n := if b[q] == QUOTE then (q - p) / 2 else q - p;
    CharAt(b, p, q);
    Joined(b, p, Slashes(Doubled(b[q], n)) + [b[q]], Shows(rest));
    s := Bare(n, b[q], rest);
  }

  /** An opening quote after an even number of backslashes, and its run. */
  lemma OpenAt(b: Text, p: nat, q: nat, run: Run)
    requires p <= q && In(b, q + 1) && b[q] == QUOTE && (q - p) % 2 == 0 && forall i :: p <= i < q ==> b[i] == BACKSLASH
    requires At(b, q + 1, RunShown(run))
    ensures var open := OpenShown((q - p) / 2, run); At(b, p, open) && p + |open| == q + 1 + |RunShown(run)|
  {
    OpeningAt(b, p, q);
    Joined(b, p, Slashes(2 * ((q - p) / 2)) + [QUOTE], RunShown(run));
  }

  /** A closing quote, which is doubled if another one follows. */
  lemma CloseAt(b: Text, p: nat, k: nat)
    requires At(b, p, Slashes(k)) && In(b, p + k + 1) && b[p + k] == QUOTE && k % 2 == 0
    ensures var close := CloseShown(k / 2, b[p + k + 1] == QUOTE);
            At(b, p, close) && |close| == k + if b[p + k + 1] == QUOTE then 2 else 1
  {
    var quotes := if b[p + k + 1] == QUOTE then [QUOTE, QUOTE] else [QUOTE];
    assert b[p + k..p + k + |quotes|] == quotes;
    Joined(b, p, Slashes(k), quotes);
  }

  lemma QuotedAt(b: Text, p: nat, m: nat, run: Run, n: nat, doubled: bool, rest: Segments) returns (s: Segments)
    requires RunOk(run) && At(b, p, OpenShown(m, run)) && At(b, p + |OpenShown(m, run)|, CloseShown(n, doubled))
    requires var r := p + |OpenShown(m, run)| + |CloseShown(n, doubled)|;
             && SegmentsOk(rest) && At(b, r, Shows(rest)) && Over(b, r + |Shows(rest)|, rest)
             && (!doubled ==> !OpensAtOnce(rest))
    ensures SegmentsOk(s) && At(b, p, Shows(s)) && Over(b, p + |Shows(s)|, s)
  {
    Joined(b, p + |OpenShown(m, run)|, CloseShown(n, doubled), Shows(rest));
    Joined(b, p, OpenShown(m, run), CloseShown(n, doubled) + Shows(rest));
    s := Quoted(m, run, n, doubled, rest);
  }

  lemma OpensWithQuote(b: Text, p: nat, s: Segments)
    requires SegmentsOk(s) && At(b, p, Shows(s))
    ensures OpensAtOnce(s) ==> b[p] == QUOTE
  {
    if OpensAtOnce(s) {
      assert Shows(s)[0] == QUOTE;
      assert b[p] == b[p..p + |Shows(s)|][0];
    }
  }

  lemma DoneAt(b: Text, p: nat, q: nat) returns (s: Segments)
    requires p <= q && In(b, q) && (b[q] == NUL || IsBlank(b[q])) && forall i :: p <= i < q ==> b[i] == BACKSLASH
    ensures SegmentsOk(s) && At(b, p, Shows(s)) && Over(b, p + |Shows(s)|, s)
  {
    SlashesAt(b, p, q);
    s := Done(q - p);
  }

  /** Every argument of every line is written in that way, whatever it is. */
  lemma {:induction false} SplitArgument(b: Text, p: nat) returns (s: Segments)
    requires In(b, p)
    ensures SegmentsOk(s) && At(b, p, Shows(s)) && Over(b, p + |Shows(s)|, s)
    decreases |b| - p
  {
    var q := PastSlashes(b, p);
    if b[q] == NUL || IsBlank(b[q]) {
      s := DoneAt(b, p, q);
    } else if b[q] != QUOTE || (q - p) % 2 == 1 {
      var rest := SplitArgument(b, q + 1);
      s := BareAt(b, p, q, rest);
    } else {
      s := SplitQuoted(b, p, q);
    }
  }

  lemma UnclosedAt(b: Text, p: nat, m: nat, run: Run, k: nat) returns (s: Segments)
    requires RunOk(run) && At(b, p, OpenShown(m, run))
    requires var e := p + |OpenShown(m, run)|; At(b, e, Slashes(k)) && b[e + k] == NUL
    ensures SegmentsOk(s) && At(b, p, Shows(s)) && Over(b, p + |Shows(s)|, s)
  {
    Joined(b, p, OpenShown(m, run), Slashes(k));
    s := Unclosed(m, run, k);
  }

  lemma {:induction false} SplitQuoted(b: Text, p: nat, q: nat) returns (s: Segments)
    requires p <= q && In(b, q + 1) && b[q] == QUOTE && (q - p) % 2 == 0 && forall i :: p <= i < q ==> b[i] == BACKSLASH
    ensures SegmentsOk(s) && At(b, p, Shows(s)) && Over(b, p + |Shows(s)|, s)
    decreases |b| - p, 0
  {
    var run, k := SplitRun(b, q + 1);
    OpenAt(b, p, q, run);
    s := SplitOpened(b, p, (q - p) / 2, run, k);
  }

  lemma {:induction false} SplitOpened(b: Text, p: nat, m: nat, run: Run, k: nat) returns (s: Segments)
    requires RunOk(run) && At(b, p, OpenShown(m, run)) && |OpenShown(m, run)| > 0
    requires var e := p + |OpenShown(m, run)|;
             At(b, e, Slashes(k)) && (b[e + k] == NUL || (b[e + k] == QUOTE && k % 2 == 0))
    ensures SegmentsOk(s) && At(b, p, Shows(s)) && Over(b, p + |Shows(s)|, s)
    decreases |b| - p - |OpenShown(m, run)|, 2
  {
    var e := p + |OpenShown(m, run)|;
    if b[e + k] == NUL {
      s := UnclosedAt(b, p, m, run, k);
    } else {
      s := SplitClosed(b, p, m, run, k);
    }
  }

  lemma {:induction false} SplitClosed(b: Text, p: nat, m: nat, run: Run, k: nat) returns (s: Segments)
    requires RunOk(run) && At(b, p, OpenShown(m, run)) && |OpenShown(m, run)| > 0
    requires var e := p + |OpenShown(m, run)|; At(b, e, Slashes(k)) && b[e + k] == QUOTE && k % 2 == 0
    ensures SegmentsOk(s) && At(b, p, Shows(s)) && Over(b, p + |Shows(s)|, s)
    decreases |b| - p - |OpenShown(m, run)|, 1
  {
    var e := p + |OpenShown(m, run)|;
    CloseAt(b, e, k);
    var doubled := b[e + k + 1] == QUOTE;
    var r := e + |CloseShown(k / 2, doubled)|;
    var rest := SplitArgument(b, r);
    OpensWithQuote(b, r, rest);
    s := QuotedAt(b, p, m, run, k / 2, doubled, rest);
  }

  // ----- Whole lines -----

  /** A line as somebody may write it: blanks and arguments in turn. */
  datatype Rest = Blanks(gap: Text) | Next(gap: Text, argument: Segments, more: Rest)

  /** The program name: quoted, quoted up to the end of the line, or up to the first blank. */
  datatype Program = Closed(name: Text) | Open(name: Text) | Unquoted(name: Text)

  function RestShown(r: Rest): Text {
    match r
    case Blanks(gap) => gap
    case Next(gap, argument, more) => gap + (Shows(argument) + RestShown(more))
  }

  function RestTexts(r: Rest): seq<Text> {
    match r
    case Blanks(_) => []
    case Next(_, argument, more) => [Means(argument)] + RestTexts(more)
  }

  /** Arguments are separated by blanks, and nothing follows one whose quote is never closed. */
  predicate RestOk(r: Rest) {
    match r
    case Blanks(gap) => AllBlank(gap)
    case Next(gap, argument, more) =>
      && AllBlank(gap) && SegmentsOk(argument) && Shows(argument) != [] && RestOk(more)
      && (more.Next? ==> more.gap != [] && !NeverClosed(argument))
      && (more.Blanks? && NeverClosed(argument) ==> more.gap == [])
  }

  function ProgramShown(p: Program): Text {
    match p
    case Closed(name) => [QUOTE] + name + [QUOTE]
    case Open(name) => [QUOTE] + name
    case Unquoted(name) => name
  }

  predicate ProgramOk(p: Program, rest: Rest) {
    match p
    case Closed(name) => QUOTE !in name
    case Open(name) => QUOTE !in name && rest == Blanks([])
    case Unquoted(name) =>
      && (forall i :: 0 <= i < |name| ==> !IsBlank(name[i])) && (name != [] ==> name[0] != QUOTE)
      && (RestShown(rest) == [] || IsBlank(RestShown(rest)[0]))
  }

  lemma ShownStarts(b: Text, p: nat, s: Segments)
    requires SegmentsOk(s) && Shows(s) != [] && At(b, p, Shows(s))
    ensures b[p] != NUL && !IsBlank(b[p])
  {
    assert b[p] == b[p..p + |Shows(s)|][0] == Shows(s)[0];
    match s
    case Done(_) =>
    case Unclosed(m, _, _) => assert Shows(s)[0] == (Slashes(2 * m) + [QUOTE])[0];
    case Bare(n, c, _) => assert Shows(s)[0] == (Slashes(Doubled(c, n)) + [c])[0];
    case Quoted(m, _, _, _, _) => assert Shows(s)[0] == (Slashes(2 * m) + [QUOTE])[0];
  }

  /** An argument is followed by a blank, or by the end of the line. */
  lemma ArgumentOver(b: Text, p: nat, s: Segments, more: Rest)
    requires At(b, p, RestShown(more)) && b[p + |RestShown(more)|] == NUL && RestOk(more)
    requires more.Next? ==> more.gap != [] && !NeverClosed(s)
    requires more.Blanks? && NeverClosed(s) ==> more.gap == []
    ensures Over(b, p, s)
  {
    if RestShown(more) == [] {
    } else {
      assert b[p] == b[p..p + |RestShown(more)|][0] == RestShown(more)[0];
      assert more.gap != [] && RestShown(more)[0] == more.gap[0];
    }
  }

  lemma ArgumentStarts(b: Text, p: nat, text: Text, end: nat)
    requires In(b, p) && b[p] != NUL && !IsBlank(b[p]) && Argument(b, p, false, 0) == Piece(text, end) && In(b, end)
    ensures Arguments(b, p) == [text] + Arguments(b, end)
  {
  }

  lemma OneIsRead(b: Text, p: nat, s: Segments, end: nat)
    requires SegmentsOk(s) && Shows(s) != [] && At(b, p, Shows(s)) && end == p + |Shows(s)| && Over(b, end, s)
    ensures Arguments(b, p) == [Means(s)] + Arguments(b, end)
  {
    ShownStarts(b, p, s);
    SegmentsAreRead(b, p, s);
    ArgumentStarts(b, p, Means(s), end);
  }

  lemma NextIsRead(b: Text, p: nat, gap: Text, s: Segments, end: nat)
    requires AllBlank(gap) && SegmentsOk(s) && Shows(s) != [] && At(b, p, gap) && At(b, p + |gap|, Shows(s))
    requires end == p + |gap| + |Shows(s)| && Over(b, end, s)
    ensures Arguments(b, p) == [Means(s)] + Arguments(b, end)
  {
    GapIsSkipped(b, p, gap);
    OneIsRead(b, p + |gap|, s, end);
  }

  lemma {:induction false} RestIsReadWhole(b: Text, p: nat, r: Rest)
    requires RestOk(r) && At(b, p, RestShown(r)) && b[p + |RestShown(r)|] == NUL
    ensures Arguments(b, p) == RestTexts(r)
    decreases r
  {
    match r
    case Blanks(gap) => GapIsSkipped(b, p, gap);
    case Next(gap, s, more) =>
      ThreeAt(b, p, gap, Shows(s), RestShown(more));
      var end := p + |gap| + |Shows(s)|;
      ArgumentOver(b, end, s, more);
      NextIsRead(b, p, gap, s, end);
      RestIsReadWhole(b, end, more);
  }

  lemma ClosedIsRead(name: Text, rest: Text)
    requires NUL !in name && QUOTE !in name
    ensures var line := [QUOTE] + name + [QUOTE] + rest;
            In(line + [NUL], |name| + 2) && Tokens(line) == [name] + Arguments(line + [NUL], |name| + 2)
  {
    QuotedProgramIsRead(name, rest);
    assert PrintProgram(name) == [QUOTE] + name + [QUOTE];
  }

  lemma OpenIsRead(name: Text)
    requires NUL !in name && QUOTE !in name
    ensures Tokens([QUOTE] + name) == [name]
  {
    var b := [QUOTE] + name + [NUL];
    assert forall i :: 1 <= i < |name| + 1 ==> b[i] == name[i - 1];
    ToQuoteIs(b, 1, |name| + 1);
    assert ([QUOTE] + name)[1..] == name;
  }

  lemma UnquotedIsRead(name: Text, rest: Text)
    requires NUL !in name && (forall i :: 0 <= i < |name| ==> !IsBlank(name[i])) && (name != [] ==> name[0] != QUOTE)
    requires rest == [] || IsBlank(rest[0])
    ensures In(name + rest + [NUL], |name|) && Tokens(name + rest) == [name] + Arguments(name + rest + [NUL], |name|)
  {
    var b := name + rest + [NUL];
    assert forall i :: 0 <= i < |name| ==> b[i] == name[i];
    assert b[|name|] == if rest == [] then NUL else rest[0];
    ToBlankIs(b, 0, |name|);
    assert b[..|name|] == name;
  }

  lemma ProgramIsRead(program: Program, rest: Rest)
    requires NUL !in ProgramShown(program) && ProgramOk(program, rest)
    ensures var b := ProgramShown(program) + RestShown(rest) + [NUL]; var n := |ProgramShown(program)|;
            In(b, n) && Tokens(ProgramShown(program) + RestShown(rest)) == [program.name] + Arguments(b, n)
  {
    match program
    case Closed(name) =>
      assert forall i :: 0 <= i < |name| ==> name[i] == ProgramShown(program)[i + 1];
      ClosedIsRead(name, RestShown(rest));
    case Open(name) =>
      assert forall i :: 0 <= i < |name| ==> name[i] == ProgramShown(program)[i + 1];
      assert ProgramShown(program) + RestShown(rest) == [QUOTE] + name;
      OpenIsRead(name);
    case Unquoted(name) => UnquotedIsRead(name, RestShown(rest));
  }

  /** However a line is written, it splits into what it means. */
  lemma LineIsRead(program: Program, rest: Rest)
    requires NUL !in ProgramShown(program) && ProgramOk(program, rest) && RestOk(rest)
    ensures Tokens(ProgramShown(program) + RestShown(rest)) == [program.name] + RestTexts(rest)
  {
    var b, n := ProgramShown(program) + RestShown(rest) + [NUL], |ProgramShown(program)|;
    ProgramIsRead(program, rest);
    assert b[n..n + |RestShown(rest)|] == RestShown(rest);
    RestIsReadWhole(b, n, rest);
  }

  lemma EndIsLast(b: Text, p: nat)
    requires In(b, p) && NoNul(b, p, |b| - 1) && b[p] == NUL
    ensures p == |b| - 1
  {
  }

  lemma TextAt(b: Text, p: nat, t: Text, q: nat)
    requires At(b, p, t) && q == p + |t|
    ensures b[p..|b| - 1] == t + b[q..|b| - 1]
  {
    assert b[p..|b| - 1] == b[p..q] + b[q..|b| - 1];
  }

  lemma GapAt(b: Text, p: nat, q: nat)
    requires p <= q && In(b, q) && forall i :: p <= i < q ==> IsBlank(b[i])
    ensures At(b, p, b[p..q]) && AllBlank(b[p..q])
  {
  }

  /** One argument and what follows it. */
  lemma OneNext(b: Text, p: nat, q: nat, s: Segments, more: Rest) returns (r: Rest)
    requires p <= q && In(b, q) && (forall i :: p <= i < q ==> IsBlank(b[i])) && NoNul(b, p, |b| - 1)
    requires SegmentsOk(s) && Shows(s) != [] && At(b, q, Shows(s)) && Over(b, q + |Shows(s)|, s)
    requires RestOk(more) && RestShown(more) == b[q + |Shows(s)|..|b| - 1]
    requires more.gap == [] <==> !IsBlank(b[q + |Shows(s)|])
    requires more.Next? ==> RestShown(more) != []
    ensures RestOk(r) && RestShown(r) == b[p..|b| - 1] && r.gap == b[p..q]
  {
    var end := q + |Shows(s)|;
    GapAt(b, p, q);
    TextAt(b, p, b[p..q], q);
    TextAt(b, q, Shows(s), end);
    if b[end] == NUL { EndIsLast(b, end); }
    r := Next(b[p..q], s, more);
  }

  lemma SplitBlanks(b: Text, p: nat) returns (q: nat)
    requires In(b, p)
    ensures p <= q < |b| && !IsBlank(b[q]) && (forall i :: p <= i < q ==> IsBlank(b[i])) && (q == p <==> !IsBlank(b[p]))
  {
    q := PastBlanks(b, p);
  }

  /** The rest of every line is blanks and such arguments in turn. */
  lemma {:induction false} SplitRest(b: Text, p: nat) returns (r: Rest)
    requires In(b, p) && NoNul(b, p, |b| - 1)
    ensures RestOk(r) && RestShown(r) == b[p..|b| - 1] && (r.gap == [] <==> !IsBlank(b[p]))
    decreases |b| - p
  {
    var q := SplitBlanks(b, p);
    if b[q] == NUL {
      EndIsLast(b, q);
      GapAt(b, p, q);
      r := Blanks(b[p..q]);
    } else {
      var s := SplitArgument(b, q);
      assert Shows(s) != [];
      var more := SplitRest(b, q + |Shows(s)|);
      r := OneNext(b, p, q, s, more);
    }
  }

  lemma NoQuoteWithin(b: Text, p: nat, q: nat)
    requires p <= q <= |b| && forall i :: p <= i < q ==> b[i] != QUOTE
    ensures QUOTE !in b[p..q]
  {
    assert forall i :: 0 <= i < q - p ==> b[p..q][i] == b[p + i];
  }

  lemma SplitQuotedProgram(line: Text) returns (program: Program, n: nat)
    requires NUL !in line && line != [] && line[0] == QUOTE
    ensures n <= |line| && ProgramShown(program) == line[..n] && (program.Open? ==> n == |line|)
    ensures !program.Unquoted? && QUOTE !in program.name
  {
    var b := line + [NUL];
    var q := ToQuote(b, 1);
    NoQuoteWithin(b, 1, q);
    if b[q] == NUL {
      assert b[1..q] == line[1..];
      program, n := Open(line[1..]), |line|;
    } else {
      assert b[1..q] == line[1..q];
      program, n := Closed(line[1..q]), q + 1;
    }
  }

  lemma SplitProgram(line: Text) returns (program: Program, n: nat)
    requires NUL !in line
    ensures n <= |line| && ProgramShown(program) == line[..n] && (program.Open? ==> n == |line|)
    ensures program.Unquoted? || QUOTE !in program.name
    ensures program.Unquoted? ==>
              && (forall i :: 0 <= i < n ==> !IsBlank(line[i])) && (n > 0 ==> line[0] != QUOTE)
              && (n < |line| ==> IsBlank(line[n]))
  {
    var b := line + [NUL];
    if b[0] == QUOTE {
      program, n := SplitQuotedProgram(line);
    } else {
      n := ToBlank(b, 0);
      assert forall i :: 0 <= i < n ==> line[i] == b[i];
      program := Unquoted(line[..n]);
    }
  }

  /** Every line is written in that way, and splits into what that means: this decides the tokens of all lines. */
  lemma LineSplits(line: Text) returns (program: Program, rest: Rest)
    requires NUL !in line
    ensures ProgramOk(program, rest) && RestOk(rest) && line == ProgramShown(program) + RestShown(rest)
    ensures Tokens(line) == [program.name] + RestTexts(rest)
  {
    var n;
    program, n := SplitProgram(line);
    var b := line + [NUL];
    rest := SplitRest(b, n);
    assert b[n..|b| - 1] == line[n..];
    assert line == line[..n] + line[n..];
    if program.Open? { assert rest == Blanks([]); }
    LineIsRead(program, rest);
  }
}
