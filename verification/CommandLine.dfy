/** TokenizeCommandLineToArray() and GetSwitchValueFromCommandLine() (chrome/install_static/install_util.cc). */
module CommandLine {
  /** A wchar_t; the code only compares them. */
  type WChar = int

  type Text = seq<WChar>

  const NUL: WChar := 0
  const TAB: WChar := 9
  const SPACE: WChar := 32
  const QUOTE: WChar := 34
  const DASH: WChar := 45
  const EQUALS: WChar := 61
  const BACKSLASH: WChar := 92

  predicate IsBlank(c: WChar) {
    c == SPACE || c == TAB
  }

  // ----- What a command line means -----

  /** `p` is a position in the NUL-terminated buffer `b`. */
  predicate In(b: Text, p: nat) {
    p < |b| && b[|b| - 1] == NUL
  }

  predicate NoNul(b: Text, from: nat, to: nat) {
    to <= |b| && forall i :: from <= i < to ==> b[i] != NUL
  }

  function Slashes(n: nat): (r: Text)
    ensures |r| == n && forall i :: 0 <= i < n ==> r[i] == BACKSLASH
  {
    seq(n, i => BACKSLASH)
  }

  /** One argument and the position after it. */
  datatype Piece = Piece(text: Text, end: nat)

  function Prepend(t: Text, p: Piece): Piece {
    Piece(t + p.text, p.end)
  }

  /** Reads one argument character by character; `n` backslashes are waiting for what follows them. */
  function Argument(b: Text, p: nat, quoted: bool, n: nat): (r: Piece)
    requires In(b, p)
    ensures p <= r.end < |b| && NoNul(b, p, r.end)
    ensures b[p] != NUL && (quoted || !IsBlank(b[p])) ==> p < r.end
    decreases |b| - p
  {
    if b[p] == NUL || (!quoted && IsBlank(b[p])) then Piece(Slashes(n), p)
    else if b[p] == BACKSLASH then Argument(b, p + 1, quoted, n + 1)
    else if b[p] != QUOTE then Prepend(Slashes(n) + [b[p]], Argument(b, p + 1, quoted, 0))
    else if n % 2 == 1 then Prepend(Slashes(n / 2) + [QUOTE], Argument(b, p + 1, quoted, 0))
    else if quoted && b[p + 1] == QUOTE then Prepend(Slashes(n / 2) + [QUOTE], Argument(b, p + 2, false, 0))
    else Prepend(Slashes(n / 2), Argument(b, p + 1, !quoted, 0))
  }

  function Arguments(b: Text, p: nat): seq<Text>
    requires In(b, p)
    decreases |b| - p
  {
    if b[p] == NUL then []
    else if IsBlank(b[p]) then Arguments(b, p + 1)
    else var a := Argument(b, p, false, 0); [a.text] + Arguments(b, a.end)
  }

  /** The first quote, or the NUL (wcschr). */
  function ToQuote(b: Text, p: nat): (q: nat)
    requires In(b, p)
    ensures p <= q < |b| && (b[q] == NUL || b[q] == QUOTE) && forall i :: p <= i < q ==> b[i] != NUL && b[i] != QUOTE
    decreases |b| - p
  {
    if b[p] == NUL || b[p] == QUOTE then p else ToQuote(b, p + 1)
  }

  /** The first space or tab, or the NUL (wcscspn). */
  function ToBlank(b: Text, p: nat): (q: nat)
    requires In(b, p)
    ensures p <= q < |b| && (b[q] == NUL || IsBlank(b[q])) && forall i :: p <= i < q ==> b[i] != NUL && !IsBlank(b[i])
    decreases |b| - p
  {
    if b[p] == NUL || IsBlank(b[p]) then p else ToBlank(b, p + 1)
  }

  /** The program name follows rules of its own; when its quote is never closed it is the whole of the line. */
  function Tokens(line: Text): seq<Text> {
    var b := line + [NUL];
    if b[0] == QUOTE then
      var q := ToQuote(b, 1);
      if b[q] == NUL then [line[1..]] else [b[1..q]] + Arguments(b, q + 1)
    else
      var q := ToBlank(b, 0);
      [b[..q]] + Arguments(b, q)
  }

  // ----- The parser -----

  /** wcsspn() with L"\\": the end of a run of backslashes. */
  function PastSlashes(b: Text, p: nat): (q: nat)
    requires In(b, p)
    ensures p <= q < |b| && b[q] != BACKSLASH && forall i :: p <= i < q ==> b[i] == BACKSLASH
    decreases |b| - p
  {
    if b[p] == BACKSLASH then PastSlashes(b, p + 1) else p
  }

  /** wcsspn() with L" \t". */
  function PastBlanks(b: Text, p: nat): (q: nat)
    requires In(b, p)
    ensures p <= q < |b| && !IsBlank(b[q]) && forall i :: p <= i < q ==> IsBlank(b[i])
    decreases |b| - p
  {
    if IsBlank(b[p]) then PastBlanks(b, p + 1) else p
  }

  lemma {:induction false} BlanksSkipped(b: Text, p: nat, q: nat)
    requires p <= q && In(b, q) && forall i :: p <= i < q ==> IsBlank(b[i])
    ensures Arguments(b, p) == Arguments(b, q)
    decreases q - p
  {
    if p == q {
    } else {
      BlanksSkipped(b, p + 1, q);
    }
  }

  lemma {:induction false} SlashesCounted(b: Text, p: nat, q: nat, quoted: bool, n: nat)
    requires p <= q && In(b, q) && forall i :: p <= i < q ==> b[i] == BACKSLASH
    ensures Argument(b, p, quoted, n) == Argument(b, q, quoted, n + (q - p))
    decreases q - p
  {
    if p == q {
    } else {
      SlashesCounted(b, p + 1, q, quoted, n + 1);
    }
  }

  lemma PrependTwice(t: Text, u: Text, p: Piece)
    ensures Prepend(t, Prepend(u, p)) == Prepend(t + u, p)
  {
    assert t + (u + p.text) == t + u + p.text;
  }

  /** What follows a run of `n` backslashes: the end of the argument, or a character and what it emits. */
  method ReadCharacter(b: Text, at: nat, n: nat, wasQuoted: bool)
    returns (emitted: Text, p: nat, quoted: bool, ended: bool)
    requires In(b, at) && b[at] != BACKSLASH
    ensures at <= p < |b| && (p == at <==> ended)
    ensures ended ==> Argument(b, at, wasQuoted, n) == Piece(emitted, p)
    ensures !ended ==> Argument(b, at, wasQuoted, n) == Prepend(emitted, Argument(b, p, quoted, 0))
  {
    p, quoted, ended := at, wasQuoted, false;
    if b[p] == QUOTE {
      emitted := Slashes(n / 2);
      if n % 2 == 1 {
        emitted := emitted + [QUOTE];
      } else if b[p + 1] == QUOTE && quoted {
        p := p + 1;
        emitted := emitted + [QUOTE];
        quoted := false;
      } else {
        quoted := !quoted;
      }
    } else {
      emitted := Slashes(n);
      if b[p] == NUL || (!quoted && IsBlank(b[p])) {
        ended := true;
        return;
      }
      emitted := emitted + [b[p]];
    }
    p := p + 1;
  }

  /** A run of backslashes and what follows it. */
  method ReadRun(b: Text, at: nat, wasQuoted: bool) returns (emitted: Text, p: nat, quoted: bool, ended: bool)
    requires In(b, at)
    ensures at <= p < |b| && (p == at ==> ended)
    ensures at == p ==> b[at] == NUL || (!wasQuoted && IsBlank(b[at]))
    ensures ended ==> Argument(b, at, wasQuoted, 0) == Piece(emitted, p)
    ensures !ended ==> Argument(b, at, wasQuoted, 0) == Prepend(emitted, Argument(b, p, quoted, 0))
  {
    var q := PastSlashes(b, at);
    SlashesCounted(b, at, q, wasQuoted, 0);
    emitted, p, quoted, ended := ReadCharacter(b, q, q - at, wasQuoted);
  }

  method ScanArgument(b: Text, start: nat) returns (token: Text, p: nat)
    requires In(b, start) && b[start] != NUL && !IsBlank(b[start])
    ensures start < p < |b|
    ensures Argument(b, start, false, 0) == Piece(token, p)
  {
    token, p := [], start;
    var quoted := false;
    ghost var whole := Argument(b, start, false, 0);
    while true
      invariant start <= p < |b| && (p == start ==> !quoted && token == [])
      invariant whole == Prepend(token, Argument(b, p, quoted, 0))
      decreases |b| - p
    {
      var emitted, next, after, ended := ReadRun(b, p, quoted);
      if ended {
        token, p := token + emitted, next;
        break;
      }
      PrependTwice(token, emitted, Argument(b, next, after, 0));
      token, p, quoted := token + emitted, next, after;
    }
  }

  /** Where the program name starts and how long it is. */
  method ScanProgram(line: Text, b: Text) returns (p: nat, length: nat)
    requires b == line + [NUL]
    ensures p + length < |b|
    ensures Tokens(line) == [b[p..p + length]] + if b[p + length] == NUL then [] else Arguments(b, p + length + 1)
  {
    p, length := 0, 0;
    if b[0] == QUOTE {
      p := 1;
      var closing := ToQuote(b, 1);
      length := closing - 1;
      if b[closing] == NUL {
        length := |line| - 1;
        assert b[1..|line|] == line[1..];
      }
    } else {
      length := ToBlank(b, 0);
      if IsBlank(b[length]) { BlanksSkipped(b, length, length + 1); }
    }
  }

  method Tokenize(line: Text) returns (result: seq<Text>)
    ensures result == Tokens(line)
  {
    var b := line + [NUL];
    var p, length := ScanProgram(line, b);
    result := [b[p..p + length]];
    if b[p + length] == NUL {
      return;
    }
    p := p + length + 1;
    while true
      invariant p < |b|
      invariant Tokens(line) == result + Arguments(b, p)
      decreases |b| - p
    {
      var q := PastBlanks(b, p);
      BlanksSkipped(b, p, q);
      p := q;
      if b[p] == NUL {
        break;
      }
      var token, end := ScanArgument(b, p);
      result := result + [token];
      p := end;
    }
  }

  // ----- The switch lookup -----

  const TERMINATOR: Text := [DASH, DASH]

  function Assignment(name: Text): Text {
    [DASH, DASH] + name + [EQUALS]
  }

  /** The first argument that assigns to the switch, unless a terminator comes first.  The program name is an
      argument like any other. */
  ghost predicate Assigned(args: seq<Text>, name: Text, value: Text) {
    exists i: nat :: AssignedAt(args, i, name, value)
  }

  predicate AssignedAt(args: seq<Text>, i: nat, name: Text, value: Text) {
    && i < |args|
    && args[i] == Assignment(name) + value
    && forall j :: 0 <= j <= i ==> args[j] != TERMINATOR && (j < i ==> !(Assignment(name) <= args[j]))
  }

  method GetSwitchValue(line: Text, name: Text) returns (value: Text)
    requires line != [] && name != []
    ensures value != [] ==> Assigned(Tokens(line), name, value)
    ensures forall v :: Assigned(Tokens(line), name, v) ==> value == v
  {
    var args := Tokenize(line);
    var end := 0;
    while end < |args| && args[end] != TERMINATOR
      invariant end <= |args| && forall j :: 0 <= j < end ==> args[j] != TERMINATOR
    {
      end := end + 1;
    }
    var scan := 0;
    while scan != end
      invariant 0 <= scan <= end
      invariant forall j :: 0 <= j < scan ==> !(Assignment(name) <= args[j])
      decreases end - scan
    {
      if Assignment(name) <= args[scan] {
        value := args[scan][|Assignment(name)|..];
        assert AssignedAt(args, scan, name, value);
        return;
      }
      scan := scan + 1;
    }
    value := [];
  }

  // ----- Quoting -----

  /** How `n` backslashes are written before the character `c`. */
  function Doubled(c: WChar, n: nat): nat {
    if c == QUOTE then 2 * n + 1 else n
  }

  /** The inside of a quoted argument and its closing quote: backslashes are doubled where a quote follows them,
      and quotes are protected; `n` backslashes are waiting. */
  function Escape(arg: Text, n: nat): Text {
    if arg == [] then Slashes(2 * n) + [QUOTE]
    else if arg[0] == BACKSLASH then Escape(arg[1..], n + 1)
    else Slashes(Doubled(arg[0], n)) + [arg[0]] + Escape(arg[1..], 0)
  }

  /** An argument as somebody may write it: after blanks, quoted or, where that works, as it is. */
  datatype Word = Word(gap: Text, text: Text, bare: bool)

  predicate AllBlank(t: Text) {
    forall i :: 0 <= i < |t| ==> IsBlank(t[i])
  }

  predicate CanBeBare(t: Text) {
    t != [] && QUOTE !in t && forall i :: 0 <= i < |t| ==> !IsBlank(t[i])
  }

  predicate WordOk(w: Word) {
    w.gap != [] && AllBlank(w.gap) && NUL !in w.text && (w.bare ==> CanBeBare(w.text))
  }

  function Shown(w: Word): Text {
    if w.bare then w.text else [QUOTE] + Escape(w.text, 0)
  }

  function Print(w: Word): Text {
    w.gap + Shown(w)
  }

  datatype Words = Nothing | Then(first: Word, rest: Words)

  predicate AllOk(words: Words) {
    words.Then? ==> WordOk(words.first) && AllOk(words.rest)
  }

  function PrintAll(words: Words): Text {
    if words.Nothing? then [] else Print(words.first) + PrintAll(words.rest)
  }

  function Texts(words: Words): seq<Text> {
    if words.Nothing? then [] else [words.first.text] + Texts(words.rest)
  }

  /** `t` is written in the buffer at `p`. */
  predicate At(b: Text, p: nat, t: Text) {
    In(b, p + |t|) && b[p..p + |t|] == t
  }

  lemma AtParts(b: Text, p: nat, t: Text, u: Text)
    requires At(b, p, t + u)
    ensures At(b, p, t) && At(b, p + |t|, u)
  {
    assert b[p..p + |t|] == (t + u)[..|t|];
    assert b[p + |t|..p + |t + u|] == (t + u)[|t|..];
  }

  predicate Ends(b: Text, p: nat) {
    In(b, p) && (b[p] == NUL || IsBlank(b[p]))
  }

  /** Backslashes before a quote are halved. */
  lemma HalvedSlashes(b: Text, p: nat, n: nat, quoted: bool)
    requires At(b, p, Slashes(n))
    ensures Argument(b, p, quoted, 0) == Argument(b, p + n, quoted, n)
  {
    assert forall i :: p <= i < p + n ==> b[i] == Slashes(n)[i - p];
    SlashesCounted(b, p, p + n, quoted, 0);
  }

  lemma ClosingIsRead(b: Text, p: nat, n: nat)
    requires At(b, p, Slashes(2 * n) + [QUOTE]) && Ends(b, p + 2 * n + 1)
    ensures Argument(b, p, true, 0) == Piece(Slashes(n), p + 2 * n + 1)
  {
    AtParts(b, p, Slashes(2 * n), [QUOTE]);
    HalvedSlashes(b, p, 2 * n, true);
    assert b[p + 2 * n] == b[p + 2 * n..p + 2 * n + 1][0] == QUOTE;
    assert Slashes(n) + Slashes(0) == Slashes(n);
  }

  /** A character, protected if it is a quote, and quoted if it is a blank. */
  lemma CharIsRead(b: Text, p: nat, c: WChar, n: nat, quoted: bool)
    requires c != BACKSLASH && c != NUL && (quoted || !IsBlank(c))
    requires At(b, p, Slashes(Doubled(c, n)) + [c])
    requires In(b, p + Doubled(c, n) + 1)
    ensures Argument(b, p, quoted, 0)
            == Prepend(Slashes(n) + [c], Argument(b, p + Doubled(c, n) + 1, quoted, 0))
  {
    var k := Doubled(c, n);
    AtParts(b, p, Slashes(k), [c]);
    HalvedSlashes(b, p, k, quoted);
    assert b[p + k] == b[p + k..p + k + 1][0] == c;
  }

  lemma CharThenRest(b: Text, p: nat, arg: Text, n: nat, end: nat)
    requires arg != [] && arg[0] != BACKSLASH && arg[0] != NUL
    requires At(b, p, Slashes(Doubled(arg[0], n)) + [arg[0]])
    requires In(b, p + Doubled(arg[0], n) + 1)
    requires Argument(b, p + Doubled(arg[0], n) + 1, true, 0) == Piece(Slashes(0) + arg[1..], end)
    ensures Argument(b, p, true, 0) == Piece(Slashes(n) + arg, end)
  {
    CharIsRead(b, p, arg[0], n, true);
    assert Slashes(n) + [arg[0]] + (Slashes(0) + arg[1..]) == Slashes(n) + arg;
  }

  lemma OneMoreSlash(arg: Text, n: nat)
    requires arg != [] && arg[0] == BACKSLASH
    ensures Slashes(n + 1) + arg[1..] == Slashes(n) + arg
  {
  }

  lemma EscapeParts(b: Text, p: nat, arg: Text, n: nat)
    requires arg != [] && arg[0] != BACKSLASH && At(b, p, Escape(arg, n))
    ensures var q := p + Doubled(arg[0], n) + 1;
            && At(b, p, Slashes(Doubled(arg[0], n)) + [arg[0]])
            && At(b, q, Escape(arg[1..], 0))
            && q + |Escape(arg[1..], 0)| == p + |Escape(arg, n)|
  {
    AtParts(b, p, Slashes(Doubled(arg[0], n)) + [arg[0]], Escape(arg[1..], 0));
  }

  lemma {:induction false} EscapeIsRead(b: Text, p: nat, arg: Text, n: nat)
    requires At(b, p, Escape(arg, n)) && NUL !in arg && Ends(b, p + |Escape(arg, n)|)
    ensures Argument(b, p, true, 0) == Piece(Slashes(n) + arg, p + |Escape(arg, n)|)
    decreases |arg|
  {
    if arg == [] {
      ClosingIsRead(b, p, n);
      assert Slashes(n) + arg == Slashes(n);
    } else if arg[0] == BACKSLASH {
      EscapeIsRead(b, p, arg[1..], n + 1);
      OneMoreSlash(arg, n);
    } else {
      EscapeParts(b, p, arg, n);
      EscapeIsRead(b, p + Doubled(arg[0], n) + 1, arg[1..], 0);
      CharThenRest(b, p, arg, n, p + |Escape(arg, n)|);
    }
  }

  lemma BareParts(b: Text, p: nat, arg: Text)
    requires arg != [] && At(b, p, arg)
    ensures b[p] == arg[0] && At(b, p + 1, arg[1..])
  {
    assert arg == [arg[0]] + arg[1..];
    AtParts(b, p, [arg[0]], arg[1..]);
    assert b[p] == b[p..p + 1][0];
  }

  lemma {:induction false} BareIsRead(b: Text, p: nat, arg: Text, n: nat)
    requires At(b, p, arg) && NUL !in arg && (arg == [] || CanBeBare(arg)) && Ends(b, p + |arg|)
    ensures Argument(b, p, false, n) == Piece(Slashes(n) + arg, p + |arg|)
    decreases |arg|
  {
    if arg == [] {
      assert Slashes(n) + arg == Slashes(n);
    } else {
      BareParts(b, p, arg);
      if arg[0] == BACKSLASH {
        BareIsRead(b, p + 1, arg[1..], n + 1);
        OneMoreSlash(arg, n);
      } else {
        BareIsRead(b, p + 1, arg[1..], 0);
        assert Slashes(n) + [arg[0]] + (Slashes(0) + arg[1..]) == Slashes(n) + arg;
      }
    }
  }

  lemma GapIsSkipped(b: Text, p: nat, gap: Text)
    requires At(b, p, gap) && AllBlank(gap)
    ensures Arguments(b, p) == Arguments(b, p + |gap|)
  {
    assert forall i :: p <= i < p + |gap| ==> b[i] == b[p..p + |gap|][i - p];
    BlanksSkipped(b, p, p + |gap|);
  }

  lemma QuotedIsRead(b: Text, p: nat, arg: Text)
    requires NUL !in arg && At(b, p, [QUOTE] + Escape(arg, 0)) && Ends(b, p + 1 + |Escape(arg, 0)|)
    ensures b[p] == QUOTE && Argument(b, p, false, 0) == Piece(arg, p + 1 + |Escape(arg, 0)|)
  {
    AtParts(b, p, [QUOTE], Escape(arg, 0));
    assert b[p] == b[p..p + 1][0];
    EscapeIsRead(b, p + 1, arg, 0);
    assert Slashes(0) + (Slashes(0) + arg) == arg;
  }

  lemma ShownIsRead(b: Text, p: nat, w: Word)
    requires WordOk(w) && At(b, p, Shown(w)) && Ends(b, p + |Shown(w)|)
    ensures Argument(b, p, false, 0) == Piece(w.text, p + |Shown(w)|) && b[p] != NUL && !IsBlank(b[p])
  {
    if w.bare {
      assert b[p] == b[p..p + |w.text|][0] == w.text[0];
      BareIsRead(b, p, w.text, 0);
      assert Slashes(0) + w.text == w.text;
    } else {
      QuotedIsRead(b, p, w.text);
    }
  }

  lemma WordIsRead(b: Text, p: nat, w: Word)
    requires WordOk(w) && At(b, p, Print(w)) && Ends(b, p + |Print(w)|)
    ensures Arguments(b, p) == [w.text] + Arguments(b, p + |Print(w)|)
  {
    AtParts(b, p, w.gap, Shown(w));
    GapIsSkipped(b, p, w.gap);
    ShownIsRead(b, p + |w.gap|, w);
  }

  lemma RestStartsBlank(words: Words, gap: Text)
    requires AllOk(words) && AllBlank(gap)
    ensures var rest := PrintAll(words) + gap; rest != [] ==> IsBlank(rest[0])
  {
  }

  /** A word is followed by the gap of the next one or by the end of the line. */
  lemma WordEnds(b: Text, q: nat, words: Words, gap: Text)
    requires AllOk(words) && AllBlank(gap)
    requires At(b, q, PrintAll(words) + gap) && b[q + |PrintAll(words) + gap|] == NUL
    ensures Ends(b, q)
  {
    var rest := PrintAll(words) + gap;
    RestStartsBlank(words, gap);
    if rest != [] { assert b[q] == b[q..q + |rest|][0] == rest[0]; }
  }

  lemma ThreeParts(b: Text, p: nat, t: Text, u: Text, v: Text)
    requires At(b, p, t + u + v)
    ensures At(b, p, t) && At(b, p + |t|, u + v)
  {
    assert t + u + v == t + (u + v);
    AtParts(b, p, t, u + v);
  }

  lemma WordParts(b: Text, p: nat, words: Words, gap: Text)
    requires words.Then? && At(b, p, PrintAll(words) + gap)
    ensures var q := p + |Print(words.first)|;
            && At(b, p, Print(words.first))
            && At(b, q, PrintAll(words.rest) + gap)
            && q + |PrintAll(words.rest) + gap| == p + |PrintAll(words) + gap|
  {
    ThreeParts(b, p, Print(words.first), PrintAll(words.rest), gap);
  }

  lemma FirstWordIsRead(b: Text, p: nat, words: Words, gap: Text)
    requires words.Then? && AllOk(words) && AllBlank(gap)
    requires At(b, p, PrintAll(words) + gap) && b[p + |PrintAll(words) + gap|] == NUL
    ensures var q := p + |Print(words.first)|;
            && At(b, q, PrintAll(words.rest) + gap)
            && q + |PrintAll(words.rest) + gap| == p + |PrintAll(words) + gap|
            && Arguments(b, p) == [words.first.text] + Arguments(b, q)
  {
    WordParts(b, p, words, gap);
    WordEnds(b, p + |Print(words.first)|, words.rest, gap);
    WordIsRead(b, p, words.first);
  }

  lemma NothingIsRead(b: Text, p: nat, gap: Text)
    requires AllBlank(gap) && At(b, p, [] + gap) && b[p + |[] + gap|] == NUL
    ensures Arguments(b, p) == []
  {
    assert [] + gap == gap;
    GapIsSkipped(b, p, gap);
  }

  lemma {:induction false} WordsAreRead(b: Text, p: nat, words: Words, gap: Text)
    requires AllOk(words) && AllBlank(gap)
    requires At(b, p, PrintAll(words) + gap) && b[p + |PrintAll(words) + gap|] == NUL
    ensures Arguments(b, p) == Texts(words)
    decreases words
  {
    if words.Nothing? {
      NothingIsRead(b, p, gap);
    } else {
      FirstWordIsRead(b, p, words, gap);
      WordsAreRead(b, p + |Print(words.first)|, words.rest, gap);
    }
  }

  // ----- Round trips -----

  /** Some command line starts with this program name. */
  predicate CanBeProgram(t: Text) {
    QUOTE !in t || (t[0] != QUOTE && forall i :: 0 <= i < |t| ==> !IsBlank(t[i]))
  }

  function PrintProgram(t: Text): Text {
    if QUOTE in t then t else [QUOTE] + t + [QUOTE]
  }

  function Line(program: Text, words: Words, gap: Text): Text {
    PrintProgram(program) + (PrintAll(words) + gap)
  }

  lemma {:induction false} ToQuoteIs(b: Text, p: nat, q: nat)
    requires p <= q && In(b, q) && (forall i :: p <= i < q ==> b[i] != NUL && b[i] != QUOTE)
    requires b[q] == NUL || b[q] == QUOTE
    ensures ToQuote(b, p) == q
    decreases q - p
  {
    if p == q {
    } else {
      ToQuoteIs(b, p + 1, q);
    }
  }

  lemma {:induction false} ToBlankIs(b: Text, p: nat, q: nat)
    requires p <= q && In(b, q) && (forall i :: p <= i < q ==> b[i] != NUL && !IsBlank(b[i]))
    requires b[q] == NUL || IsBlank(b[q])
    ensures ToBlank(b, p) == q
    decreases q - p
  {
    if p == q {
    } else {
      ToBlankIs(b, p + 1, q);
    }
  }

  lemma QuotedProgramIsRead(program: Text, rest: Text)
    requires QUOTE !in program && NUL !in program
    ensures In(PrintProgram(program) + rest + [NUL], |program| + 2)
    ensures Tokens(PrintProgram(program) + rest)
            == [program] + Arguments(PrintProgram(program) + rest + [NUL], |program| + 2)
  {
    var b := PrintProgram(program) + rest + [NUL];
    assert forall i :: 1 <= i < |program| + 1 ==> b[i] == program[i - 1];
    ToQuoteIs(b, 1, |program| + 1);
    assert b[1..|program| + 1] == program;
  }

  lemma BareProgramIsRead(program: Text, rest: Text)
    requires QUOTE in program && CanBeProgram(program) && NUL !in program && (rest != [] ==> IsBlank(rest[0]))
    ensures Tokens(PrintProgram(program) + rest)
            == [program] + Arguments(PrintProgram(program) + rest + [NUL], |program|)
  {
    var b := program + rest + [NUL];
    assert forall i :: 0 <= i < |program| ==> b[i] == program[i];
    ToBlankIs(b, 0, |program|);
    assert b[..|program|] == program;
  }

  lemma RestIsRead(prefix: Text, words: Words, gap: Text)
    requires AllOk(words) && AllBlank(gap)
    ensures var b := prefix + (PrintAll(words) + gap) + [NUL];
            In(b, |prefix|) && Arguments(b, |prefix|) == Texts(words)
  {
    var rest := PrintAll(words) + gap;
    var b := prefix + rest + [NUL];
    assert b[|prefix|..|prefix| + |rest|] == rest;
    WordsAreRead(b, |prefix|, words, gap);
  }

  /** Splitting a printed list of arguments returns the list, however the arguments are quoted and spaced. */
  lemma RoundTrip(program: Text, words: Words, gap: Text)
    requires CanBeProgram(program) && NUL !in program
    requires AllOk(words) && AllBlank(gap)
    ensures Tokens(Line(program, words, gap)) == [program] + Texts(words)
  {
    RestIsRead(PrintProgram(program), words, gap);
    if QUOTE in program {
      RestStartsBlank(words, gap);
      BareProgramIsRead(program, PrintAll(words) + gap);
    } else {
      QuotedProgramIsRead(program, PrintAll(words) + gap);
    }
  }

  function Plain(args: seq<Text>): Words {
    if args == [] then Nothing else Then(Word([SPACE], args[0], false), Plain(args[1..]))
  }

  lemma {:induction false} PlainOk(args: seq<Text>)
    requires forall a :: a in args ==> NUL !in a
    ensures Texts(Plain(args)) == args && AllOk(Plain(args)) && NUL !in PrintAll(Plain(args))
  {
    if args == [] {
    } else {
      PlainOk(args[1..]);
      NoNulWritten(args[0], 0);
    }
  }

  lemma {:induction false} NoNulWritten(arg: Text, n: nat)
    requires NUL !in arg
    ensures NUL !in Escape(arg, n)
    decreases |arg|
  {
    if arg == [] {
    } else {
      NoNulWritten(arg[1..], if arg[0] == BACKSLASH then n + 1 else 0);
    }
  }

  lemma Written(args: seq<Text>) returns (line: Text)
    requires args != [] && (forall a :: a in args ==> NUL !in a) && CanBeProgram(args[0])
    ensures NUL !in line && Tokens(line) == args
  {
    PlainOk(args[1..]);
    RoundTrip(args[0], Plain(args[1..]), []);
    line := Line(args[0], Plain(args[1..]), []);
    assert [args[0]] + args[1..] == args;
  }

  /** Program names are the only restriction: exactly these lists are what some line without NULs splits into. */
  lemma Expressible(args: seq<Text>)
    requires args != [] && forall a :: a in args ==> NUL !in a
    ensures (exists line :: NUL !in line && Tokens(line) == args) <==> CanBeProgram(args[0])
  {
    if CanBeProgram(args[0]) {
      var line := Written(args);
    }
    forall line | NUL !in line && Tokens(line) == args
      ensures CanBeProgram(args[0])
    {
      FirstToken(line);
    }
  }

  lemma FirstToken(line: Text)
    requires NUL !in line
    ensures CanBeProgram(Tokens(line)[0])
  {
    var b := line + [NUL];
    if b[0] == QUOTE {
      var q := ToQuote(b, 1);
      if b[q] == NUL { assert q == |line|; }
      assert b[q] == NUL ==> b[1..q] == line[1..];
      assert forall i :: 0 <= i < q - 1 ==> b[1..q][i] == b[i + 1];
    } else {
      var q := ToBlank(b, 0);
      assert Tokens(line)[0] == b[..q];
    }
  }

  /** A quoted --name=value, with no terminator and no other assignment before it, yields any value whatsoever. */
  lemma SwitchRoundTrip(program: Text, words: Words, gap: Text, i: nat, name: Text, value: Text)
    requires CanBeProgram(program) && NUL !in program
    requires AllOk(words) && AllBlank(gap)
    requires AssignedAt([program] + Texts(words), i, name, value)
    ensures Assigned(Tokens(Line(program, words, gap)), name, value)
  {
    RoundTrip(program, words, gap);
  }
}
