/** The few Python string operations the modelled code relies on:
    `in` on strings, `str.split(c)` with a one-character separator,
    `sep.join(parts)`, `str.split()` on whitespace, `str.endswith`,
    `os.path.basename`, and zero-padded decimal formatting. */
module Text {

  /** `sub` occurs in `s` starting at position `k`. */
  predicate OccursAt(s: string, sub: string, k: int)
  {
    0 <= k && k + |sub| <= |s| && s[k..k + |sub|] == sub
  }

  /** Python's `sub in s` for strings. */
  predicate Contains(s: string, sub: string)
  {
    exists k :: 0 <= k <= |s| && OccursAt(s, sub, k)
  }

  /** A string contains each of its middle parts. */
  lemma ContainsMiddle(pre: string, sub: string, post: string)
    ensures Contains(pre + sub + post, sub)
  {
    assert (pre + sub + post)[|pre|..|pre| + |sub|] == sub;
    assert OccursAt(pre + sub + post, sub, |pre|);
  }

  /** A string lacking one of the characters of `sub` does not contain it. */
  lemma MissingCharRulesOut(s: string, sub: string, ch: char)
    requires ch in sub && ch !in s
    ensures !Contains(s, sub)
  {
    var j :| 0 <= j < |sub| && sub[j] == ch;
    forall k | 0 <= k && k + |sub| <= |s|
      ensures !OccursAt(s, sub, k)
    {
      assert s[k..k + |sub|][j] != ch;
    }
  }

  /** The position of the first `c` in `s`. */
  function IndexOf(s: string, c: char): (r: nat)
    requires c in s
    ensures r < |s| && s[r] == c && c !in s[..r]
  {
    if s[0] == c then 0 else 1 + IndexOf(s[1..], c)
  }

  /** Python's `s.split(c)`: the pieces between occurrences of `c`, empty
      pieces included, so there is always at least one piece. */
  function Split(s: string, c: char): (r: seq<string>)
    ensures |r| >= 1
    decreases |s|
  {
    if c !in s then [s]
    else
      var i := IndexOf(s, c);
      [s[..i]] + Split(s[i + 1..], c)
  }

  /** Python's `sep.join(parts)`. */
  function Join(sep: string, parts: seq<string>): string
  {
    if parts == [] then ""
    else if |parts| == 1 then parts[0]
    else parts[0] + sep + Join(sep, parts[1..])
  }

  /** Splitting at `c` and joining with `c` gives the string back. */
  lemma {:induction false} JoinSplit(s: string, c: char)
    ensures Join([c], Split(s, c)) == s
    decreases |s|
  {
    if c in s {
      var i := IndexOf(s, c);
      JoinSplit(s[i + 1..], c);
      JoinCons([c], s[..i], Split(s[i + 1..], c));
      PieceAround(s, i);
    }
  }

  /** Joining a part in front of at least one other puts the separator after it. */
  lemma JoinCons(sep: string, head: string, rest: seq<string>)
    requires rest != []
    ensures Join(sep, [head] + rest) == head + sep + Join(sep, rest)
  {
    assert ([head] + rest)[1..] == rest;
  }

  /** A string is the part before position `i`, the character there, and the rest. */
  lemma PieceAround(s: string, i: nat)
    requires i < |s|
    ensures s == s[..i] + [s[i]] + s[i + 1..]
  {
    assert s[..i] + [s[i]] == s[..i + 1];
  }

  /** Joining one more part appends the separator and that part. */
  lemma {:induction false} JoinSnoc(sep: string, parts: seq<string>, last: string)
    requires parts != []
    ensures Join(sep, parts + [last]) == Join(sep, parts) + sep + last
    decreases |parts|
  {
    if |parts| == 1 {
      assert parts + [last] == [parts[0], last];
    } else {
      assert (parts + [last])[1..] == parts[1..] + [last];
      JoinSnoc(sep, parts[1..], last);
    }
  }

  /** No piece of a split contains the separator. */
  lemma {:induction false} SplitPiecesLackSeparator(s: string, c: char)
    ensures forall k :: 0 <= k < |Split(s, c)| ==> c !in Split(s, c)[k]
    decreases |s|
  {
    if c in s {
      var i := IndexOf(s, c);
      SplitPiecesLackSeparator(s[i + 1..], c);
    }
  }

  /** The first piece of a split is everything before the first separator. */
  lemma SplitHead(s: string, c: char)
    ensures Split(s, c)[0] == if c in s then s[..IndexOf(s, c)] else s
  {
  }

  /** When `a` has no `c`, the first piece of `a + [c] + b` is `a`, and the
      rest of the pieces are those of `b`. */
  lemma SplitAfterFirst(a: string, c: char, b: string)
    requires c !in a
    ensures Split(a + [c] + b, c) == [a] + Split(b, c)
  {
    var s := a + [c] + b;
    assert s[..|a|] == a;
    assert s[|a|] == c;
    var i := IndexOf(s, c);
    assert s[..i] == a;
    assert s[i + 1..] == b;
  }

  /** A string holding the separator splits into at least two pieces. */
  lemma SplitAtSeparator(s: string, c: char)
    requires c in s
    ensures |Split(s, c)| >= 2
  {
    SplitAtFirst(s, c);
  }

  /** The first `c` is the one with no `c` before it. */
  lemma IndexOfUnique(s: string, c: char, i: nat)
    requires i < |s| && s[i] == c && c !in s[..i]
    ensures IndexOf(s, c) == i
  {
    var r := IndexOf(s, c);
    forall k | 0 <= k < i
      ensures s[k] != c
    {
      assert s[..i][k] == s[k];
    }
    forall k | 0 <= k < r
      ensures s[k] != c
    {
      assert s[..r][k] == s[k];
    }
  }

  /** A string holding `c` splits into the part before its first `c` and
      the pieces of the rest. */
  lemma SplitAtFirst(s: string, c: char)
    requires c in s
    ensures Split(s, c) == [s[..IndexOf(s, c)]] + Split(s[IndexOf(s, c) + 1..], c)
  {
  }

  /** The first separator of `a + [c] + b` is that of `a` when `a` has one. */
  lemma SplitConcatFirst(a: string, c: char, b: string)
    requires c in a
    ensures Split(a + [c] + b, c) == [a[..IndexOf(a, c)]] + Split(a[IndexOf(a, c) + 1..] + [c] + b, c)
  {
    var s := a + [c] + b;
    var i := IndexOf(a, c);
    assert s[..i] == a[..i];
    assert s[i] == c;
    IndexOfUnique(s, c, i);
    SplitAtFirst(s, c);
    assert s[i + 1..] == a[i + 1..] + [c] + b;
  }

  /** Regrouping `h + (ra + rb)` as `(h + ra) + rb`, on named pieces. */
  lemma Regroup<T>(x: seq<T>, h: seq<T>, y: seq<T>, a: seq<T>, ra: seq<T>, rb: seq<T>)
    requires x == h + y && y == ra + rb && a == h + ra
    ensures x == a + rb
  {
  }

  /** Splitting at a separator splits the two sides independently. */
  lemma {:induction false} SplitConcat(a: string, c: char, b: string)
    ensures Split(a + [c] + b, c) == Split(a, c) + Split(b, c)
    decreases |a|
  {
    if c !in a {
      SplitAfterFirst(a, c, b);
    } else {
      var i := IndexOf(a, c);
      SplitConcat(a[i + 1..], c, b);
      SplitConcatFirst(a, c, b);
      SplitAtFirst(a, c);
      Regroup(Split(a + [c] + b, c), [a[..i]], Split(a[i + 1..] + [c] + b, c),
              Split(a, c), Split(a[i + 1..], c), Split(b, c));
    }
  }

  /** The characters Python's `str.split()` splits at: the ASCII
      whitespace and separators (tab through carriage return, the file,
      group, record and unit separators, space) and the Unicode ones (next
      line, no-break space, Ogham space mark, the spaces from en quad to
      hair space, line and paragraph separators, narrow no-break space,
      medium mathematical space, ideographic space). */
  predicate IsSpace(ch: char)
  {
    || '\U{9}' <= ch <= '\U{D}'
    || '\U{1C}' <= ch <= '\U{20}'
    || ch == '\U{85}' || ch == '\U{A0}' || ch == '\U{1680}'
    || '\U{2000}' <= ch <= '\U{200A}'
    || ch == '\U{2028}' || ch == '\U{2029}' || ch == '\U{202F}' || ch == '\U{205F}' || ch == '\U{3000}'
  }

  /** Length of the leading run of non-whitespace characters. */
  function RunLength(s: string): (n: nat)
    ensures n <= |s|
    ensures forall k :: 0 <= k < n ==> !IsSpace(s[k])
    ensures n < |s| ==> IsSpace(s[n])
  {
    if s == [] || IsSpace(s[0]) then 0 else 1 + RunLength(s[1..])
  }

  /** Python's `s.split()` with no argument: the maximal runs of
      non-whitespace characters, in order. */
  function Words(s: string): (r: seq<string>)
    decreases |s|
  {
    if s == [] then []
    else if IsSpace(s[0]) then Words(s[1..])
    else
      var n := RunLength(s);
      [s[..n]] + Words(s[n..])
  }

  /** A word followed by whitespace or by nothing is read whole. */
  lemma {:induction false} RunLengthOfWord(w: string, s: string)
    requires forall k :: 0 <= k < |w| ==> !IsSpace(w[k])
    requires s == [] || IsSpace(s[0])
    ensures RunLength(w + s) == |w|
  {
    if w != [] {
      assert (w + s)[1..] == w[1..] + s;
      RunLengthOfWord(w[1..], s);
    }
  }

  /** The words of a text that starts with a word ended by whitespace (or by
      the end of the text): that word, then the words of the rest. */
  lemma WordsOfWordThen(w: string, s: string)
    requires |w| > 0 && forall k :: 0 <= k < |w| ==> !IsSpace(w[k])
    requires s == [] || IsSpace(s[0])
    ensures Words(w + s) == [w] + Words(s)
  {
    RunLengthOfWord(w, s);
    assert (w + s)[..|w|] == w;
    assert (w + s)[|w|..] == s;
  }

  /** Leading whitespace does not change the words. */
  lemma WordsAfterSpace(ch: char, s: string)
    requires IsSpace(ch)
    ensures Words([ch] + s) == Words(s)
  {
    assert ([ch] + s)[1..] == s;
  }

  /** Every word is non-empty and holds no whitespace. */
  lemma {:induction false} WordsAreWords(s: string)
    ensures forall k :: 0 <= k < |Words(s)| ==>
      |Words(s)[k]| > 0 && forall j :: 0 <= j < |Words(s)[k]| ==> !IsSpace(Words(s)[k][j])
    decreases |s|
  {
    if s == [] {
    } else if IsSpace(s[0]) {
      WordsAreWords(s[1..]);
    } else {
      WordsAreWords(s[RunLength(s)..]);
    }
  }

  /** Python's `s.endswith(suffix)`. */
  predicate EndsWith(s: string, suffix: string)
  {
    |suffix| <= |s| && s[|s| - |suffix|..] == suffix
  }

  /** One more element taken from the front of a sequence. */
  lemma TakeOneMore<T>(s: seq<T>, i: nat)
    requires i < |s|
    ensures s[..i + 1] == s[..i] + [s[i]]
  {
  }

  /** The last element of a non-empty sequence (Python's `xs[-1]`). */
  function Last<T>(xs: seq<T>): T
    requires |xs| > 0
  {
    xs[|xs| - 1]
  }

  /** What follows the last `sep` of `s` (all of `s` without one). */
  function LastPiece(s: string, sep: char): (r: string)
    ensures sep !in r
  {
    SplitPiecesLackSeparator(s, sep);
    Last(Split(s, sep))
  }

  /** `os.path.basename`: what follows the last `/`. */
  function Basename(path: string): string
  {
    LastPiece(path, '/')
  }

  /** `prefix + x` for each `x`, in order. */
  function Prefixed(prefix: string, xs: seq<string>): (r: seq<string>)
    ensures |r| == |xs|
    ensures forall k :: 0 <= k < |xs| ==> r[k] == prefix + xs[k]
  {
    seq(|xs|, k requires 0 <= k < |xs| => prefix + xs[k])
  }

  /** Prefixing one more element of a list adds one more prefixed element. */
  lemma PrefixedSnoc(prefix: string, xs: seq<string>, i: nat)
    requires i < |xs|
    ensures Prefixed(prefix, xs[..i + 1]) == Prefixed(prefix, xs[..i]) + [prefix + xs[i]]
  {
  }

  /** A list that continues with `g` and then `rest` from position `at`
      holds `g` between `at` and `at + |g|`. */
  lemma Group<T>(r: seq<T>, at: nat, g: seq<T>, rest: seq<T>)
    requires at <= |r| && r[at..] == g + rest
    ensures at + |g| <= |r| && r[at..at + |g|] == g && r[at + |g|..] == rest
  {
    assert r[at..at + |g|] == r[at..][..|g|];
    assert r[at + |g|..] == r[at..][|g|..];
  }

  /** Where each of five lists sits in their concatenation after `h`. */
  lemma Sections5<T>(h: seq<T>, a: seq<T>, b: seq<T>, c: seq<T>, d: seq<T>, e: seq<T>)
    ensures var r := h + a + b + c + d + e;
      var i := |h| + |a|;
      var j := i + |b|;
      var k := j + |c|;
      var l := k + |d|;
      && |r| == l + |e|
      && r[|h|..i] == a && r[i..j] == b && r[j..k] == c && r[k..l] == d && r[l..] == e
  {
    var r := h + a + b + c + d + e;
    assert r[|h|..] == a + (b + (c + (d + e)));
    Group(r, |h|, a, b + (c + (d + e)));
    Group(r, |h| + |a|, b, c + (d + e));
    Group(r, |h| + |a| + |b|, c, d + e);
    Group(r, |h| + |a| + |b| + |c|, d, e);
  }

  /** An empty prefix leaves the list as it is. */
  lemma PrefixedNothing(xs: seq<string>)
    ensures Prefixed("", xs) == xs
  {
    assert forall k :: 0 <= k < |xs| ==> "" + xs[k] == xs[k];
  }

  /** The ASCII digit for 0..9. */
  function DigitChar(d: nat): (ch: char)
    requires d < 10
    ensures '0' <= ch <= '9'
  {
    ['0', '1', '2', '3', '4', '5', '6', '7', '8', '9'][d]
  }

  function Pow10(w: nat): (p: nat)
    ensures p >= 1
  {
    if w == 0 then 1 else 10 * Pow10(w - 1)
  }

  /** `n` written in exactly `width` decimal digits, zero-padded on the left,
      as `strftime` writes `%Y` (width 4) and `%m`, `%d`, `%H`, `%M`, `%S`
      (width 2). */
  function Digits(n: nat, width: nat): (r: string)
    requires n < Pow10(width)
    ensures |r| == width
  {
    if width == 0 then "" else Digits(n / 10, width - 1) + [DigitChar(n % 10)]
  }

  /** Every character written is a decimal digit. */
  lemma {:induction false} DigitsAreDigits(n: nat, width: nat)
    requires n < Pow10(width)
    ensures forall k :: 0 <= k < width ==> '0' <= Digits(n, width)[k] <= '9'
  {
    if width > 0 {
      DigitsAreDigits(n / 10, width - 1);
    }
  }
}
