/** The pieces of Python's string and integer built-ins that the service
    relies on, over ASCII: `str.isspace`, `str.lower`, `sub in s`,
    `str.split()` with no separator, `int(s)` and `str(i)`. */
module PyText {
  import opened Jobs

  /** `c.isspace()` for ASCII characters: tab, line feed, vertical tab, form
      feed, carriage return, the separators 0x1C to 0x1F, and space. */
  predicate IsSpace(c: char) {
    var n := c as int;
    (9 <= n <= 13) || (28 <= n <= 32)
  }

  /** `c.lower()` for ASCII characters. */
  function LowerChar(c: char): char {
    if 'A' <= c <= 'Z' then (c as int + 32) as char else c
  }

  /** `s.lower()`: every character lowered in place. */
  function Lower(s: string): (r: string)
    ensures |r| == |s|
    ensures forall i :: 0 <= i < |s| ==> r[i] == LowerChar(s[i])
  {
    seq(|s|, i requires 0 <= i < |s| => LowerChar(s[i]))
  }

  /** Lowering changes no character's whitespace class, so `lower()` keeps
      every word of the text where it was. */
  lemma LowerKeepsSpace(s: string)
    ensures forall i :: 0 <= i < |s| ==> (IsSpace(Lower(s)[i]) <==> IsSpace(s[i]))
  {
  }

  predicate StartsWith(s: string, prefix: string) {
    |prefix| <= |s| && s[..|prefix|] == prefix
  }

  /** sub occurs in s starting at index i. */
  predicate OccursAt(s: string, sub: string, i: int) {
    0 <= i && i + |sub| <= |s| && s[i..i + |sub|] == sub
  }

  /** Python's `sub in s`: sub occurs in s at some index. */
  predicate Contains(s: string, sub: string) {
    exists i :: 0 <= i <= |s| && OccursAt(s, sub, i)
  }

  /** A left-to-right scan for sub: s starts with it, or the rest of s
      contains it. */
  predicate Scan(s: string, sub: string)
    decreases |s|
  {
    StartsWith(s, sub) || (|s| > 0 && Scan(s[1..], sub))
  }

  /** The scan succeeds exactly when sub occurs in s at some index. */
  lemma {:induction false} ScanFindsOccurrence(s: string, sub: string)
    ensures Scan(s, sub) <==> Contains(s, sub)
    decreases |s|
  {
    if StartsWith(s, sub) {
      assert OccursAt(s, sub, 0);
    } else if |s| > 0 {
      ScanFindsOccurrence(s[1..], sub);
      if Scan(s, sub) {
        var i :| 0 <= i <= |s[1..]| && OccursAt(s[1..], sub, i);
        assert s[1..][i..i + |sub|] == s[i + 1..i + 1 + |sub|];
        assert OccursAt(s, sub, i + 1);
      }
      if Contains(s, sub) {
        var i :| 0 <= i <= |s| && OccursAt(s, sub, i);
        assert i != 0;
        assert s[1..][i - 1..i - 1 + |sub|] == s[i..i + |sub|];
        assert OccursAt(s[1..], sub, i - 1);
      }
    }
  }

  /** s has at least one character that is not whitespace. */
  predicate HasWordChar(s: string) {
    exists i :: 0 <= i < |s| && !IsSpace(s[i])
  }

  /** A non-empty text without whitespace, as every item of `split()` is. */
  predicate IsWord(w: string) {
    |w| > 0 && forall j :: 0 <= j < |w| ==> !IsSpace(w[j])
  }

  /** The length of the run of whitespace s starts with. */
  function LeadingSpaces(s: string): (n: nat)
    ensures n <= |s|
    ensures forall i :: 0 <= i < n ==> IsSpace(s[i])
    ensures n < |s| ==> !IsSpace(s[n])
    decreases |s|
  {
    if |s| > 0 && IsSpace(s[0]) then 1 + LeadingSpaces(s[1..]) else 0
  }

  /** The length of the run of non-whitespace s starts with. */
  function LeadingWord(s: string): (n: nat)
    ensures n <= |s|
    ensures forall i :: 0 <= i < n ==> !IsSpace(s[i])
    ensures n < |s| ==> IsSpace(s[n])
    decreases |s|
  {
    if |s| > 0 && !IsSpace(s[0]) then 1 + LeadingWord(s[1..]) else 0
  }

  /** `s.split()`: skip whitespace, take the word that follows, repeat. */
  function Words(s: string): seq<string>
    decreases |s|
  {
    var t := s[LeadingSpaces(s)..];
    if t == [] then []
    else
      var n := LeadingWord(t);
      [t[..n]] + Words(t[n..])
  }

  /** Every item of `split()` is a word: non-empty and free of whitespace. */
  lemma {:induction false} WordsAreWords(s: string)
    ensures forall k :: 0 <= k < |Words(s)| ==> IsWord(Words(s)[k])
    decreases |s|
  {
    var t := s[LeadingSpaces(s)..];
    if t != [] {
      var n := LeadingWord(t);
      assert IsWord(t[..n]) by { assert t[0] == s[LeadingSpaces(s)]; }
      WordsAreWords(t[n..]);
      assert Words(s) == [t[..n]] + Words(t[n..]) by { WordsUnfold(s, t, n); }
    }
  }

  /** `split()` yields no word exactly when the text is all whitespace, which
      is when `split()[-1]` raises IndexError. */
  lemma WordsEmpty(s: string)
    ensures Words(s) == [] <==> !HasWordChar(s)
  {
    var a := LeadingSpaces(s);
    if a < |s| {
      assert !IsSpace(s[a]);
    }
  }

  /** `s.split()[-1]`, defined when s has a word. */
  function LastWord(s: string): string
    requires HasWordChar(s)
  {
    WordsEmpty(s);
    var ws := Words(s);
    ws[|ws| - 1]
  }

  /** s without its trailing whitespace. */
  function TrimEnd(s: string): (r: string)
    ensures |r| <= |s| && r == s[..|r|]
    ensures |r| > 0 ==> !IsSpace(r[|r| - 1])
    ensures forall i :: |r| <= i < |s| ==> IsSpace(s[i])
    decreases |s|
  {
    if |s| > 0 && IsSpace(s[|s| - 1]) then TrimEnd(s[..|s| - 1]) else s
  }

  /** The run of non-whitespace that ends s. */
  function TrailingRun(s: string): string
    decreases |s|
  {
    if |s| > 0 && !IsSpace(s[|s| - 1]) then TrailingRun(s[..|s| - 1]) + [s[|s| - 1]] else []
  }

  /** A reference definition of the last word read from the right: drop the
      trailing whitespace, then take the run of non-whitespace ending the rest. */
  function TrailingWord(s: string): string {
    TrailingRun(TrimEnd(s))
  }

  lemma {:induction false} TrimEndKeepsPrefix(p: string, q: string)
    requires HasWordChar(q)
    ensures TrimEnd(p + q) == p + TrimEnd(q)
    decreases |q|
  {
    var i :| 0 <= i < |q| && !IsSpace(q[i]);
    var pq := p + q;
    assert pq[|pq| - 1] == q[|q| - 1];
    if IsSpace(q[|q| - 1]) {
      var q' := q[..|q| - 1];
      assert q'[i] == q[i];
      assert pq[..|pq| - 1] == p + q';
      TrimEndKeepsPrefix(p, q');
    }
  }

  lemma {:induction false} TrimEndDropsSpaces(x: string, q: string)
    requires !HasWordChar(q)
    ensures TrimEnd(x + q) == TrimEnd(x)
    decreases |q|
  {
    if |q| > 0 {
      var xq := x + q;
      var q' := q[..|q| - 1];
      assert xq[|xq| - 1] == q[|q| - 1];
      assert xq[..|xq| - 1] == x + q';
      assert !HasWordChar(q') by {
        forall j | 0 <= j < |q'| ensures IsSpace(q'[j]) {
          assert q'[j] == q[j];
        }
      }
      TrimEndDropsSpaces(x, q');
    } else {
      assert x + q == x;
    }
  }

  lemma {:induction false} TrailingRunPastSpace(p: string, q: string)
    requires exists j :: 0 <= j < |q| && IsSpace(q[j])
    ensures TrailingRun(p + q) == TrailingRun(q)
    decreases |q|
  {
    var pq := p + q;
    assert pq[|pq| - 1] == q[|q| - 1];
    if !IsSpace(q[|q| - 1]) {
      var j :| 0 <= j < |q| && IsSpace(q[j]);
      var q' := q[..|q| - 1];
      assert q'[j] == q[j];
      assert pq[..|pq| - 1] == p + q';
      TrailingRunPastSpace(p, q');
    }
  }

  lemma {:induction false} TrailingRunOfWord(p: string, w: string)
    requires forall j :: 0 <= j < |w| ==> !IsSpace(w[j])
    requires |p| == 0 || IsSpace(p[|p| - 1])
    ensures TrailingRun(p + w) == w
    decreases |w|
  {
    var pw := p + w;
    if |w| == 0 {
      assert pw == p;
    } else {
      assert pw[|pw| - 1] == w[|w| - 1];
      assert pw[..|pw| - 1] == p + w[..|w| - 1];
      TrailingRunOfWord(p, w[..|w| - 1]);
      assert w[..|w| - 1] + [w[|w| - 1]] == w;
    }
  }

  /** Where the first word of a text with a word ends. */
  function FirstWordEnd(s: string): (e: nat)
    ensures LeadingSpaces(s) <= e <= |s|
  {
    LeadingSpaces(s) + LeadingWord(s[LeadingSpaces(s)..])
  }

  /** The text after the first word. */
  function AfterFirstWord(s: string): string {
    s[FirstWordEnd(s)..]
  }

  /** A text with a word has a non-empty first word. */
  lemma FirstWordNonEmpty(s: string)
    requires HasWordChar(s)
    ensures LeadingSpaces(s) < FirstWordEnd(s)
  {
    var i :| 0 <= i < |s| && !IsSpace(s[i]);
    var a := LeadingSpaces(s);
    assert a <= i;
    assert s[a..][0] == s[a];
  }

  /** One step of `split()` on a text that is not all whitespace. */
  lemma WordsUnfold(s: string, t: string, n: nat)
    requires t == s[LeadingSpaces(s)..] && t != [] && n == LeadingWord(t)
    ensures Words(s) == [t[..n]] + Words(t[n..])
  {
  }

  /** `split()` takes the leading whitespace, then the first word, then
      splits the rest. */
  lemma WordsFirst(s: string)
    requires HasWordChar(s)
    ensures LeadingSpaces(s) < FirstWordEnd(s)
    ensures Words(s) == [s[LeadingSpaces(s)..FirstWordEnd(s)]] + Words(AfterFirstWord(s))
  {
    var a, e := LeadingSpaces(s), FirstWordEnd(s);
    assert a < e by { FirstWordNonEmpty(s); }
    var t := s[a..];
    var n := LeadingWord(t);
    assert e == a + n;
    var w, r := t[..n], t[n..];
    assert w == s[a..e] && r == s[e..] by { SliceOfSlice(s, a, e); }
    assert Words(s) == [w] + Words(r) by { WordsUnfold(s, t, n); }
  }

  /** Slicing the suffix from a is slicing s with the bounds shifted by a. */
  lemma SliceOfSlice(s: string, a: nat, e: nat)
    requires a <= e <= |s|
    ensures s[a..][..e - a] == s[a..e] && s[a..][e - a..] == s[e..]
  {
  }

  /** The text is its leading whitespace, its first word and the rest. */
  lemma FirstWordSplits(s: string)
    ensures s == s[..LeadingSpaces(s)] + s[LeadingSpaces(s)..FirstWordEnd(s)] + AfterFirstWord(s)
  {
    SplitInThree(s, LeadingSpaces(s), FirstWordEnd(s));
  }

  /** A text is its three slices at two cut points. */
  lemma SplitInThree(s: string, a: nat, e: nat)
    requires a <= e <= |s|
    ensures s == s[..a] + s[a..e] + s[e..]
  {
  }

  lemma FirstWordIsWord(s: string)
    requires LeadingSpaces(s) < FirstWordEnd(s)
    ensures IsWord(s[LeadingSpaces(s)..FirstWordEnd(s)])
  {
    var a := LeadingSpaces(s);
    var t := s[a..];
    forall j | 0 <= j < FirstWordEnd(s) - a ensures !IsSpace(s[a..FirstWordEnd(s)][j]) {
      assert s[a..FirstWordEnd(s)][j] == t[j];
    }
  }

  lemma SpaceAroundFirstWord(s: string)
    ensures LeadingSpaces(s) == 0 || IsSpace(s[..LeadingSpaces(s)][LeadingSpaces(s) - 1])
    ensures |AfterFirstWord(s)| == 0 || IsSpace(AfterFirstWord(s)[0])
  {
    var a := LeadingSpaces(s);
    var t := s[a..];
    if |AfterFirstWord(s)| > 0 {
      assert AfterFirstWord(s)[0] == t[LeadingWord(t)];
    }
  }

  /** A word that precedes some non-whitespace and whitespace text does not
      change the word read from the right. */
  lemma TrailingWordPastSpace(x: string, rest: string)
    requires HasWordChar(rest) && IsSpace(rest[0])
    ensures TrailingWord(x + rest) == TrailingWord(rest)
  {
    var j :| 0 <= j < |rest| && !IsSpace(rest[j]);
    var q := TrimEnd(rest);
    assert j < |q|;
    assert q[0] == rest[0];
    TrimEndKeepsPrefix(x, rest);
    TrailingRunPastSpace(x, q);
  }

  /** The last word before trailing whitespace is the word read from the
      right. */
  lemma TrailingWordOfLast(p: string, w: string, rest: string)
    requires IsWord(w) && (|p| == 0 || IsSpace(p[|p| - 1]))
    requires !HasWordChar(rest)
    ensures TrailingWord(p + w + rest) == w
  {
    TrimEndDropsSpaces(p + w, rest);
    var x := p + w;
    assert x[|x| - 1] == w[|w| - 1];
    assert TrimEnd(x) == x;
    TrailingRunOfWord(p, w);
  }

  /** The word read from the right is that of the rest after the first word,
      or the first word when nothing but whitespace follows it. */
  lemma TrailingWordAfterFirst(s: string)
    requires LeadingSpaces(s) < FirstWordEnd(s)
    ensures HasWordChar(AfterFirstWord(s)) ==> TrailingWord(s) == TrailingWord(AfterFirstWord(s))
    ensures !HasWordChar(AfterFirstWord(s)) ==> TrailingWord(s) == s[LeadingSpaces(s)..FirstWordEnd(s)]
  {
    var a, e := LeadingSpaces(s), FirstWordEnd(s);
    var rest := AfterFirstWord(s);
    FirstWordSplits(s);
    FirstWordIsWord(s);
    SpaceAroundFirstWord(s);
    if HasWordChar(rest) {
      TrailingWordPastSpace(s[..a] + s[a..e], rest);
    } else {
      TrailingWordOfLast(s[..a], s[a..e], rest);
    }
  }

  /** `split()[-1]` is the word the reference definition reads from the right. */
  lemma {:induction false} LastWordIsTrailingWord(s: string)
    requires HasWordChar(s)
    ensures Words(s) != [] && Words(s)[|Words(s)| - 1] == TrailingWord(s)
    decreases |s|
  {
    WordsFirst(s);
    TrailingWordAfterFirst(s);
    var rest := AfterFirstWord(s);
    if HasWordChar(rest) {
      LastWordIsTrailingWord(rest);
    } else {
      WordsEmpty(rest);
    }
  }

  /** A keyword that starts with a non-whitespace character can only occur in
      the lowered text where the text has a word, so `split()[-1]` is defined
      wherever the keyword test succeeded. */
  lemma KeywordGivesWord(s: string, keyword: string)
    requires |keyword| > 0 && !IsSpace(keyword[0])
    requires Contains(Lower(s), keyword)
    ensures HasWordChar(s)
  {
    var l := Lower(s);
    var i :| 0 <= i <= |l| && OccursAt(l, keyword, i);
    assert l[i..i + |keyword|][0] == l[i];
    LowerKeepsSpace(s);
    assert !IsSpace(s[i]);
  }

  /** A text can contain `sub` only if it contains sub's first character. */
  lemma ContainsFirstChar(s: string, sub: string)
    requires |sub| > 0 && Contains(s, sub)
    ensures exists i :: 0 <= i < |s| && s[i] == sub[0]
  {
    var i :| 0 <= i <= |s| && OccursAt(s, sub, i);
    assert s[i..i + |sub|][0] == s[i];
  }

  predicate IsDigit(c: char) {
    '0' <= c <= '9'
  }

  predicate AllDigits(s: string) {
    forall i :: 0 <= i < |s| ==> IsDigit(s[i])
  }

  /** The value of a text of decimal digits, read left to right. */
  function DigitsValue(s: string): nat
    requires AllDigits(s)
    decreases |s|
  {
    if |s| == 0 then 0 else DigitsValue(s[..|s| - 1]) * 10 + (s[|s| - 1] as int - '0' as int)
  }

  /** The whitespace `int()` strips from an ASCII text: tab, line feed,
      vertical tab, form feed, carriage return and space.  Unlike `isspace()`,
      it leaves the separators 0x1C to 0x1F in place. */
  predicate IsIntSpace(c: char) {
    var n := c as int;
    (9 <= n <= 13) || n == 32
  }

  /** s consists of whitespace `int()` strips. */
  predicate AllIntSpace(s: string) {
    forall i :: 0 <= i < |s| ==> IsIntSpace(s[i])
  }

  /** s without the whitespace `int()` strips at either end: one character
      at a time, first from the front, then from the back. */
  function Strip(s: string): string
    decreases |s|
  {
    if |s| > 0 && IsIntSpace(s[0]) then Strip(s[1..])
    else if |s| > 0 && IsIntSpace(s[|s| - 1]) then Strip(s[..|s| - 1])
    else s
  }

  /** Decimal digits in which a single underscore may stand between two
      digits: the body `int()` accepts after the sign, in base 10. */
  predicate IsDigitGroups(d: string) {
    && |d| > 0 && IsDigit(d[0]) && IsDigit(d[|d| - 1])
    && DigitsOrUnderscores(d)
    && forall i, j :: 0 <= i < |d| && 0 <= j < |d| && j == i + 1 ==> d[i] != '_' || d[j] != '_'
  }

  predicate DigitsOrUnderscores(d: string) {
    forall i :: 0 <= i < |d| ==> IsDigit(d[i]) || d[i] == '_'
  }

  /** The digits of d, its underscores dropped. */
  function DropUnderscores(d: string): string
    decreases |d|
  {
    if |d| == 0 then "" else (if d[0] == '_' then "" else [d[0]]) + DropUnderscores(d[1..])
  }

  /** `int(s)` in base 10: surrounding whitespace is stripped, then an
      optional sign and digit groups are read; None where `int()` raises
      ValueError. */
  function ParseInt(s: string): Option<int> {
    ParseSigned(Strip(s))
  }

  /** Dropping the underscores of digits and underscores leaves digits. */
  lemma {:induction false} DropUnderscoresDigits(d: string)
    requires DigitsOrUnderscores(d)
    ensures AllDigits(DropUnderscores(d))
    decreases |d|
  {
    if |d| > 0 {
      assert DigitsOrUnderscores(d[1..]) by {
        forall i | 0 <= i < |d[1..]| ensures IsDigit(d[1..][i]) || d[1..][i] == '_' {
          assert d[1..][i] == d[i + 1];
        }
      }
      DropUnderscoresDigits(d[1..]);
    }
  }

  /** An optional sign followed by digit groups. */
  function ParseSigned(t: string): Option<int> {
    var signed := |t| > 0 && (t[0] == '+' || t[0] == '-');
    var d := if signed then t[1..] else t;
    if IsDigitGroups(d) then
      DropUnderscoresDigits(d);
      var m: int := DigitsValue(DropUnderscores(d));
      Some(if signed && t[0] == '-' then -m else m)
    else None
  }

  /** `str(e)` of the ValueError `int(s)` raises. */
  function IntValueError(s: string): string {
    "invalid literal for int() with base 10: '" + s + "'"
  }

  function DigitChar(d: nat): char
    requires d < 10
  {
    ('0' as int + d) as char
  }

  /** `str(n)` for a natural number. */
  function NatText(n: nat): (r: string)
    ensures |r| > 0 && AllDigits(r)
    decreases n
  {
    if n < 10 then [DigitChar(n)] else NatText(n / 10) + [DigitChar(n % 10)]
  }

  /** `str(i)`. */
  function IntText(i: int): string {
    if i < 0 then "-" + NatText(-i) else NatText(i)
  }

  lemma {:induction false} NatTextValue(n: nat)
    ensures DigitsValue(NatText(n)) == n
    decreases n
  {
    if n >= 10 {
      NatTextValue(n / 10);
      var s := NatText(n);
      assert s[..|s| - 1] == NatText(n / 10);
    }
  }

  lemma {:induction false} DropUnderscoresOfDigits(d: string)
    requires AllDigits(d)
    ensures DropUnderscores(d) == d
    decreases |d|
  {
    if |d| > 0 {
      DropUnderscoresOfDigits(d[1..]);
      assert d == [d[0]] + d[1..];
    }
  }

  lemma {:induction false} DropUnderscoresAppend(x: string, y: string)
    ensures DropUnderscores(x + y) == DropUnderscores(x) + DropUnderscores(y)
    decreases |x|
  {
    if |x| > 0 {
      assert (x + y)[1..] == x[1..] + y;
      DropUnderscoresAppend(x[1..], y);
    } else {
      assert x + y == y;
    }
  }

  /** Whitespace around a text that starts and ends with a character `int()`
      does not strip is exactly what `Strip` removes. */
  lemma {:induction false} StripPadded(pre: string, x: string, post: string)
    requires AllIntSpace(pre) && AllIntSpace(post)
    requires |x| > 0 && !IsIntSpace(x[0]) && !IsIntSpace(x[|x| - 1])
    ensures Strip(pre + x + post) == x
    decreases |pre| + |post|
  {
    var s := pre + x + post;
    if |pre| > 0 {
      assert IsIntSpace(pre[0]) && s[0] == pre[0];
      assert s[1..] == pre[1..] + x + post;
      assert AllIntSpace(pre[1..]) by {
        forall j | 0 <= j < |pre[1..]| ensures IsIntSpace(pre[1..][j]) {
          assert pre[1..][j] == pre[j + 1];
        }
      }
      StripPadded(pre[1..], x, post);
    } else if |post| > 0 {
      var post' := post[..|post| - 1];
      assert s[0] == x[0];
      assert IsIntSpace(post[|post| - 1]) && s[|s| - 1] == post[|post| - 1];
      assert s[..|s| - 1] == pre + x + post';
      assert AllIntSpace(post') by {
        forall j | 0 <= j < |post'| ensures IsIntSpace(post'[j]) {
          assert post'[j] == post[j];
        }
      }
      StripPadded(pre, x, post');
    } else {
      assert s == x;
    }
  }

  /** `str(i)` reads back as i once stripped. */
  lemma ParseSignedText(i: int)
    ensures ParseSigned(IntText(i)) == Some(i)
  {
    var t := IntText(i);
    var n := NatText(if i < 0 then -i else i);
    DropUnderscoresOfDigits(n);
    NatTextValue(if i < 0 then -i else i);
    assert IsDigitGroups(n) by {
      assert IsDigit(n[0]) && IsDigit(n[|n| - 1]);
      assert DigitsOrUnderscores(n);
    }
    if i < 0 {
      assert t[0] == '-' && t[1..] == n;
    } else {
      assert t == n && IsDigit(t[0]);
    }
  }

  /** `int(str(i)) == i`, also with the whitespace `int()` strips around the
      text. */
  lemma ParseIntPadded(i: int, pre: string, post: string)
    requires AllIntSpace(pre) && AllIntSpace(post)
    ensures ParseInt(pre + IntText(i) + post) == Some(i)
  {
    var t := IntText(i);
    var n := NatText(if i < 0 then -i else i);
    assert t[|t| - 1] == n[|n| - 1];
    StripPadded(pre, t, post);
    ParseSignedText(i);
  }

  /** `int()` does not strip the separator 0x1C that `split()` breaks words
      at: "\x1c5" is refused. */
  lemma SeparatorIsNotIntSpace()
    ensures IsSpace('\U{1C}') && !IsIntSpace('\U{1C}')
    ensures ParseInt("\U{1C}5") == None
  {
    var t := "\U{1C}5";
    assert Strip(t) == t;
    assert t[0] != '+' && t[0] != '-' && !IsDigit(t[0]);
  }

  /** `int(str(i)) == i`. */
  lemma ParseIntText(i: int)
    ensures ParseInt(IntText(i)) == Some(i)
  {
    ParseIntPadded(i, "", "");
    assert "" + IntText(i) + "" == IntText(i);
  }

  lemma DigitGroupsJoined(a: string, b: string)
    requires |a| > 0 && |b| > 0 && AllDigits(a) && AllDigits(b)
    ensures IsDigitGroups(a + "_" + b)
  {
    var g := a + "_" + b;
    forall k | 0 <= k < |g| ensures IsDigit(g[k]) || (g[k] == '_' && k == |a|) {
      if k < |a| {
        assert g[k] == a[k];
      } else if k > |a| {
        assert g[k] == b[k - |a| - 1];
      }
    }
    assert g[0] == a[0] && g[|g| - 1] == b[|b| - 1];
  }

  lemma DropLeadingUnderscore(b: string)
    ensures DropUnderscores("_" + b) == DropUnderscores(b)
  {
    var u := "_" + b;
    assert u[0] == '_' && u[1..] == b;
    assert DropUnderscores(u) == "" + DropUnderscores(u[1..]);
  }

  lemma DropJoinedUnderscore(a: string, b: string)
    ensures DropUnderscores(a + "_" + b) == DropUnderscores(a) + DropUnderscores(b)
  {
    assert a + "_" + b == a + ("_" + b);
    DropUnderscoresAppend(a, "_" + b);
    DropLeadingUnderscore(b);
  }

  /** Digit groups without sign or whitespace are read as the value of
      their digits. */
  lemma ParseIntOfGroups(g: string)
    requires IsDigitGroups(g)
    ensures AllDigits(DropUnderscores(g))
    ensures ParseInt(g) == Some(DigitsValue(DropUnderscores(g)))
  {
    DropUnderscoresDigits(g);
    StripPadded("", g, "");
    assert "" + g + "" == g;
    assert g[0] != '+' && g[0] != '-';
  }

  lemma AllDigitsJoin(a: string, b: string)
    requires AllDigits(a) && AllDigits(b)
    ensures AllDigits(a + b)
  {
    var ab := a + b;
    forall k | 0 <= k < |ab| ensures IsDigit(ab[k]) {
      if k < |a| { assert ab[k] == a[k]; } else { assert ab[k] == b[k - |a|]; }
    }
  }

  /** An underscore between two digit runs does not change what `int()`
      reads. */
  lemma ParseIntSkipsUnderscore(a: string, b: string)
    requires |a| > 0 && |b| > 0 && AllDigits(a) && AllDigits(b)
    ensures ParseInt(a + "_" + b) == ParseInt(a + b) == Some(DigitsValue(a + b))
  {
    AllDigitsJoin(a, b);
    assert IsDigitGroups(a + b) by {
      assert (a + b)[0] == a[0];
    }
    ParseIntOfGroups(a + b);
    DropUnderscoresOfDigits(a + b);
    DigitGroupsJoined(a, b);
    ParseIntOfGroups(a + "_" + b);
    DropJoinedUnderscore(a, b);
    DropUnderscoresOfDigits(a);
    DropUnderscoresOfDigits(b);
  }
}
