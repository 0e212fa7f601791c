/**
 * The Python string operations the cell's protocol code relies on, restricted to
 * ASCII text: `str.isspace`, `str.strip`, `str.startswith`, `str.split()` (on runs
 * of white space), `str.split(sep)[1]`, `int(text)` and `str(n)` for an int.
 */
module Text {
  import opened Wrappers

  /** The ASCII characters Python's `str.isspace` accepts. */
  predicate IsSpace(c: char) {
    // space, tab, line feed, vertical tab, form feed, carriage return, and the
    // file, group, record and unit separators
    c == ' ' || 9 <= c as int <= 13 || 28 <= c as int <= 31
  }

  predicate IsDigit(c: char) {
    '0' <= c <= '9'
  }

  predicate AllDigits(s: string) {
    forall i :: 0 <= i < |s| ==> IsDigit(s[i])
  }

  predicate StartsWith(s: string, prefix: string) {
    |prefix| <= |s| && s[..|prefix|] == prefix
  }

  /** A prefix of a prefix is a prefix. */
  lemma StartsWithTrans(s: string, p: string, q: string)
    requires StartsWith(s, p) && StartsWith(p, q)
    ensures StartsWith(s, q)
  {
    assert s[..|q|] == s[..|p|][..|q|];
  }

  /** Neither end of `s` is white space (what `strip` leaves behind). */
  predicate IsStripped(s: string) {
    s == [] || (!IsSpace(s[0]) && !IsSpace(s[|s| - 1]))
  }

  function TrimLeft(s: string): (r: string)
    ensures |r| <= |s| && r == s[|s| - |r|..]
    ensures forall k :: 0 <= k < |s| - |r| ==> IsSpace(s[k])
    ensures r == [] || !IsSpace(r[0])
  {
    if s != [] && IsSpace(s[0]) then TrimLeft(s[1..]) else s
  }

  function TrimRight(s: string): (r: string)
    ensures |r| <= |s| && r == s[..|r|]
    ensures forall k :: |r| <= k < |s| ==> IsSpace(s[k])
    ensures r == [] || !IsSpace(r[|r| - 1])
  {
    if s != [] && IsSpace(s[|s| - 1]) then TrimRight(s[..|s| - 1]) else s
  }

  /** Python's `s.strip()`: white space removed from both ends, nothing else. */
  function Strip(s: string): (r: string)
    ensures IsStripped(r)
    ensures IsStripped(s) ==> r == s
  {
    var t := TrimLeft(s);
    TrimRight(t)
  }

  /** Stripping leaves nothing exactly when every character is white space. */
  lemma StripEmptyIffAllSpace(s: string)
    ensures Strip(s) == [] <==> forall k :: 0 <= k < |s| ==> IsSpace(s[k])
  {
  }

  /** Stripping keeps a prefix that contains no white space. */
  lemma StripKeepsPrefix(s: string, prefix: string)
    requires prefix != [] && StartsWith(s, prefix)
    requires forall k :: 0 <= k < |prefix| ==> !IsSpace(prefix[k])
    ensures StartsWith(Strip(s), prefix)
  {
    assert s[0] == prefix[0];
    assert TrimLeft(s) == s;
    var r := TrimRight(s);
    assert !IsSpace(s[|prefix| - 1]);
    assert |r| >= |prefix|;
    assert r[..|prefix|] == s[..|prefix|];
  }

  /** Leading white space dropped (what `split()` skips between words). */
  function DropSpaces(s: string): (r: string)
    ensures |r| <= |s| && r == s[|s| - |r|..]
    ensures forall k :: 0 <= k < |s| - |r| ==> IsSpace(s[k])
    ensures r == [] || !IsSpace(r[0])
  {
    TrimLeft(s)
  }

  /** The longest prefix of `s` without white space. */
  function TakeWord(s: string): (w: string)
    ensures |w| <= |s| && w == s[..|w|]
    ensures forall k :: 0 <= k < |w| ==> !IsSpace(w[k])
    ensures |w| < |s| ==> IsSpace(s[|w|])
    ensures s != [] && !IsSpace(s[0]) ==> |w| >= 1
  {
    if s == [] || IsSpace(s[0]) then [] else [s[0]] + TakeWord(s[1..])
  }

  /** Python's `s.split()`: the maximal runs of non-white-space characters. */
  function Words(s: string): seq<string>
    decreases |s|
  {
    var t := DropSpaces(s);
    if t == [] then []
    else
      var w := TakeWord(t);
      [w] + Words(t[|w|..])
  }

  /** A string with some non-white-space character has at least one word. */
  lemma WordsNonEmpty(s: string, k: nat)
    requires k < |s| && !IsSpace(s[k])
    ensures |Words(s)| >= 1
  {
    var t := DropSpaces(s);
    assert k >= |s| - |t|;
  }

  /**
   * A stripped line that starts with `prefix` followed by a space, where `prefix`
   * has no white space, splits into `prefix` and at least one more word.
   */
  lemma WordsAfterPrefix(s: string, prefix: string)
    requires IsStripped(s) && prefix != []
    requires forall k :: 0 <= k < |prefix| ==> !IsSpace(prefix[k])
    requires StartsWith(s, prefix + " ")
    ensures |Words(s)| >= 2 && Words(s)[0] == prefix
  {
    var p := |prefix|;
    assert (prefix + " ")[..p] == prefix;
    StartsWithTrans(s, prefix + " ", prefix);
    assert s[p] == s[..p + 1][p] == ' ';
    var rest := s[p..];
    assert s == s[..p] + rest;
    assert rest[0] == ' ';
    WordsCons(prefix, rest);
    assert rest[|rest| - 1] == s[|s| - 1];
    WordsNonEmpty(rest, |rest| - 1);
  }

  lemma {:induction false} TakeWordPrefix(s: string, prefix: string)
    requires forall k :: 0 <= k < |prefix| ==> !IsSpace(prefix[k])
    requires |prefix| < |s| && s[..|prefix|] == prefix && IsSpace(s[|prefix|])
    ensures TakeWord(s) == prefix
  {
    if prefix != [] {
      assert s[0] == prefix[0];
      assert s[1..][..|prefix| - 1] == prefix[1..];
      TakeWordPrefix(s[1..], prefix[1..]);
    }
  }

  lemma DropSpacesPlain(s: string)
    requires s != [] && !IsSpace(s[0])
    ensures DropSpaces(s) == s
  {
  }

  lemma {:induction false} TakeWordAll(s: string)
    requires forall k :: 0 <= k < |s| ==> !IsSpace(s[k])
    ensures TakeWord(s) == s
  {
    if s != [] {
      TakeWordAll(s[1..]);
    }
  }

  lemma WordsStep(s: string)
    requires DropSpaces(s) != []
    ensures Words(s) == [TakeWord(DropSpaces(s))] + Words(DropSpaces(s)[|TakeWord(DropSpaces(s))|..])
  {
  }

  /** A space followed by one word splits into that word. */
  lemma WordsOfSpaceThenWord(w: string)
    requires w != []
    requires forall k :: 0 <= k < |w| ==> !IsSpace(w[k])
    ensures Words(" " + w) == [w]
  {
    var rest := " " + w;
    assert DropSpaces(rest) == w by {
      assert TrimLeft(rest) == TrimLeft(w);
      DropSpacesPlain(w);
    }
    TakeWordAll(w);
    WordsStep(rest);
    assert w[|w|..] == [];
  }

  /** A word followed by white space (or by nothing) is the first word. */
  lemma WordsCons(w: string, rest: string)
    requires w != [] && (rest == [] || IsSpace(rest[0]))
    requires forall k :: 0 <= k < |w| ==> !IsSpace(w[k])
    ensures Words(w + rest) == [w] + Words(rest)
  {
    var s := w + rest;
    assert s[0] == w[0];
    DropSpacesPlain(s);
    assert s[..|w|] == w;
    if rest == [] {
      assert s == w;
      TakeWordAll(w);
    } else {
      TakeWordPrefix(s, w);
    }
    WordsStep(s);
    assert s[|w|..] == rest;
  }

  /** Two words separated by one space split into those two words. */
  lemma WordsOfTwo(s: string, a: string, b: string)
    requires a != [] && b != [] && s == a + (" " + b)
    requires forall k :: 0 <= k < |a| ==> !IsSpace(a[k])
    requires forall k :: 0 <= k < |b| ==> !IsSpace(b[k])
    ensures Words(s) == [a, b]
  {
    var t := " " + b;
    WordsCons(a, t);
    WordsOfSpaceThenWord(b);
    WordsJoin(s, t, a, b);
  }

  lemma WordsJoin(s: string, t: string, a: string, b: string)
    requires Words(s) == [a] + Words(t) && Words(t) == [b]
    ensures Words(s) == [a, b]
  {
  }

  /** A non-empty run of non-white-space characters, which `split()` keeps whole. */
  predicate IsWord(w: string) {
    w != [] && forall k :: 0 <= k < |w| ==> !IsSpace(w[k])
  }

  /** `" ".join(ws)`: the elements separated by single spaces. */
  function Join(ws: seq<string>): string
  {
    if ws == [] then [] else if |ws| == 1 then ws[0] else ws[0] + (" " + Join(ws[1..]))
  }

  /** One leading space never changes the words. */
  lemma WordsLeadingSpace(x: string)
    ensures Words(" " + x) == Words(x)
  {
    assert (" " + x)[1..] == x;
    assert DropSpaces(" " + x) == DropSpaces(x);
  }

  /** `" ".join(ws).split() == ws` when every element is a word. */
  lemma {:induction false} WordsOfJoin(ws: seq<string>)
    requires forall i :: 0 <= i < |ws| ==> IsWord(ws[i])
    ensures Words(Join(ws)) == ws
    decreases |ws|
  {
    if |ws| == 1 {
      WordsOfOne(ws[0]);
    } else if |ws| > 1 {
      var rest := ws[1..];
      forall i | 0 <= i < |rest|
        ensures IsWord(rest[i])
      {
        assert rest[i] == ws[i + 1];
      }
      var tail := Join(rest);
      assert Join(ws) == ws[0] + (" " + tail);
      WordsOfJoin(rest);
      WordsConsSpace(Join(ws), ws[0], tail, rest);
      HeadTail(ws);
    }
  }

  lemma HeadTail<T>(s: seq<T>)
    requires s != []
    ensures [s[0]] + s[1..] == s
  {
  }

  lemma WordsOfOne(w: string)
    requires IsWord(w)
    ensures Words(Join([w])) == [w]
  {
    WordsCons(w, []);
    assert w + [] == w;
  }

  /** A word, one space and a tail split into the word and the tail's words. */
  lemma WordsConsSpace(s: string, w: string, tail: string, rest: seq<string>)
    requires s == w + (" " + tail) && IsWord(w) && Words(tail) == rest
    ensures Words(s) == [w] + rest
  {
    WordsCons(w, " " + tail);
    WordsLeadingSpace(tail);
  }

  /** A join of words starts with the first word and has no white space at either end. */
  lemma {:induction false} JoinStripped(ws: seq<string>)
    requires ws != [] && forall i :: 0 <= i < |ws| ==> IsWord(ws[i])
    ensures StartsWith(Join(ws), ws[0]) && IsStripped(Join(ws))
    decreases |ws|
  {
    var j := Join(ws);
    if |ws| > 1 {
      var tail := Join(ws[1..]);
      JoinStripped(ws[1..]);
      assert j == ws[0] + (" " + tail);
      assert j[|j| - 1] == tail[|tail| - 1];
      assert j[..|ws[0]|] == ws[0];
    } else {
      assert j[..|ws[0]|] == ws[0];
    }
  }

  /** The text before the first `sep` (all of `s` when there is none). */
  function Before(s: string, sep: char): (r: string)
    ensures |r| <= |s| && r == s[..|r|]
    ensures sep !in r
    ensures |r| < |s| ==> s[|r|] == sep
  {
    if s == [] || s[0] == sep then [] else [s[0]] + Before(s[1..], sep)
  }

  /** `Before` stops at the first separator that follows a separator-free prefix. */
  lemma {:induction false} BeforeStopsAt(s: string, head: string, sep: char)
    requires sep !in head && |head| <= |s| && s[..|head|] == head
    requires |head| == |s| || s[|head|] == sep
    ensures Before(s, sep) == head
  {
    if head != [] {
      assert s[0] == head[0];
      assert s[1..][..|head| - 1] == head[1..];
      BeforeStopsAt(s[1..], head[1..], sep);
    }
  }

  /** Python's `s.split(sep)[1]`: the field between the first and second `sep`. */
  function SecondField(s: string, sep: char): (r: string)
    requires sep in s
    ensures sep !in r
  {
    var head := Before(s, sep);
    Before(s[|head| + 1..], sep)
  }

  function DigitValue(c: char): (d: nat)
    requires IsDigit(c)
    ensures d < 10
  {
    (c - '0') as nat
  }

  function DigitChar(d: nat): (c: char)
    requires d < 10
    ensures IsDigit(c) && DigitValue(c) == d
  {
    '0' + d as char
  }

  /** The value of a string of decimal digits, most significant first. */
  function DigitsValue(s: string): nat
    requires AllDigits(s)
  {
    if s == [] then 0 else DigitsValue(s[..|s| - 1]) * 10 + DigitValue(s[|s| - 1])
  }

  /**
   * Python's `int(text)` on ASCII text: surrounding white space is ignored, an
   * optional sign is followed by at least one decimal digit; anything else is a
   * ValueError, modelled as `None`.
   */
  function ParseInt(text: string): (r: Option<int>)
    ensures r.Some? ==> exists k :: 0 <= k < |text| && IsDigit(text[k])
  {
    var t := Strip(text);
    if t != [] && (t[0] == '-' || t[0] == '+') then
      var digits := t[1..];
      if digits != [] && AllDigits(digits) then
        assert IsDigit(t[1]);
        Some(if t[0] == '-' then -(DigitsValue(digits) as int) else DigitsValue(digits))
      else None
    else if t != [] && AllDigits(t) then
      assert IsDigit(t[0]);
      Some(DigitsValue(t))
    else None
  }

  /** Python's `str(n)` for a non-negative int: decimal, no leading zeros. */
  function NatToString(n: nat): (s: string)
    ensures s != [] && AllDigits(s)
    ensures |s| > 1 ==> s[0] != '0'
  {
    if n < 10 then [DigitChar(n)] else NatToString(n / 10) + [DigitChar(n % 10)]
  }

  /** Python's `str(n)` for an int. */
  function IntToString(n: int): (s: string)
    ensures s != [] && IsStripped(s)
    ensures AllDigits(s) || (s[0] == '-' && AllDigits(s[1..]))
  {
    if n < 0 then "-" + NatToString(-n) else NatToString(n)
  }

  /** A printed integer is one word. */
  lemma IntStringIsWord(n: int)
    ensures IsWord(IntToString(n))
  {
    var d := IntToString(n);
    if !AllDigits(d) {
      assert forall k :: 1 <= k < |d| ==> d[k] == d[1..][k - 1];
    }
  }

  lemma {:induction false} DigitsOfNat(n: nat)
    ensures DigitsValue(NatToString(n)) == n
  {
    var s := NatToString(n);
    if n >= 10 {
      DigitsOfNat(n / 10);
      assert s[..|s| - 1] == NatToString(n / 10);
    }
  }

  /** `int(str(n)) == n`: reading back a printed integer gives the integer. */
  lemma ParseIntOfString(n: int)
    ensures ParseInt(IntToString(n)) == Some(n)
  {
    if n < 0 {
      ParseIntOfNegative(n);
    } else {
      ParseIntOfNat(n);
    }
  }

  lemma ParseIntOfNat(m: nat)
    ensures ParseInt(NatToString(m)) == Some(m as int)
  {
    var s := NatToString(m);
    assert IsStripped(s);
    DigitsOfNat(m);
  }

  lemma ParseIntOfNegative(n: int)
    requires n < 0
    ensures ParseInt(IntToString(n)) == Some(n)
  {
    DigitsOfNat(-n);
    ParseIntMinus(IntToString(n), NatToString(-n), n);
  }

  // A `-` followed by the digits of -n reads as n.
  lemma ParseIntMinus(s: string, d: string, n: int)
    requires s == "-" + d && d != [] && AllDigits(d) && DigitsValue(d) == -n
    ensures ParseInt(s) == Some(n)
  {
    assert s[|s| - 1] == d[|d| - 1];
    assert IsStripped(s);
    assert s[1..] == d;
  }
}
