/** The `HEIGHT:<n>` line parser of logic/height_sensor.py. */
module HeightLine {
  import opened Wrappers
  import opened Text

  const Prefix: string := "HEIGHT:"

  /** The prefix has no white space and ends in its only colon. */
  lemma PrefixFacts()
    ensures |Prefix| == 7 && Prefix[6] == ':' && Prefix[..6] == "HEIGHT"
    ensures ':' !in Prefix[..6]
    ensures forall k :: 0 <= k < |Prefix| ==> !IsSpace(Prefix[k])
  {
  }

  /** A line that starts with the prefix still does after `strip()`, so it holds a colon. */
  lemma StrippedKeepsPrefix(line: string)
    requires StartsWith(line, Prefix)
    ensures StartsWith(Strip(line), Prefix) && ':' in Strip(line)
  {
    PrefixFacts();
    StripKeepsPrefix(line, Prefix);
    var t := Strip(line);
    assert t[6] == Prefix[6];
  }

  /**
   * `parse_height_from_line`: a line starting with `HEIGHT:` yields the integer
   * between the first and the second colon of the stripped line; a missing or
   * malformed integer yields None instead of raising.
   */
  function ParseHeightFromLine(line: string): (r: Option<int>)
    ensures !StartsWith(line, Prefix) ==> r == None
  {
    if StartsWith(line, Prefix) then
      StrippedKeepsPrefix(line);
      ParseInt(SecondField(Strip(line), ':'))
    else None
  }

  lemma ParseHeightUnfold(line: string)
    requires StartsWith(line, Prefix)
    ensures ':' in Strip(line)
    ensures ParseHeightFromLine(line) == ParseInt(SecondField(Strip(line), ':'))
  {
    StrippedKeepsPrefix(line);
  }

  /**
   * `HEIGHT:<n>` gives n, and so does `HEIGHT:<n>:<anything>`: only the field
   * between the first two colons is read.
   */
  lemma ParsesLeadingField(n: int, rest: string)
    requires rest == [] || rest[0] == ':'
    ensures ParseHeightFromLine(Prefix + IntToString(n) + rest) == Some(n)
  {
    var d := IntToString(n);
    var line := Prefix + d + rest;
    IntStringPlain(n);
    PlainHead(n, rest, line);
    var p := if rest == [] then Prefix + d else Prefix + d + ":";
    assert (Prefix + d)[..7] == Prefix;
    StrippedHead(line, Prefix + d, p, rest == []);
    FieldOfStripped(Strip(line), d);
    ParseHeightUnfold(line);
    ParseIntOfString(n);
  }

  // After `strip()` the line still starts with the head q, followed by a colon or nothing,
  // and the raw line starts with the prefix.
  lemma StrippedHead(line: string, q: string, p: string, whole: bool)
    requires StartsWith(q, Prefix)
    requires p == if whole then q else q + ":"
    requires StartsWith(line, p) && (forall k :: 0 <= k < |p| ==> !IsSpace(p[k]))
    requires whole ==> line == q
    ensures StartsWith(line, Prefix)
    ensures StartsWith(Strip(line), q)
    ensures |Strip(line)| == |q| || Strip(line)[|q|] == ':'
  {
    if whole {
      StrippedWhole(line, q);
    } else {
      StrippedColon(line, q, p);
      StartsWithTrans(Strip(line), p, q);
    }
    StartsWithTrans(line, q, Prefix);
  }

  lemma StrippedWhole(line: string, q: string)
    requires line == q && q != []
    requires !IsSpace(q[0]) && !IsSpace(q[|q| - 1])
    ensures StartsWith(line, q) && Strip(line) == q
  {
    assert q[..|q|] == q;
    assert IsStripped(line);
  }

  lemma StrippedColon(line: string, q: string, p: string)
    requires p == q + ":"
    requires StartsWith(line, p) && (forall k :: 0 <= k < |p| ==> !IsSpace(p[k]))
    ensures StartsWith(line, q)
    ensures StartsWith(Strip(line), p) && |Strip(line)| > |q| && Strip(line)[|q|] == ':'
  {
    assert p[..|q|] == q;
    StartsWithTrans(line, p, q);
    StripKeepsPrefix(line, p);
    var t := Strip(line);
    assert t[|q|] == p[|q|];
  }

  // The printed integer holds neither a colon nor white space.
  lemma IntStringPlain(n: int)
    ensures ':' !in IntToString(n)
    ensures forall k :: 0 <= k < |IntToString(n)| ==> !IsSpace(IntToString(n)[k])
  {
    var d := IntToString(n);
    if !AllDigits(d) {
      assert forall k :: 1 <= k < |d| ==> d[k] == d[1..][k - 1];
    }
  }

  // `HEIGHT:<d>` (followed by a colon when more follows) is a white-space-free head of the line.
  lemma PlainHead(n: int, rest: string, line: string)
    requires rest == [] || rest[0] == ':'
    requires line == Prefix + IntToString(n) + rest
    requires forall k :: 0 <= k < |IntToString(n)| ==> !IsSpace(IntToString(n)[k])
    ensures var q := Prefix + IntToString(n);
            var p := if rest == [] then q else q + ":";
            p != [] && StartsWith(line, p) && (forall k :: 0 <= k < |p| ==> !IsSpace(p[k])) &&
            (rest == [] ==> line == q && !IsSpace(line[|line| - 1]) && !IsSpace(line[0]))
  {
    PrefixFacts();
    var d := IntToString(n);
    var q := Prefix + d;
    var p := if rest == [] then q else q + ":";
    forall k | 0 <= k < |p| ensures !IsSpace(p[k]) {
      if k < 7 {
        assert p[k] == Prefix[k];
      } else if k < |q| {
        assert p[k] == d[k - 7];
      }
    }
    assert line[..|p|] == p;
    if rest == [] {
      assert line == q;
      assert line[|line| - 1] == d[|d| - 1];
    }
  }

  // The second colon-separated field of `HEIGHT:<d>` or `HEIGHT:<d>:...` is d.
  lemma FieldOfStripped(t: string, d: string)
    requires ':' !in d
    requires StartsWith(t, Prefix + d)
    requires |t| == |Prefix + d| || t[|Prefix + d|] == ':'
    ensures ':' in t && SecondField(t, ':') == d
  {
    PrefixFacts();
    var q := Prefix + d;
    assert t[..|q|] == q;
    assert t[6] == q[6] == ':';
    assert t[..6] == q[..6] == "HEIGHT";
    BeforeStopsAt(t, "HEIGHT", ':');
    var tail := t[7..];
    forall k | 0 <= k < |d| ensures tail[k] == d[k] {
      assert tail[k] == t[7 + k] == q[7 + k];
    }
    assert tail[..|d|] == d;
    BeforeStopsAt(tail, d, ':');
  }

  /** A worked example: `HEIGHT:12:7` reads as 12. */
  lemma ExampleTwoColons()
    ensures ParseHeightFromLine("HEIGHT:12:7") == Some(12)
  {
    assert IntToString(12) == "12";
    assert "HEIGHT:12:7" == Prefix + IntToString(12) + ":7";
    ParsesLeadingField(12, ":7");
  }

  /** `HEIGHT:<d>` with no colon in d and no trailing white space reads d as an integer. */
  lemma ParsePayload(line: string, d: string)
    requires line == Prefix + d && ':' !in d
    requires d == [] || !IsSpace(d[|d| - 1])
    ensures ParseHeightFromLine(line) == ParseInt(d)
  {
    PrefixFacts();
    assert line[..|Prefix|] == Prefix;
    StrippedWhole(line, line);
    FieldOfStripped(line, d);
    ParseHeightUnfold(line);
  }

  /** An empty payload reads as None. */
  lemma ExampleEmptyPayload()
    ensures ParseHeightFromLine("HEIGHT:") == None
  {
    assert "HEIGHT:" == Prefix + [];
    ParsePayload("HEIGHT:", []);
    assert Strip([]) == [];
  }

  /** A payload that is not an integer reads as None. */
  lemma ExampleNotANumber()
    ensures ParseHeightFromLine("HEIGHT:1.5") == None
  {
    assert "HEIGHT:1.5" == Prefix + "1.5";
    ParsePayload("HEIGHT:1.5", "1.5");
    NotANumber();
  }

  lemma NotANumber()
    ensures ParseInt("1.5") == None
  {
    assert IsStripped("1.5");
    assert Strip("1.5") == "1.5";
    assert !IsDigit("1.5"[1]);
  }
}
