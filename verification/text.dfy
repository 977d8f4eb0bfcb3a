/** String helpers shared by the query builders, the validator and the
    dashboard: Python's `str.strip`, `upper`, `lower`, `title`, `split(',')`
    and `join`, over `seq<char>`. Case mapping covers ASCII letters only;
    whitespace is Python's `str.isspace` set, character for character. */
module Text {

  /** Python's `str.isspace`: the Unicode characters of bidirectional class
      WS, B or S, or of general category Zs. */
  predicate IsSpace(c: char) {
    var n := c as int;
    (0x09 <= n <= 0x0D) || (0x1C <= n <= 0x20) || n == 0x85 || n == 0xA0
    || n == 0x1680 || (0x2000 <= n <= 0x200A) || n == 0x2028 || n == 0x2029
    || n == 0x202F || n == 0x205F || n == 0x3000
  }

  /** Every character of `s` is whitespace (the empty string included). */
  predicate Blank(s: string) {
    forall i :: 0 <= i < |s| ==> IsSpace(s[i])
  }

  predicate StartsWith(s: string, prefix: string) {
    |prefix| <= |s| && s[..|prefix|] == prefix
  }

  predicate EndsWith(s: string, suffix: string) {
    |suffix| <= |s| && s[|s| - |suffix|..] == suffix
  }

  /** `needle in s` for strings. */
  predicate Contains(s: string, needle: string)
    decreases |s|
  {
    StartsWith(s, needle) || (s != [] && Contains(s[1..], needle))
  }

  /** `c not in s`. */
  predicate Lacks(s: string, c: char) {
    forall i :: 0 <= i < |s| ==> s[i] != c
  }

  /** `' ' in s`: the test both DAX quoting helpers use. */
  predicate HasBlankChar(s: string) {
    exists i :: 0 <= i < |s| && s[i] == ' '
  }

  /** Python's `lstrip()`. */
  function TrimStart(s: string): (r: string)
    ensures |r| <= |s| && r == s[|s| - |r|..]
    ensures r == [] || !IsSpace(r[0])
    ensures forall i :: 0 <= i < |s| - |r| ==> IsSpace(s[i])
  {
    if s != [] && IsSpace(s[0]) then TrimStart(s[1..]) else s
  }

  /** Python's `rstrip()`. */
  function TrimEnd(s: string): (r: string)
    ensures |r| <= |s| && r == s[..|r|]
    ensures r == [] || !IsSpace(r[|r| - 1])
    ensures forall i :: |r| <= i < |s| ==> IsSpace(s[i])
  {
    if s != [] && IsSpace(s[|s| - 1]) then TrimEnd(s[..|s| - 1]) else s
  }

  /** Python's `strip()`: the longest infix of `s` that neither starts nor
      ends with whitespace; empty exactly when `s` is blank. */
  function Strip(s: string): (r: string)
    ensures |r| <= |s|
    ensures r == [] || (!IsSpace(r[0]) && !IsSpace(r[|r| - 1]))
    ensures r == [] <==> Blank(s)
  {
    TrimEnd(TrimStart(s))
  }

  /** What `Strip` keeps is an infix of `s` with only whitespace before and
      after it; with the ends it keeps non-blank, that pins it down. */
  lemma StripInfix(s: string)
    ensures var r := Strip(s);
            exists k :: 0 <= k && k + |r| <= |s| && r == s[k..k + |r|] && Blank(s[..k]) && Blank(s[k + |r|..])
  {
    TrimmedInfix(s, TrimStart(s), Strip(s));
  }

  /** Dropping a blank front and then a blank back leaves an infix with
      blank text on either side. */
  lemma TrimmedInfix(s: string, t: string, r: string)
    requires |t| <= |s| && t == s[|s| - |t|..] && forall i :: 0 <= i < |s| - |t| ==> IsSpace(s[i])
    requires |r| <= |t| && r == t[..|r|] && forall i :: |r| <= i < |t| ==> IsSpace(t[i])
    ensures exists k :: 0 <= k && k + |r| <= |s| && r == s[k..k + |r|] && Blank(s[..k]) && Blank(s[k + |r|..])
  {
    var k := |s| - |t|;
    var front, back := s[..k], s[k + |r|..];
    assert Blank(front) by {
      forall i | 0 <= i < |front| ensures IsSpace(front[i]) {
        assert front[i] == s[i];
      }
    }
    assert Blank(back) by {
      forall i | 0 <= i < |back| ensures IsSpace(back[i]) {
        assert back[i] == t[|r| + i];
      }
    }
    assert r == s[k..][..|r|];
    assert k + |r| <= |s| && r == s[k..k + |r|] && Blank(s[..k]) && Blank(s[k + |r|..]);
  }

  lemma PrefixOfPrefix(s: string, a: string, b: string)
    requires StartsWith(s, a + b)
    ensures StartsWith(s, a)
  {
    assert s[..|a|] == (s[..|a + b|])[..|a|];
  }

  lemma StartsWithConcat(a: string, b: string)
    ensures StartsWith(a + b, a)
  {
    assert (a + b)[..|a|] == a;
  }

  lemma EndsWithConcat(a: string, b: string)
    ensures EndsWith(a + b, b)
  {
    assert (a + b)[|a|..] == b;
  }

  /** A common front does not change whether one text starts with another. */
  lemma PrefixCancel(a: string, b: string, x: string)
    ensures StartsWith(a + b, a + x) <==> StartsWith(b, x)
  {
    if |x| <= |b| {
      assert (a + b)[..|a + x|] == a + b[..|x|];
      if (a + b)[..|a + x|] == a + x {
        assert forall i :: 0 <= i < |x| ==> b[..|x|][i] == (a + x)[|a| + i] == x[i];
      }
    }
  }

  lemma EndsWithFront(a: string, b: string, suffix: string)
    requires EndsWith(b, suffix)
    ensures EndsWith(a + b, suffix)
  {
    assert (a + b)[|a + b| - |suffix|..] == b[|b| - |suffix|..];
  }

  /** A text contains whatever sits between two other texts. */
  lemma {:induction false} ContainsMiddle(a: string, b: string, c: string)
    ensures Contains(a + b + c, b)
    decreases |a|
  {
    if a == [] {
      assert a + b + c == b + c;
      assert (b + c)[..|b|] == b;
    } else {
      assert (a + b + c)[1..] == a[1..] + b + c;
      ContainsMiddle(a[1..], b, c);
    }
  }

  lemma {:induction false} ContainsEnd(a: string, b: string)
    ensures Contains(a + b, b)
    decreases |a|
  {
    if a == [] {
      assert a + b == b;
      assert b[..|b|] == b;
    } else {
      assert (a + b)[1..] == a[1..] + b;
      ContainsEnd(a[1..], b);
    }
  }

  /** Appending to a text keeps everything it contained. */
  lemma {:induction false} ContainsGrow(s: string, t: string, needle: string)
    requires Contains(s, needle)
    ensures Contains(s + t, needle)
    decreases |s|
  {
    if StartsWith(s, needle) {
      assert (s + t)[..|needle|] == s[..|needle|];
    } else {
      assert (s + t)[1..] == s[1..] + t;
      ContainsGrow(s[1..], t, needle);
    }
  }

  /** Prepending to a text keeps everything it contained. */
  lemma {:induction false} ContainsFront(a: string, b: string, needle: string)
    requires Contains(b, needle)
    ensures Contains(a + b, needle)
    decreases |a|
  {
    if a == [] {
      assert a + b == b;
    } else {
      assert (a + b)[1..] == a[1..] + b;
      ContainsFront(a[1..], b, needle);
    }
  }

  /** A text is at least as long as anything it contains. */
  lemma {:induction false} ContainsLength(s: string, needle: string)
    requires Contains(s, needle)
    ensures |needle| <= |s|
    decreases |s|
  {
    if !StartsWith(s, needle) {
      ContainsLength(s[1..], needle);
    }
  }

  /** Containment is transitive. */
  lemma {:induction false} ContainsTrans(a: string, b: string, c: string)
    requires Contains(a, b) && Contains(b, c)
    ensures Contains(a, c)
    decreases |a|
  {
    if StartsWith(a, b) {
      assert a == b + a[|b|..];
      ContainsGrow(b, a[|b|..], c);
    } else {
      ContainsTrans(a[1..], b, c);
    }
  }

  /** Every part of `sep.join(parts)` occurs in it. */
  lemma {:induction false} JoinContains(parts: seq<string>, sep: string, k: int)
    requires 0 <= k < |parts|
    ensures Contains(Join(parts, sep), parts[k])
    decreases |parts|
  {
    if |parts| == 1 {
      assert Join(parts, sep) == parts[0];
      assert StartsWith(parts[0], parts[0]);
    } else if k == 0 {
      assert Join(parts, sep) == parts[0] + (sep + Join(parts[1..], sep));
      StartsWithConcat(parts[0], sep + Join(parts[1..], sep));
    } else {
      assert parts[k] == parts[1..][k - 1];
      JoinContains(parts[1..], sep, k - 1);
      assert Join(parts, sep) == (parts[0] + sep) + Join(parts[1..], sep);
      ContainsFront(parts[0] + sep, Join(parts[1..], sep), parts[k]);
    }
  }

  /** Upper-casing keeps a prefix that has no lower-case letter. */
  lemma UpperKeepsPrefix(s: string, prefix: string)
    requires StartsWith(s, prefix)
    requires forall i :: 0 <= i < |prefix| ==> UpperChar(prefix[i]) == prefix[i]
    ensures StartsWith(Upper(s), prefix)
  {
    assert forall i :: 0 <= i < |prefix| ==> Upper(s)[i] == UpperChar(s[i]) == prefix[i];
  }

  /** A non-empty text without outer whitespace: what `Strip` leaves of a
      non-blank text. */
  predicate Trimmed(s: string) {
    s != [] && !IsSpace(s[0]) && !IsSpace(s[|s| - 1])
  }

  /** Stripping removes characters, never adds them. */
  lemma StripLacks(s: string, c: char)
    requires Lacks(s, c)
    ensures Lacks(Strip(s), c)
  {
    var t := TrimStart(s);
    assert Lacks(t, c) by {
      forall i | 0 <= i < |t| ensures t[i] != c {
        assert t[i] == s[|s| - |t| + i];
      }
    }
    var r := TrimEnd(t);
    forall i | 0 <= i < |r| ensures r[i] != c {
      assert r[i] == t[i];
    }
  }

  /** Stripping a string that already has no outer whitespace changes nothing. */
  lemma StripKeeps(s: string)
    requires s != [] && !IsSpace(s[0]) && !IsSpace(s[|s| - 1])
    ensures Strip(s) == s
  {
  }

  function UpperChar(c: char): char {
    if 'a' <= c <= 'z' then (c as int - 32) as char else c
  }

  function LowerChar(c: char): char {
    if 'A' <= c <= 'Z' then (c as int + 32) as char else c
  }

  predicate IsLetter(c: char) {
    ('a' <= c <= 'z') || ('A' <= c <= 'Z')
  }

  /** Python's `upper()` on ASCII letters; every other character is kept. */
  function Upper(s: string): (r: string)
    ensures |r| == |s|
    ensures forall i :: 0 <= i < |s| ==> r[i] == UpperChar(s[i])
  {
    seq(|s|, i requires 0 <= i < |s| => UpperChar(s[i]))
  }

  /** Python's `lower()` on ASCII letters; every other character is kept. */
  function Lower(s: string): (r: string)
    ensures |r| == |s|
    ensures forall i :: 0 <= i < |s| ==> r[i] == LowerChar(s[i])
  {
    seq(|s|, i requires 0 <= i < |s| => LowerChar(s[i]))
  }

  /** Python's `title()`: a letter that follows a letter is lowered, any
      other letter is raised. `afterLetter` says whether the character just
      before `s` was a letter. */
  function TitleFrom(s: string, afterLetter: bool): (r: string)
    ensures |r| == |s|
    decreases |s|
  {
    if s == [] then []
    else if IsLetter(s[0]) then
      [if afterLetter then LowerChar(s[0]) else UpperChar(s[0])] + TitleFrom(s[1..], true)
    else [s[0]] + TitleFrom(s[1..], false)
  }

  function Title(s: string): string {
    TitleFrom(s, false)
  }

  /** `s.replace(c, '')`. */
  function Without(s: string, c: char): (r: string)
    ensures forall i :: 0 <= i < |r| ==> r[i] != c
    ensures |r| <= |s|
  {
    if s == [] then []
    else if s[0] == c then Without(s[1..], c)
    else [s[0]] + Without(s[1..], c)
  }

  /** `sep.join(parts)`. */
  function Join(parts: seq<string>, sep: string): string {
    if |parts| == 0 then ""
    else if |parts| == 1 then parts[0]
    else parts[0] + sep + Join(parts[1..], sep)
  }

  /** Python's `s.split(sep)` for a one-character separator: never empty,
      no piece holds the separator, and joining the pieces back with the
      separator gives `s` again (see `SplitJoin`). */
  function Split(s: string, sep: char): (r: seq<string>)
    ensures |r| >= 1
    ensures forall k :: 0 <= k < |r| ==> Lacks(r[k], sep)
  {
    if s == [] then [[]]
    else
      var rest := Split(s[1..], sep);
      if s[0] == sep then [[]] + rest
      else [[s[0]] + rest[0]] + rest[1..]
  }

  lemma {:induction false} SplitJoin(s: string, sep: char)
    ensures Join(Split(s, sep), [sep]) == s
  {
    if s != [] {
      var rest := Split(s[1..], sep);
      SplitJoin(s[1..], sep);
      if s[0] == sep {
        assert Split(s, sep) == [[]] + rest;
        if |rest| == 1 {
          assert Join([[]] + rest, [sep]) == [] + [sep] + rest[0];
        } else {
          assert ([[]] + rest)[1..] == rest;
          assert Join([[]] + rest, [sep]) == [] + [sep] + Join(rest, [sep]);
        }
      } else {
        var head := [s[0]] + rest[0];
        assert Split(s, sep) == [head] + rest[1..];
        if |rest| == 1 {
          assert Join([head], [sep]) == head;
          assert Join(rest, [sep]) == rest[0];
        } else {
          assert ([head] + rest[1..])[1..] == rest[1..];
          assert Join([head] + rest[1..], [sep]) == head + [sep] + Join(rest[1..], [sep]);
          assert Join(rest, [sep]) == rest[0] + [sep] + Join(rest[1..], [sep]);
        }
      }
    }
  }
}
