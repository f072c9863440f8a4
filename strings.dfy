/** The Python string operations the ingestion code relies on: `str.replace`
    (deleting a character, or rewriting a substring), `str.split` on a one-character
    separator and its inverse `str.join`, `int()` on a decimal string, and the
    binary (code point) order the database uses to sort strings. */
module Text {
  import opened Results

  // ---------------------------------------------------------------------------
  // Deleting a character: s.replace(c, "")
  // ---------------------------------------------------------------------------

  /** `s` with every occurrence of `c` deleted, the other characters kept in order. */
  function Remove(s: string, c: char): (r: string)
    ensures c !in r
    ensures forall x :: x in r <==> x in s && x != c
    ensures c !in s ==> r == s
    ensures |r| <= |s|
  {
    if s == [] then []
    else if s[0] == c then Remove(s[1..], c)
    else [s[0]] + Remove(s[1..], c)
  }

  lemma {:induction false} RemoveAppend(s: string, t: string, c: char)
    ensures Remove(s + t, c) == Remove(s, c) + Remove(t, c)
  {
    if s == [] {
      assert s + t == t;
    } else {
      assert (s + t)[1..] == s[1..] + t;
      RemoveAppend(s[1..], t, c);
    }
  }

  // ---------------------------------------------------------------------------
  // Splitting on a one-character separator: s.split(sep), and sep.join(parts)
  // ---------------------------------------------------------------------------

  /** Index of the first occurrence of `c` in `s`. */
  function FirstIndex(s: string, c: char): (i: nat)
    requires c in s
    ensures i < |s| && s[i] == c && c !in s[..i]
  {
    if s[0] == c then 0
    else
      assert s == [s[0]] + s[1..];
      var j := FirstIndex(s[1..], c);
      assert s[..j + 1] == [s[0]] + s[1..][..j];
      j + 1
  }

  /** `sep.join(parts)`: the parts with one separator between neighbours. */
  function Join(parts: seq<string>, sep: char): string
  {
    if |parts| == 0 then ""
    else if |parts| == 1 then parts[0]
    else parts[0] + [sep] + Join(parts[1..], sep)
  }

  /** Python's `s.split(sep)`: never empty (`"".split(",") == [""]`), no piece
      holds the separator, and joining the pieces back gives `s`. */
  function Split(s: string, sep: char): (parts: seq<string>)
    ensures |parts| >= 1
    ensures forall i :: 0 <= i < |parts| ==> sep !in parts[i]
    ensures Join(parts, sep) == s
    decreases |s|
  {
    if sep !in s then [s]
    else
      var i := FirstIndex(s, sep);
      var rest := Split(s[i + 1..], sep);
      assert s == s[..i] + [sep] + s[i + 1..];
      [s[..i]] + rest
  }

  /** A character absent from the text is absent from every piece. */
  lemma {:induction false} SplitKeepsAbsent(s: string, sep: char, c: char)
    requires c !in s
    ensures forall i :: 0 <= i < |Split(s, sep)| ==> c !in Split(s, sep)[i]
    decreases |s|
  {
    if sep in s {
      var i := FirstIndex(s, sep);
      assert s == s[..i] + [sep] + s[i + 1..];
      SplitKeepsAbsent(s[i + 1..], sep, c);
    }
  }

  /** The first piece ends at the first separator; the rest is split on. */
  lemma SplitCons(a: string, t: string, sep: char)
    requires sep !in a
    ensures Split(a + [sep] + t, sep) == [a] + Split(t, sep)
  {
    var s := a + [sep] + t;
    assert s[|a|] == sep;
    assert s[..|a|] == a;
    var i := FirstIndex(s, sep);
    if i != |a| {
      assert false;
    }
    assert s[i + 1..] == t;
  }

  /** Splitting undoes joining: the pieces are recovered exactly when none of
      them holds the separator. */
  lemma {:induction false} SplitJoin(parts: seq<string>, sep: char)
    requires |parts| >= 1
    requires forall i :: 0 <= i < |parts| ==> sep !in parts[i]
    ensures Split(Join(parts, sep), sep) == parts
  {
    if |parts| > 1 {
      assert Split(Join(parts[1..], sep), sep) == parts[1..] by {
        SplitJoin(parts[1..], sep);
      }
      assert Split(Join(parts, sep), sep) == [parts[0]] + Split(Join(parts[1..], sep), sep) by {
        SplitCons(parts[0], Join(parts[1..], sep), sep);
      }
      assert parts == [parts[0]] + parts[1..];
    }
  }

  /** The first two pieces are the text before the first and second separators. */
  lemma SplitFirstTwo(x: string, y: string, z: string, sep: char)
    requires sep !in x && sep !in y
    ensures |Split(x + [sep] + y + [sep] + z, sep)| >= 2
    ensures Split(x + [sep] + y + [sep] + z, sep)[..2] == [x, y]
  {
    var t := y + [sep] + z;
    var s := x + [sep] + y + [sep] + z;
    assert s == x + [sep] + t;
    assert Split(t, sep) == [y] + Split(z, sep) by {
      SplitCons(y, z, sep);
    }
    assert Split(s, sep) == [x] + Split(t, sep) by {
      SplitCons(x, t, sep);
    }
    assert Split(s, sep) == [x, y] + Split(z, sep);
  }

  /** A string with exactly one separator splits into the two sides. */
  lemma SplitTwo(a: string, b: string, sep: char)
    requires sep !in a && sep !in b
    ensures Split(a + [sep] + b, sep) == [a, b]
  {
    assert Join([a, b], sep) == a + [sep] + b by {
      assert Join([a, b][1..], sep) == b;
    }
    SplitJoin([a, b], sep);
  }

  // ---------------------------------------------------------------------------
  // Rewriting a substring: s.replace(pat, rep)
  // ---------------------------------------------------------------------------

  /** Python's `s.replace(pat, rep)` for a non-empty `pat`: scan left to right,
      rewriting each non-overlapping occurrence. */
  function ReplaceAll(s: string, pat: string, rep: string): (r: string)
    requires |pat| > 0
    ensures rep == pat ==> r == s
    ensures |rep| <= |pat| ==> |r| <= |s|
    decreases |s|
  {
    if |pat| <= |s| && s[..|pat|] == pat then
      assert s == s[..|pat|] + s[|pat|..];
      rep + ReplaceAll(s[|pat|..], pat, rep)
    else if s == [] then []
    else [s[0]] + ReplaceAll(s[1..], pat, rep)
  }

  /** Text that cannot start an occurrence passes through unchanged. */
  lemma {:induction false} ReplaceKeepsPrefix(u: string, t: string, pat: string, rep: string)
    requires |pat| > 0 && pat[0] !in u
    ensures ReplaceAll(u + t, pat, rep) == u + ReplaceAll(t, pat, rep)
  {
    if u != [] {
      var s := u + t;
      assert s[0] == u[0];
      assert |pat| <= |s| ==> s[..|pat|][0] != pat[0];
      assert s[1..] == u[1..] + t;
      ReplaceKeepsPrefix(u[1..], t, pat, rep);
    } else {
      assert u + t == t;
    }
  }

  /** An occurrence at the front is rewritten. */
  lemma ReplaceAtFront(t: string, pat: string, rep: string)
    requires |pat| > 0
    ensures ReplaceAll(pat + t, pat, rep) == rep + ReplaceAll(t, pat, rep)
  {
    assert (pat + t)[..|pat|] == pat;
    assert (pat + t)[|pat|..] == t;
  }

  /** An occurrence of `pat` starts at index `i` of `s`. */
  predicate OccursAt(s: string, pat: string, i: nat) {
    i + |pat| <= |s| && s[i..i + |pat|] == pat
  }

  /** The first occurrence of the pattern is rewritten, the text before it kept
      and the rest rewritten in turn. */
  lemma {:induction false} ReplaceFirstOccurrence(u: string, t: string, pat: string, rep: string)
    requires |pat| > 0
    requires forall i :: 0 <= i < |u| ==> !OccursAt(u + pat + t, pat, i)
    ensures ReplaceAll(u + pat + t, pat, rep) == u + rep + ReplaceAll(t, pat, rep)
  {
    if u == [] {
      assert u + pat + t == pat + t;
      ReplaceAtFront(t, pat, rep);
    } else {
      var s := u + pat + t;
      var s' := u[1..] + pat + t;
      assert !OccursAt(s, pat, 0);
      assert s[1..] == s';
      forall i | 0 <= i < |u[1..]|
        ensures !OccursAt(s', pat, i)
      {
        assert !OccursAt(s, pat, i + 1);
        if i + |pat| <= |s'| {
          assert s'[i..i + |pat|] == s[i + 1..i + 1 + |pat|];
        }
      }
      ReplaceFirstOccurrence(u[1..], t, pat, rep);
      assert s == [u[0]] + s';
      assert u == [u[0]] + u[1..];
    }
  }

  /** A string in which no occurrence of the pattern starts is left as it is. */
  lemma {:induction false} ReplaceNoOccurrence(s: string, pat: string, rep: string)
    requires |pat| > 0
    requires forall i :: 0 <= i < |s| ==> !OccursAt(s, pat, i)
    ensures ReplaceAll(s, pat, rep) == s
    decreases |s|
  {
    if s != [] {
      assert !OccursAt(s, pat, 0);
      var s' := s[1..];
      forall i | 0 <= i < |s'|
        ensures !OccursAt(s', pat, i)
      {
        assert !OccursAt(s, pat, i + 1);
        if i + |pat| <= |s'| {
          assert s'[i..i + |pat|] == s[i + 1..i + 1 + |pat|];
        }
      }
      ReplaceNoOccurrence(s', pat, rep);
      assert s == [s[0]] + s';
    }
  }

  /** A string without the pattern's first character is left as it is. */
  lemma ReplaceAbsent(s: string, pat: string, rep: string)
    requires |pat| > 0 && pat[0] !in s
    ensures ReplaceAll(s, pat, rep) == s
  {
    forall i | 0 <= i < |s|
      ensures !OccursAt(s, pat, i)
    {
      assert s[i] != pat[0];
    }
    ReplaceNoOccurrence(s, pat, rep);
  }

  // ---------------------------------------------------------------------------
  // Decimal integers: int(s) and str(n)
  // ---------------------------------------------------------------------------

  predicate IsDigit(c: char) {
    '0' <= c <= '9'
  }

  predicate AllDigits(s: string) {
    forall i :: 0 <= i < |s| ==> IsDigit(s[i])
  }

  function DigitValue(c: char): nat
    requires IsDigit(c)
  {
    c as int - '0' as int
  }

  function DigitChar(d: nat): (c: char)
    requires d < 10
    ensures IsDigit(c) && DigitValue(c) == d
  {
    ('0' as int + d) as char
  }

  /** Value of a string of decimal digits, most significant first. */
  function DigitsValue(s: string): nat
    requires AllDigits(s)
  {
    if s == [] then 0
    else 10 * DigitsValue(s[..|s| - 1]) + DigitValue(s[|s| - 1])
  }

  /** Canonical decimal text of a natural number (no sign, no leading zero). */
  function ShowNat(n: nat): (s: string)
    ensures |s| >= 1 && AllDigits(s)
    ensures |s| > 1 ==> s[0] != '0'
  {
    if n < 10 then [DigitChar(n)] else ShowNat(n / 10) + [DigitChar(n % 10)]
  }

  lemma {:induction false} DigitsOfShow(n: nat)
    ensures DigitsValue(ShowNat(n)) == n
  {
    if n >= 10 {
      var s := ShowNat(n);
      assert s[..|s| - 1] == ShowNat(n / 10);
      DigitsOfShow(n / 10);
    }
  }

  /** `int(s)` for a string of an optional sign and one or more ASCII digits;
      anything else is the ValueError case (None). */
  function ParseInt(s: string): (r: Option<int>)
    ensures r.Some? <==> |s| >= 1 && ((s[0] == '-' || s[0] == '+') ==> |s| >= 2)
                           && AllDigits(if s[0] == '-' || s[0] == '+' then s[1..] else s)
  {
    if s == [] then None
    else if s[0] == '-' || s[0] == '+' then
      var body := s[1..];
      if body != [] && AllDigits(body) then
        var v: int := if s[0] == '-' then 0 - DigitsValue(body) as int else DigitsValue(body);
        Some(v)
      else None
    else if AllDigits(s) then Some(DigitsValue(s))
    else None
  }

  /** Reading back the canonical text of a number gives the number. */
  lemma ParseShow(n: nat)
    ensures ParseInt(ShowNat(n)) == Some(n)
    ensures ParseInt("-" + ShowNat(n)) == Some(-(n as int))
  {
    DigitsOfShow(n);
    var s := ShowNat(n);
    assert IsDigit(s[0]);
    assert ("-" + s)[1..] == s;
  }

  // ---------------------------------------------------------------------------
  // Binary string order (what an ascending sort on a string field uses)
  // ---------------------------------------------------------------------------

  /** `a` sorts no later than `b`: character by character, a proper prefix first. */
  predicate LexLe(a: string, b: string)
    decreases |a|
  {
    if a == [] then true
    else if b == [] then false
    else if a[0] != b[0] then a[0] < b[0]
    else LexLe(a[1..], b[1..])
  }

  lemma {:induction false} LexLeTotal(a: string, b: string)
    ensures LexLe(a, b) || LexLe(b, a)
    decreases |a|
  {
    if a != [] && b != [] && a[0] == b[0] {
      LexLeTotal(a[1..], b[1..]);
    }
  }

  lemma {:induction false} LexLeTransitive(a: string, b: string, c: string)
    requires LexLe(a, b) && LexLe(b, c)
    ensures LexLe(a, c)
    decreases |a|
  {
    if a != [] && b != [] && c != [] && a[0] == b[0] && b[0] == c[0] {
      LexLeTransitive(a[1..], b[1..], c[1..]);
    }
  }

  lemma {:induction false} LexLeAntisymmetric(a: string, b: string)
    requires LexLe(a, b) && LexLe(b, a)
    ensures a == b
    decreases |a|
  {
    if a != [] {
      LexLeAntisymmetric(a[1..], b[1..]);
      assert a == [a[0]] + a[1..] && b == [b[0]] + b[1..];
    }
  }
}
