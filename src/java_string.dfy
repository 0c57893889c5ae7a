/**
 * The two java.lang.String operations the mojos apply to the `packages`
 * option: `trim()` and `split(",")`.
 */
module JavaString {

  /** The character at position i is one that String.trim removes (code point U+0020 or below). */
  predicate BlankAt(s: string, i: nat)
    requires i < |s|
  {
    s[i] <= ' '
  }

  /** Every character is one that String.trim removes. */
  predicate IsBlank(s: string) {
    forall i: nat :: i < |s| ==> BlankAt(s, i)
  }

  /** A concatenation is blank exactly when both parts are. */
  lemma BlankAppend(a: string, b: string)
    ensures IsBlank(a + b) <==> IsBlank(a) && IsBlank(b)
  {
    var u := a + b;
    if IsBlank(u) {
      forall i: nat | i < |a| ensures BlankAt(a, i) {
        assert BlankAt(u, i);
      }
      forall i: nat | i < |b| ensures BlankAt(b, i) {
        assert BlankAt(u, |a| + i);
      }
    }
    if IsBlank(a) && IsBlank(b) {
      forall i: nat | i < |u| ensures BlankAt(u, i) {
        if i < |a| {
          assert BlankAt(a, i);
        } else {
          assert BlankAt(b, i - |a|);
        }
      }
    }
  }

  /** A one-character string is blank exactly when its character is. */
  lemma BlankSingle(c: char)
    ensures IsBlank([c]) <==> c <= ' '
  {
    assert BlankAt([c], 0) <==> c <= ' ';
  }

  /** Drops leading characters up to U+0020. */
  function TrimStart(s: string): (r: string)
    ensures |r| <= |s| && r == s[|s| - |r|..]
    ensures r == [] <==> IsBlank(s)
    ensures r != [] ==> r[0] > ' '
    ensures IsBlank(s[..|s| - |r|])
    decreases |s|
  {
    if s == [] then
      s
    else
      assert s == [s[0]] + s[1..];
      BlankAppend([s[0]], s[1..]);
      BlankSingle(s[0]);
      if s[0] <= ' ' then
        var r := TrimStart(s[1..]);
        SuffixSlices(s, 1, |s| - 1 - |r|);
        assert s[..|s| - |r|] == [s[0]] + s[1..][..|s[1..]| - |r|];
        BlankAppend([s[0]], s[1..][..|s[1..]| - |r|]);
        r
      else
        assert s[..0] == [];
        s
  }

  /** Drops trailing characters up to U+0020. */
  function TrimEnd(s: string): (r: string)
    ensures |r| <= |s| && r == s[..|r|]
    ensures r == [] <==> IsBlank(s)
    ensures r != [] ==> r[|r| - 1] > ' '
    ensures IsBlank(s[|r|..])
    decreases |s|
  {
    if s == [] then
      s
    else
      var last := s[|s| - 1];
      assert s == s[..|s| - 1] + [last];
      BlankAppend(s[..|s| - 1], [last]);
      BlankSingle(last);
      if last <= ' ' then
        var r := TrimEnd(s[..|s| - 1]);
        assert s[|r|..] == s[..|s| - 1][|r|..] + [last];
        BlankAppend(s[..|s| - 1][|r|..], [last]);
        r
      else
        assert s[|s|..] == [];
        s
  }

  /** `r` is the slice of `s` starting at k, with only blank characters before and after it. */
  predicate BlankRunsAround(s: string, k: nat, r: string) {
    && k + |r| <= |s|
    && r == s[k..k + |r|]
    && IsBlank(s[..k])
    && IsBlank(s[k + |r|..])
  }

  /**
   * String.trim: the slice of `s` left once the blank characters at both
   * ends are removed; empty exactly for a blank string.
   */
  function Trim(s: string): (r: string)
    ensures r == [] <==> IsBlank(s)
    ensures r != [] ==> r[0] > ' ' && r[|r| - 1] > ' '
    ensures exists k: nat :: BlankRunsAround(s, k, r)
  {
    var t := TrimStart(s);
    var r := TrimEnd(t);
    TrimmedSlice(s, |s| - |t|, t, r);
    r
  }

  /**
   * A suffix t of `s` after a blank run that starts with a non-blank
   * character, and a prefix r of t before a blank run that is empty exactly
   * when t is blank and otherwise ends with a non-blank character: r is
   * what String.trim leaves of `s`.
   */
  lemma TrimmedSlice(s: string, k: nat, t: string, r: string)
    requires k <= |s| && t == s[k..] && IsBlank(s[..k]) && (t != [] ==> t[0] > ' ')
    requires |r| <= |t| && r == t[..|r|] && IsBlank(t[|r|..])
    requires (r == [] <==> IsBlank(t)) && (r != [] ==> r[|r| - 1] > ' ')
    ensures r == [] <==> IsBlank(s)
    ensures r != [] ==> r[0] > ' ' && r[|r| - 1] > ' '
    ensures BlankRunsAround(s, k, r)
  {
    assert s == s[..k] + t;
    BlankAppend(s[..k], t);
    SuffixSlices(s, k, |r|);
    if r != [] {
      assert r[0] == t[0];
    }
  }

  /** Slicing a suffix of `s` is slicing `s` itself, shifted by the suffix's start. */
  lemma SuffixSlices(s: string, k: nat, n: nat)
    requires k + n <= |s|
    ensures s[k..][..n] == s[k..k + n]
    ensures s[k..][n..] == s[k + n..]
  {
  }

  /** The pieces of `s` between occurrences of `sep`, every empty piece kept. */
  function Fields(s: string, sep: char): (r: seq<string>)
    ensures |r| >= 1
    ensures forall i :: 0 <= i < |r| ==> sep !in r[i]
    decreases |s|
  {
    if s == [] then [[]]
    else
      var rest := Fields(s[1..], sep);
      if s[0] == sep then [[]] + rest
      else [[s[0]] + rest[0]] + rest[1..]
  }

  /** The pieces put back together, `sep` between neighbours. */
  function Join(fields: seq<string>, sep: char): (r: string)
    decreases |fields|
  {
    if fields == [] then []
    else if |fields| == 1 then fields[0]
    else fields[0] + [sep] + Join(fields[1..], sep)
  }

  /** Removes the trailing empty pieces, as String.split does. */
  function DropTrailingEmpty(fields: seq<string>): (r: seq<string>)
    ensures |r| <= |fields| && r == fields[..|r|]
    ensures r == [] || r[|r| - 1] != []
    ensures forall i :: |r| <= i < |fields| ==> fields[i] == []
    decreases |fields|
  {
    if fields != [] && fields[|fields| - 1] == [] then DropTrailingEmpty(fields[..|fields| - 1]) else fields
  }

  /**
   * String.split(String.valueOf(sep)) for a separator that is not a regular
   * expression metacharacter: the input itself when the separator does not
   * occur, otherwise the pieces with the trailing empty ones removed.
   */
  function Split(s: string, sep: char): (r: seq<string>)
    ensures forall i :: 0 <= i < |r| ==> sep !in r[i]
  {
    if sep !in s then [s] else DropTrailingEmpty(Fields(s, sep))
  }

  /** Joining the pieces gives back the string: splitting loses nothing but the separators. */
  lemma {:induction false} JoinFields(s: string, sep: char)
    ensures Join(Fields(s, sep), sep) == s
    decreases |s|
  {
    if s != [] {
      JoinFields(s[1..], sep);
      var rest := Fields(s[1..], sep);
      if s[0] != sep && |rest| > 1 {
        assert Join(rest, sep) == rest[0] + [sep] + Join(rest[1..], sep);
        assert [s[0]] + rest[0] + [sep] + Join(rest[1..], sep) == [s[0]] + Join(rest, sep);
      }
    }
  }

  lemma {:induction false} FieldsWithoutSeparator(s: string, sep: char)
    requires sep !in s
    ensures Fields(s, sep) == [s]
    decreases |s|
  {
    if s != [] {
      assert s[0] != sep && sep !in s[1..];
      FieldsWithoutSeparator(s[1..], sep);
      assert [s[0]] + s[1..] == s;
    }
  }

  lemma {:induction false} FieldsAfterFirstSeparator(a: string, b: string, sep: char)
    requires sep !in a
    ensures Fields(a + [sep] + b, sep) == [a] + Fields(b, sep)
    decreases |a|
  {
    if a == [] {
      assert a + [sep] + b == [sep] + b;
      assert ([sep] + b)[1..] == b;
    } else {
      FieldsAfterFirstSeparator(a[1..], b, sep);
      assert (a + [sep] + b)[1..] == a[1..] + [sep] + b;
      assert [a[0]] + a[1..] == a;
    }
  }

  /** Pieces that hold no separator are recovered exactly by splitting their join. */
  lemma {:induction false} FieldsJoin(fields: seq<string>, sep: char)
    requires |fields| >= 1
    requires forall i :: 0 <= i < |fields| ==> sep !in fields[i]
    ensures Fields(Join(fields, sep), sep) == fields
    decreases |fields|
  {
    if |fields| == 1 {
      FieldsWithoutSeparator(fields[0], sep);
    } else {
      FieldsJoin(fields[1..], sep);
      FieldsAfterFirstSeparator(fields[0], Join(fields[1..], sep), sep);
      assert [fields[0]] + fields[1..] == fields;
    }
  }

  /**
   * Split inverts Join for pieces without separators whose last piece is not
   * empty (a single piece may be empty).
   */
  lemma SplitJoin(fields: seq<string>, sep: char)
    requires |fields| >= 1
    requires forall i :: 0 <= i < |fields| ==> sep !in fields[i]
    requires |fields| == 1 || fields[|fields| - 1] != []
    ensures Split(Join(fields, sep), sep) == fields
  {
    FieldsJoin(fields, sep);
    if |fields| == 1 {
      FieldsWithoutSeparator(fields[0], sep);
    } else {
      assert sep in Join(fields, sep) by {
        assert Join(fields, sep)[|fields[0]|] == sep;
      }
    }
  }
}
