/**
 * The few pieces of .NET string behaviour the request-handling code relies on:
 * ordinal case-insensitive comparison (`StringComparison.OrdinalIgnoreCase`),
 * `char.IsWhiteSpace`, `string.Trim`, `string.Split(',')[0]`, and the header
 * collection helpers `StringValues.ToString()` and `FirstOrDefault()`.
 * Case folding is ASCII only.
 */
module Text {
  import opened Basics

  // ---------------------------------------------------------------------------
  // Find-first, the shape of every `foreach (...) if (...) return ...;` search
  // ---------------------------------------------------------------------------

  /** The least `k < n` with `p(k)`, or `n` when there is none. */
  function FirstWhere(n: nat, p: nat -> bool): (k: nat)
    ensures k <= n
    ensures forall j: nat :: j < k ==> !p(j)
    ensures k < n ==> p(k)
  {
    FirstWhereFrom(0, n, p)
  }

  function FirstWhereFrom(from: nat, n: nat, p: nat -> bool): (k: nat)
    requires from <= n
    decreases n - from
    ensures from <= k <= n
    ensures forall j: nat :: from <= j < k ==> !p(j)
    ensures k < n ==> p(k)
  {
    if from == n then n
    else if p(from) then from
    else FirstWhereFrom(from + 1, n, p)
  }

  // ---------------------------------------------------------------------------
  // Characters
  // ---------------------------------------------------------------------------

  /** `char.IsWhiteSpace`: the Unicode White_Space characters of the BMP. */
  predicate IsWhiteSpace(c: char) {
    || c == ' '
    || '\t' <= c <= '\r'
    || c == '\U{0085}'
    || c == '\U{00A0}'
    || c == '\U{1680}'
    || '\U{2000}' <= c <= '\U{200A}'
    || c == '\U{2028}'
    || c == '\U{2029}'
    || c == '\U{202F}'
    || c == '\U{205F}'
    || c == '\U{3000}'
  }

  /** The case mapping behind `OrdinalIgnoreCase`, restricted to ASCII. */
  function FoldCase(c: char): char {
    if 'a' <= c <= 'z' then (c as int - 32) as char else c
  }

  predicate IsDigit(c: char) {
    '0' <= c <= '9'
  }

  // ---------------------------------------------------------------------------
  // Ordinal case-insensitive comparison
  // ---------------------------------------------------------------------------

  /** `a.Equals(b, StringComparison.OrdinalIgnoreCase)` */
  predicate EqualsIgnoreCase(a: string, b: string) {
    |a| == |b| && forall k :: 0 <= k < |a| ==> FoldCase(a[k]) == FoldCase(b[k])
  }

  /** `p` occurs in `s` at index `i`, ignoring case. */
  predicate MatchesAt(s: string, p: string, i: nat) {
    i + |p| <= |s| && EqualsIgnoreCase(s[i..i + |p|], p)
  }

  /** `s.StartsWith(p, StringComparison.OrdinalIgnoreCase)` */
  predicate StartsWithIgnoreCase(s: string, p: string) {
    MatchesAt(s, p, 0)
  }

  /** `s.IndexOf(p, StringComparison.OrdinalIgnoreCase)`: the leftmost occurrence. */
  function IndexOfIgnoreCase(s: string, p: string): (r: Option<nat>)
    ensures r.Some? ==> MatchesAt(s, p, r.value)
    ensures r.Some? ==> forall i: nat :: i < r.value ==> !MatchesAt(s, p, i)
    ensures r.None? ==> forall i: nat :: !MatchesAt(s, p, i)
  {
    var at := (i: nat) => MatchesAt(s, p, i);
    var k := FirstWhere(|s| + 1, at);
    assert forall i: nat :: at(i) == MatchesAt(s, p, i);
    if k <= |s| then Some(k) else None
  }

  /** `s.Contains(p, StringComparison.OrdinalIgnoreCase)` */
  predicate ContainsIgnoreCase(s: string, p: string)
    ensures ContainsIgnoreCase(s, p) <==> exists i: nat :: MatchesAt(s, p, i)
  {
    IndexOfIgnoreCase(s, p).Some?
  }

  /** Equal-ignoring-case strings contain the same patterns at the same places. */
  lemma MatchesAtTransfer(s: string, t: string, p: string, i: nat)
    requires EqualsIgnoreCase(s, t)
    requires MatchesAt(t, p, i)
    ensures MatchesAt(s, p, i)
  {
    forall k | 0 <= k < |p|
      ensures FoldCase(s[i..i + |p|][k]) == FoldCase(p[k])
    {
      assert s[i..i + |p|][k] == s[i + k];
      assert t[i..i + |p|][k] == t[i + k];
    }
  }

  /**
   * A pattern with a character that does not occur in `s` (in either case)
   * does not occur in `s`.
   */
  lemma {:induction false} AbsentCharacter(s: string, p: string, j: nat)
    requires j < |p|
    requires forall k :: 0 <= k < |s| ==> FoldCase(s[k]) != FoldCase(p[j])
    ensures !ContainsIgnoreCase(s, p)
  {
    forall i: nat
      ensures !MatchesAt(s, p, i)
    {
      if i + |p| <= |s| {
        assert s[i..i + |p|][j] == s[i + j];
      }
    }
  }

  /** Every character of `s` is drawn from `alphabet`. */
  predicate OverAlphabet(s: string, alphabet: set<char>) {
    forall k :: 0 <= k < |s| ==> s[k] in alphabet
  }

  /** Character `j` of `p` is a letter that `alphabet` has in neither case. */
  predicate LetterOutside(alphabet: set<char>, p: string, j: nat) {
    && j < |p| && 'A' <= FoldCase(p[j]) <= 'Z'
    && FoldCase(p[j]) !in alphabet && (FoldCase(p[j]) as int + 32) as char !in alphabet
  }

  /** A pattern with a letter that a string's alphabet lacks does not occur in it. */
  lemma AbsentLetter(s: string, alphabet: set<char>, p: string, j: nat)
    requires OverAlphabet(s, alphabet)
    requires LetterOutside(alphabet, p, j)
    ensures !ContainsIgnoreCase(s, p)
  {
    forall k | 0 <= k < |s|
      ensures FoldCase(s[k]) != FoldCase(p[j])
    {
      assert s[k] in alphabet;
    }
    AbsentCharacter(s, p, j);
  }

  /** `string.IsNullOrWhiteSpace` */
  predicate IsNullOrWhiteSpace(s: Option<string>) {
    s.None? || forall k :: 0 <= k < |s.value| ==> IsWhiteSpace(s.value[k])
  }

  /** A string in which a letter occurs, in either case, is not blank. */
  lemma LetterIsNotBlank(s: string, p: string)
    requires ContainsIgnoreCase(s, p)
    requires p != [] && 'A' <= FoldCase(p[0]) <= 'Z'
    ensures !IsNullOrWhiteSpace(Some(s))
  {
    var i: nat :| MatchesAt(s, p, i);
    assert s[i..i + |p|][0] == s[i];
    assert !IsWhiteSpace(s[i]);
  }

  // ---------------------------------------------------------------------------
  // Trim and Split
  // ---------------------------------------------------------------------------

  /** `s.TrimStart()` */
  function TrimStart(s: string): (r: string)
    ensures |r| <= |s| && r == s[|s| - |r|..]
    ensures r == [] || !IsWhiteSpace(r[0])
    ensures forall k :: 0 <= k < |s| - |r| ==> IsWhiteSpace(s[k])
  {
    if s != [] && IsWhiteSpace(s[0]) then TrimStart(s[1..]) else s
  }

  /** `s.TrimEnd()` */
  function TrimEnd(s: string): (r: string)
    ensures |r| <= |s| && r == s[..|r|]
    ensures r == [] || !IsWhiteSpace(r[|r| - 1])
    ensures forall k :: |r| <= k < |s| ==> IsWhiteSpace(s[k])
  {
    if s != [] && IsWhiteSpace(s[|s| - 1]) then TrimEnd(s[..|s| - 1]) else s
  }

  /** The number of white-space characters that start `s`. */
  function LeadingWhiteSpace(s: string): (k: nat)
    ensures k <= |s|
    ensures forall j :: 0 <= j < k ==> IsWhiteSpace(s[j])
    ensures k < |s| ==> !IsWhiteSpace(s[k])
  {
    var t := TrimStart(s);
    assert t != [] ==> t[0] == s[|s| - |t|];
    |s| - |t|
  }

  /**
   * `s.Trim()`: the part of `s` between its leading and its trailing white
   * space, which has no white space at either end.
   */
  function Trim(s: string): (r: string)
    ensures LeadingWhiteSpace(s) + |r| <= |s|
    ensures r == s[LeadingWhiteSpace(s)..LeadingWhiteSpace(s) + |r|]
    ensures forall k :: LeadingWhiteSpace(s) + |r| <= k < |s| ==> IsWhiteSpace(s[k])
    ensures r == [] || (!IsWhiteSpace(r[0]) && !IsWhiteSpace(r[|r| - 1]))
  {
    var t := TrimStart(s);
    var r := TrimEnd(t);
    assert forall k :: |s| - |t| + |r| <= k < |s| ==> s[k] == t[k - (|s| - |t|)];
    r
  }

  /** Trimming a string with no white space at its ends changes nothing. */
  lemma TrimUnpadded(s: string)
    requires s == [] || (!IsWhiteSpace(s[0]) && !IsWhiteSpace(s[|s| - 1]))
    ensures Trim(s) == s
  {
    var t := TrimStart(s);
    assert t == s;
  }

  /** `s.Split(sep)[0]`: everything before the first `sep`. */
  function FirstSegment(s: string, sep: char): (r: string)
    ensures |r| <= |s| && r == s[..|r|]
    ensures sep !in r
    ensures |r| == |s| || s[|r|] == sep
  {
    var isSep := (i: nat) => i < |s| && s[i] == sep;
    var k := FirstWhere(|s|, isSep);
    assert forall i: nat :: isSep(i) == (i < |s| && s[i] == sep);
    s[..k]
  }

  // ---------------------------------------------------------------------------
  // Header values
  // ---------------------------------------------------------------------------

  /** The values that are not empty, in order. */
  function NonEmptyValues(values: seq<string>): (r: seq<string>)
    ensures forall v :: v in r <==> v in values && v != []
  {
    if values == [] then []
    else (if values[0] == [] then [] else [values[0]]) + NonEmptyValues(values[1..])
  }

  /** The parts joined with "," between consecutive parts. */
  function JoinWithCommas(parts: seq<string>): (r: string)
    ensures parts == [] ==> r == []
    ensures parts != [] ==> |parts[0]| <= |r| && r[..|parts[0]|] == parts[0]
    ensures |parts| > 1 ==> |r| > |parts[0]| && r[|parts[0]|] == ','
  {
    if parts == [] then []
    else if |parts| == 1 then parts[0]
    else
      var r := parts[0] + "," + JoinWithCommas(parts[1..]);
      assert r[..|parts[0]|] == parts[0];
      r
  }

  /**
   * `StringValues.ToString()`: "" for no value, the value itself for one,
   * and otherwise the non-empty values joined by ",".
   */
  function HeaderString(values: seq<string>): (r: string)
    ensures values == [] ==> r == ""
    ensures |values| == 1 ==> r == values[0]
    ensures |values| > 1 ==> r == JoinWithCommas(NonEmptyValues(values))
  {
    if values == [] then ""
    else if |values| == 1 then values[0]
    else JoinWithCommas(NonEmptyValues(values))
  }

  /** The header string is empty exactly when every value is empty. */
  lemma HeaderStringEmptyIff(values: seq<string>)
    ensures HeaderString(values) == [] <==> forall i :: 0 <= i < |values| ==> values[i] == []
  {
    if |values| > 1 {
      var parts := NonEmptyValues(values);
      if parts != [] {
        assert parts[0] in parts;
      }
      if exists i :: 0 <= i < |values| && values[i] != [] {
        var i :| 0 <= i < |values| && values[i] != [];
        assert values[i] in values;
        assert values[i] in parts;
      }
    }
  }

  /** With several values, the first non-empty one starts the header string. */
  lemma HeaderStringStartsWithFirstValue(values: seq<string>)
    requires |values| > 1 && values[0] != []
    ensures |values[0]| <= |HeaderString(values)|
    ensures HeaderString(values)[..|values[0]|] == values[0]
  {
    assert NonEmptyValues(values)[0] == values[0];
  }

  /** `StringValues.FirstOrDefault()` */
  function FirstOrDefault(values: seq<string>): Option<string> {
    if values == [] then None else Some(values[0])
  }
}
