/** String and number helpers shared by the rest of the model.  JavaScript and Go
    strings are modelled as `seq<char>`; lengths are counted in characters. */
module Text {

  datatype Option<T> = None | Some(value: T)

  /** `s.startsWith(p)` / `strings.HasPrefix(s, p)` */
  predicate StartsWith(s: string, p: string) {
    |p| <= |s| && s[..|p|] == p
  }

  /** `s.endsWith(p)` / `strings.HasSuffix(s, p)` */
  predicate EndsWith(s: string, p: string) {
    |p| <= |s| && s[|s| - |p|..] == p
  }

  /** `p` occurs in `s` at position `i`. */
  predicate OccursAt(s: string, p: string, i: int) {
    0 <= i && i + |p| <= |s| && s[i..i + |p|] == p
  }

  /** Leftmost occurrence of `p` in `s` at or after `i` (`s.indexOf(p, i)`). */
  function FindFrom(s: string, p: string, i: nat): (r: Option<nat>)
    ensures r.Some? ==> i <= r.value && OccursAt(s, p, r.value)
    ensures r.Some? ==> forall j :: i <= j < r.value ==> !OccursAt(s, p, j)
    ensures r.None? ==> forall j :: i <= j ==> !OccursAt(s, p, j)
    decreases |s| - i
  {
    if i + |p| > |s| then None
    else if s[i..i + |p|] == p then Some(i)
    else FindFrom(s, p, i + 1)
  }

  /** `s.includes(p)` / `strings.Contains(s, p)` */
  predicate Contains(s: string, p: string) {
    FindFrom(s, p, 0).Some?
  }

  lemma ContainsIff(s: string, p: string)
    ensures Contains(s, p) <==> exists i :: OccursAt(s, p, i)
  {
    var r := FindFrom(s, p, 0);
    if r.Some? {
      assert OccursAt(s, p, r.value);
    }
  }

  lemma PrefixContains(s: string, p: string)
    requires StartsWith(s, p)
    ensures Contains(s, p)
  {
    assert OccursAt(s, p, 0);
    ContainsIff(s, p);
  }

  /** `s.replace(p, r)` with a literal pattern: only the first occurrence is replaced. */
  function ReplaceFirst(s: string, p: string, r: string): (t: string)
    ensures !Contains(s, p) ==> t == s
  {
    match FindFrom(s, p, 0)
    case None => s
    case Some(i) => s[..i] + r + s[i + |p|..]
  }

  lemma ReplaceFirstOfPrefix(s: string, p: string, r: string)
    requires StartsWith(s, p)
    ensures ReplaceFirst(s, p, r) == r + s[|p|..]
  {
    assert OccursAt(s, p, 0);
  }

  /** Go `strings.ReplaceAll(s, string(c), r)` for a one-character pattern. */
  function ReplaceAllChar(s: string, c: char, r: string): (t: string)
    ensures c !in s ==> t == s
  {
    if s == [] then []
    else (if s[0] == c then r else [s[0]]) + ReplaceAllChar(s[1..], c, r)
  }

  /** Replacing works piece by piece. */
  lemma {:induction false} ReplaceAllCharConcat(a: string, b: string, c: char, r: string)
    ensures ReplaceAllChar(a + b, c, r) == ReplaceAllChar(a, c, r) + ReplaceAllChar(b, c, r)
  {
    if a == [] {
      assert a + b == b;
    } else {
      var h := if a[0] == c then r else [a[0]];
      calc {
        ReplaceAllChar(a + b, c, r);
      == { assert (a + b)[0] == a[0] && (a + b)[1..] == a[1..] + b; }
        h + ReplaceAllChar(a[1..] + b, c, r);
      == { ReplaceAllCharConcat(a[1..], b, c, r); }
        h + (ReplaceAllChar(a[1..], c, r) + ReplaceAllChar(b, c, r));
      ==
        (h + ReplaceAllChar(a[1..], c, r)) + ReplaceAllChar(b, c, r);
      }
    }
  }

  /** Deleting a character: `ReplaceAllChar(s, c, "")` keeps every other character in order. */
  lemma {:induction false} DeleteCharElements(s: string, c: char)
    ensures forall x :: x in ReplaceAllChar(s, c, "") <==> x in s && x != c
  {
    if s != [] {
      DeleteCharElements(s[1..], c);
      assert s == [s[0]] + s[1..];
    }
  }

  /** `Array.prototype.filter`: the elements satisfying `p`, in their order. */
  function Filter<T>(s: seq<T>, p: T -> bool): (r: seq<T>)
    ensures |r| <= |s|
  {
    if s == [] then [] else (if p(s[0]) then [s[0]] else []) + Filter(s[1..], p)
  }

  /** An element survives the filter exactly when it is in the input and satisfies `p`. */
  lemma {:induction false} FilterMembers<T>(s: seq<T>, p: T -> bool)
    ensures forall x :: x in Filter(s, p) <==> x in s && p(x)
  {
    if s != [] {
      FilterMembers(s[1..], p);
      assert s == [s[0]] + s[1..];
    }
  }

  /** Filtering commutes with concatenation, so the survivors keep their order. */
  lemma {:induction false} FilterConcat<T>(a: seq<T>, b: seq<T>, p: T -> bool)
    ensures Filter(a + b, p) == Filter(a, p) + Filter(b, p)
  {
    if a == [] {
      assert a + b == b;
    } else {
      var h := if p(a[0]) then [a[0]] else [];
      calc {
        Filter(a + b, p);
      == { assert (a + b)[0] == a[0] && (a + b)[1..] == a[1..] + b; }
        h + Filter(a[1..] + b, p);
      == { FilterConcat(a[1..], b, p); }
        h + (Filter(a[1..], p) + Filter(b, p));
      ==
        (h + Filter(a[1..], p)) + Filter(b, p);
      }
    }
  }

  /** One step of a left-to-right filter loop. */
  lemma FilterStep<T>(s: seq<T>, i: nat, p: T -> bool)
    requires i < |s|
    ensures Filter(s[..i + 1], p) == Filter(s[..i], p) + (if p(s[i]) then [s[i]] else [])
  {
    FilterConcat(s[..i], [s[i]], p);
    assert s[..i + 1] == s[..i] + [s[i]];
  }

  /** A filter every element passes changes nothing. */
  lemma {:induction false} FilterAll<T>(s: seq<T>, p: T -> bool)
    requires forall i :: 0 <= i < |s| ==> p(s[i])
    ensures Filter(s, p) == s
  {
    if s != [] {
      FilterAll(s[1..], p);
    }
  }

  lemma SliceConcat<T>(s: seq<T>, i: int, j: int, k: int)
    requires 0 <= i <= j <= k <= |s|
    ensures s[..i] + s[i..j] + s[j..k] + s[k..] == s
  {
    assert s[..i] + s[i..j] == s[..j];
    assert s[..j] + s[j..k] == s[..k];
  }

  // ---------------------------------------------------------------- whitespace

  /** JavaScript `\s` and the characters `String.prototype.trim` removes
      (WhiteSpace and LineTerminator of ECMA-262). */
  predicate IsJsSpace(c: char) {
    c == ' ' || c == '\t' || c == '\n' || c == '\U{000B}' || c == '\U{000C}' || c == '\r'
    || c == '\U{00A0}' || c == '\U{1680}' || ('\U{2000}' <= c <= '\U{200A}')
    || c == '\U{2028}' || c == '\U{2029}' || c == '\U{202F}' || c == '\U{205F}'
    || c == '\U{3000}' || c == '\U{FEFF}'
  }

  /** Go `unicode.IsSpace`, the test `strings.TrimSpace` uses. */
  predicate IsGoSpace(c: char) {
    c == ' ' || c == '\t' || c == '\n' || c == '\U{000B}' || c == '\U{000C}' || c == '\r'
    || c == '\U{0085}' || c == '\U{00A0}' || c == '\U{1680}' || ('\U{2000}' <= c <= '\U{200A}')
    || c == '\U{2028}' || c == '\U{2029}' || c == '\U{202F}' || c == '\U{205F}' || c == '\U{3000}'
  }

  /** Line terminators: the characters the regular-expression `.` does not match. */
  predicate IsLineTerminator(c: char) {
    c == '\n' || c == '\r' || c == '\U{2028}' || c == '\U{2029}'
  }

  function TrimLeft(s: string, ws: char -> bool): (t: string)
    ensures |t| <= |s| && t == s[|s| - |t|..]
    ensures t != [] ==> !ws(t[0])
    ensures forall i :: 0 <= i < |s| - |t| ==> ws(s[i])
  {
    if s != [] && ws(s[0]) then TrimLeft(s[1..], ws) else s
  }

  function TrimRight(s: string, ws: char -> bool): (t: string)
    ensures |t| <= |s| && t == s[..|t|]
    ensures t != [] ==> !ws(t[|t| - 1])
    ensures forall i :: |t| <= i < |s| ==> ws(s[i])
  {
    if s != [] && ws(s[|s| - 1]) then TrimRight(s[..|s| - 1], ws) else s
  }

  /** Removes leading and trailing characters satisfying `ws`. */
  function Trim(s: string, ws: char -> bool): (t: string)
    ensures t != [] ==> !ws(t[0]) && !ws(t[|t| - 1])
  {
    TrimRight(TrimLeft(s, ws), ws)
  }

  /** `s.trim()` in JavaScript */
  function JsTrim(s: string): string { Trim(s, IsJsSpace) }

  /** `strings.TrimSpace(s)` in Go */
  function GoTrimSpace(s: string): string { Trim(s, IsGoSpace) }

  lemma {:induction false} TrimOfClean(s: string, ws: char -> bool)
    requires forall i :: 0 <= i < |s| ==> !ws(s[i])
    ensures Trim(s, ws) == s
  {
    assert TrimLeft(s, ws) == s;
    assert TrimRight(s, ws) == s;
  }

  /** A string whose ends are not trimmed characters is its own trim. */
  lemma TrimOfEnds(s: string, ws: char -> bool)
    requires s != [] ==> !ws(s[0]) && !ws(s[|s| - 1])
    ensures Trim(s, ws) == s
  {
    assert TrimLeft(s, ws) == s;
  }

  /** Trimming adds no character. */
  lemma TrimKeepsOut(s: string, ws: char -> bool, c: char)
    requires c !in s
    ensures c !in Trim(s, ws)
  {
    TrimSubsequence(s, ws);
    var a, b :| 0 <= a <= b <= |s| && Trim(s, ws) == s[a..b];
    assert forall k :: 0 <= k < b - a ==> s[a..b][k] == s[a + k];
  }

  /** Every character of a trimmed string comes from the original. */
  lemma {:induction false} TrimSubsequence(s: string, ws: char -> bool)
    ensures exists a, b :: 0 <= a <= b <= |s| && Trim(s, ws) == s[a..b]
  {
    var l := TrimLeft(s, ws);
    var t := TrimRight(l, ws);
    var a := |s| - |l|;
    assert l == s[a..];
    assert t == l[..|t|] == s[a..a + |t|];
  }

  // ------------------------------------------------------------------ splitting

  /** `s.split(c)` in JavaScript (and `strings.Split` in Go): always at least one piece. */
  function Split(s: string, c: char): (r: seq<string>)
    ensures |r| >= 1
    ensures forall i :: 0 <= i < |r| ==> c !in r[i]
    decreases |s|
  {
    match FindFrom(s, [c], 0)
    case None =>
      assert forall j :: 0 <= j < |s| ==> !OccursAt(s, [c], j);
      assert forall j :: 0 <= j < |s| ==> s[j] != c by {
        forall j | 0 <= j < |s| ensures s[j] != c {
          assert !OccursAt(s, [c], j);
          assert s[j..j + 1] == [s[j]];
        }
      }
      [s]
    case Some(i) =>
      assert s[i..i + 1] == [c];
      assert forall j :: 0 <= j < i ==> s[j] != c by {
        forall j | 0 <= j < i ensures s[j] != c {
          assert !OccursAt(s, [c], j);
          assert s[j..j + 1] == [s[j]];
        }
      }
      [s[..i]] + Split(s[i + 1..], c)
  }

  /** A text without the separator splits into itself. */
  lemma SplitOne(s: string, c: char)
    requires c !in s
    ensures Split(s, c) == [s]
  {
    forall j ensures !OccursAt(s, [c], j) {
      if 0 <= j < |s| {
        assert s[j..j + 1] == [s[j]];
      }
    }
  }

  /** In `a + [c] + b`, where `a` holds no `c`, the first `c` is the one after `a`. */
  lemma FindAfterPrefix(a: string, b: string, c: char)
    requires c !in a
    ensures FindFrom(a + [c] + b, [c], 0) == Some(|a|)
  {
    var s := a + [c] + b;
    assert OccursAt(s, [c], |a|) by { assert s[|a|..|a| + 1] == [c]; }
    forall j | 0 <= j < |a| ensures !OccursAt(s, [c], j) {
      assert s[j..j + 1] == [a[j]];
    }
  }

  /** Splitting `a + [c] + b` where `a` holds no separator. */
  lemma FirstSplit(a: string, b: string, c: char)
    requires c !in a
    ensures Split(a + [c] + b, c) == [a] + Split(b, c)
  {
    var s := a + [c] + b;
    FindAfterPrefix(a, b, c);
    assert s[..|a|] == a && s[|a| + 1..] == b;
  }

  /** Splitting the join of separator-free pieces gives the pieces back. */
  lemma {:induction false} SplitOfJoin(parts: seq<string>, c: char)
    requires |parts| >= 1
    requires forall i :: 0 <= i < |parts| ==> c !in parts[i]
    ensures Split(Join(parts, c), c) == parts
    decreases |parts|
  {
    if |parts| == 1 {
      SplitOne(parts[0], c);
    } else {
      SplitOfJoin(parts[1..], c);
      FirstSplit(parts[0], Join(parts[1..], c), c);
      assert parts == [parts[0]] + parts[1..];
    }
  }

  /** No piece is longer than the string split. */
  lemma {:induction false} SplitPiecesShorter(s: string, c: char)
    ensures forall p :: p in Split(s, c) ==> |p| <= |s|
    decreases |s|
  {
    match FindFrom(s, [c], 0)
    case None =>
    case Some(i) =>
      SplitPiecesShorter(s[i + 1..], c);
  }

  /** Joining the pieces of a split with the separator gives back the string. */
  function Join(parts: seq<string>, c: char): string
    requires |parts| >= 1
  {
    if |parts| == 1 then parts[0] else parts[0] + [c] + Join(parts[1..], c)
  }

  lemma {:induction false} SplitJoin(s: string, c: char)
    ensures Join(Split(s, c), c) == s
    decreases |s|
  {
    match FindFrom(s, [c], 0)
    case None =>
    case Some(i) =>
      assert s[i..i + 1] == [c];
      SplitJoin(s[i + 1..], c);
      assert s == s[..i] + [c] + s[i + 1..];
  }

  // ------------------------------------------------------------------- numbers

  function DigitChar(d: nat): char
    requires d < 10
  {
    ('0' as int + d) as char
  }

  function DigitValue(c: char): nat
  {
    if '0' <= c <= '9' then (c as int - '0' as int) as nat else 0
  }

  predicate IsDigit(c: char) { '0' <= c <= '9' }

  /** Decimal text of a natural number, as Go `%d` and JavaScript `${n}` print it. */
  function NatToDecimal(n: nat): (r: string)
    ensures |r| >= 1
    ensures forall i :: 0 <= i < |r| ==> IsDigit(r[i])
  {
    if n < 10 then [DigitChar(n)] else NatToDecimal(n / 10) + [DigitChar(n % 10)]
  }

  /** Decimal text of an integer: a minus sign before the digits of a negative value. */
  function IntToDecimal(i: int): string
    decreases if i < 0 then 1 else 0
  {
    if i < 0 then "-" + IntToDecimal(-i) else NatToDecimal(i)
  }

  /** Value of a string of decimal digits. */
  function DecimalValue(s: string): nat
  {
    if s == [] then 0 else DecimalValue(s[..|s| - 1]) * 10 + DigitValue(s[|s| - 1])
  }

  lemma {:induction false} DecimalRoundTrip(n: nat)
    ensures DecimalValue(NatToDecimal(n)) == n
  {
    if n >= 10 {
      DecimalRoundTrip(n / 10);
      var r := NatToDecimal(n);
      assert r[..|r| - 1] == NatToDecimal(n / 10);
      assert DigitValue(r[|r| - 1]) == n % 10 by {
        assert r[|r| - 1] == DigitChar(n % 10);
      }
    } else {
      assert DigitValue(DigitChar(n)) == n;
    }
  }

  /** Distinct numbers print differently. */
  lemma NatToDecimalInjective(m: nat, n: nat)
    requires NatToDecimal(m) == NatToDecimal(n)
    ensures m == n
  {
    DecimalRoundTrip(m);
    DecimalRoundTrip(n);
  }
}
