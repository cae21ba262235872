/** The browser-side slug generators: the category dialog's (lower-case,
    decompose, drop combining marks, keep `[a-z0-9\s-]`, trim, `\s+` to '-') and
    the one the post dialog and the article editor share (lower-case, keep
    `[a-z0-9\s-]`, `\s+` to '-', `-+` to '-', trim). Case mapping and Unicode
    decomposition are library behaviour and come in as the parameter `lower`
    (or `fold` for both together). */
module Slugs {
  import opened Text

  /** The slug alphabet `[a-z0-9-]`. */
  predicate SlugChar(c: char) {
    ('a' <= c <= 'z') || ('0' <= c <= '9') || c == '-'
  }

  /** Every character satisfies `Q`. */
  predicate All(s: string, Q: char -> bool) {
    forall i :: 0 <= i < |s| ==> Q(s[i])
  }

  predicate IsSlugText(s: string) { All(s, SlugChar) }

  predicate IsHyphen(c: char) { c == '-' }

  predicate NotJsSpace(c: char) { !IsJsSpace(c) }

  /** No run of two hyphens. */
  predicate NoDoubleHyphen(s: string) {
    forall i :: 0 <= i < |s| - 1 ==> !(s[i] == '-' && s[i + 1] == '-')
  }

  /** U+0300..U+036F, the combining diacritical marks. */
  predicate NotCombiningMark(c: char) { !('\U{0300}' <= c <= '\U{036F}') }

  /** `s.replace(/[^...]/g, '')` keeps exactly the characters of the class,
      in order: it is `Filter`.  Every character of the result is in the class,
      and a character survives exactly when it occurs in the input and is in
      the class. */
  lemma FilterChars(s: string, keep: char -> bool)
    ensures All(Filter(s, keep), keep)
    ensures forall c :: c in s && keep(c) <==> c in Filter(s, keep)
  {
    FilterMembers(s, keep);
    var r := Filter(s, keep);
    forall i | 0 <= i < |r| ensures keep(r[i]) {
      assert r[i] in r;
    }
  }

  /** Deleting a character the filter drops anyway makes no difference. */
  lemma {:induction false} FilterAfterDelete(s: string, c: char, keep: char -> bool)
    requires !keep(c)
    ensures Filter(ReplaceAllChar(s, c, ""), keep) == Filter(s, keep)
  {
    if s != [] {
      FilterAfterDelete(s[1..], c, keep);
      var head := if s[0] == c then "" else [s[0]];
      assert ReplaceAllChar(s, c, "") == head + ReplaceAllChar(s[1..], c, "");
      FilterConcat(head, ReplaceAllChar(s[1..], c, ""), keep);
    }
  }

  /** Trimming keeps a contiguous piece, so whatever held of every character
      still does. */
  lemma TrimAll(s: string, ws: char -> bool, Q: char -> bool)
    requires All(s, Q)
    ensures All(Trim(s, ws), Q)
  {
    TrimSubsequence(s, ws);
  }

  /** `s.replace(/P+/g, '-')`: every maximal run of characters satisfying `P`
      becomes one hyphen (the global match is leftmost and greedy). */
  function CollapseRuns(s: string, P: char -> bool): (r: string)
    ensures |r| <= |s|
    decreases |s|
  {
    if s == [] then []
    else if P(s[0]) then "-" + CollapseRuns(TrimLeft(s, P), P)
    else [s[0]] + CollapseRuns(s[1..], P)
  }

  /** The result holds hyphens and characters outside `P` that satisfied `Q`. */
  lemma {:induction false} CollapseRunsChars(s: string, P: char -> bool, Q: char -> bool)
    requires All(s, Q)
    ensures forall i :: 0 <= i < |CollapseRuns(s, P)| ==>
      CollapseRuns(s, P)[i] == '-' || (!P(CollapseRuns(s, P)[i]) && Q(CollapseRuns(s, P)[i]))
    decreases |s|
  {
    if s != [] {
      if P(s[0]) {
        var t := TrimLeft(s, P);
        assert All(t, Q);
        CollapseRunsChars(t, P, Q);
      } else {
        CollapseRunsChars(s[1..], P, Q);
      }
    }
  }

  /** A string without any `P` character is left alone. */
  lemma {:induction false} CollapseRunsNone(s: string, P: char -> bool)
    requires forall i :: 0 <= i < |s| ==> !P(s[i])
    ensures CollapseRuns(s, P) == s
  {
    if s != [] {
      CollapseRunsNone(s[1..], P);
    }
  }

  lemma ConsNoDouble(c: char, t: string)
    requires NoDoubleHyphen(t) && !(c == '-' && t != [] && t[0] == '-')
    ensures NoDoubleHyphen([c] + t)
  {
    var r := [c] + t;
    forall i | 0 <= i < |r| - 1 ensures !(r[i] == '-' && r[i + 1] == '-') {
      if i > 0 {
        assert r[i] == t[i - 1] && r[i + 1] == t[i];
      }
    }
  }

  /** Collapsing the hyphen runs leaves no two hyphens side by side. */
  lemma {:induction false} CollapseHyphensNoDouble(s: string)
    ensures NoDoubleHyphen(CollapseRuns(s, IsHyphen))
    decreases |s|
  {
    if s != [] {
      if IsHyphen(s[0]) {
        var t := TrimLeft(s, IsHyphen);
        CollapseHyphensNoDouble(t);
        if t != [] {
          assert !IsHyphen(t[0]);
          assert CollapseRuns(t, IsHyphen)[0] == t[0];
        }
        ConsNoDouble('-', CollapseRuns(t, IsHyphen));
      } else {
        CollapseHyphensNoDouble(s[1..]);
        ConsNoDouble(s[0], CollapseRuns(s[1..], IsHyphen));
      }
    }
  }

  /** When the last character is not collapsed, it ends the result. */
  lemma {:induction false} CollapseLast(s: string, P: char -> bool)
    requires s != [] && !P(s[|s| - 1])
    ensures CollapseRuns(s, P) != [] && CollapseRuns(s, P)[|CollapseRuns(s, P)| - 1] == s[|s| - 1]
    decreases |s|
  {
    if P(s[0]) {
      var t := TrimLeft(s, P);
      assert t != [] && t[|t| - 1] == s[|s| - 1];
      CollapseLast(t, P);
    } else if |s| > 1 {
      CollapseLast(s[1..], P);
    }
  }

  // ----------------------------------------------------- the category dialog

  /** `[a-z0-9\s-]` */
  predicate CategoryKeep(c: char) {
    ('a' <= c <= 'z') || ('0' <= c <= '9') || IsJsSpace(c) || c == '-'
  }

  predicate SlugOrSpace(c: char) { SlugChar(c) || IsJsSpace(c) }

  /** The name with combining marks and everything outside `[a-z0-9\s-]` removed. */
  function CategoryKept(fold: string -> string, name: string): string {
    Filter(Filter(fold(name), NotCombiningMark), CategoryKeep)
  }

  /** `generateSlug` of the category dialog; `fold` stands for
      `.toLowerCase().normalize('NFD')`. */
  function CategorySlug(fold: string -> string, name: string): string {
    CollapseRuns(JsTrim(CategoryKept(fold, name)), IsJsSpace)
  }

  /** Whatever implies `Q` character by character carries over to `Q`. */
  lemma AllWeaken(s: string, P: char -> bool, Q: char -> bool)
    requires All(s, P) && forall c :: P(c) ==> Q(c)
    ensures All(s, Q)
  {
  }

  /** The slug holds only `[a-z0-9-]`, so no whitespace. */
  lemma CategorySlugAlphabet(fold: string -> string, name: string)
    ensures IsSlugText(CategorySlug(fold, name))
  {
    var kept := CategoryKept(fold, name);
    FilterChars(Filter(fold(name), NotCombiningMark), CategoryKeep);
    AllWeaken(kept, CategoryKeep, SlugOrSpace);
    var trimmed := JsTrim(kept);
    TrimAll(kept, IsJsSpace, SlugOrSpace);
    CollapseRunsChars(trimmed, IsJsSpace, SlugOrSpace);
  }

  /** Trimming `ws` and then collapsing its runs yields a string whose ends are
      characters of the input. */
  lemma TrimCollapseEnds(kept: string, ws: char -> bool)
    ensures var slug := CollapseRuns(Trim(kept, ws), ws);
      slug != [] ==> slug[0] in kept && slug[|slug| - 1] in kept
  {
    var trimmed := Trim(kept, ws);
    var slug := CollapseRuns(trimmed, ws);
    if slug != [] {
      TrimSubsequence(kept, ws);
      assert slug[0] == trimmed[0];
      CollapseLast(trimmed, ws);
    }
  }

  /** A string without `ws` characters survives trimming and collapsing. */
  lemma TrimCollapseClean(s: string, ws: char -> bool)
    requires forall i :: 0 <= i < |s| ==> !ws(s[i])
    ensures CollapseRuns(Trim(s, ws), ws) == s
  {
    TrimOfClean(s, ws);
    CollapseRunsNone(s, ws);
  }

  /** As whitespace is trimmed before runs become hyphens, the slug's first and
      last characters are characters of the filtered name, never hyphens made
      from spaces. */
  lemma CategorySlugEnds(fold: string -> string, name: string)
    ensures var slug := CategorySlug(fold, name); var kept := CategoryKept(fold, name);
      slug != [] ==> slug[0] in kept && slug[|slug| - 1] in kept
  {
    TrimCollapseEnds(CategoryKept(fold, name), IsJsSpace);
  }

  /** A slug fed back through the generator comes out unchanged, provided the
      case folding leaves slug text alone (as lower-casing and decomposition do
      for `[a-z0-9-]`). */
  lemma CategorySlugIdempotent(fold: string -> string, name: string)
    requires forall s :: IsSlugText(s) ==> fold(s) == s
    ensures CategorySlug(fold, CategorySlug(fold, name)) == CategorySlug(fold, name)
  {
    var slug := CategorySlug(fold, name);
    CategorySlugAlphabet(fold, name);
    assert CategoryKept(fold, slug) == slug by {
      assert fold(slug) == slug;
      AllWeaken(slug, SlugChar, NotCombiningMark);
      FilterAll(slug, NotCombiningMark);
      AllWeaken(slug, SlugChar, CategoryKeep);
      FilterAll(slug, CategoryKeep);
    }
    AllWeaken(slug, SlugChar, NotJsSpace);
    TrimCollapseClean(slug, IsJsSpace);
  }

  // ------------------------------------------- the post and article editors

  /** The title after `.replace(/\s+/g, '-').replace(/-+/g, '-')`. */
  function TitleDashed(lower: string -> string, title: string): string {
    CollapseRuns(CollapseRuns(Filter(lower(title), CategoryKeep), IsJsSpace), IsHyphen)
  }

  /** The title slug chain of the post dialog and the article editor; `lower`
      stands for `.toLowerCase()`. */
  function TitleSlug(lower: string -> string, title: string): string {
    JsTrim(TitleDashed(lower, title))
  }

  /** The title slug holds only `[a-z0-9-]` with no two hyphens in a row, and the
      final `trim` has nothing left to remove: whitespace is gone by then. */
  lemma TitleSlugShape(lower: string -> string, title: string)
    ensures IsSlugText(TitleSlug(lower, title))
    ensures NoDoubleHyphen(TitleSlug(lower, title))
    ensures TitleSlug(lower, title) == TitleDashed(lower, title)
  {
    var kept := Filter(lower(title), CategoryKeep);
    FilterChars(lower(title), CategoryKeep);
    assert All(kept, SlugOrSpace);
    var spaced := CollapseRuns(kept, IsJsSpace);
    CollapseRunsChars(kept, IsJsSpace, SlugOrSpace);
    assert All(spaced, SlugChar);
    var dashed := CollapseRuns(spaced, IsHyphen);
    CollapseRunsChars(spaced, IsHyphen, SlugChar);
    assert All(dashed, SlugChar);
    assert All(dashed, NotJsSpace);
    TrimOfClean(dashed, IsJsSpace);
    CollapseHyphensNoDouble(spaced);
  }

  function AsIs(s: string): string { s }

  /** Surrounding spaces become hyphens that the trailing `trim` cannot remove. */
  lemma TitleSlugKeepsEdgeHyphens()
    ensures TitleSlug(AsIs, " a ") == "-a-"
  {
    var kept := Filter(" a ", CategoryKeep);
    assert kept == " a ";
    assert CollapseRuns(" ", IsJsSpace) == "-";
    assert CollapseRuns("a ", IsJsSpace) == "a-";
    assert CollapseRuns(kept, IsJsSpace) == "-a-";
    assert CollapseRuns("-", IsHyphen) == "-";
    assert CollapseRuns("a-", IsHyphen) == "a-";
    assert CollapseRuns("-a-", IsHyphen) == "-a-";
    TitleSlugShape(AsIs, " a ");
  }
}
