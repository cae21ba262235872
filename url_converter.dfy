/** Rewriting absolute backend URLs into relative ones so that a proxy serves them
    (frontend/src/app/utils/url-converter.util.ts, and the private copies in the
    admin, home and post-dialog components).

    The regular expressions of the source are written out as scanning functions;
    each one is shown equal to a declarative description of what the pattern
    matches, and the scan picks the leftmost match as the JavaScript engine does. */
module UrlConverter {
  import opened Text

  /** `URL_PATTERNS.LOCALHOST` */
  const Localhost: string := "http://localhost:8080/"

  /** First index at or after `i` whose character satisfies `P`, or `|s|`. */
  function FirstOf(s: string, i: nat, P: char -> bool): (r: nat)
    requires i <= |s|
    ensures i <= r <= |s|
    ensures r < |s| ==> P(s[r])
    ensures forall k :: i <= k < r ==> !P(s[k])
    decreases |s| - i
  {
    if i == |s| || P(s[i]) then i else FirstOf(s, i + 1, P)
  }

  predicate IsSlash(c: char) { c == '/' }

  // ------------------------------------------------ /scheme[^\/]+:8080\//

  /** What `scheme[^/]+:8080/` matches at `i`: the scheme, a non-empty host
      without '/', then ":8080/", ending just before `e`. */
  predicate BackendMatch(s: string, scheme: string, i: int, e: int) {
    0 <= i && i + |scheme| < e - 6 && e <= |s|
    && s[i..e] == scheme + s[i + |scheme|..e - 6] + ":8080/"
    && forall k :: i + |scheme| <= k < e - 6 ==> s[k] != '/'
  }

  /** End of the match of `scheme[^/]+:8080/` starting at `i`, if any.  The host
      run cannot contain '/', so it stops at the first '/' after the scheme, and
      that '/' must close ":8080/". */
  function BackendEnd(s: string, scheme: string, i: nat): Option<nat>
  {
    if !OccursAt(s, scheme, i) then None
    else
      var j := i + |scheme|;
      var q := FirstOf(s, j, IsSlash);
      if q < |s| && q >= j + 6 && s[q - 5..q] == ":8080" then Some(q + 1) else None
  }

  /** The scan agrees with the pattern, for schemes that end in '/'. */
  lemma BackendEndSound(s: string, scheme: string, i: nat)
    requires BackendEnd(s, scheme, i).Some?
    ensures BackendMatch(s, scheme, i, BackendEnd(s, scheme, i).value)
  {
    var j := i + |scheme|;
    var q := FirstOf(s, j, IsSlash);
    var e := q + 1;
    var h := q - 5;
    assert s[i..e] == s[i..j] + s[j..h] + s[h..q] + [s[q]];
    assert s[i..j] == scheme;
    assert s[h..q] + [s[q]] == ":8080/";
  }

  lemma BackendEndComplete(s: string, scheme: string, i: nat, e: int)
    requires BackendMatch(s, scheme, i, e)
    ensures BackendEnd(s, scheme, i) == Some(e)
  {
    var j := i + |scheme|;
    var h := e - 6;
    assert s[i..j] == s[i..e][..|scheme|] == scheme;
    assert OccursAt(s, scheme, i);
    forall k | h <= k < h + 6 ensures s[k] == ":8080/"[k - h] {
      assert s[k] == s[i..e][k - i];
    }
    var q := FirstOf(s, j, IsSlash);
    assert IsSlash(s[h + 5]);
    assert forall k :: j <= k < h + 5 ==> !IsSlash(s[k]);
    assert q == h + 5;
    assert s[q - 5..q] == ":8080" by {
      forall t | 0 <= t < 5 ensures s[q - 5..q][t] == ":8080"[t] {
        assert s[q - 5..q][t] == s[h + t];
      }
    }
  }

  /** Leftmost match of `scheme[^/]+:8080/` at or after `from`: (start, end). */
  function FindBackend(s: string, scheme: string, from: nat): (r: Option<(nat, nat)>)
    ensures r.Some? ==> from <= r.value.0 && BackendEnd(s, scheme, r.value.0) == Some(r.value.1)
    ensures r.Some? ==> forall k :: from <= k < r.value.0 ==> BackendEnd(s, scheme, k).None?
    ensures r.None? ==> forall k :: from <= k ==> BackendEnd(s, scheme, k).None?
    decreases |s| + 1 - from
  {
    if from > |s| then None
    else match BackendEnd(s, scheme, from)
      case Some(e) => Some((from, e))
      case None => FindBackend(s, scheme, from + 1)
  }

  /** `s.replace(/scheme[^\/]+:8080\//, '/')`: the first match becomes "/". */
  function ReplaceBackend(s: string, scheme: string): string {
    match FindBackend(s, scheme, 0)
    case None => s
    case Some((i, e)) => s[..i] + "/" + s[e..]
  }

  /** A URL that is exactly scheme, host, ":8080/" and a path becomes "/" + path. */
  lemma ReplaceBackendOfUrl(scheme: string, host: string, rest: string)
    requires scheme == "https://" || scheme == "http://"
    requires host != [] && forall k :: 0 <= k < |host| ==> host[k] != '/'
    ensures ReplaceBackend(scheme + host + ":8080/" + rest, scheme) == "/" + rest
  {
    var s := scheme + host + ":8080/" + rest;
    var e := |scheme| + |host| + 6;
    var h := |scheme| + |host|;
    assert s[0..e] == scheme + s[|scheme|..h] + ":8080/";
    assert BackendMatch(s, scheme, 0, e);
    BackendEndComplete(s, scheme, 0, e);
    assert s[e..] == rest;
  }

  /** Without ":8080/" in it a string has no match. */
  lemma ReplaceBackendNeedsPort(s: string, scheme: string)
    requires !Contains(s, ":8080/")
    ensures ReplaceBackend(s, scheme) == s
  {
    match FindBackend(s, scheme, 0)
    case None =>
    case Some((i, e)) =>
      BackendEndSound(s, scheme, i);
      assert OccursAt(s, ":8080/", e - 6) by {
        assert s[e - 6..e] == s[i..e][e - 6 - i..];
      }
      ContainsIff(s, ":8080/");
  }

  // ------------------------------------------------ url-converter.util.ts

  /** `UrlConverter.convertImageUrl(url, { fallbackUrl })`; `fallback == None` is an
      omitted option, which defaults to the URL itself. */
  function ConvertImageUrl(url: string, fallback: Option<string>): string {
    if url == "" then url
    else if StartsWith(url, Localhost) then ReplaceFirst(url, Localhost, "/")
    else if FindBackend(url, "https://", 0).Some? then ReplaceBackend(url, "https://")
    else if FindBackend(url, "http://", 0).Some? then ReplaceBackend(url, "http://")
    else if fallback.Some? then fallback.value
    else url
  }

  /** The four outcomes of `convertImageUrl`, each with the condition that selects it. */
  lemma ConvertImageUrlCases(url: string, fallback: Option<string>)
    ensures url == "" ==> ConvertImageUrl(url, fallback) == ""
    ensures url != "" && StartsWith(url, Localhost) ==>
              ConvertImageUrl(url, fallback) == "/" + url[|Localhost|..]
    ensures url != "" && !StartsWith(url, Localhost) && FindBackend(url, "https://", 0).Some? ==>
              var m := FindBackend(url, "https://", 0).value;
              ConvertImageUrl(url, fallback) == url[..m.0] + "/" + url[m.1..] && BackendMatch(url, "https://", m.0, m.1)
    ensures url != "" && !StartsWith(url, Localhost) && FindBackend(url, "https://", 0).None?
              && FindBackend(url, "http://", 0).Some? ==>
              var m := FindBackend(url, "http://", 0).value;
              ConvertImageUrl(url, fallback) == url[..m.0] + "/" + url[m.1..] && BackendMatch(url, "http://", m.0, m.1)
    ensures url != "" && !StartsWith(url, Localhost) && FindBackend(url, "https://", 0).None?
              && FindBackend(url, "http://", 0).None? ==>
              ConvertImageUrl(url, fallback) == if fallback.Some? then fallback.value else url
  {
    if url != "" && StartsWith(url, Localhost) {
      ReplaceFirstOfPrefix(url, Localhost, "/");
    } else if url != "" {
      var m := FindBackend(url, "https://", 0);
      if m.Some? { BackendEndSound(url, "https://", m.value.0); }
      var m2 := FindBackend(url, "http://", 0);
      if m2.Some? { BackendEndSound(url, "http://", m2.value.0); }
    }
  }

  /** `convertImageUrls`: element-wise, length preserved. */
  function ConvertImageUrls(urls: seq<string>, fallback: Option<string>): (r: seq<string>)
    ensures |r| == |urls|
    ensures forall i :: 0 <= i < |urls| ==> r[i] == ConvertImageUrl(urls[i], fallback)
  {
    seq(|urls|, i requires 0 <= i < |urls| => ConvertImageUrl(urls[i], fallback))
  }

  // ------------------------------------- /(<img[^>]+src=["'])([^"']+)(["'][^>]*>)/gi

  function AsciiLower(c: char): char {
    if 'A' <= c <= 'Z' then (c as int + 32) as char else c
  }

  /** Case-insensitive occurrence of the lower-case ASCII text `p` at `i` (the `i`
      flag folds only ASCII letters here, as no other character folds onto them). */
  predicate CiOccursAt(s: string, p: string, i: int) {
    0 <= i && i + |p| <= |s| && forall k :: 0 <= k < |p| ==> AsciiLower(s[i + k]) == p[k]
  }

  predicate IsQuote(c: char) { c == '"' || c == '\'' }
  predicate IsGt(c: char) { c == '>' }

  /** A `src=` followed by a quote at `a`. */
  predicate SrcAt(s: string, a: int) {
    CiOccursAt(s, "src=", a) && a + 5 <= |s| && IsQuote(s[a + 4])
  }

  /** After `src="` at `a`: the URL runs to the first quote (at least one
      character), then the tag closes at the first '>'; gives (quote, end). */
  function SrcRest(s: string, a: nat): Option<(nat, nat)>
    requires a + 5 <= |s|
  {
    var b := FirstOf(s, a + 5, IsQuote);
    if b == a + 5 || b == |s| then None
    else
      var c := FirstOf(s, b + 1, IsGt);
      if c == |s| then None else Some((b, c + 1))
  }

  /** Greedy `[^>]+`: the largest `src=` position in `[lo, a]` that completes the
      match, scanning downward. */
  function LastSrc(s: string, lo: nat, a: nat): (r: Option<(nat, nat, nat)>)
    ensures r.Some? ==> lo <= r.value.0 <= a && SrcAt(s, r.value.0)
                        && SrcRest(s, r.value.0) == Some((r.value.1, r.value.2))
    ensures r.Some? ==> forall k :: r.value.0 < k <= a ==> !(SrcAt(s, k) && SrcRest(s, k).Some?)
    ensures r.None? ==> forall k :: lo <= k <= a ==> !(SrcAt(s, k) && SrcRest(s, k).Some?)
    decreases a
  {
    if a < lo then None
    else if SrcAt(s, a) && SrcRest(s, a).Some? then
      var m := SrcRest(s, a).value;
      Some((a, m.0, m.1))
    else if a == lo then None
    else LastSrc(s, lo, a - 1)
  }

  /** The match at `p`, if the pattern matches there: (src position, closing
      quote, end).  The `[^>]+` run cannot cross the first '>' after "<img". */
  function ImgAt(s: string, p: nat): Option<(nat, nat, nat)> {
    if !CiOccursAt(s, "<img", p) then None
    else LastSrc(s, p + 5, FirstOf(s, p + 4, IsGt))
  }

  /** A match of the pattern: where `<img` starts, where `src=` starts, the
      closing quote and the end of the tag. */
  datatype ImgMatch = ImgMatch(start: nat, src: nat, quote: nat, end: nat)

  /** Leftmost match at or after `from`. */
  function FindImg(s: string, from: nat): (r: Option<ImgMatch>)
    ensures r.Some? ==> from <= r.value.start && ImgAt(s, r.value.start) == Some((r.value.src, r.value.quote, r.value.end))
    ensures r.Some? ==> forall k :: from <= k < r.value.start ==> ImgAt(s, k).None?
    ensures r.None? ==> forall k :: from <= k ==> ImgAt(s, k).None?
    decreases |s| + 1 - from
  {
    if from > |s| then None
    else match ImgAt(s, from)
      case Some(m) => Some(ImgMatch(from, m.0, m.1, m.2))
      case None => FindImg(s, from + 1)
  }

  /** A match lies inside the string and its URL group is non-empty and quote-free. */
  lemma ImgMatchShape(s: string, from: nat)
    requires FindImg(s, from).Some?
    ensures var m := FindImg(s, from).value;
      m.start + 5 <= m.src + 5 < m.quote < m.end <= |s| && m.start < m.end
      && CiOccursAt(s, "<img", m.start) && CiOccursAt(s, "src=", m.src) && IsQuote(s[m.src + 4]) && IsQuote(s[m.quote])
      && (forall k :: m.src + 5 <= k < m.quote ==> !IsQuote(s[k]))
      && s[m.end - 1] == '>'
  {
  }

  /** The global replace: every match's URL group is passed through `conv`; the
      prefix `<img … src="` and the suffix `" … >` are kept, and the scan
      resumes after the match. */
  function RewriteImgSrc(s: string, conv: string -> string): string
    decreases |s|
  {
    var m := FindImg(s, 0);
    if m.None? then s
    else
      ImgMatchShape(s, 0);
      var a, b, e := m.value.src, m.value.quote, m.value.end;
      s[..a + 5] + conv(s[a + 5..b]) + s[b..e] + RewriteImgSrc(s[e..], conv)
  }

  /** One match of the global replace, unfolded. */
  lemma RewriteStep(s: string, conv: string -> string)
    requires FindImg(s, 0).Some?
    ensures var m := FindImg(s, 0).value;
      m.src + 5 <= m.quote <= m.end <= |s|
      && RewriteImgSrc(s, conv) == s[..m.src + 5] + conv(s[m.src + 5..m.quote]) + s[m.quote..m.end] + RewriteImgSrc(s[m.end..], conv)
  {
    var m := FindImg(s, 0).value;
    ImgMatchShape(s, 0);
    var a, b, e := m.src, m.quote, m.end;
    assert RewriteImgSrc(s, conv) == s[..a + 5] + conv(s[a + 5..b]) + s[b..e] + RewriteImgSrc(s[e..], conv);
  }

  function Unchanged(u: string): string { u }

  /** Only the URL groups change: with the identity conversion the content comes back. */
  lemma {:induction false} RewriteOnlySrc(s: string)
    ensures RewriteImgSrc(s, Unchanged) == s
    decreases |s|
  {
    var m := FindImg(s, 0);
    if m.Some? {
      var a, b, e := m.value.src, m.value.quote, m.value.end;
      RewriteStep(s, Unchanged);
      RewriteOnlySrc(s[e..]);
      var url := s[a + 5..b];
      assert Unchanged(url) == url;
      SliceConcat(s, a + 5, b, e);
    }
  }

  /** Text without any `<img` (in any letter case) is left as it is. */
  lemma NoImgUnchanged(s: string, conv: string -> string)
    requires forall p :: !CiOccursAt(s, "<img", p)
    ensures RewriteImgSrc(s, conv) == s
  {
    if FindImg(s, 0).Some? {
      ImgMatchShape(s, 0);
    }
  }

  /** `convertContentImageUrls`: empty content is returned as is; otherwise every
      image source goes through `convertImageUrl` with default options. */
  function ConvertContentImageUrls(html: string): string {
    if html == "" then html else RewriteImgSrc(html, u => ConvertImageUrl(u, None))
  }
}
