/**
 * The URL handling of `YandexReviewService`: the URL a redirect history leads to, and the
 * reviews-page URL the page is fetched from (`ensureReviewsUrl`).
 */
module ServiceUrl {
  import opened Wrappers
  import opened Text
  import opened Php

  /**
   * `resolveUrl`: the last entry of the redirect history, or the URL itself when the header is
   * empty or missing (read as '').
   */
  function ResolveUrl(url: string, history: string): (r: string)
    ensures !Truthy(Str(history)) ==> r == url
  {
    if Truthy(Str(history)) then Last(Explode(history, ", ")) else url
  }

  /**
   * Where the last piece of `s[from..]` starts: after the last separator found from `from` on,
   * or at `from` when there is none. No separator starts at or after it, and unless it is `from`
   * a separator ends right before it.
   */
  function LastStart(s: string, sep: string, from: nat): (p: nat)
    requires |sep| > 0 && from <= |s|
    ensures from <= p <= |s|
    ensures p == from || (from + |sep| <= p && PrefixAt(s, p - |sep|, sep))
    ensures forall q :: p <= q ==> !PrefixAt(s, q, sep)
    decreases |s| - from
  {
    match IndexOf(s, sep, from)
    case None => from
    case Some(i) => LastStart(s, sep, i + |sep|)
  }

  /** The last piece `explode` yields is the tail of `s` from `LastStart` on. */
  lemma {:induction false} LastOfExplode(s: string, sep: string, from: nat)
    requires |sep| > 0 && from <= |s|
    ensures Last(ExplodeFrom(s, sep, from)) == s[LastStart(s, sep, from)..]
    decreases |s| - from
  {
    match IndexOf(s, sep, from)
    case None =>
    case Some(i) =>
      var tail := ExplodeFrom(s, sep, i + |sep|);
      assert ExplodeFrom(s, sep, from) == [s[from..i]] + tail;
      LastOfExplode(s, sep, i + |sep|);
  }

  /** A tail of `s` with no separator starting in `s` at or after its start holds none. */
  lemma TailWithoutSeparator(s: string, p: nat, sep: string)
    requires p <= |s|
    requires forall q :: p <= q ==> !PrefixAt(s, q, sep)
    ensures !Contains(s[p..], sep)
  {
    forall q: nat | q <= |s[p..]| && PrefixAt(s[p..], q, sep)
      ensures false
    {
      assert s[p..][q..q + |sep|] == s[p + q..p + q + |sep|];
      assert PrefixAt(s, p + q, sep);
    }
  }

  /**
   * The last piece `explode` yields is the last entry of `s`: a tail of `s` holding no separator,
   * which is either all of `s` or comes right after a separator.
   */
  lemma ExplodeLast(s: string, sep: string)
    requires |sep| > 0
    ensures EndsWith(s, Last(Explode(s, sep)))
    ensures !Contains(Last(Explode(s, sep)), sep)
    ensures |Last(Explode(s, sep))| == |s| ||
      (|Last(Explode(s, sep))| + |sep| <= |s| && PrefixAt(s, |s| - |Last(Explode(s, sep))| - |sep|, sep))
  {
    var p := LastStart(s, sep, 0);
    LastOfExplode(s, sep, 0);
    TailWithoutSeparator(s, p, sep);
  }

  /** With a redirect history, the URL reached is its last entry, as `ExplodeLast` describes it. */
  lemma ResolvedIsLastRedirect(url: string, history: string)
    requires Truthy(Str(history))
    ensures EndsWith(history, ResolveUrl(url, history))
    ensures !Contains(ResolveUrl(url, history), ", ")
    ensures |ResolveUrl(url, history)| == |history| ||
      (|ResolveUrl(url, history)| + 2 <= |history| &&
       PrefixAt(history, |history| - |ResolveUrl(url, history)| - 2, ", "))
  {
    ExplodeLast(history, ", ");
  }

  /** `s` with its leading `c` characters dropped. */
  function SkipChar(s: string, c: char): (r: string)
    ensures |r| <= |s| && r == s[|s| - |r|..]
    ensures r == [] || r[0] != c
    ensures forall i :: 0 <= i < |s| - |r| ==> s[i] == c
  {
    if s != [] && s[0] == c then SkipChar(s[1..], c) else s
  }

  /** The text of `s` before its first `c`. */
  function UntilChar(s: string, c: char): (r: string)
    ensures |r| <= |s| && r == s[..|r|]
    ensures c !in r
    ensures |r| < |s| ==> s[|r|] == c
  {
    if s == [] || s[0] == c then [] else [s[0]] + UntilChar(s[1..], c)
  }

  /**
   * The first `strtok($s, $c)`: the text between the leading `c` characters and the next `c`,
   * or false (`None`) when `s` holds nothing but `c` characters.
   */
  function Strtok(s: string, c: char): (r: Option<string>)
    ensures r.Some? ==> r.value != [] && c !in r.value
    ensures r.None? <==> forall i :: 0 <= i < |s| ==> s[i] == c
    ensures s != [] && s[0] != c ==> r == Some(UntilChar(s, c))
  {
    var rest := SkipChar(s, c);
    if rest == [] then None
    else
      assert rest[0] != c;
      Some(UntilChar(rest, c))
  }

  /**
   * `ensureReviewsUrl`: the URL up to its first `?` (false, read as '', when there is nothing
   * else), without trailing slashes, ending in `/reviews/`. A `#` fragment is kept.
   */
  function EnsureReviewsUrl(url: string): string {
    var clean := RTrimChar(Strtok(url, '?').GetOr(""), '/');
    if !EndsWith(clean, "/reviews") then clean + "/reviews/" else clean + "/"
  }

  /** A text without `c` is its own first token. */
  lemma StrtokWhole(s: string, c: char)
    requires s != [] && c !in s
    ensures Strtok(s, c) == Some(s)
  {
    assert s[0] in s;
    assert s[..|s|] == s;
  }

  /** The token, trimmed, holds no `?`. */
  lemma CleanNoQuery(url: string)
    ensures '?' !in RTrimChar(Strtok(url, '?').GetOr(""), '/')
  {
    var t := Strtok(url, '?').GetOr("");
    var clean := RTrimChar(t, '/');
    assert '?' !in t;
    forall k | 0 <= k < |clean| ensures clean[k] != '?' {
      assert clean[k] == t[k];
      assert t[k] in t;
    }
  }

  /**
   * The reviews URL is the cleaned URL followed by `/reviews/` or `/`; it ends in `/reviews/`
   * and holds no `?`.
   */
  lemma EnsureReviewsUrlParts(url: string)
    ensures var clean := RTrimChar(Strtok(url, '?').GetOr(""), '/');
      && '?' !in clean
      && '?' !in EnsureReviewsUrl(url)
      && EndsWith(EnsureReviewsUrl(url), "/reviews/")
      && (EnsureReviewsUrl(url) == clean + "/reviews/" || EnsureReviewsUrl(url) == clean + "/")
  {
    CleanNoQuery(url);
    var clean := RTrimChar(Strtok(url, '?').GetOr(""), '/');
    assert !EndsWith(clean, "/reviews") ==> EndsWith(clean + "/reviews/", "/reviews/");
    assert EndsWith(clean, "/reviews") ==> EndsWith(clean + "/", "/reviews/");
    assert '?' !in "/reviews/";
  }

  /**
   * For a URL that does not start with `?`, the reviews URL starts with the URL's text before
   * its first `?`, trailing slashes stripped.
   */
  lemma EnsureReviewsUrlPrefix(url: string)
    requires url != [] && url[0] != '?'
    ensures var clean := RTrimChar(UntilChar(url, '?'), '/');
      |clean| <= |EnsureReviewsUrl(url)| && EnsureReviewsUrl(url)[..|clean|] == clean
  {
    EnsureReviewsUrlParts(url);
    assert Strtok(url, '?') == Some(UntilChar(url, '?'));
    var clean := RTrimChar(UntilChar(url, '?'), '/');
    var r := EnsureReviewsUrl(url);
    if r == clean + "/" {
      assert r[..|clean|] == clean;
    } else {
      assert r[..|clean|] == clean;
    }
  }

  /** A reviews URL without `?` is its own normal form. */
  lemma ReviewsUrlFixed(r: string)
    requires '?' !in r && EndsWith(r, "/reviews/")
    ensures EnsureReviewsUrl(r) == r
  {
    StrtokWhole(r, '?');
    var body := r[..|r| - 1];
    assert r == body + "/";
    assert body[|body| - 8..] == r[|r| - 9..|r| - 1];
    assert EndsWith(body, "/reviews");
    assert RTrimChar(r, '/') == RTrimChar(body, '/');
    assert RTrimChar(r, '/') == body;
  }

  /** Normalising a reviews URL again changes nothing. */
  lemma EnsureReviewsUrlIdempotent(url: string)
    ensures EnsureReviewsUrl(EnsureReviewsUrl(url)) == EnsureReviewsUrl(url)
  {
    EnsureReviewsUrlParts(url);
    ReviewsUrlFixed(EnsureReviewsUrl(url));
  }

  /**
   * A URL without `?` and without a trailing slash or `/reviews` gains `/reviews/` and is
   * otherwise kept whole, `#` fragment included.
   */
  lemma EnsureReviewsUrlKeepsRest(url: string)
    requires url != [] && '?' !in url && url[|url| - 1] != '/' && !EndsWith(url, "/reviews")
    ensures EnsureReviewsUrl(url) == url + "/reviews/"
  {
    StrtokWhole(url, '?');
  }

  /** The fragment survives: only `?` cuts the URL. */
  lemma EnsureReviewsUrlKeepsFragment()
    ensures EnsureReviewsUrl("m/#top") == "m/#top" + "/reviews/"
  {
    EnsureReviewsUrlKeepsRest("m/#top");
  }

}
