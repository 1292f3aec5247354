/**
 * Finding a Yandex organisation id in a Maps URL, as the sync command and the review service
 * both do: first the digit run after `/org/<slug>/` (PCRE `/\/org\/[^\/]+\/(\d+)/`), otherwise
 * the first run of ten or more digits (`/(\d{10,})/`). Each pattern is written out as the
 * leftmost-match search PCRE performs.
 */
module OrgId {
  import opened Wrappers
  import opened Text

  /** The index of the first '/' at or after `p`, or `|s|`. */
  function SlashFrom(s: string, p: nat): (e: nat)
    requires p <= |s|
    ensures p <= e <= |s|
    ensures forall i :: p <= i < e ==> s[i] != '/'
    ensures e == |s| || s[e] == '/'
    decreases |s| - p
  {
    if p < |s| && s[p] != '/' then SlashFrom(s, p + 1) else p
  }

  /**
   * `/org/<slug>/<digits>` begins at `p`: the slug `s[p+5..e]` is non-empty and slash-free,
   * `s[e]` is a slash and the digits `s[e+1..d]` form a maximal non-empty run.
   */
  ghost predicate IsOrgMatch(s: string, p: nat, e: nat, d: nat) {
    && PrefixAt(s, p, "/org/")
    && p + 5 < e && e + 1 < d <= |s|
    && (forall i :: p + 5 <= i < e ==> s[i] != '/')
    && s[e] == '/'
    && (forall i :: e + 1 <= i < d ==> IsDigit(s[i]))
    && (d == |s| || !IsDigit(s[d]))
  }

  /** The capture of the org pattern for a match attempt starting at `p`. */
  function OrgMatchAt(s: string, p: nat): (r: Option<string>)
    requires p <= |s|
  {
    if !PrefixAt(s, p, "/org/") then None
    else
      var e := SlashFrom(s, p + 5);
      if e == p + 5 || e == |s| then None
      else
        var d := DigitRunEnd(s, e + 1);
        if d == e + 1 then None else Some(s[e + 1..d])
  }

  /** A match attempt at `p` succeeds exactly when the org shape is there, and captures its digits. */
  lemma OrgMatchAtSound(s: string, p: nat)
    requires p <= |s|
    ensures OrgMatchAt(s, p).Some? ==>
      exists e: nat, d: nat :: IsOrgMatch(s, p, e, d) && OrgMatchAt(s, p).value == s[e + 1..d]
  {
    if OrgMatchAt(s, p).Some? {
      var e := SlashFrom(s, p + 5);
      var d := DigitRunEnd(s, e + 1);
      assert IsOrgMatch(s, p, e, d);
    }
  }

  lemma OrgMatchAtComplete(s: string, p: nat, e: nat, d: nat)
    requires IsOrgMatch(s, p, e, d)
    ensures OrgMatchAt(s, p) == Some(s[e + 1..d])
  {
    var e' := SlashFrom(s, p + 5);
    assert e' == e;
    var d' := DigitRunEnd(s, e + 1);
    assert d' == d;
  }

  /** The position of the leftmost successful match attempt at or after `p`. */
  function OrgMatchFrom(s: string, p: nat): (r: Option<nat>)
    requires p <= |s|
    ensures r.Some? ==> p <= r.value <= |s| && OrgMatchAt(s, r.value).Some?
    ensures r.Some? ==> forall q :: p <= q < r.value ==> OrgMatchAt(s, q).None?
    ensures r.None? ==> forall q :: p <= q <= |s| ==> OrgMatchAt(s, q).None?
    decreases |s| - p
  {
    if OrgMatchAt(s, p).Some? then Some(p)
    else if p == |s| then None
    else OrgMatchFrom(s, p + 1)
  }

  /** `preg_match('/\/org\/[^\/]+\/(\d+)/', $s, $m)` and `$m[1]`. */
  function OrgPattern(s: string): (r: Option<string>)
    ensures r.Some? ==> exists p :: 0 <= p <= |s| && OrgMatchAt(s, p) == r
    ensures r.None? <==> forall p :: 0 <= p <= |s| ==> OrgMatchAt(s, p).None?
  {
    match OrgMatchFrom(s, 0)
    case None => None
    case Some(p) => OrgMatchAt(s, p)
  }

  /** Ten digits start at `q`. */
  predicate TenDigitsAt(s: string, q: nat) {
    q + 10 <= |s| && AllDigits(s[q..q + 10])
  }

  lemma TenDigitsAtRun(s: string, q: nat)
    requires q <= |s|
    ensures TenDigitsAt(s, q) <==> DigitRunEnd(s, q) - q >= 10
  {
    if TenDigitsAt(s, q) {
      forall i | q <= i < q + 10 ensures IsDigit(s[i]) {
        assert s[q..q + 10][i - q] == s[i];
      }
    }
    if DigitRunEnd(s, q) - q >= 10 {
      var w := s[q..q + 10];
      forall i | 0 <= i < 10 ensures IsDigit(w[i]) {
        assert w[i] == s[q + i];
      }
    }
  }

  /** The leftmost position at or after `p` where ten digits start. */
  function LongRunFrom(s: string, p: nat): (r: Option<nat>)
    requires p <= |s|
    ensures r.Some? ==> p <= r.value && TenDigitsAt(s, r.value)
    ensures r.Some? ==> forall q :: p <= q < r.value ==> !TenDigitsAt(s, q)
    ensures r.None? ==> forall q :: p <= q <= |s| ==> !TenDigitsAt(s, q)
    decreases |s| - p
  {
    if TenDigitsAt(s, p) then Some(p)
    else if p == |s| then None
    else LongRunFrom(s, p + 1)
  }

  /** `preg_match('/(\d{10,})/', $s, $m)` and `$m[1]`: the greedy run at the leftmost start. */
  function LongRun(s: string): (r: Option<string>)
    ensures r.Some? ==> |r.value| >= 10 && AllDigits(r.value)
    ensures r.None? <==> forall q :: 0 <= q <= |s| ==> !TenDigitsAt(s, q)
  {
    match LongRunFrom(s, 0)
    case None => None
    case Some(p) =>
      TenDigitsAtRun(s, p);
      Some(s[p..DigitRunEnd(s, p)])
  }

  /**
   * The run `LongRun` captures is a whole run of digits, the first one in the string that is
   * at least ten long.
   */
  lemma {:induction false} LongRunIsFirstLongRun(s: string)
    requires LongRun(s).Some?
    ensures exists p, d :: && 0 <= p < d <= |s| && LongRun(s).value == s[p..d]
                           && (p == 0 || !IsDigit(s[p - 1]))
                           && (d == |s| || !IsDigit(s[d]))
                           && (forall q :: 0 <= q < p ==> !TenDigitsAt(s, q))
  {
    var p := LongRunFrom(s, 0).value;
    var d := DigitRunEnd(s, p);
    TenDigitsAtRun(s, p);
    if p > 0 {
      TenDigitsAtRun(s, p - 1);
    }
  }

  /**
   * The organisation id of a URL: the org pattern's capture, otherwise the first long digit run,
   * otherwise none.
   */
  function ExtractOrgId(url: string): (r: Option<string>)
    ensures r.Some? ==> |r.value| > 0 && AllDigits(r.value)
    ensures OrgPattern(url).Some? ==> r == OrgPattern(url)
    ensures OrgPattern(url).None? ==> r == LongRun(url)
  {
    match OrgPattern(url)
    case Some(c) =>
      var p :| 0 <= p <= |url| && OrgMatchAt(url, p) == Some(c);
      OrgMatchAtSound(url, p);
      Some(c)
    case None => LongRun(url)
  }

  /** The org pattern matches exactly when the org shape occurs somewhere. */
  lemma OrgPatternMatches(url: string)
    ensures OrgPattern(url).Some? <==> exists p: nat, e: nat, d: nat :: IsOrgMatch(url, p, e, d)
  {
    if OrgPattern(url).Some? {
      var p :| 0 <= p <= |url| && OrgMatchAt(url, p) == OrgPattern(url);
      OrgMatchAtSound(url, p);
    }
    if exists p: nat, e: nat, d: nat :: IsOrgMatch(url, p, e, d) {
      var p: nat, e: nat, d: nat :| IsOrgMatch(url, p, e, d);
      OrgMatchAtComplete(url, p, e, d);
    }
  }

  /** No id is found exactly when neither pattern occurs anywhere in the URL. */
  lemma ExtractOrgIdNone(url: string)
    ensures ExtractOrgId(url).None? <==>
      (forall p: nat, e: nat, d: nat :: !IsOrgMatch(url, p, e, d)) && (forall q :: 0 <= q <= |url| ==> !TenDigitsAt(url, q))
  {
    OrgPatternMatches(url);
  }

  /** `!$orgId`: no id, or the id "0", which PHP reads as false. */
  predicate NoOrg(org: Option<string>) {
    org.None? || org.value == "" || org.value == "0"
  }
}
