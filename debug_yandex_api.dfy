/**
 * `debug:yandex-api {url}`: a diagnostic command that probes Yandex's `fetchReviews` endpoint.
 * It takes the organisation id and the Maps mirror from the URL, fetches the canonical reviews
 * page of that mirror for its session tokens, searches the page's embedded config for the API's
 * parameters, and then calls the endpoint under up to six strategies, some of them gated on the
 * answers of earlier ones.
 *
 * The HTTP client, the page's script blocks, the token regexes, the strict JSON decoder and the
 * endpoint's decoded answers are parameters.
 */
module DebugApi {
  import opened Wrappers
  import opened Text
  import opened Php
  import opened OrgId
  import ReviewService
  import DebugScrape

  // ---------------------------------------------------------------------------------------------
  // The mirror domain: `/https?:\/\/(yandex\.\w+)\//`, defaulting to "yandex.ru"

  /** Where the host starts when `http://` or `https://` starts at `p`. */
  function HostStart(s: string, p: nat): (h: Option<nat>)
    ensures h.Some? ==> (h.value == p + 7 || h.value == p + 8) && h.value <= |s|
  {
    if p + 7 <= |s| && s[p] == 'h' && s[p + 1] == 't' && s[p + 2] == 't' && s[p + 3] == 'p' then
      if p + 8 <= |s| && s[p + 4] == 's' && s[p + 5] == ':' && s[p + 6] == '/' && s[p + 7] == '/' then Some(p + 8)
      else if s[p + 4] == ':' && s[p + 5] == '/' && s[p + 6] == '/' then Some(p + 7)
      else None
    else None
  }

  /** `yandex.` starts at `h`. */
  predicate YandexDotAt(s: string, h: nat) {
    && h + 7 <= |s|
    && s[h] == 'y' && s[h + 1] == 'a' && s[h + 2] == 'n' && s[h + 3] == 'd' && s[h + 4] == 'e'
    && s[h + 5] == 'x' && s[h + 6] == '.'
  }

  /**
   * The domain pattern matches at `p` with the capture `s[h..e]`: the scheme, `yandex.`, one or
   * more word characters and a '/'.
   */
  ghost predicate DomainMatch(s: string, p: nat, h: nat, e: nat) {
    && HostStart(s, p) == Some(h)
    && YandexDotAt(s, h)
    && h + 7 < e < |s|
    && (forall j :: h + 7 <= j < e ==> IsWordChar(s[j]))
    && s[e] == '/'
  }

  /** The capture of a match attempt at `p`: `\w+` can only give back its whole run before '/'. */
  function DomainAt(s: string, p: nat): Option<string> {
    match HostStart(s, p)
    case None => None
    case Some(h) =>
      if !YandexDotAt(s, h) then None
      else
        var e := WordRunEnd(s, h + 7);
        if h + 7 < e < |s| && s[e] == '/' then Some(s[h..e]) else None
  }

  /** A match attempt at `p` succeeds exactly when the pattern is there, and captures its host. */
  lemma DomainAtSound(s: string, p: nat)
    ensures DomainAt(s, p).Some? ==> exists h: nat, e: nat :: DomainMatch(s, p, h, e) && DomainAt(s, p) == Some(s[h..e])
  {
    if DomainAt(s, p).Some? {
      var h := HostStart(s, p).value;
      var e := WordRunEnd(s, h + 7);
      assert DomainMatch(s, p, h, e);
    }
  }

  lemma DomainAtComplete(s: string, p: nat, h: nat, e: nat)
    requires DomainMatch(s, p, h, e)
    ensures DomainAt(s, p) == Some(s[h..e])
  {
    assert !IsWordChar(s[e]);
  }

  /** The leftmost successful match attempt at or after `p`. */
  function DomainFrom(s: string, p: nat): (r: Option<nat>)
    requires p <= |s|
    ensures r.Some? ==> p <= r.value <= |s| && DomainAt(s, r.value).Some?
    ensures r.Some? ==> forall q :: p <= q < r.value ==> DomainAt(s, q).None?
    ensures r.None? ==> forall q :: p <= q <= |s| ==> DomainAt(s, q).None?
    decreases |s| - p
  {
    if DomainAt(s, p).Some? then Some(p)
    else if p == |s| then None
    else DomainFrom(s, p + 1)
  }

  /** A host the domain pattern can capture: `yandex.` and one or more word characters. */
  predicate IsYandexHost(d: string) {
    |d| > 7 && YandexDotAt(d, 0) && forall j :: 7 <= j < |d| ==> IsWordChar(d[j])
  }

  /** The domain of the URL: the capture of the leftmost match, or "yandex.ru". */
  function Domain(url: string): (d: string)
    ensures IsYandexHost(d)
  {
    match DomainFrom(url, 0)
    case None => "yandex.ru"
    case Some(p) =>
      var h := HostStart(url, p).value;
      var e := WordRunEnd(url, h + 7);
      assert DomainAt(url, p) == Some(url[h..e]);
      url[h..e]
  }

  /**
   * The domain is the host of the leftmost match of the pattern, and "yandex.ru" when the pattern
   * matches nowhere.
   */
  lemma DomainIsLeftmostMatch(url: string, p: nat, h: nat, e: nat)
    ensures (forall p': nat, h': nat, e': nat :: !DomainMatch(url, p', h', e')) ==> Domain(url) == "yandex.ru"
    ensures DomainMatch(url, p, h, e) && (forall p': nat, h': nat, e': nat :: p' < p ==> !DomainMatch(url, p', h', e')) ==>
      Domain(url) == url[h..e]
  {
    match DomainFrom(url, 0)
    case None =>
      if DomainMatch(url, p, h, e) {
        DomainAtComplete(url, p, h, e);
      }
    case Some(q) =>
      DomainAtSound(url, q);
      if DomainMatch(url, p, h, e) && (forall p': nat, h': nat, e': nat :: p' < p ==> !DomainMatch(url, p', h', e')) {
        DomainAtComplete(url, p, h, e);
        assert q == p;
      }
  }

  /** No match attempt succeeds at or after `from` when no 'h' follows. */
  lemma {:induction false} NoDomainWithoutH(s: string, from: nat)
    requires from <= |s|
    requires forall q :: from <= q < |s| ==> s[q] != 'h'
    ensures DomainFrom(s, from).None?
    decreases |s| - from
  {
    if from < |s| {
      NoDomainWithoutH(s, from + 1);
    }
  }

  /** A `www.` host is not captured: the URL falls back to the default mirror. */
  lemma WwwFallsBack()
    ensures Domain("https://www.yandex.ru/") == "yandex.ru"
  {
    var s := "https://www.yandex.ru/";
    assert HostStart(s, 0) == Some(8);
    assert !YandexDotAt(s, 8);
    NoDomainWithoutH(s, 1);
  }

  /** A mirror with a dotted top-level domain is not captured: `\w+` stops at the second dot. */
  lemma DottedMirrorFallsBack()
    ensures Domain("https://yandex.com.tr/") == "yandex.ru"
  {
    var s := "https://yandex.com.tr/";
    assert HostStart(s, 0) == Some(8);
    var e := WordRunEnd(s, 15);
    assert !IsWordChar(s[18]);
    assert e <= 18;
    assert s[e] != '/';
    NoDomainWithoutH(s, 1);
  }

  // ---------------------------------------------------------------------------------------------
  // The canonical URLs

  /** `https://{domain}/maps/org/test/{orgId}/reviews/`; a null id interpolates as "". */
  function ReviewsUrl(domain: string, orgId: Option<string>): string {
    "https://" + domain + "/maps/org/test/" + orgId.GetOr("") + "/reviews/"
  }

  /** `https://{domain}/maps/api/business/fetchReviews`. */
  function ApiUrl(domain: string): string {
    "https://" + domain + "/maps/api/business/fetchReviews"
  }

  /** The domain of an `https` URL on a capturable host followed by a path is that host. */
  lemma CanonicalDomain(d: string, rest: string)
    requires IsYandexHost(d) && |rest| > 0 && rest[0] == '/'
    ensures Domain("https://" + d + rest) == d
  {
    var s := "https://" + d + rest;
    assert HostStart(s, 0) == Some(8);
    assert YandexDotAt(s, 8) by {
      assert forall j :: 0 <= j < 7 ==> s[8 + j] == d[j];
    }
    var e := WordRunEnd(s, 15);
    assert forall j :: 15 <= j < 8 + |d| ==> IsWordChar(s[j]) by {
      forall j | 15 <= j < 8 + |d| ensures IsWordChar(s[j]) {
        assert s[j] == d[j - 8];
      }
    }
    assert s[8 + |d|] == '/';
    assert s[8..8 + |d|] == d;
    assert DomainAt(s, 0) == Some(d);
  }

  /**
   * The canonical URLs round-trip: the command built on the reviews page or the API URL of the
   * domain it found would find the same domain again.
   */
  lemma CanonicalUrlsKeepDomain(url: string, orgId: Option<string>)
    ensures Domain(ReviewsUrl(Domain(url), orgId)) == Domain(url)
    ensures Domain(ApiUrl(Domain(url))) == Domain(url)
  {
    var d := Domain(url);
    var rest := "/maps/org/test/" + orgId.GetOr("") + "/reviews/";
    assert ReviewsUrl(d, orgId) == "https://" + d + rest;
    CanonicalDomain(d, rest);
    assert ApiUrl(d) == "https://" + d + "/maps/api/business/fetchReviews";
    CanonicalDomain(d, "/maps/api/business/fetchReviews");
  }

  /** No match attempt of the org pattern succeeds before `P` when no '/' before `P` is followed by 'o'. */
  lemma NoOrgBefore(s: string, P: nat)
    requires P < |s|
    requires forall q :: 0 <= q < P && s[q] == '/' ==> s[q + 1] != 'o'
    ensures forall q :: 0 <= q < P ==> OrgMatchAt(s, q).None?
  {
    forall q | 0 <= q < P ensures !PrefixAt(s, q, "/org/") {
      if q + 5 <= |s| {
        assert s[q..q + 5][0] == s[q] && s[q..q + 5][1] == s[q + 1];
      }
    }
  }

  /** The first successful match attempt gives the org pattern's capture. */
  lemma FirstOrgMatch(s: string, P: nat, id: string)
    requires P <= |s| && OrgMatchAt(s, P) == Some(id)
    requires forall q :: 0 <= q < P ==> OrgMatchAt(s, q).None?
    ensures OrgPattern(s) == Some(id)
  {
    assert OrgMatchFrom(s, 0) == Some(P);
  }

  /** `/org/test/{id}/` at `P` is a match of the org pattern capturing `id`. */
  lemma OrgTestAt(s: string, P: nat, id: string)
    requires |id| > 0 && AllDigits(id) && P + 11 + |id| <= |s|
    requires s[P..P + 10] == "/org/test/" && s[P + 10..P + 10 + |id|] == id && s[P + 10 + |id|] == '/'
    ensures OrgMatchAt(s, P) == Some(id)
  {
    assert PrefixAt(s, P, "/org/") by {
      assert s[P..P + 5] == s[P..P + 10][..5];
    }
    var w := s[P..P + 10];
    assert s[P + 5] == w[5] && s[P + 6] == w[6] && s[P + 7] == w[7] && s[P + 8] == w[8] && s[P + 9] == w[9];
    assert s[P + 5] == 't' && s[P + 6] == 'e' && s[P + 7] == 's' && s[P + 8] == 't' && s[P + 9] == '/';
    assert SlashFrom(s, P + 5) == P + 9;
    assert forall j :: 0 <= j < |id| ==> s[P + 10 + j] == id[j];
    assert DigitRunEnd(s, P + 10) == P + 10 + |id| by {
      assert !IsDigit(s[P + 10 + |id|]);
    }
  }

  /** In `https://{d}/maps` no '/' is followed by 'o'. */
  lemma HostPathHasNoOrg(d: string)
    requires IsYandexHost(d)
    ensures var pre := "https://" + d + "/maps";
      forall q :: 0 <= q < |pre| && pre[q] == '/' ==> q + 1 < |pre| && pre[q + 1] != 'o'
  {
    var pre := "https://" + d + "/maps";
    var L := 8 + |d|;
    assert forall q :: 0 <= q < 8 ==> pre[q] == "https://"[q];
    assert forall q :: 8 <= q < L ==> pre[q] == d[q - 8];
    assert forall q :: L <= q < L + 5 ==> pre[q] == "/maps"[q - L];
    assert pre[8] == 'y';
  }

  /** Where `/org/test/{id}/` sits in a URL that continues `pre` with it. */
  lemma OrgTestTail(pre: string, id: string)
    ensures var s := pre + ("/org/test/" + id + "/reviews/");
      var P := |pre|;
      && P + 11 + |id| <= |s|
      && s[P..P + 10] == "/org/test/" && s[P + 10..P + 10 + |id|] == id && s[P + 10 + |id|] == '/'
      && forall q :: 0 <= q < P ==> s[q] == pre[q]
  {
    var tail := "/org/test/" + id + "/reviews/";
    var s := pre + tail;
    var P := |pre|;
    assert s[P..P + 10] == tail[..10] == "/org/test/";
    assert s[P + 10..P + 10 + |id|] == tail[10..10 + |id|] == id;
    assert s[P + 10 + |id|] == tail[10 + |id|] == '/';
  }

  /**
   * The canonical reviews URL hands its id back: the org pattern, leftmost match first, finds the
   * numeric id placed after `/org/test/`.
   */
  lemma ReviewsUrlCarriesId(d: string, id: string)
    requires IsYandexHost(d) && |id| > 0 && AllDigits(id)
    ensures OrgPattern(ReviewsUrl(d, Some(id))) == Some(id)
  {
    var pre := "https://" + d + "/maps";
    var s := pre + ("/org/test/" + id + "/reviews/");
    assert s == ReviewsUrl(d, Some(id));
    OrgTestTail(pre, id);
    OrgTestAt(s, |pre|, id);
    HostPathHasNoOrg(d);
    NoOrgBefore(s, |pre|);
    FirstOrgMatch(s, |pre|, id);
  }

  // ---------------------------------------------------------------------------------------------
  // `searchForKey`

  /** One `FOUND [path] = value` line. */
  datatype Hit = Hit(path: string, value: Value)

  /**
   * What `searchForKey($data, $target, $path, $depth)` prints: nothing past depth 4; otherwise,
   * entry by entry, the entry when its key is the target and its value is not an array, then
   * what its array value yields one level down, as long as the depth is below 4.
   */
  function Hits(es: seq<Entry>, target: string, path: string, depth: nat): (r: seq<Hit>)
    ensures depth > 4 ==> r == []
    decreases es, 1
  {
    if depth > 4 then [] else HitsPrefix(es, target, path, depth, |es|)
  }

  /** The hits of the first `n` entries. */
  function HitsPrefix(es: seq<Entry>, target: string, path: string, depth: nat, n: nat): (r: seq<Hit>)
    requires n <= |es|
    decreases es, 0, n
  {
    if n == 0 then [] else HitsPrefix(es, target, path, depth, n - 1) + EntryHits(es[n - 1], target, path, depth)
  }

  /** The hits of one iteration of the loop; the path is built as `findReviewKeys` builds it. */
  function EntryHits(e: Entry, target: string, path: string, depth: nat): (r: seq<Hit>)
    decreases e
  {
    var p := DebugScrape.ChildPath(path, e.key);
    (if KeyText(e.key) == target && !e.value.Arr? then [Hit(p, e.value)] else [])
    + (if e.value.Arr? && depth < 4 then Hits(e.value.entries, target, p, depth + 1) else [])
  }

  /** The path of an entry ends with its key. */
  lemma ChildPathEnds(path: string, k: Key)
    ensures EndsWith(DebugScrape.ChildPath(path, k), KeyText(k))
  {
    var p := DebugScrape.ChildPath(path, k);
    assert p[|p| - |KeyText(k)|..] == KeyText(k);
  }

  /** Every hit is a value that is not an array, on a path ending with the target key. */
  lemma {:induction false} HitsSound(es: seq<Entry>, target: string, path: string, depth: nat)
    ensures forall h :: h in Hits(es, target, path, depth) ==> !h.value.Arr? && EndsWith(h.path, target)
    decreases es, 1
  {
    if depth <= 4 {
      PrefixHitsSound(es, target, path, depth, |es|);
    }
  }

  lemma {:induction false} PrefixHitsSound(es: seq<Entry>, target: string, path: string, depth: nat, n: nat)
    requires n <= |es|
    ensures forall h :: h in HitsPrefix(es, target, path, depth, n) ==> !h.value.Arr? && EndsWith(h.path, target)
    decreases es, 0, n
  {
    if n > 0 {
      PrefixHitsSound(es, target, path, depth, n - 1);
      EntryHitsSound(es[n - 1], target, path, depth);
    }
  }

  lemma {:induction false} EntryHitsSound(e: Entry, target: string, path: string, depth: nat)
    ensures forall h :: h in EntryHits(e, target, path, depth) ==> !h.value.Arr? && EndsWith(h.path, target)
    decreases e
  {
    ChildPathEnds(path, e.key);
    if e.value.Arr? && depth < 4 {
      HitsSound(e.value.entries, target, DebugScrape.ChildPath(path, e.key), depth + 1);
    }
  }

  /** Whatever the `i`th entry yields is among the hits of any longer prefix. */
  lemma {:induction false} EntryHitsInPrefix(es: seq<Entry>, target: string, path: string, depth: nat, n: nat, i: nat)
    requires i < n <= |es|
    ensures forall h :: h in EntryHits(es[i], target, path, depth) ==> h in HitsPrefix(es, target, path, depth, n)
    decreases n
  {
    if i < n - 1 {
      EntryHitsInPrefix(es, target, path, depth, n - 1, i);
    }
  }

  /**
   * Up to depth 4 every non-array value under the target key is reported, and below depth 4 the
   * search goes into every array value, whatever its key.
   */
  lemma HitsComplete(es: seq<Entry>, target: string, path: string, depth: nat, i: nat)
    requires depth <= 4 && i < |es|
    ensures KeyText(es[i].key) == target && !es[i].value.Arr? ==>
      Hit(DebugScrape.ChildPath(path, es[i].key), es[i].value) in Hits(es, target, path, depth)
    ensures es[i].value.Arr? && depth < 4 ==>
      forall h :: h in Hits(es[i].value.entries, target, DebugScrape.ChildPath(path, es[i].key), depth + 1) ==>
        h in Hits(es, target, path, depth)
  {
    EntryHitsInPrefix(es, target, path, depth, |es|, i);
  }

  /** The target key with the value 1 under `n` levels of arrays keyed 'x'. */
  function Buried(n: nat, target: string): seq<Entry> {
    if n == 0 then [Entry(StrKey(target), Int(1))] else [Entry(StrKey("x"), Arr(Buried(n - 1, target)))]
  }

  /** The depth bound: a target under `n` levels is found from depth `depth` exactly when `depth + n <= 4`. */
  lemma {:induction false} BuriedFoundIff(n: nat, target: string, path: string, depth: nat)
    requires target != "x"
    ensures Hits(Buried(n, target), target, path, depth) != [] <==> depth + n <= 4
  {
    if depth <= 4 {
      var e := Buried(n, target)[0];
      assert Hits(Buried(n, target), target, path, depth) == HitsPrefix(Buried(n, target), target, path, depth, 1);
      assert HitsPrefix(Buried(n, target), target, path, depth, 1) ==
        HitsPrefix(Buried(n, target), target, path, depth, 0) + EntryHits(e, target, path, depth);
      if n > 0 {
        assert KeyText(e.key) != target;
        if depth < 4 {
          BuriedFoundIff(n - 1, target, DebugScrape.ChildPath(path, e.key), depth + 1);
        }
      }
    }
  }

  /** `searchForKey`: the loop over the entries. */
  method SearchForKey(data: seq<Entry>, target: string, path: string, depth: nat) returns (hits: seq<Hit>)
    ensures hits == Hits(data, target, path, depth)
    decreases Arr(data), 1
  {
    hits := [];
    if depth > 4 {
      return;
    }
    var i := 0;
    while i < |data|
      invariant 0 <= i <= |data|
      invariant hits == HitsPrefix(data, target, path, depth, i)
    {
      var out := SearchEntry(data[i], target, path, depth);
      hits := hits + out;
      i := i + 1;
    }
  }

  /** One iteration of the loop: the entry itself when it is a hit, then the recursion. */
  method SearchEntry(e: Entry, target: string, path: string, depth: nat) returns (out: seq<Hit>)
    ensures out == EntryHits(e, target, path, depth)
    decreases e, 0
  {
    var p := DebugScrape.ChildPath(path, e.key);
    out := if KeyText(e.key) == target && !e.value.Arr? then [Hit(p, e.value)] else [];
    if e.value.Arr? && depth < 4 {
      assert Arr(e.value.entries) == e.value;
      var sub := SearchForKey(e.value.entries, target, p, depth + 1);
      out := out + sub;
    }
  }

  // ---------------------------------------------------------------------------------------------
  // The embedded config: step 1 (lines 91-129) and step 2 (lines 147-171)

  /** The block's trimmed text is taken for the config. */
  predicate TakenForConfig(block: string) {
    ReviewService.IsConfigBlock(PhpTrim(block))
  }

  /** Block by block, whether it is taken for the config. */
  function ConfigFlags(blocks: seq<string>): (f: seq<bool>)
    ensures |f| == |blocks|
    ensures forall i :: 0 <= i < |blocks| ==> f[i] == TakenForConfig(blocks[i])
  {
    seq(|blocks|, i requires 0 <= i < |blocks| => TakenForConfig(blocks[i]))
  }

  /** The block both steps stop at: the first one taken for the config, whatever it decodes to. */
  function FirstConfigBlock(blocks: seq<string>): (r: Option<nat>)
    ensures r.Some? ==> r.value < |blocks| && TakenForConfig(blocks[r.value])
    ensures r.Some? ==> forall j :: 0 <= j < r.value ==> !TakenForConfig(blocks[j])
    ensures r.None? ==> forall j :: 0 <= j < |blocks| ==> !TakenForConfig(blocks[j])
  {
    ReviewService.FirstSet(ConfigFlags(blocks), 0)
  }

  /** The `foreach` over the script blocks up to its `break`. */
  method FindConfigBlock(blocks: seq<string>) returns (r: Option<nat>)
    ensures r == FirstConfigBlock(blocks)
  {
    ghost var flags := ConfigFlags(blocks);
    var i := 0;
    while i < |blocks|
      invariant 0 <= i <= |blocks|
      invariant ReviewService.FirstSet(flags, 0) == ReviewService.FirstSet(flags, i)
    {
      var trimmed := PhpTrim(blocks[i]);
      if Utf8Length(trimmed) > 10000 && StartsWith(trimmed, "{\"config\"") {
        assert flags[i];
        return Some(i);
      }
      assert !flags[i];
      i := i + 1;
    }
    return None;
  }

  /** What step 1 reports about the config. */
  datatype ConfigReport =
    | NoConfigBlock
      /** The block does not decode: the `JsonException` is caught and reported. */
    | JsonError(index: nat)
      /** The `FOUND` lines of the searches for 's' and for 'reqId'. */
    | Searched(index: nat, sHits: seq<Hit>, reqIdHits: seq<Hit>)
      /** A `TypeError` before the searches, which the `catch (\JsonException)` does not catch. */
    | Aborted(index: nat)
      /** The searches print their `FOUND` lines, then the config's keys throw a `TypeError`. */
    | AbortedAfterSearch(index: nat, sHits: seq<Hit>, reqIdHits: seq<Hit>)
  {
    /** Step 1 ends the command with an uncaught error. */
    predicate Crashed() {
      Aborted? || AbortedAfterSearch?
    }
  }

  /**
   * Step 1's diagnostics throw a `TypeError` before the searches when `config.analytics` is set to
   * something other than an array (line 112, `array_keys`) or the decoded config is not an array
   * (line 116, `searchForKey` takes an array).
   */
  predicate ThrowsBeforeSearch(d: Value) {
    || (Path(d, [StrKey("config"), StrKey("analytics")]).Some? && !Path(d, [StrKey("config"), StrKey("analytics")]).value.Arr?)
    || !d.Arr?
  }

  /**
   * After the searches, line 122 gives `$configData['config'] ?? []` to `array_keys`, which throws
   * a `TypeError` when `config` is set to something other than an array. Such a `config` answers
   * no `isset` on its string keys, so nothing earlier throws on it.
   */
  predicate ThrowsAfterSearch(d: Value) {
    Field(d, "config").Some? && !Field(d, "config").value.Arr?
  }

  /** Step 1: the first config block is decoded and searched for 's' and 'reqId'. */
  function Step1(blocks: seq<string>, decode: string -> Option<Value>): (r: ConfigReport)
    ensures r.NoConfigBlock? <==> FirstConfigBlock(blocks).None?
    ensures !r.NoConfigBlock? ==> Some(r.index) == FirstConfigBlock(blocks)
    ensures r.JsonError? <==> FirstConfigBlock(blocks).Some? && ConfigValue(blocks, decode).None?
    ensures r.Aborted? <==> ConfigValue(blocks, decode).Some? && ThrowsBeforeSearch(ConfigValue(blocks, decode).value)
    ensures r.AbortedAfterSearch? <==>
      && ConfigValue(blocks, decode).Some? && !ThrowsBeforeSearch(ConfigValue(blocks, decode).value)
      && ThrowsAfterSearch(ConfigValue(blocks, decode).value)
    ensures r.Searched? || r.AbortedAfterSearch? ==>
      && ConfigValue(blocks, decode).Some? && ConfigValue(blocks, decode).value.Arr?
      && r.sHits == Hits(ConfigValue(blocks, decode).value.entries, "s", "", 0)
      && r.reqIdHits == Hits(ConfigValue(blocks, decode).value.entries, "reqId", "", 0)
  {
    match FirstConfigBlock(blocks)
    case None => NoConfigBlock
    case Some(i) =>
      match decode(PhpTrim(blocks[i]))
      case None => JsonError(i)
      case Some(d) =>
        if ThrowsBeforeSearch(d) then Aborted(i)
        else if ThrowsAfterSearch(d) then AbortedAfterSearch(i, Hits(d.entries, "s", "", 0), Hits(d.entries, "reqId", "", 0))
        else Searched(i, Hits(d.entries, "s", "", 0), Hits(d.entries, "reqId", "", 0))
  }

  /** Step 1 only prints non-array values found under the keys searched for, whether or not it then crashes. */
  lemma Step1Sound(blocks: seq<string>, decode: string -> Option<Value>)
    ensures var r := Step1(blocks, decode);
      r.Searched? || r.AbortedAfterSearch? ==>
      && (forall h :: h in r.sHits ==> !h.value.Arr? && EndsWith(h.path, "s"))
      && (forall h :: h in r.reqIdHits ==> !h.value.Arr? && EndsWith(h.path, "reqId"))
  {
    var r := Step1(blocks, decode);
    if r.Searched? || r.AbortedAfterSearch? {
      var d := ConfigValue(blocks, decode).value;
      HitsSound(d.entries, "s", "", 0);
      HitsSound(d.entries, "reqId", "", 0);
    }
  }

  /** `$configData['config']['requestId'] ?? ''`. */
  function RequestId(d: Value): Value {
    Path(d, [StrKey("config"), StrKey("requestId")]).GetOr(Str(""))
  }

  /**
   * Step 2's diagnostics throw on the decoded config: a `requestId` or an `apiBaseUrl` that is an
   * array is interpolated into a string (the framework turns the warning into an exception), and
   * truthy `counters` that are not an array are given to `array_keys`.
   */
  predicate Step2Throws(d: Value) {
    || RequestId(d).Arr?
    || (var counters := Path(d, [StrKey("config"), StrKey("counters")]).GetOr(Arr([]));
        Truthy(counters) && !counters.Arr?)
    || (Path(d, [StrKey("config"), StrKey("apiBaseUrl")]).Some? && Path(d, [StrKey("config"), StrKey("apiBaseUrl")]).value.Arr?)
  }

  // ---------------------------------------------------------------------------------------------
  // Step 3: the strategies (lines 173-256)

  /** The six strategies, in the order they are tried. */
  datatype Strategy = A | B | B2 | C | D | E

  function Rank(s: Strategy): nat {
    match s
    case A => 0
    case B => 1
    case B2 => 2
    case C => 3
    case D => 4
    case E => 5
  }

  datatype Verb = GET | POST

  /** One request `callApi` sends: the parameters go in the query (GET) or the form body (POST). */
  datatype Call = Call(strategy: Strategy, verb: Verb, url: string, params: seq<Entry>, referer: string)

  function Labels(calls: seq<Call>): (ls: seq<Strategy>)
    ensures |ls| == |calls|
    ensures forall k :: 0 <= k < |calls| ==> ls[k] == calls[k].strategy
  {
    seq(|calls|, k requires 0 <= k < |calls| => calls[k].strategy)
  }

  /** What the page gave: the domain, the id, the page's tokens and the `reqId` parameter. */
  datatype Session = Session(domain: string, orgId: string, csrf: string, sessionId: string, reqId: Value)

  function StrEntry(k: string, v: string): Entry {
    Entry(StrKey(k), Str(v))
  }

  /** `$paramsA`. */
  function ParamsA(c: Session): seq<Entry> {
    [StrEntry("ajax", "1"), StrEntry("businessId", c.orgId), StrEntry("csrfToken", c.csrf),
     StrEntry("locale", "ru_RU"), Entry(StrKey("page"), Int(1)), Entry(StrKey("pageSize"), Int(50)),
     StrEntry("ranking", "by_time"), StrEntry("sessionId", c.sessionId), Entry(StrKey("reqId"), c.reqId)]
  }

  /** `$paramsC`: no session, no request id. */
  function ParamsC(c: Session): seq<Entry> {
    [StrEntry("businessId", c.orgId), StrEntry("csrfToken", c.csrf), Entry(StrKey("page"), Int(1)),
     Entry(StrKey("pageSize"), Int(50)), StrEntry("ranking", "by_time")]
  }

  /** `$paramsD`, with the tokens of the yandex.com page. */
  function ParamsD(orgId: string, csrf: string, sessionId: string): seq<Entry> {
    [StrEntry("ajax", "1"), StrEntry("businessId", orgId), StrEntry("csrfToken", csrf),
     Entry(StrKey("page"), Int(1)), Entry(StrKey("pageSize"), Int(50)), StrEntry("ranking", "by_time"),
     StrEntry("sessionId", sessionId)]
  }

  /** `$params['csrfToken'] = $token`. */
  function WithToken(ps: seq<Entry>, token: Value): (r: seq<Entry>)
    ensures Find(r, StrKey("csrfToken")) == Some(token)
    ensures forall k :: k != StrKey("csrfToken") ==> Find(r, k) == Find(ps, k)
  {
    forall k ensures k != StrKey("csrfToken") ==> Find(Put(ps, Entry(StrKey("csrfToken"), token)), k) == Find(ps, k) {
      PutReads(ps, "csrfToken", token, k);
    }
    PutReads(ps, "csrfToken", token, IntKey(0));
    Put(ps, Entry(StrKey("csrfToken"), token))
  }

  /**
   * The decoded answer to the `k`th call. `api(before, call)` is `json_decode` of the body the
   * endpoint sends for `call` after the calls `before` (with their cookies); null when the body is
   * not JSON.
   */
  function Response(api: (seq<Call>, Call) -> Value, calls: seq<Call>, k: nat): Value
    requires k < |calls|
  {
    api(calls[..k], calls[k])
  }

  /** PHP's `empty()` of an `isset`-guarded lookup. */
  predicate IsEmpty(o: Option<Value>) {
    o.None? || !Truthy(o.value)
  }

  /** `$resp && isset($resp['csrfToken']) && empty($resp['reviews'])`: the answer asks to be chained. */
  predicate Gate(resp: Value) {
    Truthy(resp) && Field(resp, "csrfToken").Some? && IsEmpty(Field(resp, "reviews"))
  }

  /**
   * `callApi` throws on the decoded answer: a scalar (`array_keys` of a truthy one, or the `?array`
   * return type), a `reviews` entry that `count` cannot count, a first review missing from
   * `$reviews[0]`, or an array printed as `totalCount`, author name or `updatedTime`.
   */
  predicate CallApiThrows(data: Value) {
    || !(data.Null? || data.Arr?)
    || (Truthy(data) &&
        var reviews := Field(data, "reviews").GetOr(Arr([]));
        || !reviews.Arr?
        || (Field(data, "totalCount").Some? && Field(data, "totalCount").value.Arr?)
        || (|reviews.entries| > 0 &&
            match Find(reviews.entries, IntKey(0))
            case None => true
            case Some(first) =>
              || (Path(first, [StrKey("author"), StrKey("name")]).Some? && Path(first, [StrKey("author"), StrKey("name")]).value.Arr?)
              || (Field(first, "updatedTime").Some? && Field(first, "updatedTime").value.Arr?)))
  }

  /**
   * The command dies at the answer to the `k`th call: `callApi` throws, or strategy B is about to
   * print ("Using new CSRF: …") a token of A's answer that is an array.
   */
  predicate Fatal(api: (seq<Call>, Call) -> Value, calls: seq<Call>, k: nat)
    requires k < |calls|
  {
    || CallApiThrows(Response(api, calls, k))
    || (calls[k].strategy == A && Gate(Response(api, calls, k)) && Field(Response(api, calls, k), "csrfToken").value.Arr?)
  }

  /** The token an answer hands on. */
  function TokenOf(resp: Value): Value
    requires Field(resp, "csrfToken").Some?
  {
    Field(resp, "csrfToken").value
  }

  /**
   * The strategies in the order the command tries them: A; B when A's answer asks to be chained,
   * then B2 when B's does too; C; D when the domain is not yandex.com; E.
   */
  function Plan(chainA: bool, chainB: bool, tryDotCom: bool): seq<Strategy> {
    if !chainA then (if tryDotCom then [A, C, D, E] else [A, C, E])
    else if !chainB then (if tryDotCom then [A, B, C, D, E] else [A, B, C, E])
    else (if tryDotCom then [A, B, B2, C, D, E] else [A, B, B2, C, E])
  }

  /** The plan tries each strategy at most once, in the order A, B, B2, C, D, E. */
  lemma PlanFacts(chainA: bool, chainB: bool, tryDotCom: bool)
    ensures var p := Plan(chainA, chainB, tryDotCom);
      && p[0] == A && p[|p| - 1] == E && C in p
      && (B in p <==> chainA)
      && (B2 in p <==> chainA && chainB)
      && (D in p <==> tryDotCom)
      && (forall i, j :: 0 <= i < j < |p| ==> Rank(p[i]) < Rank(p[j]))
      && (forall k :: 0 < k < |p| && p[k] == B ==> p[k - 1] == A)
      && (forall k :: 0 < k < |p| && p[k] == B2 ==> p[k - 1] == B)
  {
  }

  /** The call before the `k`th and its answer; none for the first call. */
  function Previous(api: (seq<Call>, Call) -> Value, calls: seq<Call>, k: nat): Option<(Call, Value)>
    requires k < |calls|
  {
    if k == 0 then None else Some((calls[k - 1], Response(api, calls, k - 1)))
  }

  /**
   * What a call of each strategy is, given the call before it and its answer: B and B2 resend the
   * previous call's parameters with the token of its answer, which asked to be chained.
   */
  predicate Shaped(c: Session, fetch: string -> string, quoted: (string, string) -> Option<string>,
                   call: Call, prev: Option<(Call, Value)>)
  {
    var url := ApiUrl(c.domain);
    var referer := ReviewsUrl(c.domain, Some(c.orgId));
    var page2 := ReviewsUrl("yandex.com", Some(c.orgId));
    match call.strategy
    case A => call == Call(A, GET, url, ParamsA(c), referer)
    case B | B2 =>
      && prev.Some? && Gate(prev.value.1)
      && call == Call(call.strategy, GET, url, WithToken(prev.value.0.params, TokenOf(prev.value.1)), referer)
    case C => call == Call(C, GET, url, ParamsC(c), referer)
    case D =>
      call == Call(D, GET, ApiUrl("yandex.com"),
                   ParamsD(c.orgId, quoted(fetch(page2), "csrfToken").GetOr(""), quoted(fetch(page2), "sessionId").GetOr("")),
                   page2)
    case E => call == Call(E, POST, url, ParamsA(c), referer)
  }

  /**
   * The strategy tried after a call of strategy `s` that survived its answer `resp`: B after A and
   * B2 after B when the answer asks to be chained (C otherwise); D after C when the domain is not
   * yandex.com (E otherwise); E after D; nothing after E.
   */
  function Next(s: Strategy, resp: Value, domain: string): Option<Strategy> {
    match s
    case A => Some(if Gate(resp) then B else C)
    case B => Some(if Gate(resp) then B2 else C)
    case B2 => Some(C)
    case C => Some(if domain != "yandex.com" then D else E)
    case D => Some(E)
    case E => None
  }

  /**
   * A call follows the call before it and that call's answer: the first call is A, each next one
   * is the strategy `Next` picks, and it is shaped as its strategy says.
   */
  predicate Follows(c: Session, fetch: string -> string, quoted: (string, string) -> Option<string>,
                    call: Call, prev: Option<(Call, Value)>)
  {
    && (prev.None? ==> call.strategy == A)
    && (prev.Some? ==> Next(prev.value.0.strategy, prev.value.1, c.domain) == Some(call.strategy))
    && Shaped(c, fetch, quoted, call, prev)
  }

  /** The calls made so far: each follows the one before; none but the last died at its answer. */
  ghost predicate Run(c: Session, fetch: string -> string, quoted: (string, string) -> Option<string>,
                      api: (seq<Call>, Call) -> Value, calls: seq<Call>)
  {
    && 0 < |calls|
    && (forall k {:trigger Previous(api, calls, k)} :: 0 <= k < |calls| ==>
          Follows(c, fetch, quoted, calls[k], Previous(api, calls, k)))
    && (forall k :: 0 <= k < |calls| - 1 ==> !Fatal(api, calls, k))
  }

  /**
   * The strategies run, on the session `c`: the calls stop at the first answer that kills the
   * command, or once E is answered; the pages fetched are those D is sent from.
   */
  ghost predicate Gated(c: Session, fetch: string -> string, quoted: (string, string) -> Option<string>,
                        api: (seq<Call>, Call) -> Value, calls: seq<Call>, pages: seq<string>, crashed: bool)
  {
    && Run(c, fetch, quoted, api, calls)
    && (crashed <==> Fatal(api, calls, |calls| - 1))
    && (!crashed ==> Next(calls[|calls| - 1].strategy, Response(api, calls, |calls| - 1), c.domain).None?)
    && pages == PagesFetched(calls)
  }

  /** The pages fetched before the calls: the yandex.com page just before D, which it is sent from. */
  function PagesFetched(calls: seq<Call>): seq<string> {
    if calls == [] then []
    else PagesFetched(calls[..|calls| - 1]) + (if calls[|calls| - 1].strategy == D then [calls[|calls| - 1].referer] else [])
  }

  /** Appending a call fetches one more page when it is D. */
  lemma PagesSnoc(calls: seq<Call>, x: Call)
    ensures PagesFetched(calls + [x]) == PagesFetched(calls) + (if x.strategy == D then [x.referer] else [])
  {
    assert (calls + [x])[..|calls|] == calls;
  }

  /** Appending a call keeps what the earlier calls were and how they were answered. */
  lemma Extend(api: (seq<Call>, Call) -> Value, calls: seq<Call>, x: Call)
    ensures Labels(calls + [x]) == Labels(calls) + [x.strategy]
    ensures forall k :: 0 <= k < |calls| ==> (calls + [x])[k] == calls[k]
    ensures forall k :: 0 <= k < |calls| ==> Response(api, calls + [x], k) == Response(api, calls, k)
    ensures forall k :: 0 <= k < |calls| ==> Previous(api, calls + [x], k) == Previous(api, calls, k)
    ensures forall k :: 0 <= k < |calls| ==> Fatal(api, calls + [x], k) == Fatal(api, calls, k)
  {
    var after := calls + [x];
    assert forall k :: 0 <= k < |calls| ==> after[..k] == calls[..k];
  }

  /** The first call, A. */
  lemma Start(c: Session, fetch: string -> string, quoted: (string, string) -> Option<string>,
              api: (seq<Call>, Call) -> Value, x: Call)
    requires Follows(c, fetch, quoted, x, None)
    ensures Run(c, fetch, quoted, api, [x])
    ensures PagesFetched([x]) == []
  {
    assert [x][..0] == [];
  }

  /** A call the last answer leads to, shaped as its strategy says, extends the run. */
  lemma Step(c: Session, fetch: string -> string, quoted: (string, string) -> Option<string>,
             api: (seq<Call>, Call) -> Value, calls: seq<Call>, x: Call)
    requires Run(c, fetch, quoted, api, calls)
    requires !Fatal(api, calls, |calls| - 1)
    requires Follows(c, fetch, quoted, x, Some((calls[|calls| - 1], Response(api, calls, |calls| - 1))))
    ensures Run(c, fetch, quoted, api, calls + [x])
  {
    Extend(api, calls, x);
    var after := calls + [x];
    assert Previous(api, after, |calls|) == Some((calls[|calls| - 1], Response(api, calls, |calls| - 1)));
  }

  /** `callApi`: one more request; the answers to the earlier ones stay what they were. */
  method CallApi(api: (seq<Call>, Call) -> Value, calls: seq<Call>, call: Call) returns (after: seq<Call>, resp: Value)
    ensures after == calls + [call]
    ensures resp == Response(api, after, |calls|)
    ensures forall k :: 0 <= k < |calls| ==> Response(api, after, k) == Response(api, calls, k)
  {
    after := calls + [call];
    assert after[..|calls|] == calls;
    assert forall k :: 0 <= k < |calls| ==> after[..k] == calls[..k];
    resp := api(calls, call);
  }

  /**
   * Strategies A, B and B2 (lines 181-209): A, then B with A's token when A's answer asks to be
   * chained, then B2 with B's token when B's answer does too. When none of them kills the command,
   * C comes next.
   */
  method Chain(c: Session, fetch: string -> string, quoted: (string, string) -> Option<string>,
               api: (seq<Call>, Call) -> Value)
    returns (calls: seq<Call>, crashed: bool)
    ensures Run(c, fetch, quoted, api, calls)
    ensures crashed <==> Fatal(api, calls, |calls| - 1)
    ensures !crashed ==> Next(calls[|calls| - 1].strategy, Response(api, calls, |calls| - 1), c.domain) == Some(C)
    ensures PagesFetched(calls) == []
  {
    var url := ApiUrl(c.domain);
    var referer := ReviewsUrl(c.domain, Some(c.orgId));
    var resp, x;
    x := Call(A, GET, url, ParamsA(c), referer);
    Start(c, fetch, quoted, api, x);
    calls, resp := CallApi(api, [], x);
    if CallApiThrows(resp) || !Gate(resp) {
      return calls, CallApiThrows(resp);
    }
    var newCsrf := TokenOf(resp);
    if newCsrf.Arr? {
      return calls, true;
    }
    x := Call(B, GET, url, WithToken(ParamsA(c), newCsrf), referer);
    Step(c, fetch, quoted, api, calls, x);
    PagesSnoc(calls, x);
    calls, resp := CallApi(api, calls, x);
    if CallApiThrows(resp) || !Gate(resp) {
      return calls, CallApiThrows(resp);
    }
    x := Call(B2, GET, url, WithToken(x.params, TokenOf(resp)), referer);
    Step(c, fetch, quoted, api, calls, x);
    PagesSnoc(calls, x);
    calls, resp := CallApi(api, calls, x);
    crashed := CallApiThrows(resp);
  }

  /**
   * Strategy C (lines 213-220), after a chain that survived: the query without session or request
   * id; then D and E.
   */
  method Rest(c: Session, fetch: string -> string, quoted: (string, string) -> Option<string>,
              api: (seq<Call>, Call) -> Value, chain: seq<Call>)
    returns (calls: seq<Call>, pages: seq<string>, crashed: bool)
    requires Run(c, fetch, quoted, api, chain) && !Fatal(api, chain, |chain| - 1)
    requires Next(chain[|chain| - 1].strategy, Response(api, chain, |chain| - 1), c.domain) == Some(C)
    requires PagesFetched(chain) == []
    ensures Gated(c, fetch, quoted, api, calls, pages, crashed)
  {
    var x := Call(C, GET, ApiUrl(c.domain), ParamsC(c), ReviewsUrl(c.domain, Some(c.orgId)));
    Step(c, fetch, quoted, api, chain, x);
    PagesSnoc(chain, x);
    var resp;
    calls, resp := CallApi(api, chain, x);
    if CallApiThrows(resp) {
      return calls, [], true;
    }
    calls, pages, crashed := Tail(c, fetch, quoted, api, calls);
  }

  /**
   * Strategies D and E (lines 223-256), after C survived: D on yandex.com with the tokens of that
   * page, unless the domain is yandex.com already; E, posting A's parameters.
   */
  method Tail(c: Session, fetch: string -> string, quoted: (string, string) -> Option<string>,
              api: (seq<Call>, Call) -> Value, before: seq<Call>)
    returns (calls: seq<Call>, pages: seq<string>, crashed: bool)
    requires Run(c, fetch, quoted, api, before) && !Fatal(api, before, |before| - 1)
    requires before[|before| - 1].strategy == C
    requires PagesFetched(before) == []
    ensures Gated(c, fetch, quoted, api, calls, pages, crashed)
  {
    var url := ApiUrl(c.domain);
    var page2 := ReviewsUrl("yandex.com", Some(c.orgId));
    var resp, x;
    calls, pages := before, [];
    if c.domain != "yandex.com" {
      var html2 := fetch(page2);
      pages := [page2];
      var csrf2 := quoted(html2, "csrfToken").GetOr("");
      var sid2 := quoted(html2, "sessionId").GetOr("");
      x := Call(D, GET, ApiUrl("yandex.com"), ParamsD(c.orgId, csrf2, sid2), page2);
      Step(c, fetch, quoted, api, calls, x);
      PagesSnoc(calls, x);
      calls, resp := CallApi(api, calls, x);
      if CallApiThrows(resp) {
        return calls, pages, true;
      }
    }
    x := Call(E, POST, url, ParamsA(c), ReviewsUrl(c.domain, Some(c.orgId)));
    Step(c, fetch, quoted, api, calls, x);
    PagesSnoc(calls, x);
    calls, resp := CallApi(api, calls, x);
    crashed := CallApiThrows(resp);
  }

  /** The plan a run's gates choose: A's answer, the second call's answer, and the domain. */
  function PlanOf(c: Session, api: (seq<Call>, Call) -> Value, calls: seq<Call>): seq<Strategy>
    requires 0 < |calls|
  {
    Plan(Gate(Response(api, calls, 0)), 1 < |calls| && Gate(Response(api, calls, 1)), c.domain != "yandex.com")
  }

  /** `Next` walks the plan, given the answer to A at the head of the plan and to B second. */
  lemma PlanStep(chainA: bool, chainB: bool, domain: string, k: nat, resp: Value)
    requires k < |Plan(chainA, chainB, domain != "yandex.com")|
    requires Plan(chainA, chainB, domain != "yandex.com")[k] == A ==> Gate(resp) == chainA
    requires Plan(chainA, chainB, domain != "yandex.com")[k] == B ==> Gate(resp) == chainB
    ensures var p := Plan(chainA, chainB, domain != "yandex.com");
      Next(p[k], resp, domain) == if k + 1 < |p| then Some(p[k + 1]) else None
  {
  }

  /** A only heads the plan and B only comes second. */
  lemma PlanPlaces(chainA: bool, chainB: bool, tryDotCom: bool, k: nat)
    requires k < |Plan(chainA, chainB, tryDotCom)|
    ensures Plan(chainA, chainB, tryDotCom)[k] == A ==> k == 0
    ensures Plan(chainA, chainB, tryDotCom)[k] == B ==> k == 1 && chainA
    ensures 0 < |Plan(chainA, chainB, tryDotCom)| && Plan(chainA, chainB, tryDotCom)[0] == A
  {
  }

  /** A run starts with A. */
  lemma RunHead(c: Session, fetch: string -> string, quoted: (string, string) -> Option<string>,
                api: (seq<Call>, Call) -> Value, calls: seq<Call>)
    requires Run(c, fetch, quoted, api, calls)
    ensures calls[0].strategy == A
  {
    assert Follows(c, fetch, quoted, calls[0], Previous(api, calls, 0));
  }

  /** Each later call of a run is the strategy `Next` picks. */
  lemma RunNext(c: Session, fetch: string -> string, quoted: (string, string) -> Option<string>,
                api: (seq<Call>, Call) -> Value, calls: seq<Call>, k: nat)
    requires Run(c, fetch, quoted, api, calls) && 0 < k < |calls|
    ensures Next(calls[k - 1].strategy, Response(api, calls, k - 1), c.domain) == Some(calls[k].strategy)
  {
    assert Follows(c, fetch, quoted, calls[k], Previous(api, calls, k));
  }

  /** The `k`th call of a run is the `k`th strategy of the plan its gates choose. */
  lemma {:induction false} RunFollowsPlan(c: Session, fetch: string -> string, quoted: (string, string) -> Option<string>,
                                          api: (seq<Call>, Call) -> Value, calls: seq<Call>, k: nat)
    requires Run(c, fetch, quoted, api, calls) && k < |calls|
    ensures k < |PlanOf(c, api, calls)| && calls[k].strategy == PlanOf(c, api, calls)[k]
    decreases k
  {
    var chainA := Gate(Response(api, calls, 0));
    var chainB := 1 < |calls| && Gate(Response(api, calls, 1));
    PlanPlaces(chainA, chainB, c.domain != "yandex.com", 0);
    if k == 0 {
      RunHead(c, fetch, quoted, api, calls);
    } else {
      RunFollowsPlan(c, fetch, quoted, api, calls, k - 1);
      RunNext(c, fetch, quoted, api, calls, k);
      PlanPlaces(chainA, chainB, c.domain != "yandex.com", k - 1);
      PlanStep(chainA, chainB, c.domain, k - 1, Response(api, calls, k - 1));
    }
  }

  /**
   * A run goes along the plan its gates choose, and runs all of it when nothing kills the
   * command: A, B exactly when A's answer asks to be chained, B2 exactly when B's does too, C, D
   * exactly when the domain is not yandex.com, E.
   */
  lemma GatedFollowsPlan(c: Session, fetch: string -> string, quoted: (string, string) -> Option<string>,
                         api: (seq<Call>, Call) -> Value, calls: seq<Call>, pages: seq<string>, crashed: bool)
    requires Gated(c, fetch, quoted, api, calls, pages, crashed)
    ensures Labels(calls) <= PlanOf(c, api, calls)
    ensures !crashed ==> Labels(calls) == PlanOf(c, api, calls)
  {
    var p := PlanOf(c, api, calls);
    var ls := Labels(calls);
    forall k | 0 <= k < |calls| ensures k < |p| && ls[k] == p[k] {
      RunFollowsPlan(c, fetch, quoted, api, calls, k);
    }
    assert ls == p[..|calls|];
    if !crashed {
      var n := |calls| - 1;
      PlanStep(Gate(Response(api, calls, 0)), 1 < |calls| && Gate(Response(api, calls, 1)), c.domain, n, Response(api, calls, n));
      PlanPlaces(Gate(Response(api, calls, 0)), 1 < |calls| && Gate(Response(api, calls, 1)), c.domain != "yandex.com", n);
    }
  }

  /** The parameter lists of A, C, D and E name the organization. */
  lemma ParamsNameOrg(c: Session, csrf: string, sessionId: string)
    ensures Find(ParamsA(c), StrKey("businessId")) == Some(Str(c.orgId))
    ensures Find(ParamsC(c), StrKey("businessId")) == Some(Str(c.orgId))
    ensures Find(ParamsD(c.orgId, csrf, sessionId), StrKey("businessId")) == Some(Str(c.orgId))
  {
    var a := ParamsA(c);
    var d := ParamsD(c.orgId, csrf, sessionId);
    assert a[0].key != StrKey("businessId") && a[1..][0] == StrEntry("businessId", c.orgId);
    assert d[0].key != StrKey("businessId") && d[1..][0] == StrEntry("businessId", c.orgId);
  }

  /**
   * A run that nothing killed starts with A and ends with E, tries each strategy at most once in
   * the order A, B, B2, C, D, E, runs B exactly when A's answer asks to be chained, B2 exactly
   * when B's does too, and D exactly when the domain is not yandex.com.
   */
  lemma SurvivingRun(c: Session, fetch: string -> string, quoted: (string, string) -> Option<string>,
                     api: (seq<Call>, Call) -> Value, calls: seq<Call>, pages: seq<string>)
    requires Gated(c, fetch, quoted, api, calls, pages, false)
    ensures calls[0].strategy == A && calls[|calls| - 1].strategy == E
    ensures forall i, j :: 0 <= i < j < |calls| ==> Rank(calls[i].strategy) < Rank(calls[j].strategy)
    ensures B in Labels(calls) <==> Gate(Response(api, calls, 0))
    ensures B2 in Labels(calls) <==> Gate(Response(api, calls, 0)) && 1 < |calls| && Gate(Response(api, calls, 1))
    ensures D in Labels(calls) <==> c.domain != "yandex.com"
  {
    GatedFollowsPlan(c, fetch, quoted, api, calls, pages, false);
    PlanFacts(Gate(Response(api, calls, 0)), 1 < |calls| && Gate(Response(api, calls, 1)), c.domain != "yandex.com");
  }

  /** A call of A, C, D or E names the organization. */
  lemma ShapedNamesOrg(c: Session, fetch: string -> string, quoted: (string, string) -> Option<string>,
                       call: Call, prev: Option<(Call, Value)>)
    requires Shaped(c, fetch, quoted, call, prev) && call.strategy !in {B, B2}
    ensures Find(call.params, StrKey("businessId")) == Some(Str(c.orgId))
  {
    var page2 := fetch(ReviewsUrl("yandex.com", Some(c.orgId)));
    ParamsNameOrg(c, quoted(page2, "csrfToken").GetOr(""), quoted(page2, "sessionId").GetOr(""));
  }

  /** B and B2 name the organization the call before them names. */
  lemma ChainedKeepsOrg(c: Session, fetch: string -> string, quoted: (string, string) -> Option<string>,
                        call: Call, prev: Option<(Call, Value)>)
    requires Shaped(c, fetch, quoted, call, prev) && call.strategy in {B, B2}
    ensures prev.Some? && Find(call.params, StrKey("businessId")) == Find(prev.value.0.params, StrKey("businessId"))
  {
  }

  /** Every call of a run asks for the reviews of the session's organization. */
  lemma {:induction false} RunSendsBusinessId(c: Session, fetch: string -> string, quoted: (string, string) -> Option<string>,
                                              api: (seq<Call>, Call) -> Value, calls: seq<Call>, k: nat)
    requires Run(c, fetch, quoted, api, calls) && k < |calls|
    ensures Find(calls[k].params, StrKey("businessId")) == Some(Str(c.orgId))
    decreases k
  {
    var prev := Previous(api, calls, k);
    assert Follows(c, fetch, quoted, calls[k], prev);
    if calls[k].strategy in {B, B2} {
      ChainedKeepsOrg(c, fetch, quoted, calls[k], prev);
      RunSendsBusinessId(c, fetch, quoted, api, calls, k - 1);
    } else {
      ShapedNamesOrg(c, fetch, quoted, calls[k], prev);
    }
  }

  /** Lines 176-256: the strategies, on the session the page gave. */
  method Strategies(c: Session, fetch: string -> string, quoted: (string, string) -> Option<string>,
                    api: (seq<Call>, Call) -> Value)
    returns (calls: seq<Call>, pages: seq<string>, crashed: bool)
    ensures Gated(c, fetch, quoted, api, calls, pages, crashed)
  {
    calls, crashed := Chain(c, fetch, quoted, api);
    if crashed {
      pages := [];
      return;
    }
    calls, pages, crashed := Rest(c, fetch, quoted, api, calls);
  }

  // ---------------------------------------------------------------------------------------------
  // handle (lines 18-256)

  /** What a run of the command did: the pages fetched, step 1's report, the API calls, and whether it died. */
  datatype Outcome = Outcome(pages: seq<string>, config: ConfigReport, calls: seq<Call>, crashed: bool)

  /** The reviews page fetched first: on the URL's mirror, with its id (empty when there is none). */
  function FirstPage(url: string): string {
    ReviewsUrl(Domain(url), OrgPattern(url))
  }

  /** `if (!$orgId)`: the command goes on to step 2 only with a truthy id ("0" is not). */
  predicate Proceeds(url: string) {
    OrgPattern(url).Some? && Truthy(Str(OrgPattern(url).value))
  }

  /** The strict decoding of the config block both steps stop at. */
  function ConfigValue(blocks: seq<string>, decode: string -> Option<Value>): Option<Value> {
    match FirstConfigBlock(blocks)
    case None => None
    case Some(i) => decode(PhpTrim(blocks[i]))
  }

  /** Step 2 dies: its `json_decode` throws outside any `try`, or its diagnostics throw. */
  predicate Step2Dies(blocks: seq<string>, decode: string -> Option<Value>) {
    FirstConfigBlock(blocks).Some? && (ConfigValue(blocks, decode).None? || Step2Throws(ConfigValue(blocks, decode).value))
  }

  /**
   * The session the strategies use. `reqId` is the config's truthy `requestId`, otherwise the
   * page's `reqId`, otherwise the generated one (`generated` stands for the microsecond clock and
   * `random_int`).
   */
  function SessionOf(url: string, html: string, quoted: (string, string) -> Option<string>,
                     blocks: seq<string>, decode: string -> Option<Value>, generated: string): Session
    requires Proceeds(url)
  {
    var requestId := if ConfigValue(blocks, decode).Some? then RequestId(ConfigValue(blocks, decode).value) else Str("");
    Session(Domain(url), OrgPattern(url).value, quoted(html, "csrfToken").GetOr(""), quoted(html, "sessionId").GetOr(""),
            if Truthy(requestId) then requestId else Str(quoted(html, "reqId").GetOr(generated)))
  }

  /** Step 1 (lines 91-129): the block both steps stop at, and what step 1 reports about it. */
  method ReportConfig(blocks: seq<string>, decode: string -> Option<Value>) returns (idx: Option<nat>, config: ConfigReport)
    ensures idx == FirstConfigBlock(blocks)
    ensures config == Step1(blocks, decode)
  {
    idx := FindConfigBlock(blocks);
    config := NoConfigBlock;
    if idx.Some? {
      var data := decode(PhpTrim(blocks[idx.value]));
      if data.None? {
        config := JsonError(idx.value);
      } else if ThrowsBeforeSearch(data.value) {
        config := Aborted(idx.value);
      } else {
        config := SearchConfig(idx.value, data.value);
      }
    }
  }

  /** Lines 116-122: the config searched for 's' and for 'reqId', and then its keys listed. */
  method SearchConfig(index: nat, d: Value) returns (r: ConfigReport)
    requires d.Arr?
    ensures r.Searched? || r.AbortedAfterSearch?
    ensures r.index == index
    ensures r.sHits == Hits(d.entries, "s", "", 0) && r.reqIdHits == Hits(d.entries, "reqId", "", 0)
    ensures r.AbortedAfterSearch? <==> ThrowsAfterSearch(d)
  {
    var sHits := SearchForKey(d.entries, "s", "", 0);
    var reqIdHits := SearchForKey(d.entries, "reqId", "", 0);
    if ThrowsAfterSearch(d) {
      r := AbortedAfterSearch(index, sHits, reqIdHits);
    } else {
      r := Searched(index, sHits, reqIdHits);
    }
  }

  /** Step 2 (lines 146-171): the same loop over the same blocks stops at the same block. */
  method ReadRequestId(blocks: seq<string>, decode: string -> Option<Value>, idx: Option<nat>)
    returns (dies: bool, requestId: Value)
    requires idx == FirstConfigBlock(blocks)
    ensures dies == Step2Dies(blocks, decode)
    ensures requestId == if ConfigValue(blocks, decode).Some? then RequestId(ConfigValue(blocks, decode).value) else Str("")
  {
    requestId := Str("");
    dies := false;
    if idx.Some? {
      var data := decode(PhpTrim(blocks[idx.value]));
      if data.None? || Step2Throws(data.value) {
        dies := true;
      }
      if data.Some? {
        requestId := RequestId(data.value);
      }
    }
  }

  /**
   * `handle($url)`. `fetch` gives a page's HTML, `scripts` the bodies of its `<script>` blocks,
   * `quoted(html, name)` the first `"name": "…"` string of the page, `decode` the strict JSON
   * decoder (none when it throws) and `api` the endpoint's decoded answers.
   */
  method Handle(url: string, fetch: string -> string, scripts: string -> seq<string>,
                quoted: (string, string) -> Option<string>, decode: string -> Option<Value>,
                generated: string, api: (seq<Call>, Call) -> Value)
    returns (o: Outcome)
    ensures 0 < |o.pages| && o.pages[0] == FirstPage(url)
    ensures var blocks := scripts(fetch(FirstPage(url)));
      && o.config == Step1(blocks, decode)
      && (o.config.Crashed() ==> o.crashed && o.calls == [] && |o.pages| == 1)
      && (!o.config.Crashed() && !Proceeds(url) ==> !o.crashed && o.calls == [] && |o.pages| == 1)
      && (!o.config.Crashed() && Proceeds(url) && Step2Dies(blocks, decode) ==> o.crashed && o.calls == [] && |o.pages| == 1)
      && (!o.config.Crashed() && Proceeds(url) && !Step2Dies(blocks, decode) ==>
            Gated(SessionOf(url, fetch(FirstPage(url)), quoted, blocks, decode, generated), fetch, quoted, api,
                  o.calls, o.pages[1..], o.crashed))
  {
    var orgId := OrgPattern(url);
    var domain := Domain(url);
    var page := ReviewsUrl(domain, orgId);
    var html := fetch(page);
    var blocks := scripts(html);
    var idx, config := ReportConfig(blocks, decode);
    if config.Crashed() {
      return Outcome([page], config, [], true);
    }
    if !(orgId.Some? && Truthy(Str(orgId.value))) {
      return Outcome([page], config, [], false);
    }
    var dies, requestId := ReadRequestId(blocks, decode, idx);
    if dies {
      return Outcome([page], config, [], true);
    }
    var reqId := quoted(html, "reqId").GetOr(generated);
    var session := Session(domain, orgId.value, quoted(html, "csrfToken").GetOr(""), quoted(html, "sessionId").GetOr(""),
                           if Truthy(requestId) then requestId else Str(reqId));
    assert session == SessionOf(url, html, quoted, blocks, decode, generated);
    var calls, pages, crashed := Strategies(session, fetch, quoted, api);
    assert ([page] + pages)[1..] == pages;
    return Outcome([page] + pages, config, calls, crashed);
  }

  /** A config block that does not decode is reported by step 1 and then kills step 2, once there is an id. */
  lemma JsonErrorKills(url: string, blocks: seq<string>, decode: string -> Option<Value>)
    requires Step1(blocks, decode).JsonError?
    ensures Step2Dies(blocks, decode)
  {
  }

  /** Without an id (or with "0") no API call is made; the page is still fetched, with an empty id. */
  lemma NoIdNoCalls(url: string)
    requires OrgPattern(url).None?
    ensures !Proceeds(url)
    ensures FirstPage(url) == "https://" + Domain(url) + "/maps/org/test//reviews/"
  {
  }
}
