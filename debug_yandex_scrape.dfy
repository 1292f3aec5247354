/**
 * `debug:yandex {url}`: a diagnostic command that fetches a Maps URL, reports the URL the
 * redirects end at and the organisation id found there, and walks every embedded JSON config for
 * keys that look review-related.
 *
 * The HTTP request is a parameter (its redirect history header and the page's script blocks), and
 * so is the strict JSON decoder.
 */
module DebugScrape {
  import opened Wrappers
  import opened Text
  import opened Php
  import opened OrgId
  import opened ServiceUrl
  import ReviewService

  // ---------------------------------------------------------------------------------------------
  // Step 1: the final URL and the organisation id

  /**
   * The final URL: the last ', '-separated entry of the redirect history, or the input URL when
   * the header is empty.
   */
  function FinalUrl(url: string, history: string): (r: string)
    ensures !Truthy(Str(history)) ==> r == url
    ensures Truthy(Str(history)) ==>
      && EndsWith(history, r)
      && !Contains(r, ", ")
      && (|r| == |history| || (|r| + 2 <= |history| && PrefixAt(history, |history| - |r| - 2, ", ")))
  {
    if Truthy(Str(history)) then
      ResolvedIsLastRedirect(url, history);
      ResolveUrl(url, history)
    else ResolveUrl(url, history)
  }

  /**
   * The organisation id: the org pattern on the final URL, then the org pattern on the input
   * URL, then the first run of ten or more digits of the final URL only. When the input URL has
   * no org pattern, or the final URL has one, this is the review service's own extractor on the
   * final URL.
   */
  function ScrapeOrgId(url: string, final: string): (r: Option<string>)
    ensures r.Some? ==> |r.value| > 0 && AllDigits(r.value)
    ensures r == (if OrgPattern(final).None? && OrgPattern(url).Some? then OrgPattern(url) else ExtractOrgId(final))
  {
    if OrgPattern(final).Some? then OrgPattern(final)
    else if OrgPattern(url).Some? then
      assert ExtractOrgId(url) == OrgPattern(url);
      OrgPattern(url)
    else LongRun(final)
  }

  /** Without redirects the command finds the id the review service finds. */
  lemma ScrapeOrgIdWithoutRedirects(url: string)
    ensures ScrapeOrgId(url, FinalUrl(url, "")) == ExtractOrgId(url)
  {
  }

  /** A long digit run of the input URL alone is never taken. */
  lemma InputDigitsIgnored(url: string, final: string)
    requires OrgPattern(url).None?
    ensures ScrapeOrgId(url, final) == ExtractOrgId(final)
  {
  }

  // ---------------------------------------------------------------------------------------------
  // Step 3: `findReviewKeys`

  /** One line of `findReviewKeys`'s output: the dotted path, the key and the value found. */
  datatype Found = Found(path: string, key: Key, value: Value)

  /** `$path ? "{$path}.{$key}" : (string)$key`: a path of "" or "0" is dropped. */
  function ChildPath(path: string, k: Key): string {
    if Truthy(Str(path)) then path + "." + KeyText(k) else KeyText(k)
  }

  /** The key test of `findReviewKeys`, clause by clause. */
  predicate ReportedKey(k: Key) {
    k.StrKey? && (
      || Contains(Lower(k.s), "review")
      || Contains(Lower(k.s), "rating")
      || Contains(Lower(k.s), "orgInfo")
      || k.s == "stars"
      || k.s == "author")
  }

  /** A lower-cased key never contains "orgInfo": its 'I' is upper case. */
  lemma OrgInfoNeverMatches(s: string)
    ensures !Contains(Lower(s), "orgInfo")
  {
    var l := Lower(s);
    forall p | 0 <= p && p + 7 <= |l| ensures !PrefixAt(l, p, "orgInfo") {
      assert !IsUpper(l[p + 3]);
      assert l[p..p + 7][3] == l[p + 3];
    }
  }

  /**
   * A key is reported exactly when it is a string key whose lower-case form contains 'review' or
   * 'rating', or that is 'stars' or 'author'.
   */
  lemma ReportedKeyIff(k: Key)
    ensures ReportedKey(k) <==>
      (k.StrKey? && (Contains(Lower(k.s), "review") || Contains(Lower(k.s), "rating") || k.s == "stars" || k.s == "author"))
  {
    if k.StrKey? {
      OrgInfoNeverMatches(k.s);
    }
  }

  /**
   * What `findReviewKeys($data, $path, $depth)` reports: nothing past depth 6; otherwise, entry by
   * entry, the entry itself when its key qualifies, then whatever its array value yields one
   * level down.
   */
  function Reports(es: seq<Entry>, path: string, depth: nat): (r: seq<Found>)
    ensures depth > 6 ==> r == []
    decreases es, 1
  {
    if depth > 6 then [] else ReportsPrefix(es, path, depth, |es|)
  }

  /** The reports of the first `n` entries. */
  function ReportsPrefix(es: seq<Entry>, path: string, depth: nat, n: nat): (r: seq<Found>)
    requires n <= |es|
    decreases es, 0, n
  {
    if n == 0 then [] else ReportsPrefix(es, path, depth, n - 1) + EntryReports(es[n - 1], path, depth)
  }

  /** The reports of one iteration of the loop. */
  function EntryReports(e: Entry, path: string, depth: nat): (r: seq<Found>)
    decreases e
  {
    var p := ChildPath(path, e.key);
    (if ReportedKey(e.key) then [Found(p, e.key, e.value)] else [])
    + (if e.value.Arr? then Reports(e.value.entries, p, depth + 1) else [])
  }

  /** Only qualifying keys are reported, at any depth. */
  lemma {:induction false} ReportsSound(es: seq<Entry>, path: string, depth: nat)
    ensures forall f :: f in Reports(es, path, depth) ==> ReportedKey(f.key)
    decreases es, 1
  {
    if depth <= 6 {
      PrefixSound(es, path, depth, |es|);
    }
  }

  lemma {:induction false} PrefixSound(es: seq<Entry>, path: string, depth: nat, n: nat)
    requires n <= |es|
    ensures forall f :: f in ReportsPrefix(es, path, depth, n) ==> ReportedKey(f.key)
    decreases es, 0, n
  {
    if n > 0 {
      PrefixSound(es, path, depth, n - 1);
      EntrySound(es[n - 1], path, depth);
    }
  }

  lemma {:induction false} EntrySound(e: Entry, path: string, depth: nat)
    ensures forall f :: f in EntryReports(e, path, depth) ==> ReportedKey(f.key)
    decreases e
  {
    if e.value.Arr? {
      ReportsSound(e.value.entries, ChildPath(path, e.key), depth + 1);
    }
  }

  /** Whatever the `i`th entry yields is among the reports of any longer prefix. */
  lemma {:induction false} EntryInPrefix(es: seq<Entry>, path: string, depth: nat, n: nat, i: nat)
    requires i < n <= |es|
    ensures forall f :: f in EntryReports(es[i], path, depth) ==> f in ReportsPrefix(es, path, depth, n)
    decreases n
  {
    if i < n - 1 {
      EntryInPrefix(es, path, depth, n - 1, i);
    }
  }

  /**
   * Up to depth 6 every qualifying key is reported, and the walk goes into every array value,
   * whether its key qualified or not.
   */
  lemma ReportsComplete(es: seq<Entry>, path: string, depth: nat, i: nat)
    requires depth <= 6 && i < |es|
    ensures ReportedKey(es[i].key) ==>
      Found(ChildPath(path, es[i].key), es[i].key, es[i].value) in Reports(es, path, depth)
    ensures es[i].value.Arr? ==>
      forall f :: f in Reports(es[i].value.entries, ChildPath(path, es[i].key), depth + 1) ==> f in Reports(es, path, depth)
  {
    EntryInPrefix(es, path, depth, |es|, i);
  }

  /** A 'rating' key under `n` levels of arrays keyed 'x'. */
  function Nested(n: nat): seq<Entry> {
    if n == 0 then [Entry(StrKey("rating"), Int(5))] else [Entry(StrKey("x"), Arr(Nested(n - 1)))]
  }

  /** The depth bound: a key under `n` levels is found from depth `depth` exactly when `depth + n <= 6`. */
  lemma {:induction false} NestedFoundIff(n: nat, path: string, depth: nat)
    ensures Reports(Nested(n), path, depth) != [] <==> depth + n <= 6
  {
    if depth <= 6 {
      var e := Nested(n)[0];
      assert Reports(Nested(n), path, depth) == ReportsPrefix(Nested(n), path, depth, 1);
      assert ReportsPrefix(Nested(n), path, depth, 1) == ReportsPrefix(Nested(n), path, depth, 0) + EntryReports(e, path, depth);
      if n == 0 {
        assert PrefixAt(Lower("rating"), 0, "rating");
      } else {
        assert !ReportedKey(StrKey("x"));
        NestedFoundIff(n - 1, ChildPath(path, e.key), depth + 1);
      }
    }
  }

  /** `findReviewKeys`: the walk, with the loop over the entries. */
  method FindReviewKeys(data: seq<Entry>, path: string, depth: nat) returns (found: seq<Found>)
    ensures found == Reports(data, path, depth)
    decreases Arr(data), 1
  {
    found := [];
    if depth > 6 {
      return;
    }
    var i := 0;
    while i < |data|
      invariant 0 <= i <= |data|
      invariant found == ReportsPrefix(data, path, depth, i)
    {
      var out := VisitEntry(data[i], path, depth);
      found := found + out;
      i := i + 1;
    }
  }

  /** One iteration of the loop: the entry itself when its key qualifies, then the recursion. */
  method VisitEntry(e: Entry, path: string, depth: nat) returns (out: seq<Found>)
    ensures out == EntryReports(e, path, depth)
    decreases e, 0
  {
    var p := ChildPath(path, e.key);
    out := if ReportedKey(e.key) then [Found(p, e.key, e.value)] else [];
    if e.value.Arr? {
      assert Arr(e.value.entries) == e.value;
      var sub := FindReviewKeys(e.value.entries, p, depth + 1);
      out := out + sub;
    }
  }

  // ---------------------------------------------------------------------------------------------
  // Step 3: the config blocks

  /**
   * What one config block yields: its top-level keys and the review-related keys found in it;
   * a JSON error (the command reports it and goes on); or a decoded value that is not an array,
   * on which `array_keys` throws a `TypeError` the `catch (\JsonException)` does not catch.
   */
  datatype BlockReport =
    | Parsed(index: nat, topKeys: seq<Key>, found: seq<Found>)
    | Unparsable(index: nat)
    | Crashed(index: nat)

  /** The report for block `i`, when it is a config block. */
  function BlockAt(blocks: seq<string>, decode: string -> Option<Value>, i: nat): (r: Option<BlockReport>)
    requires i < |blocks|
    ensures r.Some? <==> ReviewService.IsConfigBlock(PhpTrim(blocks[i]))
    ensures r.Some? ==> r.value.index == i
  {
    var trimmed := PhpTrim(blocks[i]);
    if !ReviewService.IsConfigBlock(trimmed) then None
    else match decode(trimmed)
      case None => Some(Unparsable(i))
      case Some(Arr(es)) => Some(Parsed(i, Keys(es), Reports(es, "", 0)))
      case Some(_) => Some(Crashed(i))
  }

  /** Block by block, what each one yields. */
  function Outcomes(blocks: seq<string>, decode: string -> Option<Value>): (os: seq<Option<BlockReport>>)
    ensures |os| == |blocks|
    ensures forall i :: 0 <= i < |blocks| ==> os[i] == BlockAt(blocks, decode, i)
  {
    seq(|blocks|, i requires 0 <= i < |blocks| => BlockAt(blocks, decode, i))
  }

  /** Each outcome is about its own block. */
  predicate Indexed(os: seq<Option<BlockReport>>) {
    forall j :: 0 <= j < |os| && os[j].Some? ==> os[j].value.index == j
  }

  /**
   * The reports of the blocks from `i` on: every outcome in order, up to and including one that
   * crashes the command. Each report is the outcome of the block it names.
   */
  function ScanFrom(os: seq<Option<BlockReport>>, i: nat): (r: seq<BlockReport>)
    requires i <= |os| && Indexed(os)
    ensures forall k :: 0 <= k < |r| ==> i <= r[k].index < |os| && os[r[k].index] == Some(r[k])
    decreases |os| - i
  {
    if i == |os| then []
    else match os[i]
      case None => ScanFrom(os, i + 1)
      case Some(b) => if b.Crashed? then [b] else [b] + ScanFrom(os, i + 1)
  }

  /** One step of the scan, as the loop at lines 95-119 takes it: `done` when the command stops. */
  lemma ScanStep(os: seq<Option<BlockReport>>, i: nat, reports: seq<BlockReport>)
    requires Indexed(os) && i < |os|
    requires ScanFrom(os, 0) == reports + ScanFrom(os, i)
    ensures os[i].None? ==> ScanFrom(os, 0) == reports + ScanFrom(os, i + 1)
    ensures os[i].Some? && os[i].value.Crashed? ==> ScanFrom(os, 0) == reports + [os[i].value]
    ensures os[i].Some? && !os[i].value.Crashed? ==>
      ScanFrom(os, 0) == (reports + [os[i].value]) + ScanFrom(os, i + 1)
  {
    if os[i].Some? && !os[i].value.Crashed? {
      assert ScanFrom(os, i) == [os[i].value] + ScanFrom(os, i + 1);
      assert reports + ([os[i].value] + ScanFrom(os, i + 1)) == (reports + [os[i].value]) + ScanFrom(os, i + 1);
    }
  }

  /** The reports of the whole page. */
  function Scan(blocks: seq<string>, decode: string -> Option<Value>): (r: seq<BlockReport>)
    ensures forall k :: 0 <= k < |r| ==>
      && r[k].index < |blocks|
      && ReviewService.IsConfigBlock(PhpTrim(blocks[r[k].index]))
      && Some(r[k]) == BlockAt(blocks, decode, r[k].index)
  {
    ScanFrom(Outcomes(blocks, decode), 0)
  }

  /** Unless an earlier block crashed the command, the outcome of every config block is reported. */
  lemma {:induction false} ScanFromCovers(os: seq<Option<BlockReport>>, i: nat, j: nat)
    requires Indexed(os) && i <= j < |os| && os[j].Some?
    requires forall l :: i <= l < j && os[l].Some? ==> !os[l].value.Crashed?
    ensures os[j].value in ScanFrom(os, i)
    decreases j - i
  {
    if i < j {
      ScanFromCovers(os, i + 1, j);
    }
  }

  /** Every config block is reported unless a config block before it crashed the command. */
  lemma ConfigBlocksReported(blocks: seq<string>, decode: string -> Option<Value>, j: nat)
    requires j < |blocks| && ReviewService.IsConfigBlock(PhpTrim(blocks[j]))
    requires forall l :: 0 <= l < j && BlockAt(blocks, decode, l).Some? ==> !BlockAt(blocks, decode, l).value.Crashed?
    ensures BlockAt(blocks, decode, j).Some? && BlockAt(blocks, decode, j).value in Scan(blocks, decode)
  {
    ScanFromCovers(Outcomes(blocks, decode), 0, j);
  }

  /** One iteration: the block's trimmed text is decoded when it is the config, and walked. */
  method InspectBlock(blocks: seq<string>, decode: string -> Option<Value>, i: nat) returns (outcome: Option<BlockReport>)
    requires i < |blocks|
    ensures outcome == BlockAt(blocks, decode, i)
  {
    var trimmed := PhpTrim(blocks[i]);
    if Utf8Length(trimmed) > 10000 && StartsWith(trimmed, "{\"config\"") {
      var data := decode(trimmed);
      if data.None? {
        outcome := Some(Unparsable(i));
      } else if data.value.Arr? {
        var found := FindReviewKeys(data.value.entries, "", 0);
        outcome := Some(Parsed(i, Keys(data.value.entries), found));
      } else {
        outcome := Some(Crashed(i));
      }
    } else {
      outcome := None;
    }
  }

  /** The loop over the script blocks at lines 95-119. */
  method ScanConfigBlocks(blocks: seq<string>, decode: string -> Option<Value>) returns (reports: seq<BlockReport>)
    ensures reports == Scan(blocks, decode)
  {
    ghost var os := Outcomes(blocks, decode);
    assert Indexed(os);
    reports := [];
    var i := 0;
    while i < |blocks|
      invariant 0 <= i <= |blocks|
      invariant ScanFrom(os, 0) == reports + ScanFrom(os, i)
    {
      var outcome := InspectBlock(blocks, decode, i);
      assert os[i] == outcome;
      ScanStep(os, i, reports);
      if outcome.Some? {
        reports := reports + [outcome.value];
        if outcome.value.Crashed? {
          return;
        }
      }
      i := i + 1;
    }
  }

  /** What the command reports: the final URL, the id and the config blocks. */
  datatype Diagnosis = Diagnosis(finalUrl: string, orgId: Option<string>, configs: seq<BlockReport>)

  /** `handle`, given the redirect history header and the script blocks of the page. */
  method Handle(url: string, history: string, blocks: seq<string>, decode: string -> Option<Value>) returns (d: Diagnosis)
    ensures d.finalUrl == FinalUrl(url, history)
    ensures d.orgId == ScrapeOrgId(url, d.finalUrl)
    ensures d.configs == Scan(blocks, decode)
  {
    var final := FinalUrl(url, history);
    var configs := ScanConfigBlocks(blocks, decode);
    d := Diagnosis(final, ScrapeOrgId(url, final), configs);
  }
}
