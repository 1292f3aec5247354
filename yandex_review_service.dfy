/**
 * `YandexReviewService`: reading an organisation's reviews from the static HTML of its Yandex
 * Maps page. The URL is resolved through redirects, normalised to the reviews page, and the page
 * is read from the large JSON config Yandex embeds in a script tag, or, when there is none, from
 * the rating sentence of its meta description.
 *
 * HTTP, the script-tag scan (`preg_match_all`), the strict JSON decoder and the two rating
 * sentence patterns are parameters.
 */
module ReviewService {
  import opened Wrappers
  import opened Text
  import opened Php
  import opened OrgId
  import opened RawReview
  import opened ReviewStore
  import opened ServiceUrl

  // ---------------------------------------------------------------------------------------------
  // The embedded config

  /** A script block's trimmed text is taken for the config: over 10000 bytes, starting `{"config"`. */
  predicate IsConfigBlock(trimmed: string) {
    Utf8Length(trimmed) > 10000 && StartsWith(trimmed, "{\"config\"")
  }

  /** The block is a config block that decodes (`json_decode(…, JSON_THROW_ON_ERROR)` succeeds). */
  predicate Qualifies(block: string, decode: string -> Option<Value>) {
    IsConfigBlock(PhpTrim(block)) && decode(PhpTrim(block)).Some?
  }

  /** Which blocks qualify, block by block. */
  function QualifyingFlags(blocks: seq<string>, decode: string -> Option<Value>): (f: seq<bool>)
    ensures |f| == |blocks|
    ensures forall j :: 0 <= j < |blocks| ==> f[j] == Qualifies(blocks[j], decode)
  {
    seq(|blocks|, j requires 0 <= j < |blocks| => Qualifies(blocks[j], decode))
  }

  /** The index of the first set flag at or after `from`. */
  function FirstSet(flags: seq<bool>, from: nat): (r: Option<nat>)
    requires from <= |flags|
    ensures r.Some? ==> from <= r.value < |flags| && flags[r.value]
    ensures r.Some? ==> forall j :: from <= j < r.value ==> !flags[j]
    ensures r.None? ==> forall j :: from <= j < |flags| ==> !flags[j]
    decreases |flags| - from
  {
    if from == |flags| then None
    else if flags[from] then Some(from)
    else FirstSet(flags, from + 1)
  }

  /** The index of the first block that qualifies. */
  function ConfigIndex(blocks: seq<string>, decode: string -> Option<Value>): (r: Option<nat>)
    ensures r.Some? ==> r.value < |blocks| && Qualifies(blocks[r.value], decode)
    ensures r.Some? ==> forall j :: 0 <= j < r.value ==> !Qualifies(blocks[j], decode)
    ensures r.None? ==> forall j :: 0 <= j < |blocks| ==> !Qualifies(blocks[j], decode)
  {
    var flags := QualifyingFlags(blocks, decode);
    var r := FirstSet(flags, 0);
    assert r.Some? ==> flags[r.value];
    assert r.Some? ==> forall j :: 0 <= j < r.value ==> !flags[j];
    assert r.None? ==> forall j :: 0 <= j < |blocks| ==> !flags[j];
    r
  }

  /**
   * The config the page yields: the decoding of the first block that qualifies; none when no
   * block does. A block that looks like the config but does not decode is passed over.
   */
  function FirstConfig(blocks: seq<string>, decode: string -> Option<Value>): (r: Option<Value>)
    ensures ConfigIndex(blocks, decode).None? ==> r.None?
    ensures ConfigIndex(blocks, decode).Some? ==> r.Some? && r == decode(PhpTrim(blocks[ConfigIndex(blocks, decode).value]))
  {
    match ConfigIndex(blocks, decode)
    case Some(i) => decode(PhpTrim(blocks[i]))
    case None => None
  }

  /** `extractEmbeddedJsonConfig` over the script blocks the page's `<script>` tags hold. */
  method ExtractEmbeddedJsonConfig(blocks: seq<string>, decode: string -> Option<Value>) returns (r: Option<Value>)
    ensures r == FirstConfig(blocks, decode)
  {
    ghost var flags := QualifyingFlags(blocks, decode);
    assert ConfigIndex(blocks, decode) == FirstSet(flags, 0);
    var i := 0;
    while i < |blocks|
      invariant 0 <= i <= |blocks|
      invariant FirstSet(flags, 0) == FirstSet(flags, i)
    {
      var trimmed := PhpTrim(blocks[i]);
      if Utf8Length(trimmed) > 10000 && StartsWith(trimmed, "{\"config\"") {
        var data := decode(trimmed);
        if data.Some? {
          assert flags[i];
          return data;
        }
      }
      assert !flags[i];
      i := i + 1;
    }
    return None;
  }

  /** A page's result: the reviews, the rating and the total; `None` is null. */
  datatype Page = Page(reviews: seq<ParsedReview>, rating: Option<Rating>, total: Option<int>)

  /** `$data['stack'][0]['results']['items'] ?? []`. */
  function StackItems(data: Value): (r: Value)
    ensures r != Null
  {
    Path(data, [StrKey("stack"), IntKey(0), StrKey("results"), StrKey("items")]).GetOr(Arr([]))
  }

  /** PHP's name of a value's type, as warnings print it. */
  function TypeName(v: Value): string {
    match v
    case Null => "null"
    case Bool(_) => "bool"
    case Int(_) => "int"
    case Float(_) => "float"
    case Str(_) => "string"
    case Arr(_) => "array"
  }

  /**
   * `$stackItems[0]`, read without `??`: the framework turns the warning for a missing key or a
   * scalar into an exception.
   */
  function FirstItem(items: Value): (r: Result<Value>)
    ensures items.Arr? && Find(items.entries, IntKey(0)).Some? ==> r == Ok(Find(items.entries, IntKey(0)).value)
    ensures items.Arr? && Find(items.entries, IntKey(0)).None? ==> r == Err("Undefined array key 0")
    ensures !items.Arr? && !items.Str? ==> r.Err?
  {
    match items
    case Arr(es) =>
      (match Find(es, IntKey(0))
       case Some(v) => Ok(v)
       case None => Err("Undefined array key 0"))
    case Str(s) => if s == [] then Err("Uninitialized string offset 0") else Ok(Str([s[0]]))
    case _ => Err("Trying to access array offset on value of type " + TypeName(items))
  }

  /** The parsed record for each raw review, in order. */
  function NormalizeAll(raws: seq<Value>): (r: seq<ParsedReview>)
    ensures |r| == |raws|
    ensures forall j :: 0 <= j < |raws| ==> r[j] == Normalize(raws[j])
  {
    seq(|raws|, j requires 0 <= j < |raws| => Normalize(raws[j]))
  }

  /** `$orgData['ratingData'] ?? []`. */
  function RatingDataOf(org: Value): (r: Value)
    ensures r != Null
  {
    Field(org, "ratingData").GetOr(Arr([]))
  }

  /** `$ratingData['reviewCount'] ?? $ratingData['ratingCount'] ?? null`. */
  function CountField(org: Value): (r: Option<Value>)
    ensures r != Some(Null)
  {
    OrElse(Field(RatingDataOf(org), "reviewCount"), Field(RatingDataOf(org), "ratingCount"))
  }

  /** `$orgData['reviewResults']['reviews'] ?? []`. */
  function ReviewList(org: Value): (r: Value)
    ensures r != Null
  {
    Path(org, [StrKey("reviewResults"), StrKey("reviews")]).GetOr(Arr([]))
  }

  /** The message of the warning `foreach` raises over a value it cannot iterate. */
  function ForeachError(v: Value): string {
    "foreach() argument must be of type array|object, " + TypeName(v) + " given"
  }

  /**
   * What `parseEmbeddedConfig` makes of the first stack item: the rating when `ratingValue` is
   * set; one parsed review per raw review, in order; and the total from `reviewCount`, else
   * `ratingCount`, or the number of reviews when that is falsy. A review list that `foreach`
   * cannot iterate raises.
   */
  function ItemPage(org: Value): (r: Result<Page>)
    ensures r.Ok? <==> ReviewList(org).Arr?
    ensures r.Err? ==> r.message == ForeachError(ReviewList(org))
    ensures r.Ok? ==> r.value.reviews == NormalizeAll(Values(ReviewList(org).entries))
    ensures r.Ok? ==> (r.value.rating.Some? <==> Field(RatingDataOf(org), "ratingValue").Some?)
    ensures r.Ok? && r.value.rating.Some? ==> r.value.rating.value == Rounded(Field(RatingDataOf(org), "ratingValue").value)
    ensures r.Ok? && CountField(org).Some? && Truthy(CountField(org).value) ==> r.value.total == Some(IntCast(CountField(org).value))
    ensures r.Ok? && (CountField(org).None? || !Truthy(CountField(org).value)) ==> r.value.total == Some(|r.value.reviews|)
  {
    var rating := match Field(RatingDataOf(org), "ratingValue") case Some(v) => Some(Rounded(v)) case None => None;
    var total := CountField(org);
    var raws := ReviewList(org);
    if !raws.Arr? then Err(ForeachError(raws))
    else
      var reviews := NormalizeAll(Values(raws.entries));
      Ok(Page(reviews, rating, Some(if total.Some? && Truthy(total.value) then IntCast(total.value) else |reviews|)))
  }

  /**
   * What `parseEmbeddedConfig` makes of a config: with no stack items, no reviews, no rating and
   * no total; otherwise the page of the first item, or the error `$stackItems[0]` raises.
   */
  function ConfigPage(data: Value): (r: Result<Page>)
    ensures !Truthy(StackItems(data)) ==> r == Ok(Page([], None, None))
    ensures Truthy(StackItems(data)) && FirstItem(StackItems(data)).Err? ==>
      r == Err(FirstItem(StackItems(data)).message)
    ensures Truthy(StackItems(data)) && FirstItem(StackItems(data)).Ok? ==>
      r == ItemPage(FirstItem(StackItems(data)).value)
  {
    var items := StackItems(data);
    if !Truthy(items) then Ok(Page([], None, None))
    else
      match FirstItem(items)
      case Err(m) => Err(m)
      case Ok(org) => ItemPage(org)
  }

  /** The `foreach` of `parseEmbeddedConfig`: one parsed record appended per raw review. */
  method NormalizeEach(raws: seq<Value>) returns (reviews: seq<ParsedReview>)
    ensures reviews == NormalizeAll(raws)
  {
    reviews := [];
    var i := 0;
    while i < |raws|
      invariant 0 <= i <= |raws|
      invariant reviews == NormalizeAll(raws[..i])
    {
      assert raws[..i + 1] == raws[..i] + [raws[i]];
      reviews := reviews + [Normalize(raws[i])];
      i := i + 1;
    }
    assert raws[..|raws|] == raws;
  }

  /** The body of `parseEmbeddedConfig` past `$stackItems[0]`: the loop over the raw reviews. */
  method ParseItem(org: Value) returns (r: Result<Page>)
    ensures r == ItemPage(org)
  {
    var rating: Option<Rating> := None;
    if Field(RatingDataOf(org), "ratingValue").Some? {
      rating := Some(Rounded(Field(RatingDataOf(org), "ratingValue").value));
    }
    var total := CountField(org);
    var raws := ReviewList(org);
    if !raws.Arr? {
      return Err(ForeachError(raws));
    }
    var reviews := NormalizeEach(Values(raws.entries));
    var count := if total.Some? && Truthy(total.value) then IntCast(total.value) else |reviews|;
    return Ok(Page(reviews, rating, Some(count)));
  }

  /** `parseEmbeddedConfig`. */
  method ParseEmbeddedConfig(data: Value) returns (r: Result<Page>)
    ensures r == ConfigPage(data)
  {
    var items := StackItems(data);
    if !Truthy(items) {
      return Ok(Page([], None, None));
    }
    var first := FirstItem(items);
    if first.Err? {
      return Err(first.message);
    }
    r := ParseItem(first.value);
  }

  // ---------------------------------------------------------------------------------------------
  // The meta fallback

  /**
   * A rating sentence pattern: the two captures it yields on the page, the rating text and the
   * review count (groups 1 and 3 of the English pattern, 1 and 2 of the Russian one), or `None`
   * when it does not match.
   */
  type Pattern = string -> Option<(string, string)>

  /** `str_replace($a, $b, $s)` for single characters. */
  function ReplaceChar(s: string, a: char, b: char): (r: string)
    ensures |r| == |s|
    ensures forall i :: 0 <= i < |s| ==> r[i] == if s[i] == a then b else s[i]
  {
    seq(|s|, i requires 0 <= i < |s| => if s[i] == a then b else s[i])
  }

  /**
   * `(float) $t` is zero, for a capture of digits and dots: the number PHP reads is the leading
   * digits, a dot, and the digits after it, and it is zero when none of those digits is.
   */
  predicate FloatTextZero(t: string) {
    var a := DigitRunEnd(t, 0);
    var b := if a < |t| && t[a] == '.' then DigitRunEnd(t, a + 1) else a;
    forall i :: 0 <= i < b ==> t[i] == '0' || t[i] == '.'
  }

  /**
   * What `parseMetaFallback` yields: never any reviews; the English sentence's rating and count
   * when it gives a rating that is not zero; otherwise the Russian sentence's, with a decimal
   * comma read as a point, when it matches; otherwise whatever the English sentence gave.
   */
  function MetaPage(html: string, english: Pattern, russian: Pattern): (r: Page)
    ensures r.reviews == []
    ensures english(html).Some? && !FloatTextZero(english(html).value.0) ==>
      r == Page([], Some(FromText(english(html).value.0)), Some(IntCast(Str(english(html).value.1))))
    ensures (english(html).None? || FloatTextZero(english(html).value.0)) && russian(html).Some? ==>
      r == Page([], Some(FromText(ReplaceChar(russian(html).value.0, ',', '.'))), Some(IntCast(Str(russian(html).value.1))))
    ensures english(html).None? && russian(html).None? ==> r == Page([], None, None)
    ensures english(html).Some? && russian(html).None? ==>
      r == Page([], Some(FromText(english(html).value.0)), Some(IntCast(Str(english(html).value.1))))
  {
    var en := english(html);
    if en.Some? && !FloatTextZero(en.value.0) then
      Page([], Some(FromText(en.value.0)), Some(IntCast(Str(en.value.1))))
    else
      match russian(html)
      case Some(ru) => Page([], Some(FromText(ReplaceChar(ru.0, ',', '.'))), Some(IntCast(Str(ru.1))))
      case None =>
        if en.Some? then Page([], Some(FromText(en.value.0)), Some(IntCast(Str(en.value.1))))
        else Page([], None, None)
  }

  /** `parseMetaFallback`: two pattern tries, the second only while no non-zero rating is known. */
  method ParseMetaFallback(html: string, english: Pattern, russian: Pattern) returns (p: Page)
    ensures p == MetaPage(html, english, russian)
  {
    var ratingText: Option<string> := None;
    var total: Option<int> := None;
    var en := english(html);
    if en.Some? {
      ratingText := Some(en.value.0);
      total := Some(IntCast(Str(en.value.1)));
    }
    if ratingText.None? || FloatTextZero(ratingText.value) {
      var ru := russian(html);
      if ru.Some? {
        ratingText := Some(ReplaceChar(ru.value.0, ',', '.'));
        total := Some(IntCast(Str(ru.value.1)));
      }
    }
    var rating: Option<Rating> := if ratingText.Some? then Some(FromText(ratingText.value)) else None;
    return Page([], rating, total);
  }

  // ---------------------------------------------------------------------------------------------
  // getReviews

  /** The type error raised when the decoded config is neither an array nor null (`?array`). */
  function ConfigTypeError(v: Value): string {
    "extractEmbeddedJsonConfig(): Return value must be of type ?array, " + TypeName(v) + " returned"
  }

  /**
   * What the fetched page yields: the config's parse whenever the page holds a config that
   * decodes to a non-empty array, even one with no reviews; the meta fallback only otherwise.
   */
  function PageOf(html: string, blocks: seq<string>, decode: string -> Option<Value>, english: Pattern, russian: Pattern): (r: Result<Page>)
    ensures FirstConfig(blocks, decode).None? ==> r == Ok(MetaPage(html, english, russian))
    ensures FirstConfig(blocks, decode).Some? && FirstConfig(blocks, decode).value.Arr? && Truthy(FirstConfig(blocks, decode).value) ==>
      r == ConfigPage(FirstConfig(blocks, decode).value)
    ensures FirstConfig(blocks, decode).Some? && !FirstConfig(blocks, decode).value.Arr? && !FirstConfig(blocks, decode).value.Null? ==>
      r == Err(ConfigTypeError(FirstConfig(blocks, decode).value))
    ensures r.Ok? && r.value.reviews != [] ==> FirstConfig(blocks, decode).Some?
  {
    match FirstConfig(blocks, decode)
    case None => Ok(MetaPage(html, english, russian))
    case Some(v) =>
      if !v.Arr? && !v.Null? then Err(ConfigTypeError(v))
      else if Truthy(v) then ConfigPage(v)
      else Ok(MetaPage(html, english, russian))
  }

  /** An HTTP response: its status, its body and its `X-Guzzle-Redirect-History` header line. */
  datatype Response = Response(status: int, body: string, redirectHistory: string)

  /** `GET`: a response, or the message of the exception a connection failure raises. */
  type Http = string -> Result<Response>

  /** `$response->successful()`. */
  predicate Successful(status: int) {
    200 <= status < 300
  }

  const NoOrgIdMessage: string := "Could not extract organization ID from URL."

  function FetchFailedMessage(status: int): string {
    "Failed to fetch Yandex Maps page. Status: " + IntToString(status)
  }

  /**
   * What `getReviews($url)` returns or raises, with `http` the HTTP client and `scripts` the
   * contents of a page's `<script>` tags.
   */
  function ReviewsOf(url: string, http: Http, scripts: string -> seq<string>, decode: string -> Option<Value>,
                     english: Pattern, russian: Pattern): (r: Result<Page>)
    ensures http(url).Err? ==> r == Err(http(url).message)
    ensures http(url).Ok? ==>
      var resolved := ResolveUrl(url, http(url).value.redirectHistory);
      && (NoOrg(ExtractOrgId(resolved)) ==> r == Err(NoOrgIdMessage))
      && (!NoOrg(ExtractOrgId(resolved)) ==>
        var page := http(EnsureReviewsUrl(resolved));
        && (page.Err? ==> r == Err(page.message))
        && (page.Ok? && !Successful(page.value.status) ==> r == Err(FetchFailedMessage(page.value.status)))
        && (page.Ok? && Successful(page.value.status) ==>
              r == PageOf(page.value.body, scripts(page.value.body), decode, english, russian)))
  {
    match http(url)
    case Err(m) => Err(m)
    case Ok(first) =>
      var resolved := ResolveUrl(url, first.redirectHistory);
      if NoOrg(ExtractOrgId(resolved)) then Err(NoOrgIdMessage)
      else
        match http(EnsureReviewsUrl(resolved))
        case Err(m) => Err(m)
        case Ok(page) =>
          if !Successful(page.status) then Err(FetchFailedMessage(page.status))
          else PageOf(page.body, scripts(page.body), decode, english, russian)
  }

  /** `scrapeFromEmbeddedJson($url)`. */
  method ScrapeFromEmbeddedJson(url: string, http: Http, scripts: string -> seq<string>, decode: string -> Option<Value>,
                                english: Pattern, russian: Pattern) returns (r: Result<Page>)
    ensures http(EnsureReviewsUrl(url)).Err? ==> r == Err(http(EnsureReviewsUrl(url)).message)
    ensures http(EnsureReviewsUrl(url)).Ok? && !Successful(http(EnsureReviewsUrl(url)).value.status) ==>
      r == Err(FetchFailedMessage(http(EnsureReviewsUrl(url)).value.status))
    ensures http(EnsureReviewsUrl(url)).Ok? && Successful(http(EnsureReviewsUrl(url)).value.status) ==>
      var html := http(EnsureReviewsUrl(url)).value.body;
      r == PageOf(html, scripts(html), decode, english, russian)
  {
    var reviewsUrl := EnsureReviewsUrl(url);
    var response := http(reviewsUrl);
    if response.Err? {
      return Err(response.message);
    }
    if !Successful(response.value.status) {
      return Err(FetchFailedMessage(response.value.status));
    }
    var html := response.value.body;
    var data := ExtractEmbeddedJsonConfig(scripts(html), decode);
    if data.Some? && !data.value.Arr? && !data.value.Null? {
      return Err(ConfigTypeError(data.value));
    }
    if data.Some? && Truthy(data.value) {
      r := ParseEmbeddedConfig(data.value);
      return;
    }
    var page := ParseMetaFallback(html, english, russian);
    return Ok(page);
  }

  /** `getReviews($url)`: resolve, require an organisation id, scrape. */
  method GetReviews(url: string, http: Http, scripts: string -> seq<string>, decode: string -> Option<Value>,
                    english: Pattern, russian: Pattern) returns (r: Result<Page>)
    ensures r == ReviewsOf(url, http, scripts, decode, english, russian)
  {
    var response := http(url);
    if response.Err? {
      return Err(response.message);
    }
    var resolved := ResolveUrl(url, response.value.redirectHistory);
    var orgId := ExtractOrgId(resolved);
    if NoOrg(orgId) {
      return Err(NoOrgIdMessage);
    }
    r := ScrapeFromEmbeddedJson(resolved, http, scripts, decode, english, russian);
  }
}
