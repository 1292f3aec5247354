/**
 * The `reviews:sync {user_id}` console command (`SyncReviews`): it opens the user's Yandex Maps
 * page in a headless browser, switches the review list to "newest first", harvests the
 * fetchReviews responses while scrolling, then replaces the user's stored reviews and records the
 * outcome in the user's setting, step by step, in `sync_status` and `sync_message`.
 *
 * The whole run is modelled at one instant `now`. The browser is an input (`Browser`), and the
 * JSON decoder, `md5` and `Carbon::parse` are parameters.
 */
module SyncReviews {
  import opened Wrappers
  import opened Text
  import opened Php
  import opened OrgId
  import opened RawReview
  import opened ReviewStore
  import opened SyncHarvest
  import opened SyncScroll

  // ---------------------------------------------------------------------------------------------
  // The navigation URL

  /**
   * The URL the browser opens: the configured URL with its trailing slashes replaced by one, and
   * `reviews/` appended when `/reviews/` does not occur in it.
   */
  function NavUrl(url: string): string {
    var first := RTrimChar(url, '/') + "/";
    if Contains(first, "/reviews/") then first else RTrimChar(first, '/') + "/reviews/"
  }

  /** A string that ends in exactly one slash. */
  predicate OneTrailingSlash(s: string) {
    |s| >= 2 && s[|s| - 1] == '/' && s[|s| - 2] != '/'
  }

  /** Trimming the slashes of a string that ends in exactly one takes off that one. */
  lemma RTrimOneSlash(s: string)
    requires OneTrailingSlash(s)
    ensures RTrimChar(s, '/') == s[..|s| - 1]
  {
    var init := s[..|s| - 1];
    assert RTrimChar(s, '/') == RTrimChar(init, '/');
    assert init[|init| - 1] != '/';
  }

  lemma SuffixContains(s: string, t: string)
    ensures Contains(s + t, t)
  {
    assert PrefixAt(s + t, |s|, t) by {
      assert (s + t)[|s|..|s| + |t|] == t;
    }
  }

  /**
   * The navigation URL always contains `/reviews/` and ends in exactly one slash, and
   * normalising it again changes nothing.
   */
  lemma NavUrlShape(url: string)
    ensures Contains(NavUrl(url), "/reviews/")
    ensures OneTrailingSlash(NavUrl(url))
    ensures NavUrl(NavUrl(url)) == NavUrl(url)
  {
    var trimmed := RTrimChar(url, '/');
    var first := trimmed + "/";
    var r := NavUrl(url);
    if Contains(first, "/reviews/") {
      var p: nat :| p <= |first| && PrefixAt(first, p, "/reviews/");
      assert |trimmed| > 0;
      assert first[|first| - 2] == trimmed[|trimmed| - 1];
    } else {
      SuffixContains(RTrimChar(first, '/'), "/reviews/");
    }
    RTrimOneSlash(r);
    assert RTrimChar(r, '/') + "/" == r;
  }

  // ---------------------------------------------------------------------------------------------
  // Storing the reviews

  /**
   * What `Carbon::parse` makes of a date value: an instant, an exception with a message (an
   * unparsable string), or a `TypeError` (a value it does not accept), which the command's
   * `catch (\Exception $e)` does not catch.
   */
  datatype DateParse = Parsed(at: Instant) | Invalid(message: string) | TypeFault

  type DateParser = Value -> DateParse

  /** What the loop body does with one raw record: a row write, an exception, or a crash. */
  datatype Write = Write(key: ReviewKey, row: Row) | Throws(message: string) | Crashes

  /**
   * Whether a column value of the record is an array. Binding one to the insert raises PHP's
   * "Array to string conversion", which Laravel's error handler turns into an exception.
   */
  predicate ArrayColumn(raw: Value) {
    Author(raw).Arr? || TextOf(raw).Arr? || (Branch(raw).Some? && Branch(raw).value.Arr?)
  }

  /** Whether the date column is computed without an exception: it is falsy or it parses. */
  predicate DateParses(raw: Value, parse: DateParser) {
    DateOf(raw).None? || !Truthy(DateOf(raw).value) || parse(DateOf(raw).value).Parsed?
  }

  /** The query that saves the row under `key`, its columns computed. */
  function Save(key: ReviewKey, raw: Value, at: Option<Instant>): Write {
    if ArrayColumn(raw) then Throws(ArrayToString)
    else Write(key, Row(Author(raw), Stars(raw), TextOf(raw), Branch(raw), None, at))
  }

  /**
   * The `updateOrCreate` call for one raw record. The id expression is evaluated first, then
   * the column values (the date is parsed only when it is truthy), then the query binds them.
   */
  function WriteOf(user: UserId, raw: Value, md5: string -> string, parse: DateParser): (w: Write)
    ensures w.Write? ==> w.key.user == user && w.row.phone.None?
    ensures ExternalId(raw, md5).Err? ==> w == Throws(ArrayToString)
    ensures w.Write? <==> ExternalId(raw, md5).Ok? && DateParses(raw, parse) && !ArrayColumn(raw)
    ensures ExternalId(raw, md5).Ok? && DateParses(raw, parse) && ArrayColumn(raw) ==> w == Throws(ArrayToString)
    ensures w.Write? ==> w.key.yandexId == StringCast(ExternalId(raw, md5).value)
    ensures w.Write? ==> w.row.author == Author(raw) && w.row.rating == Stars(raw)
    ensures w.Write? ==> w.row.text == TextOf(raw) && w.row.branch == Branch(raw)
    ensures w.Write? ==> (w.row.reviewedAt.None? <==> DateOf(raw).None? || !Truthy(DateOf(raw).value))
    ensures w.Crashes? <==> ExternalId(raw, md5).Ok? && DateOf(raw).Some? && Truthy(DateOf(raw).value) && parse(DateOf(raw).value).TypeFault?
  {
    match ExternalId(raw, md5)
    case Err(m) => Throws(m)
    case Ok(id) =>
      var key := ReviewKey(user, StringCast(id));
      var date := DateOf(raw);
      if date.Some? && Truthy(date.value) then
        match parse(date.value)
        case Parsed(at) => Save(key, raw, Some(at))
        case Invalid(m) => Throws(m)
        case TypeFault => Crashes
      else Save(key, raw, None)
  }

  /** How a part of the run ends: normally, with an exception the command catches, or not. */
  datatype Outcome = Done | Raised(message: string) | Crashed

  /** The writes `storeReviews` performs for `raws`, and how it ends. */
  datatype Plan = Plan(writes: seq<(ReviewKey, Row)>, outcome: Outcome)

  /** The loop body's effect for each record, in order. */
  function WritesOf(user: UserId, raws: seq<Value>, md5: string -> string, parse: DateParser): (ws: seq<Write>)
    ensures |ws| == |raws|
    ensures forall j :: 0 <= j < |raws| ==> ws[j] == WriteOf(user, raws[j], md5, parse)
  {
    seq(|raws|, j requires 0 <= j < |raws| => WriteOf(user, raws[j], md5, parse))
  }

  /** The row writes of `ws` up to the first that throws or crashes, and how the loop ends. */
  function PlanOf(ws: seq<Write>): Plan
    decreases |ws|
  {
    if ws == [] then Plan([], Done)
    else
      var p := PlanOf(ws[..|ws| - 1]);
      if !p.outcome.Done? then p
      else
        match ws[|ws| - 1]
        case Write(k, row) => Plan(p.writes + [(k, row)], Done)
        case Throws(m) => Plan(p.writes, Raised(m))
        case Crashes => Plan(p.writes, Crashed)
  }

  /** What `storeReviews` does with the records `raws`. */
  function Planned(user: UserId, raws: seq<Value>, md5: string -> string, parse: DateParser): Plan {
    PlanOf(WritesOf(user, raws, md5, parse))
  }

  /**
   * The loop writes the records in order: every record before the first failing one gives its
   * row, the loop ends with that record's failure, or normally after all of them.
   */
  lemma {:induction false} PlanInOrder(ws: seq<Write>)
    ensures var p := PlanOf(ws);
      && |p.writes| <= |ws|
      && (p.outcome.Done? <==> |p.writes| == |ws|)
      && (forall j :: 0 <= j < |p.writes| ==> ws[j] == Write(p.writes[j].0, p.writes[j].1))
      && (p.outcome.Raised? ==> |p.writes| < |ws| && ws[|p.writes|] == Throws(p.outcome.message))
      && (p.outcome.Crashed? ==> |p.writes| < |ws| && ws[|p.writes|] == Crashes)
    decreases |ws|
  {
    if ws != [] {
      var init := ws[..|ws| - 1];
      PlanInOrder(init);
      var p := PlanOf(init);
      forall j | 0 <= j < |p.writes| ensures ws[j] == init[j] { }
      if !p.outcome.Done? {
        assert ws[|p.writes|] == init[|p.writes|];
      }
    }
  }

  /** The plan of `raws` writes the records' rows in order, up to the first failing record. */
  lemma PlannedWritesInOrder(user: UserId, raws: seq<Value>, md5: string -> string, parse: DateParser)
    ensures var p := Planned(user, raws, md5, parse);
      && |p.writes| <= |raws|
      && (p.outcome.Done? <==> |p.writes| == |raws|)
      && (forall j :: 0 <= j < |p.writes| ==> WriteOf(user, raws[j], md5, parse) == Write(p.writes[j].0, p.writes[j].1))
      && (p.outcome.Raised? ==> |p.writes| < |raws| && WriteOf(user, raws[|p.writes|], md5, parse) == Throws(p.outcome.message))
      && (p.outcome.Crashed? ==> |p.writes| < |raws| && WriteOf(user, raws[|p.writes|], md5, parse) == Crashes)
  {
    PlanInOrder(WritesOf(user, raws, md5, parse));
  }

  /**
   * A record with an array among its column values stores nothing: the run raises "Array to
   * string conversion" at it, after the rows of the records before it.
   */
  lemma ArrayColumnRaises(user: UserId, before: seq<Value>, raw: Value, md5: string -> string, parse: DateParser)
    requires forall j :: 0 <= j < |before| ==> WriteOf(user, before[j], md5, parse).Write?
    requires ExternalId(raw, md5).Ok? && DateParses(raw, parse) && ArrayColumn(raw)
    ensures Planned(user, before + [raw], md5, parse).outcome == Raised(ArrayToString)
    ensures Planned(user, before + [raw], md5, parse).writes == Planned(user, before, md5, parse).writes
  {
    var ws := WritesOf(user, before + [raw], md5, parse);
    assert ws[..|ws| - 1] == WritesOf(user, before, md5, parse);
    PlannedWritesInOrder(user, before, md5, parse);
  }

  /** `{"reviewId": "1", "author": {"name": ["x"]}}` is not stored, and the run raises. */
  lemma ArrayAuthorRaises(user: UserId, md5: string -> string, parse: DateParser)
    ensures var raw := Arr([Entry(StrKey("reviewId"), Str("1")),
                            Entry(StrKey("author"), Arr([Entry(StrKey("name"), Arr([Entry(IntKey(0), Str("x"))]))]))]);
      Planned(user, [raw], md5, parse) == Plan([], Raised(ArrayToString))
  {
    var name := Arr([Entry(IntKey(0), Str("x"))]);
    var author := Arr([Entry(StrKey("name"), name)]);
    var raw := Arr([Entry(StrKey("reviewId"), Str("1")), Entry(StrKey("author"), author)]);
    assert Field(raw, "reviewId") == Some(Str("1"));
    assert Field(raw, "updatedTime").None? && Field(raw, "date").None?;
    assert Field(raw, "author") == Some(author) && Field(author, "name") == Some(name);
    assert Author(raw) == name;
    assert [] + [raw] == [raw];
    ArrayColumnRaises(user, [], raw, md5, parse);
  }

  /** Every write of the plan is a row of `user`. */
  lemma PlannedForUser(user: UserId, raws: seq<Value>, md5: string -> string, parse: DateParser)
    ensures forall j :: 0 <= j < |Planned(user, raws, md5, parse).writes| ==> Planned(user, raws, md5, parse).writes[j].0.user == user
  {
    PlannedWritesInOrder(user, raws, md5, parse);
  }

  /** Once the plan of a prefix has failed, the writes after it change nothing. */
  lemma {:induction false} PlanStops(ws: seq<Write>, i: nat)
    requires i <= |ws|
    requires !PlanOf(ws[..i]).outcome.Done?
    ensures PlanOf(ws) == PlanOf(ws[..i])
    decreases |ws| - i
  {
    if i < |ws| {
      assert ws[..i + 1][..i] == ws[..i];
      PlanStops(ws, i + 1);
    } else {
      assert ws[..i] == ws;
    }
  }

  /** One more record on a plan that has not failed yet. */
  lemma PlanStep(ws: seq<Write>, i: nat)
    requires i < |ws| && PlanOf(ws[..i]).outcome.Done?
    ensures PlanOf(ws[..i + 1]) == match ws[i]
      case Write(k, row) => Plan(PlanOf(ws[..i]).writes + [(k, row)], Done)
      case Throws(m) => Plan(PlanOf(ws[..i]).writes, Raised(m))
      case Crashes => Plan(PlanOf(ws[..i]).writes, Crashed)
  {
    assert ws[..i + 1][..i] == ws[..i];
  }

  /**
   * `storeReviews($userId, $rawReviews)`: one `updateOrCreate` per record, in order, counting the
   * rows created. An exception or a crash ends it with the earlier writes done.
   */
  method StoreReviews(db: Database, user: UserId, raws: seq<Value>, md5: string -> string, parse: DateParser)
    returns (stored: nat, outcome: Outcome)
    modifies db`reviews
    ensures db.reviews == Apply(old(db.reviews), Planned(user, raws, md5, parse).writes)
    ensures stored == CreatedCount(old(db.reviews), Planned(user, raws, md5, parse).writes)
    ensures outcome == Planned(user, raws, md5, parse).outcome
  {
    stored, outcome := PerformWrites(db, WritesOf(user, raws, md5, parse));
  }

  /** The loop of `storeReviews` over the records' effects `ws`, in order. */
  method PerformWrites(db: Database, ws: seq<Write>) returns (stored: nat, outcome: Outcome)
    modifies db`reviews
    ensures db.reviews == Apply(old(db.reviews), PlanOf(ws).writes)
    ensures stored == CreatedCount(old(db.reviews), PlanOf(ws).writes)
    ensures outcome == PlanOf(ws).outcome
  {
    ghost var rows := db.reviews;
    ghost var done: seq<(ReviewKey, Row)> := [];
    stored := 0;
    var i := 0;
    while i < |ws|
      invariant 0 <= i <= |ws|
      invariant PlanOf(ws[..i]) == Plan(done, Done)
      invariant db.reviews == Apply(rows, done)
      invariant stored == CreatedCount(rows, done)
    {
      PlanStep(ws, i);
      var w := ws[i];
      if w.Throws? {
        PlanStops(ws, i + 1);
        return stored, Raised(w.message);
      } else if w.Crashes? {
        PlanStops(ws, i + 1);
        return stored, Crashed;
      }
      ApplySnoc(rows, done, (w.key, w.row));
      var created := db.UpdateOrCreate(w.key, w.row);
      if created {
        stored := stored + 1;
      }
      done := done + [(w.key, w.row)];
      i := i + 1;
    }
    assert ws[..i] == ws;
    outcome := Done;
  }

  /**
   * After the user's rows were deleted, the rows created by the store are exactly the user's
   * rows: the completion message's count equals the count the store returns.
   */
  lemma StoredIsUserCount(rows: map<ReviewKey, Row>, user: UserId, ws: seq<(ReviewKey, Row)>)
    requires forall j :: 0 <= j < |ws| ==> ws[j].0.user == user
    ensures CreatedCount(WithoutUser(rows, user), ws) == |UserKeys(Apply(WithoutUser(rows, user), ws), user)|
  {
    var base := WithoutUser(rows, user);
    CreatedCountIsNewKeys(base, ws);
    ApplyKeepsOtherUsers(base, ws, user);
    var after := Apply(base, ws);
    assert after.Keys - base.Keys == UserKeys(after, user);
  }

  // ---------------------------------------------------------------------------------------------
  // Fetching the reviews in the browser

  /**
   * What the browser does on the page it opens. `fault` is the message of an exception it raises
   * before the capture check (launching, navigating or evaluating a script); `ratingJson` is what
   * the rating script returns (`None` for null or an exception, which the command swallows).
   * `atCheck` are the fetchReviews request ids captured when the command checks for a capture,
   * `beforeHarvest` those captured after that and before the first harvest, `beforeLoop` those
   * captured before the first scroll, and `ticks` what each scroll iteration sees.
   */
  datatype Browser = Browser(
    fault: Option<string>,
    ratingJson: Option<string>,
    atCheck: seq<string>,
    beforeHarvest: seq<string>,
    beforeLoop: seq<string>,
    ticks: seq<Tick>)

  /** The rating and total the rating script's JSON gives; `None` is null. */
  datatype RatingData = RatingData(rating: Option<Rating>, total: Option<Value>)

  /**
   * `isset($ratingData['ratingValue']) ? round((float) …, 1) : null` and
   * `$ratingData['reviewCount'] ?? $ratingData['ratingCount'] ?? null`, both null when the script
   * returned nothing truthy.
   */
  function RatingOf(json: Option<string>, decode: Decoder): (r: RatingData)
    ensures json.None? || !Truthy(Str(json.value)) ==> r == RatingData(None, None)
    ensures json.Some? && Truthy(Str(json.value)) ==>
      var data := decode(json.value).GetOr(Null);
      && (r.rating.Some? <==> Field(data, "ratingValue").Some?)
      && (r.rating.Some? ==> r.rating.value == Rounded(Field(data, "ratingValue").value))
      && (Field(data, "reviewCount").Some? ==> r.total == Field(data, "reviewCount"))
      && (Field(data, "reviewCount").None? ==> r.total == Field(data, "ratingCount"))
  {
    if json.None? || !Truthy(Str(json.value)) then RatingData(None, None)
    else
      var data := decode(json.value).GetOr(Null);
      var rating := match Field(data, "ratingValue") case Some(v) => Some(Rounded(v)) case None => None;
      RatingData(rating, OrElse(Field(data, "reviewCount"), Field(data, "ratingCount")))
  }

  /** `$totalReviews ? (int) $totalReviews : null`: an absent or falsy total is null. */
  function TotalOf(total: Option<Value>): (r: Option<int>)
    ensures r.None? <==> total.None? || !Truthy(total.value)
    ensures r.Some? ==> r.value == IntCast(total.value)
    ensures total.Some? && total.value.Int? ==> r != Some(0)
  {
    if total.Some? && Truthy(total.value) then Some(IntCast(total.value)) else None
  }

  /** What `fetchAllReviewsViaChrome` returns, or how it ends without returning. */
  datatype Fetch =
    | Fetched(reviews: seq<Entry>, rating: Option<Rating>, total: Option<int>)
    | NotCaptured
    | Aborted(how: Outcome)

  /** The ids the first harvest reads: those captured by the time it runs. */
  function FirstIds(b: Browser): seq<string> {
    b.atCheck + b.beforeHarvest
  }

  /** The loop's starting state after a first harvest of `first`. */
  function StartScan(b: Browser, first: seq<Entry>): Scan {
    Scan(b.atCheck + b.beforeHarvest + b.beforeLoop, ArrayMerge([], first), 0, 0, 0, None)
  }

  /** The course of `fetchAllReviewsViaChrome` in browser session `b`. */
  function FetchOf(b: Browser, body: Bodies, decode: Decoder): (r: Fetch)
    ensures r.Aborted? ==> !r.how.Done?
    ensures b.fault.Some? ==> r == Aborted(Raised(b.fault.value))
    ensures r.NotCaptured? <==> b.fault.None? && b.atCheck == []
    ensures r.Fetched? ==> b.fault.None? && b.atCheck != []
    ensures r.Fetched? ==> r.rating == RatingOf(b.ratingJson, decode).rating && r.total == TotalOf(RatingOf(b.ratingJson, decode).total)
  {
    if b.fault.Some? then Aborted(Raised(b.fault.value))
    else if b.atCheck == [] then NotCaptured
    else
      match HarvestFrom([], 0, FirstIds(b), body, decode)
      case Fatal => Aborted(Crashed)
      case Reviews(first) =>
        var e := Run(StartScan(b, first), b.ticks, body, decode);
        if e.aborted then Aborted(Crashed)
        else
          var data := RatingOf(b.ratingJson, decode);
          Fetched(e.scan.all, data.rating, TotalOf(data.total))
  }

  /**
   * When every body holds a review list, the fetch returns the reviews of the first harvest
   * followed by each scroll iteration's harvest, in order.
   */
  lemma FetchGathers(b: Browser, body: Bodies, decode: Decoder)
    requires b.fault.None? && b.atCheck != []
    requires ListBodies(body, decode)
    ensures HarvestFrom([], 0, FirstIds(b), body, decode).Reviews?
    ensures FetchOf(b, body, decode).Fetched?
    ensures var e := Run(StartScan(b, HarvestFrom([], 0, FirstIds(b), body, decode).entries), b.ticks, body, decode);
      && e.scan.iterations <= MaxScrollAttempts
      && Values(FetchOf(b, body, decode).reviews)
         == Collected(0, FirstIds(b), body, decode) + Gathered(b.ticks, 0, e.scan.iterations, body, decode)
  {
    ListBodiesReplies(0, FirstIds(b), body, decode);
    HarvestOfLists([], 0, FirstIds(b), body, decode);
    var first := HarvestFrom([], 0, FirstIds(b), body, decode).entries;
    assert Values(first) == Collected(0, FirstIds(b), body, decode) by {
      assert Values([]) + Collected(0, FirstIds(b), body, decode) == Collected(0, FirstIds(b), body, decode);
    }
    ArrayMergeLists([], first);
    assert Values(ArrayMerge([], first)) == Values(first) by {
      assert Values([]) + Values(first) == Values(first);
    }
    var start := StartScan(b, first);
    RunAppends(start, b.ticks, body, decode);
    RunLength(start, b.ticks, body, decode);
  }

  const OpeningMessage: string := "Открываю Yandex Maps..."
  const LoadingPageMessage: string := "Загружаю страницу..."
  const SortingMessage: string := "Переключаю сортировку..."
  const LoadingMessage: string := "Загружаю отзывы..."

  /**
   * `fetchAllReviewsViaChrome($setting, $orgId)` on the browser session `b`, writing its progress
   * messages to the user's setting. The organisation id is passed in but not used.
   */
  method FetchAllReviewsViaChrome(db: Database, user: UserId, now: Instant, b: Browser, body: Bodies, decode: Decoder)
    returns (r: Fetch)
    requires user in db.settings && db.settings[user].syncMessage == Some(OpeningMessage)
    modifies db`settings
    ensures r == FetchOf(b, body, decode)
    ensures user in db.settings && db.settings == old(db.settings)[user := db.settings[user]]
    ensures db.settings[user] ==
      old(db.settings)[user].(syncMessage := db.settings[user].syncMessage, updatedAt := db.settings[user].updatedAt)
    ensures b.fault.None? ==> db.settings[user].updatedAt == Some(now)
    ensures r.NotCaptured? ==> db.settings[user].syncMessage == Some(SortingMessage)
    ensures r.Fetched? ==>
      db.settings[user].syncMessage == Some(LoadingMessage) || db.settings[user].syncMessage == Some(LoadedMessage(|r.reviews|))
  {
    if b.fault.Some? {
      return Aborted(Raised(b.fault.value));
    }
    db.UpdateSetting(user, db.settings[user].(syncMessage := Some(LoadingPageMessage)), now);
    var data := RatingOf(b.ratingJson, decode);
    db.UpdateSetting(user, db.settings[user].(syncMessage := Some(SortingMessage)), now);
    if b.atCheck == [] {
      return NotCaptured;
    }
    db.UpdateSetting(user, db.settings[user].(syncMessage := Some(LoadingMessage)), now);
    var first := GetResponseReviews(0, b.atCheck + b.beforeHarvest, body, decode);
    if first.Fatal? {
      return Aborted(Crashed);
    }
    var start := Scan(b.atCheck + b.beforeHarvest + b.beforeLoop, ArrayMerge([], first.entries), 0, 0, 0, None);
    var e := ScrollLoop(db, user, now, start, b.ticks, body, decode);
    if e.aborted {
      return Aborted(Crashed);
    }
    RunReportsCount(start, b.ticks, body, decode);
    r := Fetched(e.scan.all, data.rating, TotalOf(data.total));
  }

  // ---------------------------------------------------------------------------------------------
  // The command

  const NoOrgMessage: string := "Не удалось определить ID организации"
  const NotLoadedMessage: string := "Не удалось загрузить отзывы"

  /** `'Ошибка: ' . mb_substr($e->getMessage(), 0, 100)`. */
  function ErrorMessage(message: string): (r: string)
    ensures |r| <= |"Ошибка: "| + 100
    ensures StartsWith(r, "Ошибка: ")
  {
    "Ошибка: " + MbTake(message, 100)
  }

  /** `"Синхронизировано {$totalInDb} отзывов"`. */
  function SyncedMessage(n: nat): string {
    "Синхронизировано " + NatToString(n) + " отзывов"
  }

  /** How the command ends: with an exit status, or killed by an uncaught error. */
  datatype Exit = Code(status: int) | Uncaught

  /** The store's plan for a fetch: the writes of its reviews, or none when it returned none. */
  function PlanFor(user: UserId, f: Fetch, md5: string -> string, parse: DateParser): Plan {
    if f.Fetched? then Planned(user, Values(f.reviews), md5, parse) else Plan([], Done)
  }

  /**
   * How a run that passed the URL check leaves the user's setting `s` (from `s0`) and the review
   * table `rows` (from `rows0`), given the organisation id found, the fetch's course and the
   * store's plan. Every path saves the setting at `now`, and the status, message and exit status
   * follow the first failure.
   */
  ghost predicate Concluded(s0: Setting, rows0: map<ReviewKey, Row>, s: Setting, rows: map<ReviewKey, Row>,
                            user: UserId, now: Instant, org: Option<string>, f: Fetch, p: Plan, exit: Exit)
  {
    && s.yandexUrl == s0.yandexUrl && s.updatedAt == Some(now)
    && (NoOrg(org) ==> exit == Code(1) && s.syncStatus == Some(Failed) && s.syncMessage == Some(NoOrgMessage))
    && (!NoOrg(org) && f.NotCaptured? ==>
          exit == Code(1) && s.syncStatus == Some(Failed) && s.syncMessage == Some(NotLoadedMessage))
    && (!NoOrg(org) && f.Aborted? && f.how.Raised? ==>
          exit == Code(1) && s.syncStatus == Some(Failed) && s.syncMessage == Some(ErrorMessage(f.how.message)))
    && (!NoOrg(org) && f.Aborted? && f.how.Crashed? ==> exit == Uncaught && s.syncStatus == Some(Running))
    && (NoOrg(org) || !f.Fetched? ==>
          && rows == rows0
          && s.rating == s0.rating && s.totalReviews == s0.totalReviews && s.lastSyncedAt == s0.lastSyncedAt)
    && (!NoOrg(org) && f.Fetched? ==>
          && rows == Apply(WithoutUser(rows0, user), p.writes)
          && (f.rating.Some? ==> s.rating == f.rating && s.totalReviews == f.total)
          && (f.rating.None? ==> s.rating == s0.rating && s.totalReviews == s0.totalReviews)
          && (p.outcome.Done? ==>
                && exit == Code(0) && s.syncStatus == Some(Completed) && s.lastSyncedAt == Some(now)
                && s.syncMessage == Some(SyncedMessage(|UserKeys(rows, user)|)))
          && (p.outcome.Raised? ==>
                exit == Code(1) && s.syncStatus == Some(Failed) && s.syncMessage == Some(ErrorMessage(p.outcome.message)))
          && (p.outcome.Crashed? ==> exit == Uncaught && s.syncStatus == Some(Running))
          && (!p.outcome.Done? ==> s.lastSyncedAt == s0.lastSyncedAt))
  }

  /** On a fetch that returned reviews, `Concluded` is its last conjunct's case. */
  lemma ConcludedOfFetched(s0: Setting, rows0: map<ReviewKey, Row>, s: Setting, rows: map<ReviewKey, Row>,
                           user: UserId, now: Instant, org: Option<string>, f: Fetch, p: Plan, exit: Exit)
    requires !NoOrg(org) && f.Fetched?
    requires s.yandexUrl == s0.yandexUrl && s.updatedAt == Some(now)
    requires rows == Apply(WithoutUser(rows0, user), p.writes)
    requires f.rating.Some? ==> s.rating == f.rating && s.totalReviews == f.total
    requires f.rating.None? ==> s.rating == s0.rating && s.totalReviews == s0.totalReviews
    requires p.outcome.Done? ==>
      && exit == Code(0) && s.syncStatus == Some(Completed) && s.lastSyncedAt == Some(now)
      && s.syncMessage == Some(SyncedMessage(|UserKeys(rows, user)|))
    requires p.outcome.Raised? ==>
      exit == Code(1) && s.syncStatus == Some(Failed) && s.syncMessage == Some(ErrorMessage(p.outcome.message))
    requires p.outcome.Crashed? ==> exit == Uncaught && s.syncStatus == Some(Running)
    requires !p.outcome.Done? ==> s.lastSyncedAt == s0.lastSyncedAt
    ensures Concluded(s0, rows0, s, rows, user, now, org, f, p, exit)
  {
  }

  /**
   * The part of `handle` after a fetch returned reviews: the rating (and the total with it) is
   * written only when it is not null, the user's reviews are deleted and the fetched ones stored,
   * and the run completes with the number of the user's rows.
   */
  method Replace(db: Database, user: UserId, now: Instant, ghost s0: Setting, ghost org: Option<string>, f: Fetch,
                 md5: string -> string, parse: DateParser)
    returns (exit: Exit)
    requires f.Fetched? && !NoOrg(org)
    requires user in db.settings && db.settings[user].updatedAt == Some(now)
    requires db.settings[user].syncStatus == Some(Running) && db.settings[user].yandexUrl == s0.yandexUrl
    requires db.settings[user].lastSyncedAt == s0.lastSyncedAt
    requires db.settings[user].rating == s0.rating && db.settings[user].totalReviews == s0.totalReviews
    modifies db`settings, db`reviews
    ensures user in db.settings && db.settings == old(db.settings)[user := db.settings[user]]
    ensures Concluded(s0, old(db.reviews), db.settings[user], db.reviews, user, now, org, f, PlanFor(user, f, md5, parse), exit)
  {
    if f.rating.Some? {
      db.UpdateSetting(user, db.settings[user].(rating := f.rating, totalReviews := f.total), now);
    }
    db.DeleteReviewsOf(user);
    var stored, outcome := StoreReviews(db, user, Values(f.reviews), md5, parse);
    ghost var p := PlanFor(user, f, md5, parse);
    assert p.outcome == outcome && db.reviews == Apply(WithoutUser(old(db.reviews), user), p.writes);
    match outcome {
      case Raised(m) =>
        db.UpdateSetting(user, db.settings[user].(syncStatus := Some(Failed), syncMessage := Some(ErrorMessage(m))), now);
        exit := Code(1);
      case Crashed =>
        exit := Uncaught;
      case Done =>
        var total := db.ReviewCount(user);
        db.UpdateSetting(user, db.settings[user].(lastSyncedAt := Some(now), syncStatus := Some(Completed),
                                                  syncMessage := Some(SyncedMessage(total))), now);
        exit := Code(0);
    }
    ConcludedOfFetched(s0, old(db.reviews), db.settings[user], db.reviews, user, now, org, f, p, exit);
  }

  /** `$setting->update(['sync_status' => 'failed', 'sync_message' => $message])` on a running row. */
  method Fail(db: Database, user: UserId, now: Instant, message: string)
    requires user in db.settings && db.settings[user].syncStatus == Some(Running)
    modifies db`settings
    ensures db.settings == old(db.settings)[user := old(db.settings)[user].(syncStatus := Some(Failed), syncMessage := Some(message), updatedAt := Some(now))]
  {
    db.UpdateSetting(user, db.settings[user].(syncStatus := Some(Failed), syncMessage := Some(message)), now);
  }

  /** `handle` from the extraction of the organisation id on, the row being marked running. */
  method Conclude(db: Database, user: UserId, now: Instant, url: string, session: string -> Browser, body: Bodies,
                  decode: Decoder, md5: string -> string, parse: DateParser)
    returns (exit: Exit)
    requires user in db.settings && db.settings[user].yandexUrl == Some(url)
    requires db.settings[user].syncStatus == Some(Running) && db.settings[user].syncMessage == Some(OpeningMessage)
    modifies db`settings, db`reviews
    ensures user in db.settings && db.settings == old(db.settings)[user := db.settings[user]]
    ensures var f := FetchOf(session(NavUrl(url)), body, decode);
      Concluded(old(db.settings)[user], old(db.reviews), db.settings[user], db.reviews, user, now,
                ExtractOrgId(url), f, PlanFor(user, f, md5, parse), exit)
  {
    ghost var s0 := db.settings[user];
    var org := ExtractOrgId(url);
    if NoOrg(org) {
      Fail(db, user, now, NoOrgMessage);
      return Code(1);
    }
    var f := FetchAllReviewsViaChrome(db, user, now, session(NavUrl(url)), body, decode);
    exit := ConcludeFetch(db, user, now, s0, org, f, md5, parse);
  }

  /** `handle` once `fetchAllReviewsViaChrome` returned or raised `f`. */
  method ConcludeFetch(db: Database, user: UserId, now: Instant, ghost s0: Setting, ghost org: Option<string>, f: Fetch,
                       md5: string -> string, parse: DateParser)
    returns (exit: Exit)
    requires !NoOrg(org) && (f.Aborted? ==> !f.how.Done?)
    requires user in db.settings && db.settings[user].syncStatus == Some(Running)
    requires db.settings[user].yandexUrl == s0.yandexUrl && db.settings[user].lastSyncedAt == s0.lastSyncedAt
    requires db.settings[user].rating == s0.rating && db.settings[user].totalReviews == s0.totalReviews
    requires !(f.Aborted? && f.how.Raised?) ==> db.settings[user].updatedAt == Some(now)
    modifies db`settings, db`reviews
    ensures user in db.settings && db.settings == old(db.settings)[user := db.settings[user]]
    ensures Concluded(s0, old(db.reviews), db.settings[user], db.reviews, user, now, org, f, PlanFor(user, f, md5, parse), exit)
  {
    match f
    case NotCaptured =>
      Fail(db, user, now, NotLoadedMessage);
      exit := Code(1);
    case Aborted(how) =>
      if how.Raised? {
        Fail(db, user, now, ErrorMessage(how.message));
        exit := Code(1);
      } else {
        exit := Uncaught;
      }
    case Fetched(_, _, _) =>
      exit := Replace(db, user, now, s0, org, f, md5, parse);
  }

  /**
   * `reviews:sync {user_id}` for `user` at `now`; `session(u)` is what the browser does when it
   * opens `u`. Without a configured URL nothing changes. Otherwise the run is marked running and
   * concludes as `Concluded` says.
   */
  method Handle(db: Database, user: UserId, now: Instant, session: string -> Browser, body: Bodies, decode: Decoder,
                md5: string -> string, parse: DateParser)
    returns (exit: Exit)
    modifies db`settings, db`reviews
    ensures !(user in old(db.settings) && HasUrl(old(db.settings)[user])) ==>
      exit == Code(1) && db.settings == old(db.settings) && db.reviews == old(db.reviews)
    ensures user in old(db.settings) && HasUrl(old(db.settings)[user]) ==>
      && user in db.settings && db.settings == old(db.settings)[user := db.settings[user]]
      && var url := old(db.settings)[user].yandexUrl.value;
         var f := FetchOf(session(NavUrl(url)), body, decode);
         Concluded(old(db.settings)[user], old(db.reviews), db.settings[user], db.reviews, user, now,
                   ExtractOrgId(url), f, PlanFor(user, f, md5, parse), exit)
  {
    if !(user in db.settings && HasUrl(db.settings[user])) {
      return Code(1);
    }
    var url := db.settings[user].yandexUrl.value;
    db.UpdateSetting(user, db.settings[user].(syncStatus := Some(Running), syncMessage := Some(OpeningMessage)), now);
    exit := Conclude(db, user, now, url, session, body, decode, md5, parse);
  }
}
