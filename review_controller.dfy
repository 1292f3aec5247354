/**
 * The review API (`ReviewController`): the review listing with its page-size clamp, the request to
 * start a sync, which refuses while one is pending or running, and the status poll, which gives up
 * on a sync that has been pending or running for more than ten minutes.
 *
 * The user is the authenticated one; `getByUser` is the user's `settings` row, if any.
 */
module ReviewController {
  import opened Wrappers
  import opened Text
  import opened Php
  import opened ReviewStore

  const DefaultPerPage: int := 50
  const MinPerPage: int := 5
  const MaxPerPage: int := 50

  /** `min(max($perPage, 5), 50)`. */
  function ClampPerPage(n: int): (r: int)
    ensures MinPerPage <= r <= MaxPerPage
    ensures MinPerPage <= n <= MaxPerPage ==> r == n
    ensures n < MinPerPage ==> r == MinPerPage
    ensures n > MaxPerPage ==> r == MaxPerPage
  {
    var atLeast := if n < MinPerPage then MinPerPage else n;
    if atLeast > MaxPerPage then MaxPerPage else atLeast
  }

  /** Clamping a clamped size changes nothing, and larger requests never get smaller pages. */
  lemma ClampIdempotentMonotone(n: int, m: int)
    ensures ClampPerPage(ClampPerPage(n)) == ClampPerPage(n)
    ensures n <= m ==> ClampPerPage(n) <= ClampPerPage(m)
  {
  }

  /**
   * The page size of a listing: `(int) $request->input('per_page', 50)`, clamped. `input` is the
   * request parameter, `None` when it is absent.
   */
  function PerPage(input: Option<Value>): (r: int)
    ensures MinPerPage <= r <= MaxPerPage
    ensures input.None? ==> r == DefaultPerPage
    ensures input.Some? && input.value.Int? && MinPerPage <= input.value.i <= MaxPerPage ==> r == input.value.i
    ensures input.Some? && input.value.Null? ==> r == MinPerPage
  {
    ClampPerPage(IntCast(input.GetOr(Int(DefaultPerPage))))
  }

  /** A query string carrying a 64-bit integer is read as that integer, then clamped. */
  lemma PerPageOfRenderedInt(i: int)
    requires IntMin <= i <= IntMax
    ensures PerPage(Some(Str(IntToString(i)))) == ClampPerPage(i)
  {
    LeadingIntOfIntToString(i);
  }

  /** An exponent counts: digits `a`, then `e` or `E` and digits `b`, ask for `a * 10^b` rows. */
  lemma PerPageOfExponent(a: string, mark: char, b: string, rest: string)
    requires |a| > 0 && AllDigits(a) && (mark == 'e' || mark == 'E')
    requires |b| > 0 && AllDigits(b) && (rest == [] || !IsDigit(rest[0]))
    ensures PerPage(Some(Str(a + [mark] + b + rest))) ==
      var n := DigitsValue(a) * Pow10(DigitsValue(b));
      ClampPerPage(if n >= DoubleOverflow then 0 else Saturate(n))
  {
    LeadingIntOfExponent(a, mark, b, rest);
  }

  /** `?per_page=1e2` asks for 100 rows, so the page has 50. */
  lemma PerPageOfOneE2()
    ensures PerPage(Some(Str("1e2"))) == 50
  {
    assert "1" + ['e'] + "2" + "" == "1e2";
    assert DigitsValue("1") == 1 by {
      assert "1"[..0] == [];
    }
    assert DigitsValue("2") == 2 by {
      assert "2"[..0] == [];
    }
    assert Pow10(2) == 100;
    PerPageOfExponent("1", 'e', "2", "");
  }

  /** A fraction is cut off: whitespace, digits `a`, `.` and digits `b` ask for `a` rows. */
  lemma PerPageOfFraction(w: string, a: string, b: string, rest: string)
    requires AllNumericSpace(w) && |a| > 0 && AllDigits(a) && AllDigits(b) && EndsNumber(rest)
    requires DigitsValue(a) < DoubleOverflow
    ensures PerPage(Some(Str(w + a + "." + b + rest))) == ClampPerPage(Saturate(DigitsValue(a)))
  {
    LeadingIntOfFraction(w, a, b, rest);
  }

  /** Leading whitespace and trailing text are ignored: `?per_page= 20abc` asks for 20 rows. */
  lemma PerPageOfTrailingText(w: string, a: string, rest: string)
    requires AllNumericSpace(w) && |a| > 0 && AllDigits(a) && EndsNumber(rest)
    requires DigitsValue(a) < DoubleOverflow
    ensures PerPage(Some(Str(w + a + rest))) == ClampPerPage(Saturate(DigitsValue(a)))
  {
    LeadingIntOfPaddedDigits(w, a, rest);
  }

  /** A value that does not start like a number is 0, so the page has 5 rows. */
  lemma PerPageOfNonNumber(s: string)
    requires s != [] ==> !(IsNumericSpace(s[0]) || IsDigit(s[0]) || s[0] == '+' || s[0] == '-' || s[0] == '.')
    ensures PerPage(Some(Str(s))) == MinPerPage
  {
    NoNumericPrefix(s);
  }

  /** A run of digits beyond the 64-bit range saturates at `PHP_INT_MAX`, so the page size is 50. */
  lemma PerPageOfHugeInt(s: string)
    requires |s| > 0 && AllDigits(s) && IntMax < DigitsValue(s) < DoubleOverflow
    ensures PerPage(Some(Str(s))) == MaxPerPage
  {
  }

  const NotConfiguredListingMessage: string := "Yandex Maps URL is not configured. Please set it in Settings."

  /**
   * What `index` answers. `Unconfigured` is the 422 answer with no reviews and a null rating and
   * total. Otherwise a page of the user's reviews, newest first: the page itself is not modelled,
   * only its size and the figures shown beside it.
   */
  datatype Listing =
    | Unconfigured(message: string)
    | Page(perPage: int, rating: Option<Rating>, totalReviews: int, lastSyncedAt: Option<Instant>, count: nat)

  /** The HTTP status of a listing. */
  function ListingStatus(r: Listing): int {
    if r.Unconfigured? then 422 else 200
  }

  /**
   * `index`: without a setting or a truthy URL there is nothing to list. The total shown is the
   * stored total, or the number of the user's reviews (`$paginated->total()`) when it is null.
   */
  function Index(db: Database, user: UserId, perPage: Option<Value>): (r: Listing)
    reads db
    ensures r.Unconfigured? <==> user !in db.settings || !HasUrl(db.settings[user])
    ensures r.Unconfigured? ==> r.message == NotConfiguredListingMessage && ListingStatus(r) == 422
    ensures r.Page? ==> ListingStatus(r) == 200 && r.perPage == PerPage(perPage)
    ensures r.Page? ==> MinPerPage <= r.perPage <= MaxPerPage && r.count == db.ReviewCount(user)
    ensures r.Page? ==> r.rating == db.settings[user].rating && r.lastSyncedAt == db.settings[user].lastSyncedAt
    ensures r.Page? && db.settings[user].totalReviews.Some? ==> r.totalReviews == db.settings[user].totalReviews.value
    ensures r.Page? && db.settings[user].totalReviews.None? ==> r.totalReviews == db.ReviewCount(user)
  {
    if user !in db.settings || !HasUrl(db.settings[user]) then Unconfigured(NotConfiguredListingMessage)
    else
      var s := db.settings[user];
      var count := db.ReviewCount(user);
      Page(PerPage(perPage), s.rating, s.totalReviews.GetOr(count), s.lastSyncedAt, count)
  }

  const NotConfiguredSyncMessage: string := "Yandex Maps URL is not configured."
  const AlreadyRunningMessage: string := "Синхронизация уже запущена."
  const QueuedMessage: string := "В очереди..."
  const StartedMessage: string := "Синхронизация запущена."

  /** What `sync` answers. */
  datatype SyncAnswer =
    | SyncUnconfigured
    | AlreadyRunning(status: Status, message: Option<string>)
    | Started

  function SyncAnswerStatus(a: SyncAnswer): int {
    if a.SyncUnconfigured? then 422 else 200
  }

  function SyncAnswerMessage(a: SyncAnswer): string {
    match a
    case SyncUnconfigured => NotConfiguredSyncMessage
    case AlreadyRunning(_, _) => AlreadyRunningMessage
    case Started => StartedMessage
  }

  /** The answer `sync` gives for the user's setting `s`. */
  function SyncDecision(s: Option<Setting>): (a: SyncAnswer)
    ensures a.SyncUnconfigured? <==> s.None? || !HasUrl(s.value)
    ensures a.AlreadyRunning? <==> s.Some? && HasUrl(s.value) && InProgress(s.value)
    ensures a.AlreadyRunning? ==> Some(a.status) == s.value.syncStatus && a.message == s.value.syncMessage
    ensures a.Started? <==> s.Some? && HasUrl(s.value) && !InProgress(s.value)
  {
    if s.None? || !HasUrl(s.value) then SyncUnconfigured
    else if InProgress(s.value) then AlreadyRunning(s.value.syncStatus.value, s.value.syncMessage)
    else Started
  }

  /** The row after `sync` accepted: pending and queued, stamped at `now`. */
  function Queued(s: Setting, now: Instant): (r: Setting)
    ensures r.syncStatus == Some(Pending) && r.syncMessage == Some(QueuedMessage)
    ensures s.syncStatus != Some(Pending) ==> r.updatedAt == Some(now)
    ensures r.yandexUrl == s.yandexUrl && r.rating == s.rating && r.totalReviews == s.totalReviews
    ensures r.lastSyncedAt == s.lastSyncedAt
  {
    Saved(s, s.(syncStatus := Some(Pending), syncMessage := Some(QueuedMessage)), now)
  }

  /** The setting of `user` as `getByUser` finds it. */
  function SettingOf(settings: map<UserId, Setting>, user: UserId): Option<Setting> {
    if user in settings then Some(settings[user]) else None
  }

  /**
   * `sync`: with no URL it answers 422; while a sync is pending or running it reports that one;
   * otherwise it marks the row pending and queues exactly one `reviews:sync` job for the user.
   * The reviews are not touched.
   */
  method Sync(db: Database, user: UserId, now: Instant) returns (a: SyncAnswer)
    modifies db`settings, db`jobs
    ensures a == SyncDecision(SettingOf(old(db.settings), user))
    ensures !a.Started? ==> db.settings == old(db.settings) && db.jobs == old(db.jobs)
    ensures a.Started? ==>
      && db.settings == old(db.settings)[user := Queued(old(db.settings)[user], now)]
      && db.jobs == old(db.jobs) + [user]
  {
    a := SyncDecision(SettingOf(db.settings, user));
    if a.Started? {
      db.UpdateSetting(user, db.settings[user].(syncStatus := Some(Pending), syncMessage := Some(QueuedMessage)), now);
      db.Enqueue(user);
    }
  }

  /** A second `sync` right after one that was accepted is refused: the first left the row pending. */
  lemma SecondSyncRefused(s: Setting, now: Instant)
    requires SyncDecision(Some(s)).Started?
    ensures SyncDecision(Some(Queued(s, now))) == AlreadyRunning(Pending, Some(QueuedMessage))
  {
  }

  /** Carbon's `diffInMinutes`: the whole minutes between two instants, either way round. */
  function DiffInMinutes(a: Instant, b: Instant): (m: nat)
    ensures m * 60 <= (if a <= b then b - a else a - b) < (m + 1) * 60
  {
    (if a <= b then b - a else a - b) / 60
  }

  const StaleMinutes: nat := 10
  const TimeoutMessage: string := "Синхронизация прервана (таймаут)"

  /** A pending or running row last updated more than ten minutes before or after `now`. */
  predicate Stale(s: Setting, now: Instant) {
    InProgress(s) && s.updatedAt.Some? && DiffInMinutes(s.updatedAt.value, now) > StaleMinutes
  }

  /** In seconds: stale means at least 11 minutes apart, since whole minutes are compared. */
  lemma StaleInSeconds(s: Setting, now: Instant)
    ensures Stale(s, now) <==>
      InProgress(s) && s.updatedAt.Some? && (now - s.updatedAt.value >= 660 || s.updatedAt.value - now >= 660)
  {
  }

  /** The row after `syncStatus` looked at it at `now`: a stale one is failed with the timeout message. */
  function Refreshed(s: Setting, now: Instant): (r: Setting)
    ensures Stale(s, now) ==>
      r.syncStatus == Some(Failed) && r.syncMessage == Some(TimeoutMessage) && r.updatedAt == Some(now)
    ensures !Stale(s, now) ==> r == s
    ensures r.yandexUrl == s.yandexUrl && r.rating == s.rating && r.totalReviews == s.totalReviews
    ensures r.lastSyncedAt == s.lastSyncedAt
  {
    if Stale(s, now) then Saved(s, s.(syncStatus := Some(Failed), syncMessage := Some(TimeoutMessage)), now) else s
  }

  /** A row that is neither pending nor running is never modified by a status poll. */
  lemma RefreshKeepsSettled(s: Setting, now: Instant)
    requires !InProgress(s)
    ensures Refreshed(s, now) == s
  {
  }

  /** Polling again at the same time changes nothing more. */
  lemma RefreshIdempotent(s: Setting, now: Instant)
    ensures Refreshed(Refreshed(s, now), now) == Refreshed(s, now)
  {
  }

  /** A timed-out sync no longer blocks a new one, while a sync that is not stale still does. */
  lemma TimeoutUnblocksSync(s: Setting, now: Instant)
    requires HasUrl(s) && InProgress(s)
    ensures Stale(s, now) ==> SyncDecision(Some(Refreshed(s, now))) == Started
    ensures !Stale(s, now) ==> SyncDecision(Some(Refreshed(s, now))).AlreadyRunning?
  {
  }

  /** What `syncStatus` answers: `NoSetting` is `{syncStatus: 'idle', syncMessage: null}`. */
  datatype StatusReport =
    | NoSetting
    | Report(syncStatus: string, syncMessage: Option<string>, lastSyncedAt: Option<Instant>,
             totalReviews: Option<int>, rating: Option<Rating>)

  /** The report for a row: a null status reads as 'idle'. */
  function ReportOf(s: Setting): (r: StatusReport)
    ensures r.Report? && r.syncMessage == s.syncMessage && r.lastSyncedAt == s.lastSyncedAt
    ensures r.totalReviews == s.totalReviews && r.rating == s.rating
    ensures r.syncStatus == "idle" <==> s.syncStatus.None? || s.syncStatus == Some(Idle)
    ensures s.syncStatus.Some? ==> r.syncStatus == StatusName(s.syncStatus.value)
  {
    Report(StatusName(s.syncStatus.GetOr(Idle)), s.syncMessage, s.lastSyncedAt, s.totalReviews, s.rating)
  }

  /**
   * `syncStatus` at `now`: no row reads as idle; a stale pending or running row is failed with the
   * timeout message before it is reported; any other row is reported as it is.
   */
  method SyncStatus(db: Database, user: UserId, now: Instant) returns (r: StatusReport)
    modifies db`settings
    ensures user !in old(db.settings) ==> r == NoSetting && db.settings == old(db.settings)
    ensures user in old(db.settings) ==>
      && db.settings == old(db.settings)[user := Refreshed(old(db.settings)[user], now)]
      && r == ReportOf(Refreshed(old(db.settings)[user], now))
  {
    if user !in db.settings {
      return NoSetting;
    }
    if InProgress(db.settings[user]) {
      var updatedAt := db.settings[user].updatedAt;
      if updatedAt.Some? && DiffInMinutes(updatedAt.value, now) > StaleMinutes {
        db.UpdateSetting(user, db.settings[user].(syncStatus := Some(Failed), syncMessage := Some(TimeoutMessage)), now);
      }
    }
    r := ReportOf(db.settings[user]);
  }
}
