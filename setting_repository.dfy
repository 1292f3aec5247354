/**
 * `SettingRepository::saveYandexUrl`: saving the user's Yandex Maps URL. A URL different from the
 * stored one invalidates what was synced for the old one (the user's reviews, the rating, the
 * total and the last sync time); every save leaves the sync status idle.
 */
module SettingRepository {
  import opened Wrappers
  import opened Php
  import opened ReviewStore
  import ReviewController

  /** `$existing && $existing->yandex_url !== $url`. */
  predicate UrlChanged(existing: Option<Setting>, url: Option<string>) {
    existing.Some? && existing.value.yandexUrl != url
  }

  /**
   * The attributes `updateOrCreate` is given, on the existing row (or on a blank one when there is
   * none): the cached figures survive only an unchanged URL.
   */
  function Attributes(existing: Option<Setting>, url: Option<string>): (r: Setting)
    ensures r.yandexUrl == url && r.syncStatus == Some(Idle) && r.syncMessage == None
    ensures existing.Some? ==> r.updatedAt == existing.value.updatedAt
    ensures UrlChanged(existing, url) || existing.None? ==>
      r.rating == None && r.totalReviews == None && r.lastSyncedAt == None
    ensures existing.Some? && !UrlChanged(existing, url) ==>
      && r.rating == existing.value.rating
      && r.totalReviews == existing.value.totalReviews
      && r.lastSyncedAt == existing.value.lastSyncedAt
  {
    var changed := UrlChanged(existing, url);
    var base := existing.GetOr(Setting(None, None, None, None, None, None, None));
    base.(yandexUrl := url,
          rating := if changed then None else base.rating,
          totalReviews := if changed then None else base.totalReviews,
          lastSyncedAt := if changed then None else base.lastSyncedAt,
          syncStatus := Some(Idle),
          syncMessage := None)
  }

  /** The row `updateOrCreate` leaves at `now`. */
  function SavedRow(existing: Option<Setting>, url: Option<string>, now: Instant): Setting {
    if existing.Some? then Saved(existing.value, Attributes(existing, url), now)
    else Attributes(existing, url).(updatedAt := Some(now))
  }

  /**
   * `saveYandexUrl($user, $url)` at `now`: the user's reviews are deleted when an existing row had a
   * different URL, and the row is updated or created with the new URL, idle and without message.
   */
  method SaveYandexUrl(db: Database, user: UserId, url: Option<string>, now: Instant) returns (s: Setting)
    modifies db`settings, db`reviews
    ensures var existing := ReviewController.SettingOf(old(db.settings), user);
      && db.reviews == (if UrlChanged(existing, url) then WithoutUser(old(db.reviews), user) else old(db.reviews))
      && db.settings == old(db.settings)[user := SavedRow(existing, url, now)]
      && s == db.settings[user]
  {
    var existing := ReviewController.SettingOf(db.settings, user);
    if UrlChanged(existing, url) {
      db.DeleteReviewsOf(user);
    }
    db.UpsertSetting(user, Attributes(existing, url), now);
    s := db.settings[user];
  }

  /** Every save leaves the row idle with no message and the new URL, even over a running sync. */
  lemma SaveResetsStatus(existing: Option<Setting>, url: Option<string>, now: Instant)
    ensures SavedRow(existing, url, now).syncStatus == Some(Idle)
    ensures SavedRow(existing, url, now).syncMessage == None
    ensures SavedRow(existing, url, now).yandexUrl == url
  {
  }

  /** Saving the URL the row already has keeps the synced figures. */
  lemma SameUrlKeepsCache(s: Setting, now: Instant)
    ensures var r := SavedRow(Some(s), s.yandexUrl, now);
      r.rating == s.rating && r.totalReviews == s.totalReviews && r.lastSyncedAt == s.lastSyncedAt
  {
  }

  /**
   * After a save that changed the URL, the user has no stored reviews and no synced figures, and
   * every other user's reviews are as they were.
   */
  lemma ChangedUrlDropsEverything(rows: map<ReviewKey, Row>, user: UserId, s: Setting, url: Option<string>, now: Instant)
    requires s.yandexUrl != url
    ensures UrlChanged(Some(s), url)
    ensures UserKeys(WithoutUser(rows, user), user) == {}
    ensures forall k: ReviewKey :: k.user != user ==> (k in WithoutUser(rows, user) <==> k in rows)
    ensures var r := SavedRow(Some(s), url, now);
      r.rating == None && r.totalReviews == None && r.lastSyncedAt == None
  {
  }

  /** Saving the same URL again changes nothing, not even the time stamp. */
  lemma SaveIdempotent(existing: Option<Setting>, url: Option<string>, now: Instant, later: Instant)
    ensures var once := SavedRow(existing, url, now);
      SavedRow(Some(once), url, later) == once
  {
  }

  /** Once saved with a truthy URL, the row accepts a sync. */
  lemma SavedRowAcceptsSync(existing: Option<Setting>, url: Option<string>, now: Instant)
    requires url.Some? && Truthy(Str(url.value))
    ensures ReviewController.SyncDecision(Some(SavedRow(existing, url, now))) == ReviewController.Started
  {
  }
}
