/**
 * The application's database as the core uses it: one `settings` row per user (the Yandex URL,
 * the cached rating and the sync status), the `reviews` table with its unique key
 * `(user_id, yandex_id)`, and the queue of `reviews:sync` jobs.
 *
 * Both tables are maps, so the unique key holds by construction: there is at most one review row
 * per `(user_id, yandex_id)`.
 */
module ReviewStore {
  import opened Wrappers
  import opened Php

  type UserId = int

  /** Seconds on the application clock. */
  type Instant = int

  /** The values the code writes to `settings.sync_status`. */
  datatype Status = Idle | Pending | Running | Completed | Failed

  function StatusName(s: Status): string {
    match s
    case Idle => "idle"
    case Pending => "pending"
    case Running => "running"
    case Completed => "completed"
    case Failed => "failed"
  }

  /**
   * A rating as the model keeps it: `round((float) $v, 1)` of a decoded value, or `(float)` of a
   * text captured from the page. Float arithmetic is not modelled; only which value a rating
   * comes from is.
   */
  datatype Rating = Rounded(source: Value) | FromText(text: string)

  /** A `settings` row; `None` is a null column. */
  datatype Setting = Setting(
    yandexUrl: Option<string>,
    rating: Option<Rating>,
    totalReviews: Option<int>,
    lastSyncedAt: Option<Instant>,
    syncStatus: Option<Status>,
    syncMessage: Option<string>,
    updatedAt: Option<Instant>)

  /** `$setting->yandex_url` is truthy. */
  predicate HasUrl(s: Setting) {
    s.yandexUrl.Some? && Truthy(Str(s.yandexUrl.value))
  }

  /** `in_array($setting->sync_status, ['pending', 'running'])`. */
  predicate InProgress(s: Setting) {
    s.syncStatus == Some(Pending) || s.syncStatus == Some(Running)
  }

  /**
   * Eloquent's `$model->update([...])` at time `now`, with `next` the row after the
   * assignments: the row is saved, and `updated_at` moved to `now`, only when an attribute
   * actually changed.
   */
  function Saved(current: Setting, next: Setting, now: Instant): (r: Setting)
    ensures r.(updatedAt := current.updatedAt) == next.(updatedAt := current.updatedAt)
    ensures r.updatedAt == (if next.(updatedAt := current.updatedAt) == current then current.updatedAt else Some(now))
    ensures current.updatedAt == Some(now) ==> r == next.(updatedAt := Some(now))
  {
    var a := next.(updatedAt := current.updatedAt);
    if a == current then current else a.(updatedAt := Some(now))
  }

  /** The unique key of a review row. */
  datatype ReviewKey = ReviewKey(user: UserId, yandexId: string)

  /** The other columns of a review row; `None` is null. */
  datatype Row = Row(
    author: Value,
    rating: int,
    text: Value,
    branch: Option<Value>,
    phone: Option<Value>,
    reviewedAt: Option<Instant>)

  /** The table after `Review::where('user_id', $user)->delete()`. */
  function WithoutUser(rows: map<ReviewKey, Row>, user: UserId): (r: map<ReviewKey, Row>)
    ensures forall k :: k in r <==> k in rows && k.user != user
    ensures forall k :: k in r ==> r[k] == rows[k]
  {
    map k | k in rows && k.user != user :: rows[k]
  }

  /** The keys of a user's rows (`Review::where('user_id', $user)`). */
  function UserKeys(rows: map<ReviewKey, Row>, user: UserId): (ks: set<ReviewKey>)
    ensures forall k :: k in ks <==> k in rows && k.user == user
  {
    set k | k in rows && k.user == user
  }

  /** Writes `ws`, one `updateOrCreate` after another, into `rows`. */
  function Apply(rows: map<ReviewKey, Row>, ws: seq<(ReviewKey, Row)>): map<ReviewKey, Row>
    decreases |ws|
  {
    if ws == [] then rows else Apply(rows, ws[..|ws| - 1])[ws[|ws| - 1].0 := ws[|ws| - 1].1]
  }

  /** Writing one more row after `ws`. */
  lemma ApplySnoc(rows: map<ReviewKey, Row>, ws: seq<(ReviewKey, Row)>, w: (ReviewKey, Row))
    ensures Apply(rows, ws + [w]) == Apply(rows, ws)[w.0 := w.1]
    ensures CreatedCount(rows, ws + [w]) == CreatedCount(rows, ws) + (if w.0 in Apply(rows, ws) then 0 else 1)
  {
    assert (ws + [w])[..|ws|] == ws;
  }

  /** How many of the writes `ws` created a row rather than updating one (`wasRecentlyCreated`). */
  function CreatedCount(rows: map<ReviewKey, Row>, ws: seq<(ReviewKey, Row)>): nat
    decreases |ws|
  {
    if ws == [] then 0
    else CreatedCount(rows, ws[..|ws| - 1]) + (if ws[|ws| - 1].0 in Apply(rows, ws[..|ws| - 1]) then 0 else 1)
  }

  /** The row each key of `ws` ends up with: the one written last. */
  function Overlay(ws: seq<(ReviewKey, Row)>): map<ReviewKey, Row>
    decreases |ws|
  {
    if ws == [] then map[] else Overlay(ws[..|ws| - 1])[ws[|ws| - 1].0 := ws[|ws| - 1].1]
  }

  /** The position of the last write to `k` among `ws`. */
  function LastWriteOf(ws: seq<(ReviewKey, Row)>, k: ReviewKey): (r: Option<nat>)
    ensures r.Some? ==> r.value < |ws| && ws[r.value].0 == k
    ensures r.Some? ==> forall j :: r.value < j < |ws| ==> ws[j].0 != k
    ensures r.None? ==> forall j :: 0 <= j < |ws| ==> ws[j].0 != k
    decreases |ws|
  {
    if ws == [] then None
    else if ws[|ws| - 1].0 == k then Some(|ws| - 1)
    else LastWriteOf(ws[..|ws| - 1], k)
  }

  /** The keys written form the overlay's domain, and each takes the row of its last write. */
  lemma {:induction false} OverlayLastWriteWins(ws: seq<(ReviewKey, Row)>, k: ReviewKey)
    ensures k in Overlay(ws) <==> LastWriteOf(ws, k).Some?
    ensures k in Overlay(ws) ==> Overlay(ws)[k] == ws[LastWriteOf(ws, k).value].1
    decreases |ws|
  {
    if ws != [] && ws[|ws| - 1].0 != k {
      var init := ws[..|ws| - 1];
      OverlayLastWriteWins(init, k);
      if LastWriteOf(init, k).Some? {
        assert ws[LastWriteOf(init, k).value] == init[LastWriteOf(init, k).value];
      }
    }
  }

  /** Writing `ws` into a table overlays their last writes on it. */
  lemma {:induction false} ApplyIsOverlay(rows: map<ReviewKey, Row>, ws: seq<(ReviewKey, Row)>)
    ensures Apply(rows, ws) == rows + Overlay(ws)
    decreases |ws|
  {
    if ws != [] {
      ApplyIsOverlay(rows, ws[..|ws| - 1]);
    }
  }

  /** Adding one key to a set grows its part outside `old` by one exactly when the key is new. */
  lemma AddKeyOutside(before: set<ReviewKey>, oldKeys: set<ReviewKey>, k: ReviewKey)
    requires oldKeys <= before
    ensures |(before + {k}) - oldKeys| == |before - oldKeys| + (if k in before then 0 else 1)
  {
    if k in before {
      assert (before + {k}) - oldKeys == before - oldKeys;
    } else {
      assert (before + {k}) - oldKeys == (before - oldKeys) + {k};
    }
  }

  /** The last write adds its key to the table, and counts as created when the key was new. */
  lemma ApplyLastStep(rows: map<ReviewKey, Row>, ws: seq<(ReviewKey, Row)>)
    requires ws != []
    ensures Apply(rows, ws).Keys == Apply(rows, ws[..|ws| - 1]).Keys + {ws[|ws| - 1].0}
    ensures CreatedCount(rows, ws)
         == CreatedCount(rows, ws[..|ws| - 1]) + (if ws[|ws| - 1].0 in Apply(rows, ws[..|ws| - 1]).Keys then 0 else 1)
  {
  }

  /** The rows created are exactly the keys that were not in the table before. */
  lemma {:induction false} CreatedCountIsNewKeys(rows: map<ReviewKey, Row>, ws: seq<(ReviewKey, Row)>)
    ensures CreatedCount(rows, ws) == |Apply(rows, ws).Keys - rows.Keys|
    ensures rows.Keys <= Apply(rows, ws).Keys
    ensures CreatedCount(rows, ws) <= |ws|
    decreases |ws|
  {
    if ws != [] {
      var init := ws[..|ws| - 1];
      CreatedCountIsNewKeys(rows, init);
      ApplyLastStep(rows, ws);
      AddKeyOutside(Apply(rows, init).Keys, rows.Keys, ws[|ws| - 1].0);
    }
  }

  /** Writing the same rows again changes nothing and creates nothing. */
  lemma ApplyIdempotent(rows: map<ReviewKey, Row>, ws: seq<(ReviewKey, Row)>)
    ensures Apply(Apply(rows, ws), ws) == Apply(rows, ws)
    ensures CreatedCount(Apply(rows, ws), ws) == 0
  {
    ApplyIsOverlay(rows, ws);
    ApplyIsOverlay(Apply(rows, ws), ws);
    assert (rows + Overlay(ws)) + Overlay(ws) == rows + Overlay(ws);
    CreatedCountIsNewKeys(Apply(rows, ws), ws);
    assert Apply(Apply(rows, ws), ws).Keys - Apply(rows, ws).Keys == {};
  }

  /** Writes for one user leave every other user's rows as they were. */
  lemma ApplyKeepsOtherUsers(rows: map<ReviewKey, Row>, ws: seq<(ReviewKey, Row)>, user: UserId)
    requires forall j :: 0 <= j < |ws| ==> ws[j].0.user == user
    ensures forall k: ReviewKey :: k.user != user ==> (k in Apply(rows, ws) <==> k in rows)
    ensures forall k: ReviewKey :: k.user != user && k in rows ==> Apply(rows, ws)[k] == rows[k]
  {
    ApplyIsOverlay(rows, ws);
    forall k: ReviewKey | k.user != user ensures k !in Overlay(ws) {
      OverlayLastWriteWins(ws, k);
    }
  }

  class Database {
    var settings: map<UserId, Setting>
    var reviews: map<ReviewKey, Row>
    /** The `reviews:sync` jobs queued so far, by user, in order. */
    var jobs: seq<UserId>

    constructor ()
      ensures settings == map[] && reviews == map[] && jobs == []
    {
      settings := map[];
      reviews := map[];
      jobs := [];
    }

    /** The user's review count (`Review::where('user_id', $user)->count()`). */
    function ReviewCount(user: UserId): nat
      reads this
    {
      |UserKeys(reviews, user)|
    }

    /** `$setting->update([...])` with `next` the row after the assignments. */
    method UpdateSetting(user: UserId, next: Setting, now: Instant)
      requires user in settings
      modifies this`settings
      ensures settings == old(settings)[user := Saved(old(settings)[user], next, now)]
    {
      settings := settings[user := Saved(settings[user], next, now)];
    }

    /** `Setting::updateOrCreate(['user_id' => $user], [...])`: a new row is stamped with `now`. */
    method UpsertSetting(user: UserId, next: Setting, now: Instant)
      modifies this`settings
      ensures user in old(settings) ==> settings == old(settings)[user := Saved(old(settings)[user], next, now)]
      ensures user !in old(settings) ==> settings == old(settings)[user := next.(updatedAt := Some(now))]
    {
      if user in settings {
        settings := settings[user := Saved(settings[user], next, now)];
      } else {
        settings := settings[user := next.(updatedAt := Some(now))];
      }
    }

    /** `Review::where('user_id', $user)->delete()`. */
    method DeleteReviewsOf(user: UserId)
      modifies this`reviews
      ensures reviews == WithoutUser(old(reviews), user)
    {
      reviews := WithoutUser(reviews, user);
    }

    /** `Review::updateOrCreate($key, $columns)` and its `wasRecentlyCreated`. */
    method UpdateOrCreate(key: ReviewKey, row: Row) returns (created: bool)
      modifies this`reviews
      ensures reviews == old(reviews)[key := row]
      ensures created <==> key !in old(reviews)
    {
      created := key !in reviews;
      reviews := reviews[key := row];
    }

    /** `Artisan::queue('reviews:sync', ['user_id' => $user])`. */
    method Enqueue(user: UserId)
      modifies this`jobs
      ensures jobs == old(jobs) + [user]
    {
      jobs := jobs + [user];
    }
  }
}
