/**
 * The scroll loop of `SyncReviews::fetchAllReviewsViaChrome`. Each iteration scrolls the
 * review list and checks whether new fetchReviews requests appeared. If some did, it harvests
 * only those, retrying once when they yield nothing. If none did, it counts a quiet iteration.
 * The loop stops after 300 iterations or after 8 quiet iterations in a row.
 *
 * The browser's network listener appends request ids asynchronously. Iteration `i` sees the
 * ids of `ticks[i]`, in three groups: those appended before the check for new requests, those
 * appended between that check and the slice of new ids, and those appended after the slice.
 * Iterations past the end of `ticks` see none.
 */
module SyncScroll {
  import opened Wrappers
  import opened Text
  import opened Php
  import opened ReviewStore
  import opened SyncHarvest

  const MaxScrollAttempts: nat := 300

  /** Quiet iterations in a row after which the loop stops. */
  const QuietLimit: nat := 8

  datatype Tick = Tick(beforeCheck: seq<string>, beforeSlice: seq<string>, afterSlice: seq<string>)

  function TickAt(ticks: seq<Tick>, i: nat): Tick {
    if i < |ticks| then ticks[i] else Tick([], [], [])
  }

  /** The progress message `'Загружено ' . count($allReviews) . ' отзывов...'`. */
  function LoadedMessage(n: nat): string {
    "Загружено " + NatToString(n) + " отзывов..."
  }

  /**
   * The loop's variables: the request ids seen so far (`$fetchRequestIds`), the reviews
   * gathered (`$allReviews`), the quiet counter (`$noNewRequests`), the iterations run, the
   * number of the last iteration that saw new requests (0 for none), and the review count of
   * the last progress message written.
   */
  datatype Scan = Scan(
    ids: seq<string>,
    all: seq<Entry>,
    quiet: nat,
    iterations: nat,
    lastBusy: nat,
    loaded: Option<nat>)

  /** The state a run of the loop ends in, and whether a harvest aborted it. */
  datatype Ended = Ended(scan: Scan, aborted: bool)

  /** Iteration `i`'s harvest of `newIds`, and its retry when the first harvest is empty. */
  function Retried(i: nat, newIds: seq<string>, body: Bodies, decode: Decoder): Harvest {
    match HarvestFrom([], 2 * i + 1, newIds, body, decode)
    case Fatal => Fatal
    case Reviews(es) =>
      if es == [] && newIds != [] then HarvestFrom([], 2 * i + 2, newIds, body, decode) else Reviews(es)
  }

  /** One pass of the loop body, as iteration `s.iterations`, seeing tick `t`. */
  function Step(s: Scan, t: Tick, body: Bodies, decode: Decoder): (r: Ended)
    ensures r.aborted ==> r.scan == s && t.beforeCheck != []
    ensures r.aborted <==> t.beforeCheck != [] && Retried(s.iterations, t.beforeCheck + t.beforeSlice, body, decode).Fatal?
    ensures !r.aborted ==> r.scan.iterations == s.iterations + 1
    ensures !r.aborted ==> r.scan.ids == s.ids + t.beforeCheck + t.beforeSlice + t.afterSlice
    ensures !r.aborted && t.beforeCheck != [] ==> r.scan.quiet == 0 && r.scan.lastBusy == s.iterations + 1
    ensures t.beforeCheck == [] ==> r.scan.quiet == s.quiet + 1 && r.scan.lastBusy == s.lastBusy
    ensures t.beforeCheck == [] ==> r.scan.all == s.all && r.scan.loaded == s.loaded
    ensures (r.scan.all == s.all && r.scan.loaded == s.loaded) || r.scan.loaded == Some(|r.scan.all|)
  {
    var prevCount := |s.ids|;
    var ids := s.ids + t.beforeCheck;
    if |ids| > prevCount then
      var ids' := ids + t.beforeSlice;
      var newIds := ids'[prevCount..];
      assert newIds == t.beforeCheck + t.beforeSlice;
      match Retried(s.iterations, newIds, body, decode)
      case Fatal => Ended(s, true)
      case Reviews(got) =>
        var all := if got != [] then ArrayMerge(s.all, got) else s.all;
        var loaded := if got != [] then Some(|all|) else s.loaded;
        Ended(Scan(ids' + t.afterSlice, all, 0, s.iterations + 1, s.iterations + 1, loaded), false)
    else
      Ended(s.(ids := ids + t.beforeSlice + t.afterSlice, quiet := s.quiet + 1, iterations := s.iterations + 1), false)
  }

  /** The loop from state `s` on. */
  function Run(s: Scan, ticks: seq<Tick>, body: Bodies, decode: Decoder): Ended
    requires s.iterations <= MaxScrollAttempts
    decreases MaxScrollAttempts - s.iterations
  {
    if s.iterations == MaxScrollAttempts then Ended(s, false)
    else
      var t := TickAt(ticks, s.iterations);
      var n := Step(s, t, body, decode);
      if n.aborted then n
      else if t.beforeCheck == [] && n.scan.quiet >= QuietLimit then n
      else Run(n.scan, ticks, body, decode)
  }

  /** The message row after the progress messages of a run that started without one. */
  function Progress(loaded: Option<nat>, message: Option<string>): Option<string> {
    match loaded
    case None => message
    case Some(n) => Some(LoadedMessage(n))
  }

  /** The new ids of an iteration that saw some are the ids appended since it started. */
  lemma NewIdsSlice(ids: seq<string>, t: Tick)
    ensures (ids + t.beforeCheck + t.beforeSlice)[|ids|..] == t.beforeCheck + t.beforeSlice
  {
  }

  /** `Step` of an iteration that saw new requests. */
  lemma StepBusy(s: Scan, t: Tick, body: Bodies, decode: Decoder)
    requires t.beforeCheck != []
    ensures Step(s, t, body, decode) ==
      match Retried(s.iterations, t.beforeCheck + t.beforeSlice, body, decode)
      case Fatal => Ended(s, true)
      case Reviews(got) =>
        var all := if got != [] then ArrayMerge(s.all, got) else s.all;
        Ended(Scan(s.ids + t.beforeCheck + t.beforeSlice + t.afterSlice, all, 0, s.iterations + 1, s.iterations + 1,
                   if got != [] then Some(|all|) else s.loaded), false)
  {
    NewIdsSlice(s.ids, t);
  }

  /** `Retried` as the loop body computes it. */
  method RetriedHarvest(i: nat, newIds: seq<string>, body: Bodies, decode: Decoder) returns (r: Harvest)
    ensures r == Retried(i, newIds, body, decode)
  {
    r := GetResponseReviews(2 * i + 1, newIds, body, decode);
    if r.Fatal? {
      return;
    }
    if r.entries == [] && newIds != [] {
      r := GetResponseReviews(2 * i + 2, newIds, body, decode);
    }
  }

  /**
   * One pass of the loop body as the command runs it. When the iteration gathers reviews it
   * writes the progress message to the user's setting, which was already saved at `now`, so only
   * the message changes.
   */
  method Iterate(db: Database, user: UserId, now: Instant, s: Scan, t: Tick, body: Bodies, decode: Decoder)
    returns (r: Ended)
    requires user in db.settings && db.settings[user].updatedAt == Some(now)
    requires s.loaded.Some? ==> db.settings[user].syncMessage == Some(LoadedMessage(s.loaded.value))
    modifies db`settings
    ensures r == Step(s, t, body, decode)
    ensures db.settings == old(db.settings)[user := old(db.settings)[user].(syncMessage := Progress(r.scan.loaded, old(db.settings)[user].syncMessage))]
  {
    var ids := s.ids;
    var prevCount := |ids|;
    ids := ids + t.beforeCheck;
    if |ids| > prevCount {
      ids := ids + t.beforeSlice;
      var newIds := ids[prevCount..];
      NewIdsSlice(s.ids, t);
      StepBusy(s, t, body, decode);
      var got := RetriedHarvest(s.iterations, newIds, body, decode);
      if got.Fatal? {
        return Ended(s, true);
      }
      var all := s.all;
      var loaded := s.loaded;
      if got.entries != [] {
        all := ArrayMerge(all, got.entries);
        loaded := Some(|all|);
        db.UpdateSetting(user, db.settings[user].(syncMessage := Some(LoadedMessage(|all|))), now);
      }
      ids := ids + t.afterSlice;
      r := Ended(Scan(ids, all, 0, s.iterations + 1, s.iterations + 1, loaded), false);
    } else {
      ids := ids + t.beforeSlice + t.afterSlice;
      r := Ended(s.(ids := ids, quiet := s.quiet + 1, iterations := s.iterations + 1), false);
    }
  }

  /**
   * The loop as the command runs it: iterations until the attempts run out, a harvest aborts,
   * or an iteration without new requests brings the quiet counter to the limit.
   */
  method ScrollLoop(db: Database, user: UserId, now: Instant, start: Scan, ticks: seq<Tick>, body: Bodies, decode: Decoder)
    returns (r: Ended)
    requires start.iterations == 0 && start.loaded.None?
    requires user in db.settings && db.settings[user].updatedAt == Some(now)
    modifies db`settings
    ensures r == Run(start, ticks, body, decode)
    ensures db.settings == old(db.settings)[user := old(db.settings)[user].(syncMessage := Progress(r.scan.loaded, old(db.settings)[user].syncMessage))]
  {
    var scan := start;
    ghost var row := old(db.settings)[user];
    while scan.iterations < MaxScrollAttempts
      invariant scan.iterations <= MaxScrollAttempts
      invariant Run(start, ticks, body, decode) == Run(scan, ticks, body, decode)
      invariant db.settings == old(db.settings)[user := row.(syncMessage := Progress(scan.loaded, row.syncMessage))]
      decreases MaxScrollAttempts - scan.iterations
    {
      var t := TickAt(ticks, scan.iterations);
      var n := Iterate(db, user, now, scan, t, body, decode);
      assert n.scan.loaded.None? ==> scan.loaded.None?;
      if n.aborted {
        return n;
      }
      if t.beforeCheck == [] && n.scan.quiet >= QuietLimit {
        return n;
      }
      scan := n.scan;
    }
    return Ended(scan, false);
  }

  /**
   * What the quiet counter means: the iterations since the last one that saw new requests,
   * fewer than the limit; that one did see new requests, and none after it did.
   */
  ghost predicate Counted(s: Scan, ticks: seq<Tick>) {
    && s.lastBusy <= s.iterations
    && s.quiet == s.iterations - s.lastBusy
    && (s.lastBusy > 0 ==> TickAt(ticks, s.lastBusy - 1).beforeCheck != [])
    && (forall j :: s.lastBusy <= j < s.iterations ==> TickAt(ticks, j).beforeCheck == [])
  }

  function Min(a: nat, b: nat): nat {
    if a <= b then a else b
  }

  /**
   * The loop runs at most 300 iterations. When it is not aborted, it runs exactly
   * `min(300, N + 8)`, where `N` is the number of the last iteration that saw new requests, and
   * no iteration after the `N`-th saw any.
   */
  lemma {:induction false} RunLength(s: Scan, ticks: seq<Tick>, body: Bodies, decode: Decoder)
    requires s.iterations <= MaxScrollAttempts && s.quiet < QuietLimit
    requires Counted(s, ticks)
    ensures Run(s, ticks, body, decode).scan.iterations <= MaxScrollAttempts
    ensures !Run(s, ticks, body, decode).aborted ==>
      var e := Run(s, ticks, body, decode).scan;
      && Counted(e, ticks)
      && e.iterations == Min(MaxScrollAttempts, e.lastBusy + QuietLimit)
    decreases MaxScrollAttempts - s.iterations
  {
    if s.iterations < MaxScrollAttempts {
      var t := TickAt(ticks, s.iterations);
      var n := Step(s, t, body, decode);
      if !n.aborted {
        assert Counted(n.scan, ticks) by {
          forall j | n.scan.lastBusy <= j < n.scan.iterations ensures TickAt(ticks, j).beforeCheck == [] {
            if j < s.iterations {
              assert s.lastBusy <= j;
            }
          }
        }
        if !(t.beforeCheck == [] && n.scan.quiet >= QuietLimit) {
          RunLength(n.scan, ticks, body, decode);
        }
      }
    }
  }

  /**
   * The last progress message reports the final number of gathered reviews: a run either
   * leaves the list and the reported count as they were, or ends with the count of its final list.
   */
  lemma {:induction false} RunReportsCount(s: Scan, ticks: seq<Tick>, body: Bodies, decode: Decoder)
    requires s.iterations <= MaxScrollAttempts
    ensures var e := Run(s, ticks, body, decode).scan;
      (e.all == s.all && e.loaded == s.loaded) || e.loaded == Some(|e.all|)
    decreases MaxScrollAttempts - s.iterations
  {
    if s.iterations < MaxScrollAttempts {
      var t := TickAt(ticks, s.iterations);
      var n := Step(s, t, body, decode);
      if !n.aborted && !(t.beforeCheck == [] && n.scan.quiet >= QuietLimit) {
        RunReportsCount(n.scan, ticks, body, decode);
      }
    }
  }

  /** The reviews iteration `i` adds to the gathered list, seeing tick `t`. */
  function Got(i: nat, t: Tick, body: Bodies, decode: Decoder): seq<Value> {
    if t.beforeCheck == [] then []
    else
      match Retried(i, t.beforeCheck + t.beforeSlice, body, decode)
      case Reviews(es) => Values(es)
      case Fatal => []
  }

  /** The reviews iterations `from` to `to - 1` add, one iteration after another. */
  function Gathered(ticks: seq<Tick>, from: nat, to: nat, body: Bodies, decode: Decoder): seq<Value>
    decreases to - from
  {
    if to <= from then [] else Got(from, TickAt(ticks, from), body, decode) + Gathered(ticks, from + 1, to, body, decode)
  }

  /** Every readable body of the run holds a review list. */
  ghost predicate ListBodies(body: Bodies, decode: Decoder) {
    forall round: nat, id: string :: Reply(round, id, body, decode).Some? ==> IsListValue(Reply(round, id, body, decode).value)
  }

  lemma ListBodiesReplies(round: nat, ids: seq<string>, body: Bodies, decode: Decoder)
    requires ListBodies(body, decode)
    ensures ListReplies(round, ids, body, decode)
  {
  }

  /**
   * When every body holds a list, the retried harvest is the list of the reviews of the first
   * round, or of the retry when the first round had none.
   */
  lemma RetriedValues(i: nat, newIds: seq<string>, body: Bodies, decode: Decoder)
    requires ListBodies(body, decode)
    ensures Retried(i, newIds, body, decode).Reviews?
    ensures IsList(Retried(i, newIds, body, decode).entries)
    ensures Values(Retried(i, newIds, body, decode).entries) ==
      if Collected(2 * i + 1, newIds, body, decode) == [] && newIds != [] then Collected(2 * i + 2, newIds, body, decode)
      else Collected(2 * i + 1, newIds, body, decode)
  {
    ListBodiesReplies(2 * i + 1, newIds, body, decode);
    ListBodiesReplies(2 * i + 2, newIds, body, decode);
    HarvestOfLists([], 2 * i + 1, newIds, body, decode);
    HarvestOfLists([], 2 * i + 2, newIds, body, decode);
  }

  /**
   * The gathered list only grows by appending: when every body holds a list, the loop's
   * final list is the starting list followed by each iteration's harvest, in order.
   */
  lemma {:induction false} RunAppends(s: Scan, ticks: seq<Tick>, body: Bodies, decode: Decoder)
    requires s.iterations <= MaxScrollAttempts
    requires IsList(s.all) && ListBodies(body, decode)
    ensures !Run(s, ticks, body, decode).aborted
    ensures IsList(Run(s, ticks, body, decode).scan.all)
    ensures s.iterations <= Run(s, ticks, body, decode).scan.iterations
    ensures Values(Run(s, ticks, body, decode).scan.all)
         == Values(s.all) + Gathered(ticks, s.iterations, Run(s, ticks, body, decode).scan.iterations, body, decode)
    decreases MaxScrollAttempts - s.iterations
  {
    var e := Run(s, ticks, body, decode).scan;
    if s.iterations == MaxScrollAttempts {
      assert Values(s.all) + [] == Values(s.all);
    } else {
      var t := TickAt(ticks, s.iterations);
      var n := Step(s, t, body, decode);
      StepAppends(s, t, body, decode);
      if t.beforeCheck == [] && n.scan.quiet >= QuietLimit {
        assert Gathered(ticks, s.iterations + 1, e.iterations, body, decode) == [];
      } else {
        RunAppends(n.scan, ticks, body, decode);
      }
      var g := Got(s.iterations, t, body, decode);
      var rest := Gathered(ticks, s.iterations + 1, e.iterations, body, decode);
      assert Gathered(ticks, s.iterations, e.iterations, body, decode) == g + rest;
      Regroup(Values(s.all), g, rest, Gathered(ticks, s.iterations, e.iterations, body, decode), Values(n.scan.all));
    }
  }

  /** What one iteration that saw new requests does to the gathered list. */
  lemma StepGathers(s: Scan, t: Tick, body: Bodies, decode: Decoder)
    requires t.beforeCheck != []
    requires Retried(s.iterations, t.beforeCheck + t.beforeSlice, body, decode).Reviews?
    ensures !Step(s, t, body, decode).aborted
    ensures var got := Retried(s.iterations, t.beforeCheck + t.beforeSlice, body, decode).entries;
      Step(s, t, body, decode).scan.all == if got != [] then ArrayMerge(s.all, got) else s.all
  {
    StepBusy(s, t, body, decode);
  }

  /** One iteration appends its harvest to the gathered list. */
  lemma StepAppends(s: Scan, t: Tick, body: Bodies, decode: Decoder)
    requires IsList(s.all) && ListBodies(body, decode)
    ensures !Step(s, t, body, decode).aborted
    ensures IsList(Step(s, t, body, decode).scan.all)
    ensures Values(Step(s, t, body, decode).scan.all) == Values(s.all) + Got(s.iterations, t, body, decode)
  {
    if t.beforeCheck == [] {
      assert Values(s.all) + [] == Values(s.all);
    } else {
      var newIds := t.beforeCheck + t.beforeSlice;
      var h := Retried(s.iterations, newIds, body, decode);
      assert h.Reviews? && IsList(h.entries) by {
        RetriedValues(s.iterations, newIds, body, decode);
      }
      var got := h.entries;
      assert Got(s.iterations, t, body, decode) == Values(got);
      StepGathers(s, t, body, decode);
      if got == [] {
        assert Values(s.all) + [] == Values(s.all);
      } else {
        ArrayMergeLists(s.all, got);
      }
    }
  }
}
