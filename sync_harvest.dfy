/**
 * How the sync command reads reviews out of captured fetchReviews responses
 * (`SyncReviews::getResponseReviews`): for every request id, the response body is fetched
 * from the browser, decoded, and its review list merged into the result.
 *
 * The browser and the JSON decoder are parameters. `Bodies(round, id)` is the body of the
 * response to request `id` when it is asked for in `round`, or `None` when
 * `Network.getResponseBody` throws. Rounds number the calls in one run: 0 for the page the sort
 * click produced, `2i + 1` and `2i + 2` for the harvest and the retry of scroll iteration `i`.
 */
module SyncHarvest {
  import opened Wrappers
  import opened Text
  import opened Php

  type Bodies = (nat, string) -> Option<string>

  /** `json_decode($s, true)`; `None` is null (invalid JSON or the literal null). */
  type Decoder = string -> Option<Value>

  /** `$json['data']['reviews'] ?? $json['reviews'] ?? []`. */
  function PickReviews(json: Value): (r: Value)
    ensures r != Null
    ensures Path(json, [StrKey("data"), StrKey("reviews")]).Some? ==>
      r == Path(json, [StrKey("data"), StrKey("reviews")]).value
    ensures Path(json, [StrKey("data"), StrKey("reviews")]).None? && Field(json, "reviews").Some? ==>
      r == Field(json, "reviews").value
    ensures Path(json, [StrKey("data"), StrKey("reviews")]).None? && Field(json, "reviews").None? ==>
      r == Arr([])
  {
    OrElse(Path(json, [StrKey("data"), StrKey("reviews")]), Field(json, "reviews")).GetOr(Arr([]))
  }

  /**
   * What request `id` contributes in `round`: nothing for a falsy id (`if (!$reqId) continue;`)
   * or a body that could not be read, otherwise the review list of its decoded body (a body that
   * is missing reads as '').
   */
  function Reply(round: nat, id: string, body: Bodies, decode: Decoder): (r: Option<Value>)
    ensures r.Some? <==> Truthy(Str(id)) && body(round, id).Some?
  {
    if !Truthy(Str(id)) then None
    else
      match body(round, id)
      case None => None
      case Some(b) => Some(PickReviews(decode(b).GetOr(Null)))
  }

  /**
   * The result of a harvest. `array_merge` of a review list that is not an array raises a
   * `TypeError`, which the command's `catch (\Exception $e)` blocks do not catch: `Fatal`.
   */
  datatype Harvest = Reviews(entries: seq<Entry>) | Fatal

  /** The harvest of `ids`, merging into `acc`, one id after another. */
  function HarvestFrom(acc: seq<Entry>, round: nat, ids: seq<string>, body: Bodies, decode: Decoder): Harvest
    decreases |ids|
  {
    if ids == [] then Reviews(acc)
    else
      match Reply(round, ids[0], body, decode)
      case None => HarvestFrom(acc, round, ids[1..], body, decode)
      case Some(v) =>
        if v.Arr? then HarvestFrom(ArrayMerge(acc, v.entries), round, ids[1..], body, decode) else Fatal
  }

  /** `getResponseReviews($page, $ids)` in `round`. */
  method GetResponseReviews(round: nat, ids: seq<string>, body: Bodies, decode: Decoder) returns (r: Harvest)
    ensures r == HarvestFrom([], round, ids, body, decode)
  {
    var all: seq<Entry> := [];
    var i := 0;
    while i < |ids|
      invariant 0 <= i <= |ids|
      invariant HarvestFrom([], round, ids, body, decode) == HarvestFrom(all, round, ids[i..], body, decode)
    {
      assert ids[i..][1..] == ids[i + 1..];
      var id := ids[i];
      if Truthy(Str(id)) {
        var response := body(round, id);
        if response.Some? {
          var reviews := PickReviews(decode(response.value).GetOr(Null));
          if !reviews.Arr? {
            return Fatal;
          }
          all := ArrayMerge(all, reviews.entries);
        }
      }
      i := i + 1;
    }
    assert ids[i..] == [];
    return Reviews(all);
  }

  /** The ids that contribute something in `round`. */
  function Answered(round: nat, ids: seq<string>, body: Bodies, decode: Decoder): (r: seq<string>)
    ensures |r| <= |ids|
    ensures forall j :: 0 <= j < |r| ==> Reply(round, r[j], body, decode).Some?
    decreases |ids|
  {
    if ids == [] then []
    else if Reply(round, ids[0], body, decode).Some? then [ids[0]] + Answered(round, ids[1..], body, decode)
    else Answered(round, ids[1..], body, decode)
  }

  /**
   * Falsy ids and ids whose body cannot be read add nothing, and the ids after them are still
   * read: the harvest equals the harvest of the answering ids alone.
   */
  lemma {:induction false} HarvestSkipsSilentIds(acc: seq<Entry>, round: nat, ids: seq<string>, body: Bodies, decode: Decoder)
    ensures HarvestFrom(acc, round, ids, body, decode) == HarvestFrom(acc, round, Answered(round, ids, body, decode), body, decode)
    decreases |ids|
  {
    if ids != [] {
      var rest := ids[1..];
      match Reply(round, ids[0], body, decode)
      case None =>
        HarvestSkipsSilentIds(acc, round, rest, body, decode);
      case Some(v) =>
        var answered := Answered(round, ids, body, decode);
        assert answered[0] == ids[0] && answered[1..] == Answered(round, rest, body, decode);
        if v.Arr? {
          HarvestSkipsSilentIds(ArrayMerge(acc, v.entries), round, rest, body, decode);
        }
    }
  }

  /** The harvest aborts exactly when some id's review list is not an array. */
  lemma {:induction false} HarvestFatalIff(acc: seq<Entry>, round: nat, ids: seq<string>, body: Bodies, decode: Decoder)
    ensures HarvestFrom(acc, round, ids, body, decode).Fatal? <==>
      exists j :: 0 <= j < |ids| && Reply(round, ids[j], body, decode).Some? && !Reply(round, ids[j], body, decode).value.Arr?
    decreases |ids|
  {
    if ids != [] {
      var rest := ids[1..];
      var acc' := match Reply(round, ids[0], body, decode)
        case Some(v) => if v.Arr? then ArrayMerge(acc, v.entries) else acc
        case None => acc;
      HarvestFatalIff(acc', round, rest, body, decode);
      forall j | 0 <= j < |rest| ensures rest[j] == ids[j + 1] { }
      if exists j :: 0 <= j < |ids| && Reply(round, ids[j], body, decode).Some? && !Reply(round, ids[j], body, decode).value.Arr? {
        var j :| 0 <= j < |ids| && Reply(round, ids[j], body, decode).Some? && !Reply(round, ids[j], body, decode).value.Arr?;
        if j > 0 {
          assert rest[j - 1] == ids[j];
        }
      }
    }
  }

  /** A review list as JSON gives it: an array with integer keys. */
  predicate IsListValue(v: Value) {
    v.Arr? && AllIntKeys(v.entries)
  }

  /** Every id that answers in `round` answers with a list. */
  predicate ListReplies(round: nat, ids: seq<string>, body: Bodies, decode: Decoder) {
    forall j :: 0 <= j < |ids| && Reply(round, ids[j], body, decode).Some? ==> IsListValue(Reply(round, ids[j], body, decode).value)
  }

  /** The reviews of every answering id, in the order of the ids. */
  function Collected(round: nat, ids: seq<string>, body: Bodies, decode: Decoder): seq<Value>
    decreases |ids|
  {
    if ids == [] then []
    else
      (match Reply(round, ids[0], body, decode)
       case Some(v) => if v.Arr? then Values(v.entries) else []
       case None => [])
      + Collected(round, ids[1..], body, decode)
  }

  lemma ListRepliesTail(round: nat, ids: seq<string>, body: Bodies, decode: Decoder)
    requires ids != [] && ListReplies(round, ids, body, decode)
    ensures ListReplies(round, ids[1..], body, decode)
    ensures Reply(round, ids[0], body, decode).Some? ==> IsListValue(Reply(round, ids[0], body, decode).value)
  {
    var rest := ids[1..];
    forall j | 0 <= j < |rest| ensures rest[j] == ids[j + 1] { }
  }

  /** The harvest at an id answering with an array continues from the merge. */
  lemma HarvestStep(acc: seq<Entry>, es: seq<Entry>, round: nat, ids: seq<string>, body: Bodies, decode: Decoder)
    requires ids != [] && Reply(round, ids[0], body, decode) == Some(Arr(es))
    ensures HarvestFrom(acc, round, ids, body, decode) == HarvestFrom(ArrayMerge(acc, es), round, ids[1..], body, decode)
  {
  }

  lemma CollectedStep(es: seq<Entry>, round: nat, ids: seq<string>, body: Bodies, decode: Decoder)
    requires ids != [] && Reply(round, ids[0], body, decode) == Some(Arr(es))
    ensures Collected(round, ids, body, decode) == Values(es) + Collected(round, ids[1..], body, decode)
  {
  }

  /**
   * When every answer is a list, the harvest is the list of all their reviews, in order, after
   * those already collected: nothing is lost or reordered by the merges.
   */
  lemma {:induction false} HarvestOfLists(acc: seq<Entry>, round: nat, ids: seq<string>, body: Bodies, decode: Decoder)
    requires IsList(acc)
    requires ListReplies(round, ids, body, decode)
    ensures HarvestFrom(acc, round, ids, body, decode).Reviews?
    ensures IsList(HarvestFrom(acc, round, ids, body, decode).entries)
    ensures Values(HarvestFrom(acc, round, ids, body, decode).entries) == Values(acc) + Collected(round, ids, body, decode)
    decreases |ids|, 1
  {
    if ids == [] {
      assert Values(acc) + [] == Values(acc);
    } else {
      ListRepliesTail(round, ids, body, decode);
      var later := Collected(round, ids[1..], body, decode);
      if Reply(round, ids[0], body, decode).None? {
        assert [] + later == later;
        HarvestOfLists(acc, round, ids[1..], body, decode);
      } else {
        HarvestOfListsAnswered(acc, round, ids, body, decode);
      }
    }
  }

  /** `HarvestOfLists` when the first id answers. */
  lemma {:induction false} HarvestOfListsAnswered(acc: seq<Entry>, round: nat, ids: seq<string>, body: Bodies, decode: Decoder)
    requires IsList(acc)
    requires ids != [] && Reply(round, ids[0], body, decode).Some?
    requires ListReplies(round, ids, body, decode)
    ensures HarvestFrom(acc, round, ids, body, decode).Reviews?
    ensures IsList(HarvestFrom(acc, round, ids, body, decode).entries)
    ensures Values(HarvestFrom(acc, round, ids, body, decode).entries) == Values(acc) + Collected(round, ids, body, decode)
    decreases |ids|, 0
  {
    ListRepliesTail(round, ids, body, decode);
    var es := Reply(round, ids[0], body, decode).value.entries;
    var later := Collected(round, ids[1..], body, decode);
    var merged := ArrayMerge(acc, es);
    HarvestStep(acc, es, round, ids, body, decode);
    CollectedStep(es, round, ids, body, decode);
    ArrayMergeLists(acc, es);
    HarvestOfLists(merged, round, ids[1..], body, decode);
    Regroup(Values(acc), Values(es), later, Collected(round, ids, body, decode), Values(merged));
  }
}
