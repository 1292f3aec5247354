/**
 * `SaveSettingsRequest`: the validation of the settings form. `yandex_url` is required, a string,
 * a URL, and must match `/yandex\.\w+\/maps/i`; a failed match is reported with the form's own
 * message.
 */
module SaveSettingsRequest {
  import opened Wrappers
  import opened Text
  import opened Php

  /** `yandex\.` matches at `p`, letters in either case (the `i` flag). */
  predicate HostAt(s: string, p: nat) {
    && p + 7 <= |s|
    && LowerChar(s[p]) == 'y' && LowerChar(s[p + 1]) == 'a' && LowerChar(s[p + 2]) == 'n'
    && LowerChar(s[p + 3]) == 'd' && LowerChar(s[p + 4]) == 'e' && LowerChar(s[p + 5]) == 'x'
    && s[p + 6] == '.'
  }

  /** `\/maps` matches at `q`, letters in either case. */
  predicate MapsAt(s: string, q: nat) {
    && q + 5 <= |s|
    && s[q] == '/'
    && LowerChar(s[q + 1]) == 'm' && LowerChar(s[q + 2]) == 'a' && LowerChar(s[q + 3]) == 'p'
    && LowerChar(s[q + 4]) == 's'
  }

  /** `yandex\.\w+\/maps` matches `s[p..q + 5]`, the word characters being `s[p + 7..q]`. */
  predicate MatchSpan(s: string, p: nat, q: nat) {
    && HostAt(s, p)
    && p + 7 < q <= |s|
    && (forall j :: p + 7 <= j < q ==> IsWordChar(s[j]))
    && MapsAt(s, q)
  }

  /** The design's rule: 'yandex.', one or more word characters and '/maps', anywhere, in any case. */
  ghost predicate YandexMapsLink(s: string) {
    exists p: nat, q: nat :: MatchSpan(s, p, q)
  }

  /**
   * The match PCRE tries at `p`: since '/' is no word character, `\w+` can only give back its
   * whole run before '/maps'.
   */
  predicate MatchAt(s: string, p: nat) {
    HostAt(s, p) &&
    var q := WordRunEnd(s, p + 7);
    q > p + 7 && MapsAt(s, q)
  }

  /** `preg_match`, trying every start from `from` on. */
  predicate MatchFrom(s: string, from: nat)
    decreases |s| - from
  {
    from < |s| && (MatchAt(s, from) || MatchFrom(s, from + 1))
  }

  /** The word run of a match is the whole run before '/maps'. */
  lemma SpanEndsRun(s: string, p: nat, q: nat)
    requires MatchSpan(s, p, q)
    ensures WordRunEnd(s, p + 7) == q
  {
    assert !IsWordChar(s[q]);
  }

  /** A match at `p` is exactly what `MatchSpan` describes. */
  lemma MatchAtIff(s: string, p: nat)
    ensures MatchAt(s, p) <==> exists q: nat :: MatchSpan(s, p, q)
  {
    if exists q: nat :: MatchSpan(s, p, q) {
      var q: nat :| MatchSpan(s, p, q);
      SpanEndsRun(s, p, q);
    }
    if MatchAt(s, p) {
      var q := WordRunEnd(s, p + 7);
      assert MatchSpan(s, p, q);
    }
  }

  /** The search from `from` finds a match exactly when one starts at or after `from`. */
  lemma {:induction false} MatchFromIff(s: string, from: nat)
    ensures MatchFrom(s, from) <==> exists p: nat, q: nat :: from <= p && MatchSpan(s, p, q)
    decreases |s| - from
  {
    if from < |s| {
      MatchAtIff(s, from);
      MatchFromIff(s, from + 1);
      if exists p: nat, q: nat :: from <= p && MatchSpan(s, p, q) {
        var p: nat, q: nat :| from <= p && MatchSpan(s, p, q);
        assert p == from || from + 1 <= p;
      }
    } else {
      forall p: nat, q: nat | from <= p && MatchSpan(s, p, q) ensures false {
      }
    }
  }

  /** The regex rule accepts exactly the design's Yandex Maps links. */
  lemma RegexIsYandexMapsLink(s: string)
    ensures MatchFrom(s, 0) <==> YandexMapsLink(s)
  {
    MatchFromIff(s, 0);
  }

  /** No match starts at or after `from` when the rest of `s` has no 'y' in either case. */
  lemma {:induction false} NoMatchWithoutY(s: string, from: nat)
    requires forall p :: from <= p < |s| ==> LowerChar(s[p]) != 'y'
    ensures !MatchFrom(s, from)
    decreases |s| - from
  {
    if from < |s| {
      NoMatchWithoutY(s, from + 1);
    }
  }

  /** A Turkish mirror is refused: after 'yandex.' the word run "com" is followed by '.', not '/maps'. */
  lemma RejectsTurkishMirror()
    ensures !YandexMapsLink("yandex.com.tr/maps")
  {
    var s := "yandex.com.tr/maps";
    assert WordRunEnd(s, 7) == 10;
    assert !MatchAt(s, 0);
    assert forall p :: 1 <= p < |s| ==> LowerChar(s[p]) != 'y';
    NoMatchWithoutY(s, 1);
    RegexIsYandexMapsLink(s);
  }

  /** Letters in any case are accepted. */
  lemma AcceptsAnyCase()
    ensures YandexMapsLink("YANDEX.RU/Maps")
  {
    assert MatchSpan("YANDEX.RU/Maps", 0, 9);
  }

  /** The rules of `yandex_url`, in the order they are checked. */
  datatype Rule = Required | IsString | Url | Regex

  /** Every character of `s` is one that PHP's `trim` strips. */
  predicate Blank(s: string) {
    forall i :: 0 <= i < |s| ==> IsTrimChar(s[i])
  }

  /**
   * Laravel's `required`: fails on a missing or null value, a string that `trim` empties (see
   * `BlankIffTrimmedEmpty`) and an empty array.
   */
  predicate RequiredFails(input: Option<Value>) {
    match input
    case None => true
    case Some(v) => v.Null? || (v.Str? && Blank(v.s)) || (v.Arr? && v.entries == [])
  }

  /** The text `preg_match` reads from a value the regex rule accepts (strings and numbers). */
  function RegexSubject(v: Value): Option<string> {
    match v
    case Str(s) => Some(s)
    case Int(i) => Some(IntToString(i))
    case Float(repr) => Some(repr)
    case _ => None
  }

  /** The regex rule on a present value: `preg_match` on a string or number finds a match. */
  predicate RegexPasses(v: Value) {
    RegexSubject(v).Some? && MatchFrom(RegexSubject(v).value, 0)
  }

  /** Rule `r` fails on the present value `v`; `isUrl` is Laravel's `url` rule on a string. */
  predicate Fails(r: Rule, v: Value, isUrl: string -> bool) {
    match r
    case Required => RequiredFails(Some(v))
    case IsString => !v.Str?
    case Url => !(v.Str? && isUrl(v.s))
    case Regex => !RegexPasses(v)
  }

  /** The rules of `rs` that fail on `v`, in order. */
  function Failing(rs: seq<Rule>, v: Value, isUrl: string -> bool): (fs: seq<Rule>)
    ensures forall r :: r in fs <==> r in rs && Fails(r, v, isUrl)
  {
    if rs == [] then []
    else (if Fails(rs[0], v, isUrl) then [rs[0]] else []) + Failing(rs[1..], v, isUrl)
  }

  /**
   * The rules that fail for the value `input` of `yandex_url`, in order. A failed `required` stops
   * the others.
   */
  function Failures(input: Option<Value>, isUrl: string -> bool): (fs: seq<Rule>)
    ensures RequiredFails(input) <==> Required in fs
    ensures RequiredFails(input) ==> fs == [Required]
    ensures !RequiredFails(input) ==> forall r :: r in fs <==> r != Required && Fails(r, input.value, isUrl)
  {
    if RequiredFails(input) then [Required]
    else Failing([IsString, Url, Regex], input.value, isUrl)
  }

  /** `messages()`: only the regex rule has its own message. */
  function CustomMessage(r: Rule): (m: Option<string>)
    ensures m.Some? <==> r == Regex
  {
    if r == Regex then Some("The URL must be a valid Yandex Maps link.") else None
  }

  /** Dropping the `trim` characters leaves something when one character is not one of them. */
  lemma {:induction false} TrimKeeps(s: string, i: nat)
    requires i < |s| && !IsTrimChar(s[i])
    ensures PhpTrim(s) != ""
    decreases |s|
  {
    LTrimKeeps(s, i);
    var l := LTrimChars(s);
    var k := i - (|s| - |l|);
    assert l[k] == s[i];
    RTrimKeeps(l, k);
  }

  lemma {:induction false} LTrimKeeps(s: string, i: nat)
    requires i < |s| && !IsTrimChar(s[i])
    ensures |s| - |LTrimChars(s)| <= i
    decreases |s|
  {
    if IsTrimChar(s[0]) {
      LTrimKeeps(s[1..], i - 1);
    }
  }

  lemma {:induction false} RTrimKeeps(s: string, i: nat)
    requires i < |s| && !IsTrimChar(s[i])
    ensures i < |RTrimChars(s)|
    decreases |s|
  {
    if IsTrimChar(s[|s| - 1]) {
      RTrimKeeps(s[..|s| - 1], i);
    }
  }

  /** A Yandex Maps link is never blank. */
  lemma LinkNotBlank(s: string)
    requires YandexMapsLink(s)
    ensures !Blank(s)
  {
    var p: nat, q: nat :| MatchSpan(s, p, q);
    assert !IsTrimChar(s[p]);
  }

  /** `Blank` is exactly what `trim` empties. */
  lemma BlankIffTrimmedEmpty(s: string)
    ensures Blank(s) <==> PhpTrim(s) == ""
  {
    if Blank(s) {
      LTrimBlank(s);
    } else {
      var i :| 0 <= i < |s| && !IsTrimChar(s[i]);
      TrimKeeps(s, i);
    }
  }

  lemma {:induction false} LTrimBlank(s: string)
    requires Blank(s)
    ensures LTrimChars(s) == []
    decreases |s|
  {
    if s != [] {
      assert Blank(s[1..]) by {
        forall i | 0 <= i < |s| - 1 ensures IsTrimChar(s[1..][i]) {
          assert s[1..][i] == s[i + 1];
        }
      }
      LTrimBlank(s[1..]);
    }
  }

  /**
   * The form is accepted exactly when `yandex_url` is a string that the `url` rule accepts and
   * that is a Yandex Maps link.
   */
  lemma AcceptedIff(input: Option<Value>, isUrl: string -> bool)
    ensures Failures(input, isUrl) == [] <==>
      input.Some? && input.value.Str? && isUrl(input.value.s) && YandexMapsLink(input.value.s)
  {
    var fs := Failures(input, isUrl);
    assert fs != [] ==> fs[0] in fs;
    if input.Some? && input.value.Str? {
      var s := input.value.s;
      RegexIsYandexMapsLink(s);
      if isUrl(s) && YandexMapsLink(s) {
        LinkNotBlank(s);
        assert forall r :: r !in fs;
      } else if !RequiredFails(input) {
        assert Url in fs || Regex in fs;
      }
    } else if !RequiredFails(input) {
      assert IsString in fs;
    }
  }
}
