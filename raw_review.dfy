/**
 * One review record as Yandex's fetchReviews API and embedded page config deliver it, and the
 * `??` fallback chains both the sync command and the review service read it with.
 */
module RawReview {
  import opened Wrappers
  import opened Text
  import opened Php

  /** The message of the exception PHP's error handler raises for an array used as a string. */
  const ArrayToString: string := "Array to string conversion"

  /** `$raw['author']['name']`. */
  function AuthorName(raw: Value): (r: Option<Value>)
    ensures r != Some(Null)
  {
    Path(raw, [StrKey("author"), StrKey("name")])
  }

  /** `$raw['updatedTime'] ?? $raw['date']`. */
  function DateOf(raw: Value): (r: Option<Value>)
    ensures r != Some(Null)
    ensures r.Some? <==> Field(raw, "updatedTime").Some? || Field(raw, "date").Some?
  {
    OrElse(Field(raw, "updatedTime"), Field(raw, "date"))
  }

  /** `$raw['author']['name'] ?? 'Anonymous'`. */
  function Author(raw: Value): (r: Value)
    ensures r != Null
  {
    AuthorName(raw).GetOr(Str("Anonymous"))
  }

  /** `(int) ($raw['rating'] ?? 0)`. */
  function Stars(raw: Value): int {
    IntCast(Field(raw, "rating").GetOr(Int(0)))
  }

  /** `$raw['text'] ?? ''`. */
  function TextOf(raw: Value): (r: Value)
    ensures r != Null
  {
    Field(raw, "text").GetOr(Str(""))
  }

  /** `$raw['businessName'] ?? $raw['orgName'] ?? null`; `None` is null. */
  function Branch(raw: Value): (r: Option<Value>)
    ensures r != Some(Null)
  {
    OrElse(Field(raw, "businessName"), Field(raw, "orgName"))
  }

  /**
   * `$raw['reviewId'] ?? $raw['id'] ?? md5(($raw['author']['name'] ?? '') . ($raw['updatedTime'] ??
   * $raw['date'] ?? ''))`, with `md5` given. The hash's operands are only evaluated when neither id
   * is set; an array among them makes the concatenation throw.
   */
  function ExternalId(raw: Value, md5: string -> string): (r: Result<Value>)
    ensures Field(raw, "reviewId").Some? ==> r == Ok(Field(raw, "reviewId").value)
    ensures Field(raw, "reviewId").None? && Field(raw, "id").Some? ==> r == Ok(Field(raw, "id").value)
    ensures r.Err? <==>
      && Field(raw, "reviewId").None? && Field(raw, "id").None?
      && (AuthorName(raw).GetOr(Str("")).Arr? || DateOf(raw).GetOr(Str("")).Arr?)
    ensures r.Err? ==> r.message == ArrayToString
    ensures r.Ok? ==> r.value != Null
  {
    match OrElse(Field(raw, "reviewId"), Field(raw, "id"))
    case Some(v) => Ok(v)
    case None =>
      var name := AsText(AuthorName(raw).GetOr(Str("")));
      var date := AsText(DateOf(raw).GetOr(Str("")));
      if name.None? || date.None? then Err(ArrayToString)
      else Ok(Str(md5(name.value + date.value)))
  }

  /** A review as the page-config parser emits it; `None` stands for null. */
  datatype ParsedReview = ParsedReview(
    author: Value,
    date: Option<Value>,
    rating: int,
    text: Value,
    branch: Option<Value>,
    phone: Option<Value>)

  /** The output record of the page-config parser for one raw review. */
  function Normalize(raw: Value): (r: ParsedReview)
    ensures r.phone.None?
    ensures r.author != Null && r.text != Null
    ensures r.date != Some(Null) && r.branch != Some(Null)
  {
    ParsedReview(Author(raw), DateOf(raw), Stars(raw), TextOf(raw), Branch(raw), None)
  }

  /**
   * A record that is not an array answers no field, so every default applies: author
   * "Anonymous", no date, rating 0, text "", no branch, no phone, and the hash of the empty string
   * as its id.
   */
  lemma ScalarRecordDefaults(raw: Value, md5: string -> string)
    requires !raw.Arr?
    ensures Normalize(raw) == ParsedReview(Str("Anonymous"), None, 0, Str(""), None, None)
    ensures ExternalId(raw, md5) == Ok(Str(md5("")))
  {
    assert Field(raw, "author").None?;
    assert AuthorName(raw).None?;
  }
}
