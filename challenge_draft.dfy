/** The payload both challenge-creation endpoints build from a request
    body (`api/challenges.js` POST and `api/challenges/index.js`): the
    required-field check, the normalisation of `images`, and the defaults
    of the optional columns. */
module ChallengeDraft {
  import opened Base
  import opened Js
  import opened Text
  import opened Store

  /** `!name || !email || !title` fails: all three are truthy. */
  predicate RequiredGiven(body: Value)
  {
    Truthy(Field(body, "name")) && Truthy(Field(body, "email")) && Truthy(Field(body, "title"))
  }

  /** The outcome of the images normalisation: a 400 refusal, or the value
      to store. */
  datatype ImagesResult = BadImages | Images(value: Value)

  /** A string must parse as JSON and is kept as it is; an array is
      JSON-stringified; any other falsy value is refused; anything else
      passes through unchanged. */
  function NormalizeImages(images: Value, json: Json): (r: ImagesResult)
    ensures images.Str? ==> (r.BadImages? <==> json.parse(images.s).None?)
    ensures images.Str? && r.Images? ==> r.value == images
    ensures images.Arr? ==> r == Images(Str(json.stringify(images)))
    ensures !images.Str? && !images.Arr? ==> (r.BadImages? <==> !Truthy(images))
    ensures r.Images? && !images.Arr? ==> r.value == images
  {
    if images.Str? then
      if json.parse(images.s).None? then BadImages else Images(images)
    else if images.Arr? then Images(Str(json.stringify(images)))
    else if !Truthy(images) then BadImages
    else Images(images)
  }

  /** A stored images value is a string, or a truthy value that is neither
      a string nor an array; it is never an array and never falsy unless it
      is the text of some JSON. */
  lemma NormalizedImagesShape(images: Value, json: Json)
    ensures var r := NormalizeImages(images, json);
            r.Images? ==> (r.value.Str? || (Truthy(r.value) && !r.value.Arr?))
    ensures var r := NormalizeImages(images, json);
            r.Images? && r.value.Str? ==>
              json.parse(r.value.s).Some? || (images.Arr? && r.value == Str(json.stringify(images)))
  {
  }

  /** With a codec whose stringified output parses again, normalising an
      already normalised value changes nothing: a client may send the
      images pre-stringified or as an array and the stored text is the
      same. */
  lemma NormalizeImagesIdempotent(images: Value, json: Json)
    requires forall v :: json.parse(json.stringify(v)).Some?
    ensures NormalizeImages(images, json).Images? ==>
              NormalizeImages(NormalizeImages(images, json).value, json) == NormalizeImages(images, json)
  {
    if images.Arr? {
      assert json.parse(json.stringify(images)).Some?;
    }
  }

  /** The defaults of the optional columns: `motivation || ""`,
      `plan || ""`, `status || "In Progress"`, `progress || 0`,
      `likes || 0`, `money || 0`; `start_date` is today's UTC date and
      `end_date`, when given, is 14 days later. */
  function FullDraft(body: Value, images: Value, now: int, withEnd: bool): (d: Draft)
    ensures d.name == Field(body, "name") && d.email == Field(body, "email")
    ensures d.title == Field(body, "title") && d.images == images
    ensures d.status.Some? && Truthy(d.status.value)
    ensures d.startDate == Some(DateOnly(DayOf(now)))
    ensures withEnd <==> d.endDay.Some?
    ensures withEnd ==> d.endDay.value == DayOf(now) + 14
  {
    Draft(
      Field(body, "name"),
      Field(body, "email"),
      Field(body, "title"),
      Or(Field(body, "motivation"), Str("")),
      Or(Field(body, "plan"), Str("")),
      Some(Or(Field(body, "status"), Str("In Progress"))),
      Some(Or(Field(body, "progress"), FromInt(0))),
      Some(Or(Field(body, "likes"), FromInt(0))),
      images,
      Some(DateOnly(DayOf(now))),
      if withEnd then Some(DayOf(now) + 14) else None,
      Or(Field(body, "money"), FromInt(0)))
  }

  /** A defaulted column keeps the client's value when it is truthy and
      otherwise holds the default. */
  lemma DefaultsFill(body: Value, images: Value, now: int, withEnd: bool)
    ensures var d := FullDraft(body, images, now, withEnd);
            && (Truthy(Field(body, "motivation")) ==> d.motivation == Field(body, "motivation"))
            && (!Truthy(Field(body, "motivation")) ==> d.motivation == Str(""))
            && (Truthy(Field(body, "plan")) ==> d.plan == Field(body, "plan"))
            && (!Truthy(Field(body, "plan")) ==> d.plan == Str(""))
            && (Truthy(Field(body, "status")) ==> d.status == Some(Field(body, "status")))
            && (!Truthy(Field(body, "status")) ==> d.status == Some(Str("In Progress")))
            && (Truthy(Field(body, "progress")) ==> d.progress == Some(Field(body, "progress")))
            && (!Truthy(Field(body, "progress")) ==> d.progress == Some(Num("0")))
            && (Truthy(Field(body, "likes")) ==> d.likes == Some(Field(body, "likes")))
            && (!Truthy(Field(body, "likes")) ==> d.likes == Some(Num("0")))
            && (!Truthy(Field(body, "money")) ==> d.money == Num("0"))
            && (Truthy(Field(body, "money")) ==> d.money == Field(body, "money"))
  {
    assert NatToString(0) == "0";
  }
}
