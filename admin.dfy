/** The admin page's form checks (the media-item and guiding-question schemas) and the
    payload the media-item form sends. The schemas are read on the raw form values. */
module Admin {
  import opened Common

  /** The values of the `type` select. */
  const MediaTypeOptions: seq<string> := ["book", "course", "podcast", "movie", "game", "debate"]

  /** The raw media-item form, one JSON value per field (`JsUndefined` when the field is absent). */
  datatype MediaForm = MediaForm(
    title: JsValue,
    mediaType: JsValue,
    author: JsValue,
    description: JsValue,
    avgMindExpanding: JsValue,
    avgInformative: JsValue,
    avgEntertaining: JsValue,
    imageUrl: JsValue)

  /** The form data the schema hands on; `imageUrl` is `None` when the field was absent. */
  datatype MediaFormData = MediaFormData(
    title: string,
    mediaType: string,
    author: string,
    description: string,
    avgMindExpanding: real,
    avgInformative: real,
    avgEntertaining: real,
    imageUrl: Option<string>)

  /** The length JavaScript gives a string: its UTF-16 code units, two for a character above U+FFFF. */
  function Utf16Length(s: string): (n: nat)
    ensures |s| <= n <= 2 * |s|
    ensures n == 0 <==> s == []
  {
    if s == [] then 0 else (if s[0] as int > 0xFFFF then 2 else 1) + Utf16Length(s[1..])
  }

  /** A string without characters above U+FFFF has as many code units as characters. */
  lemma {:induction false} Utf16LengthOfBmp(s: string)
    requires forall i :: 0 <= i < |s| ==> s[i] as int <= 0xFFFF
    ensures Utf16Length(s) == |s|
  {
    if s != [] {
      assert forall i :: 0 <= i < |s[1..]| ==> s[1..][i] == s[i + 1];
      Utf16LengthOfBmp(s[1..]);
    }
  }

  /** A required text field: a string of at least one character (one code unit exactly when one character). */
  function RequiredString(v: JsValue): Option<string> {
    if v.JsString? && |v.s| >= 1 then Some(v.s) else None
  }

  /** An average: a number in [1, 5]; an absent field takes the default 3. */
  function Average(v: JsValue): Option<real> {
    match v
    case JsUndefined => Some(3.0)
    case JsNumber(n) => if 1.0 <= n <= 5.0 then Some(n) else None
    case _ => None
  }

  /** The image URL: absent, empty, or a string the validation library's URL test (`isUrl`) accepts. */
  function ImageUrl(v: JsValue, isUrl: string -> bool): Option<Option<string>> {
    match v
    case JsUndefined => Some(None)
    case JsString(s) => if s == "" || isUrl(s) then Some(Some(s)) else None
    case _ => None
  }

  /** What every accepted form satisfies. */
  ghost predicate ValidData(d: MediaFormData, isUrl: string -> bool) {
    && d.title != "" && d.author != "" && d.description != ""
    && d.mediaType in MediaTypeOptions
    && 1.0 <= d.avgMindExpanding <= 5.0
    && 1.0 <= d.avgInformative <= 5.0
    && 1.0 <= d.avgEntertaining <= 5.0
    && (d.imageUrl.Some? ==> d.imageUrl.value == "" || isUrl(d.imageUrl.value))
  }

  /** The media-item schema applied to a form: the data, or `None` when any field is rejected. */
  function ParseMediaForm(f: MediaForm, isUrl: string -> bool): (r: Option<MediaFormData>)
    ensures r.Some? ==> ValidData(r.value, isUrl)
    ensures r.Some? ==> (f.title == JsString(r.value.title) && f.author == JsString(r.value.author)
                         && f.description == JsString(r.value.description) && f.mediaType == JsString(r.value.mediaType))
    ensures r.Some? ==> (f.avgMindExpanding.JsUndefined? && r.value.avgMindExpanding == 3.0)
                        || (f.avgMindExpanding.JsNumber? && r.value.avgMindExpanding == f.avgMindExpanding.n)
    ensures r.Some? ==> (f.avgInformative.JsUndefined? && r.value.avgInformative == 3.0)
                        || (f.avgInformative.JsNumber? && r.value.avgInformative == f.avgInformative.n)
    ensures r.Some? ==> (f.avgEntertaining.JsUndefined? && r.value.avgEntertaining == 3.0)
                        || (f.avgEntertaining.JsNumber? && r.value.avgEntertaining == f.avgEntertaining.n)
    ensures r.Some? ==> (f.imageUrl.JsUndefined? && r.value.imageUrl.None?)
                        || (f.imageUrl.JsString? && r.value.imageUrl == Some(f.imageUrl.s))
  {
    match (RequiredString(f.title), RequiredString(f.mediaType), RequiredString(f.author), RequiredString(f.description),
           Average(f.avgMindExpanding), Average(f.avgInformative), Average(f.avgEntertaining), ImageUrl(f.imageUrl, isUrl))
    case (Some(title), Some(t), Some(author), Some(description), Some(m), Some(i), Some(e), Some(url)) =>
      if t in MediaTypeOptions then Some(MediaFormData(title, t, author, description, m, i, e, url)) else None
    case _ => None
  }

  /** Writing valid data back into the form. */
  function FormOf(d: MediaFormData): MediaForm {
    MediaForm(JsString(d.title), JsString(d.mediaType), JsString(d.author), JsString(d.description),
              JsNumber(d.avgMindExpanding), JsNumber(d.avgInformative), JsNumber(d.avgEntertaining),
              match d.imageUrl case Some(u) => JsString(u) case None => JsUndefined)
  }

  /** Every valid record, written into the form, is accepted and read back unchanged. */
  lemma ParseFormOf(d: MediaFormData, isUrl: string -> bool)
    requires ValidData(d, isUrl)
    ensures ParseMediaForm(FormOf(d), isUrl) == Some(d)
  {
  }

  /** What the schema demands of the raw form: non-empty text fields, one of the six types, each
      average omitted or a number in [1, 5], and the image URL omitted, empty or a URL. */
  predicate AcceptableForm(f: MediaForm, isUrl: string -> bool) {
    && f.title.JsString? && f.title.s != ""
    && f.author.JsString? && f.author.s != ""
    && f.description.JsString? && f.description.s != ""
    && f.mediaType.JsString? && f.mediaType.s in MediaTypeOptions
    && !BadAverage(f.avgMindExpanding) && !BadAverage(f.avgInformative) && !BadAverage(f.avgEntertaining)
    && (f.imageUrl.JsUndefined? || (f.imageUrl.JsString? && (f.imageUrl.s == "" || isUrl(f.imageUrl.s))))
  }

  /** The schema accepts a form exactly when it is acceptable, and an omitted average then reads as 3. */
  lemma AcceptedExactly(f: MediaForm, isUrl: string -> bool)
    ensures ParseMediaForm(f, isUrl).Some? <==> AcceptableForm(f, isUrl)
    ensures AcceptableForm(f, isUrl) && f.avgMindExpanding.JsUndefined? ==> ParseMediaForm(f, isUrl).value.avgMindExpanding == 3.0
    ensures AcceptableForm(f, isUrl) && f.avgInformative.JsUndefined? ==> ParseMediaForm(f, isUrl).value.avgInformative == 3.0
    ensures AcceptableForm(f, isUrl) && f.avgEntertaining.JsUndefined? ==> ParseMediaForm(f, isUrl).value.avgEntertaining == 3.0
  {
  }

  /** An average field that is neither absent nor a number in [1, 5]. */
  predicate BadAverage(v: JsValue) {
    !(v.JsUndefined? || (v.JsNumber? && 1.0 <= v.n <= 5.0))
  }

  /** Any one average out of [1, 5], or not a number at all, rejects the form, whatever the other fields hold. */
  lemma AverageOutOfRangeRejected(f: MediaForm, isUrl: string -> bool)
    requires BadAverage(f.avgMindExpanding) || BadAverage(f.avgInformative) || BadAverage(f.avgEntertaining)
    ensures ParseMediaForm(f, isUrl).None?
  {
  }

  /** The form's initial values (empty title, author and description) are not yet acceptable. */
  lemma InitialFormRejected(isUrl: string -> bool)
    ensures ParseMediaForm(MediaForm(JsString(""), JsString("book"), JsString(""), JsString(""),
                                     JsNumber(3.0), JsNumber(3.0), JsNumber(3.0), JsString("")), isUrl).None?
  {
  }

  /** `guidingQuestionSchema`: the question, when it is a string of 5 to 500 UTF-16 code units. */
  function ParseQuestion(question: JsValue): (r: Option<string>)
    ensures r.Some? ==> question == JsString(r.value) && 5 <= Utf16Length(r.value) <= 500
    ensures question.JsString? && 5 <= Utf16Length(question.s) <= 500 ==> r.Some?
    ensures r.Some? ==> 3 <= |r.value| <= 500
  {
    if question.JsString? && 5 <= Utf16Length(question.s) <= 500 then Some(question.s) else None
  }

  /** The request body of `POST /api/media`; `imageUrl` is `None` for `null`. */
  datatype MediaPayload = MediaPayload(
    title: string,
    mediaType: string,
    author: string,
    description: string,
    avgMindExpanding: real,
    avgInformative: real,
    avgEntertaining: real,
    imageUrl: Option<string>)

  /** A falsy (zero) average falls back to 3.0. */
  function OrThree(x: real): real { if x != 0.0 then x else 3.0 }

  /** The body sent for a new media item: the form data, with falsy averages replaced by 3.0 and
      an absent or empty image URL sent as null. */
  function Payload(d: MediaFormData): (p: MediaPayload)
    ensures p.title == d.title && p.mediaType == d.mediaType && p.author == d.author && p.description == d.description
    ensures p.avgMindExpanding != 0.0 && p.avgInformative != 0.0 && p.avgEntertaining != 0.0
    ensures p.imageUrl.Some? ==> p.imageUrl.value != ""
    ensures p.imageUrl.Some? <==> d.imageUrl.Some? && d.imageUrl.value != ""
  {
    MediaPayload(d.title, d.mediaType, d.author, d.description,
                 OrThree(d.avgMindExpanding), OrThree(d.avgInformative), OrThree(d.avgEntertaining),
                 match d.imageUrl case Some(u) => if u != "" then Some(u) else None case None => None)
  }

  /** On accepted data the `|| 3.0` fallbacks never fire, and the image URL sent is a URL or null. */
  lemma PayloadOfValidData(d: MediaFormData, isUrl: string -> bool)
    requires ValidData(d, isUrl)
    ensures Payload(d).avgMindExpanding == d.avgMindExpanding
    ensures Payload(d).avgInformative == d.avgInformative
    ensures Payload(d).avgEntertaining == d.avgEntertaining
    ensures Payload(d).imageUrl.Some? ==> isUrl(Payload(d).imageUrl.value)
  {
  }
}
