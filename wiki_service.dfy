/** The encyclopedia client, without the GET request itself: the mapping from
    the HTTP status and the decoded body of the page-summary endpoint to the
    topic record the controller uses, and the fun fact derived from it. */
module WikiService {
  import opened Wrappers
  import opened Strings
  import opened Errors

  /** The fields of the endpoint's JSON body that the code reads; the empty
      string stands for a field that is missing or falsy. `thumbnail` is
      `thumbnail.source` and `desktopPage` is `content_urls.desktop.page`. */
  datatype WikiData = WikiData(
    title: string,
    extract: string,
    description: string,
    thumbnail: string,
    desktopPage: string)

  /** What `resp.json()` produced: a syntax error, the literal `null`, or a
      record. */
  datatype WikiBody = Unreadable(error: string) | NullBody | Record(data: WikiData)

  /** What the GET request produced: a rejected `fetch` or a response. */
  datatype WikiResponse =
    | NetworkFailure(message: string)
    | Response(status: nat, body: WikiBody)

  /** The object `fetchTopicData` returns; `None` is `null`/`undefined`. */
  datatype WikiResult = WikiResult(
    title: string,
    extract: string,
    description: string,
    thumbnail: Option<string>,
    desktopPage: Option<string>,
    funFact: Option<string>)

  /** `resp.ok` */
  predicate IsSuccess(status: nat) {
    200 <= status <= 299
  }

  const FunFactIntro := "Did you know? "
  const NoDescriptionTail := " is a topic on Wikipedia."

  /** `a || b` on strings. */
  function OrElse(a: string, b: string): (r: string)
    ensures r == (if a != "" then a else b)
  {
    if a != "" then a else b
  }

  function NonEmpty(s: string): (r: Option<string>)
    ensures r.Some? <==> s != ""
    ensures r.Some? ==> r.value == s
  {
    if s != "" then Some(s) else None
  }

  /** `buildFunFact(data)`: nothing without a title; otherwise a sentence that
      opens with the intro and the title and then gives the description, or
      says that the title is a topic on Wikipedia. */
  function BuildFunFact(data: Option<WikiData>): (r: Option<string>)
    ensures r.None? <==> data.None? || data.value.title == ""
    ensures r.Some? ==>
      var t := data.value.title;
      var d := data.value.description;
      && |r.value| > |FunFactIntro + t|
      && r.value[..|FunFactIntro + t|] == FunFactIntro + t
      && (d != "" ==> r.value[|FunFactIntro + t|..] == " \U{2014} " + d + ".")
      && (d == "" ==> r.value[|FunFactIntro + t|..] == NoDescriptionTail)
  {
    match data
    case None => None
    case Some(d) =>
      if d.title == "" then None
      else if d.description != "" then
        assert (FunFactIntro + d.title + " \U{2014} " + d.description + ".")[..|FunFactIntro + d.title|]
            == FunFactIntro + d.title;
        Some(FunFactIntro + d.title + " \U{2014} " + d.description + ".")
      else
        assert (FunFactIntro + d.title + NoDescriptionTail)[..|FunFactIntro + d.title|]
            == FunFactIntro + d.title;
        Some(FunFactIntro + d.title + NoDescriptionTail)
  }

  /** The record built from a decoded body (`data` may be `null`). */
  function FromData(topic: string, data: Option<WikiData>): (r: WikiResult)
    ensures data.None? ==> r == WikiResult(topic, "", "", None, None, None)
    ensures data.Some? ==>
      && r.title == (if data.value.title != "" then data.value.title else topic)
      && r.extract == (if data.value.extract != "" then data.value.extract else data.value.description)
      && r.description == data.value.description
    ensures r.funFact == BuildFunFact(data)
  {
    match data
    case None => WikiResult(topic, "", "", None, None, None)
    case Some(d) =>
      WikiResult(
        OrElse(d.title, topic),
        OrElse(d.extract, d.description),
        d.description,
        NonEmpty(d.thumbnail),
        NonEmpty(d.desktopPage),
        BuildFunFact(data))
  }

  /** `fetchTopicData(topic)` after the request: a 404 is an empty-extract
      record, any other failure status or a failed request is an exception
      (answered with status 500), and a success maps the body's fields. */
  function FetchTopicData(topic: string, resp: WikiResponse): (r: Result<WikiResult, HttpError>)
    ensures resp.NetworkFailure? ==> r == Err(HttpError(InternalStatus, resp.message))
    ensures resp.Response? && resp.status == 404 ==>
      r == Ok(WikiResult(topic, "", "", None, None, None))
    ensures resp.Response? && !IsSuccess(resp.status) && resp.status != 404 ==>
      r == Err(HttpError(InternalStatus, "Wikipedia fetch failed: " + NatToString(resp.status)))
    ensures resp.Response? && IsSuccess(resp.status) ==>
      match resp.body
      case Unreadable(e) => r == Err(HttpError(InternalStatus, e))
      case NullBody => r == Ok(FromData(topic, None))
      case Record(d) => r == Ok(FromData(topic, Some(d)))
    ensures r.Err? ==> r.error.status == InternalStatus
    ensures r.Ok? && topic != "" ==> r.value.title != ""
  {
    match resp
    case NetworkFailure(msg) => Err(HttpError(InternalStatus, msg))
    case Response(status, body) =>
      if !IsSuccess(status) then
        if status == 404 then Ok(WikiResult(topic, "", "", None, None, None))
        else Err(HttpError(InternalStatus, "Wikipedia fetch failed: " + NatToString(status)))
      else
        match body
        case Unreadable(e) => Err(HttpError(InternalStatus, e))
        case NullBody => Ok(FromData(topic, None))
        case Record(d) => Ok(FromData(topic, Some(d)))
  }

  /** The fun fact is present exactly when the body carried a title. */
  lemma FunFactPresence(topic: string, resp: WikiResponse)
    requires FetchTopicData(topic, resp).Ok?
    ensures FetchTopicData(topic, resp).value.funFact.Some?
        <==> resp.Response? && IsSuccess(resp.status) && resp.body.Record? && resp.body.data.title != ""
  {
  }
}
