/**
 Following a pagination link: the opaque absolute URL the server returns as
 `next` or `previous`. Parsing the link is a library call, passed in as
 `parse`.
 */
module Links {
  import opened Wrappers
  import opened Urls
  import opened Requests
  import opened Api

  datatype Parsed = ParsedUrl(url: Url) | ParseError(message: string)

  /**
   The request following a non-nil link would send, or the error that stops
   it before any request exists: the empty-link guard first, then a parse
   failure.
   */
  function FollowCall(l: string, parse: string -> Parsed): (r: Result<Call, Error>)
    ensures l == "" ==> r == Failure(NoLinkToFollow) && Message(r.error) == "no link to follow"
    ensures l != "" && parse(l).ParseError? ==> r == Failure(ParseFailure(parse(l).message))
    ensures l != "" && parse(l).ParsedUrl? ==>
      r.Success? && r.value.verb == Get && r.value.url == parse(l).url
      && r.value.payload == None && r.value.contentType == None
  {
    if l == "" then Failure(NoLinkToFollow)
    else
      match parse(l)
      case ParseError(m) => Failure(ParseFailure(m))
      case ParsedUrl(u) => Success(GetCall(NewRequest(u, [])))
  }

  /** `Follow` on a non-nil link: at most one GET, then the same decoding as a list read. */
  function FollowLink(l: string, parse: string -> Parsed, send: Call -> Transport): (r: Outcome)
    ensures FollowCall(l, parse).Failure? ==> r == Failed(FollowCall(l, parse).error)
    ensures FollowCall(l, parse).Success? ==> r == ReadOutcome(send(FollowCall(l, parse).value))
  {
    match FollowCall(l, parse)
    case Failure(e) => Failed(e)
    case Success(call) => ReadOutcome(send(call))
  }

  /** An empty link fails the same way whatever the transport would have answered. */
  lemma EmptyLinkSendsNothing(parse: string -> Parsed, send1: Call -> Transport, send2: Call -> Transport)
    ensures FollowLink("", parse, send1) == FollowLink("", parse, send2) == Failed(NoLinkToFollow)
  {
  }

  /** A parse failure is reported whatever the transport would have answered. */
  lemma ParseFailureSendsNothing(l: string, parse: string -> Parsed, send1: Call -> Transport, send2: Call -> Transport)
    requires l != "" && parse(l).ParseError?
    ensures FollowLink(l, parse, send1) == FollowLink(l, parse, send2) == Failed(ParseFailure(parse(l).message))
  {
  }

  /** A link that parses is fetched as it stands: same URL, no option applied, status ignored. */
  lemma ParsedLinkFetchedVerbatim(l: string, parse: string -> Parsed, send: Call -> Transport)
    requires l != "" && parse(l).ParsedUrl?
    ensures FollowLink(l, parse, send) == ReadOutcome(send(Call(Get, parse(l).url, None, None)))
  {
  }

  /**
   `Follow` as written: the receiver is the response's `*link`, which is nil
   when the server sent null, and the guard dereferences it before comparing
   with "".
   */
  function Follow(p: Option<string>, parse: string -> Parsed, send: Call -> Transport): (r: Outcome)
    ensures p == None <==> r.Panicked?
    ensures p.Some? ==> r == FollowLink(p.value, parse, send)
  {
    match p
    case None => Panicked
    case Some(l) => FollowLink(l, parse, send)
  }

  /** On the last page `next` is null, and following it panics instead of failing. */
  lemma LastPageNextPanics(resp: SignaturesResponse, parse: string -> Parsed, send: Call -> Transport)
    requires resp.next == None
    ensures Follow(resp.next, parse, send) == Panicked
  {
  }

  /** The correction: an absent link is treated as an empty one, so no panic is possible. */
  function FollowCorrected(p: Option<string>, parse: string -> Parsed, send: Call -> Transport): (r: Outcome)
    ensures !r.Panicked?
    ensures p == None || p == Some("") ==> r == Failed(NoLinkToFollow)
    ensures p.Some? ==> r == Follow(p, parse, send)
  {
    match p
    case None => Failed(NoLinkToFollow)
    case Some(l) => FollowLink(l, parse, send)
  }

  /** Walking to the next page of a response never panics, on the last page included. */
  lemma NextPageNeverPanics(resp: SignaturesResponse, parse: string -> Parsed, send: Call -> Transport)
    ensures !FollowCorrected(resp.next, parse, send).Panicked?
    ensures resp.next == None ==> FollowCorrected(resp.next, parse, send) == Failed(NoLinkToFollow)
  {
  }
}
