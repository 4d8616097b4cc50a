/**
 The public operations: the fixed resource paths, the request each operation
 sends, and how the transport's answer is turned into an error or handed on
 to JSON decoding. Sending is a function parameter (`send`), so a model run is
 one exchange with whatever the server answers; decoding the JSON of a
 success body is a library call, so a successful exchange ends in
 `Decode(body)`, naming the bytes that would be decoded.
 */
module Api {
  import opened Wrappers
  import opened Urls
  import opened Decimal
  import opened Options
  import opened Requests
  import opened ApiErrors

  // Entities

  datatype Signature = Signature(
    id: int,
    createdAt: string,
    textSignature: string,
    byteSignature: string,
    hexSignature: string)

  datatype SignaturesResponse = SignaturesResponse(
    next: Option<string>,      // nil when the server sends null
    previous: Option<string>,
    count: int,
    signatures: seq<Signature>)

  // JSON request bodies, as their top-level members in order

  datatype JsonValue = JString(s: string) | JNumber(n: int)
  type JsonObject = seq<(string, JsonValue)>

  /** Marshals a signature; every member is `omitempty`, so zero values are left out. */
  function SignatureJson(s: Signature): (r: JsonObject)
    ensures |r| <= 5
    ensures forall i :: 0 <= i < |r| ==> r[i].1 != JString("") && r[i].1 != JNumber(0)
    ensures r == [] <==> s == Signature(0, "", "", "", "")
    ensures s.textSignature != "" <==> ("text_signature", JString(s.textSignature)) in r
  {
    (if s.id != 0 then [("id", JNumber(s.id))] else [])
    + (if s.createdAt != "" then [("created_at", JString(s.createdAt))] else [])
    + (if s.textSignature != "" then [("text_signature", JString(s.textSignature))] else [])
    + (if s.byteSignature != "" then [("bytes_signature", JString(s.byteSignature))] else [])
    + (if s.hexSignature != "" then [("hex_signature", JString(s.hexSignature))] else [])
  }

  // Resources

  datatype Resource = FunctionSignatures | EventSignatures
  datatype ImportKind = SoliditySource | ContractAbi

  const BaseOrigin: string := "https://www.4byte.directory"
  const StatusBadRequest: int := 400
  const JsonContentType: string := "application/json"

  function ResourceSegment(res: Resource): string {
    match res
    case FunctionSignatures => "signatures"
    case EventSignatures => "event-signatures"
  }

  /** The list URL of a resource: "/api/v1/<resource>/", no query. */
  function ResourceUrl(res: Resource): Url {
    Url(BaseOrigin, ["api", "v1", ResourceSegment(res)], true, map[])
  }

  function ImportUrl(kind: ImportKind): Url {
    match kind
    case SoliditySource => Url(BaseOrigin, ["api", "v1", "import-solidity"], true, map[])
    case ContractAbi => Url(BaseOrigin, ["api", "v1", "import-abi"], true, map[])
  }

  function ImportJson(kind: ImportKind, text: string): JsonObject {
    match kind
    case SoliditySource => [("source_code", JString(text))]
    case ContractAbi => [("contract_abi", JString(text))]
  }

  // Exchanges

  datatype Method = Get | Post

  /** One request handed to the transport. */
  datatype Call = Call(verb: Method, url: Url, contentType: Option<string>, payload: Option<JsonObject>)

  /** The transport's answer: status and whole body, or a transport-level failure. */
  datatype Transport = Delivered(status: int, body: string) | TransportFailure(message: string)

  datatype Error =
    | TransportError(message: string)
    | ApiFailure(text: string)
    | NoLinkToFollow
    | ParseFailure(message: string)

  /** The text of the error value the Go code returns. */
  function Message(e: Error): string {
    match e
    case TransportError(m) => m
    case ApiFailure(t) => t
    case NoLinkToFollow => "no link to follow"
    case ParseFailure(m) => m
  }

  /** How an operation ends: an error, a panic, or decoding the named body. */
  datatype Outcome = Failed(error: Error) | Panicked | Decode(body: string)

  function GetCall(u: Url): Call {
    Call(Get, u, None, None)
  }

  function PostCall(u: Url, body: JsonObject): Call {
    Call(Post, NewRequest(u, []), Some(JsonContentType), Some(body))
  }

  function ListCall(res: Resource, opts: seq<Option<FilterOption>>): Call {
    GetCall(NewRequest(ResourceUrl(res), opts))
  }

  function ByIdCall(res: Resource, id: int): Call {
    GetCall(NewRequest(ResourceUrl(res), [Some(Id(id))]))
  }

  function CreateCall(res: Resource, text: string): Call {
    PostCall(ResourceUrl(res), SignatureJson(Signature(0, "", text, "", "")))
  }

  function ImportCall(kind: ImportKind, text: string): Call {
    PostCall(ImportUrl(kind), ImportJson(kind, text))
  }

  /** Reads never look at the status: any delivered body goes on to decoding. */
  function ReadOutcome(t: Transport): (r: Outcome)
    ensures t.TransportFailure? <==> r.Failed?
    ensures r.Failed? ==> r.error == TransportError(t.message)
    ensures t.Delivered? ==> r == Decode(t.body)
  {
    match t
    case TransportFailure(m) => Failed(TransportError(m))
    case Delivered(_, body) => Decode(body)
  }

  /**
   Writes turn a status of 400 or more into the formatted field error and
   decode only below 400. `fieldsOf` is the JSON decoding of an error body
   into its field mapping: empty when the body is not a JSON object; a
   member whose value is not an array arrives with no messages; an array
   element that is not a string arrives as an empty message.
   */
  function WriteOutcome(t: Transport, fieldsOf: string -> FieldErrors, choice: nat): (r: Outcome)
    ensures t.TransportFailure? ==> r == Failed(TransportError(t.message))
    ensures t.Delivered? ==> (r.Decode? <==> t.status < StatusBadRequest)
    ensures r.Decode? ==> r.body == t.body
    ensures t.Delivered? && t.status >= StatusBadRequest ==>
      (r.Panicked? <==> ApiError(fieldsOf(t.body), t.body, choice).IndexPanic?)
      && (r.Failed? ==> r.error == ApiFailure(ApiError(fieldsOf(t.body), t.body, choice).text))
  {
    match t
    case TransportFailure(m) => Failed(TransportError(m))
    case Delivered(status, body) =>
      if status >= StatusBadRequest then
        match ApiError(fieldsOf(body), body, choice)
        case IndexPanic => Panicked
        case Text(text) => Failed(ApiFailure(text))
      else Decode(body)
  }

  // Operations

  /** Lists never panic and fail only in transport; any delivered body is decoded. */
  function GetSignatures(res: Resource, opts: seq<Option<FilterOption>>, send: Call -> Transport): (r: Outcome)
    ensures !r.Panicked?
    ensures r.Failed? <==> send(ListCall(res, opts)).TransportFailure?
    ensures send(ListCall(res, opts)).Delivered? ==> r == Decode(send(ListCall(res, opts)).body)
  {
    ReadOutcome(send(ListCall(res, opts)))
  }

  /** By-id lookups behave like lists on the id's URL. */
  function GetSignatureById(res: Resource, id: int, send: Call -> Transport): (r: Outcome)
    ensures !r.Panicked?
    ensures r.Failed? <==> send(ByIdCall(res, id)).TransportFailure?
    ensures send(ByIdCall(res, id)).Delivered? ==> r == Decode(send(ByIdCall(res, id)).body)
  {
    ReadOutcome(send(ByIdCall(res, id)))
  }

  /** Create decodes a signature exactly when the answer arrives with a status below 400. */
  function CreateSignature(res: Resource, text: string, send: Call -> Transport,
                           fieldsOf: string -> FieldErrors, choice: nat): (r: Outcome)
    ensures send(CreateCall(res, text)).Delivered? ==>
      (r.Decode? <==> send(CreateCall(res, text)).status < StatusBadRequest)
    ensures r.Decode? ==> send(CreateCall(res, text)).Delivered? && r.body == send(CreateCall(res, text)).body
    ensures r.Panicked? ==>
      send(CreateCall(res, text)).Delivered? && send(CreateCall(res, text)).status >= StatusBadRequest
  {
    WriteOutcome(send(CreateCall(res, text)), fieldsOf, choice)
  }

  /** Imports decode a summary exactly when the answer arrives with a status below 400. */
  function Import(kind: ImportKind, text: string, send: Call -> Transport,
                  fieldsOf: string -> FieldErrors, choice: nat): (r: Outcome)
    ensures send(ImportCall(kind, text)).Delivered? ==>
      (r.Decode? <==> send(ImportCall(kind, text)).status < StatusBadRequest)
    ensures r.Decode? ==> send(ImportCall(kind, text)).Delivered? && r.body == send(ImportCall(kind, text)).body
    ensures r.Panicked? ==>
      send(ImportCall(kind, text)).Delivered? && send(ImportCall(kind, text)).status >= StatusBadRequest
  {
    WriteOutcome(send(ImportCall(kind, text)), fieldsOf, choice)
  }

  // Properties of the operations

  /** A list call is a GET with no body to the list URL with the options applied in order. */
  lemma ListCallShape(res: Resource, opts: seq<Option<FilterOption>>)
    ensures ListCall(res, opts).verb == Get
    ensures ListCall(res, opts).payload == None && ListCall(res, opts).contentType == None
    ensures ListCall(res, opts).url.path == ["api", "v1", ResourceSegment(res)] + IdSegments(opts)
    ensures Values(ListCall(res, opts).url.query, HexKey) == HexValues(opts)
    ensures Values(ListCall(res, opts).url.query, TextKey) == TextValues(opts)
    ensures Values(ListCall(res, opts).url.query, PageKey)
         == (if LastPage(opts).Some? then [Itoa(LastPage(opts).value)] else [])
    ensures forall k :: k != PageKey && k != HexKey && k != TextKey ==>
      Values(ListCall(res, opts).url.query, k) == []
    ensures ListCall(res, opts).url.origin == BaseOrigin
    ensures ListCall(res, opts).url.trailingSlash == (IdSegments(opts) == [])
  {
    NewRequestEffect(ResourceUrl(res), opts);
  }

  /** The by-id lookup targets "/api/v1/<resource>/<id>", without a query or trailing slash. */
  lemma ByIdTargetsIdPath(res: Resource, id: int)
    ensures ByIdCall(res, id).verb == Get
    ensures ByIdCall(res, id).url.path == ["api", "v1", ResourceSegment(res), Itoa(id)]
    ensures ByIdCall(res, id).url.query == map[]
    ensures !ByIdCall(res, id).url.trailingSlash
    ensures ByIdCall(res, id).url.origin == BaseOrigin
    ensures ByIdCall(res, id).payload == None && ByIdCall(res, id).contentType == None
  {
    var opts: seq<Option<FilterOption>> := [Some(Id(id))];
    assert opts[..0] == [];
    assert NewRequest(ResourceUrl(res), opts) == Apply(ResourceUrl(res), Id(id));
  }

  lemma FunctionByIdPath(id: int)
    ensures ByIdCall(FunctionSignatures, id).url.path == ["api", "v1", "signatures", Itoa(id)]
  {
    ByIdTargetsIdPath(FunctionSignatures, id);
  }

  lemma EventByIdPath(id: int)
    ensures ByIdCall(EventSignatures, id).url.path == ["api", "v1", "event-signatures", Itoa(id)]
  {
    ByIdTargetsIdPath(EventSignatures, id);
  }

  /** Create posts JSON holding only the text signature, or `{}` for empty text. */
  lemma CreatePayload(res: Resource, text: string)
    ensures CreateCall(res, text).verb == Post
    ensures CreateCall(res, text).url == ResourceUrl(res)
    ensures CreateCall(res, text).contentType == Some(JsonContentType)
    ensures CreateCall(res, text).payload
         == Some(if text == "" then [] else [("text_signature", JString(text))])
  {
    var none: JsonObject := [];
    if text == "" {
      assert SignatureJson(Signature(0, "", text, "", "")) == none + none + none + none + none;
    } else {
      var member: JsonObject := [("text_signature", JString(text))];
      assert SignatureJson(Signature(0, "", text, "", "")) == none + none + member + none + none;
      assert none + none + member + none + none == member;
    }
  }

  /** Imports post exactly one member, named after the kind of source. */
  lemma ImportPayload(kind: ImportKind, text: string)
    ensures ImportCall(kind, text).verb == Post
    ensures ImportCall(kind, text).url == ImportUrl(kind)
    ensures |ImportCall(kind, text).payload.value| == 1
    ensures ImportCall(kind, text).payload.value[0]
         == (if kind == SoliditySource then "source_code" else "contract_abi", JString(text))
  {
  }

  /** Read operations give the same outcome whatever status comes with the body. */
  lemma ReadsIgnoreStatus(res: Resource, opts: seq<Option<FilterOption>>,
                          send1: Call -> Transport, send2: Call -> Transport)
    requires send1(ListCall(res, opts)).Delivered? && send2(ListCall(res, opts)).Delivered?
    requires send1(ListCall(res, opts)).body == send2(ListCall(res, opts)).body
    ensures GetSignatures(res, opts, send1) == GetSignatures(res, opts, send2)
    ensures GetSignatures(res, opts, send1) == Decode(send1(ListCall(res, opts)).body)
  {
  }

  /** A rejected create never decodes a signature, and its error is the formatted field text. */
  lemma RejectedCreateIsError(res: Resource, text: string, send: Call -> Transport,
                              fieldsOf: string -> FieldErrors, choice: nat)
    requires send(CreateCall(res, text)).Delivered?
    requires send(CreateCall(res, text)).status >= StatusBadRequest
    requires forall i :: 0 <= i < |fieldsOf(send(CreateCall(res, text)).body)| ==>
      |fieldsOf(send(CreateCall(res, text)).body)[i].1| > 0
    ensures CreateSignature(res, text, send, fieldsOf, choice).Failed?
    ensures CreateSignature(res, text, send, fieldsOf, choice).error.ApiFailure?
  {
    var t := send(CreateCall(res, text));
    NoPanicWhenEveryListNonEmpty(fieldsOf(t.body), t.body, choice);
  }

  /**
   A throttled create: the body `{"detail": "..."}` decodes to the key with no
   messages, and the formatter indexes the empty list.
   */
  lemma ThrottledCreatePanics(res: Resource, text: string, send: Call -> Transport,
                              fieldsOf: string -> FieldErrors, choice: nat)
    requires send(CreateCall(res, text)).Delivered?
    requires send(CreateCall(res, text)).status >= StatusBadRequest
    requires fieldsOf(send(CreateCall(res, text)).body) == [("detail", [])]
    ensures CreateSignature(res, text, send, fieldsOf, choice) == Panicked
  {
    EmptyListPanics([("detail", [])], send(CreateCall(res, text)).body, 0);
    assert choice % 1 == 0;
  }
}
