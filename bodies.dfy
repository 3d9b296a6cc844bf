/**
 * The request-body strategies (the httpReqBody variants) and their build step,
 * which yields the Content-Type to send and the reader that supplies the body.
 */
module Bodies {
  import opened Wrappers
  import opened Http
  import opened Streams

  /** A Go value handed to JsonObject, known to the model only by identity. */
  datatype Object = Object(id: nat)

  /** The four implementations of httpReqBody. */
  datatype ReqBody =
    | FormContent(form: Values)
    | JsonContent(json: seq<byte>)
    | ReqPipeContent(reader: Stream, contentType: string)
    | JsonObjContent(obj: Object)

  /** The reader build hands back: strings.NewReader, bytes.NewReader, or the piped stream itself. */
  datatype Reader = StringReader(text: string) | BytesReader(bytes: seq<byte>) | StreamReader(stream: Stream)

  datatype Built = Built(contentType: string, data: Reader)

  const FormType := "application/x-www-form-urlencoded"
  const JsonType := "application/json"

  /**
   * httpReqBody.build. `encode` stands for url.Values.Encode and `marshal` for
   * json.Marshal (None when it fails, where guard panics).
   */
  function Build(b: ReqBody, encode: Values -> string, marshal: Object -> Option<seq<byte>>): (r: Result<Built, Error>)
    ensures r.Err? <==> b.JsonObjContent? && marshal(b.obj).None?
    ensures r.Err? ==> r.error == Panic(MarshalFailed)
  {
    match b
    case FormContent(form) => Ok(Built(FormType, StringReader(encode(form))))
    case JsonContent(json) => Ok(Built(JsonType, BytesReader(json)))
    case ReqPipeContent(reader, contentType) => Ok(Built(contentType, StreamReader(reader)))
    case JsonObjContent(obj) =>
      match marshal(obj)
      case None => Err(Panic(MarshalFailed))
      case Some(bytes) => Ok(Built(JsonType, BytesReader(bytes)))
  }

  /** The Content-Type a body declares: fixed per variant, except a pipe, which carries its own. */
  function ContentTypeOf(b: ReqBody): string
  {
    match b
    case FormContent(_) => FormType
    case JsonContent(_) => JsonType
    case JsonObjContent(_) => JsonType
    case ReqPipeContent(_, ct) => ct
  }

  /**
   * Whenever build succeeds its Content-Type is the body's declared one, and the
   * reader yields the payload unchanged: the encoded form, the JSON bytes as
   * given or as marshalled, or the very stream that was piped in.
   */
  lemma BuildDeclaresContentType(b: ReqBody, encode: Values -> string, marshal: Object -> Option<seq<byte>>)
    requires Build(b, encode, marshal).Ok?
    ensures Build(b, encode, marshal).value.contentType == ContentTypeOf(b)
    ensures b.FormContent? ==> Build(b, encode, marshal).value.data == StringReader(encode(b.form))
    ensures b.JsonContent? ==> Build(b, encode, marshal).value.data == BytesReader(b.json)
    ensures b.JsonObjContent? ==> Build(b, encode, marshal).value.data == BytesReader(marshal(b.obj).value)
    ensures b.ReqPipeContent? ==> Build(b, encode, marshal).value.data == StreamReader(b.reader)
  {
  }
}
