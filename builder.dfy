/**
 * The request builder (GoReq): construction from options or from the
 * defaults, derived builders, the fluent setters, the request assembly of
 * prepareReq, and the operations that run an exchange and relay its body.
 */
module Builder {
  import opened Wrappers
  import opened Http
  import opened Streams
  import opened Bodies
  import opened Urls
  import opened Overlay
  import opened Server

  /** Where the builder's http.Transport takes its proxy from. */
  datatype ProxySetting = FromEnvironment | ProxyUrl(url: string)

  /** The client's CheckRedirect hook: nil (Go's default policy, which follows redirects) or one returning ErrUseLastResponse. */
  datatype RedirectPolicy = DefaultPolicy | UseLastResponse

  /** The state of the builder's own http.Transport and http.Client that prepareReq sets. */
  datatype Client = Client(proxy: ProxySetting, jar: CookieJar?, timeout: int, checkRedirect: RedirectPolicy)

  /** The transport and client Req creates: proxy from the environment, no jar, no timeout, no hook. */
  const FreshClient := Client(FromEnvironment, null, 0, DefaultPolicy)

  /** The request http.NewRequest builds and client.Do sends. */
  datatype Request = Request(verb: string, url: string, header: Header, body: Option<Reader>)

  /**
   * The library and network calls the builder makes, as total functions:
   * url.Values.Encode, json.Marshal (None on failure), whether url.Parse accepts
   * the proxy, whether http.NewRequest accepts a method and URL, client.Do, and
   * gzip.NewReader.
   */
  datatype Library = Library(
    encode: Values -> string,
    marshal: Object -> Option<seq<byte>>,
    proxyParses: string -> bool,
    requestOk: (string, string) -> bool,
    exchange: (Request, Client) -> Result<Response, Error>,
    gunzip: Stream -> Result<Stream, Error>)

  /** The names PipeFromReq does not forward from an inbound request. */
  const RequestDropped: set<string> := {"Connection", "Referer", "Origin"}

  /** The redirect hook prepareReq installs: the ErrUseLastResponse hook only for an explicit true. */
  function RedirectFor(follow: Option<bool>): (p: RedirectPolicy)
    ensures p == UseLastResponse <==> follow == Some(true)
  {
    match follow
    case None => DefaultPolicy
    case Some(v) => if v then UseLastResponse else DefaultPolicy
  }

  /** Whether a client with this hook follows a redirect (Go's default policy does). */
  predicate Follows(p: RedirectPolicy)
  {
    p == DefaultPolicy
  }

  /**
   * FollowRedirect is documented as "follow HTTP 3xx responses as redirects
   * (default: true)", yet an explicit true is the one value that stops at
   * the first redirect, and an explicit false follows.
   */
  lemma RedirectForIsInverted(b: bool)
    ensures Follows(RedirectFor(Some(b))) == !b
    ensures Follows(RedirectFor(None))
  {
  }

  /** The hook the documentation describes: follow unless FollowRedirect is explicitly false. */
  function RedirectForIntended(follow: Option<bool>): (p: RedirectPolicy)
    ensures Follows(p) <==> follow != Some(false)
  {
    if follow == Some(false) then UseLastResponse else DefaultPolicy
  }

  /** prepareReq's first three steps: the proxy (a parse failure ends the call), the jar and the timeout. */
  function Configure(c: Client, proxy: Option<string>, jar: CookieJar?, timeout: int, proxyParses: string -> bool): (r: Result<Client, Error>)
    ensures r.Err? <==> proxy.Some? && !proxyParses(proxy.value)
    ensures r.Err? ==> r.error == ProxyUrlInvalid
    ensures r.Ok? ==> r.value.checkRedirect == c.checkRedirect
    ensures r.Ok? && proxy.None? ==> r.value.proxy == c.proxy
    ensures r.Ok? && jar == null ==> r.value.jar == c.jar
    ensures r.Ok? && timeout <= 0 ==> r.value.timeout == c.timeout
    ensures r.Ok? && proxy.Some? ==> r.value.proxy == ProxyUrl(proxy.value)
    ensures r.Ok? && jar != null ==> r.value.jar == jar
    ensures r.Ok? && timeout > 0 ==> r.value.timeout == timeout
  {
    if proxy.Some? && !proxyParses(proxy.value) then Err(ProxyUrlInvalid)
    else Ok(Client(
      if proxy.Some? then ProxyUrl(proxy.value) else c.proxy,
      if jar != null then jar else c.jar,
      if timeout > 0 then timeout else c.timeout,
      c.checkRedirect))
  }

  /** The body's build, when there is a body. */
  function BuildBody(body: Option<ReqBody>, lib: Library): Result<Option<Built>, Error>
  {
    match body
    case None => Ok(None)
    case Some(b) =>
      match Build(b, lib.encode, lib.marshal)
      case Err(e) => Err(e)
      case Ok(built) => Ok(Some(built))
  }

  /** `Headers["Content-Type"] = []string{contentType}` when a body was built; a nil map makes it panic. */
  function WithContentType(headers: Option<Header>, built: Option<Built>): (r: Result<Option<Header>, Error>)
    ensures built.None? ==> r == Ok(headers)
    ensures r.Err? <==> built.Some? && headers.None?
    ensures r.Err? ==> r.error == Panic(NilMapWrite)
    ensures r.Ok? && built.Some? ==>
      && r.value.Some? && r.value.value.Keys == headers.value.Keys + {"Content-Type"}
      && r.value.value["Content-Type"] == [built.value.contentType]
      && forall k :: k in headers.value && k != "Content-Type" ==> r.value.value[k] == headers.value[k]
  {
    match built
    case None => Ok(headers)
    case Some(b) =>
      if headers.None? then Err(Panic(NilMapWrite))
      else Ok(Some(headers.value["Content-Type" := [b.contentType]]))
  }

  /** The headers copied onto the request: those whose name is not in HeadersToBeRemove; none from a nil map. */
  function Outgoing(headers: Option<Header>, remove: seq<string>): (r: Header)
    ensures forall k :: k in r <==> headers.Some? && k in headers.value && k !in remove
    ensures forall k :: k in r ==> r[k] == headers.value[k]
  {
    if headers.None? then map[] else Without(headers.value, set x | x in remove)
  }

  /** The method http.NewRequest puts on the request it builds: an empty one becomes "GET". */
  function SentMethod(upper: string): (m: string)
    ensures m != "" && (upper != "" ==> m == upper)
    ensures upper == "" ==> m == "GET"
  {
    if upper == "" then "GET" else upper
  }

  /**
   * The request prepareReq builds once the client is configured: the body's
   * Content-Type written over the headers, the upper-cased method, the URL
   * with its query, the headers minus the removed names, and the body reader.
   */
  function Assemble(verb: string, url: string, query: Values, headers: Option<Header>,
                    remove: seq<string>, body: Option<ReqBody>, lib: Library): (r: Result<Request, Error>)
    ensures r.Err? ==> r.error in {Panic(MarshalFailed), Panic(NilMapWrite), RequestInvalid}
    ensures r.Ok? ==> r.value.verb != "" && forall i :: 0 <= i < |r.value.verb| ==> !IsLowerAscii(r.value.verb[i])
    ensures r.Ok? ==> forall k :: k in r.value.header ==> k !in remove
  {
    match BuildBody(body, lib)
    case Err(e) => Err(e)
    case Ok(built) =>
      match WithContentType(headers, built)
      case Err(e) => Err(e)
      case Ok(written) =>
        var m := ToUpper(verb);
        var u := BuildUrl(url, lib.encode(query));
        if !lib.requestOk(m, u) then Err(RequestInvalid)
        else Ok(Request(SentMethod(m), u, Outgoing(written, remove), if built.Some? then Some(built.value.data) else None))
  }

  /**
   * The request fails exactly when marshalling a JSON object fails, when a
   * body's Content-Type has to be written into a nil header map, or when
   * http.NewRequest rejects the upper-cased method and joined URL; the
   * causes are reported in that order.
   */
  lemma AssembleFails(verb: string, url: string, query: Values, headers: Option<Header>,
                      remove: seq<string>, body: Option<ReqBody>, lib: Library)
    ensures var r := Assemble(verb, url, query, headers, remove, body, lib);
      && (r.Err? <==>
           || (body.Some? && body.value.JsonObjContent? && lib.marshal(body.value.obj).None?)
           || (body.Some? && headers.None?)
           || !lib.requestOk(ToUpper(verb), BuildUrl(url, lib.encode(query))))
      && (body.Some? && body.value.JsonObjContent? && lib.marshal(body.value.obj).None? ==> r == Err(Panic(MarshalFailed)))
      && (body.Some? && headers.None? && Build(body.value, lib.encode, lib.marshal).Ok? ==> r == Err(Panic(NilMapWrite)))
      && (r.Err? && r.error == RequestInvalid ==> !lib.requestOk(ToUpper(verb), BuildUrl(url, lib.encode(query))))
      && ((&& !(body.Some? && body.value.JsonObjContent? && lib.marshal(body.value.obj).None?)
           && !(body.Some? && headers.None?)
           && !lib.requestOk(ToUpper(verb), BuildUrl(url, lib.encode(query))))
          ==> r == Err(RequestInvalid))
  {
  }

  /**
   * A request that is created carries the upper-cased method (GET when the
   * method is unset), the URL joined
   * with the encoded query, exactly the headers that are not removed (the
   * body's Content-Type among them), and the body's reader.
   */
  lemma AssembleRequest(verb: string, url: string, query: Values, headers: Option<Header>,
                        remove: seq<string>, body: Option<ReqBody>, lib: Library)
    requires Assemble(verb, url, query, headers, remove, body, lib).Ok?
    ensures var q := Assemble(verb, url, query, headers, remove, body, lib).value;
      && (verb == "" ==> q.verb == "GET")
      && (verb != "" ==> q.verb == ToUpper(verb) && |q.verb| == |verb|)
      && q.url == BuildUrl(url, lib.encode(query))
      && (forall k :: k in q.header <==>
            k !in remove && ((headers.Some? && k in headers.value) || (body.Some? && k == "Content-Type")))
      && (forall k :: k in q.header && (k != "Content-Type" || body.None?) ==> q.header[k] == headers.value[k])
      && (body.Some? && "Content-Type" !in remove ==> q.header["Content-Type"] == [ContentTypeOf(body.value)])
      && (body.None? ==> q.body == None)
      && (body.Some? ==> q.body == Some(Build(body.value, lib.encode, lib.marshal).value.data))
  {
    if body.Some? {
      BuildDeclaresContentType(body.value, lib.encode, lib.marshal);
    }
  }

  /** The method the setter Get stores, "Get", goes out as "GET", and so does an unset method. */
  lemma GetIsSentAsGET()
    ensures SentMethod(ToUpper("Get")) == "GET"
    ensures SentMethod(ToUpper("")) == "GET"
  {
    var r := ToUpper("Get");
    assert r[0] == 'G';
    assert r[1] == 'E';
    assert r[2] == 'T';
  }

  /** The header map after prepareReq's Content-Type write (unchanged when no body is built). */
  function HeadersAfterBody(headers: Option<Header>, body: Option<ReqBody>, lib: Library): Option<Header>
  {
    match BuildBody(body, lib)
    case Err(_) => headers
    case Ok(built) =>
      match WithContentType(headers, built)
      case Err(_) => headers
      case Ok(written) => written
  }

  /**
   * Whatever Content-Type the header map held, a body that builds leaves
   * exactly its own type there, and every other name as it was.
   */
  lemma ContentTypeOverwritten(headers: Header, body: ReqBody, lib: Library)
    requires Build(body, lib.encode, lib.marshal).Ok?
    ensures HeadersAfterBody(Some(headers), Some(body), lib) == Some(headers["Content-Type" := [ContentTypeOf(body)]])
  {
    BuildDeclaresContentType(body, lib.encode, lib.marshal);
  }

  /** getStringReader: the body wrapped in a gzip reader exactly when Content-Encoding is "gzip". */
  function GetStringReader(resp: Response, gunzip: Stream -> Result<Stream, Error>): (r: Result<Stream, Error>)
    ensures HeaderGet(resp.header, "Content-Encoding") != "gzip" ==> r == Ok(resp.body)
    ensures r.Err? ==> HeaderGet(resp.header, "Content-Encoding") == "gzip" && r == gunzip(resp.body)
  {
    if HeaderGet(resp.header, "Content-Encoding") == "gzip" then gunzip(resp.body) else Ok(resp.body)
  }

  /** The raw body once getStringReader has returned: on the gzip path it has been closed. */
  function RawAfterDecode(resp: Response): Stream
  {
    if HeaderGet(resp.header, "Content-Encoding") == "gzip" then ClosedBody else resp.body
  }

  /**
   * Without "Content-Encoding: gzip" the decoded and the raw reader are the
   * response body itself. With it, the decoded reader is gzip's, and the raw
   * reader PipeStream copies from is closed: the copy writes nothing and
   * returns the closed-body error.
   */
  lemma DecodeSelection(resp: Response, gunzip: Stream -> Result<Stream, Error>)
    ensures HeaderGet(resp.header, "Content-Encoding") != "gzip" ==>
      GetStringReader(resp, gunzip) == Ok(resp.body) && RawAfterDecode(resp) == resp.body
    ensures HeaderGet(resp.header, "Content-Encoding") == "gzip" ==>
      && GetStringReader(resp, gunzip) == gunzip(resp.body)
      && Writes(RawAfterDecode(resp)) == [] && Content(RawAfterDecode(resp)) == []
      && CopyResult(RawAfterDecode(resp)) == Some(ReadOnClosedBody)
  {
  }

  /**
   * What a failed prepareReq becomes in Do, PipeStream and PipeReq: a panic
   * raised inside prepareReq goes on with its own cause; an error it returned
   * is not checked, and getStringReader then panics on the nil response.
   */
  function Unwound(e: Error): (p: Error)
    ensures p.Panic?
    ensures e.Panic? ==> p == e
    ensures !e.Panic? ==> p == Panic(NilResponse)
  {
    if e.Panic? then e else Panic(NilResponse)
  }

  /** What Do returns for what prepareReq returned. */
  function DoResult(prepared: Result<Response, Error>, gunzip: Stream -> Result<Stream, Error>): (r: Result<(seq<byte>, Response), Error>)
    ensures prepared.Err? ==> r == Err(Unwound(prepared.error))
    ensures r.Ok? ==> prepared.Ok? && r.value.1 == prepared.value
    ensures r.Ok? && HeaderGet(prepared.value.header, "Content-Encoding") != "gzip" ==>
      prepared.value.body.end.Eof? && r.value.0 == Content(prepared.value.body)
    ensures prepared.Ok? && HeaderGet(prepared.value.header, "Content-Encoding") != "gzip" ==>
      (r.Ok? <==> prepared.value.body.end.Eof?) && (r.Err? ==> r.error == prepared.value.body.end.err)
    ensures prepared.Ok? && HeaderGet(prepared.value.header, "Content-Encoding") == "gzip" && gunzip(prepared.value.body).Err? ==>
      r == Err(gunzip(prepared.value.body).error)
    ensures prepared.Ok? && HeaderGet(prepared.value.header, "Content-Encoding") == "gzip" && gunzip(prepared.value.body).Ok? ==>
      var d := gunzip(prepared.value.body).value;
      && (r.Ok? <==> d.end.Eof?)
      && (r.Ok? ==> r.value.0 == Content(d))
      && (r.Err? ==> r.error == d.end.err)
  {
    match prepared
    case Err(e) => Err(Unwound(e))
    case Ok(resp) =>
      match GetStringReader(resp, gunzip)
      case Err(e) => Err(e)
      case Ok(reader) =>
        match ReadAll(reader)
        case Err(e) => Err(e)
        case Ok(bytes) => Ok((bytes, resp))
  }

  /** PipeFromReq's filter: the inbound headers minus Connection, Referer and Origin. */
  method DropInbound(inbound: Header) returns (p: Header)
    ensures p == Without(inbound, RequestDropped)
  {
    p := map[];
    var keys := inbound.Keys;
    while keys != {}
      invariant keys <= inbound.Keys
      invariant p == Without(inbound - keys, RequestDropped)
      decreases keys
    {
      var k :| k in keys;
      if k !in RequestDropped {
        p := p[k := inbound[k]];
      }
      keys := keys - {k};
      assert p == Without(inbound - keys, RequestDropped);
    }
    assert inbound - keys == inbound;
  }

  /** `*defaultOptions`: no redirect setting, an empty header map and an empty query. */
  method NewDefaultOptions() returns (d: ReqOptions)
    ensures fresh(d) && fresh(d.Headers) && d.Headers.entries == map[]
    ensures d.Method == "" && d.Url == "" && d.FollowRedirect == None && d.Jar == null && d.Proxy == None
    ensures d.QueryString == map[] && d.bodyContent == None && d.Timeout == 0 && d.HeadersToBeRemove == []
  {
    d := new ReqOptions();
    d.Headers := new HeaderMap(map[]);
  }

  /**
   * Req: a builder with a fresh transport and client. Given options it keeps
   * the caller's very record; given nil it takes a shallow copy of the
   * defaults, which shares their header map.
   */
  method Req(options: ReqOptions?, defaults: ReqOptions) returns (g: GoReq)
    ensures fresh(g) && g.client == FreshClient
    ensures options != null ==> g.Options == options
    ensures options == null ==> fresh(g.Options) && SameFields(g.Options, defaults)
  {
    if options == null {
      var copy := new ReqOptions.CopyOf(defaults);
      g := new GoReq(copy);
    } else {
      g := new GoReq(options);
    }
  }

  class GoReq {
    var Options: ReqOptions
    var client: Client

    constructor (options: ReqOptions)
      ensures Options == options && client == FreshClient
    {
      Options, client := options, FreshClient;
    }

    /** The header map's entries, or None for a nil map. */
    function HeadersValue(): Option<Header>
      reads this, Options, Options.Headers
    {
      if Options.Headers == null then None else Some(Options.Headers.entries)
    }

    /** What prepareReq returns in the current state: the response of the exchange, or the first error. */
    function Prepared(lib: Library): (r: Result<Response, Error>)
      reads this, Options, Options.Headers
      ensures Options.Proxy.Some? && !lib.proxyParses(Options.Proxy.value) ==> r == Err(ProxyUrlInvalid)
      ensures && (Options.Proxy.None? || lib.proxyParses(Options.Proxy.value))
              && Options.bodyContent.Some? && Options.Headers == null
              && Build(Options.bodyContent.value, lib.encode, lib.marshal).Ok?
              ==> r == Err(Panic(NilMapWrite))
    {
      match Configure(client, Options.Proxy, Options.Jar, Options.Timeout, lib.proxyParses)
      case Err(e) => Err(e)
      case Ok(configured) =>
        match Assemble(Options.Method, Options.Url, Options.QueryString, HeadersValue(),
                       Options.HeadersToBeRemove, Options.bodyContent, lib)
        case Err(e) => Err(e)
        case Ok(request) => lib.exchange(request, configured.(checkRedirect := RedirectFor(Options.FollowRedirect)))
    }

    /** The client after prepareReq: configured unless the proxy fails; the redirect hook set once the request exists. */
    function ClientAfterPrepare(lib: Library): Client
      reads this, Options, Options.Headers
    {
      match Configure(client, Options.Proxy, Options.Jar, Options.Timeout, lib.proxyParses)
      case Err(_) => client
      case Ok(configured) =>
        if Assemble(Options.Method, Options.Url, Options.QueryString, HeadersValue(),
                    Options.HeadersToBeRemove, Options.bodyContent, lib).Ok?
        then configured.(checkRedirect := RedirectFor(Options.FollowRedirect))
        else configured
    }

    /** The header map after prepareReq: the Content-Type written unless the proxy fails first. */
    function HeadersAfterPrepare(lib: Library): Option<Header>
      reads this, Options, Options.Headers
    {
      if Configure(client, Options.Proxy, Options.Jar, Options.Timeout, lib.proxyParses).Err? then HeadersValue()
      else HeadersAfterBody(HeadersValue(), Options.bodyContent, lib)
    }

    /**
     * Once the client is configured, preparing a request whose body builds
     * leaves the body's Content-Type in the options' own header map, whatever
     * the exchange then does.
     */
    lemma PrepareWritesContentType(lib: Library)
      requires Configure(client, Options.Proxy, Options.Jar, Options.Timeout, lib.proxyParses).Ok?
      requires Options.Headers != null && Options.bodyContent.Some?
      requires Build(Options.bodyContent.value, lib.encode, lib.marshal).Ok?
      ensures HeadersAfterPrepare(lib) == Some(Options.Headers.entries["Content-Type" := [ContentTypeOf(Options.bodyContent.value)]])
    {
      ContentTypeOverwritten(Options.Headers.entries, Options.bodyContent.value, lib);
    }

    /**
     * prepareReq: configure the client (proxy, jar, timeout), build the body
     * and write its Content-Type into the options' own header map, create
     * the request (upper-cased method, joined URL, headers minus the removed
     * names), choose the redirect hook, and run the exchange.
     */
    method PrepareReq(lib: Library) returns (res: Result<Response, Error>)
      modifies this`client
      modifies if Options.Headers != null then {Options.Headers} else {}
      ensures res == old(Prepared(lib))
      ensures client == old(ClientAfterPrepare(lib))
      ensures HeadersValue() == old(HeadersAfterPrepare(lib))
    {
      var configured := Configure(client, Options.Proxy, Options.Jar, Options.Timeout, lib.proxyParses);
      if configured.Err? {
        return Err(configured.error);
      }
      client := configured.value;
      ghost var headers0 := HeadersValue();
      var built: Option<Built> := None;
      if Options.bodyContent.Some? {
        var b := Build(Options.bodyContent.value, lib.encode, lib.marshal);
        if b.Err? {
          return Err(b.error);
        }
        if Options.Headers == null {
          return Err(Panic(NilMapWrite));
        }
        Options.Headers.entries := Options.Headers.entries["Content-Type" := [b.value.contentType]];
        built := Some(b.value);
      }
      assert BuildBody(Options.bodyContent, lib) == Ok(built);
      assert HeadersValue() == WithContentType(headers0, built).value;
      var verb := ToUpper(Options.Method);
      var url := BuildUrl(Options.Url, lib.encode(Options.QueryString));
      if !lib.requestOk(verb, url) {
        return Err(RequestInvalid);
      }
      verb := SentMethod(verb);
      var header: Header := map[];
      if Options.Headers != null {
        header := CopyHeaders(Options.Headers.entries);
      }
      client := client.(checkRedirect := RedirectFor(Options.FollowRedirect));
      var request := Request(verb, url, header, if built.Some? then Some(built.value.data) else None);
      res := lib.exchange(request, client);
    }

    /**
     * GoReq.Req: a child builder over a shallow copy of this builder's options
     * merged with `options`. The child's record is new, but its header map is
     * this builder's own one (when there is one), so the override's headers
     * land in the parent's map too.
     */
    method Req(options: ReqOptions?) returns (child: GoReq)
      modifies if Options.Headers != null then {Options.Headers} else {}
      ensures fresh(child) && fresh(child.Options) && child.client == FreshClient
      ensures unchanged(this) && unchanged(Options)
      ensures options == null ==> SameFields(child.Options, Options) && (Options.Headers != null ==> unchanged(Options.Headers))
      ensures options != null ==>
        && child.Options.Method == FillIfEmpty(Options.Method, old(options.Method))
        && child.Options.Url == FillIfEmpty(Options.Url, old(options.Url))
        && child.Options.Jar == FillIfNil(Options.Jar, old(options.Jar))
        && child.Options.FollowRedirect == Overwrite(Options.FollowRedirect, old(options.FollowRedirect))
        && child.Options.Proxy == Overwrite(Options.Proxy, old(options.Proxy))
        && child.Options.QueryString == Options.QueryString && child.Options.bodyContent == Options.bodyContent
        && child.Options.Timeout == Options.Timeout && child.Options.HeadersToBeRemove == Options.HeadersToBeRemove
      ensures options != null && Options.Headers == null ==> child.Options.Headers == old(options.Headers)
      ensures options != null && Options.Headers != null ==>
        && child.Options.Headers == Options.Headers
        && Options.Headers.entries == old(Options.Headers.entries) + old(EntriesOf(options.Headers))
    {
      var merged := new ReqOptions.CopyOf(Options);
      var r := MergeOptions(merged, options);
      child := new GoReq(r);
    }

    /** Post: the URL and the method "POST". */
    method Post(url: string) returns (self: GoReq)
      modifies Options`Url, Options`Method
      ensures self == this && Options.Url == url && Options.Method == "POST"
    {
      Options.Url := url;
      Options.Method := "POST";
      self := this;
    }

    /** Get: the URL and the method "Get", as the source spells it. */
    method Get(url: string) returns (self: GoReq)
      modifies Options`Url, Options`Method
      ensures self == this && Options.Url == url && Options.Method == "Get"
    {
      Options.Url := url;
      Options.Method := "Get";
      self := this;
    }

    /** FormData: a form body. */
    method FormData(formData: Values) returns (self: GoReq)
      modifies Options`bodyContent
      ensures self == this && Options.bodyContent == Some(FormContent(formData))
    {
      Options.bodyContent := Some(FormContent(formData));
      self := this;
    }

    /** JsonString: a body of ready-made JSON bytes. */
    method JsonString(jsonStr: seq<byte>) returns (self: GoReq)
      modifies Options`bodyContent
      ensures self == this && Options.bodyContent == Some(JsonContent(jsonStr))
    {
      Options.bodyContent := Some(JsonContent(jsonStr));
      self := this;
    }

    /** JsonObject: a body marshalled from a Go value when the request is prepared. */
    method JsonObject(jsonObj: Object) returns (self: GoReq)
      modifies Options`bodyContent
      ensures self == this && Options.bodyContent == Some(JsonObjContent(jsonObj))
    {
      Options.bodyContent := Some(JsonObjContent(jsonObj));
      self := this;
    }

    /**
     * Do: prepare and exchange, decode the body, read it whole. A failed
     * prepareReq is not checked before getStringReader dereferences the nil
     * response, so it ends in a panic.
     */
    method Do(lib: Library) returns (res: Result<(seq<byte>, Response), Error>)
      modifies this`client
      modifies if Options.Headers != null then {Options.Headers} else {}
      ensures res == DoResult(old(Prepared(lib)), lib.gunzip)
      ensures client == old(ClientAfterPrepare(lib)) && HeadersValue() == old(HeadersAfterPrepare(lib))
    {
      var prepared := PrepareReq(lib);
      if prepared.Err? {
        return Err(Unwound(prepared.error));
      }
      var decoded := GetStringReader(prepared.value, lib.gunzip);
      if decoded.Err? {
        return Err(decoded.error);
      }
      var body := ReadAll(decoded.value);
      if body.Err? {
        return Err(body.error);
      }
      res := Ok((body.value, prepared.value));
    }

    /**
     * PipeStream: prepare and exchange, decode, then copy the raw response
     * body (not the decoded one) into `writer` four bytes at a time.
     */
    method PipeStream(writer: Buffer, lib: Library) returns (err: Option<Error>)
      modifies this`client, writer
      modifies if Options.Headers != null then {Options.Headers} else {}
      ensures client == old(ClientAfterPrepare(lib)) && HeadersValue() == old(HeadersAfterPrepare(lib))
      ensures writer.broken == old(writer.broken)
      ensures old(Prepared(lib)).Err? ==> err == Some(Unwound(old(Prepared(lib)).error)) && unchanged(writer)
      ensures old(Prepared(lib)).Ok? && GetStringReader(old(Prepared(lib)).value, lib.gunzip).Err? ==>
        err == Some(GetStringReader(old(Prepared(lib)).value, lib.gunzip).error) && unchanged(writer)
      ensures old(Prepared(lib)).Ok? && GetStringReader(old(Prepared(lib)).value, lib.gunzip).Ok? ==>
        var raw := RawAfterDecode(old(Prepared(lib)).value);
        && err == CopyResult(raw)
        && writer.calls == old(writer.calls) + Writes(raw)
        && writer.data == if writer.broken then old(writer.data) else old(writer.data) + Content(raw)
    {
      var prepared := PrepareReq(lib);
      if prepared.Err? {
        return Some(Unwound(prepared.error));
      }
      var decoded := GetStringReader(prepared.value, lib.gunzip);
      if decoded.Err? {
        return Some(decoded.error);
      }
      var reader := RawAfterDecode(prepared.value);
      err := CopyChunks(reader, writer);
    }

    /**
     * PipeReq: prepare and exchange, decode, and install the decoded body as
     * `nextReq`'s body, with the Content-Type taken from a response header
     * named "reqPipeContent".
     */
    method PipeReq(nextReq: GoReq, lib: Library) returns (res: Result<GoReq, Error>)
      modifies this`client, nextReq.Options`bodyContent
      modifies if Options.Headers != null then {Options.Headers} else {}
      ensures client == old(ClientAfterPrepare(lib)) && HeadersValue() == old(HeadersAfterPrepare(lib))
      ensures old(Prepared(lib)).Err? ==> res == Err(Unwound(old(Prepared(lib)).error)) && unchanged(nextReq.Options)
      ensures old(Prepared(lib)).Ok? && GetStringReader(old(Prepared(lib)).value, lib.gunzip).Err? ==>
        res == Err(GetStringReader(old(Prepared(lib)).value, lib.gunzip).error) && unchanged(nextReq.Options)
      ensures old(Prepared(lib)).Ok? && GetStringReader(old(Prepared(lib)).value, lib.gunzip).Ok? ==>
        && res == Ok(nextReq)
        && nextReq.Options.bodyContent == Some(ReqPipeContent(
             GetStringReader(old(Prepared(lib)).value, lib.gunzip).value,
             HeaderGet(old(Prepared(lib)).value.header, "reqPipeContent")))
    {
      var prepared := PrepareReq(lib);
      if prepared.Err? {
        return Err(Unwound(prepared.error));
      }
      var decoded := GetStringReader(prepared.value, lib.gunzip);
      if decoded.Err? {
        return Err(decoded.error);
      }
      nextReq.Options.bodyContent := Some(ReqPipeContent(decoded.value, HeaderGet(prepared.value.header, "reqPipeContent")));
      res := Ok(nextReq);
    }

    /**
     * PipeToResponse: prepare and exchange; then relay every response header
     * except Connection, write the status line, and copy the raw body into
     * the writer's body four bytes at a time.
     */
    method PipeToResponse(w: ResponseWriter, lib: Library) returns (err: Option<Error>)
      modifies this`client, w`header, w`status, w`sent, w.body
      modifies if Options.Headers != null then {Options.Headers} else {}
      ensures client == old(ClientAfterPrepare(lib)) && HeadersValue() == old(HeadersAfterPrepare(lib))
      ensures w.body.broken == old(w.body.broken)
      ensures old(Prepared(lib)).Err? ==>
        err == Some(old(Prepared(lib)).error) && unchanged(w) && unchanged(w.body)
      ensures old(Prepared(lib)).Ok? ==>
        var resp := old(Prepared(lib)).value;
        && w.header == AppendValues(old(w.header), Without(resp.header, ResponseDropped))
        && (old(w.status).None? ==> w.status == Some(resp.status) && w.sent == w.header)
        && (old(w.status).Some? ==> w.status == old(w.status) && w.sent == old(w.sent))
        && err == CopyResult(resp.body)
        && w.body.calls == old(w.body.calls) + Writes(resp.body)
        && w.body.data == if w.body.broken then old(w.body.data) else old(w.body.data) + Content(resp.body)
    {
      var prepared := PrepareReq(lib);
      if prepared.Err? {
        return Some(prepared.error);
      }
      RelayHeaders(w, prepared.value.header);
      w.WriteHeader(prepared.value.status);
      err := CopyChunks(prepared.value.body, w.body);
    }

    /**
     * PipeFromReq: the inbound request's headers, minus Connection, Referer
     * and Origin, merged into this builder's options (inbound values winning),
     * and its body installed as a pipe body with its Content-Type.
     */
    method PipeFromReq(r: Inbound) returns (self: GoReq)
      modifies this`Options, Options
      modifies if Options.Headers != null then {Options.Headers} else {}
      ensures self == this && Options == old(Options)
      ensures old(Options.Headers) == null ==>
        fresh(Options.Headers) && Options.Headers.entries == Without(r.header, RequestDropped)
      ensures old(Options.Headers) != null ==>
        && Options.Headers == old(Options.Headers)
        && Options.Headers.entries == old(Options.Headers.entries) + Without(r.header, RequestDropped)
      ensures Options.bodyContent == Some(ReqPipeContent(r.body, HeaderGet(r.header, "Content-Type")))
      ensures && Options.Method == old(Options.Method) && Options.Url == old(Options.Url)
              && Options.Jar == old(Options.Jar) && Options.FollowRedirect == old(Options.FollowRedirect)
              && Options.Proxy == old(Options.Proxy) && Options.QueryString == old(Options.QueryString)
              && Options.Timeout == old(Options.Timeout) && Options.HeadersToBeRemove == old(Options.HeadersToBeRemove)
    {
      var pHeaders := DropInbound(r.header);
      var from := new ReqOptions();
      from.Headers := new HeaderMap(pHeaders);
      var merged := MergeOptions(Options, from);
      Options := merged;
      Options.bodyContent := Some(ReqPipeContent(r.body, HeaderGet(r.header, "Content-Type")));
      self := this;
    }

    /** inToBeRemovedHeader: a linear search of HeadersToBeRemove for exactly `k`. */
    method InToBeRemovedHeader(k: string) returns (found: bool)
      ensures found <==> k in Options.HeadersToBeRemove
    {
      var list := Options.HeadersToBeRemove;
      for i := 0 to |list|
        invariant k !in list[..i]
      {
        if list[i] == k {
          return true;
        }
      }
      return false;
    }

    /** prepareReq's header copy: every header whose name inToBeRemovedHeader does not report. */
    method CopyHeaders(headers: Header) returns (out: Header)
      ensures out == Outgoing(Some(headers), Options.HeadersToBeRemove)
    {
      out := map[];
      var keys := headers.Keys;
      while keys != {}
        invariant keys <= headers.Keys
        invariant out == Outgoing(Some(headers - keys), Options.HeadersToBeRemove)
        decreases keys
      {
        var k :| k in keys;
        var removed := InToBeRemovedHeader(k);
        if !removed {
          out := out[k := headers[k]];
        }
        keys := keys - {k};
        assert out == Outgoing(Some(headers - keys), Options.HeadersToBeRemove);
      }
      assert headers - keys == headers;
    }
  }
}
