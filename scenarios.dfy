/**
 * Whole-builder scenarios: the behaviours the repository's tests and examples
 * exercise, and the consequences of the shared header maps, derived from the
 * contracts of the builder's operations.
 */
module Scenarios {
  import opened Wrappers
  import opened Http
  import opened Streams
  import opened Bodies
  import opened Overlay
  import opened Builder

  /**
   * A builder made with FollowRedirect true and a proxy; one child derived
   * without options and one that sets FollowRedirect false. Both children
   * inherit the proxy, the second child's own setting wins, and the parent's
   * setting is untouched.
   */
  method GlobalOptions() returns (proxy1: Option<string>, proxy2: Option<string>, follow2: Option<bool>, follow0: Option<bool>)
    ensures proxy1 == Some("http://localhost:8888") && proxy2 == Some("http://localhost:8888")
    ensures follow2 == Some(false) && follow0 == Some(true)
  {
    var defaults := NewDefaultOptions();
    var o := new ReqOptions();
    o.FollowRedirect := Some(true);
    o.Proxy := Some("http://localhost:8888");
    var req := Req(o, defaults);
    var req1 := req.Req(null);
    req1 := req1.Get("http://www.abc.com");
    var o2 := new ReqOptions();
    o2.FollowRedirect := Some(false);
    var req2 := req.Req(o2);
    req2 := req2.Get("http://www.abc.com");
    proxy1, proxy2 := req1.Options.Proxy, req2.Options.Proxy;
    follow2, follow0 := req2.Options.FollowRedirect, req.Options.FollowRedirect;
  }

  /**
   * Deriving a child with its own headers writes those headers into the
   * parent's map: the parent then sends them too.
   */
  method ChildHeadersReachParent(parentHeaders: Header, childHeaders: Header) returns (parentAfter: Header)
    ensures parentAfter == parentHeaders + childHeaders
    ensures forall k :: k in childHeaders ==> k in parentAfter && parentAfter[k] == childHeaders[k]
  {
    var o := new ReqOptions();
    o.Headers := new HeaderMap(parentHeaders);
    var defaults := NewDefaultOptions();
    var parent := Req(o, defaults);
    var override := new ReqOptions();
    override.Headers := new HeaderMap(childHeaders);
    var child := parent.Req(override);
    parentAfter := parent.Options.Headers.entries;
  }

  /**
   * A builder made from the defaults shares the defaults' header map, so
   * preparing a request with a JSON body leaves "Content-Type:
   * application/json" in the defaults' map, which every later Req(nil) shares
   * and sends. This holds whatever the exchange does, since the header is
   * written before the request is created.
   */
  method ContentTypeLeaksIntoDefaults(json: seq<byte>, lib: Library) returns (leaked: Header)
    ensures leaked == map["Content-Type" := [JsonType]]
  {
    var defaults := NewDefaultOptions();
    var shared := defaults.Headers;
    var g := Req(null, defaults);
    g := g.JsonString(json);
    g.PrepareWritesContentType(lib);
    var _ := g.PrepareReq(lib);
    leaked := shared.entries;
  }

  /**
   * `base` with a server that accepts every request and answers it with
   * status 200, no headers, and the plain body `data`.
   */
  function PlainServer(base: Library, data: Chunk): Library
  {
    base.(requestOk := (verb: string, url: string) => true,
          exchange := (q: Request, c: Client) => Ok(Response(200, map[], Stream([], Eof(data)))))
  }

  /** Req(nil).Get(url).PipeStream(writer) delivers the response body to the writer. */
  method PipeStreamDelivers(url: string, data: Chunk, base: Library) returns (written: seq<byte>, err: Option<Error>)
    ensures written == data && err == None
  {
    var lib := PlainServer(base, data);
    var defaults := NewDefaultOptions();
    var g := Req(null, defaults);
    g := g.Get(url);
    var writer := new Buffer();
    assert HeaderGet(map[], "Content-Encoding") == "";
    err := g.PipeStream(writer, lib);
    written := writer.data;
    assert Writes(Stream([], Eof(data))) == [data];
  }

  /** Req(nil).Get(url).Do() returns the response body and the status 200. */
  method DoReturnsBody(url: string, data: Chunk, base: Library) returns (res: Result<(seq<byte>, Response), Error>)
    ensures res.Ok? && res.value.0 == data && res.value.1.status == 200
  {
    var lib := PlainServer(base, data);
    var defaults := NewDefaultOptions();
    var g := Req(null, defaults);
    g := g.Get(url);
    assert HeaderGet(map[], "Content-Encoding") == "";
    res := g.Do(lib);
  }

  /**
   * HeadersToBeRemove = ["header2"] over the headers header1 and header2:
   * the request carries header1 only.
   */
  lemma RemoveHeaderDropsIt(url: string, lib: Library)
    requires Assemble("Get", url, map[], Some(map["header1" := ["headver1_val"], "header2" := ["headver2_val"]]),
                      ["header2"], None, lib).Ok?
    ensures Assemble("Get", url, map[], Some(map["header1" := ["headver1_val"], "header2" := ["headver2_val"]]),
                     ["header2"], None, lib).value.header == map["header1" := ["headver1_val"]]
  {
    var h := map["header1" := ["headver1_val"], "header2" := ["headver2_val"]];
    AssembleRequest("Get", url, map[], Some(h), ["header2"], None, lib);
    var q := Assemble("Get", url, map[], Some(h), ["header2"], None, lib).value;
    assert q.header.Keys == {"header1"};
  }

  /**
   * The reverse proxy: the inbound request's headers are forwarded except
   * Connection, Referer and Origin, and the inbound Content-Type goes out
   * with the piped body.
   */
  lemma ReverseProxyForwards(verb: string, url: string, inbound: Header, body: Stream, lib: Library)
    requires Assemble(verb, url, map[], Some(Without(inbound, RequestDropped)), [],
                      Some(ReqPipeContent(body, HeaderGet(inbound, "Content-Type"))), lib).Ok?
    ensures var q := Assemble(verb, url, map[], Some(Without(inbound, RequestDropped)), [],
                              Some(ReqPipeContent(body, HeaderGet(inbound, "Content-Type"))), lib).value;
      && "Origin" !in q.header && "Referer" !in q.header && "Connection" !in q.header
      && (forall k :: k in inbound && k !in RequestDropped && k != "Content-Type" ==> k in q.header && q.header[k] == inbound[k])
      && q.header["Content-Type"] == [HeaderGet(inbound, "Content-Type")]
      && q.body == Some(StreamReader(body))
  {
    var b := ReqPipeContent(body, HeaderGet(inbound, "Content-Type"));
    AssembleRequest(verb, url, map[], Some(Without(inbound, RequestDropped)), [], Some(b), lib);
  }
}
