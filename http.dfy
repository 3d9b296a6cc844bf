/**
 * The values the request builder passes around: bytes, header and query maps,
 * the errors an exchange can end with, and the small string helpers of net/http
 * and strings that the builder relies on.
 */
module Http {
  import opened Wrappers

  newtype byte = x: int | 0 <= x < 256

  /** net/http's Header: a header name mapped to its values, in the order they are sent. */
  type Header = map<string, seq<string>>

  /** net/url's Values: a query or form key mapped to its values. */
  type Values = map<string, seq<string>>

  /** What a Go panic in the builder is caused by. */
  datatype PanicCause =
    | MarshalFailed  // json.Marshal failed inside jsonObjContent.build and guard panicked
    | NilMapWrite    // Content-Type written into a nil Headers map
    | NilResponse    // getStringReader dereferenced the nil response of a failed prepareReq

  /** Every way an operation of the builder can end without a result. */
  datatype Error =
    | ProxyUrlInvalid          // url.Parse rejected Options.Proxy
    | RequestInvalid           // http.NewRequest rejected the method or the URL
    | Transport(code: nat)     // client.Do failed
    | GzipInvalid              // gzip.NewReader rejected the response body
    | ReadFailed(code: nat)    // a Read returned an error other than io.EOF
    | ReadOnClosedBody         // a Read on a response body that was already closed
    | Panic(cause: PanicCause) // the Go code panics

  /** Header.Get: the first value stored under `name`, or "" when there is none. */
  function HeaderGet(h: Header, name: string): string
  {
    if name in h && h[name] != [] then h[name][0] else ""
  }

  /** The values stored under `name`, or none. */
  function ValuesOf(h: Header, name: string): seq<string>
  {
    if name in h then h[name] else []
  }

  /** The header with every name in `drop` removed (the name compared exactly, case included). */
  function Without(h: Header, drop: set<string>): (r: Header)
    ensures forall k :: k in r <==> k in h && k !in drop
    ensures forall k :: k in r ==> r[k] == h[k]
  {
    map k | k in h && k !in drop :: h[k]
  }

  /** strings.ToUpper on one character, for the ASCII letters. */
  function UpperChar(c: char): char
  {
    if 'a' <= c <= 'z' then (c as int - 32) as char else c
  }

  predicate IsLowerAscii(c: char)
  {
    'a' <= c <= 'z'
  }

  /** strings.ToUpper: every ASCII lower-case letter replaced by its upper-case form. */
  function ToUpper(s: string): (r: string)
    ensures |r| == |s|
    ensures forall i :: 0 <= i < |s| ==> !IsLowerAscii(r[i])
    ensures forall i :: 0 <= i < |s| && !IsLowerAscii(s[i]) ==> r[i] == s[i]
    ensures forall i :: 0 <= i < |s| && IsLowerAscii(s[i]) ==> r[i] as int == s[i] as int - 32
  {
    if s == [] then [] else [UpperChar(s[0])] + ToUpper(s[1..])
  }

  /** Upper-casing twice is upper-casing once. */
  lemma {:induction false} ToUpperIdempotent(s: string)
    ensures ToUpper(ToUpper(s)) == ToUpper(s)
  {
    var u := ToUpper(s);
    var uu := ToUpper(u);
    assert |uu| == |u|;
    forall i | 0 <= i < |u| ensures uu[i] == u[i] {
      assert !IsLowerAscii(u[i]);
    }
  }
}
