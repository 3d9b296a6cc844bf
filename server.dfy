/**
 * The server-side collaborators of the reverse-proxy relays: the inbound
 * request as far as PipeFromReq reads it, and an http.ResponseWriter.
 */
module Server {
  import opened Wrappers
  import opened Http
  import opened Streams

  /** An inbound *http.Request as far as PipeFromReq reads it: its headers and its body reader. */
  datatype Inbound = Inbound(header: Header, body: Stream)

  /** Header.Add: `v` appended to the values stored under `k`. */
  function AddValue(h: Header, k: string, v: string): (r: Header)
    ensures r.Keys == h.Keys + {k}
    ensures r[k] == ValuesOf(h, k) + [v]
    ensures forall j :: j in h && j != k ==> r[j] == h[j]
  {
    h[k := ValuesOf(h, k) + [v]]
  }

  /**
   * `extra`'s values appended, name by name, after the values `h` already has.
   * A name whose list in `extra` is empty is never added (no Add call happens for it).
   */
  function AppendValues(h: Header, extra: Header): (r: Header)
    ensures forall k :: k in r <==> k in h || (k in extra && extra[k] != [])
    ensures forall k :: k in r ==> r[k] == ValuesOf(h, k) + ValuesOf(extra, k)
  {
    map k | k in h.Keys + Relayed(extra) :: ValuesOf(h, k) + ValuesOf(extra, k)
  }

  /** The names of `extra` that have at least one value, that is, that get an Add call. */
  function Relayed(extra: Header): (names: set<string>)
    ensures forall k :: k in names <==> k in extra && extra[k] != []
  {
    set j | j in extra && extra[j] != []
  }

  /** An http.ResponseWriter: the header map, the status line once written, and the body sink. */
  class ResponseWriter {
    var header: Header
    /** The code of the first WriteHeader call, if any. */
    var status: Option<int>
    /** The header as it stood when the status line went out; later changes are not sent. */
    var sent: Header
    const body: Buffer

    constructor (sink: Buffer)
      ensures header == map[] && status == None && sent == map[] && body == sink
    {
      header, status, sent, body := map[], None, map[], sink;
    }

    /** w.Header().Add(k, v). */
    method Add(k: string, v: string)
      modifies this`header
      ensures header == AddValue(old(header), k, v)
    {
      header := AddValue(header, k, v);
    }

    /** w.WriteHeader(code): only the first call sends the status line and the header. */
    method WriteHeader(code: int)
      modifies this`status, this`sent
      ensures old(status).None? ==> status == Some(code) && sent == header
      ensures old(status).Some? ==> status == old(status) && sent == old(sent)
    {
      if status.None? {
        status, sent := Some(code), header;
      }
    }
  }

  /** The one response header PipeToResponse does not relay (a hop-by-hop header, RFC 9110 section 7.6.1). */
  const ResponseDropped: set<string> := {"Connection"}

  lemma AppendEmptyList(h: Header, d: Header, k: string)
    requires k !in d
    ensures AppendValues(h, d[k := []]) == AppendValues(h, d)
  {
    var a, b := AppendValues(h, d[k := []]), AppendValues(h, d);
    assert a.Keys == b.Keys;
    forall j | j in a ensures a[j] == b[j] {
    }
  }

  /** AppendOneMore at the name `k` itself: `v` comes after the values already relayed. */
  lemma AppendOneMoreSame(h: Header, d: Header, k: string, vs: seq<string>, v: string)
    ensures k in AppendValues(h, d[k := vs + [v]]) && k in AddValue(AppendValues(h, d[k := vs]), k, v)
    ensures AppendValues(h, d[k := vs + [v]])[k] == AddValue(AppendValues(h, d[k := vs]), k, v)[k]
  {
    var e1, e0 := d[k := vs + [v]], d[k := vs];
    assert ValuesOf(e1, k) == vs + [v] && ValuesOf(e0, k) == vs;
    assert k in Relayed(e1);
    var inner := AppendValues(h, e0);
    assert ValuesOf(inner, k) == ValuesOf(h, k) + vs by {
      if k !in inner {
        assert k !in h && k !in Relayed(e0);
      }
    }
  }

  /** AppendOneMore at any other name: nothing changes there. */
  lemma AppendOneMoreOther(h: Header, d: Header, k: string, vs: seq<string>, v: string, j: string)
    requires j != k
    ensures j in AppendValues(h, d[k := vs + [v]]) <==> j in AddValue(AppendValues(h, d[k := vs]), k, v)
    ensures j in AppendValues(h, d[k := vs + [v]]) ==>
      AppendValues(h, d[k := vs + [v]])[j] == AddValue(AppendValues(h, d[k := vs]), k, v)[j]
  {
    var inner := AppendValues(h, d[k := vs]);
    var a := AppendValues(h, d[k := vs + [v]]);
    assert j in a <==> j in inner;
    if j in a {
      assert a[j] == inner[j];
    }
  }

  lemma AppendOneMore(h: Header, d: Header, k: string, vs: seq<string>, v: string)
    ensures AppendValues(h, d[k := vs + [v]]) == AddValue(AppendValues(h, d[k := vs]), k, v)
  {
    var a, b := AppendValues(h, d[k := vs + [v]]), AddValue(AppendValues(h, d[k := vs]), k, v);
    AppendOneMoreSame(h, d, k, vs, v);
    forall j | j != k ensures (j in a <==> j in b) && (j in a ==> a[j] == b[j]) {
      AppendOneMoreOther(h, d, k, vs, v, j);
    }
    assert a.Keys == b.Keys;
  }

  lemma AppendNothing(h: Header)
    ensures AppendValues(h, map[]) == h
  {
    var a := AppendValues(h, map[]);
    assert a.Keys == h.Keys;
    forall j | j in a ensures a[j] == h[j] {
      assert a[j] == h[j] + [];
    }
  }

  /** One more name of the relayed header taken into the part already done. */
  lemma DoneStep(relayed: Header, keys: set<string>, k: string)
    requires k in keys
    ensures k in relayed ==> (relayed - keys)[k := relayed[k]] == relayed - (keys - {k})
    ensures k !in relayed ==> relayed - keys == relayed - (keys - {k})
  {
  }

  /** `vs` added to `h` under the name `k` one Add call at a time, in order. */
  function AddAll(h: Header, k: string, vs: seq<string>): Header
  {
    if vs == [] then h else AddValue(AddAll(h, k, vs[..|vs| - 1]), k, vs[|vs| - 1])
  }

  /**
   * Adding a name's values one by one to a header that has relayed `done`
   * gives the header that has relayed `done` and that name's values.
   */
  lemma {:induction false} AddAllAppends(h: Header, done: Header, k: string, vs: seq<string>)
    requires k !in done
    ensures AddAll(AppendValues(h, done), k, vs) == AppendValues(h, done[k := vs])
    decreases |vs|
  {
    if vs == [] {
      AppendEmptyList(h, done, k);
    } else {
      var init, v := vs[..|vs| - 1], vs[|vs| - 1];
      calc {
        AddAll(AppendValues(h, done), k, vs);
        AddValue(AddAll(AppendValues(h, done), k, init), k, v);
        { AddAllAppends(h, done, k, init); }
        AddValue(AppendValues(h, done[k := init]), k, v);
        { AppendOneMore(h, done, k, init, v); }
        AppendValues(h, done[k := init + [v]]);
        { assert init + [v] == vs; }
        AppendValues(h, done[k := vs]);
      }
    }
  }

  /** The inner loop of PipeToResponse's header relay: the values of one name, added in order. */
  method AddValues(w: ResponseWriter, k: string, values: seq<string>)
    modifies w`header
    ensures w.header == AddAll(old(w.header), k, values)
  {
    for i := 0 to |values|
      invariant w.header == AddAll(old(w.header), k, values[..i])
    {
      w.Add(k, values[i]);
      assert values[..i + 1][..i] == values[..i];
    }
    assert values[..|values|] == values;
  }

  /**
   * The header loop of PipeToResponse: every upstream header except
   * Connection is added to the writer, value by value in order.
   */
  method RelayHeaders(w: ResponseWriter, upstream: Header)
    modifies w`header
    ensures w.header == AppendValues(old(w.header), Without(upstream, ResponseDropped))
  {
    ghost var relayed := Without(upstream, ResponseDropped);
    var keys := upstream.Keys;
    assert relayed - keys == map[];
    AppendNothing(w.header);
    while keys != {}
      invariant keys <= upstream.Keys
      invariant w.header == AppendValues(old(w.header), relayed - keys)
      decreases keys
    {
      var k :| k in keys;
      DoneStep(relayed, keys, k);
      if k !in ResponseDropped {
        AddValues(w, k, upstream[k]);
        AddAllAppends(old(w.header), relayed - keys, k, upstream[k]);
      }
      keys := keys - {k};
    }
    assert relayed - keys == relayed;
  }
}
