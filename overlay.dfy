/**
 * The options record of a request (ReqOptions), the header map it points to,
 * and mergeOptions, which overlays one record onto another in place.
 */
module Overlay {
  import opened Wrappers
  import opened Http
  import opened Bodies

  /** A Go map[string][]string: a reference, so two records can share one. */
  class HeaderMap {
    var entries: Header

    constructor (h: Header)
      ensures entries == h
    {
      entries := h;
    }
  }

  /** A cookie jar, known to the builder only by identity. */
  class CookieJar {
    constructor ()
    {
    }
  }

  /** ReqOptions; a nil FollowRedirect or Proxy pointer is None. */
  class ReqOptions {
    var Method: string
    var Url: string
    var Headers: HeaderMap?
    var FollowRedirect: Option<bool>
    var Jar: CookieJar?
    var Proxy: Option<string>
    var QueryString: Values
    var bodyContent: Option<ReqBody>
    var Timeout: int
    var HeadersToBeRemove: seq<string>

    /** `&ReqOptions{}`: every field at its zero value. */
    constructor ()
      ensures Method == "" && Url == "" && Headers == null && FollowRedirect == None
      ensures Jar == null && Proxy == None && QueryString == map[] && bodyContent == None
      ensures Timeout == 0 && HeadersToBeRemove == []
    {
      Method, Url, Headers, FollowRedirect := "", "", null, None;
      Jar, Proxy, QueryString, bodyContent := null, None, map[], None;
      Timeout, HeadersToBeRemove := 0, [];
    }

    /** `tmp := *o`: a new record holding the same values, sharing o's Headers map. */
    constructor CopyOf(o: ReqOptions)
      ensures SameFields(this, o)
    {
      Method, Url, Headers, FollowRedirect := o.Method, o.Url, o.Headers, o.FollowRedirect;
      Jar, Proxy, QueryString, bodyContent := o.Jar, o.Proxy, o.QueryString, o.bodyContent;
      Timeout, HeadersToBeRemove := o.Timeout, o.HeadersToBeRemove;
    }
  }

  /** Two records hold the same field values, the same Headers map included. */
  predicate SameFields(a: ReqOptions, b: ReqOptions)
    reads a, b
  {
    && a.Method == b.Method && a.Url == b.Url && a.Headers == b.Headers
    && a.FollowRedirect == b.FollowRedirect && a.Jar == b.Jar && a.Proxy == b.Proxy
    && a.QueryString == b.QueryString && a.bodyContent == b.bodyContent
    && a.Timeout == b.Timeout && a.HeadersToBeRemove == b.HeadersToBeRemove
  }

  /** The entries of a possibly nil map; ranging over a nil map sees nothing. */
  function EntriesOf(h: HeaderMap?): Header
    reads h
  {
    if h == null then map[] else h.entries
  }

  /** Method and Url: the target keeps its own value unless it is empty. */
  function FillIfEmpty(target: string, source: string): string
  {
    if target == "" then source else target
  }

  /** Jar: the target keeps its own jar unless it has none. */
  function FillIfNil(target: CookieJar?, source: CookieJar?): CookieJar?
  {
    if target == null then source else target
  }

  /** FollowRedirect and Proxy: a value set in the source replaces the target's, a nil one leaves it. */
  function Overwrite<T>(target: Option<T>, source: Option<T>): Option<T>
  {
    if source.Some? then source else target
  }

  /**
   * The overlay laws of mergeOptions: a scalar set on the target is never
   * replaced; a nullable set on the source always replaces the target's; and
   * merging the same source twice changes nothing more.
   */
  lemma OverlayLaws<T>(t: string, s: string, tn: Option<T>, sn: Option<T>)
    ensures t != "" ==> FillIfEmpty(t, s) == t
    ensures t == "" ==> FillIfEmpty(t, s) == s
    ensures sn.Some? ==> Overwrite(tn, sn) == sn
    ensures sn.None? ==> Overwrite(tn, sn) == tn
    ensures FillIfEmpty(FillIfEmpty(t, s), s) == FillIfEmpty(t, s)
    ensures Overwrite(Overwrite(tn, sn), sn) == Overwrite(tn, sn)
  {
  }

  /**
   * mergeOptions(copyTo, copyFrom). A nil copyTo yields a new shallow copy of
   * copyFrom; a nil copyFrom yields copyTo untouched. Otherwise copyTo is
   * updated in place: Method, Url and Jar are filled when unset, FollowRedirect
   * and Proxy are replaced when copyFrom sets them, and copyFrom's headers are
   * written into copyTo's map (copyFrom winning on a shared name), or copyTo
   * takes copyFrom's very map when it has none. Nothing else changes.
   */
  method MergeOptions(copyTo: ReqOptions?, copyFrom: ReqOptions?) returns (r: ReqOptions)
    requires copyTo != null || copyFrom != null
    modifies copyTo
    modifies if copyTo != null && copyTo.Headers != null then {copyTo.Headers} else {}
    ensures copyTo == null ==> fresh(r) && copyFrom != null && SameFields(r, copyFrom)
    ensures copyTo != null ==> r == copyTo
    ensures copyTo != null && copyFrom == null ==>
      unchanged(copyTo) && (copyTo.Headers != null ==> unchanged(copyTo.Headers))
    ensures copyTo != null && copyFrom != null ==>
      && r.Method == FillIfEmpty(old(copyTo.Method), old(copyFrom.Method))
      && r.Url == FillIfEmpty(old(copyTo.Url), old(copyFrom.Url))
      && r.Jar == FillIfNil(old(copyTo.Jar), old(copyFrom.Jar))
      && r.FollowRedirect == Overwrite(old(copyTo.FollowRedirect), old(copyFrom.FollowRedirect))
      && r.Proxy == Overwrite(old(copyTo.Proxy), old(copyFrom.Proxy))
      && r.QueryString == old(copyTo.QueryString) && r.bodyContent == old(copyTo.bodyContent)
      && r.Timeout == old(copyTo.Timeout) && r.HeadersToBeRemove == old(copyTo.HeadersToBeRemove)
    ensures copyTo != null && copyFrom != null && old(copyTo.Headers) == null ==>
      r.Headers == old(copyFrom.Headers)
    ensures copyTo != null && copyFrom != null && old(copyTo.Headers) != null ==>
      && r.Headers == old(copyTo.Headers)
      && r.Headers.entries == old(copyTo.Headers.entries) + old(EntriesOf(copyFrom.Headers))
  {
    if copyTo == null {
      r := new ReqOptions.CopyOf(copyFrom);
      return;
    }
    if copyFrom == null {
      return copyTo;
    }
    // Each assignment below is one of the conditional assignments of the source,
    // written through the function that decides its new value.
    copyTo.Method := FillIfEmpty(copyTo.Method, copyFrom.Method);
    copyTo.Url := FillIfEmpty(copyTo.Url, copyFrom.Url);
    copyTo.Jar := FillIfNil(copyTo.Jar, copyFrom.Jar);
    copyTo.FollowRedirect := Overwrite(copyTo.FollowRedirect, copyFrom.FollowRedirect);
    copyTo.Proxy := Overwrite(copyTo.Proxy, copyFrom.Proxy);
    if copyTo.Headers == null {
      copyTo.Headers := copyFrom.Headers;
    } else if copyFrom.Headers != null {
      WriteAll(copyTo.Headers, copyFrom.Headers.entries);
    }
    r := copyTo;
  }

  /** `for k, v := range source { target[k] = v }`: the source's entries written over the target's. */
  method WriteAll(target: HeaderMap, source: Header)
    modifies target
    ensures target.entries == old(target.entries) + source
  {
    var keys := source.Keys;
    while keys != {}
      invariant keys <= source.Keys
      invariant target.entries == old(target.entries) + map k | k in source.Keys - keys :: source[k]
      decreases keys
    {
      var k :| k in keys;
      target.entries := target.entries[k := source[k]];
      keys := keys - {k};
    }
    assert (map k | k in source.Keys - keys :: source[k]) == source;
  }
}
