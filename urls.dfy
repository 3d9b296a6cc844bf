/**
 * ReqOptions.buidUrl: appending the encoded query string to the target URL,
 * together with the join the code evidently intended.
 */
module Urls {

  /** The number of times `c` occurs in `s`. */
  function Occurrences(c: char, s: string): nat
  {
    if s == [] then 0 else (if s[0] == c then 1 else 0) + Occurrences(c, s[1..])
  }

  lemma {:induction false} OccurrencesAppend(c: char, s: string, t: string)
    ensures Occurrences(c, s + t) == Occurrences(c, s) + Occurrences(c, t)
  {
    if s == [] {
      assert s + t == t;
    } else {
      assert (s + t)[1..] == s[1..] + t;
      OccurrencesAppend(c, s[1..], t);
    }
  }

  lemma {:induction false} OccurrencesZero(c: char, s: string)
    ensures Occurrences(c, s) == 0 <==> c !in s
  {
    if s != [] {
      OccurrencesZero(c, s[1..]);
      assert c in s <==> s[0] == c || c in s[1..];
    }
  }

  /**
   * buidUrl, with `qs` the already encoded QueryString: unchanged when there is
   * no query; otherwise the URL, a separator and the query, where the separator
   * is '&' only when the query string itself contains '?'.
   */
  function BuildUrl(url: string, qs: string): (r: string)
    ensures |r| == |url| + (if qs == "" then 0 else 1 + |qs|)
    ensures r[..|url|] == url
    ensures qs != "" ==> r[|url| + 1..] == qs
    ensures qs != "" ==> (r[|url|] == '&' <==> '?' in qs)
    ensures qs != "" ==> (r[|url|] == '?' <==> '?' !in qs)
  {
    if qs == "" then url
    else if '?' in qs then url + "&" + qs
    else url + "?" + qs
  }

  /** What buidUrl appends does not depend on the URL at all: a '?' already in the URL is never looked at. */
  lemma BuildUrlIgnoresUrl(u1: string, u2: string, qs: string)
    ensures BuildUrl(u1, qs)[|u1|..] == BuildUrl(u2, qs)[|u2|..]
  {
    var r1, r2 := BuildUrl(u1, qs), BuildUrl(u2, qs);
    if qs != "" {
      assert r1[|u1|..] == [r1[|u1|]] + qs;
      assert r2[|u2|..] == [r2[|u2|]] + qs;
    }
  }

  /**
   * A URL that already carries a query gets a second '?' in front of an encoded
   * query (which holds no '?'), as in "http://host/path?x=1" with "a=1".
   */
  lemma BuildUrlDoublesQuery(url: string, qs: string)
    requires '?' in url && qs != "" && '?' !in qs
    ensures BuildUrl(url, qs) == url + "?" + qs
    ensures Occurrences('?', BuildUrl(url, qs)) == Occurrences('?', url) + 1 >= 2
  {
    OccurrencesZero('?', url);
    OccurrencesZero('?', qs);
    assert BuildUrl(url, qs) == url + ("?" + qs);
    OccurrencesAppend('?', url, "?" + qs);
    assert ("?" + qs)[1..] == qs;
  }

  lemma BuildUrlExample()
    ensures BuildUrl("http://host/path?x=1", "a=1") == "http://host/path?x=1?a=1"
  {
    assert '?' !in "a=1";
  }

  /** The join evidently intended: '&' when the URL already has a query component, '?' otherwise. */
  function BuildUrlIntended(url: string, qs: string): (r: string)
    ensures |r| == |url| + (if qs == "" then 0 else 1 + |qs|)
    ensures r[..|url|] == url
    ensures qs != "" ==> r[|url| + 1..] == qs
  {
    if qs == "" then url
    else if '?' in url then url + "&" + qs
    else url + "?" + qs
  }

  /**
   * With an encoded query (which never holds '?', since url.Values.Encode
   * escapes it) the intended join leaves at most one '?' in the URL: exactly
   * one when the URL already had a query or the query string is not empty.
   */
  lemma {:induction false} IntendedJoinKeepsOneQuery(url: string, qs: string)
    requires Occurrences('?', url) <= 1
    requires '?' !in qs
    ensures Occurrences('?', BuildUrlIntended(url, qs)) == if '?' in url || qs != "" then 1 else 0
  {
    OccurrencesZero('?', url);
    OccurrencesZero('?', qs);
    if qs != "" {
      var sep := if '?' in url then "&" else "?";
      assert BuildUrlIntended(url, qs) == url + (sep + qs);
      OccurrencesAppend('?', url, sep + qs);
      OccurrencesAppend('?', sep, qs);
      assert sep[1..] == "";
    }
  }

  /** The scenario the join is meant for: "http://host/path" and "http://host/path?x=1" with the query "a=1". */
  lemma IntendedJoinExamples()
    ensures BuildUrlIntended("http://host/path", "a=1") == "http://host/path?a=1"
    ensures BuildUrlIntended("http://host/path?x=1", "a=1") == "http://host/path?x=1&a=1"
  {
    assert '?' !in "http://host/path";
    assert "http://host/path?x=1"[16] == '?';
  }
}
