/**
 * The APOD request URL fetchSpaceImages builds, and a reader of URL query
 * strings against which that URL is checked.
 */
module Request {
  import opened Wrappers

  /** NASA's APOD endpoint. */
  const NasaApiUrl: string := "https://api.nasa.gov/planetary/apod"

  /** The public demonstration key the page sends. */
  const ApiKey: string := "DEMO_KEY"

  /** The template string of fetchSpaceImages; the values are not URL-encoded. */
  function RequestUrl(startDate: string, endDate: string, key: string): string {
    NasaApiUrl + "?start_date=" + startDate + "&end_date=" + endDate + "&api_key=" + key
  }

  /** The text after the first occurrence of `sep`, if there is one. */
  function After(s: string, sep: char): (r: Option<string>)
    ensures r.Some? <==> sep in s
    ensures r.Some? ==> |r.value| < |s| && r.value == s[|s| - |r.value|..]
  {
    if s == [] then None
    else if s[0] == sep then Some(s[1..])
    else After(s[1..], sep)
  }

  /** `s` cut at every `sep`; there is always at least one piece. */
  function Split(s: string, sep: char): (parts: seq<string>)
    ensures |parts| >= 1
    ensures forall k :: 0 <= k < |parts| ==> sep !in parts[k]
  {
    if s == [] then [[]]
    else
      var rest := Split(s[1..], sep);
      if s[0] == sep then [[]] + rest else [[s[0]] + rest[0]] + rest[1..]
  }

  /** The pieces glued back together with `sep` between neighbours. */
  function Join(parts: seq<string>, sep: char): string
    requires |parts| >= 1
  {
    if |parts| == 1 then parts[0] else parts[0] + [sep] + Join(parts[1..], sep)
  }

  /** The query-string parameters of a URL, as `name=value` pieces in order. */
  function Params(url: string): seq<string> {
    match After(url, '?')
    case None => []
    case Some(query) => Split(query, '&')
  }

  /** The value of the first parameter called `name`. */
  function Lookup(params: seq<string>, name: string): (r: Option<string>)
    ensures r.Some? ==> name + "=" + r.value in params
  {
    if params == [] then None
    else
      var head := name + "=";
      if |head| <= |params[0]| && params[0][..|head|] == head then
        assert params[0] == head + params[0][|head|..];
        Some(params[0][|head|..])
      else Lookup(params[1..], name)
  }

  /** Splitting undoes joining when no piece holds the separator. */
  lemma {:induction false} SplitJoin(parts: seq<string>, sep: char)
    requires |parts| >= 1
    requires forall k :: 0 <= k < |parts| ==> sep !in parts[k]
    ensures Split(Join(parts, sep), sep) == parts
  {
    if |parts| == 1 {
      SplitPiece(parts[0], [], sep);
    } else {
      SplitJoin(parts[1..], sep);
      SplitPiece(parts[0], Join(parts[1..], sep), sep);
    }
  }

  /** A piece free of `sep` comes off the front of the split whole. */
  lemma {:induction false} SplitPiece(piece: string, rest: string, sep: char)
    requires sep !in piece
    ensures rest == [] ==> Split(piece, sep) == [piece]
    ensures Split(piece + [sep] + rest, sep) == [piece] + Split(rest, sep)
  {
    if piece != [] {
      SplitPiece(piece[1..], rest, sep);
      assert (piece + [sep] + rest)[1..] == piece[1..] + [sep] + rest;
      assert [piece[0]] + piece[1..] == piece;
    } else {
      assert piece + [sep] + rest == [sep] + rest;
    }
  }

  /** Joining then splitting at the first `sep`: the text before it has no `sep`. */
  lemma {:induction false} AfterFirst(prefix: string, sep: char, rest: string)
    requires sep !in prefix
    ensures After(prefix + [sep] + rest, sep) == Some(rest)
  {
    if prefix != [] {
      assert (prefix + [sep] + rest)[1..] == prefix[1..] + [sep] + rest;
      AfterFirst(prefix[1..], sep, rest);
    }
  }

  /** The three parameters glued with `&`, as the template writes them. */
  lemma JoinThree(p1: string, p2: string, p3: string)
    ensures Join([p1, p2, p3], '&') == p1 + "&" + p2 + "&" + p3
  {
    assert [p1, p2, p3][1..] == [p2, p3] && [p2, p3][1..] == [p3];
    assert Join([p2, p3], '&') == p2 + "&" + p3;
  }

  /** The endpoint has no query of its own. */
  lemma EndpointHasNoQuery()
    ensures '?' !in NasaApiUrl
  {
  }

  /** The query of the request, as the template writes it. */
  lemma RequestQuery(startDate: string, endDate: string, key: string)
    ensures RequestUrl(startDate, endDate, key)
      == NasaApiUrl + ['?'] + Join(["start_date=" + startDate, "end_date=" + endDate, "api_key=" + key], '&')
  {
    JoinThree("start_date=" + startDate, "end_date=" + endDate, "api_key=" + key);
  }

  /**
   * The request carries the three parameters in order, each value verbatim,
   * provided no value holds an `&` (ISO dates and the key do not).
   */
  lemma RequestParams(startDate: string, endDate: string, key: string)
    requires '&' !in startDate && '&' !in endDate && '&' !in key
    ensures RequestUrl(startDate, endDate, key)[..|NasaApiUrl|] == NasaApiUrl
    ensures Params(RequestUrl(startDate, endDate, key))
      == ["start_date=" + startDate, "end_date=" + endDate, "api_key=" + key]
  {
    var ps := ["start_date=" + startDate, "end_date=" + endDate, "api_key=" + key];
    RequestQuery(startDate, endDate, key);
    EndpointHasNoQuery();
    AfterFirst(NasaApiUrl, '?', Join(ps, '&'));
    assert forall k :: 0 <= k < |ps| ==> '&' !in ps[k];
    SplitJoin(ps, '&');
  }

  /** A parameter whose first letter differs from the name's is skipped. */
  lemma Skipped(param: string, rest: seq<string>, name: string)
    requires |param| > 0 && |name| > 0 && param[0] != name[0]
    ensures Lookup([param] + rest, name) == Lookup(rest, name)
  {
    assert ([param] + rest)[1..] == rest;
    var head := name + "=";
    if |head| <= |param| {
      assert param[..|head|][0] != head[0];
    }
  }

  /** A parameter that starts with `name=` is the one found. */
  lemma Found(value: string, rest: seq<string>, name: string)
    ensures Lookup([name + "=" + value] + rest, name) == Some(value)
  {
    var p := name + "=" + value;
    assert p[..|name + "="|] == name + "=";
  }

  /** Looking each parameter up by name gives back the value put in. */
  lemma RequestCarriesRange(startDate: string, endDate: string, key: string)
    requires '&' !in startDate && '&' !in endDate && '&' !in key
    ensures Lookup(Params(RequestUrl(startDate, endDate, key)), "start_date") == Some(startDate)
    ensures Lookup(Params(RequestUrl(startDate, endDate, key)), "end_date") == Some(endDate)
    ensures Lookup(Params(RequestUrl(startDate, endDate, key)), "api_key") == Some(key)
  {
    RequestParams(startDate, endDate, key);
    var p1, p2, p3 := "start_date=" + startDate, "end_date=" + endDate, "api_key=" + key;
    assert [p1, p2, p3] == [p1] + ([p2] + [p3]);
    Found(startDate, [p2, p3], "start_date");
    Skipped(p1, [p2, p3], "end_date");
    Found(endDate, [p3], "end_date");
    Skipped(p1, [p2, p3], "api_key");
    Skipped(p2, [p3], "api_key");
    Found(key, [], "api_key");
  }
}
