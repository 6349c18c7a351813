// URLs as the content API client writes them: a path, then optionally `?`
// and `key=value` pairs joined with `&`. `Parse` is the reading a server
// gives such a URL; it is the reference the request builders are checked
// against.
module Urls {
  import opened Text

  /**
   * True of a string free of the four characters the client's URLs use as
   * delimiters. The `application/x-www-form-urlencoded` serialiser of
   * section 5.2 of the WHATWG URL Standard, which Ruby's `CGI.escape`
   * follows, percent-encodes all four, so every escaped string is plain.
   */
  predicate Plain(s: string)
  {
    ',' !in s && '&' !in s && '=' !in s && '?' !in s
  }

  /** The one assumption the model makes of `CGI.escape`: its output is plain. */
  ghost predicate FormEncoded(escape: string -> string)
  {
    forall s :: Plain(escape(s))
  }

  /** One query parameter. */
  datatype Pair = Pair(key: string, value: string)

  /** What a server reads from a URL: the path and the query parameters in order. */
  datatype Target = Target(path: string, query: seq<Pair>)

  /** `key=value`, as Ruby's `"#{k}=#{v}"`. */
  function Render(p: Pair): string
  {
    p.key + "=" + p.value
  }

  function RenderAll(ps: seq<Pair>): (r: seq<string>)
    ensures |r| == |ps|
    ensures forall k :: 0 <= k < |ps| ==> r[k] == Render(ps[k])
  {
    if |ps| == 0 then [] else [Render(ps[0])] + RenderAll(ps[1..])
  }

  /** The query string `k1=v1&k2=v2…` of a list of pairs. */
  function QueryString(ps: seq<Pair>): string
  {
    Join(RenderAll(ps), '&')
  }

  /** `path`, followed by `?` and the query string only when there are pairs. */
  function WithQuery(path: string, ps: seq<Pair>): string
  {
    if |ps| == 0 then path else path + "?" + QueryString(ps)
  }

  /** A pair survives the round trip through a query string when its key holds
      neither `&` nor `=` and its value holds no `&`. */
  predicate Readable(p: Pair)
  {
    '&' !in p.key && '=' !in p.key && '&' !in p.value
  }

  /** Reads `key=value`, cutting at the first `=`. */
  function ReadPair(kv: string): Pair
  {
    if '=' in kv then
      var j := FirstIndex(kv, '=');
      Pair(kv[..j], kv[j + 1..])
    else Pair(kv, "")
  }

  function ReadPairs(kvs: seq<string>): (r: seq<Pair>)
    ensures |r| == |kvs|
  {
    if |kvs| == 0 then [] else [ReadPair(kvs[0])] + ReadPairs(kvs[1..])
  }

  /** The server's reading of a URL: cut at the first `?`, then at every `&`. */
  function Parse(url: string): Target
  {
    if '?' in url then
      var i := FirstIndex(url, '?');
      Target(url[..i], ReadPairs(Split(url[i + 1..], '&')))
    else Target(url, [])
  }

  lemma {:induction false} ReadRendered(ps: seq<Pair>)
    requires forall k :: 0 <= k < |ps| ==> Readable(ps[k])
    ensures ReadPairs(RenderAll(ps)) == ps
    decreases |ps|
  {
    if |ps| > 0 {
      FirstIndexAfter(ps[0].key, '=', ps[0].value);
      var kv := Render(ps[0]);
      assert kv[..|ps[0].key|] == ps[0].key;
      assert kv[|ps[0].key| + 1..] == ps[0].value;
      assert RenderAll(ps)[1..] == RenderAll(ps[1..]);
      ReadRendered(ps[1..]);
    }
  }

  /** A path without `?` and readable pairs are read back exactly as written. */
  lemma ParseWithQuery(path: string, ps: seq<Pair>)
    requires '?' !in path
    requires forall k :: 0 <= k < |ps| ==> Readable(ps[k])
    ensures Parse(WithQuery(path, ps)) == Target(path, ps)
  {
    if |ps| > 0 {
      var q := QueryString(ps);
      var url := path + "?" + q;
      FirstIndexAfter(path, '?', q);
      assert url[..|path|] == path;
      assert url[|path| + 1..] == q;
      var kvs := RenderAll(ps);
      forall k | 0 <= k < |kvs| ensures '&' !in kvs[k] {
        assert kvs[k] == ps[k].key + "=" + ps[k].value;
      }
      SplitJoin(kvs, '&');
      ReadRendered(ps);
    }
  }

  /** A path followed by one readable pair is read as that path and that pair. */
  lemma ReadsOne(path: string, k: string, v: string)
    requires '?' !in path && Readable(Pair(k, v))
    ensures Parse(path + ("?" + k + "=" + v)) == Target(path, [Pair(k, v)])
  {
    var ps := [Pair(k, v)];
    var a := Render(ps[0]);
    assert QueryString(ps) == a;
    ParseWithQuery(path, ps);
    assert "?" + k + "=" + v == "?" + a;
    AppendAssoc(path, "?", a);
  }

  lemma QueryTwoSpelled(k1: string, v1: string, k2: string, v2: string)
    ensures "?" + k1 + "=" + v1 + "&" + k2 + "=" + v2 == "?" + QueryString([Pair(k1, v1), Pair(k2, v2)])
  {
    var ps := [Pair(k1, v1), Pair(k2, v2)];
    var a, b := Render(ps[0]), Render(ps[1]);
    var kvs := RenderAll(ps);
    assert kvs == [a, b];
    assert kvs[1..] == [b];
    assert Join([b], '&') == b;
    assert QueryString(ps) == a + "&" + b;
  }

  /** A path followed by two readable pairs is read as that path and those pairs. */
  lemma ReadsTwo(path: string, k1: string, v1: string, k2: string, v2: string)
    requires '?' !in path && Readable(Pair(k1, v1)) && Readable(Pair(k2, v2))
    ensures Parse(path + ("?" + k1 + "=" + v1 + "&" + k2 + "=" + v2)) == Target(path, [Pair(k1, v1), Pair(k2, v2)])
  {
    var ps := [Pair(k1, v1), Pair(k2, v2)];
    QueryTwoSpelled(k1, v1, k2, v2);
    ParseWithQuery(path, ps);
    AppendAssoc(path, "?", QueryString(ps));
  }
}
