// `artefact(slug, params)` (lib/gds_api/content_api.rb:50-61): the URL is
// the escaped slug's path, followed by `?k=v&…` only when there are
// parameters; an `edition` parameter without a bearer token in the client's
// options raises `NoBearerToken` before anything is fetched.
module Artefact {
  import opened Text
  import opened Urls
  import opened Endpoints
  import opened Responses

  /** A parameter value as Ruby interpolates it. */
  datatype Value = Str(s: string) | Num(n: int) | Bool(b: bool) | Nil

  /**
   * A key of the `params` hash. Ruby interpolates `:edition` and `"edition"`
   * alike, but a hash lookup by `:edition` finds only the symbol.
   */
  datatype Key = SymbolKey(name: string) | StringKey(name: string)

  /** One entry of the `params` hash, in insertion order. */
  datatype Param = Param(key: Key, value: Value)

  /** `"#{v}"` */
  function ValueToS(v: Value): string
  {
    match v
    case Str(s) => s
    case Num(n) => IntToS(n)
    case Bool(b) => if b then "true" else "false"
    case Nil => ""
  }

  /** Ruby truthiness: everything except `nil` and `false`. */
  predicate Truthy(v: Value)
  {
    !v.Nil? && v != Bool(false)
  }

  /**
   * `params[key]`: the value of the first entry under `key`, `nil` when
   * there is none.
   */
  function Lookup(params: seq<Param>, key: Key): (v: Value)
    ensures forall k :: 0 <= k < |params| && params[k].key == key && (forall m :: 0 <= m < k ==> params[m].key != key) ==>
      v == params[k].value
    ensures (forall k :: 0 <= k < |params| ==> params[k].key != key) ==> v.Nil?
  {
    if |params| == 0 then Nil
    else if params[0].key == key then params[0].value
    else
      var v := Lookup(params[1..], key);
      assert forall k :: 0 <= k < |params| && params[k].key == key && (forall m :: 0 <= m < k ==> params[m].key != key) ==>
        v == params[k].value by {
        forall k | 0 <= k < |params| && params[k].key == key && (forall m :: 0 <= m < k ==> params[m].key != key)
          ensures v == params[k].value
        {
          assert k > 0;
          assert params[1..][k - 1] == params[k];
          forall m | 0 <= m < k - 1 ensures params[1..][m].key != key {
            assert params[1..][m] == params[m + 1];
          }
        }
      }
      assert (forall k :: 0 <= k < |params| ==> params[k].key != key) ==> v.Nil? by {
        if forall k :: 0 <= k < |params| ==> params[k].key != key {
          forall k | 0 <= k < |params[1..]| ensures params[1..][k].key != key {
            assert params[1..][k] == params[k + 1];
          }
        }
      }
      v
  }

  /** `params.map { |k,v| "#{k}=#{v}" }`, as pairs. */
  function QueryPairs(params: seq<Param>): (r: seq<Pair>)
    ensures |r| == |params|
    ensures forall k :: 0 <= k < |params| ==> r[k] == Pair(params[k].key.name, ValueToS(params[k].value))
  {
    if |params| == 0 then []
    else [Pair(params[0].key.name, ValueToS(params[0].value))] + QueryPairs(params[1..])
  }

  function ArtefactPath(endpoint: string, escape: string -> string, slug: string): string
  {
    endpoint + "/" + escape(slug) + ".json"
  }

  /** The URL `artefact` builds before the bearer-token check. */
  function ArtefactUrl(endpoint: string, escape: string -> string, slug: string, params: seq<Param>): string
  {
    WithQuery(ArtefactPath(endpoint, escape, slug), QueryPairs(params))
  }

  /** The bearer-token gate: an `edition` needs a token among the client's options. */
  predicate NeedsToken(params: seq<Param>, hasBearerToken: bool)
  {
    Truthy(Lookup(params, SymbolKey("edition"))) && !hasBearerToken
  }

  /** What a call to `artefact` does before any response arrives. */
  datatype Call = Issue(request: Request) | Raise(error: ApiError)

  /** What one call to `artefact` does: raise, or issue one lenient request. */
  function ArtefactCall(endpoint: string, escape: string -> string, hasBearerToken: bool,
                        slug: string, params: seq<Param>): Call
  {
    var url := ArtefactUrl(endpoint, escape, slug, params);
    if NeedsToken(params, hasBearerToken) then Raise(NoBearerToken)
    else Issue(Request(url, Lenient, Single))
  }

  /**
   * The call raises exactly when some `edition` entry is set to a truthy
   * value and the client has no bearer token; otherwise it issues the
   * lenient request for the artefact URL.
   */
  lemma ArtefactGate(endpoint: string, escape: string -> string, hasBearerToken: bool,
                     slug: string, params: seq<Param>)
    ensures var o := ArtefactCall(endpoint, escape, hasBearerToken, slug, params);
      (o.Raise? <==> (!hasBearerToken && exists k :: 0 <= k < |params| && params[k].key == SymbolKey("edition") &&
                                            Truthy(params[k].value) &&
                                            forall m :: 0 <= m < k ==> params[m].key != SymbolKey("edition"))) &&
      (o.Raise? ==> o == Raise(NoBearerToken)) &&
      (o.Issue? ==> o.request == Request(ArtefactUrl(endpoint, escape, slug, params), Lenient, Single))
  {
    FirstEntry(params, SymbolKey("edition"));
  }

  /** `Lookup` finds the first entry under `key`. */
  lemma {:induction false} FirstEntry(params: seq<Param>, key: Key)
    ensures Truthy(Lookup(params, key)) <==>
      exists k :: 0 <= k < |params| && params[k].key == key && Truthy(params[k].value) &&
                  forall m :: 0 <= m < k ==> params[m].key != key
    decreases |params|
  {
    if |params| > 0 && params[0].key != key {
      FirstEntry(params[1..], key);
      if Truthy(Lookup(params, key)) {
        var k :| 0 <= k < |params[1..]| && params[1..][k].key == key && Truthy(params[1..][k].value) &&
                 forall m :: 0 <= m < k ==> params[1..][m].key != key;
        assert forall m :: 0 <= m < k + 1 ==> params[m].key != key by {
          forall m | 0 <= m < k + 1 ensures params[m].key != key {
            if m > 0 { assert params[m].key == params[1..][m - 1].key; }
          }
        }
        assert params[k + 1] == params[1..][k];
      }
    }
  }

  /**
   * A server reads the escaped slug's path and the parameters in the order
   * given; keys and values are not escaped, so this holds when no key holds
   * `&` or `=` and no value renders with `&`. A `?` appears exactly when
   * there are parameters.
   */
  lemma ArtefactReads(endpoint: string, escape: string -> string, slug: string, params: seq<Param>)
    requires '?' !in endpoint && FormEncoded(escape)
    requires forall k :: 0 <= k < |params| ==> Readable(Pair(params[k].key.name, ValueToS(params[k].value)))
    ensures var url := ArtefactUrl(endpoint, escape, slug, params);
      Parse(url) == Target(endpoint + "/" + escape(slug) + ".json", QueryPairs(params)) &&
      ('?' in url <==> |params| > 0)
  {
    assert Plain(escape(slug));
    var path := ArtefactPath(endpoint, escape, slug);
    assert '?' !in path;
    ParseWithQuery(path, QueryPairs(params));
  }
}
