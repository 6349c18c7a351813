// The client object `GdsApi::ContentApi` (lib/gds_api/content_api.rb):
// its retrieval calls, the batch coalescer `business_support_schemes` with
// `get_batch`, and `artefact`. The transport and `CGI.escape` are the
// client's parameters; `requested` records every URL it has asked the
// transport for, in order.
module Client {
  import opened Text
  import opened Urls
  import opened Endpoints
  import opened Batching
  import opened Responses
  import opened Artefact

  /**
   * `GdsApi::Response` as far as the coalescer uses it: the decoded body,
   * whose `total` and `results` `get_batch` updates in place.
   */
  class Response<T> {
    var total: int
    var results: seq<T>

    constructor(body: Payload<T>)
      ensures total == body.total && results == body.results
    {
      total := body.total;
      results := body.results;
    }

    function Body(): Payload<T>
      reads this
    {
      Payload(total, results)
    }
  }

  /** What a retrieval call hands back: a response, `nil`, or a raised error. */
  datatype Fetched<T> = Got(response: Response<T>) | Absent | Raised(error: ApiError)

  /**
   * Where the batch fold ends: with the open batch's URL and the response
   * merged so far (nil before any batch was fetched), or with the error a
   * batch raised.
   */
  datatype Folded<T> = Open(last: string, response: Response?<T>) | Stopped(error: ApiError)

  /** `identifiers.map { |i| CGI.escape(i) }` */
  function EscapeAll(escape: string -> string, identifiers: seq<string>): (r: seq<string>)
    ensures |r| == |identifiers|
    ensures forall k :: 0 <= k < |identifiers| ==> r[k] == escape(identifiers[k])
  {
    if |identifiers| == 0 then [] else [escape(identifiers[0])] + EscapeAll(escape, identifiers[1..])
  }

  /** `url_template` of `business_support_schemes`. */
  function SchemeTemplate(endpoint: string): string
  {
    endpoint + "/business_support_schemes.json?identifiers="
  }

  /** The URLs `business_support_schemes` fetches, in order, when none fails. */
  function SchemeUrls(endpoint: string, escape: string -> string, identifiers: seq<string>): seq<string>
  {
    var template := SchemeTemplate(endpoint);
    BatchUrls(template, Batches(template, EscapeAll(escape, identifiers)))
  }

  /**
   * Reading the `identifiers` values of all scheme URLs in order, split on
   * `,`, gives the identifiers escaped one by one: the coalescer reorders,
   * drops and repeats none of them.
   */
  lemma SchemeUrlsRecoverIds(endpoint: string, escape: string -> string, identifiers: seq<string>)
    requires FormEncoded(escape) && |identifiers| > 0
    ensures DecodeAll(SchemeTemplate(endpoint), SchemeUrls(endpoint, escape, identifiers)) == EscapeAll(escape, identifiers)
  {
    var ids := EscapeAll(escape, identifiers);
    forall i | 0 <= i < |ids| ensures ',' !in ids[i] {
      assert Plain(escape(identifiers[i]));
    }
    BatchesRecoverIds(SchemeTemplate(endpoint), ids);
  }

  /**
   * When every batch succeeds, the requested URLs carry the escaped
   * identifiers, in order, each once.
   */
  lemma SchemeRunRecoversIds<T>(transport: string -> Reply<T>, endpoint: string, escape: string -> string,
                                identifiers: seq<string>)
    requires FormEncoded(escape) && |identifiers| > 0
    requires FetchAll(transport, SchemeUrls(endpoint, escape, identifiers)).outcome.Done?
    ensures DecodeAll(SchemeTemplate(endpoint), FetchAll(transport, SchemeUrls(endpoint, escape, identifiers)).issued) ==
      EscapeAll(escape, identifiers)
  {
    FetchAllDone(transport, SchemeUrls(endpoint, escape, identifiers));
    SchemeUrlsRecoverIds(endpoint, escape, identifiers);
  }

  class ContentApi<T> {
    /** The base URL every request starts with. */
    const endpoint: string
    /** Whether the options hash holds a `:bearer_token` key. */
    const hasBearerToken: bool
    /** `CGI.escape` */
    const escape: string -> string
    /** The answer the API gives to a GET of each URL. */
    const transport: string -> Reply<T>
    /** The URLs requested so far, oldest first. */
    var requested: seq<string>

    constructor(endpoint: string, hasBearerToken: bool, escape: string -> string, transport: string -> Reply<T>)
      requires FormEncoded(escape)
      ensures this.endpoint == endpoint && this.hasBearerToken == hasBearerToken
      ensures this.escape == escape && this.transport == transport
      ensures requested == []
    {
      this.endpoint := endpoint;
      this.hasBearerToken := hasBearerToken;
      this.escape := escape;
      this.transport := transport;
      requested := [];
    }

    /** `get_json!`: request the URL; a failure raises. */
    method GetJsonStrict(url: string) returns (r: Fetched<T>)
      modifies this
      ensures requested == old(requested) + [url]
      ensures transport(url).Success? ==> r.Got? && fresh(r.response) && r.response.Body() == transport(url).body
      ensures transport(url).Failed? ==> r == Raised(transport(url).error)
    {
      requested := requested + [url];
      match transport(url) {
        case Success(body) =>
          var response := new Response(body);
          r := Got(response);
        case Failed(e) =>
          r := Raised(e);
      }
    }

    /** `get_json`: request the URL; a failure gives `nil`. */
    method GetJson(url: string) returns (r: Fetched<T>)
      modifies this
      ensures requested == old(requested) + [url]
      ensures transport(url).Success? ==> r.Got? && fresh(r.response) && r.response.Body() == transport(url).body
      ensures transport(url).Failed? ==> r == Absent
    {
      requested := requested + [url];
      match transport(url) {
        case Success(body) =>
          var response := new Response(body);
          r := Got(response);
        case Failed(_) =>
          r := Absent;
      }
    }

    /**
     * Issues a request built by one of the endpoint functions, strict or
     * lenient as the request says; every single-request endpoint method is
     * this applied to its builder's request.
     */
    method Fetch(req: Request) returns (r: Fetched<T>)
      modifies this
      ensures requested == old(requested) + [req.url]
      ensures transport(req.url).Success? ==>
        r.Got? && fresh(r.response) && r.response.Body() == transport(req.url).body
      ensures transport(req.url).Failed? ==>
        r == if req.mode == Strict then Raised(transport(req.url).error) else Absent
    {
      if req.mode == Strict {
        r := GetJsonStrict(req.url);
      } else {
        r := GetJson(req.url);
      }
    }

    /**
     * `get_batch`: fetch one batch strictly; with no response yet, the
     * batch's own response is the result; otherwise its `total` and
     * `results` are added to the existing response, which is returned.
     */
    method GetBatch(url: string, existing: Response?<T>) returns (r: Fetched<T>)
      modifies this, existing
      ensures requested == old(requested) + [url]
      ensures transport(url).Failed? ==> r == Raised(transport(url).error)
      ensures transport(url).Failed? && existing != null ==> existing.Body() == old(existing.Body())
      ensures transport(url).Success? && existing == null ==>
        r.Got? && fresh(r.response) && r.response.Body() == transport(url).body
      ensures transport(url).Success? && existing != null ==>
        r == Got(existing) && existing.Body() == Add(old(existing.Body()), transport(url).body)
    {
      var batch := GetJsonStrict(url);
      if !batch.Got? {
        return batch;
      }
      if existing != null {
        existing.total := existing.total + batch.response.total;
        existing.results := existing.results + batch.response.results;
        r := Got(existing);
      } else {
        r := batch;
      }
    }

    /**
     * The `identifiers.inject(start_url)` block of `business_support_schemes`:
     * `url` is the open batch's URL; when `[url, id].join(',')` would reach
     * `UrlLimit`, the open batch is fetched with `get_batch` into `response`
     * and `id` opens the next batch. Either a batch raised, and the requests
     * are those of a strict run over the fold's URLs up to the failure; or
     * every URL but the last (still open) was fetched, in order, and merged
     * into the response, which is nil when there was none.
     */
    method Inject(template: string, start: string, rest: seq<string>)
      returns (f: Folded<T>, ghost done: seq<string>, ghost bodies: seq<Payload<T>>)
      modifies this
      ensures var all := InjectUrls(template, start, rest);
        f.Stopped? ==>
          requested == old(requested) + FetchAll(transport, all).issued &&
          FetchAll(transport, all).outcome == Aborted(f.error)
      ensures f.Open? ==>
        InjectUrls(template, start, rest) == done + [f.last] &&
        requested == old(requested) + done && AllSucceed(transport, done, bodies) &&
        (f.response == null <==> |done| == 0) &&
        (f.response != null ==> fresh(f.response) && f.response.Body() == Merge(bodies))
    {
      var url := start;
      var response: Response?<T> := null;
      ghost var all := InjectUrls(template, start, rest);
      done, bodies := [], [];
      assert rest[0..] == rest;
      var i := 0;
      while i < |rest|
        invariant 0 <= i <= |rest|
        invariant done + InjectUrls(template, url, rest[i..]) == all
        invariant requested == old(requested) + done
        invariant AllSucceed(transport, done, bodies)
        invariant (response == null) == (|done| == 0)
        invariant response != null ==> fresh(response) && response.Body() == Merge(bodies)
      {
        var id := rest[i];
        var candidate := url + "," + id;
        assert rest[i..] == [id] + rest[i + 1..];
        ghost var more := rest[i + 1..];
        if |candidate| >= UrlLimit {
          InjectClose(template, done, url, id, more, all);
          AppendAssoc(old(requested), done, [url]);
          var got := GetBatch(url, response);
          if !got.Got? {
            RunFails(transport, done, bodies, url, InjectUrls(template, template + id, more));
            return Stopped(got.error), done, bodies;
          }
          ghost var body := transport(url).body;
          if response != null {
            MergeSnoc(bodies, body);
          }
          AllSucceedSnoc(transport, done, bodies, url);
          response := got.response;
          done, bodies := done + [url], bodies + [body];
          url := template + id;
        } else {
          InjectExtend(template, done, url, id, more, all);
          url := candidate;
        }
        i := i + 1;
      }
      f := Open(url, response);
    }

    /**
     * `business_support_schemes`: escape the identifiers, pack them into
     * batches whose URLs stay under `UrlLimit`, fetch the batches in order
     * and merge them into the first batch's response. The requests made are
     * exactly those of a strict run over the batch URLs; a failing batch
     * raises its error and nothing after it is requested; otherwise the
     * result holds the merge of every batch's body.
     */
    method BusinessSupportSchemes(identifiers: seq<string>) returns (r: Fetched<T>)
      modifies this
      ensures var trace := FetchAll(transport, SchemeUrls(endpoint, escape, identifiers));
        requested == old(requested) + trace.issued &&
        (trace.outcome.Aborted? ==> r == Raised(trace.outcome.error)) &&
        (trace.outcome.Done? ==> r.Got? && fresh(r.response) && r.response.Body() == Merge(trace.outcome.bodies))
      ensures var trace := FetchAll(transport, SchemeUrls(endpoint, escape, identifiers));
        trace.outcome.Done? && |trace.outcome.bodies| == 1 ==> r.Got? && r.response.Body() == trace.outcome.bodies[0]
    {
      var ids := EscapeAll(escape, identifiers);
      var template := SchemeTemplate(endpoint);
      // `identifiers.shift` opens the first batch; it is nil for no identifiers
      var start := template + (if |ids| > 0 then ids[0] else "");
      var rest := if |ids| > 0 then ids[1..] else [];
      InjectIsBatches(template, ids);
      var f, done, bodies := Inject(template, start, rest);
      if f.Stopped? {
        return Raised(f.error);
      }
      var url := f.last;
      AppendAssoc(old(requested), done, [url]);
      RunEnds(transport, done, bodies, url);
      if transport(url).Success? && f.response != null {
        MergeSnoc(bodies, transport(url).body);
      }
      r := GetBatch(url, f.response);
    }

    /**
     * `artefact`: build the slug's URL, with `?` and the parameters when
     * there are any; raise `NoBearerToken` without requesting anything when
     * an `edition` is given and the client has no bearer token; otherwise
     * request the URL leniently.
     */
    method Artefact(slug: string, params: seq<Param>) returns (r: Fetched<T>)
      modifies this
      ensures match ArtefactCall(endpoint, escape, hasBearerToken, slug, params)
        case Raise(e) => r == Raised(e) && requested == old(requested)
        case Issue(req) =>
          requested == old(requested) + [req.url] &&
          (transport(req.url).Success? ==> r.Got? && fresh(r.response) && r.response.Body() == transport(req.url).body) &&
          (transport(req.url).Failed? ==> r == Absent)
    {
      var url := endpoint + "/" + escape(slug) + ".json";
      var query := RenderAll(QueryPairs(params));
      if |query| > 0 {
        url := url + "?" + Join(query, '&');
      }
      if Truthy(Lookup(params, SymbolKey("edition"))) && !hasBearerToken {
        return Raised(NoBearerToken);
      }
      r := GetJson(url);
    }
  }
}
