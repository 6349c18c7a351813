# GdsApi::ContentApi in Dafny

A model of the Ruby client `GdsApi::ContentApi` (lib/gds_api/content_api.rb)
and proofs about it:

- the identifier batch coalescer `business_support_schemes` with its helper
  `get_batch`: escape every identifier, pack the identifiers greedily into
  comma-joined `identifiers=` values behind a fixed URL prefix, close a
  batch when the candidate URL would be 2000 characters or longer, fetch the
  batches in order in strict mode and merge their `total` and `results`
  into the first batch's response, in place;
- `artefact`: the escaped slug's URL, the `k=v` query in parameter order,
  and the bearer-token gate on `edition`;
- `licences_for_ids`: the ids' string forms sorted and comma-joined;
- the single-request endpoint methods, which only build a URL and hand it to
  one of the retrieval calls.

Layout, one module per file:

- `text.dfy` (`Text`): `Array#join`, splitting, flattening and
  `Integer#to_s`.
- `urls.dfy` (`Urls`): the escape assumption and `Parse`, the way a server
  reads a URL. `Parse` is the reference the request builders are checked
  against.
- `endpoints.dfy` (`Endpoints`): the single-path builders as functions
  from arguments to a request descriptor (URL, strict or lenient, `Response`
  or `ListResponse`), each with a lemma stating what a server reads from it.
- `licences.dfy` (`Licences`): `licences_for_ids`.
- `artefact.dfy` (`Artefact`): the URL and the gate of `artefact`.
- `batching.dfy` (`Batching`): the packing fold.
  - `InjectUrls` is the fold exactly as the Ruby block writes it, over URL
    strings.
  - `Pack` and `Batches` are the same fold over lists of identifiers.
  - Lemmas connect the two and state the bounds, greediness and recovery
    of the identifiers.
- `responses.dfy` (`Responses`): response bodies, errors, a strict run
  over several URLs (`FetchAll`) and the merge (`Merge`), with their
  reference definitions `TotalSum` and `AllResults`.
- `client.dfy` (`Client`): the client object.
  - `ContentApi` holds the endpoint, the bearer-token flag, `CGI.escape`,
    the transport and the log `requested` of URLs fetched.
  - `Response` is the response object `get_batch` updates in place.
  - `BusinessSupportSchemes`, `Inject` (the `inject` block), `GetBatch`,
    `GetJson`, `GetJsonStrict`, `Fetch` and `Artefact` are imperative
    methods, proved against the functions above.

Modelling decisions:

- `CGI.escape` is a parameter of the client, `escape`. The one thing
  assumed about it is `FormEncoded`: its output holds none of `,`, `&`, `=`
  or `?`. The `application/x-www-form-urlencoded` serialiser of section
  5.2 of the WHATWG URL Standard percent-encodes all four. The constructor
  requires this.
- The HTTP transport and JSON decoding are the parameter `transport`,
  which maps each URL to a body (`total` and `results`) or an error.
- `get_json` (lenient) is modelled as returning `nil` on any failure.
  `get_json!` (strict) raises the failure. The parent class that defines
  them is not modelled.
- The URL limit is the constant `UrlLimit`, the 2000 of
  lib/gds_api/content_api.rb:92.
- With no identifiers at all, `identifiers.shift` is `nil`, and the code
  sends one request whose `identifiers=` value is empty. The model keeps
  this as one empty batch (`NoIdentifiersOneRequest`).
- Keys of the `params` hash of `artefact` are symbols or strings. Both
  render the same way in the query, but `params[:edition]` finds only the
  symbol key, so a string-keyed `"edition"` does not trigger the bearer-token
  check.

## Model

| member | source | states |
|---|---|---|
| Endpoints.SectionsReads | lib/gds_api/content_api.rb:18-20 | `sections` requests `/tags.json` with the single pair `type=section`, strictly, as a list |
| Endpoints.RootSectionsReads | lib/gds_api/content_api.rb:22-24 | `root_sections` requests `/tags.json` with `type=section` then `root_sections=true`, strictly, as a list |
| Endpoints.SubSectionsReads | lib/gds_api/content_api.rb:26-28 | `sub_sections` requests `/tags.json` with `type=section` then `parent_id` = the escaped parent tag, strictly, as a list |
| Endpoints.TagReads | lib/gds_api/content_api.rb:30-32 | `tag` requests `/tags/<escaped tag>.json` with no query, leniently, as one response |
| Endpoints.WithTagReads | lib/gds_api/content_api.rb:34-36 | `with_tag` requests `/with_tag.json` with `tag` = the escaped tag then `include_children=1`, strictly, as a list |
| Endpoints.CuratedListReads | lib/gds_api/content_api.rb:38-40 | `curated_list` requests `/with_tag.json` with the escaped tag then `sort=curated`, leniently, as a list |
| Endpoints.SortedByReads | lib/gds_api/content_api.rb:42-44 | `sorted_by` requests `/with_tag.json` with the escaped tag then `sort` = the unescaped sort key (read back when the key holds no `&`), strictly, as a list |
| Endpoints.RelatedReads | lib/gds_api/content_api.rb:46-48 | `related` requests `/related.json` with the one pair escaped type = escaped item, leniently, as a list |
| Endpoints.ArtefactsReads | lib/gds_api/content_api.rb:63-65 | `artefacts` requests `/artefacts.json` with no query, strictly, as a list |
| Endpoints.LocalAuthorityReads | lib/gds_api/content_api.rb:67-69 | `local_authority` requests `/local_authorities/<escaped code>.json` with no query, leniently |
| Endpoints.LocalAuthoritiesByNameReads | lib/gds_api/content_api.rb:71-73 | `local_authorities_by_name` requests `/local_authorities.json` with `name` = the escaped name, strictly |
| Endpoints.LocalAuthoritiesBySnacCodeReads | lib/gds_api/content_api.rb:75-77 | `local_authorities_by_snac_code` requests `/local_authorities.json` with `snac_code` = the escaped code, strictly |
| Client.ContentApi.Fetch | lib/gds_api/content_api.rb:18-77 | issuing a builder's request logs exactly its URL; success gives a new response holding the body; failure raises the error when strict and gives `nil` when lenient |
| Client.ContentApi.GetJson | lib/gds_api/content_api.rb:115-120 | one request logged; the body in a new response on success, `nil` on any failure |
| Client.ContentApi.GetJsonStrict | lib/gds_api/content_api.rb:122-127 | one request logged; the body in a new response on success, the error raised on failure |
| Client.ContentApi.constructor | lib/gds_api/content_api.rb:8-16 | a client with the given endpoint, options, escape and transport, and nothing requested yet |
| Artefact.Lookup | lib/gds_api/content_api.rb:57 | `params[key]` is the value of the first entry whose key is that very key (a symbol key is not matched by a string key of the same name), and `nil` when no entry has it |
| Artefact.QueryPairs | lib/gds_api/content_api.rb:52 | one `k=v` pair per parameter, in parameter order, with the value interpolated as Ruby does |
| Artefact.ArtefactGate | lib/gds_api/content_api.rb:50-61 | the call raises `NoBearerToken` if and only if the first entry under the symbol `:edition` is truthy and there is no bearer token; otherwise it issues exactly one lenient request for the artefact URL |
| Artefact.ArtefactReads | lib/gds_api/content_api.rb:51-55 | a server reads the escaped slug's `.json` path and the parameters as pairs in the order given; the URL holds `?` exactly when there are parameters |
| Client.ContentApi.Artefact | lib/gds_api/content_api.rb:50-61 | behind the gate nothing is requested and `NoBearerToken` is raised; otherwise exactly the artefact URL is requested leniently |
| Licences.Sort | lib/gds_api/content_api.rb:80 | `sort` returns a sorted permutation of its input under Ruby's byte-wise string order |
| Licences.LicencesOrderInsensitive | lib/gds_api/content_api.rb:79-82 | any reordering of the ids yields the same request |
| Licences.LicencesReads | lib/gds_api/content_api.rb:79-82 | a server reads one `ids` parameter; with ids, its comma-separated items are the ids' string forms, sorted, each as often as in the input; with none, its value is empty; the request is lenient |
| Client.EscapeAll | lib/gds_api/content_api.rb:85 | one escaped identifier per identifier, in order |
| Batching.InjectIsBatches | lib/gds_api/content_api.rb:89-100 | the URLs the `inject` fold hands to `get_batch`, starting from the prefix plus the shifted first identifier, are the URLs of the greedy batches, in order |
| Batching.InjectIsPack | lib/gds_api/content_api.rb:90-99 | the fold over URL strings, from an open batch's URL, gives the URLs of the batches `Pack` forms |
| Batching.PackFlatten | lib/gds_api/content_api.rb:90-99 | the batches hold the open batch and the remaining identifiers, in order, nothing dropped or repeated |
| Batching.PackFits | lib/gds_api/content_api.rb:91-97 | from an open batch that fits, every batch is non-empty and every batch of two or more has a URL under the limit |
| Batching.PackGreedy | lib/gds_api/content_api.rb:91-95 | each batch but the last was closed because the next batch's first identifier would have taken its URL to the limit |
| Batching.BatchesFlatten | lib/gds_api/content_api.rb:89-100 | the batches, concatenated, are the escaped identifiers |
| Batching.BatchesFit | lib/gds_api/content_api.rb:89-97 | with at least one identifier, every batch is non-empty and every URL with two or more identifiers is shorter than 2000 characters |
| Batching.OversizedAlone | lib/gds_api/content_api.rb:91-95 | an identifier whose own URL reaches the limit is still sent, alone in its batch |
| Batching.BatchesGreedy | lib/gds_api/content_api.rb:91-95 | packing is maximal: a batch is closed only when appending `,` and the next identifier would make its URL 2000 or longer |
| Batching.NoIdentifiersOneRequest | lib/gds_api/content_api.rb:89-90 | an empty identifier list gives exactly one URL, the prefix with an empty `identifiers=` value |
| Batching.BatchesRecoverIds | lib/gds_api/content_api.rb:85-100 | reading the batch URLs in order and splitting on `,` gives back the identifiers, when none holds `,` |
| Client.SchemeUrlsRecoverIds | lib/gds_api/content_api.rb:85-100 | the scheme URLs carry the escaped identifiers, in order, each once |
| Client.SchemeRunRecoversIds | lib/gds_api/content_api.rb:84-101 | when every batch succeeds, the URLs requested carry the escaped identifiers, in order, each once |
| Responses.FetchAllDone | lib/gds_api/content_api.rb:90-100 | a strict run completes if and only if every URL succeeds; it then requested every URL in order and holds each URL's body in that URL's place |
| Responses.FetchAllAborted | lib/gds_api/content_api.rb:90-100 | a failed strict run requested the URLs up to and including the first failing one, all earlier ones succeeded, and it ends with that URL's error |
| Responses.FetchAllSnoc | lib/gds_api/content_api.rb:90-100 | after a completed run, one more strict fetch adds its URL and either its body or its error |
| Responses.FetchAllStops | lib/gds_api/content_api.rb:90-100 | nothing after a failure is requested |
| Responses.RunEnds | lib/gds_api/content_api.rb:100 | after URLs that all succeeded, the last batch ends the run with its body or its error |
| Responses.RunFails | lib/gds_api/content_api.rb:94 | after URLs that all succeeded, a failing batch ends the run whatever would have followed |
| Responses.MergeSums | lib/gds_api/content_api.rb:136-139 | the merged `total` is the sum of the batch totals and the merged `results` the batch results concatenated in issue order |
| Client.Response.constructor | lib/gds_api/content_api.rb:122-127 | a new response object holds the decoded body's `total` and `results` |
| Client.ContentApi.GetBatch | lib/gds_api/content_api.rb:134-143 | one strict request; a failure raises and leaves any existing response as it was; with no existing response, the batch's new response is returned; otherwise the existing object gets the batch's total added and its results appended, and is returned |
| Client.ContentApi.Inject | lib/gds_api/content_api.rb:90-99 | the fold either raised, after exactly the requests of a strict run up to the failing batch, or fetched every batch URL but the open last one, in order, with the response (`nil` before the first batch) holding their merge |
| Client.ContentApi.BusinessSupportSchemes | lib/gds_api/content_api.rb:84-101 | the requests are exactly those of a strict run over the greedy batch URLs; a failing batch raises its error and nothing after it is requested; otherwise a new response holds the merge of all batch bodies, and with one batch it is that batch's body unchanged |

## Left out

- The parent class `GdsApi::Base` is not part of this model: HTTP, JSON
  decoding and the real `get_json`/`get_json!` are not modelled. They are
  the `transport` parameter and the two retrieval methods. The lenient call
  is modelled as giving `nil` on any failure.
- `get_list`/`get_list!` and `ListResponse` (pagination, lazy iteration)
  are not part of this model. A list request is marked `Listed` and
  retrieved like a single response.
- The `web_url` rewriting controlled by `web_urls_relative_to` lives in
  `Response`/`ListResponse` and is not modelled. The option is only passed
  through.
- `CGI.escape` internals are not modelled. It is an arbitrary function
  whose output holds none of `,`, `&`, `=` or `?`.
- The endpoint methods that only build a URL are not class methods here.
  Each is its builder function, issued through `ContentApi.Fetch`.
- Response bodies are only their `total` and `results`. Other keys and
  malformed bodies are not modelled.
- `Lookup` models a hash as an ordered list of entries and returns the
  first entry under the key. A Ruby hash holds each key once, so the list
  may hold entries a hash cannot; for a list with distinct keys the lookup
  is the hash's.
- Artefact.ArtefactReads: holds only when parameter keys hold neither `&`
  nor `=` and values hold no `&`, because the code does not escape them.
- Licences.LicencesReads: holds only for string ids free of `,` and `&`,
  because the code does not escape them. For an empty id list it states
  only that the `ids` value is empty, since splitting it would give one
  empty item.
- Endpoints.SortedByReads: holds only for a sort key free of `&`, because
  the code does not escape it.
- Batching.BatchesRecoverIds: stated for at least one identifier, because
  with none the single URL reads back as one empty identifier.
- Client.SchemeUrlsRecoverIds: stated for at least one identifier, for the
  same reason.
- Client.SchemeRunRecoversIds: stated for at least one identifier, for the
  same reason.
- The test helpers under lib/gds_api/test_helpers/ are stub registrations
  for tests and are not modelled.
