// The single-request endpoint methods of `GdsApi::ContentApi`
// (lib/gds_api/content_api.rb:18-82). Each builds one URL by string
// interpolation and hands it to one of the retrieval calls; here each is a
// function from its arguments to the request it issues, and a lemma per
// endpoint says what a server reads from that request.
module Endpoints {
  import opened Text
  import opened Urls

  /** `get_json!`/`get_list!` raise on failure; `get_json`/`get_list` return nil. */
  datatype Mode = Strict | Lenient

  /** The wrapper the response is built into: `Response` or `ListResponse`. */
  datatype Shape = Single | Listed

  /** A request descriptor: the URL and how its response is retrieved. */
  datatype Request = Request(url: string, mode: Mode, shape: Shape)

  function Sections(endpoint: string): Request
  {
    Request(endpoint + "/tags.json?type=section", Strict, Listed)
  }

  function RootSections(endpoint: string): Request
  {
    Request(endpoint + "/tags.json?type=section&root_sections=true", Strict, Listed)
  }

  function SubSections(endpoint: string, escape: string -> string, parentTag: string): Request
  {
    Request(endpoint + "/tags.json?type=section&parent_id=" + escape(parentTag), Strict, Listed)
  }

  function Tag(endpoint: string, escape: string -> string, tag: string): Request
  {
    Request(endpoint + "/tags/" + escape(tag) + ".json", Lenient, Single)
  }

  function WithTag(endpoint: string, escape: string -> string, tag: string): Request
  {
    Request(endpoint + "/with_tag.json?tag=" + escape(tag) + "&include_children=1", Strict, Listed)
  }

  function CuratedList(endpoint: string, escape: string -> string, tag: string): Request
  {
    Request(endpoint + "/with_tag.json?tag=" + escape(tag) + "&sort=curated", Lenient, Listed)
  }

  /** `sort_by` is interpolated as it is, without escaping. */
  function SortedBy(endpoint: string, escape: string -> string, tag: string, sortBy: string): Request
  {
    Request(endpoint + "/with_tag.json?tag=" + escape(tag) + "&sort=" + sortBy, Strict, Listed)
  }

  function Related(endpoint: string, escape: string -> string, kind: string, item: string): Request
  {
    Request(endpoint + "/related.json?" + escape(kind) + "=" + escape(item), Lenient, Listed)
  }

  function Artefacts(endpoint: string): Request
  {
    Request(endpoint + "/artefacts.json", Strict, Listed)
  }

  function LocalAuthority(endpoint: string, escape: string -> string, snacCode: string): Request
  {
    Request(endpoint + "/local_authorities/" + escape(snacCode) + ".json", Lenient, Single)
  }

  function LocalAuthoritiesByName(endpoint: string, escape: string -> string, name: string): Request
  {
    Request(endpoint + "/local_authorities.json?name=" + escape(name), Strict, Single)
  }

  function LocalAuthoritiesBySnacCode(endpoint: string, escape: string -> string, snacCode: string): Request
  {
    Request(endpoint + "/local_authorities.json?snac_code=" + escape(snacCode), Strict, Single)
  }

  // ---------------------------------------------------------------------
  // What a server reads from each request. Each `…Spelled` helper writes a
  // builder's URL as path, `?` and its pairs; the `…Reads` lemma beside it
  // says how a server reads that URL.

  lemma SectionsSpelled(endpoint: string)
    ensures Sections(endpoint).url == endpoint + "/tags.json" + ("?" + "type" + "=" + "section")
  {}

  lemma SectionsReads(endpoint: string)
    requires '?' !in endpoint
    ensures var r := Sections(endpoint);
      Parse(r.url) == Target(endpoint + "/tags.json", [Pair("type", "section")]) &&
      r.mode == Strict && r.shape == Listed
  {
    SectionsSpelled(endpoint);
    ReadsOne(endpoint + "/tags.json", "type", "section");
  }

  lemma RootSectionsSpelled(endpoint: string)
    ensures RootSections(endpoint).url ==
      endpoint + "/tags.json" + ("?" + "type" + "=" + "section" + "&" + "root_sections" + "=" + "true")
  {}

  lemma RootSectionsReads(endpoint: string)
    requires '?' !in endpoint
    ensures var r := RootSections(endpoint);
      Parse(r.url) == Target(endpoint + "/tags.json", [Pair("type", "section"), Pair("root_sections", "true")]) &&
      r.mode == Strict && r.shape == Listed
  {
    RootSectionsSpelled(endpoint);
    ReadsTwo(endpoint + "/tags.json", "type", "section", "root_sections", "true");
  }

  lemma SubSectionsSpelled(endpoint: string, escape: string -> string, parentTag: string)
    ensures SubSections(endpoint, escape, parentTag).url ==
      endpoint + "/tags.json" + ("?" + "type" + "=" + "section" + "&" + "parent_id" + "=" + escape(parentTag))
  {}

  lemma SubSectionsReads(endpoint: string, escape: string -> string, parentTag: string)
    requires '?' !in endpoint && FormEncoded(escape)
    ensures var r := SubSections(endpoint, escape, parentTag);
      Parse(r.url) == Target(endpoint + "/tags.json", [Pair("type", "section"), Pair("parent_id", escape(parentTag))]) &&
      r.mode == Strict && r.shape == Listed
  {
    assert Plain(escape(parentTag));
    SubSectionsSpelled(endpoint, escape, parentTag);
    ReadsTwo(endpoint + "/tags.json", "type", "section", "parent_id", escape(parentTag));
  }

  lemma TagReads(endpoint: string, escape: string -> string, tag: string)
    requires '?' !in endpoint && FormEncoded(escape)
    ensures var r := Tag(endpoint, escape, tag);
      Parse(r.url) == Target(endpoint + "/tags/" + escape(tag) + ".json", []) &&
      r.mode == Lenient && r.shape == Single
  {
    assert Plain(escape(tag));
    ParseWithQuery(endpoint + "/tags/" + escape(tag) + ".json", []);
  }

  lemma WithTagSpelled(endpoint: string, escape: string -> string, tag: string)
    ensures WithTag(endpoint, escape, tag).url ==
      endpoint + "/with_tag.json" + ("?" + "tag" + "=" + escape(tag) + "&" + "include_children" + "=" + "1")
  {}

  lemma WithTagReads(endpoint: string, escape: string -> string, tag: string)
    requires '?' !in endpoint && FormEncoded(escape)
    ensures var r := WithTag(endpoint, escape, tag);
      Parse(r.url) == Target(endpoint + "/with_tag.json", [Pair("tag", escape(tag)), Pair("include_children", "1")]) &&
      r.mode == Strict && r.shape == Listed
  {
    assert Plain(escape(tag));
    WithTagSpelled(endpoint, escape, tag);
    ReadsTwo(endpoint + "/with_tag.json", "tag", escape(tag), "include_children", "1");
  }

  lemma CuratedListSpelled(endpoint: string, escape: string -> string, tag: string)
    ensures CuratedList(endpoint, escape, tag).url ==
      endpoint + "/with_tag.json" + ("?" + "tag" + "=" + escape(tag) + "&" + "sort" + "=" + "curated")
  {}

  lemma CuratedListReads(endpoint: string, escape: string -> string, tag: string)
    requires '?' !in endpoint && FormEncoded(escape)
    ensures var r := CuratedList(endpoint, escape, tag);
      Parse(r.url) == Target(endpoint + "/with_tag.json", [Pair("tag", escape(tag)), Pair("sort", "curated")]) &&
      r.mode == Lenient && r.shape == Listed
  {
    assert Plain(escape(tag));
    CuratedListSpelled(endpoint, escape, tag);
    ReadsTwo(endpoint + "/with_tag.json", "tag", escape(tag), "sort", "curated");
  }

  lemma SortedBySpelled(endpoint: string, escape: string -> string, tag: string, sortBy: string)
    ensures SortedBy(endpoint, escape, tag, sortBy).url ==
      endpoint + "/with_tag.json" + ("?" + "tag" + "=" + escape(tag) + "&" + "sort" + "=" + sortBy)
  {}

  /** The sort key is not escaped, so it is read back only when it holds no `&`. */
  lemma SortedByReads(endpoint: string, escape: string -> string, tag: string, sortBy: string)
    requires '?' !in endpoint && FormEncoded(escape) && '&' !in sortBy
    ensures var r := SortedBy(endpoint, escape, tag, sortBy);
      Parse(r.url) == Target(endpoint + "/with_tag.json", [Pair("tag", escape(tag)), Pair("sort", sortBy)]) &&
      r.mode == Strict && r.shape == Listed
  {
    assert Plain(escape(tag));
    SortedBySpelled(endpoint, escape, tag, sortBy);
    ReadsTwo(endpoint + "/with_tag.json", "tag", escape(tag), "sort", sortBy);
  }

  lemma RelatedSpelled(endpoint: string, escape: string -> string, kind: string, item: string)
    ensures Related(endpoint, escape, kind, item).url ==
      endpoint + "/related.json" + ("?" + escape(kind) + "=" + escape(item))
  {}

  lemma RelatedReads(endpoint: string, escape: string -> string, kind: string, item: string)
    requires '?' !in endpoint && FormEncoded(escape)
    ensures var r := Related(endpoint, escape, kind, item);
      Parse(r.url) == Target(endpoint + "/related.json", [Pair(escape(kind), escape(item))]) &&
      r.mode == Lenient && r.shape == Listed
  {
    assert Plain(escape(kind)) && Plain(escape(item));
    RelatedSpelled(endpoint, escape, kind, item);
    ReadsOne(endpoint + "/related.json", escape(kind), escape(item));
  }

  lemma ArtefactsReads(endpoint: string)
    requires '?' !in endpoint
    ensures var r := Artefacts(endpoint);
      Parse(r.url) == Target(endpoint + "/artefacts.json", []) &&
      r.mode == Strict && r.shape == Listed
  {
    ParseWithQuery(endpoint + "/artefacts.json", []);
  }

  lemma LocalAuthorityReads(endpoint: string, escape: string -> string, snacCode: string)
    requires '?' !in endpoint && FormEncoded(escape)
    ensures var r := LocalAuthority(endpoint, escape, snacCode);
      Parse(r.url) == Target(endpoint + "/local_authorities/" + escape(snacCode) + ".json", []) &&
      r.mode == Lenient && r.shape == Single
  {
    assert Plain(escape(snacCode));
    ParseWithQuery(endpoint + "/local_authorities/" + escape(snacCode) + ".json", []);
  }

  lemma LocalAuthoritiesByNameSpelled(endpoint: string, escape: string -> string, name: string)
    ensures LocalAuthoritiesByName(endpoint, escape, name).url ==
      endpoint + "/local_authorities.json" + ("?" + "name" + "=" + escape(name))
  {}

  lemma LocalAuthoritiesByNameReads(endpoint: string, escape: string -> string, name: string)
    requires '?' !in endpoint && FormEncoded(escape)
    ensures var r := LocalAuthoritiesByName(endpoint, escape, name);
      Parse(r.url) == Target(endpoint + "/local_authorities.json", [Pair("name", escape(name))]) &&
      r.mode == Strict && r.shape == Single
  {
    assert Plain(escape(name));
    LocalAuthoritiesByNameSpelled(endpoint, escape, name);
    ReadsOne(endpoint + "/local_authorities.json", "name", escape(name));
  }

  lemma LocalAuthoritiesBySnacCodeSpelled(endpoint: string, escape: string -> string, snacCode: string)
    ensures LocalAuthoritiesBySnacCode(endpoint, escape, snacCode).url ==
      endpoint + "/local_authorities.json" + ("?" + "snac_code" + "=" + escape(snacCode))
  {}

  lemma LocalAuthoritiesBySnacCodeReads(endpoint: string, escape: string -> string, snacCode: string)
    requires '?' !in endpoint && FormEncoded(escape)
    ensures var r := LocalAuthoritiesBySnacCode(endpoint, escape, snacCode);
      Parse(r.url) == Target(endpoint + "/local_authorities.json", [Pair("snac_code", escape(snacCode))]) &&
      r.mode == Strict && r.shape == Single
  {
    assert Plain(escape(snacCode));
    LocalAuthoritiesBySnacCodeSpelled(endpoint, escape, snacCode);
    ReadsOne(endpoint + "/local_authorities.json", "snac_code", escape(snacCode));
  }
}
