// The batch packing of `business_support_schemes`
// (lib/gds_api/content_api.rb:84-101): escaped identifiers are packed
// greedily, in order, into comma-joined `identifiers=` values behind a fixed
// URL prefix, and a batch is closed when adding `,` and the next identifier
// would make its URL 2000 characters or longer. `Pack` is that fold, written
// over batches rather than URL strings; the client's loop is proved to
// issue exactly the URLs of these batches.
module Batching {
  import opened Text

  /** A batch is closed before its URL would reach this many characters. */
  const UrlLimit: nat := 2000

  /** The URL of one batch: the prefix, then the batch's identifiers comma-joined. */
  function BatchUrl(template: string, batch: seq<string>): string
  {
    template + Join(batch, ',')
  }

  function BatchUrls(template: string, batches: seq<seq<string>>): (r: seq<string>)
    ensures |r| == |batches|
    ensures forall k :: 0 <= k < |batches| ==> r[k] == BatchUrl(template, batches[k])
  {
    if |batches| == 0 then [] else [BatchUrl(template, batches[0])] + BatchUrls(template, batches[1..])
  }

  lemma {:induction false} BatchUrlsAppend(template: string, a: seq<seq<string>>, b: seq<seq<string>>)
    ensures BatchUrls(template, a + b) == BatchUrls(template, a) + BatchUrls(template, b)
    decreases |a|
  {
    if |a| == 0 {
      assert a + b == b;
    } else {
      assert (a + b)[1..] == a[1..] + b;
      BatchUrlsAppend(template, a[1..], b);
    }
  }

  /**
   * The `inject` fold: `current` is the open batch, `rest` the identifiers
   * not yet looked at. The open batch is closed when appending the next
   * identifier would make its URL reach `UrlLimit`; that identifier opens
   * the next batch.
   */
  function Pack(template: string, current: seq<string>, rest: seq<string>): (r: seq<seq<string>>)
    ensures |r| > 0
    decreases |rest|
  {
    if |rest| == 0 then [current]
    else if |BatchUrl(template, current + [rest[0]])| >= UrlLimit then
      [current] + Pack(template, [rest[0]], rest[1..])
    else Pack(template, current + [rest[0]], rest[1..])
  }

  /**
   * The fold exactly as the source writes it, over URL strings: `url` is the
   * URL of the open batch, `[url, id].join(',')` the candidate; the result
   * is every URL handed to `get_batch`, in order, the last one after the
   * fold.
   */
  function InjectUrls(template: string, url: string, rest: seq<string>): seq<string>
    decreases |rest|
  {
    if |rest| == 0 then [url]
    else if |url + "," + rest[0]| >= UrlLimit then [url] + InjectUrls(template, template + rest[0], rest[1..])
    else InjectUrls(template, url + "," + rest[0], rest[1..])
  }

  /**
   * The batches for a list of escaped identifiers. The first is shifted off
   * to open the first batch; with no identifiers at all, `shift` yields nil
   * and the one batch is empty.
   */
  function Batches(template: string, ids: seq<string>): seq<seq<string>>
  {
    if |ids| == 0 then [[]] else Pack(template, [ids[0]], ids[1..])
  }

  /** A batch of two or more identifiers has a URL shorter than the limit. */
  predicate Fits(template: string, batch: seq<string>)
  {
    |batch| <= 1 || |BatchUrl(template, batch)| < UrlLimit
  }

  /** Batch `b` was closed because the first identifier of `next` would not have fitted in it. */
  predicate Closed(template: string, b: seq<string>, next: seq<string>)
  {
    |next| > 0 && |BatchUrl(template, b + [next[0]])| >= UrlLimit
  }

  /** Every batch is non-empty and fits. */
  predicate AllFit(template: string, bs: seq<seq<string>>)
  {
    forall k :: 0 <= k < |bs| ==> |bs[k]| > 0 && Fits(template, bs[k])
  }

  /** Every batch but the last was closed because the next one's first identifier would not have fitted. */
  predicate Greedy(template: string, bs: seq<seq<string>>)
  {
    forall i, j :: 0 <= i < |bs| && 0 <= j < |bs| && j == i + 1 ==> Closed(template, bs[i], bs[j])
  }

  /** The identifiers a server reads back from a batch URL. */
  function Decode(template: string, url: string): seq<string>
  {
    if |template| <= |url| then Split(url[|template|..], ',') else []
  }

  function DecodeAll(template: string, urls: seq<string>): seq<string>
  {
    if |urls| == 0 then [] else Decode(template, urls[0]) + DecodeAll(template, urls[1..])
  }

  // ---------------------------------------------------------------------
  // Properties of the fold

  /** The candidate URL `[url, id].join(',')` is the URL of the open batch with `id` appended. */
  lemma CandidateUrl(template: string, current: seq<string>, id: string)
    requires |current| > 0
    ensures BatchUrl(template, current + [id]) == BatchUrl(template, current) + "," + id
  {
    JoinSnoc(current, id, ',');
  }

  /** The batches hold the open batch and the rest, in order, nothing dropped or repeated. */
  lemma {:induction false} PackFlatten(template: string, current: seq<string>, rest: seq<string>)
    ensures Flatten(Pack(template, current, rest)) == current + rest
    decreases |rest|
  {
    if |rest| == 0 {
      assert Flatten([current]) == current + Flatten([current][1..]);
    } else if |BatchUrl(template, current + [rest[0]])| >= UrlLimit {
      var tail := Pack(template, [rest[0]], rest[1..]);
      PackFlatten(template, [rest[0]], rest[1..]);
      assert ([current] + tail)[1..] == tail;
      assert rest == [rest[0]] + rest[1..];
    } else {
      PackFlatten(template, current + [rest[0]], rest[1..]);
      assert rest == [rest[0]] + rest[1..];
    }
  }

  /** The first batch starts with the first identifier of the open batch. */
  lemma {:induction false} PackHead(template: string, current: seq<string>, rest: seq<string>)
    requires |current| > 0
    ensures var r := Pack(template, current, rest); |r[0]| > 0 && r[0][0] == current[0]
    decreases |rest|
  {
    if |rest| > 0 && |BatchUrl(template, current + [rest[0]])| < UrlLimit {
      PackHead(template, current + [rest[0]], rest[1..]);
    }
  }

  /** Every batch is non-empty and fits, when the open batch does. */
  lemma {:induction false} PackFits(template: string, current: seq<string>, rest: seq<string>)
    requires |current| > 0 && Fits(template, current)
    ensures AllFit(template, Pack(template, current, rest))
    decreases |rest|
  {
    if |rest| == 0 {
    } else if |BatchUrl(template, current + [rest[0]])| >= UrlLimit {
      var tail := Pack(template, [rest[0]], rest[1..]);
      PackFits(template, [rest[0]], rest[1..]);
      var r := [current] + tail;
      forall k | 0 <= k < |r| ensures |r[k]| > 0 && Fits(template, r[k]) {
        if k > 0 { assert r[k] == tail[k - 1]; }
      }
    } else {
      PackFits(template, current + [rest[0]], rest[1..]);
    }
  }

  /** A batch is closed only when the next identifier would not have fitted in it. */
  lemma {:induction false} PackGreedy(template: string, current: seq<string>, rest: seq<string>)
    requires |current| > 0
    ensures Greedy(template, Pack(template, current, rest))
    decreases |rest|
  {
    if |rest| == 0 {
    } else if |BatchUrl(template, current + [rest[0]])| >= UrlLimit {
      var tail := Pack(template, [rest[0]], rest[1..]);
      PackGreedy(template, [rest[0]], rest[1..]);
      PackHead(template, [rest[0]], rest[1..]);
      var r := [current] + tail;
      forall i, j | 0 <= i < |r| && 0 <= j < |r| && j == i + 1 ensures Closed(template, r[i], r[j]) {
        if i > 0 {
          assert r[i] == tail[i - 1] && r[j] == tail[j - 1];
        }
      }
    } else {
      PackGreedy(template, current + [rest[0]], rest[1..]);
    }
  }

  /**
   * One step of the source's fold, when the candidate URL would reach the
   * limit: the open batch's URL joins the fetched ones and `id` opens the
   * next batch.
   */
  lemma InjectClose(template: string, fetched: seq<string>, url: string, id: string, more: seq<string>, all: seq<string>)
    requires fetched + InjectUrls(template, url, [id] + more) == all
    requires |url + "," + id| >= UrlLimit
    ensures (fetched + [url]) + InjectUrls(template, template + id, more) == all
  {
    assert ([id] + more)[0] == id && ([id] + more)[1..] == more;
    AppendAssoc(fetched, [url], InjectUrls(template, template + id, more));
  }

  /** One step of the source's fold, when the candidate URL stays under the limit. */
  lemma InjectExtend(template: string, fetched: seq<string>, url: string, id: string, more: seq<string>, all: seq<string>)
    requires fetched + InjectUrls(template, url, [id] + more) == all
    requires |url + "," + id| < UrlLimit
    ensures fetched + InjectUrls(template, url + "," + id, more) == all
  {
    assert ([id] + more)[0] == id && ([id] + more)[1..] == more;
  }

  /** The string fold fetches exactly the URLs of the batches `Pack` forms. */
  lemma {:induction false} InjectIsPack(template: string, current: seq<string>, rest: seq<string>)
    requires |current| > 0
    ensures InjectUrls(template, BatchUrl(template, current), rest) == BatchUrls(template, Pack(template, current, rest))
    decreases |rest|
  {
    var url := BatchUrl(template, current);
    if |rest| == 0 {
      assert BatchUrls(template, [current]) == [url];
    } else {
      var id, more := rest[0], rest[1..];
      CandidateUrl(template, current, id);
      if |url + "," + id| >= UrlLimit {
        assert Join([id], ',') == id;
        InjectIsPack(template, [id], more);
        BatchUrlsAppend(template, [current], Pack(template, [id], more));
        assert BatchUrls(template, [current]) == [url];
      } else {
        InjectIsPack(template, current + [id], more);
      }
    }
  }

  /**
   * The URLs the source's fold fetches for a list of escaped identifiers,
   * starting from `url_template` followed by the shifted first identifier
   * (nothing, when there is none), are the URLs of `Batches`.
   */
  lemma InjectIsBatches(template: string, ids: seq<string>)
    ensures InjectUrls(template, template + (if |ids| > 0 then ids[0] else ""), if |ids| > 0 then ids[1..] else []) ==
      BatchUrls(template, Batches(template, ids))
  {
    if |ids| > 0 {
      assert Join([ids[0]], ',') == ids[0];
      InjectIsPack(template, [ids[0]], ids[1..]);
    } else {
      NoIdentifiersOneRequest(template);
      assert template + "" == template;
    }
  }

  // ---------------------------------------------------------------------
  // Properties of the batches of a whole identifier list

  /** Reading the batches in order gives back the identifiers. */
  lemma BatchesFlatten(template: string, ids: seq<string>)
    ensures Flatten(Batches(template, ids)) == ids
  {
    if |ids| == 0 {
      var none: seq<seq<string>> := [[]];
      assert Flatten(none) == [] + Flatten(none[1..]);
    } else {
      PackFlatten(template, [ids[0]], ids[1..]);
      assert [ids[0]] + ids[1..] == ids;
    }
  }

  /**
   * With at least one identifier, every batch holds at least one, and every
   * batch of two or more has a URL strictly shorter than `UrlLimit`.
   */
  lemma BatchesFit(template: string, ids: seq<string>)
    requires |ids| > 0
    ensures AllFit(template, Batches(template, ids))
  {
    PackFits(template, [ids[0]], ids[1..]);
  }

  /** Packing is maximal: each batch was closed only because the next identifier would overflow it. */
  lemma BatchesGreedy(template: string, ids: seq<string>)
    ensures Greedy(template, Batches(template, ids))
  {
    if |ids| > 0 {
      PackGreedy(template, [ids[0]], ids[1..]);
    }
  }

  /** No identifiers: still exactly one request, with an empty `identifiers=` value. */
  lemma NoIdentifiersOneRequest(template: string)
    ensures BatchUrls(template, Batches(template, [])) == [template]
  {
    var none: seq<string> := [];
    assert Batches(template, none) == [none];
    assert Join(none, ',') == "";
    assert BatchUrl(template, none) == template;
  }

  /**
   * An identifier whose own URL reaches the limit is not rejected: it is
   * sent, in a batch of its own.
   */
  lemma OversizedAlone(template: string, ids: seq<string>, k: nat, j: nat)
    requires var bs := Batches(template, ids); k < |bs| && j < |bs[k]|
    requires |BatchUrl(template, [Batches(template, ids)[k][j]])| >= UrlLimit
    ensures Batches(template, ids)[k] == [Batches(template, ids)[k][j]]
  {
    var b := Batches(template, ids)[k];
    BatchesFit(template, ids);
    if |b| >= 2 {
      JoinLonger(b, j, ',');
      assert false;
    }
  }

  lemma {:induction false} DecodeAllAppend(template: string, a: seq<string>, b: seq<string>)
    ensures DecodeAll(template, a + b) == DecodeAll(template, a) + DecodeAll(template, b)
    decreases |a|
  {
    if |a| == 0 {
      assert a + b == b;
    } else {
      assert (a + b)[1..] == a[1..] + b;
      DecodeAllAppend(template, a[1..], b);
    }
  }

  /** Reading each non-empty batch URL back gives the batch, and the batches read back in order give their concatenation. */
  lemma {:induction false} DecodeBatches(template: string, bs: seq<seq<string>>)
    requires forall k :: 0 <= k < |bs| ==> |bs[k]| > 0
    requires forall k, i :: 0 <= k < |bs| && 0 <= i < |bs[k]| ==> ',' !in bs[k][i]
    ensures DecodeAll(template, BatchUrls(template, bs)) == Flatten(bs)
    decreases |bs|
  {
    if |bs| > 0 {
      var url := BatchUrl(template, bs[0]);
      assert url[|template|..] == Join(bs[0], ',');
      SplitJoin(bs[0], ',');
      assert BatchUrls(template, bs)[1..] == BatchUrls(template, bs[1..]);
      DecodeBatches(template, bs[1..]);
    }
  }

  /**
   * The escaped identifiers, read across all batch URLs in issue order and
   * split on `,`, are the identifiers given: nothing reordered, dropped or
   * repeated. This needs at least one identifier and no `,` in any of them.
   */
  lemma BatchesRecoverIds(template: string, ids: seq<string>)
    requires |ids| > 0
    requires forall i :: 0 <= i < |ids| ==> ',' !in ids[i]
    ensures DecodeAll(template, BatchUrls(template, Batches(template, ids))) == ids
  {
    var bs := Batches(template, ids);
    BatchesFit(template, ids);
    BatchesFlatten(template, ids);
    forall k, i | 0 <= k < |bs| && 0 <= i < |bs[k]| ensures ',' !in bs[k][i] {
      FlattenIndex(bs, k, i);
    }
    DecodeBatches(template, bs);
  }

  /** An element of a batch is an element of the flattened list. */
  lemma {:induction false} FlattenIndex<X>(xss: seq<seq<X>>, k: nat, i: nat)
    requires k < |xss| && i < |xss[k]|
    ensures exists m :: 0 <= m < |Flatten(xss)| && Flatten(xss)[m] == xss[k][i]
    decreases k
  {
    if k == 0 {
      assert Flatten(xss)[i] == xss[0][i];
    } else {
      FlattenIndex(xss[1..], k - 1, i);
      var m :| 0 <= m < |Flatten(xss[1..])| && Flatten(xss[1..])[m] == xss[1..][k - 1][i];
      assert Flatten(xss)[|xss[0]| + m] == xss[k][i];
    }
  }
}
