// Responses as the batch coalescer sees them: the `total` and `results` of a
// decoded list body, the errors a fetch can end in, strict in-order fetching
// of several URLs, and the merge `get_batch` performs
// (lib/gds_api/content_api.rb:134-143).
module Responses {
  import opened Text

  /** The two keys of a list body the merge touches. */
  datatype Payload<T> = Payload(total: int, results: seq<T>)

  /**
   * How a call can fail: a non-success HTTP status, a transport that could
   * not be reached, or the bearer-token precondition of `artefact`.
   */
  datatype ApiError = HttpError(status: int) | Unreachable | NoBearerToken

  /** What the transport answers for one URL. */
  datatype Reply<T> = Success(body: Payload<T>) | Failed(error: ApiError)

  /** The end of a run of strict fetches: every body, or the first error. */
  datatype Outcome<T> = Done(bodies: seq<Payload<T>>) | Aborted(error: ApiError)

  /** The URLs a run of strict fetches requested, and how it ended. */
  datatype Trace<T> = Trace(issued: seq<string>, outcome: Outcome<T>)

  /**
   * `get_json!` on each URL in order: a failure raises, so nothing after the
   * failing URL is requested.
   */
  function FetchAll<T>(transport: string -> Reply<T>, urls: seq<string>): Trace<T>
  {
    if |urls| == 0 then Trace([], Done([]))
    else match transport(urls[0])
      case Failed(e) => Trace([urls[0]], Aborted(e))
      case Success(p) =>
        var t := FetchAll(transport, urls[1..]);
        Trace([urls[0]] + t.issued, if t.outcome.Done? then Done([p] + t.outcome.bodies) else t.outcome)
  }

  /** `existing["total"] += batch["total"]; existing["results"] += batch["results"]` */
  function Add<T>(existing: Payload<T>, batch: Payload<T>): Payload<T>
  {
    Payload(existing.total + batch.total, existing.results + batch.results)
  }

  /**
   * The body of the response `business_support_schemes` returns: the first
   * batch's, with every later batch added to it in turn. With one batch it is
   * that batch's body; with none (which the coalescer never produces) it is
   * empty.
   */
  function Merge<T>(ps: seq<Payload<T>>): Payload<T>
  {
    if |ps| == 0 then Payload(0, [])
    else if |ps| == 1 then ps[0]
    else Add(Merge(ps[..|ps| - 1]), ps[|ps| - 1])
  }

  /** The sum of the batch totals, front to back. */
  function TotalSum<T>(ps: seq<Payload<T>>): int
  {
    if |ps| == 0 then 0 else ps[0].total + TotalSum(ps[1..])
  }

  /** The batch results concatenated, front to back. */
  function AllResults<T>(ps: seq<Payload<T>>): seq<T>
  {
    if |ps| == 0 then [] else ps[0].results + AllResults(ps[1..])
  }

  // ---------------------------------------------------------------------
  // Strict fetching

  /**
   * A run completes exactly when every URL succeeds; it then requested every
   * URL, in order, and holds each URL's body at that URL's position.
   */
  lemma {:induction false} FetchAllDone<T>(transport: string -> Reply<T>, urls: seq<string>)
    ensures var t := FetchAll(transport, urls);
      (t.outcome.Done? <==> forall k :: 0 <= k < |urls| ==> transport(urls[k]).Success?) &&
      (t.outcome.Done? ==>
         t.issued == urls && |t.outcome.bodies| == |urls| &&
         forall k :: 0 <= k < |urls| ==> t.outcome.bodies[k] == transport(urls[k]).body)
    decreases |urls|
  {
    if |urls| > 0 {
      FetchAllDone(transport, urls[1..]);
      var t := FetchAll(transport, urls[1..]);
      if transport(urls[0]).Success? {
        assert forall k :: 1 <= k < |urls| ==> urls[k] == urls[1..][k - 1];
        if t.outcome.Done? {
          assert urls == [urls[0]] + urls[1..];
        } else {
          var k :| 0 <= k < |urls[1..]| && !transport(urls[1..][k]).Success?;
          assert !transport(urls[k + 1]).Success?;
        }
      }
    }
  }

  /**
   * A run that fails stops at the first failing URL: it requested the URLs up
   * to and including that one, all before it succeeded, and it reports that
   * URL's error.
   */
  lemma {:induction false} FetchAllAborted<T>(transport: string -> Reply<T>, urls: seq<string>)
    requires FetchAll(transport, urls).outcome.Aborted?
    ensures var t := FetchAll(transport, urls);
      exists k :: 0 <= k < |urls| && t.issued == urls[..k + 1] &&
                  transport(urls[k]) == Failed(t.outcome.error) &&
                  forall m :: 0 <= m < k ==> transport(urls[m]).Success?
    decreases |urls|
  {
    var t := FetchAll(transport, urls);
    if transport(urls[0]).Success? {
      FetchAllAborted(transport, urls[1..]);
      var u := FetchAll(transport, urls[1..]);
      var k :| 0 <= k < |urls[1..]| && u.issued == urls[1..][..k + 1] &&
               transport(urls[1..][k]) == Failed(u.outcome.error) &&
               forall m :: 0 <= m < k ==> transport(urls[1..][m]).Success?;
      AbortedLater(transport, urls, k);
    } else {
      assert t.issued == urls[..1];
    }
  }

  /** The step of `FetchAllAborted` past a first URL that succeeded. */
  lemma AbortedLater<T>(transport: string -> Reply<T>, urls: seq<string>, k: nat)
    requires |urls| > k + 1 && transport(urls[0]).Success?
    requires var u := FetchAll(transport, urls[1..]);
      u.outcome.Aborted? && u.issued == urls[1..][..k + 1] &&
      transport(urls[1..][k]) == Failed(u.outcome.error) &&
      forall m :: 0 <= m < k ==> transport(urls[1..][m]).Success?
    ensures var t := FetchAll(transport, urls);
      t.issued == urls[..k + 2] && transport(urls[k + 1]) == Failed(t.outcome.error) &&
      forall m :: 0 <= m < k + 1 ==> transport(urls[m]).Success?
  {
    var u := FetchAll(transport, urls[1..]);
    assert FetchAll(transport, urls) == Trace([urls[0]] + u.issued, u.outcome);
    assert urls[..k + 2] == [urls[0]] + urls[1..][..k + 1];
    assert urls[k + 1] == urls[1..][k];
    forall m | 0 <= m < k + 1 ensures transport(urls[m]).Success? {
      if m > 0 { assert urls[m] == urls[1..][m - 1]; }
    }
  }

  /** Appending one URL to a run that completed requests it and records its answer. */
  lemma {:induction false} FetchAllSnoc<T>(transport: string -> Reply<T>, urls: seq<string>, u: string)
    requires FetchAll(transport, urls).outcome.Done?
    ensures var t := FetchAll(transport, urls);
      FetchAll(transport, urls + [u]) ==
        match transport(u)
        case Success(p) => Trace(t.issued + [u], Done(t.outcome.bodies + [p]))
        case Failed(e) => Trace(t.issued + [u], Aborted(e))
    decreases |urls|
  {
    if |urls| == 0 {
      assert urls + [u] == [u] && [u][1..] == [];
      match transport(u) {
        case Success(p) =>
          var none: seq<string> := [];
          assert FetchAll(transport, none) == Trace([], Done([]));
          var nob: seq<Payload<T>> := [];
          assert [u] + none == none + [u] && [u][1..] == none && urls == none;
          assert [p] + nob == nob + [p];
        case Failed(e) =>
      }
    } else {
      assert (urls + [u])[1..] == urls[1..] + [u];
      FetchAllSnoc(transport, urls[1..], u);
      var p0 := transport(urls[0]).body;
      var t1 := FetchAll(transport, urls[1..]);
      assert FetchAll(transport, urls) == Trace([urls[0]] + t1.issued, Done([p0] + t1.outcome.bodies));
      assert [urls[0]] + (t1.issued + [u]) == ([urls[0]] + t1.issued) + [u];
      match transport(u) {
        case Success(p) =>
          assert [p0] + (t1.outcome.bodies + [p]) == ([p0] + t1.outcome.bodies) + [p];
        case Failed(e) =>
      }
    }
  }

  /** Nothing after a failure is requested. */
  lemma {:induction false} FetchAllStops<T>(transport: string -> Reply<T>, urls: seq<string>, more: seq<string>)
    requires FetchAll(transport, urls).outcome.Aborted?
    ensures FetchAll(transport, urls + more) == FetchAll(transport, urls)
    decreases |urls|
  {
    if transport(urls[0]).Success? {
      assert (urls + more)[1..] == urls[1..] + more;
      FetchAllStops(transport, urls[1..], more);
    }
  }

  /** Every URL succeeded, with these bodies. */
  ghost predicate AllSucceed<T>(transport: string -> Reply<T>, urls: seq<string>, bodies: seq<Payload<T>>)
  {
    |bodies| == |urls| && forall k :: 0 <= k < |urls| ==> transport(urls[k]) == Success(bodies[k])
  }

  lemma AllSucceedSnoc<T>(transport: string -> Reply<T>, urls: seq<string>, bodies: seq<Payload<T>>, u: string)
    requires AllSucceed(transport, urls, bodies) && transport(u).Success?
    ensures AllSucceed(transport, urls + [u], bodies + [transport(u).body])
  {
  }

  /** A run over URLs that all succeed completes, with their bodies. */
  lemma {:induction false} AllSucceedRun<T>(transport: string -> Reply<T>, urls: seq<string>, bodies: seq<Payload<T>>)
    requires AllSucceed(transport, urls, bodies)
    ensures FetchAll(transport, urls) == Trace(urls, Done(bodies))
    decreases |urls|
  {
    if |urls| > 0 {
      AllSucceedRun(transport, urls[1..], bodies[1..]);
      assert urls == [urls[0]] + urls[1..] && bodies == [bodies[0]] + bodies[1..];
    }
  }

  /** After URLs that all succeeded, a last URL ends the run with its answer. */
  lemma RunEnds<T>(transport: string -> Reply<T>, urls: seq<string>, bodies: seq<Payload<T>>, u: string)
    requires AllSucceed(transport, urls, bodies)
    ensures transport(u).Success? ==> FetchAll(transport, urls + [u]) == Trace(urls + [u], Done(bodies + [transport(u).body]))
    ensures transport(u).Failed? ==> FetchAll(transport, urls + [u]) == Trace(urls + [u], Aborted(transport(u).error))
  {
    AllSucceedRun(transport, urls, bodies);
    FetchAllSnoc(transport, urls, u);
  }

  /** After URLs that all succeeded, a failing URL ends the run, whatever follows it. */
  lemma RunFails<T>(transport: string -> Reply<T>, urls: seq<string>, bodies: seq<Payload<T>>, u: string, more: seq<string>)
    requires AllSucceed(transport, urls, bodies) && transport(u).Failed?
    ensures FetchAll(transport, urls + [u] + more) == Trace(urls + [u], Aborted(transport(u).error))
  {
    RunEnds(transport, urls, bodies, u);
    FetchAllStops(transport, urls + [u], more);
  }

  // ---------------------------------------------------------------------
  // Merging

  lemma {:induction false} TotalSumSnoc<T>(ps: seq<Payload<T>>, p: Payload<T>)
    ensures TotalSum(ps + [p]) == TotalSum(ps) + p.total
    decreases |ps|
  {
    if |ps| > 0 {
      assert (ps + [p])[1..] == ps[1..] + [p];
      TotalSumSnoc(ps[1..], p);
    }
  }

  lemma {:induction false} AllResultsSnoc<T>(ps: seq<Payload<T>>, p: Payload<T>)
    ensures AllResults(ps + [p]) == AllResults(ps) + p.results
    decreases |ps|
  {
    if |ps| == 0 {
      assert ps + [p] == [p];
    } else {
      assert (ps + [p])[1..] == ps[1..] + [p];
      AllResultsSnoc(ps[1..], p);
    }
  }

  /**
   * The merged `total` is the sum of the batch totals and the merged
   * `results` the batch results concatenated in issue order.
   */
  lemma {:induction false} MergeSums<T>(ps: seq<Payload<T>>)
    ensures Merge(ps) == Payload(TotalSum(ps), AllResults(ps))
    decreases |ps|
  {
    if |ps| == 1 {
      assert ps[1..] == [];
    } else if |ps| > 1 {
      var init, last := ps[..|ps| - 1], ps[|ps| - 1];
      MergeSums(init);
      assert ps == init + [last];
      TotalSumSnoc(init, last);
      AllResultsSnoc(init, last);
    }
  }

  /** Adding one more batch to a merge is what `get_batch` does to the existing response. */
  lemma MergeSnoc<T>(ps: seq<Payload<T>>, p: Payload<T>)
    requires |ps| > 0
    ensures Merge(ps + [p]) == Add(Merge(ps), p)
  {
    assert (ps + [p])[..|ps|] == ps;
  }
}
