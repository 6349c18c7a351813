// `licences_for_ids` (lib/gds_api/content_api.rb:79-82): the ids are turned
// into strings, sorted and comma-joined, so the request depends only on the
// multiset of ids and not on the order the caller gave them in.
module Licences {
  import opened Text
  import opened Urls
  import opened Endpoints

  /** A licence id as callers pass it: an Integer or a String. */
  datatype LicenceId = IntId(n: int) | StrId(s: string)

  /** `id.to_s` */
  function IdToS(id: LicenceId): string
  {
    match id
    case IntId(n) => IntToS(n)
    case StrId(s) => s
  }

  /** `ids.map(&:to_s)` */
  function IdStrings(ids: seq<LicenceId>): (r: seq<string>)
    ensures |r| == |ids| && forall k :: 0 <= k < |ids| ==> r[k] == IdToS(ids[k])
  {
    if |ids| == 0 then [] else [IdToS(ids[0])] + IdStrings(ids[1..])
  }

  lemma {:induction false} IdStringsAppend(x: seq<LicenceId>, y: seq<LicenceId>)
    ensures IdStrings(x + y) == IdStrings(x) + IdStrings(y)
    decreases |x|
  {
    if |x| == 0 {
      assert x + y == y;
    } else {
      assert (x + y)[1..] == x[1..] + y;
      IdStringsAppend(x[1..], y);
    }
  }

  // ---------------------------------------------------------------------
  // Ruby's String#<=>: byte-wise lexicographic order. For UTF-8 text the
  // byte order is the code point order, which is the order on `char`.

  predicate LexLe(a: string, b: string)
    decreases |a|
  {
    |a| == 0 || (|b| > 0 && (a[0] < b[0] || (a[0] == b[0] && LexLe(a[1..], b[1..]))))
  }

  lemma {:induction false} LexLeTotal(a: string, b: string)
    ensures LexLe(a, b) || LexLe(b, a)
    decreases |a|
  {
    if |a| > 0 && |b| > 0 && a[0] == b[0] {
      LexLeTotal(a[1..], b[1..]);
    }
  }

  lemma {:induction false} LexLeAntisymmetric(a: string, b: string)
    requires LexLe(a, b) && LexLe(b, a)
    ensures a == b
    decreases |a|
  {
    if |a| > 0 {
      LexLeAntisymmetric(a[1..], b[1..]);
      assert a == [a[0]] + a[1..] && b == [b[0]] + b[1..];
    }
  }

  lemma {:induction false} LexLeTransitive(a: string, b: string, c: string)
    requires LexLe(a, b) && LexLe(b, c)
    ensures LexLe(a, c)
    decreases |a|
  {
    if |a| > 0 && a[0] == b[0] && b[0] == c[0] {
      LexLeTransitive(a[1..], b[1..], c[1..]);
    }
  }

  predicate Sorted(s: seq<string>)
  {
    forall i, j :: 0 <= i < j < |s| ==> LexLe(s[i], s[j])
  }

  lemma {:induction false} LexLeReflexive(a: string)
    ensures LexLe(a, a)
    decreases |a|
  {
    if |a| > 0 { LexLeReflexive(a[1..]); }
  }

  lemma SortedTail(s: seq<string>)
    requires Sorted(s) && |s| > 0
    ensures Sorted(s[1..])
  {
    forall i, j | 0 <= i < j < |s| - 1 ensures LexLe(s[1..][i], s[1..][j]) {
      assert LexLe(s[i + 1], s[j + 1]);
    }
  }

  /** A lower bound of a sorted sequence's head bounds all of it. */
  lemma BelowHead(x: string, s: seq<string>)
    requires Sorted(s) && |s| > 0 && LexLe(x, s[0])
    ensures forall j :: 0 <= j < |s| ==> LexLe(x, s[j])
  {
    forall j | 0 <= j < |s| ensures LexLe(x, s[j]) {
      if j > 0 { LexLeTransitive(x, s[0], s[j]); }
    }
  }

  /** The head of a sorted sequence bounds anything built from its tail and a larger `x`. */
  lemma HeadBelow(x: string, s: seq<string>, t: seq<string>)
    requires Sorted(s) && |s| > 0 && LexLe(s[0], x)
    requires multiset(t) == multiset(s[1..]) + multiset{x}
    ensures forall j :: 0 <= j < |t| ==> LexLe(s[0], t[j])
  {
    forall j | 0 <= j < |t| ensures LexLe(s[0], t[j]) {
      assert t[j] in multiset(t);
      if t[j] != x {
        assert t[j] in multiset(s[1..]);
        var m :| 0 <= m < |s[1..]| && s[1..][m] == t[j];
        assert LexLe(s[0], s[m + 1]);
      }
    }
  }

  /** `x` inserted into sorted `s` before the first element it does not exceed. */
  function Insert(x: string, s: seq<string>): (r: seq<string>)
    requires Sorted(s)
    ensures Sorted(r) && multiset(r) == multiset(s) + multiset{x}
  {
    if |s| == 0 then [x]
    else if LexLe(x, s[0]) then
      BelowHead(x, s);
      assert s == [s[0]] + s[1..];
      [x] + s
    else
      LexLeTotal(x, s[0]);
      SortedTail(s);
      var t := Insert(x, s[1..]);
      assert s == [s[0]] + s[1..];
      HeadBelow(x, s, t);
      [s[0]] + t
  }

  /** Ruby's `sort` on strings, as an insertion sort. */
  function Sort(s: seq<string>): (r: seq<string>)
    ensures Sorted(r) && multiset(r) == multiset(s)
  {
    if |s| == 0 then []
    else
      assert s == [s[0]] + s[1..];
      Insert(s[0], Sort(s[1..]))
  }

  /** The head of a sorted sequence is at most every element. */
  lemma HeadLeast(a: seq<string>, x: string)
    requires Sorted(a) && x in multiset(a)
    ensures LexLe(a[0], x)
  {
    var i :| 0 <= i < |a| && a[i] == x;
    if i == 0 { LexLeReflexive(x); }
  }

  lemma SameHeadTail(a: seq<string>, b: seq<string>)
    requires |a| > 0 && |b| > 0 && a[0] == b[0] && a[1..] == b[1..]
    ensures a == b
  {
    assert a == [a[0]] + a[1..] && b == [b[0]] + b[1..];
  }

  /** Two sorted sequences with the same elements are the same sequence. */
  lemma {:induction false} SortedUnique(a: seq<string>, b: seq<string>)
    requires Sorted(a) && Sorted(b) && multiset(a) == multiset(b)
    ensures a == b
    decreases |a|
  {
    if |a| == 0 {
      assert |multiset(b)| == 0;
    } else {
      assert |b| == |multiset(b)| == |multiset(a)| == |a|;
      assert a[0] in multiset(a) && b[0] in multiset(b);
      HeadLeast(a, b[0]);
      HeadLeast(b, a[0]);
      LexLeAntisymmetric(a[0], b[0]);
      MultisetTail(a);
      MultisetTail(b);
      SortedTail(a);
      SortedTail(b);
      SortedUnique(a[1..], b[1..]);
      SameHeadTail(a, b);
    }
  }

  lemma IdStringsAt(b: seq<LicenceId>, j: nat)
    requires j < |b|
    ensures IdStrings(b) == IdStrings(b[..j]) + ([IdToS(b[j])] + IdStrings(b[j + 1..]))
  {
    SplitAt(b, j);
    IdStringsAppend(b[..j], [b[j]] + b[j + 1..]);
    assert ([b[j]] + b[j + 1..])[1..] == b[j + 1..];
  }

  lemma MultisetShuffle(x: string, p: multiset<string>, q: multiset<string>)
    ensures multiset{x} + (p + q) == p + (multiset{x} + q)
  {}

  /** Rendering ids as strings keeps a permutation a permutation. */
  lemma {:induction false} IdStringsPermutation(a: seq<LicenceId>, b: seq<LicenceId>)
    requires multiset(a) == multiset(b)
    ensures multiset(IdStrings(a)) == multiset(IdStrings(b))
    decreases |a|
  {
    if |a| == 0 {
      assert |multiset(b)| == 0;
      assert b == [];
    } else {
      assert a[0] in multiset(b);
      var j :| 0 <= j < |b| && b[j] == a[0];
      var rest := b[..j] + b[j + 1..];
      MultisetTail(a);
      MultisetRemove(b, j);
      IdStringsPermutation(a[1..], rest);
      var s0, p, q := IdToS(a[0]), IdStrings(b[..j]), IdStrings(b[j + 1..]);
      IdStringsAt(b, j);
      IdStringsAppend(b[..j], b[j + 1..]);
      var sa, sb, sr := IdStrings(a), IdStrings(b), IdStrings(rest);
      assert sr == p + q;
      assert multiset(sr) == multiset(p) + multiset(q);
      assert sb == p + ([s0] + q);
      assert multiset([s0] + q) == multiset{s0} + multiset(q);
      assert multiset(sb) == multiset(p) + multiset([s0] + q);
      assert sa == [s0] + IdStrings(a[1..]);
      assert multiset(sa) == multiset{s0} + multiset(IdStrings(a[1..]));
      assert multiset(IdStrings(a[1..])) == multiset(sr);
      MultisetShuffle(s0, multiset(p), multiset(q));
    }
  }

  /** `ids.map(&:to_s).sort.join(',')` */
  function IdList(ids: seq<LicenceId>): string
  {
    Join(Sort(IdStrings(ids)), ',')
  }

  function LicencesForIds(endpoint: string, ids: seq<LicenceId>): Request
  {
    Request(endpoint + "/licences.json?ids=" + IdList(ids), Lenient, Single)
  }

  /** Any reordering of the ids yields the same request. */
  lemma LicencesOrderInsensitive(endpoint: string, a: seq<LicenceId>, b: seq<LicenceId>)
    requires multiset(a) == multiset(b)
    ensures LicencesForIds(endpoint, a) == LicencesForIds(endpoint, b)
  {
    IdStringsPermutation(a, b);
    SortedUnique(Sort(IdStrings(a)), Sort(IdStrings(b)));
  }

  lemma LicencesSpelled(endpoint: string, ids: seq<LicenceId>)
    ensures LicencesForIds(endpoint, ids).url == endpoint + "/licences.json" + ("?" + "ids" + "=" + IdList(ids))
  {}

  /** The sorted string forms hold neither `,` nor `&` when the string ids hold neither. */
  lemma SortedPlain(ids: seq<LicenceId>)
    requires forall k :: 0 <= k < |ids| && ids[k].StrId? ==> ',' !in ids[k].s && '&' !in ids[k].s
    ensures var sorted := Sort(IdStrings(ids));
      |sorted| == |ids| && forall k :: 0 <= k < |sorted| ==> ',' !in sorted[k] && '&' !in sorted[k]
  {
    var strs := IdStrings(ids);
    var sorted := Sort(strs);
    forall k | 0 <= k < |strs| ensures ',' !in strs[k] && '&' !in strs[k] {
      assert strs[k] == IdToS(ids[k]);
    }
    forall k | 0 <= k < |sorted| ensures ',' !in sorted[k] && '&' !in sorted[k] {
      assert sorted[k] in multiset(strs);
    }
    assert |sorted| == |multiset(sorted)| == |multiset(strs)| == |ids|;
  }

  /** The request is read as one `ids` parameter holding the id list. */
  lemma LicencesParsed(endpoint: string, ids: seq<LicenceId>)
    requires '?' !in endpoint
    requires forall k :: 0 <= k < |ids| && ids[k].StrId? ==> ',' !in ids[k].s && '&' !in ids[k].s
    ensures Parse(LicencesForIds(endpoint, ids).url) == Target(endpoint + "/licences.json", [Pair("ids", IdList(ids))])
  {
    SortedPlain(ids);
    JoinPlain(Sort(IdStrings(ids)), ',', '&');
    LicencesSpelled(endpoint, ids);
    ReadsOne(endpoint + "/licences.json", "ids", IdList(ids));
  }

  /**
   * A server reading the request finds one `ids` parameter. With ids, its
   * comma-separated items are the ids' string forms, sorted, each exactly
   * once per occurrence in the input; with none, its value is empty. String
   * ids are not escaped, so this holds when none of them holds `,` or `&`.
   */
  lemma LicencesReads(endpoint: string, ids: seq<LicenceId>)
    requires '?' !in endpoint
    requires forall k :: 0 <= k < |ids| && ids[k].StrId? ==> ',' !in ids[k].s && '&' !in ids[k].s
    ensures var r := LicencesForIds(endpoint, ids);
      var t := Parse(r.url);
      t.path == endpoint + "/licences.json" && |t.query| == 1 && t.query[0].key == "ids" &&
      (|ids| == 0 ==> t.query[0].value == "") &&
      (|ids| > 0 ==>
         var items := Split(t.query[0].value, ',');
         Sorted(items) && multiset(items) == multiset(IdStrings(ids))) &&
      r.mode == Lenient && r.shape == Single
  {
    LicencesParsed(endpoint, ids);
    var sorted := Sort(IdStrings(ids));
    SortedPlain(ids);
    if |ids| > 0 {
      SplitJoin(sorted, ',');
    } else {
      assert sorted == [];
    }
  }
}
