// Joining strings with a separator and splitting them back: the string
// plumbing behind Ruby's `Array#join` and the comma-separated query values
// that the content API client builds.
module Text {

  /** `parts` joined with `sep` between neighbours, as Ruby's `parts.join(sep)`. */
  function Join(parts: seq<string>, sep: char): string
    decreases |parts|
  {
    if |parts| == 0 then ""
    else if |parts| == 1 then parts[0]
    else parts[0] + [sep] + Join(parts[1..], sep)
  }

  /** Index of the first occurrence of `c` in `s`. */
  function FirstIndex(s: string, c: char): (r: nat)
    requires c in s
    ensures r < |s| && s[r] == c && c !in s[..r]
  {
    if s[0] == c then 0
    else
      assert c in s[1..] by {
        var k :| 0 <= k < |s| && s[k] == c;
        assert s[1..][k - 1] == c;
      }
      var r := 1 + FirstIndex(s[1..], c);
      assert s[..r] == [s[0]] + s[1..][..r - 1];
      r
  }

  /** `s` cut at every `sep` (the reading a server gives a joined list). */
  function Split(s: string, sep: char): (r: seq<string>)
    ensures |r| > 0
    decreases |s|
  {
    if sep !in s then [s]
    else
      var i := FirstIndex(s, sep);
      [s[..i]] + Split(s[i + 1..], sep)
  }

  /** Concatenation of a sequence of sequences. */
  function Flatten<X>(xss: seq<seq<X>>): seq<X>
  {
    if |xss| == 0 then [] else xss[0] + Flatten(xss[1..])
  }

  /** The first `sep` in `p + [sep] + q` is the one after `p`, when `p` has none. */
  lemma FirstIndexAfter(p: string, sep: char, q: string)
    requires sep !in p
    ensures FirstIndex(p + [sep] + q, sep) == |p|
  {
    var s := p + [sep] + q;
    assert s[|p|] == sep;
    var i := FirstIndex(s, sep);
    assert forall j :: 0 <= j < |p| ==> s[j] == p[j];
  }

  /** Splitting at a first part free of the separator cuts off exactly that part. */
  lemma SplitCons(p: string, sep: char, tail: string)
    requires sep !in p
    ensures Split(p + [sep] + tail, sep) == [p] + Split(tail, sep)
  {
    var s := p + [sep] + tail;
    FirstIndexAfter(p, sep, tail);
    assert s[|p|] == sep;
    assert s[..|p|] == p;
    assert s[|p| + 1..] == tail;
  }

  /** Splitting a joined list gives the list back, when no part holds the separator. */
  lemma {:induction false} SplitJoin(parts: seq<string>, sep: char)
    requires |parts| > 0
    requires forall k :: 0 <= k < |parts| ==> sep !in parts[k]
    ensures Split(Join(parts, sep), sep) == parts
    decreases |parts|
  {
    if |parts| > 1 {
      SplitCons(parts[0], sep, Join(parts[1..], sep));
      SplitJoin(parts[1..], sep);
      assert parts == [parts[0]] + parts[1..];
    }
  }

  /** Joining one more part puts the separator and the part at the end. */
  lemma {:induction false} JoinSnoc(parts: seq<string>, x: string, sep: char)
    requires |parts| > 0
    ensures Join(parts + [x], sep) == Join(parts, sep) + [sep] + x
    decreases |parts|
  {
    if |parts| == 1 {
      assert parts + [x] == [parts[0], x];
      assert [x][1..] == [];
    } else {
      assert (parts + [x])[1..] == parts[1..] + [x];
      JoinSnoc(parts[1..], x, sep);
    }
  }

  /** A joined list of two or more parts is longer than any one of them. */
  lemma {:induction false} JoinLonger(parts: seq<string>, k: nat, sep: char)
    requires 2 <= |parts| && k < |parts|
    ensures |Join(parts, sep)| > |parts[k]|
    decreases |parts|
  {
    if k > 0 && |parts| > 2 {
      JoinLonger(parts[1..], k - 1, sep);
    }
  }

  lemma AppendAssoc<X>(a: seq<X>, b: seq<X>, c: seq<X>)
    ensures a + (b + c) == (a + b) + c
  {
  }

  /** Flatten distributes over concatenation. */
  lemma {:induction false} FlattenAppend<X>(a: seq<seq<X>>, b: seq<seq<X>>)
    ensures Flatten(a + b) == Flatten(a) + Flatten(b)
    decreases |a|
  {
    if |a| == 0 {
      assert a + b == b;
    } else {
      assert (a + b)[1..] == a[1..] + b;
      FlattenAppend(a[1..], b);
    }
  }

  /** A character that is in no part and is not the separator is not in the join. */
  lemma {:induction false} JoinPlain(parts: seq<string>, sep: char, c: char)
    requires c != sep && forall k :: 0 <= k < |parts| ==> c !in parts[k]
    ensures c !in Join(parts, sep)
    decreases |parts|
  {
    if |parts| > 1 {
      JoinPlain(parts[1..], sep, c);
    }
  }

  lemma SplitAt<X>(s: seq<X>, j: nat)
    requires j < |s|
    ensures s == s[..j] + ([s[j]] + s[j + 1..])
  {}

  lemma MultisetRemove<X>(s: seq<X>, j: nat)
    requires j < |s|
    ensures multiset(s[..j] + s[j + 1..]) == multiset(s) - multiset{s[j]}
  {
    assert s == s[..j] + [s[j]] + s[j + 1..];
  }

  lemma MultisetTail<X>(s: seq<X>)
    requires |s| > 0
    ensures multiset(s[1..]) == multiset(s) - multiset{s[0]}
  {
    assert s == [s[0]] + s[1..];
  }

  /** Decimal digits of a natural number, as Ruby's `Integer#to_s`. */
  function NatToS(n: nat): (r: string)
    ensures |r| > 0 && forall k :: 0 <= k < |r| ==> '0' <= r[k] <= '9'
  {
    var d := [(('0' as int) + n % 10) as char];
    if n < 10 then d else NatToS(n / 10) + d
  }

  /** Ruby's `Integer#to_s`: a `-` sign, then the digits of the magnitude. */
  function IntToS(n: int): (r: string)
    ensures ',' !in r && '&' !in r && '=' !in r && '?' !in r
  {
    if n < 0 then "-" + NatToS(-n) else NatToS(n)
  }
}
