/** Python's ordering of `str` values (code point by code point, a proper
    prefix first) and `sorted()` of name/value pairs with distinct names, as
    `sorted(kwargs.items())` and `json.dumps(..., sort_keys=True)` use it. */
module Ordering {

  /** Python `a < b` on strings. */
  predicate Less(a: string, b: string)
  {
    if a == [] then b != []
    else if b == [] then false
    else if a[0] != b[0] then a[0] < b[0]
    else Less(a[1..], b[1..])
  }

  lemma {:induction false} LessIrreflexive(a: string)
    ensures !Less(a, a)
  {
    if a != [] { LessIrreflexive(a[1..]); }
  }

  lemma {:induction false} LessTransitive(a: string, b: string, c: string)
    requires Less(a, b) && Less(b, c)
    ensures Less(a, c)
  {
    if a != [] && b != [] && c != [] && a[0] == b[0] == c[0] {
      LessTransitive(a[1..], b[1..], c[1..]);
    }
  }

  lemma {:induction false} LessTotal(a: string, b: string)
    ensures a == b || Less(a, b) || Less(b, a)
  {
    if a != [] && b != [] && a[0] == b[0] {
      LessTotal(a[1..], b[1..]);
      assert a == [a[0]] + a[1..] && b == [b[0]] + b[1..];
    }
  }

  lemma LessAsymmetric(a: string, b: string)
    requires Less(a, b)
    ensures !Less(b, a)
  {
    if Less(b, a) {
      LessTransitive(a, b, a);
      LessIrreflexive(a);
    }
  }

  predicate DistinctNames<T>(ps: seq<(string, T)>)
  {
    forall i, j :: 0 <= i < j < |ps| ==> ps[i].0 != ps[j].0
  }

  predicate SortedByName<T>(ps: seq<(string, T)>)
  {
    forall i, j :: 0 <= i < j < |ps| ==> Less(ps[i].0, ps[j].0)
  }

  function Insert<T>(p: (string, T), ps: seq<(string, T)>): seq<(string, T)>
  {
    if ps == [] || !Less(ps[0].0, p.0) then [p] + ps
    else [ps[0]] + Insert(p, ps[1..])
  }

  /** `sorted(pairs)` for pairs whose names are distinct, so that the values are
      never compared. */
  function SortByName<T>(ps: seq<(string, T)>): seq<(string, T)>
  {
    if ps == [] then [] else Insert(ps[0], SortByName(ps[1..]))
  }

  lemma {:induction false} InsertSpec<T>(p: (string, T), ps: seq<(string, T)>)
    requires SortedByName(ps)
    requires forall i :: 0 <= i < |ps| ==> ps[i].0 != p.0
    ensures multiset(Insert(p, ps)) == multiset(ps) + multiset{p}
    ensures SortedByName(Insert(p, ps))
  {
    if ps == [] || !Less(ps[0].0, p.0) {
      if ps != [] {
        LessTotal(ps[0].0, p.0);
        forall j | 0 < j < |ps| ensures Less(p.0, ps[j].0) {
          LessTransitive(p.0, ps[0].0, ps[j].0);
        }
      }
    } else {
      var tail := Insert(p, ps[1..]);
      InsertSpec(p, ps[1..]);
      assert ps == [ps[0]] + ps[1..];
      forall j | 0 <= j < |tail| ensures Less(ps[0].0, tail[j].0) {
        assert tail[j] in multiset(tail);
        if tail[j] != p {
          assert tail[j] in multiset(ps[1..]);
          var k :| 0 <= k < |ps[1..]| && ps[1..][k] == tail[j];
          assert ps[k + 1] == tail[j];
        }
      }
    }
  }

  lemma {:induction false} SortPermutes<T>(ps: seq<(string, T)>)
    ensures multiset(SortByName(ps)) == multiset(ps)
  {
    if ps != [] {
      SortPermutes(ps[1..]);
      InsertPermutes(ps[0], SortByName(ps[1..]));
      assert ps == [ps[0]] + ps[1..];
    }
  }

  lemma {:induction false} InsertPermutes<T>(p: (string, T), ps: seq<(string, T)>)
    ensures multiset(Insert(p, ps)) == multiset(ps) + multiset{p}
  {
    if ps != [] && Less(ps[0].0, p.0) {
      InsertPermutes(p, ps[1..]);
      assert ps == [ps[0]] + ps[1..];
    }
  }

  lemma {:induction false} SortSpec<T>(ps: seq<(string, T)>)
    requires DistinctNames(ps)
    ensures multiset(SortByName(ps)) == multiset(ps)
    ensures SortedByName(SortByName(ps))
  {
    if ps != [] {
      var rest := SortByName(ps[1..]);
      SortSpec(ps[1..]);
      forall i | 0 <= i < |rest| ensures rest[i].0 != ps[0].0 {
        assert rest[i] in multiset(ps[1..]);
        var k :| 0 <= k < |ps[1..]| && ps[1..][k] == rest[i];
        assert ps[k + 1] == rest[i];
      }
      InsertSpec(ps[0], rest);
      assert ps == [ps[0]] + ps[1..];
    }
  }

  lemma HeadsAgree<T>(a: seq<(string, T)>, b: seq<(string, T)>)
    requires SortedByName(a) && SortedByName(b)
    requires multiset(a) == multiset(b) && a != []
    ensures b != [] && a[0] == b[0]
  {
    assert a[0] in multiset(b);
    assert b[0] in multiset(a);
    var k :| 0 <= k < |a| && a[k] == b[0];
    var m :| 0 <= m < |b| && b[m] == a[0];
    if k > 0 && m > 0 {
      LessAsymmetric(a[0].0, b[0].0);
      assert false;
    }
  }

  lemma TailMultiset<T>(a: seq<T>)
    requires a != []
    ensures multiset(a[1..]) == multiset(a) - multiset{a[0]}
  {
    assert a == [a[0]] + a[1..];
  }

  /** Two sequences sorted by strictly increasing names that hold the same
      pairs are the same sequence. */
  lemma {:induction false} SortedUnique<T>(a: seq<(string, T)>, b: seq<(string, T)>)
    requires SortedByName(a) && SortedByName(b)
    requires multiset(a) == multiset(b)
    ensures a == b
  {
    if a != [] {
      HeadsAgree(a, b);
      TailMultiset(a);
      TailMultiset(b);
      SortedUnique(a[1..], b[1..]);
      assert a == [a[0]] + a[1..] && b == [b[0]] + b[1..];
    } else {
      assert |multiset(b)| == 0;
    }
  }

  /** Sorting forgets the order in which distinct-name pairs were given. */
  lemma SortForgetsOrder<T>(a: seq<(string, T)>, b: seq<(string, T)>)
    requires DistinctNames(a) && DistinctNames(b)
    requires multiset(a) == multiset(b)
    ensures SortByName(a) == SortByName(b)
  {
    SortSpec(a);
    SortSpec(b);
    SortedUnique(SortByName(a), SortByName(b));
  }
}
