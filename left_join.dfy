/** `left.merge(right, on=key, how="left")` over tables whose key is an
    order id. Every left row is kept, in left-table order; it is repeated once
    per right row with the same key, in right-table order, and appears once
    with no right part when there is none. */
module LeftJoins {
  import opened Frame

  /** The rows of `right` whose key is `k`, in right-table order. */
  function Matches<R(!new)>(right: seq<R>, rkey: R -> string, k: string): (ms: seq<R>)
    ensures forall i :: 0 <= i < |ms| ==> rkey(ms[i]) == k
    ensures forall r :: r in ms <==> r in right && rkey(r) == k
  {
    Filter(right, (r: R) => rkey(r) == k)
  }

  /** The output rows produced by one left row. */
  function JoinRow<L, R(!new)>(l: L, lkey: L -> string, right: seq<R>, rkey: R -> string): (rs: seq<(L, Option<R>)>)
    ensures |rs| == if |Matches(right, rkey, lkey(l))| == 0 then 1 else |Matches(right, rkey, lkey(l))|
    ensures forall i :: 0 <= i < |rs| ==> rs[i].0 == l
    ensures |Matches(right, rkey, lkey(l))| == 0 ==> rs[0].1 == None
    ensures forall i :: 0 <= i < |Matches(right, rkey, lkey(l))| ==> rs[i].1 == Some(Matches(right, rkey, lkey(l))[i])
  {
    var ms := Matches(right, rkey, lkey(l));
    if |ms| == 0 then [(l, None)] else seq(|ms|, i requires 0 <= i < |ms| => (l, Some(ms[i])))
  }

  function LeftJoin<L, R(!new)>(left: seq<L>, lkey: L -> string, right: seq<R>, rkey: R -> string): (j: seq<(L, Option<R>)>)
    ensures |j| >= |left|
    ensures forall i :: 0 <= i < |j| && j[i].1.Some? ==> j[i].1.value in right && rkey(j[i].1.value) == lkey(j[i].0)
    ensures forall i :: 0 <= i < |j| && j[i].1.None? ==> |Matches(right, rkey, lkey(j[i].0))| == 0
  {
    if |left| == 0 then []
    else
      var n := |left| - 1;
      LeftJoin(left[..n], lkey, right, rkey) + JoinRow(left[n], lkey, right, rkey)
  }

  /** The number of rows of `s` whose key is `k`. */
  function KeyCount<T>(s: seq<T>, key: T -> string, k: string): nat
  {
    if |s| == 0 then 0
    else KeyCount(s[..|s| - 1], key, k) + (if key(s[|s| - 1]) == k then 1 else 0)
  }

  /** The number of joined rows whose left part has key `k`. */
  function JoinedKeyCount<L, R>(j: seq<(L, Option<R>)>, lkey: L -> string, k: string): nat
  {
    if |j| == 0 then 0
    else JoinedKeyCount(j[..|j| - 1], lkey, k) + (if lkey(j[|j| - 1].0) == k then 1 else 0)
  }

  lemma {:induction false} JoinedKeyCountAppend<L, R>(a: seq<(L, Option<R>)>, b: seq<(L, Option<R>)>, lkey: L -> string, k: string)
    ensures JoinedKeyCount(a + b, lkey, k) == JoinedKeyCount(a, lkey, k) + JoinedKeyCount(b, lkey, k)
  {
    if |b| == 0 {
      assert a + b == a;
    } else {
      var b' := b[..|b| - 1];
      assert (a + b)[..|a + b| - 1] == a + b';
      JoinedKeyCountAppend(a, b', lkey, k);
    }
  }

  lemma {:induction false} JoinedKeyCountConstant<L, R>(rs: seq<(L, Option<R>)>, l: L, lkey: L -> string, k: string)
    requires forall i :: 0 <= i < |rs| ==> rs[i].0 == l
    ensures JoinedKeyCount(rs, lkey, k) == if lkey(l) == k then |rs| else 0
  {
    if |rs| > 0 {
      JoinedKeyCountConstant(rs[..|rs| - 1], l, lkey, k);
    }
  }

  /** Rows with key `k` come out as often as they go in, times the number of
      matching right rows, or times one when there is none. */
  lemma {:induction false} LeftJoinKeyCount<L, R(!new)>(left: seq<L>, lkey: L -> string, right: seq<R>, rkey: R -> string, k: string)
    ensures JoinedKeyCount(LeftJoin(left, lkey, right, rkey), lkey, k)
         == KeyCount(left, lkey, k) * (if |Matches(right, rkey, k)| == 0 then 1 else |Matches(right, rkey, k)|)
  {
    if |left| > 0 {
      var n := |left| - 1;
      var m := if |Matches(right, rkey, k)| == 0 then 1 else |Matches(right, rkey, k)|;
      var prefix := LeftJoin(left[..n], lkey, right, rkey);
      var last := JoinRow(left[n], lkey, right, rkey);
      LeftJoinKeyCount(left[..n], lkey, right, rkey, k);
      JoinedKeyCountAppend(prefix, last, lkey, k);
      JoinedKeyCountConstant(last, left[n], lkey, k);
      var c := KeyCount(left[..n], lkey, k);
      var d := if lkey(left[n]) == k then 1 else 0;
      assert KeyCount(left, lkey, k) == c + d;
      assert JoinedKeyCount(last, lkey, k) == d * m;
      assert (c + d) * m == c * m + d * m;
    }
  }

  /** Every left row appears in the result. */
  lemma {:induction false} LeftJoinKeepsLeftRows<L, R(!new)>(left: seq<L>, lkey: L -> string, right: seq<R>, rkey: R -> string, i: nat)
    requires i < |left|
    ensures exists p :: 0 <= p < |LeftJoin(left, lkey, right, rkey)| && LeftJoin(left, lkey, right, rkey)[p].0 == left[i]
  {
    var n := |left| - 1;
    var prefix := LeftJoin(left[..n], lkey, right, rkey);
    var j := LeftJoin(left, lkey, right, rkey);
    if i == n {
      assert j[|prefix|] == JoinRow(left[n], lkey, right, rkey)[0];
    } else {
      LeftJoinKeepsLeftRows(left[..n], lkey, right, rkey, i);
      var p :| 0 <= p < |prefix| && prefix[p].0 == left[..n][i];
      assert j[p] == prefix[p];
    }
  }

  /** Every row of the result comes from a row of the left table. */
  lemma {:induction false} LeftJoinRowsFromLeft<L, R(!new)>(left: seq<L>, lkey: L -> string, right: seq<R>, rkey: R -> string)
    ensures forall p :: 0 <= p < |LeftJoin(left, lkey, right, rkey)| ==> LeftJoin(left, lkey, right, rkey)[p].0 in left
  {
    if |left| > 0 {
      var n := |left| - 1;
      var prefix := LeftJoin(left[..n], lkey, right, rkey);
      LeftJoinRowsFromLeft(left[..n], lkey, right, rkey);
      forall p | 0 <= p < |LeftJoin(left, lkey, right, rkey)|
        ensures LeftJoin(left, lkey, right, rkey)[p].0 in left
      {
        if p < |prefix| {
          assert LeftJoin(left, lkey, right, rkey)[p] == prefix[p];
          assert prefix[p].0 in left[..n];
        }
      }
    }
  }

  lemma MultisetOfInit<T>(s: seq<T>, n: nat, x: T)
    requires n + 1 == |s|
    ensures multiset(s)[x] == multiset(s[..n])[x] + (if s[n] == x then 1 else 0)
  {
    assert s == s[..n] + [s[n]];
  }

  /** Each right row occurs among the matches of its own key as often as in the table. */
  lemma {:induction false} MatchesMultiset<R(!new)>(right: seq<R>, rkey: R -> string, r: R)
    ensures multiset(Matches(right, rkey, rkey(r)))[r] == multiset(right)[r]
  {
    FilterMultiset(right, (x: R) => rkey(x) == rkey(r));
  }

  /** Rows pairing `l` with the entries of `ms`, one for one, hold each pair
      `(l, Some(m))` as often as `m` occurs in `ms`, and nothing else. */
  lemma {:induction false} PairedRowsMultiset<L, R>(l: L, ms: seq<R>, rs: seq<(L, Option<R>)>, p: (L, Option<R>))
    requires |rs| == |ms|
    requires forall i :: 0 <= i < |rs| ==> rs[i] == (l, Some(ms[i]))
    ensures multiset(rs)[p] == if p.0 == l && p.1.Some? then multiset(ms)[p.1.value] else 0
  {
    if |rs| > 0 {
      var n := |rs| - 1;
      PairedRowsMultiset(l, ms[..n], rs[..n], p);
      assert rs == rs[..n] + [rs[n]];
      assert ms == ms[..n] + [ms[n]];
    }
  }

  /** The rows one left row contributes: the pair with each matching right row,
      once per occurrence of that row, or the row alone when nothing matches. */
  lemma JoinRowMultiset<L, R(!new)>(l: L, lkey: L -> string, right: seq<R>, rkey: R -> string, p: (L, Option<R>))
    ensures multiset(JoinRow(l, lkey, right, rkey))[p] ==
      if p.0 != l then 0
      else if p.1.None? then (if |Matches(right, rkey, lkey(l))| == 0 then 1 else 0)
      else if rkey(p.1.value) == lkey(l) then multiset(right)[p.1.value]
      else 0
  {
    var ms := Matches(right, rkey, lkey(l));
    var rs := JoinRow(l, lkey, right, rkey);
    if |ms| == 0 {
      assert rs == [(l, None)];
      if p.0 == l && p.1.Some? && rkey(p.1.value) == lkey(l) {
        MatchesMultiset(right, rkey, p.1.value);
      }
    } else {
      PairedRowsMultiset(l, ms, rs, p);
      if p.0 == l && p.1.Some? {
        if rkey(p.1.value) == lkey(l) {
          MatchesMultiset(right, rkey, p.1.value);
        } else {
          assert p.1.value !in ms;
        }
      }
    }
  }

  /** The left join pairs every occurrence of a left row with every occurrence
      of each right row of the same key: the pair occurs exactly the product of
      their multiplicities. */
  lemma {:induction false} LeftJoinPairCount<L, R(!new)>(left: seq<L>, lkey: L -> string, right: seq<R>, rkey: R -> string, l: L, r: R)
    requires rkey(r) == lkey(l)
    ensures multiset(LeftJoin(left, lkey, right, rkey))[(l, Some(r))] == multiset(left)[l] * multiset(right)[r]
  {
    LeftJoinPairTimes(left, lkey, right, rkey, l, r);
    TimesIsProduct(multiset(left)[l], multiset(right)[r]);
  }

  /** `LeftJoinPairCount` with the product written as repeated addition. */
  lemma {:induction false} LeftJoinPairTimes<L, R(!new)>(left: seq<L>, lkey: L -> string, right: seq<R>, rkey: R -> string, l: L, r: R)
    requires rkey(r) == lkey(l)
    ensures multiset(LeftJoin(left, lkey, right, rkey))[(l, Some(r))] == Times(multiset(left)[l], multiset(right)[r])
  {
    if |left| > 0 {
      var n := |left| - 1;
      var p := (l, Some(r));
      LeftJoinSnocCount(left, lkey, right, rkey, p);
      LeftJoinPairTimes(left[..n], lkey, right, rkey, l, r);
      JoinRowPairCount(left[n], lkey, right, rkey, l, r);
      MultisetOfInit(left, n, l);
      if left[n] == l {
        assert Times(multiset(left)[l], multiset(right)[r]) == Times(multiset(left[..n])[l], multiset(right)[r]) + multiset(right)[r];
      } else {
        assert multiset(left)[l] == multiset(left[..n])[l];
      }
    }
  }

  /** A left row paired with a right row of its key occurs once per copy of that right row. */
  lemma JoinRowPairCount<L, R(!new)>(l0: L, lkey: L -> string, right: seq<R>, rkey: R -> string, l: L, r: R)
    requires rkey(r) == lkey(l)
    ensures multiset(JoinRow(l0, lkey, right, rkey))[(l, Some(r))] == if l0 == l then multiset(right)[r] else 0
  {
    JoinRowMultiset(l0, lkey, right, rkey, (l, Some(r)));
  }

  /** The rows of a left join are those of the shorter join and those of the last left row. */
  lemma LeftJoinSnocCount<L, R(!new)>(left: seq<L>, lkey: L -> string, right: seq<R>, rkey: R -> string, p: (L, Option<R>))
    requires |left| > 0
    ensures multiset(LeftJoin(left, lkey, right, rkey))[p]
         == multiset(LeftJoin(left[..|left| - 1], lkey, right, rkey))[p] + multiset(JoinRow(left[|left| - 1], lkey, right, rkey))[p]
  {
    var n := |left| - 1;
    var prefix := LeftJoin(left[..n], lkey, right, rkey);
    var last := JoinRow(left[n], lkey, right, rkey);
    assert LeftJoin(left, lkey, right, rkey) == prefix + last;
    assert multiset(prefix + last) == multiset(prefix) + multiset(last);
  }

  /** Repeated addition, so that the induction in `LeftJoinPairTimes` stays linear. */
  function Times(a: nat, m: nat): nat
  {
    if a == 0 then 0 else Times(a - 1, m) + m
  }

  lemma {:induction false} TimesIsProduct(a: nat, m: nat)
    ensures Times(a, m) == a * m
  {
    if a > 0 {
      TimesIsProduct(a - 1, m);
    }
  }

  /** A left row stands alone, with no right part, once per occurrence exactly
      when no right row has its key. */
  lemma {:induction false} LeftJoinUnmatchedCount<L, R(!new)>(left: seq<L>, lkey: L -> string, right: seq<R>, rkey: R -> string, l: L)
    ensures multiset(LeftJoin(left, lkey, right, rkey))[(l, None)] ==
      if |Matches(right, rkey, lkey(l))| == 0 then multiset(left)[l] else 0
  {
    if |left| > 0 {
      var n := |left| - 1;
      LeftJoinUnmatchedCount(left[..n], lkey, right, rkey, l);
      JoinRowMultiset(left[n], lkey, right, rkey, (l, None));
      LeftJoinSnocCount(left, lkey, right, rkey, (l, None));
      MultisetOfInit(left, n, l);
    }
  }

  /** Keys that occur at most once in a table. */
  predicate UniqueKeys<R>(right: seq<R>, rkey: R -> string)
  {
    forall a, b :: 0 <= a < b < |right| ==> rkey(right[a]) != rkey(right[b])
  }

  lemma {:induction false} UniqueKeysMatchAtMostOnce<R(!new)>(right: seq<R>, rkey: R -> string, k: string)
    requires UniqueKeys(right, rkey)
    ensures |Matches(right, rkey, k)| <= 1
  {
    if |right| > 0 {
      var n := |right| - 1;
      UniqueKeysMatchAtMostOnce(right[..n], rkey, k);
      if rkey(right[n]) == k {
        FilterKeepsNone(right[..n], (r: R) => rkey(r) == k);
      }
    }
  }

  /** Joining on a right table with unique keys keeps the left table's rows one
      for one, each with its matching right row if there is one. */
  lemma {:induction false} LeftJoinUnique<L, R(!new)>(left: seq<L>, lkey: L -> string, right: seq<R>, rkey: R -> string)
    requires UniqueKeys(right, rkey)
    ensures |LeftJoin(left, lkey, right, rkey)| == |left|
    ensures forall i :: 0 <= i < |left| ==> LeftJoin(left, lkey, right, rkey)[i].0 == left[i]
    ensures forall i :: 0 <= i < |left| ==>
      (LeftJoin(left, lkey, right, rkey)[i].1.Some? <==> |Matches(right, rkey, lkey(left[i]))| > 0)
  {
    if |left| > 0 {
      var n := |left| - 1;
      LeftJoinUnique(left[..n], lkey, right, rkey);
      UniqueKeysMatchAtMostOnce(right, rkey, lkey(left[n]));
      ExtendOneForOne(left, lkey, right, rkey, LeftJoin(left[..n], lkey, right, rkey), JoinRow(left[n], lkey, right, rkey));
    }
  }

  /** One more left row with at most one match adds exactly one output row. */
  lemma ExtendOneForOne<L, R(!new)>(left: seq<L>, lkey: L -> string, right: seq<R>, rkey: R -> string,
                                   prefix: seq<(L, Option<R>)>, last: seq<(L, Option<R>)>)
    requires |left| > 0
    requires |prefix| == |left| - 1
    requires forall i :: 0 <= i < |prefix| ==> prefix[i].0 == left[i]
    requires forall i :: 0 <= i < |prefix| ==> (prefix[i].1.Some? <==> |Matches(right, rkey, lkey(left[i]))| > 0)
    requires |Matches(right, rkey, lkey(left[|left| - 1]))| <= 1
    requires last == JoinRow(left[|left| - 1], lkey, right, rkey)
    ensures |prefix + last| == |left|
    ensures forall i :: 0 <= i < |left| ==> (prefix + last)[i].0 == left[i]
    ensures forall i :: 0 <= i < |left| ==> ((prefix + last)[i].1.Some? <==> |Matches(right, rkey, lkey(left[i]))| > 0)
  {
  }

}
