/** The most-recent-first ordering of the visible list:
    `sort((a, b) => b.date.getTime() - a.date.getTime())`.
    `Array.prototype.sort` is stable (ECMAScript 2019 and later), so it is
    modelled by a stable insertion sort, and the lemmas below show that
    "sorted newest first, ties in input order" fixes its result exactly. */
module DateSort {
  import opened Transactions
  import opened Seqs

  /** Non-increasing by date: no transaction is older than one after it. */
  predicate SortedByDateDesc(s: seq<Transaction>) {
    forall i, j :: 0 <= i < j < |s| ==> s[i].date >= s[j].date
  }

  /** Puts `t` into the newest-first list `r`, in front of the first
      transaction that is not strictly newer than `t`. */
  function Insert(t: Transaction, r: seq<Transaction>): (u: seq<Transaction>)
    ensures |u| == |r| + 1
  {
    if r == [] || r[0].date <= t.date then [t] + r
    else [r[0]] + Insert(t, r[1..])
  }

  /** Inserting adds `t` and loses nothing. */
  lemma {:induction false} InsertPermutes(t: Transaction, r: seq<Transaction>)
    ensures multiset(Insert(t, r)) == multiset(r) + multiset{t}
  {
    if r != [] && r[0].date > t.date {
      InsertPermutes(t, r[1..]);
      assert r == [r[0]] + r[1..];
    }
  }

  /** A transaction no newer than the head of a newest-first list can go in
      front of it. */
  lemma SortedCons(x: Transaction, s: seq<Transaction>)
    requires SortedByDateDesc(s)
    requires forall i :: 0 <= i < |s| ==> s[i].date <= x.date
    ensures SortedByDateDesc([x] + s)
  {
    var u := [x] + s;
    forall i, j | 0 <= i < j < |u| ensures u[i].date >= u[j].date {
      assert u[j] == s[j - 1];
      if i > 0 {
        assert u[i] == s[i - 1];
      }
    }
  }

  /** Inserting a transaction no newer than `b` into a list no newer than `b`
      gives a list no newer than `b`. */
  lemma {:induction false} InsertBounded(t: Transaction, r: seq<Transaction>, b: int)
    requires t.date <= b
    requires forall i :: 0 <= i < |r| ==> r[i].date <= b
    ensures forall i :: 0 <= i < |Insert(t, r)| ==> Insert(t, r)[i].date <= b
  {
    if r != [] && r[0].date > t.date {
      InsertBounded(t, r[1..], b);
      var rest := Insert(t, r[1..]);
      assert forall i :: 1 <= i < |rest| + 1 ==> ([r[0]] + rest)[i] == rest[i - 1];
    }
  }

  /** Inserting into a newest-first list keeps it newest first. */
  lemma {:induction false} InsertSorted(t: Transaction, r: seq<Transaction>)
    requires SortedByDateDesc(r)
    ensures SortedByDateDesc(Insert(t, r))
  {
    if r != [] && r[0].date > t.date {
      InsertSorted(t, r[1..]);
      assert forall i :: 0 <= i < |r[1..]| ==> r[1..][i] == r[i + 1];
      InsertBounded(t, r[1..], r[0].date);
      SortedCons(r[0], Insert(t, r[1..]));
    } else {
      SortedCons(t, r);
    }
  }

  /** Where `Insert` puts `t`: after the run of transactions strictly newer
      than `t`, in front of everything else. */
  lemma {:induction false} InsertAfterNewer(t: Transaction, a: seq<Transaction>, b: seq<Transaction>)
    requires forall x :: x in a ==> x.date > t.date
    requires b == [] || b[0].date <= t.date
    ensures Insert(t, a + b) == a + [t] + b
  {
    if a == [] {
      assert a + b == b;
    } else {
      var ab := a + b;
      assert ab[0] == a[0] && a[0] in a;
      assert ab[1..] == a[1..] + b;
      assert Insert(t, ab) == [a[0]] + Insert(t, a[1..] + b);
      InsertAfterNewer(t, a[1..], b);
      assert a + [t] + b == [a[0]] + (a[1..] + [t] + b);
    }
  }

  /** The stable newest-first sort. */
  function SortByDate(s: seq<Transaction>): (r: seq<Transaction>)
    ensures |r| == |s|
    ensures SortedByDateDesc(r)
  {
    if s == [] then []
    else
      var tail := SortByDate(s[1..]);
      InsertSorted(s[0], tail);
      Insert(s[0], tail)
  }

  /** The sort is a permutation of its input. */
  lemma {:induction false} SortPermutes(s: seq<Transaction>)
    ensures multiset(SortByDate(s)) == multiset(s)
  {
    if s != [] {
      SortPermutes(s[1..]);
      InsertPermutes(s[0], SortByDate(s[1..]));
      assert s == [s[0]] + s[1..];
    }
  }

  /** Inserting `t` only moves it past transactions strictly newer than it,
      so among the transactions of any one date it stays in front. */
  lemma {:induction false} InsertKeepsTies(t: Transaction, r: seq<Transaction>, d: int)
    ensures Filter(Insert(t, r), HasDate(d)) == Filter([t] + r, HasDate(d))
  {
    if r == [] || r[0].date <= t.date {
    } else {
      var rest := Insert(t, r[1..]);
      InsertKeepsTies(t, r[1..], d);
      assert ([r[0]] + rest)[1..] == rest;
      assert ([t] + r)[1..] == r;
      assert ([t] + r[1..])[1..] == r[1..];
      assert r == [r[0]] + r[1..];
    }
  }

  /** Stability: the transactions of any one date appear in the sorted list
      in the same relative order as in the input. */
  lemma {:induction false} SortStable(s: seq<Transaction>, d: int)
    ensures Filter(SortByDate(s), HasDate(d)) == Filter(s, HasDate(d))
  {
    if s != [] {
      var tail := SortByDate(s[1..]);
      SortStable(s[1..], d);
      InsertKeepsTies(s[0], tail, d);
      assert ([s[0]] + tail)[1..] == tail;
    }
  }

  /** The sort handles the head of its input last. */
  lemma SortCons(x: Transaction, s: seq<Transaction>)
    ensures SortByDate([x] + s) == Insert(x, SortByDate(s))
  {
    assert ([x] + s)[1..] == s;
  }

  lemma HeadKeptByItsDate(s: seq<Transaction>)
    ensures s != [] ==> s[0] in Filter(s, HasDate(s[0].date))
  {
  }

  /** Two newest-first lists that agree, date by date, on which transactions
      carry that date and in what order, are the same list. */
  lemma {:induction false} SortedTiesDetermine(a: seq<Transaction>, b: seq<Transaction>)
    requires SortedByDateDesc(a) && SortedByDateDesc(b)
    requires forall d :: Filter(a, HasDate(d)) == Filter(b, HasDate(d))
    ensures a == b
    decreases |a| + |b|
  {
    if a != [] || b != [] {
      HeadKeptByItsDate(a);
      HeadKeptByItsDate(b);
      assert a != [] && b != [];
      var dA, dB := a[0].date, b[0].date;
      FilterSound(a, HasDate(dB), b[0]);
      FilterSound(b, HasDate(dA), a[0]);
      assert dB <= dA && dA <= dB;
      assert Filter(a, HasDate(dA)) == [a[0]] + Filter(a[1..], HasDate(dA));
      assert Filter(b, HasDate(dA)) == [b[0]] + Filter(b[1..], HasDate(dA));
      assert a[0] == Filter(a, HasDate(dA))[0] == Filter(b, HasDate(dA))[0] == b[0];
      forall d ensures Filter(a[1..], HasDate(d)) == Filter(b[1..], HasDate(d)) {
        assert Filter(a, HasDate(d)) == Filter(b, HasDate(d));
        if d == dA {
          assert Filter(a[1..], HasDate(d)) == Filter(a, HasDate(d))[1..];
          assert Filter(b[1..], HasDate(d)) == Filter(b, HasDate(d))[1..];
        }
      }
      SortedTiesDetermine(a[1..], b[1..]);
      assert a == [a[0]] + a[1..] && b == [b[0]] + b[1..];
    }
  }

  /** Any newest-first arrangement of `s` that keeps ties in input order is
      exactly `SortByDate(s)`: the model is the only possible result of a
      stable descending sort. */
  lemma StableSortIsSortByDate(s: seq<Transaction>, r: seq<Transaction>)
    requires SortedByDateDesc(r)
    requires forall d :: Filter(r, HasDate(d)) == Filter(s, HasDate(d))
    ensures r == SortByDate(s)
  {
    forall d ensures Filter(r, HasDate(d)) == Filter(SortByDate(s), HasDate(d)) {
      SortStable(s, d);
    }
    SortedTiesDetermine(r, SortByDate(s));
  }

  /** A list that is already newest first is left unchanged by the sort. */
  lemma SortKeepsSorted(s: seq<Transaction>)
    requires SortedByDateDesc(s)
    ensures SortByDate(s) == s
  {
    StableSortIsSortByDate(s, s);
  }
}
