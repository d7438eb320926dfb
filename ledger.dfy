/** The derived state of the transaction view: the visible list
    (provider filter, then search, then newest first) and the summary totals
    over it, plus the held state with its two setters. */
module Ledger {
  import opened Text
  import opened Seqs
  import opened Transactions
  import opened DateSort

  // ---------------------------------------------------------------------
  // The two filters of the visible list
  // ---------------------------------------------------------------------

  /** The provider tab lets `t` through: the tab is "All", or it names `t`'s app. */
  function MatchesApp(f: AppFilter, t: Transaction): (b: bool)
    ensures b <==> f == All || f == Only(t.app)
  {
    f.All? || t.app == f.app
  }

  /** The search box lets `t` through: the lower-cased query occurs in the
      lower-cased recipient or in the lower-cased description. */
  function MatchesQuery(q: string, t: Transaction): (b: bool)
    ensures b <==> QueryOccursIn(q, t)
  {
    Includes(Lower(t.recipient), Lower(q)) || Includes(Lower(t.description), Lower(q))
  }

  /** What it means, with no searching algorithm involved, for `t` to match `q`. */
  ghost predicate QueryOccursIn(q: string, t: Transaction) {
    Contains(Lower(t.recipient), Lower(q)) || Contains(Lower(t.description), Lower(q))
  }

  /** A transaction is visible when it passes both filters. */
  function Passes(f: AppFilter, q: string, t: Transaction): (b: bool)
    ensures b <==> (f.All? || t.app == f.app) && QueryOccursIn(q, t)
  {
    MatchesApp(f, t) && MatchesQuery(q, t)
  }

  function AppPredicate(f: AppFilter): Transaction -> bool {
    t => MatchesApp(f, t)
  }

  function QueryPredicate(q: string): Transaction -> bool {
    t => MatchesQuery(q, t)
  }

  function PassesPredicate(f: AppFilter, q: string): Transaction -> bool {
    t => Passes(f, q, t)
  }

  /** The search ignores case: two queries that lower-case alike select
      the same transactions. */
  lemma {:induction false} QueryIgnoresCase(q1: string, q2: string, t: Transaction)
    requires Lower(q1) == Lower(q2)
    ensures MatchesQuery(q1, t) == MatchesQuery(q2, t)
  {
  }

  /** Searching for a query twice lower-cased is searching for the query. */
  lemma QueryLowerAgain(q: string, t: Transaction)
    ensures MatchesQuery(Lower(q), t) == MatchesQuery(q, t)
  {
    LowerIdempotent(q);
  }

  /** The empty query matches every transaction. */
  lemma EmptyQueryMatches(t: Transaction)
    ensures MatchesQuery("", t)
  {
    EmptyIncluded(Lower(t.recipient));
  }

  // ---------------------------------------------------------------------
  // The visible list
  // ---------------------------------------------------------------------

  /** `filteredTransactions`: filter by provider, then by query, then sort
      newest first. */
  function Visible(ts: seq<Transaction>, f: AppFilter, q: string): (r: seq<Transaction>)
    ensures |r| <= |ts|
  {
    SortByDate(Filter(Filter(ts, AppPredicate(f)), QueryPredicate(q)))
  }

  /** The two filters in a row keep exactly the transactions that pass both,
      in source order. */
  lemma FiltersCompose(ts: seq<Transaction>, f: AppFilter, q: string)
    ensures Filter(Filter(ts, AppPredicate(f)), QueryPredicate(q)) == Filter(ts, PassesPredicate(f, q))
  {
    FilterFilter(ts, AppPredicate(f), QueryPredicate(q), PassesPredicate(f, q));
  }

  /** Soundness: every visible transaction is of the selected provider
      (unless the tab is "All") and contains the query, case-insensitively,
      in its recipient or its description. */
  lemma {:induction false} VisibleSound(ts: seq<Transaction>, f: AppFilter, q: string, t: Transaction)
    requires t in Visible(ts, f, q)
    ensures t in ts
    ensures f.Only? ==> t.app == f.app
    ensures QueryOccursIn(q, t)
  {
    var kept := Filter(Filter(ts, AppPredicate(f)), QueryPredicate(q));
    SortPermutes(kept);
    assert t in multiset(Visible(ts, f, q));
    FilterSound(Filter(ts, AppPredicate(f)), QueryPredicate(q), t);
    FilterSound(ts, AppPredicate(f), t);
  }

  /** Completeness and no duplication: each transaction occurs in the visible
      list exactly as often as in the collection when it passes both filters,
      and not at all otherwise. */
  lemma VisibleCount(ts: seq<Transaction>, f: AppFilter, q: string, t: Transaction)
    ensures multiset(Visible(ts, f, q))[t] == if Passes(f, q, t) then multiset(ts)[t] else 0
  {
    FiltersCompose(ts, f, q);
    SortPermutes(Filter(ts, PassesPredicate(f, q)));
    FilterCount(ts, PassesPredicate(f, q), t);
  }

  /** The visible list is a permutation of the source transactions that
      pass both filters, taken in source order. */
  lemma VisiblePermutation(ts: seq<Transaction>, f: AppFilter, q: string)
    ensures multiset(Visible(ts, f, q)) == multiset(Filter(ts, PassesPredicate(f, q)))
  {
    FiltersCompose(ts, f, q);
    SortPermutes(Filter(ts, PassesPredicate(f, q)));
  }

  /** The visible list is newest first. */
  lemma VisibleSorted(ts: seq<Transaction>, f: AppFilter, q: string)
    ensures SortedByDateDesc(Visible(ts, f, q))
  {
  }

  /** Ties keep their source order: the visible transactions of any one date
      are the passing source transactions of that date, in source order. */
  lemma VisibleTiesInSourceOrder(ts: seq<Transaction>, f: AppFilter, q: string, d: int)
    ensures Filter(Visible(ts, f, q), HasDate(d)) == Filter(Filter(ts, PassesPredicate(f, q)), HasDate(d))
  {
    FiltersCompose(ts, f, q);
    SortStable(Filter(ts, PassesPredicate(f, q)), d);
  }

  /** The visible list is the one arrangement of the passing transactions
      that is newest first and keeps ties in source order. */
  lemma VisibleIsStableSortOfPassing(ts: seq<Transaction>, f: AppFilter, q: string, r: seq<Transaction>)
    requires SortedByDateDesc(r)
    requires forall d :: Filter(r, HasDate(d)) == Filter(Filter(ts, PassesPredicate(f, q)), HasDate(d))
    ensures r == Visible(ts, f, q)
  {
    FiltersCompose(ts, f, q);
    StableSortIsSortByDate(Filter(ts, PassesPredicate(f, q)), r);
  }

  /** The "All" tab lets every transaction through. */
  lemma AllTabKeepsAll(ts: seq<Transaction>)
    ensures Filter(ts, AppPredicate(All)) == ts
  {
    forall t | t in ts ensures AppPredicate(All)(t) {
    }
    FilterKeepsAll(ts, AppPredicate(All));
  }

  /** With the tab on "All" and an empty query, the visible list holds the
      whole collection, newest first. */
  lemma {:induction false} VisibleAllEmptyQuery(ts: seq<Transaction>)
    ensures multiset(Visible(ts, All, "")) == multiset(ts)
    ensures Visible(ts, All, "") == SortByDate(ts)
  {
    AllTabKeepsAll(ts);
    forall t | t in ts ensures QueryPredicate("")(t) {
      EmptyQueryMatches(t);
    }
    FilterKeepsAll(ts, QueryPredicate(""));
    SortPermutes(ts);
  }

  /** The "No transactions found" message shows exactly when no transaction
      of the collection passes both filters. */
  lemma VisibleEmptyIffNonePass(ts: seq<Transaction>, f: AppFilter, q: string)
    ensures Visible(ts, f, q) == [] <==> forall t :: t in ts ==> !Passes(f, q, t)
  {
    if Visible(ts, f, q) == [] {
      forall t | t in ts ensures !Passes(f, q, t) {
        VisibleCount(ts, f, q, t);
      }
    } else {
      var t := Visible(ts, f, q)[0];
      VisibleCount(ts, f, q, t);
      assert t in multiset(Visible(ts, f, q));
    }
  }

  /** A provider with no transactions shows an empty list. */
  lemma {:induction false} VisibleNoMatchingApp(ts: seq<Transaction>, a: PaymentApp, q: string)
    requires forall t :: t in ts ==> t.app != a
    ensures Visible(ts, Only(a), q) == []
  {
    forall t | t in ts ensures !AppPredicate(Only(a))(t) {
    }
    FilterKeepsNone(ts, AppPredicate(Only(a)));
  }

  // ---------------------------------------------------------------------
  // The summary totals
  // ---------------------------------------------------------------------

  /** The sum of the amounts, written as the plain recursive sum. */
  function SumAmounts(s: seq<Transaction>): int {
    if s == [] then 0 else s[0].amount + SumAmounts(s[1..])
  }

  /** `reduce((sum, t) => sum + t.amount, acc)`: the left fold over the amounts. */
  function FoldAmounts(acc: int, s: seq<Transaction>): (r: int)
    ensures r == acc + SumAmounts(s)
    decreases |s|
  {
    if s == [] then acc else FoldAmounts(acc + s[0].amount, s[1..])
  }

  /** Sums add up over concatenation. */
  lemma {:induction false} SumConcat(a: seq<Transaction>, b: seq<Transaction>)
    ensures SumAmounts(a + b) == SumAmounts(a) + SumAmounts(b)
  {
    if a == [] {
      assert a + b == b;
    } else {
      assert (a + b)[0] == a[0] && (a + b)[1..] == a[1..] + b;
      SumConcat(a[1..], b);
    }
  }

  /** Taking the `i`-th term out of a sum. */
  lemma SumRemove(b: seq<Transaction>, i: int)
    requires 0 <= i < |b|
    ensures SumAmounts(b) == b[i].amount + SumAmounts(b[..i] + b[i + 1..])
  {
    var front, rest, back := b[..i], b[i..], b[i + 1..];
    assert b == front + rest;
    assert rest[0] == b[i] && rest[1..] == back;
    SumConcat(front, rest);
    SumConcat(front, back);
  }

  lemma MultisetRemove(a: seq<Transaction>, b: seq<Transaction>, i: int)
    requires a != [] && 0 <= i < |b| && b[i] == a[0]
    requires multiset(a) == multiset(b)
    ensures multiset(a[1..]) == multiset(b[..i] + b[i + 1..])
  {
    assert b == b[..i] + [b[i]] + b[i + 1..];
    assert a == [a[0]] + a[1..];
    calc {
      multiset(b[..i] + b[i + 1..]);
      multiset(b[..i]) + multiset(b[i + 1..]);
      multiset(b) - multiset{a[0]};
      multiset(a) - multiset{a[0]};
      multiset(a[1..]);
    }
  }

  /** A sum does not depend on the order of its terms. */
  lemma {:induction false} SumPermutation(a: seq<Transaction>, b: seq<Transaction>)
    requires multiset(a) == multiset(b)
    ensures SumAmounts(a) == SumAmounts(b)
    decreases |a|
  {
    if a != [] {
      assert a[0] in multiset(b);
      var i :| 0 <= i < |b| && b[i] == a[0];
      SumRemove(b, i);
      MultisetRemove(a, b, i);
      SumPermutation(a[1..], b[..i] + b[i + 1..]);
    } else {
      assert b == [];
    }
  }

  /** Splitting a list with a predicate and its negation splits its sum. */
  lemma {:induction false} SumSplit(s: seq<Transaction>, p: Transaction -> bool, np: Transaction -> bool)
    requires forall t :: np(t) == !p(t)
    ensures SumAmounts(Filter(s, p)) + SumAmounts(Filter(s, np)) == SumAmounts(s)
  {
    if s != [] {
      SumSplit(s[1..], p, np);
    }
  }

  const IsReceived: Transaction -> bool := (t: Transaction) => t.kind == Received

  const IsSent: Transaction -> bool := (t: Transaction) => t.kind == Sent

  /** The three summary cards. */
  datatype Summary = Summary(received: int, sent: int, total: int)

  /** `stats`: the received and sent sums over the visible list, and the net. */
  function Stats(vis: seq<Transaction>): (r: Summary)
    ensures r.total == r.received - r.sent
    ensures r.received + r.sent == SumAmounts(vis)
  {
    var received := FoldAmounts(0, Filter(vis, IsReceived));
    var sent := FoldAmounts(0, Filter(vis, IsSent));
    SumSplit(vis, IsReceived, IsSent);
    Summary(received, sent, received - sent)
  }

  /** With nothing visible, all three cards show 0, the fold's initial value. */
  lemma StatsEmpty()
    ensures Stats([]) == Summary(0, 0, 0)
  {
  }

  /** One transaction counts towards "received" or "sent" as its kind says. */
  lemma StatsSingle(t: Transaction)
    ensures Stats([t]) == if t.kind == Received then Summary(t.amount, 0, t.amount)
                          else Summary(0, t.amount, -t.amount)
  {
  }

  /** The totals of two lists put together are the sums of their totals:
      with StatsSingle, this says that "received" counts only received
      transactions and "sent" only sent ones. */
  lemma StatsConcat(a: seq<Transaction>, b: seq<Transaction>)
    ensures Stats(a + b).received == Stats(a).received + Stats(b).received
    ensures Stats(a + b).sent == Stats(a).sent + Stats(b).sent
    ensures Stats(a + b).total == Stats(a).total + Stats(b).total
  {
    FilterConcat(a, b, IsReceived);
    FilterConcat(a, b, IsSent);
    SumConcat(Filter(a, IsReceived), Filter(b, IsReceived));
    SumConcat(Filter(a, IsSent), Filter(b, IsSent));
  }

  /** The totals do not depend on the order of the list. */
  lemma StatsPermutation(a: seq<Transaction>, b: seq<Transaction>)
    requires multiset(a) == multiset(b)
    ensures Stats(a) == Stats(b)
  {
    forall p: Transaction -> bool ensures multiset(Filter(a, p)) == multiset(Filter(b, p)) {
      forall t ensures multiset(Filter(a, p))[t] == multiset(Filter(b, p))[t] {
        FilterCount(a, p, t);
        FilterCount(b, p, t);
      }
    }
    SumPermutation(Filter(a, IsReceived), Filter(b, IsReceived));
    SumPermutation(Filter(a, IsSent), Filter(b, IsSent));
  }

  /** The totals over the visible list are those over the passing
      transactions in source order: the sort changes no total. */
  lemma StatsOfVisible(ts: seq<Transaction>, f: AppFilter, q: string)
    ensures Stats(Visible(ts, f, q)) == Stats(Filter(ts, PassesPredicate(f, q)))
  {
    VisiblePermutation(ts, f, q);
    StatsPermutation(Visible(ts, f, q), Filter(ts, PassesPredicate(f, q)));
  }

  /** With non-negative amounts, neither card can go below zero. */
  lemma {:induction false} StatsNonNegative(vis: seq<Transaction>)
    requires forall t :: t in vis ==> t.amount >= 0
    ensures Stats(vis).received >= 0 && Stats(vis).sent >= 0
  {
    forall p: Transaction -> bool, t | t in Filter(vis, p) ensures t.amount >= 0 {
      FilterSound(vis, p, t);
    }
    SumNonNegative(Filter(vis, IsReceived));
    SumNonNegative(Filter(vis, IsSent));
  }

  /** With non-negative amounts in the collection, no tab and no search can
      make the "received" or "sent" card negative. */
  lemma VisibleStatsNonNegative(ts: seq<Transaction>, f: AppFilter, q: string)
    requires forall t :: t in ts ==> t.amount >= 0
    ensures Stats(Visible(ts, f, q)).received >= 0 && Stats(Visible(ts, f, q)).sent >= 0
  {
    forall t | t in Visible(ts, f, q) ensures t.amount >= 0 {
      VisibleSound(ts, f, q, t);
    }
    StatsNonNegative(Visible(ts, f, q));
  }

  lemma {:induction false} SumNonNegative(s: seq<Transaction>)
    requires forall t :: t in s ==> t.amount >= 0
    ensures SumAmounts(s) >= 0
  {
    if s != [] {
      SumNonNegative(s[1..]);
    }
  }

  /** A provider with no transactions shows 0 on all three cards. */
  lemma StatsNoMatchingApp(ts: seq<Transaction>, a: PaymentApp, q: string)
    requires forall t :: t in ts ==> t.app != a
    ensures Stats(Visible(ts, Only(a), q)) == Summary(0, 0, 0)
  {
    VisibleNoMatchingApp(ts, a, q);
  }

  // ---------------------------------------------------------------------
  // The held state
  // ---------------------------------------------------------------------

  /** The three independent pieces of state of the page: the read-only
      collection, the provider tab and the search text. */
  datatype View = View(transactions: seq<Transaction>, selectedApp: AppFilter, searchQuery: string) {

    /** `setSelectedApp`: replaces the tab, leaves the rest alone. */
    function SetSelectedApp(a: AppFilter): (v: View)
      ensures v.selectedApp == a
      ensures v.transactions == transactions && v.searchQuery == searchQuery
    {
      this.(selectedApp := a)
    }

    /** `setSearchQuery`: replaces the search text, leaves the rest alone. */
    function SetSearchQuery(q: string): (v: View)
      ensures v.searchQuery == q
      ensures v.transactions == transactions && v.selectedApp == selectedApp
    {
      this.(searchQuery := q)
    }

    /** `filteredTransactions`: newest first, and holding exactly the
        transactions that pass the current tab and search. */
    function FilteredTransactions(): (r: seq<Transaction>)
      ensures SortedByDateDesc(r)
      ensures multiset(r) == multiset(Filter(transactions, PassesPredicate(selectedApp, searchQuery)))
    {
      VisiblePermutation(transactions, selectedApp, searchQuery);
      Visible(transactions, selectedApp, searchQuery)
    }

    /** `stats`: the cards over the visible list, which are those over the
        passing transactions in source order. */
    function CurrentStats(): (r: Summary)
      ensures r == Stats(Filter(transactions, PassesPredicate(selectedApp, searchQuery)))
      ensures r.total == r.received - r.sent
    {
      StatsOfVisible(transactions, selectedApp, searchQuery);
      Stats(FilteredTransactions())
    }
  }

  /** The page's initial state over a collection: tab "All", empty search. */
  function Initial(ts: seq<Transaction>): (v: View)
    ensures v.transactions == ts && v.selectedApp == All && v.searchQuery == ""
  {
    View(ts, All, "")
  }

  /** On first render every transaction is shown, newest first. */
  lemma InitialShowsAll(ts: seq<Transaction>)
    ensures multiset(Initial(ts).FilteredTransactions()) == multiset(ts)
    ensures SortedByDateDesc(Initial(ts).FilteredTransactions())
  {
    VisibleAllEmptyQuery(ts);
  }

  /** The two setters act on independent state: their order does not matter,
      and neither ever changes the collection. */
  lemma SettersCommute(v: View, a: AppFilter, q: string)
    ensures v.SetSelectedApp(a).SetSearchQuery(q) == v.SetSearchQuery(q).SetSelectedApp(a)
    ensures v.SetSelectedApp(a).SetSearchQuery(q).transactions == v.transactions
  {
  }

  /** The derived list depends only on the latest value given to each setter. */
  lemma LastSetterWins(v: View, a1: AppFilter, a2: AppFilter, q1: string, q2: string)
    ensures v.SetSelectedApp(a1).SetSearchQuery(q1).SetSelectedApp(a2).SetSearchQuery(q2).FilteredTransactions()
         == Visible(v.transactions, a2, q2)
  {
  }
}
