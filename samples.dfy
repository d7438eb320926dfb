/** The eight seed transactions the page starts with, and what the view
    derives from them. */
module Samples {
  import opened Text
  import opened Seqs
  import opened Transactions
  import opened DateSort
  import opened Ledger

  /** Local time on a day of October 2025, in minutes since
      2025-10-01T00:00. Only the order of timestamps matters to the view,
      and this order is that of `Date.getTime()`. */
  function At(day: int, hour: int, minute: int): int {
    (day - 1) * 1440 + hour * 60 + minute
  }

  const Tx1 := Transaction("1", PayPal, 12550, Received, "John Doe", "Invoice payment", At(15, 10, 30), Completed)
  const Tx2 := Transaction("2", Venmo, 4500, Sent, "Sarah Smith", "Dinner split", At(15, 18, 45), Completed)
  const Tx3 := Transaction("3", CashApp, 20000, Received, "Mike Johnson", "Rent payment", At(14, 9, 0), Completed)
  const Tx4 := Transaction("4", Stripe, 150000, Received, "Client XYZ", "Project milestone", At(13, 14, 20), Completed)
  const Tx5 := Transaction("5", Zelle, 8000, Sent, "Emma Wilson", "Concert tickets", At(12, 20, 15), Completed)
  const Tx6 := Transaction("6", ApplePay, 3599, Sent, "Coffee Shop", "Coffee & pastries", At(16, 8, 0), Completed)
  const Tx7 := Transaction("7", PayPal, 9999, Sent, "Amazon", "Online purchase", At(11, 16, 30), Pending)
  const Tx8 := Transaction("8", Venmo, 2500, Received, "Alex Brown", "Gas money", At(10, 12, 0), Completed)

  /** `sampleTransactions`, in source order. */
  function SampleTransactions(): (r: seq<Transaction>)
    ensures |r| == 8
  {
    [Tx1, Tx2, Tx3, Tx4, Tx5, Tx6, Tx7, Tx8]
  }

  /** The sample holds transactions "1" to "8", in that order. */
  lemma SampleIds()
    ensures Ids(SampleTransactions()) == ["1", "2", "3", "4", "5", "6", "7", "8"]
  {
  }

  lemma SampleAmountsNonNegative()
    ensures forall i :: 0 <= i < |SampleTransactions()| ==> SampleTransactions()[i].amount >= 0
  {
  }

  /** No sample amount is negative, so no tab and no search can make the
      "received" or "sent" card negative. */
  lemma SampleStatsNonNegative(f: AppFilter, q: string)
    ensures Stats(Visible(SampleTransactions(), f, q)).received >= 0
    ensures Stats(Visible(SampleTransactions(), f, q)).sent >= 0
  {
    var ts := SampleTransactions();
    SampleAmountsNonNegative();
    forall t | t in ts ensures t.amount >= 0 {
      var i :| 0 <= i < |ts| && ts[i] == t;
    }
    VisibleStatsNonNegative(ts, f, q);
  }

  /** Any filter of the trailing sample transactions `Tx<k>` .. `Tx8`,
      one transaction at a time. */
  lemma FilterTail8(p: Transaction -> bool)
    ensures Filter([Tx8], p) == Keep(Tx8, p)
  {
    assert [Tx8] == [Tx8] + [];
    assert Filter([], p) == [];
    FilterCons(Tx8, [], p);
  }

  lemma FilterTail7(p: Transaction -> bool)
    ensures Filter([Tx7, Tx8], p) == Keep(Tx7, p) + Keep(Tx8, p)
  {
    assert [Tx7, Tx8] == [Tx7] + [Tx8];
    FilterTail8(p);
    FilterCons(Tx7, [Tx8], p);
  }

  lemma FilterTail6(p: Transaction -> bool)
    ensures Filter([Tx6, Tx7, Tx8], p) == Keep(Tx6, p) + (Keep(Tx7, p) + Keep(Tx8, p))
  {
    assert [Tx6, Tx7, Tx8] == [Tx6] + [Tx7, Tx8];
    FilterTail7(p);
    FilterCons(Tx6, [Tx7, Tx8], p);
  }

  lemma FilterTail5(p: Transaction -> bool)
    ensures Filter([Tx5, Tx6, Tx7, Tx8], p) == Keep(Tx5, p) + (Keep(Tx6, p) + (Keep(Tx7, p) + Keep(Tx8, p)))
  {
    assert [Tx5, Tx6, Tx7, Tx8] == [Tx5] + [Tx6, Tx7, Tx8];
    FilterTail6(p);
    FilterCons(Tx5, [Tx6, Tx7, Tx8], p);
  }

  lemma FilterTail4(p: Transaction -> bool)
    ensures Filter([Tx4, Tx5, Tx6, Tx7, Tx8], p) == Keep(Tx4, p) + (Keep(Tx5, p) + (Keep(Tx6, p) + (Keep(Tx7, p) + Keep(Tx8, p))))
  {
    assert [Tx4, Tx5, Tx6, Tx7, Tx8] == [Tx4] + [Tx5, Tx6, Tx7, Tx8];
    FilterTail5(p);
    FilterCons(Tx4, [Tx5, Tx6, Tx7, Tx8], p);
  }

  lemma FilterTail3(p: Transaction -> bool)
    ensures Filter([Tx3, Tx4, Tx5, Tx6, Tx7, Tx8], p) == Keep(Tx3, p) + (Keep(Tx4, p) + (Keep(Tx5, p) + (Keep(Tx6, p) + (Keep(Tx7, p) + Keep(Tx8, p)))))
  {
    assert [Tx3, Tx4, Tx5, Tx6, Tx7, Tx8] == [Tx3] + [Tx4, Tx5, Tx6, Tx7, Tx8];
    FilterTail4(p);
    FilterCons(Tx3, [Tx4, Tx5, Tx6, Tx7, Tx8], p);
  }

  lemma FilterTail2(p: Transaction -> bool)
    ensures Filter([Tx2, Tx3, Tx4, Tx5, Tx6, Tx7, Tx8], p) == Keep(Tx2, p) + (Keep(Tx3, p) + (Keep(Tx4, p) + (Keep(Tx5, p) + (Keep(Tx6, p) + (Keep(Tx7, p) + Keep(Tx8, p))))))
  {
    assert [Tx2, Tx3, Tx4, Tx5, Tx6, Tx7, Tx8] == [Tx2] + [Tx3, Tx4, Tx5, Tx6, Tx7, Tx8];
    FilterTail3(p);
    FilterCons(Tx2, [Tx3, Tx4, Tx5, Tx6, Tx7, Tx8], p);
  }

  /** Any filter of the sample, one transaction at a time. */
  lemma FilterSample(p: Transaction -> bool)
    ensures Filter(SampleTransactions(), p) == Keep(Tx1, p) + (Keep(Tx2, p) + (Keep(Tx3, p) + (Keep(Tx4, p) + (Keep(Tx5, p) + (Keep(Tx6, p) + (Keep(Tx7, p) + Keep(Tx8, p)))))))
  {
    assert [Tx1, Tx2, Tx3, Tx4, Tx5, Tx6, Tx7, Tx8] == [Tx1] + [Tx2, Tx3, Tx4, Tx5, Tx6, Tx7, Tx8];
    FilterTail2(p);
    FilterCons(Tx1, [Tx2, Tx3, Tx4, Tx5, Tx6, Tx7, Tx8], p);
  }

  /** The trailing sample transactions `Tx<k>` .. `Tx8`, sorted newest first. */
  lemma SortTail8()
    ensures SortByDate([Tx8]) == [Tx8]
  {
    assert [Tx8] == [Tx8] + [];
    SortCons(Tx8, []);
  }

  lemma SortTail7()
    ensures SortByDate([Tx7, Tx8]) == [Tx7, Tx8]
  {
    assert [Tx7, Tx8] == [Tx7] + [Tx8];
    SortTail8();
    SortCons(Tx7, [Tx8]);
    InsertAfterNewer(Tx7, [], [Tx8]);
  }

  lemma SortTail6()
    ensures SortByDate([Tx6, Tx7, Tx8]) == [Tx6, Tx7, Tx8]
  {
    assert [Tx6, Tx7, Tx8] == [Tx6] + [Tx7, Tx8];
    SortTail7();
    SortCons(Tx6, [Tx7, Tx8]);
    InsertAfterNewer(Tx6, [], [Tx7, Tx8]);
  }

  lemma SortTail5()
    ensures SortByDate([Tx5, Tx6, Tx7, Tx8]) == [Tx6, Tx5, Tx7, Tx8]
  {
    assert [Tx5, Tx6, Tx7, Tx8] == [Tx5] + [Tx6, Tx7, Tx8];
    assert [Tx6, Tx7, Tx8] == [Tx6] + [Tx7, Tx8];
    assert [Tx6] + [Tx5] + [Tx7, Tx8] == [Tx6, Tx5, Tx7, Tx8];
    SortTail6();
    SortCons(Tx5, [Tx6, Tx7, Tx8]);
    InsertAfterNewer(Tx5, [Tx6], [Tx7, Tx8]);
  }

  lemma SortTail4()
    ensures SortByDate([Tx4, Tx5, Tx6, Tx7, Tx8]) == [Tx6, Tx4, Tx5, Tx7, Tx8]
  {
    assert [Tx4, Tx5, Tx6, Tx7, Tx8] == [Tx4] + [Tx5, Tx6, Tx7, Tx8];
    assert [Tx6, Tx5, Tx7, Tx8] == [Tx6] + [Tx5, Tx7, Tx8];
    assert [Tx6] + [Tx4] + [Tx5, Tx7, Tx8] == [Tx6, Tx4, Tx5, Tx7, Tx8];
    SortTail5();
    SortCons(Tx4, [Tx5, Tx6, Tx7, Tx8]);
    InsertAfterNewer(Tx4, [Tx6], [Tx5, Tx7, Tx8]);
  }

  lemma SortTail3()
    ensures SortByDate([Tx3, Tx4, Tx5, Tx6, Tx7, Tx8]) == [Tx6, Tx3, Tx4, Tx5, Tx7, Tx8]
  {
    assert [Tx3, Tx4, Tx5, Tx6, Tx7, Tx8] == [Tx3] + [Tx4, Tx5, Tx6, Tx7, Tx8];
    assert [Tx6, Tx4, Tx5, Tx7, Tx8] == [Tx6] + [Tx4, Tx5, Tx7, Tx8];
    assert [Tx6] + [Tx3] + [Tx4, Tx5, Tx7, Tx8] == [Tx6, Tx3, Tx4, Tx5, Tx7, Tx8];
    SortTail4();
    SortCons(Tx3, [Tx4, Tx5, Tx6, Tx7, Tx8]);
    InsertAfterNewer(Tx3, [Tx6], [Tx4, Tx5, Tx7, Tx8]);
  }

  lemma SortTail2()
    ensures SortByDate([Tx2, Tx3, Tx4, Tx5, Tx6, Tx7, Tx8]) == [Tx6, Tx2, Tx3, Tx4, Tx5, Tx7, Tx8]
  {
    assert [Tx2, Tx3, Tx4, Tx5, Tx6, Tx7, Tx8] == [Tx2] + [Tx3, Tx4, Tx5, Tx6, Tx7, Tx8];
    assert [Tx6, Tx3, Tx4, Tx5, Tx7, Tx8] == [Tx6] + [Tx3, Tx4, Tx5, Tx7, Tx8];
    assert [Tx6] + [Tx2] + [Tx3, Tx4, Tx5, Tx7, Tx8] == [Tx6, Tx2, Tx3, Tx4, Tx5, Tx7, Tx8];
    SortTail3();
    SortCons(Tx2, [Tx3, Tx4, Tx5, Tx6, Tx7, Tx8]);
    InsertAfterNewer(Tx2, [Tx6], [Tx3, Tx4, Tx5, Tx7, Tx8]);
  }

  lemma SortTail1()
    ensures SortByDate([Tx1, Tx2, Tx3, Tx4, Tx5, Tx6, Tx7, Tx8]) == [Tx6, Tx2, Tx1, Tx3, Tx4, Tx5, Tx7, Tx8]
  {
    assert [Tx1, Tx2, Tx3, Tx4, Tx5, Tx6, Tx7, Tx8] == [Tx1] + [Tx2, Tx3, Tx4, Tx5, Tx6, Tx7, Tx8];
    assert [Tx6, Tx2, Tx3, Tx4, Tx5, Tx7, Tx8] == [Tx6, Tx2] + [Tx3, Tx4, Tx5, Tx7, Tx8];
    assert [Tx6, Tx2] + [Tx1] + [Tx3, Tx4, Tx5, Tx7, Tx8] == [Tx6, Tx2, Tx1, Tx3, Tx4, Tx5, Tx7, Tx8];
    SortTail2();
    SortCons(Tx1, [Tx2, Tx3, Tx4, Tx5, Tx6, Tx7, Tx8]);
    InsertAfterNewer(Tx1, [Tx6, Tx2], [Tx3, Tx4, Tx5, Tx7, Tx8]);
  }

  /** The sample sorted newest first. */
  lemma SortSample()
    ensures SortByDate(SampleTransactions()) == [Tx6, Tx2, Tx1, Tx3, Tx4, Tx5, Tx7, Tx8]
  {
    SortTail1();
  }
  /** The amount `t` contributes to a sum over the transactions passing `p`. */
  function Share(t: Transaction, p: Transaction -> bool): int {
    if p(t) then t.amount else 0
  }

  lemma SumKeep(t: Transaction, p: Transaction -> bool)
    ensures SumAmounts(Keep(t, p)) == Share(t, p)
  {
  }

  /** The sum over any filter of the sample, one transaction at a time. */
  lemma SumSample(p: Transaction -> bool)
    ensures SumAmounts(Filter(SampleTransactions(), p))
         == Share(Tx1, p) + Share(Tx2, p) + Share(Tx3, p) + Share(Tx4, p)
          + Share(Tx5, p) + Share(Tx6, p) + Share(Tx7, p) + Share(Tx8, p)
  {
    FilterSample(p);
    SumKeep(Tx1, p); SumKeep(Tx2, p); SumKeep(Tx3, p); SumKeep(Tx4, p);
    SumKeep(Tx5, p); SumKeep(Tx6, p); SumKeep(Tx7, p); SumKeep(Tx8, p);
    SumConcat(Keep(Tx1, p), Keep(Tx2, p) + (Keep(Tx3, p) + (Keep(Tx4, p) + (Keep(Tx5, p) + (Keep(Tx6, p) + (Keep(Tx7, p) + (Keep(Tx8, p))))))));
    SumConcat(Keep(Tx2, p), Keep(Tx3, p) + (Keep(Tx4, p) + (Keep(Tx5, p) + (Keep(Tx6, p) + (Keep(Tx7, p) + (Keep(Tx8, p)))))));
    SumConcat(Keep(Tx3, p), Keep(Tx4, p) + (Keep(Tx5, p) + (Keep(Tx6, p) + (Keep(Tx7, p) + (Keep(Tx8, p))))));
    SumConcat(Keep(Tx4, p), Keep(Tx5, p) + (Keep(Tx6, p) + (Keep(Tx7, p) + (Keep(Tx8, p)))));
    SumConcat(Keep(Tx5, p), Keep(Tx6, p) + (Keep(Tx7, p) + (Keep(Tx8, p))));
    SumConcat(Keep(Tx6, p), Keep(Tx7, p) + (Keep(Tx8, p)));
    SumConcat(Keep(Tx7, p), Keep(Tx8, p));
  }

  lemma IdsOfSortedSample()
    ensures Ids([Tx6, Tx2, Tx1, Tx3, Tx4, Tx5, Tx7, Tx8]) == ["6", "2", "1", "3", "4", "5", "7", "8"]
  {
  }

  lemma SampleAllVisible()
    ensures Visible(SampleTransactions(), All, "") == [Tx6, Tx2, Tx1, Tx3, Tx4, Tx5, Tx7, Tx8]
  {
    VisibleAllEmptyQuery(SampleTransactions());
    SortSample();
  }

  lemma SampleStats()
    ensures Stats(SampleTransactions()) == Summary(185050, 26098, 158952)
  {
    SumSample(IsReceived);
    SumSample(IsSent);
  }

  /** The first render: all eight, newest ("6") first and oldest ("8") last,
      with $1850.50 received, $260.98 sent and $1589.52 net. */
  lemma SampleAll()
    ensures Ids(Visible(SampleTransactions(), All, "")) == ["6", "2", "1", "3", "4", "5", "7", "8"]
    ensures Stats(Visible(SampleTransactions(), All, "")) == Summary(185050, 26098, 158952)
  {
    SampleAllVisible();
    IdsOfSortedSample();
    VisibleAllEmptyQuery(SampleTransactions());
    StatsPermutation(Visible(SampleTransactions(), All, ""), SampleTransactions());
    SampleStats();
  }

  /** The transactions of the "PayPal" tab, in sample order. */
  lemma PayPalTab()
    ensures Filter(SampleTransactions(), AppPredicate(Only(PayPal))) == [Tx1, Tx7]
  {
    var p := AppPredicate(Only(PayPal));
    assert Keep(Tx1, p) == [Tx1] && Keep(Tx7, p) == [Tx7];
    assert Keep(Tx2, p) == [] && Keep(Tx3, p) == [] && Keep(Tx4, p) == [];
    assert Keep(Tx5, p) == [] && Keep(Tx6, p) == [] && Keep(Tx8, p) == [];
    FilterSample(p);
  }

  /** The empty search keeps both. */
  lemma PayPalPassing()
    ensures Filter(Filter(SampleTransactions(), AppPredicate(Only(PayPal))), QueryPredicate("")) == [Tx1, Tx7]
  {
    assert [Tx1, Tx7] == [Tx1] + [Tx7] && [Tx7] == [Tx7] + [];
    PayPalTab();
    EmptyQueryMatches(Tx1);
    EmptyQueryMatches(Tx7);
    FilterCons(Tx1, [Tx7], QueryPredicate(""));
    FilterCons(Tx7, [], QueryPredicate(""));
  }

  lemma PayPalVisible()
    ensures Visible(SampleTransactions(), Only(PayPal), "") == [Tx1, Tx7]
  {
    assert [Tx7] == [Tx7] + [];
    PayPalPassing();
    SortCons(Tx1, [Tx7]);
    SortCons(Tx7, []);
  }

  lemma PayPalStats()
    ensures Stats([Tx1, Tx7]) == Summary(12550, 9999, 2551)
  {
    assert [Tx1, Tx7] == [Tx1] + [Tx7];
    StatsConcat([Tx1], [Tx7]);
    StatsSingle(Tx1);
    StatsSingle(Tx7);
  }

  /** The "PayPal" tab: "1" then "7", with $125.50 received, $99.99 sent
      and $25.51 net. */
  lemma SamplePayPal()
    ensures Ids(Visible(SampleTransactions(), Only(PayPal), "")) == ["1", "7"]
    ensures Stats(Visible(SampleTransactions(), Only(PayPal), "")) == Summary(12550, 9999, 2551)
  {
    PayPalVisible();
    PayPalStats();
  }

  lemma LowerCoffee()
    ensures Lower("coffee") == "coffee"
  {
  }

  lemma LowerCapitalCoffee()
    ensures Lower("Coffee") == "coffee"
  {
  }

  /** "Coffee Shop" starts with "coffee", ignoring case. */
  lemma CoffeeMatches()
    ensures MatchesQuery("coffee", Tx6)
  {
    LowerCoffee();
    LowerCapitalCoffee();
    LowerPrefix("Coffee", "Coffee Shop");
  }

  /** Neither `f` nor `F` occurs in `s`. */
  predicate LacksF(s: string) {
    forall i :: 0 <= i < |s| ==> s[i] != 'f' && s[i] != 'F'
  }

  /** A transaction whose recipient and description lack the letter 'f' in
      either case cannot match the search "coffee". */
  lemma CoffeeMisses(t: Transaction)
    requires LacksF(t.recipient) && LacksF(t.description)
    ensures !MatchesQuery("coffee", t)
  {
    LowerCoffee();
    LowerLacks(t.recipient, 'f');
    LowerLacks(t.description, 'f');
    MissingCharNotIncluded(Lower(t.recipient), "coffee", 'f');
    MissingCharNotIncluded(Lower(t.description), "coffee", 'f');
  }

  // The three steps below are written out once per sample transaction: a
  // fact about one named transaction keeps each proof small, while one
  // lemma over all eight would make the verifier expand every string at once.

  lemma NoFInTx1()
    ensures LacksF(Tx1.recipient) && LacksF(Tx1.description)
  {
  }

  lemma CoffeeMissesTx1()
    ensures !MatchesQuery("coffee", Tx1)
  {
    NoFInTx1();
    CoffeeMisses(Tx1);
  }

  lemma NoFInTx2()
    ensures LacksF(Tx2.recipient) && LacksF(Tx2.description)
  {
  }

  lemma CoffeeMissesTx2()
    ensures !MatchesQuery("coffee", Tx2)
  {
    NoFInTx2();
    CoffeeMisses(Tx2);
  }

  lemma NoFInTx3()
    ensures LacksF(Tx3.recipient) && LacksF(Tx3.description)
  {
  }

  lemma CoffeeMissesTx3()
    ensures !MatchesQuery("coffee", Tx3)
  {
    NoFInTx3();
    CoffeeMisses(Tx3);
  }

  lemma NoFInTx4()
    ensures LacksF(Tx4.recipient) && LacksF(Tx4.description)
  {
  }

  lemma CoffeeMissesTx4()
    ensures !MatchesQuery("coffee", Tx4)
  {
    NoFInTx4();
    CoffeeMisses(Tx4);
  }

  lemma NoFInTx5()
    ensures LacksF(Tx5.recipient) && LacksF(Tx5.description)
  {
  }

  lemma CoffeeMissesTx5()
    ensures !MatchesQuery("coffee", Tx5)
  {
    NoFInTx5();
    CoffeeMisses(Tx5);
  }

  lemma NoFInTx7()
    ensures LacksF(Tx7.recipient) && LacksF(Tx7.description)
  {
  }

  lemma CoffeeMissesTx7()
    ensures !MatchesQuery("coffee", Tx7)
  {
    NoFInTx7();
    CoffeeMisses(Tx7);
  }

  lemma NoFInTx8()
    ensures LacksF(Tx8.recipient) && LacksF(Tx8.description)
  {
  }

  lemma CoffeeMissesTx8()
    ensures !MatchesQuery("coffee", Tx8)
  {
    NoFInTx8();
    CoffeeMisses(Tx8);
  }

  lemma CoffeeKeep1()
    ensures Keep(Tx1, QueryPredicate("coffee")) == []
  {
    CoffeeMissesTx1();
  }

  lemma CoffeeKeep2()
    ensures Keep(Tx2, QueryPredicate("coffee")) == []
  {
    CoffeeMissesTx2();
  }

  lemma CoffeeKeep3()
    ensures Keep(Tx3, QueryPredicate("coffee")) == []
  {
    CoffeeMissesTx3();
  }

  lemma CoffeeKeep4()
    ensures Keep(Tx4, QueryPredicate("coffee")) == []
  {
    CoffeeMissesTx4();
  }

  lemma CoffeeKeep5()
    ensures Keep(Tx5, QueryPredicate("coffee")) == []
  {
    CoffeeMissesTx5();
  }

  lemma CoffeeKeep7()
    ensures Keep(Tx7, QueryPredicate("coffee")) == []
  {
    CoffeeMissesTx7();
  }

  lemma CoffeeKeep8()
    ensures Keep(Tx8, QueryPredicate("coffee")) == []
  {
    CoffeeMissesTx8();
  }

  lemma CoffeeKeep6()
    ensures Keep(Tx6, QueryPredicate("coffee")) == [Tx6]
  {
    CoffeeMatches();
  }

  /** Of the sample, only the coffee-shop payment matches "coffee". */
  lemma CoffeeSearch()
    ensures Filter(SampleTransactions(), QueryPredicate("coffee")) == [Tx6]
  {
    FilterSample(QueryPredicate("coffee"));
    CoffeeKeep1(); CoffeeKeep2(); CoffeeKeep3(); CoffeeKeep4();
    CoffeeKeep5(); CoffeeKeep6(); CoffeeKeep7(); CoffeeKeep8();
  }

  /** Searching "coffee" under "All" finds only "6". */
  lemma SampleCoffee()
    ensures Ids(Visible(SampleTransactions(), All, "coffee")) == ["6"]
  {
    AllTabKeepsAll(SampleTransactions());
    CoffeeSearch();
    SortCons(Tx6, []);
    assert [Tx6] == [Tx6] + [];
  }
}
