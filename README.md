# Payment tracker: the derived view, in Dafny

This project models the logic of the payment tracker's single page
(`app/page.tsx`). The page holds a fixed list of transactions from six
payment apps (PayPal, Venmo, Cash App, Stripe, Zelle, Apple Pay). It also
holds two pieces of user state: the selected app tab ("All" or one app)
and a search text. From these it derives:

- the visible list: keep the transactions of the selected app, then those
  whose recipient or description contains the search text (ignoring
  case), then sort them newest first;
- three summary cards over the visible list: money received, money sent,
  and the net (received minus sent).

Modules, one per file:

- `Text` (`text.dfy`): lower-casing; substring search, tied to a
  reference definition of "occurs somewhere".
- `Seqs` (`seqs.dfy`): the array filter and its laws.
- `Transactions` (`transactions.dfy`): the transaction record and its
  enumerations.
- `DateSort` (`datesort.dfy`): the stable newest-first sort. It is proved
  sorted, a permutation and stable, and it is proved to be the only list
  with those three properties.
- `Ledger` (`ledger.dfy`): the two filters, the visible list, the summary
  totals, and the held state with its two setters.
- `Samples` (`samples.dfy`): the eight seed transactions, and what the
  page shows for them under three settings.

The source is written as pure expressions. `filter` returns a new array;
`sort` reorders that fresh array in place, so the held collection is never
changed; `reduce` folds to a number; and each `useState` setter replaces
one value whole. So the model is made of datatypes, functions and lemmas,
and the sort is a function from the filtered list to its reordering. The held state is
a `View` value whose setters return the updated view.

Representation choices:

- Amounts are integers counting cents.
- A date is any integer timestamp ordered as `Date.getTime()` orders the
  dates (milliseconds, for example); only that order matters to the page.
  The samples use minutes since 2025-10-01 00:00 local time, since all
  eight of their dates fall on whole minutes (lines 35-105).
- `reduce((sum, t) => sum + t.amount, 0)` is a left fold (`FoldAmounts`),
  proved equal to the plain recursive sum.
- `Array.prototype.sort` is stable from ECMAScript 2019 on. It is modelled
  by a stable insertion sort. `DateSort.StableSortIsSortByDate` shows that
  every correct stable descending sort gives the same list.

## Model

| member | source | states |
|---|---|---|
| Transactions.Ids | app/page.tsx:7-16 | the ids of a list, position by position |
| Text.LowerChar | app/page.tsx:119-120 | one character of `toLowerCase`: an ASCII capital becomes its small letter (32 code points on), every other character is kept |
| Text.Lower | app/page.tsx:119-120 | `toLowerCase` keeps the length and maps each character through the ASCII lower-casing |
| Text.LowerIdempotent | app/page.tsx:119-120 | lower-casing twice is lower-casing once |
| Text.LowerHasNoUpper | app/page.tsx:119-120 | no upper-case ASCII letter is left after lower-casing |
| Text.LowerPrefix | app/page.tsx:119-120 | lower-casing keeps the prefix relation |
| Text.LowerLacks | app/page.tsx:119-120 | lower-casing can produce a lower-case letter only from that letter or its capital |
| Text.ContainsTail | app/page.tsx:120-121 | when the query is not a prefix, its occurrences in a text are its occurrences in the text's tail, shifted by one |
| Text.Includes | app/page.tsx:120-121 | `includes` is true exactly when the query occurs at some position of the text |
| Text.MissingCharNotIncluded | app/page.tsx:120-121 | a query with a character the text lacks is not found |
| Text.EmptyIncluded | app/page.tsx:120-121 | the empty query is found in every text |
| Seqs.Filter | app/page.tsx:117-122 | `filter` never makes the list longer |
| Seqs.FilterCount | app/page.tsx:117-122 | `filter` keeps each passing element as often as it occurs, and drops each failing one |
| Seqs.FilterSound | app/page.tsx:117-122 | whatever `filter` keeps was in the input and passes the predicate |
| Seqs.FilterCons | app/page.tsx:117-122 | one step of `filter` on a list with a given first element |
| Seqs.FilterConcat | app/page.tsx:117-122 | `filter` distributes over concatenation |
| Seqs.FilterKeepsAll | app/page.tsx:117 | a filter that every element passes returns the list unchanged |
| Seqs.FilterKeepsNone | app/page.tsx:117 | a filter that no element passes returns the empty list |
| Seqs.FilterFilter | app/page.tsx:116-122 | two filters in a row equal one filter by the conjunction |
| DateSort.Insert | app/page.tsx:123 | inserting into the sorted tail adds one element |
| DateSort.InsertPermutes | app/page.tsx:123 | inserting adds exactly the new element and loses nothing |
| DateSort.SortedCons | app/page.tsx:123 | an element no newer than every element of a newest-first list can go in front of it |
| DateSort.InsertBounded | app/page.tsx:123 | inserting keeps an upper bound on the dates |
| DateSort.InsertSorted | app/page.tsx:123 | inserting into a newest-first list keeps it newest first |
| DateSort.InsertAfterNewer | app/page.tsx:123 | an inserted element goes right after the run of strictly newer elements |
| DateSort.SortByDate | app/page.tsx:123 | the sort keeps the length and returns a list with non-increasing dates |
| DateSort.SortPermutes | app/page.tsx:123 | the sort is a permutation of its input |
| DateSort.InsertKeepsTies | app/page.tsx:123 | among elements of one date, an inserted element stays in front |
| DateSort.SortStable | app/page.tsx:123 | the elements of any one date keep their input order |
| DateSort.SortCons | app/page.tsx:123 | the sort of a list is its sorted tail with the first element inserted |
| DateSort.HeadKeptByItsDate | app/page.tsx:123 | the first element is kept by the filter on its own date |
| DateSort.SortedTiesDetermine | app/page.tsx:123 | two newest-first lists that agree on each date's sub-list are equal |
| DateSort.StableSortIsSortByDate | app/page.tsx:123 | any newest-first arrangement that keeps ties in input order is the model's sort |
| DateSort.SortKeepsSorted | app/page.tsx:123 | a list that is already newest first is left unchanged |
| Ledger.MatchesApp | app/page.tsx:117 | the tab lets a transaction through exactly when the tab is "All" or names the transaction's app |
| Ledger.MatchesQuery | app/page.tsx:118-121 | the search lets a transaction through exactly when the lower-cased query occurs in its lower-cased recipient or in its lower-cased description |
| Ledger.Passes | app/page.tsx:116-122 | a transaction is kept exactly when it has the tab's app (or the tab is "All") and the query occurs in its recipient or description, ignoring case |
| Ledger.QueryIgnoresCase | app/page.tsx:118-122 | two queries that lower-case alike select the same transactions |
| Ledger.QueryLowerAgain | app/page.tsx:118-122 | lower-casing the query beforehand changes nothing |
| Ledger.EmptyQueryMatches | app/page.tsx:118-122 | the empty search matches every transaction |
| Ledger.Visible | app/page.tsx:115-124 | the visible list is never longer than the collection |
| Ledger.FiltersCompose | app/page.tsx:116-122 | the two filters in a row keep exactly the transactions that pass both, in source order |
| Ledger.VisibleSound | app/page.tsx:115-124 | each visible transaction is in the collection, has the selected app unless the tab is "All", and has the lower-cased query occurring in its lower-cased recipient or description |
| Ledger.VisibleCount | app/page.tsx:115-124 | a transaction is visible as often as it occurs in the collection when it passes both filters, and not at all otherwise |
| Ledger.VisiblePermutation | app/page.tsx:115-124 | the visible list is a permutation of the passing transactions |
| Ledger.VisibleSorted | app/page.tsx:123 | the visible list is newest first |
| Ledger.VisibleTiesInSourceOrder | app/page.tsx:115-124 | visible transactions of one date appear in source order |
| Ledger.VisibleIsStableSortOfPassing | app/page.tsx:115-124 | the only newest-first, tie-stable arrangement of the passing transactions is the visible list |
| Ledger.AllTabKeepsAll | app/page.tsx:117 | the "All" tab lets every transaction through |
| Ledger.VisibleAllEmptyQuery | app/page.tsx:115-124 | with "All" and an empty search, all transactions are shown, newest first |
| Ledger.VisibleEmptyIffNonePass | app/page.tsx:201-217 | "No transactions found" shows exactly when no transaction passes both filters |
| Ledger.VisibleNoMatchingApp | app/page.tsx:117 | the tab of an app with no transactions shows an empty list |
| Ledger.FoldAmounts | app/page.tsx:127-132 | the left fold from `acc` is `acc` plus the sum of the amounts |
| Ledger.SumConcat | app/page.tsx:127-132 | the sum of a concatenation is the sum of the sums |
| Ledger.SumRemove | app/page.tsx:127-132 | the sum is one term plus the sum of the rest |
| Ledger.MultisetRemove | app/page.tsx:127-132 | removing matching elements from two permutations of each other leaves permutations |
| Ledger.SumPermutation | app/page.tsx:127-132 | the sum does not depend on the order of the list |
| Ledger.SumSplit | app/page.tsx:127-132 | the received sum plus the sent sum is the sum of all amounts |
| Ledger.Stats | app/page.tsx:126-134 | net equals received minus sent, and received plus sent equals the sum of all visible amounts |
| Ledger.StatsEmpty | app/page.tsx:126-134 | an empty list gives 0 on all three cards |
| Ledger.StatsSingle | app/page.tsx:127-133 | one transaction counts towards received or sent as its type says, and only there |
| Ledger.StatsConcat | app/page.tsx:126-134 | each card's value over two lists put together is the sum of its values over each |
| Ledger.StatsPermutation | app/page.tsx:126-134 | the cards do not depend on the order of the list |
| Ledger.StatsOfVisible | app/page.tsx:115-134 | the sort changes no card: the cards over the visible list equal those over the passing transactions in source order |
| Ledger.StatsNonNegative | app/page.tsx:127-132 | when no amount is negative, received and sent are not negative |
| Ledger.VisibleStatsNonNegative | app/page.tsx:115-132 | when no amount in the collection is negative, no tab and no search makes received or sent negative |
| Ledger.SumNonNegative | app/page.tsx:127-132 | when no amount is negative, the sum is not negative |
| Ledger.StatsNoMatchingApp | app/page.tsx:126-134 | the tab of an app with no transactions shows 0 on all three cards |
| Ledger.View.SetSelectedApp | app/page.tsx:112 | `setSelectedApp` replaces the tab and leaves the collection and the search text alone |
| Ledger.View.SetSearchQuery | app/page.tsx:113 | `setSearchQuery` replaces the search text and leaves the collection and the tab alone |
| Ledger.View.FilteredTransactions | app/page.tsx:115-124 | `filteredTransactions` is newest first and a permutation of the transactions passing the current tab and search |
| Ledger.View.CurrentStats | app/page.tsx:126-134 | `stats` equals the cards over the passing transactions in source order, and its net is received minus sent |
| Ledger.Initial | app/page.tsx:111-113 | the page starts with the full collection, the "All" tab and an empty search |
| Ledger.InitialShowsAll | app/page.tsx:111-124 | the first render shows every transaction, newest first |
| Ledger.SettersCommute | app/page.tsx:111-113 | the two setters act on independent state, and neither changes the collection |
| Ledger.LastSetterWins | app/page.tsx:111-124 | the visible list depends only on the latest value passed to each setter |
| Samples.SampleTransactions | app/page.tsx:27-108 | `sampleTransactions`: the eight seed transactions `Tx1` to `Tx8` in source order, amounts in cents and dates in minutes |
| Samples.SampleIds | app/page.tsx:27-108 | the sample holds the ids 1 to 8 in that order |
| Samples.SampleAmountsNonNegative | app/page.tsx:27-108 | no sample amount is negative |
| Samples.SampleStatsNonNegative | app/page.tsx:27-134 | over the sample, no tab and no search makes received or sent negative |
| Samples.FilterSample | app/page.tsx:27-108 | any filter of the sample, one transaction at a time |
| Samples.SortSample | app/page.tsx:27-108 | the sample sorted newest first is 6, 2, 1, 3, 4, 5, 7, 8 |
| Samples.SumSample | app/page.tsx:27-108 | any filtered sum over the sample, one transaction at a time |
| Samples.SampleAll | app/page.tsx:27-134 | on first render: ids 6, 2, 1, 3, 4, 5, 7, 8; $1850.50 received, $260.98 sent, $1589.52 net |
| Samples.SamplePayPal | app/page.tsx:27-134 | on the PayPal tab: ids 1, 7; $125.50 received, $99.99 sent, $25.51 net |
| Samples.CoffeeMatches | app/page.tsx:78-87 | "Coffee Shop" matches the search "coffee" |
| Samples.CoffeeMisses | app/page.tsx:118-122 | a transaction without the letter f, in either case, in its recipient and description does not match "coffee" |
| Samples.CoffeeSearch | app/page.tsx:27-122 | of the sample, only transaction 6 matches "coffee" |
| Samples.SampleCoffee | app/page.tsx:27-124 | searching "coffee" on the "All" tab shows only transaction 6 |

## Left out

- The JSX markup, the CSS classes and the colour tables (`appColors`, lines 18-25), including the two-letter app badge and the status and amount colours: these are presentation, not logic.
- The colour of the net card (line 164) depends only on `stats.total >= 0`. That sign is a fact about `Stats`, and the styling is not modelled.
- Floating point: amounts are numbers in the source and integers counting cents here. So no rounding in the sums is modelled. Neither is the two-decimal formatting of `toFixed(2)` (lines 156-165 and 249).
- Dates: `new Date(...)` parsing, time zones, and `toLocaleDateString` / `toLocaleTimeString` formatting (lines 252 and 272-275) are left out. A date is an integer timestamp, so an invalid date (`NaN` from `getTime`) cannot be expressed.
- Text.Lower: `toLowerCase` is modelled for ASCII letters only. Other characters are left unchanged, so the full Unicode case mapping (including mappings that change a string's length) is not modelled.
- React itself is left out: `useState`, the re-rendering, and the `useMemo` caching (lines 111-134). The caching cannot change a value, so each derived value is modelled as a function of the state.
- The tab list `paymentApps` (lines 136-144) and the event handlers at lines 175 and 186 are left out. They only call the two setters, and the setters are modelled by `Ledger.View.SetSelectedApp` and `Ledger.View.SetSearchQuery`.
- `app/layout.tsx` (the HTML shell, fonts and metadata) is not part of this model.
- Ledger.StatsNonNegative and Ledger.VisibleStatsNonNegative assume no amount is negative. The source never checks this, and the sample data meets it.
