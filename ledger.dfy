/** The transaction-history page: the ledger is copied and sorted newest first,
    narrowed by a search text, a type filter and a year filter, and summarised as
    total income, total expenses and their difference. Everything here is a pure
    function of the ledger and the three query inputs. */
module Ledger {
  import opened BankData

  // ---------------------------------------------------------------------------
  // Newest-first ordering
  // ---------------------------------------------------------------------------

  /** Dates never increase along s. */
  predicate NewestFirst(s: seq<Transaction>) {
    forall i, j :: 0 <= i < j < |s| ==> s[i].date.time >= s[j].date.time
  }

  /** The transactions of s dated at instant k, in the order s lists them. */
  function DatedAt(s: seq<Transaction>, k: int): (r: seq<Transaction>)
    ensures forall x :: x in r ==> x in s && x.date.time == k
  {
    if s == [] then []
    else if s[0].date.time == k then [s[0]] + DatedAt(s[1..], k)
    else DatedAt(s[1..], k)
  }

  /** r keeps every group of equally dated transactions of s in the order s has them. */
  ghost predicate KeepsTieOrder(s: seq<Transaction>, r: seq<Transaction>) {
    forall k :: DatedAt(r, k) == DatedAt(s, k)
  }

  /** Puts t in front of the first transaction of s that is not newer than t. */
  function Insert(t: Transaction, s: seq<Transaction>): (r: seq<Transaction>)
    ensures multiset(r) == multiset(s) + multiset{t}
    ensures forall x :: x in r ==> x == t || x in s
    ensures NewestFirst(s) ==> NewestFirst(r)
  {
    if s == [] || s[0].date.time <= t.date.time then [t] + s
    else
      var rest := Insert(t, s[1..]);
      assert NewestFirst(s) ==> forall j :: 0 <= j < |rest| ==> rest[j].date.time <= s[0].date.time by {
        if NewestFirst(s) {
          forall j | 0 <= j < |rest| ensures rest[j].date.time <= s[0].date.time {
            assert rest[j] in rest;
            if rest[j] != t {
              var i :| 0 <= i < |s[1..]| && s[1..][i] == rest[j];
              assert s[i + 1] == rest[j];
            }
          }
        }
      }
      assert s == [s[0]] + s[1..];
      assert NewestFirst(s) ==> NewestFirst([s[0]] + rest) by {
        if NewestFirst(s) {
          NewestFirstCons(s[0], rest);
        }
      }
      [s[0]] + rest
  }

  /** Putting in front a transaction at least as new as every other keeps the order. */
  lemma {:induction false} NewestFirstCons(x: Transaction, s: seq<Transaction>)
    requires NewestFirst(s)
    requires forall j :: 0 <= j < |s| ==> s[j].date.time <= x.date.time
    ensures NewestFirst([x] + s)
  {
    forall i, j | 0 <= i < j < |[x] + s| ensures ([x] + s)[i].date.time >= ([x] + s)[j].date.time {
      if i > 0 {
        assert ([x] + s)[i] == s[i - 1];
      }
      assert ([x] + s)[j] == s[j - 1];
    }
  }

  /** The copy-and-sort of the ledger with the comparator "later date first".
      The comparator returns zero on equal dates and the browser's sort is
      stable, so equally dated transactions keep their ledger order; the lemmas
      below show that this determines the result completely. */
  function SortNewestFirst(s: seq<Transaction>): (r: seq<Transaction>)
    ensures multiset(r) == multiset(s)
    ensures NewestFirst(r)
  {
    if s == [] then []
    else
      assert s == [s[0]] + s[1..];
      Insert(s[0], SortNewestFirst(s[1..]))
  }

  lemma {:induction false} DatedAtInsert(t: Transaction, s: seq<Transaction>, k: int)
    ensures DatedAt(Insert(t, s), k) == (if t.date.time == k then [t] else []) + DatedAt(s, k)
  {
    if s == [] || s[0].date.time <= t.date.time {
      assert ([t] + s)[1..] == s;
    } else {
      DatedAtInsert(t, s[1..], k);
      assert ([s[0]] + Insert(t, s[1..]))[1..] == Insert(t, s[1..]);
    }
  }

  /** The sort is stable: transactions with the same date keep their ledger order. */
  lemma {:induction false} SortKeepsTieOrder(s: seq<Transaction>)
    ensures KeepsTieOrder(s, SortNewestFirst(s))
  {
    forall k ensures DatedAt(SortNewestFirst(s), k) == DatedAt(s, k) {
      SortKeepsTieOrderAt(s, k);
    }
  }

  lemma {:induction false} SortKeepsTieOrderAt(s: seq<Transaction>, k: int)
    ensures DatedAt(SortNewestFirst(s), k) == DatedAt(s, k)
  {
    if s != [] {
      SortKeepsTieOrderAt(s[1..], k);
      DatedAtInsert(s[0], SortNewestFirst(s[1..]), k);
    }
  }

  /** The first transaction of a newest-first list is at least as new as any. */
  lemma {:induction false} HeadIsNewest(s: seq<Transaction>, x: Transaction)
    requires NewestFirst(s) && x in s
    ensures x.date.time <= s[0].date.time
  {
    var i :| 0 <= i < |s| && s[i] == x;
  }

  /** Two newest-first lists with the same transactions on every date start alike. */
  lemma {:induction false} SameTiesSameHead(a: seq<Transaction>, b: seq<Transaction>)
    requires NewestFirst(a) && NewestFirst(b) && a != [] && b != []
    requires forall k :: DatedAt(a, k) == DatedAt(b, k)
    ensures a[0] == b[0]
  {
    var ka, kb := a[0].date.time, b[0].date.time;
    assert DatedAt(a, ka) == [a[0]] + DatedAt(a[1..], ka);
    assert DatedAt(b, kb) == [b[0]] + DatedAt(b[1..], kb);
    assert DatedAt(b, ka)[0] in DatedAt(b, ka);
    HeadIsNewest(b, DatedAt(b, ka)[0]);
    assert DatedAt(a, kb)[0] in DatedAt(a, kb);
    HeadIsNewest(a, DatedAt(a, kb)[0]);
  }

  /** Two newest-first arrangements that agree on the order within every date are equal. */
  lemma {:induction false} NewestFirstDeterminedByTies(a: seq<Transaction>, b: seq<Transaction>)
    requires NewestFirst(a) && NewestFirst(b)
    requires forall k :: DatedAt(a, k) == DatedAt(b, k)
    ensures a == b
  {
    if a != [] {
      assert DatedAt(a, a[0].date.time) != [];
    }
    if b != [] {
      assert DatedAt(b, b[0].date.time) != [];
    }
    assert a == [] <==> b == [];
    if a != [] {
      SameTiesSameHead(a, b);
      forall k ensures DatedAt(a[1..], k) == DatedAt(b[1..], k) {
        assert DatedAt(a, k) == DatedAt(b, k);
        if k == a[0].date.time {
          assert DatedAt(a[1..], k) == DatedAt(a, k)[1..];
          assert DatedAt(b[1..], k) == DatedAt(b, k)[1..];
        }
      }
      NewestFirstDeterminedByTies(a[1..], b[1..]);
      assert a == [a[0]] + a[1..] && b == [b[0]] + b[1..];
    }
  }

  /** Whatever stable algorithm the browser runs, the sorted copy is the one
      SortNewestFirst computes: it is the only newest-first arrangement that keeps
      the ledger order among equal dates. */
  lemma {:induction false} StableSortIsUnique(s: seq<Transaction>, r: seq<Transaction>)
    requires NewestFirst(r)
    requires KeepsTieOrder(s, r)
    ensures r == SortNewestFirst(s)
  {
    SortKeepsTieOrder(s);
    NewestFirstDeterminedByTies(r, SortNewestFirst(s));
  }

  // ---------------------------------------------------------------------------
  // Text matching
  // ---------------------------------------------------------------------------

  /** Lower-cases the ASCII letters and leaves every other character alone. */
  function LowerChar(c: char): char {
    if 'A' <= c <= 'Z' then (c as int - 'A' as int + 'a' as int) as char else c
  }

  function Lower(s: string): string {
    seq(|s|, i requires 0 <= i < |s| => LowerChar(s[i]))
  }

  /** `s.startsWith(p)`. */
  predicate IsPrefix(p: string, s: string) {
    |p| <= |s| && s[..|p|] == p
  }

  /** sub occurs in s starting at position i. */
  predicate OccursAt(sub: string, s: string, i: int)
    requires 0 <= i <= |s|
  {
    IsPrefix(sub, s[i..])
  }

  /** `s.includes(sub)`: sub is a prefix of s or of one of its suffixes. */
  predicate Includes(s: string, sub: string) {
    IsPrefix(sub, s) || (s != [] && Includes(s[1..], sub))
  }

  /** Includes holds exactly when sub occurs at some position of s. */
  lemma {:induction false} IncludesIffOccurs(s: string, sub: string)
    ensures Includes(s, sub) <==> exists i :: 0 <= i <= |s| && OccursAt(sub, s, i)
  {
    if Includes(s, sub) {
      if IsPrefix(sub, s) {
        assert s[0..] == s;
        assert OccursAt(sub, s, 0);
      } else {
        IncludesIffOccurs(s[1..], sub);
        var i :| 0 <= i <= |s[1..]| && OccursAt(sub, s[1..], i);
        assert s[1..][i..] == s[i + 1..];
        assert OccursAt(sub, s, i + 1);
      }
    }
    if exists i :: 0 <= i <= |s| && OccursAt(sub, s, i) {
      var i :| 0 <= i <= |s| && OccursAt(sub, s, i);
      if i == 0 {
        assert s[0..] == s;
      } else {
        assert s[1..][i - 1..] == s[i..];
        assert OccursAt(sub, s[1..], i - 1);
        IncludesIffOccurs(s[1..], sub);
      }
    }
  }

  // ---------------------------------------------------------------------------
  // The query
  // ---------------------------------------------------------------------------

  datatype TypeFilter = AllTypes | Income | Expense
  datatype YearFilter = AllYears | Year(year: string)

  /** The three inputs of the page: search box, type select and year select. */
  datatype Query = Query(searchTerm: string, filterType: TypeFilter, filterYear: YearFilter)

  /** The query the page starts with: empty search, all types, all years. */
  const InitialQuery := Query("", AllTypes, AllYears)

  predicate MatchesSearch(t: Transaction, searchTerm: string) {
    Includes(Lower(t.description), Lower(searchTerm))
  }

  /** Income means strictly positive and expense strictly negative, so a zero
      amount passes only the "all" filter. */
  predicate MatchesType(t: Transaction, filterType: TypeFilter) {
    || filterType == AllTypes
    || (filterType == Income && t.amount > 0)
    || (filterType == Expense && t.amount < 0)
  }

  predicate MatchesYear(t: Transaction, filterYear: YearFilter) {
    filterYear.AllYears? || IsPrefix(filterYear.year, t.date.iso)
  }

  predicate Matches(t: Transaction, q: Query) {
    MatchesSearch(t, q.searchTerm) && MatchesType(t, q.filterType) && MatchesYear(t, q.filterYear)
  }

  /** a can be obtained from b by deleting elements, without reordering. */
  predicate IsSubsequence<T(==)>(a: seq<T>, b: seq<T>) {
    a == [] || (b != [] && if a[0] == b[0] then IsSubsequence(a[1..], b[1..]) else IsSubsequence(a, b[1..]))
  }

  /** The transactions of s that meet all three tests, in the order of s. */
  function FilterTransactions(s: seq<Transaction>, q: Query): (r: seq<Transaction>)
    ensures forall t :: t in r ==> t in s && Matches(t, q)
    ensures forall i :: 0 <= i < |s| && Matches(s[i], q) ==> s[i] in r
  {
    if s == [] then []
    else if Matches(s[0], q) then [s[0]] + FilterTransactions(s[1..], q)
    else FilterTransactions(s[1..], q)
  }

  /** The filtered list keeps the order of the list it was taken from. */
  lemma {:induction false} FilterIsSubsequence(s: seq<Transaction>, q: Query)
    ensures IsSubsequence(FilterTransactions(s, q), s)
  {
    if s != [] {
      FilterIsSubsequence(s[1..], q);
      var rest := FilterTransactions(s[1..], q);
      if Matches(s[0], q) {
        assert ([s[0]] + rest)[1..] == rest;
      } else if rest != [] {
        assert rest[0] in rest;
      }
    }
  }

  /** A newest-first list stays newest first after filtering. */
  lemma {:induction false} FilterKeepsNewestFirst(s: seq<Transaction>, q: Query)
    requires NewestFirst(s)
    ensures NewestFirst(FilterTransactions(s, q))
  {
    if s != [] {
      FilterKeepsNewestFirst(s[1..], q);
      var rest := FilterTransactions(s[1..], q);
      if Matches(s[0], q) {
        forall j | 0 <= j < |rest| ensures rest[j].date.time <= s[0].date.time {
          assert rest[j] in rest;
          var i :| 0 <= i < |s[1..]| && s[1..][i] == rest[j];
          assert s[i + 1] == rest[j];
        }
        NewestFirstCons(s[0], rest);
      }
    }
  }

  /** Filtering distributes over concatenation: each transaction is judged on its own. */
  lemma {:induction false} FilterAppend(a: seq<Transaction>, b: seq<Transaction>, q: Query)
    ensures FilterTransactions(a + b, q) == FilterTransactions(a, q) + FilterTransactions(b, q)
  {
    if a != [] {
      assert (a + b)[0] == a[0] && (a + b)[1..] == a[1..] + b;
      FilterAppend(a[1..], b, q);
      if Matches(a[0], q) {
        calc {
          FilterTransactions(a + b, q);
          [a[0]] + FilterTransactions(a[1..] + b, q);
          [a[0]] + (FilterTransactions(a[1..], q) + FilterTransactions(b, q));
          ([a[0]] + FilterTransactions(a[1..], q)) + FilterTransactions(b, q);
        }
      }
    } else {
      assert a + b == b;
    }
  }

  /** A list whose every transaction meets the query passes through unchanged. */
  lemma {:induction false} FilterKeepsMatching(s: seq<Transaction>, q: Query)
    requires forall t :: t in s ==> Matches(t, q)
    ensures FilterTransactions(s, q) == s
  {
    if s != [] {
      FilterKeepsMatching(s[1..], q);
      assert s == [s[0]] + s[1..];
    }
  }

  /** Applying the same query twice changes nothing. */
  lemma {:induction false} FilterIdempotent(s: seq<Transaction>, q: Query)
    ensures FilterTransactions(FilterTransactions(s, q), q) == FilterTransactions(s, q)
  {
    FilterKeepsMatching(FilterTransactions(s, q), q);
  }

  /** With an empty search text, all types and all years, nothing is filtered out. */
  lemma {:induction false} InitialQueryKeepsAll(s: seq<Transaction>)
    ensures FilterTransactions(s, InitialQuery) == s
  {
    forall t | t in s ensures Matches(t, InitialQuery) {
      assert IsPrefix(Lower(""), Lower(t.description));
    }
    FilterKeepsMatching(s, InitialQuery);
  }

  // ---------------------------------------------------------------------------
  // Totals
  // ---------------------------------------------------------------------------

  /** `filter(t => t.amount > 0)`. */
  function Credits(s: seq<Transaction>): (r: seq<Transaction>)
    ensures forall t :: t in r ==> t in s && t.amount > 0
  {
    if s == [] then []
    else if s[0].amount > 0 then [s[0]] + Credits(s[1..])
    else Credits(s[1..])
  }

  /** `filter(t => t.amount < 0)`. */
  function Debits(s: seq<Transaction>): (r: seq<Transaction>)
    ensures forall t :: t in r ==> t in s && t.amount < 0
  {
    if s == [] then []
    else if s[0].amount < 0 then [s[0]] + Debits(s[1..])
    else Debits(s[1..])
  }

  function Abs(x: int): int {
    if x < 0 then -x else x
  }

  /** `reduce((sum, t) => sum + t.amount, 0)`. */
  function SumAmounts(s: seq<Transaction>): int {
    if s == [] then 0 else s[0].amount + SumAmounts(s[1..])
  }

  /** `reduce((sum, t) => sum + Math.abs(t.amount), 0)`. */
  function SumMagnitudes(s: seq<Transaction>): int {
    if s == [] then 0 else Abs(s[0].amount) + SumMagnitudes(s[1..])
  }

  function TotalIncome(s: seq<Transaction>): Cents {
    SumAmounts(Credits(s))
  }

  function TotalExpenses(s: seq<Transaction>): Cents {
    SumMagnitudes(Debits(s))
  }

  /** The "Net Balance" card. */
  function NetBalance(s: seq<Transaction>): Cents {
    TotalIncome(s) - TotalExpenses(s)
  }

  /** One step of each total: the first transaction adds its amount to income when
      positive, its magnitude to expenses when negative, and nothing when zero. */
  lemma {:induction false} TotalsUnfold(s: seq<Transaction>)
    requires s != []
    ensures TotalIncome(s) == (if s[0].amount > 0 then s[0].amount else 0) + TotalIncome(s[1..])
    ensures TotalExpenses(s) == (if s[0].amount < 0 then -s[0].amount else 0) + TotalExpenses(s[1..])
  {
    if s[0].amount > 0 {
      assert ([s[0]] + Credits(s[1..]))[1..] == Credits(s[1..]);
    }
    if s[0].amount < 0 {
      assert ([s[0]] + Debits(s[1..]))[1..] == Debits(s[1..]);
    }
  }

  /** Both totals are never negative, and both are zero on an empty list. */
  lemma {:induction false} TotalsNonNegative(s: seq<Transaction>)
    ensures TotalIncome(s) >= 0 && TotalExpenses(s) >= 0
    ensures s == [] ==> TotalIncome(s) == 0 && TotalExpenses(s) == 0
  {
    if s != [] {
      TotalsUnfold(s);
      TotalsNonNegative(s[1..]);
    }
  }

  /** The net shown on the page is the plain sum of the listed amounts. */
  lemma {:induction false} NetIsSumOfAmounts(s: seq<Transaction>)
    ensures NetBalance(s) == SumAmounts(s)
  {
    if s != [] {
      TotalsUnfold(s);
      NetIsSumOfAmounts(s[1..]);
    }
  }

  /** A zero-amount transaction is neither income nor expense: the type filters
      drop it and neither total changes when it is added anywhere in a list. */
  lemma {:induction false} ZeroAmountIsNeither(a: seq<Transaction>, t: Transaction, b: seq<Transaction>)
    requires t.amount == 0
    ensures !MatchesType(t, Income) && !MatchesType(t, Expense)
    ensures TotalIncome(a + [t] + b) == TotalIncome(a + b)
    ensures TotalExpenses(a + [t] + b) == TotalExpenses(a + b)
  {
    if a == [] {
      assert a + [t] + b == [t] + b && a + b == b;
      assert ([t] + b)[1..] == b;
      TotalsUnfold([t] + b);
    } else {
      ZeroAmountIsNeither(a[1..], t, b);
      assert (a + [t] + b)[0] == a[0] && (a + [t] + b)[1..] == a[1..] + [t] + b;
      assert (a + b)[0] == a[0] && (a + b)[1..] == a[1..] + b;
      TotalsUnfold(a + [t] + b);
      TotalsUnfold(a + b);
    }
  }

  // ---------------------------------------------------------------------------
  // The page
  // ---------------------------------------------------------------------------

  /** What the page shows: the filtered list, its count, and the three cards. */
  datatype LedgerView = LedgerView(
    transactions: seq<Transaction>,
    totalIncome: Cents,
    totalExpenses: Cents,
    netBalance: Cents)

  function TransactionsPage(ledger: seq<Transaction>, q: Query): (v: LedgerView)
    ensures v.transactions == FilterTransactions(SortNewestFirst(ledger), q)
    ensures v.totalIncome == TotalIncome(v.transactions) && v.totalExpenses == TotalExpenses(v.transactions)
    ensures IsSubsequence(v.transactions, SortNewestFirst(ledger))
    ensures NewestFirst(v.transactions)
    ensures forall t :: t in v.transactions <==> t in ledger && Matches(t, q)
    ensures v.totalIncome >= 0 && v.totalExpenses >= 0
    ensures v.netBalance == v.totalIncome - v.totalExpenses == SumAmounts(v.transactions)
    ensures v.transactions == [] ==> v.totalIncome == 0 && v.totalExpenses == 0 && v.netBalance == 0
  {
    var sorted := SortNewestFirst(ledger);
    var shown := FilterTransactions(sorted, q);
    FilterIsSubsequence(sorted, q);
    FilterKeepsNewestFirst(sorted, q);
    assert forall t :: t in sorted <==> t in ledger by {
      forall t ensures t in sorted <==> t in ledger {
        assert t in sorted <==> t in multiset(sorted);
        assert t in ledger <==> t in multiset(ledger);
      }
    }
    assert forall t :: t in ledger && Matches(t, q) ==> t in shown by {
      forall t | t in ledger && Matches(t, q) ensures t in shown {
        assert t in sorted;
        var i :| 0 <= i < |sorted| && sorted[i] == t;
      }
    }
    TotalsNonNegative(shown);
    NetIsSumOfAmounts(shown);
    LedgerView(shown, TotalIncome(shown), TotalExpenses(shown), NetBalance(shown))
  }

  function Salary(): Transaction {
    Transaction(1, Date("2024-01-05", 1), "Salary", 120000, "completed", "Annie", 0, "income", "cash")
  }
  function Rent(): Transaction {
    Transaction(2, Date("2024-01-10", 2), "Rent", -30000, "completed", "Annie", 0, "housing", "home")
  }
  function Coffee(): Transaction {
    Transaction(3, Date("2024-02-01", 3), "Coffee", -5000, "completed", "Annie", 0, "food", "cup")
  }

  lemma {:induction false} ScenarioSort()
    ensures SortNewestFirst([Salary(), Rent(), Coffee()]) == [Coffee(), Rent(), Salary()]
  {
    assert [Salary(), Rent(), Coffee()][1..] == [Rent(), Coffee()];
    assert [Rent(), Coffee()][1..] == [Coffee()];
    assert SortNewestFirst([Rent(), Coffee()]) == [Coffee(), Rent()];
    assert [Coffee(), Rent()][1..] == [Rent()];
  }

  lemma {:induction false} ScenarioFilter()
    ensures FilterTransactions([Coffee(), Rent(), Salary()], Query("", Expense, Year("2024"))) == [Coffee(), Rent()]
  {
    var q := Query("", Expense, Year("2024"));
    assert Matches(Coffee(), q) by {
      assert IsPrefix(Lower(""), Lower(Coffee().description));
      assert Coffee().date.iso[..4] == "2024";
    }
    assert Matches(Rent(), q) by {
      assert IsPrefix(Lower(""), Lower(Rent().description));
      assert Rent().date.iso[..4] == "2024";
    }
    assert [Coffee(), Rent(), Salary()][1..] == [Rent(), Salary()];
    assert [Rent(), Salary()][1..] == [Salary()];
    assert FilterTransactions([Salary()], q) == [];
  }

  /** Three 2024 transactions, query "expenses of 2024": the two debits remain,
      newest first, and the cards read $0 income, $350 expenses, -$350 net. */
  lemma {:induction false} ScenarioExpensesOf2024()
    ensures
      var v := TransactionsPage([Salary(), Rent(), Coffee()], Query("", Expense, Year("2024")));
      v.transactions == [Coffee(), Rent()] && v.totalIncome == 0 && v.totalExpenses == 35000 && v.netBalance == -35000
  {
    var shown := [Coffee(), Rent()];
    ScenarioSort();
    ScenarioFilter();
    assert shown[1..] == [Rent()];
    assert Debits(shown) == shown;
    assert Credits(shown) == [];
    assert TotalIncome(shown) == 0;
    assert TotalExpenses(shown) == 35000;
  }
}
