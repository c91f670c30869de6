/** The pure helpers of the dashboard page: the five most recent transactions,
    the portfolio total, the greeting for the hour of day, and the first name
    shown in the heading. The clock and the signed-in user come in as parameters. */
module Dashboard {
  import opened BankData
  import opened Ledger

  /** How many transactions the "Recent Transactions" card lists. */
  const RecentCount := 5

  /** `[...transactions].sort(newest first).slice(0, 5)`. */
  function RecentTransactions(ledger: seq<Transaction>): (r: seq<Transaction>)
    ensures |r| == if |ledger| < RecentCount then |ledger| else RecentCount
    ensures r == SortNewestFirst(ledger)[..|r|]
    ensures NewestFirst(r)
    ensures multiset(r) <= multiset(ledger)
    ensures forall x, y :: x in r && y in multiset(ledger) - multiset(r) ==> y.date.time <= x.date.time
  {
    var sorted := SortNewestFirst(ledger);
    var n := if |sorted| < RecentCount then |sorted| else RecentCount;
    assert |sorted| == |multiset(sorted)| == |multiset(ledger)| == |ledger|;
    HeadOfNewestFirst(sorted, n);
    sorted[..n]
  }

  /** The first n of a newest-first list are newest first, and none of the
      remaining ones is newer than any of them. */
  lemma {:induction false} HeadOfNewestFirst(s: seq<Transaction>, n: nat)
    requires NewestFirst(s) && n <= |s|
    ensures NewestFirst(s[..n])
    ensures multiset(s[..n]) <= multiset(s)
    ensures multiset(s) - multiset(s[..n]) == multiset(s[n..])
    ensures forall x, y :: x in s[..n] && y in s[n..] ==> y.date.time <= x.date.time
  {
    assert s == s[..n] + s[n..];
    assert multiset(s) == multiset(s[..n]) + multiset(s[n..]);
    forall x, y | x in s[..n] && y in s[n..] ensures y.date.time <= x.date.time {
      var i :| 0 <= i < n && s[..n][i] == x;
      var j :| 0 <= j < |s[n..]| && s[n..][j] == y;
      assert s[i] == x && s[n + j] == y;
    }
  }

  /** The portfolio card adds the four account balances. */
  function TotalBalance(accounts: Accounts): (total: Cents)
    ensures total == SumBalances(AccountList(accounts))
  {
    var l := AccountList(accounts);
    assert SumBalances(l[3..]) == accounts.ira2023.balance + SumBalances([]);
    assert SumBalances(l[2..]) == accounts.ira2024.balance + SumBalances(l[3..]);
    assert SumBalances(l[1..]) == accounts.savings.balance + SumBalances(l[2..]);
    accounts.checking.balance + accounts.savings.balance + accounts.ira2024.balance + accounts.ira2023.balance
  }

  /** The accounts in the order the dashboard shows their cards. */
  function AccountList(accounts: Accounts): seq<Account> {
    [accounts.checking, accounts.savings, accounts.ira2024, accounts.ira2023]
  }

  function SumBalances(s: seq<Account>): Cents {
    if s == [] then 0 else s[0].balance + SumBalances(s[1..])
  }

  /** `getGreeting`, with the hour of the local clock as a parameter. */
  function Greeting(hour: int): (g: string)
    ensures g == "Good morning" <==> hour < 12
    ensures g == "Good afternoon" <==> 12 <= hour < 18
    ensures g == "Good evening" <==> 18 <= hour
  {
    if hour < 12 then "Good morning"
    else if hour < 18 then "Good afternoon"
    else "Good evening"
  }

  /** The part of the signed-in user the heading reads. */
  datatype User = User(name: Option<string>)

  /** `name.split(' ')[0]`: the text before the first space, or all of it. */
  function FirstToken(name: string): (r: string)
    ensures |r| <= |name| && name[..|r|] == r
    ensures ' ' !in r
    ensures |r| == |name| || name[|r|] == ' '
  {
    if name == [] || name[0] == ' ' then ""
    else [name[0]] + FirstToken(name[1..])
  }

  /** FirstToken is the only prefix without a space that ends at a space or at the end. */
  lemma {:induction false} FirstTokenUnique(name: string, p: string)
    requires |p| <= |name| && name[..|p|] == p
    requires ' ' !in p
    requires |p| == |name| || name[|p|] == ' '
    ensures p == FirstToken(name)
  {
    if p != [] {
      assert p[0] == name[0] && p[0] in p;
      FirstTokenUnique(name[1..], p[1..]);
    }
  }

  /** The name in the heading: `user?.name?.split(' ')[0] || 'Annie'`. */
  function FirstName(user: Option<User>): (r: string)
    ensures r != [] && ' ' !in r
    ensures user.None? || user.value.name.None? ==> r == "Annie"
    ensures user.Some? && user.value.name.Some? ==>
              var name := user.value.name.value;
              if name == [] || name[0] == ' ' then r == "Annie" else r == FirstToken(name)
  {
    var token := if user.Some? && user.value.name.Some? then FirstToken(user.value.name.value) else "";
    if token == "" then "Annie" else token
  }
}
