/**
 * The branch profit-and-loss report (wizard/optical_branch_pl_wizard.py):
 * journal items of the profit-and-loss accounts whose analytic distribution
 * names one of the selected branches' analytic accounts are summed per
 * account; income accounts are shown with the sign flipped, and the report
 * lists income and expense accounts sorted by code with their totals and the
 * net profit.
 */
module BranchPL {
  import opened Wrappers
  import Decimal

  type Id = nat

  datatype AccountType =
    | Income
    | IncomeOther
    | Expense
    | ExpenseDepreciation
    | ExpenseDirectCost
    | OtherType(name: string)  // any balance-sheet or off-balance type

  /** The five account types of the search domain. */
  predicate IsProfitAndLoss(t: AccountType)
  {
    !t.OtherType?
  }

  predicate IsIncomeType(t: AccountType)
  {
    t == Income || t == IncomeOther
  }

  datatype Account = Account(id: Id, name: string, code: string, accountType: AccountType)

  /**
   * A journal item. `distribution` maps analytic account numerals to
   * percentages; the empty map stands for an empty or missing distribution.
   */
  datatype MoveLine = MoveLine(date: int, account: Account, parentPosted: bool, distribution: map<string, int>, balance: int)

  /** The `form` part of the report data. Dates are day numbers. */
  datatype Form = Form(dateFrom: int, dateTo: int, targetMove: string)

  datatype ReportLine = ReportLine(name: string, code: string, amount: int)

  datatype Report = Report(
    incomeLines: seq<ReportLine>,
    expenseLines: seq<ReportLine>,
    totalIncome: int,
    totalExpense: int,
    netProfit: int)

  datatype ReportError = FormMissing | NoAnalyticAccounts

  // ---------------------------------------------------------------------
  // Selecting the journal items
  // ---------------------------------------------------------------------

  /** The search domain of the report. */
  predicate InDomain(l: MoveLine, f: Form)
  {
    && f.dateFrom <= l.date <= f.dateTo
    && l.distribution != map[]
    && IsProfitAndLoss(l.account.accountType)
    && (f.targetMove == "posted" ==> l.parentPosted)
  }

  /** The host's search with that domain, over all journal items in the order it returns them. */
  function Search(ledger: seq<MoveLine>, f: Form): (r: seq<MoveLine>)
    ensures forall l :: l in r <==> l in ledger && InDomain(l, f)
  {
    if ledger == [] then []
    else Search(ledger[..|ledger| - 1], f) + (if InDomain(ledger[|ledger| - 1], f) then [ledger[|ledger| - 1]] else [])
  }

  /** The numerals of the selected branches' analytic accounts (0: a branch without one). */
  function AccountKeys(branchAnalytic: seq<Id>): set<string>
  {
    set a | a in branchAnalytic && a != 0 :: Decimal.DecimalString(a)
  }

  /** The distribution has a key equal to one of the numerals. */
  predicate NamesBranch(l: MoveLine, keys: set<string>)
  {
    exists k | k in keys :: k in l.distribution
  }

  /** The manual filter applied to the searched items. */
  function Kept(lines: seq<MoveLine>, keys: set<string>): (r: seq<MoveLine>)
    ensures forall l :: l in r <==> l in lines && l.distribution != map[] && NamesBranch(l, keys)
  {
    if lines == [] then []
    else
      var l := lines[|lines| - 1];
      Kept(lines[..|lines| - 1], keys) + (if l.distribution != map[] && NamesBranch(l, keys) then [l] else [])
  }

  /** A journal item is kept exactly when it names an account id of a selected branch. */
  lemma KeptNamesSelectedAccount(l: MoveLine, branchAnalytic: seq<Id>)
    ensures NamesBranch(l, AccountKeys(branchAnalytic)) <==>
      exists a :: a in branchAnalytic && a != 0 && Decimal.DecimalString(a) in l.distribution
  {
    var keys := AccountKeys(branchAnalytic);
    if NamesBranch(l, keys) {
      var k :| k in keys && k in l.distribution;
      var a :| a in branchAnalytic && a != 0 && Decimal.DecimalString(a) == k;
    }
  }

  // ---------------------------------------------------------------------
  // Grouping by account
  // ---------------------------------------------------------------------

  /** The accounts of the items, each once, in order of first appearance (the dictionary's order). */
  function Accounts(lines: seq<MoveLine>): seq<Account>
  {
    if lines == [] then []
    else
      var before := Accounts(lines[..|lines| - 1]);
      var a := lines[|lines| - 1].account;
      if a in before then before else before + [a]
  }

  /** The sum of the balances of the items booked on `a`. */
  function AccountSum(lines: seq<MoveLine>, a: Account): int
  {
    if lines == [] then 0
    else
      var l := lines[|lines| - 1];
      AccountSum(lines[..|lines| - 1], a) + (if l.account == a then l.balance else 0)
  }

  /** The sum of the balances of all items. */
  function SumBalance(lines: seq<MoveLine>): int
  {
    if lines == [] then 0 else SumBalance(lines[..|lines| - 1]) + lines[|lines| - 1].balance
  }

  predicate Distinct(accounts: seq<Account>)
  {
    forall i, j :: 0 <= i < j < |accounts| ==> accounts[i] != accounts[j]
  }

  /** Every account of the items appears exactly once, and no other account does. */
  lemma {:induction false} AccountsSpec(lines: seq<MoveLine>)
    ensures Distinct(Accounts(lines))
    ensures forall a :: a in Accounts(lines) <==> exists i :: 0 <= i < |lines| && lines[i].account == a
  {
    if lines != [] {
      var init := lines[..|lines| - 1];
      AccountsSpec(init);
      forall a ensures a in Accounts(lines) <==> exists i :: 0 <= i < |lines| && lines[i].account == a
      {
        if a in Accounts(init) {
          var i :| 0 <= i < |init| && init[i].account == a;
          assert lines[i].account == a;
        }
        if i :| 0 <= i < |lines| && lines[i].account == a {
          if i < |init| {
            assert init[i].account == a;
          }
        }
      }
    }
  }

  /** An account without items sums to zero. */
  lemma {:induction false} AccountSumAbsent(lines: seq<MoveLine>, a: Account)
    requires forall i :: 0 <= i < |lines| ==> lines[i].account != a
    ensures AccountSum(lines, a) == 0
  {
    if lines != [] {
      AccountSumAbsent(lines[..|lines| - 1], a);
    }
  }

  // ---------------------------------------------------------------------
  // Report lines and totals
  // ---------------------------------------------------------------------

  /** The amount shown for an account: the negated balance for income accounts. */
  function Shown(a: Account, lines: seq<MoveLine>): int
  {
    if IsIncomeType(a.accountType) then -AccountSum(lines, a) else AccountSum(lines, a)
  }

  function RowOf(a: Account, lines: seq<MoveLine>): ReportLine
  {
    ReportLine(a.name, a.code, Shown(a, lines))
  }

  /** The report lines of the income (`income` true) or the expense accounts, in the order of `accounts`. */
  function Rows(accounts: seq<Account>, lines: seq<MoveLine>, income: bool): seq<ReportLine>
  {
    if accounts == [] then []
    else
      var a := accounts[|accounts| - 1];
      Rows(accounts[..|accounts| - 1], lines, income) + (if IsIncomeType(a.accountType) == income then [RowOf(a, lines)] else [])
  }

  function SumRows(rows: seq<ReportLine>): int
  {
    if rows == [] then 0 else rows[0].amount + SumRows(rows[1..])
  }

  lemma {:induction false} SumRowsAppend(rows: seq<ReportLine>, r: ReportLine)
    ensures SumRows(rows + [r]) == SumRows(rows) + r.amount
  {
    if rows != [] {
      assert (rows + [r])[1..] == rows[1..] + [r];
      SumRowsAppend(rows[1..], r);
    }
  }

  /**
   * The accounts are partitioned: every account gets exactly one line, in the
   * income list when its type is income or other income and in the expense
   * list otherwise, with the shown amount.
   */
  lemma {:induction false} RowsPartition(accounts: seq<Account>, lines: seq<MoveLine>)
    ensures |Rows(accounts, lines, true)| + |Rows(accounts, lines, false)| == |accounts|
    ensures forall a :: a in accounts && IsIncomeType(a.accountType) ==> RowOf(a, lines) in Rows(accounts, lines, true)
    ensures forall a :: a in accounts && !IsIncomeType(a.accountType) ==> RowOf(a, lines) in Rows(accounts, lines, false)
    ensures forall r :: r in Rows(accounts, lines, true) ==>
      exists a :: a in accounts && IsIncomeType(a.accountType) && r == RowOf(a, lines)
    ensures forall r :: r in Rows(accounts, lines, false) ==>
      exists a :: a in accounts && !IsIncomeType(a.accountType) && r == RowOf(a, lines)
  {
    if accounts != [] {
      var init := accounts[..|accounts| - 1];
      RowsPartition(init, lines);
      assert accounts == init + [accounts[|accounts| - 1]];
    }
  }

  /** The sum of the balances over some accounts. */
  function TotalOver(accounts: seq<Account>, lines: seq<MoveLine>): int
  {
    if accounts == [] then 0
    else TotalOver(accounts[..|accounts| - 1], lines) + AccountSum(lines, accounts[|accounts| - 1])
  }

  /** Income shown minus expense shown is the negated balance over the accounts. */
  lemma {:induction false} ShownDifference(accounts: seq<Account>, lines: seq<MoveLine>)
    ensures SumRows(Rows(accounts, lines, true)) - SumRows(Rows(accounts, lines, false)) == -TotalOver(accounts, lines)
  {
    if accounts != [] {
      var init := accounts[..|accounts| - 1];
      var a := accounts[|accounts| - 1];
      ShownDifference(init, lines);
      assert TotalOver(accounts, lines) == TotalOver(init, lines) + AccountSum(lines, a);
      if IsIncomeType(a.accountType) {
        assert Rows(accounts, lines, true) == Rows(init, lines, true) + [RowOf(a, lines)];
        assert Rows(accounts, lines, false) == Rows(init, lines, false);
        SumRowsAppend(Rows(init, lines, true), RowOf(a, lines));
      } else {
        assert Rows(accounts, lines, false) == Rows(init, lines, false) + [RowOf(a, lines)];
        assert Rows(accounts, lines, true) == Rows(init, lines, true);
        SumRowsAppend(Rows(init, lines, false), RowOf(a, lines));
      }
    }
  }

  /** One more item adds its balance to the total over distinct accounts iff its account is among them. */
  lemma {:induction false} TotalOverSnoc(accounts: seq<Account>, lines: seq<MoveLine>, l: MoveLine)
    requires Distinct(accounts)
    ensures TotalOver(accounts, lines + [l]) == TotalOver(accounts, lines) + (if l.account in accounts then l.balance else 0)
  {
    if accounts != [] {
      var init := accounts[..|accounts| - 1];
      var a := accounts[|accounts| - 1];
      TotalOverSnoc(init, lines, l);
      assert (lines + [l])[..|lines|] == lines;
      assert l.account in accounts <==> l.account in init || l.account == a;
      assert a !in init;
    }
  }

  /** Summing the per-account totals over the grouped accounts gives the sum of all balances. */
  lemma {:induction false} TotalOverAccounts(lines: seq<MoveLine>)
    ensures TotalOver(Accounts(lines), lines) == SumBalance(lines)
  {
    if lines != [] {
      var init := lines[..|lines| - 1];
      var l := lines[|lines| - 1];
      assert lines == init + [l];
      TotalOverAccounts(init);
      AccountsSpec(init);
      TotalOverSnoc(Accounts(init), init, l);
      if l.account !in Accounts(init) {
        var accs := Accounts(init) + [l.account];
        assert accs[..|accs| - 1] == Accounts(init);
        AccountSumAbsent(init, l.account);
      }
    }
  }

  /** The net profit is the negated sum of the balances of all kept items. */
  lemma NetProfitIsNegatedBalance(lines: seq<MoveLine>)
    ensures var accounts := Accounts(lines);
      SumRows(Rows(accounts, lines, true)) - SumRows(Rows(accounts, lines, false)) == -SumBalance(lines)
  {
    ShownDifference(Accounts(lines), lines);
    TotalOverAccounts(lines);
  }

  // ---------------------------------------------------------------------
  // Sorting by account code
  // ---------------------------------------------------------------------

  /** Python's string order: lexicographic by code point. */
  predicate CodeLe(a: string, b: string)
  {
    if a == [] then true
    else if b == [] then false
    else if a[0] != b[0] then a[0] < b[0]
    else CodeLe(a[1..], b[1..])
  }

  lemma {:induction false} CodeLeTotal(a: string, b: string)
    ensures CodeLe(a, b) || CodeLe(b, a)
  {
    if a != [] && b != [] && a[0] == b[0] {
      CodeLeTotal(a[1..], b[1..]);
    }
  }

  lemma {:induction false} CodeLeTransitive(a: string, b: string, c: string)
    requires CodeLe(a, b) && CodeLe(b, c)
    ensures CodeLe(a, c)
  {
    if a != [] && b != [] && c != [] && a[0] == b[0] && b[0] == c[0] {
      CodeLeTransitive(a[1..], b[1..], c[1..]);
    }
  }

  predicate SortedByCode(rows: seq<ReportLine>)
  {
    forall i, j :: 0 <= i < j < |rows| ==> CodeLe(rows[i].code, rows[j].code)
  }

  /** Insert before the first line with a larger or equal code (earlier lines stay first on ties). */
  function Insert(r: ReportLine, rows: seq<ReportLine>): seq<ReportLine>
  {
    if rows == [] then [r]
    else if CodeLe(r.code, rows[0].code) then [r] + rows
    else [rows[0]] + Insert(r, rows[1..])
  }

  /** `sorted(rows, key=lambda x: x['code'])`. */
  function SortByCode(rows: seq<ReportLine>): seq<ReportLine>
  {
    if rows == [] then [] else Insert(rows[0], SortByCode(rows[1..]))
  }

  lemma {:induction false} InsertMultiset(r: ReportLine, rows: seq<ReportLine>)
    ensures multiset(Insert(r, rows)) == multiset(rows) + multiset{r}
    ensures SumRows(Insert(r, rows)) == SumRows(rows) + r.amount
  {
    if rows != [] {
      assert rows == [rows[0]] + rows[1..];
      if CodeLe(r.code, rows[0].code) {
        assert ([r] + rows)[1..] == rows;
      } else {
        InsertMultiset(r, rows[1..]);
        assert ([rows[0]] + Insert(r, rows[1..]))[1..] == Insert(r, rows[1..]);
      }
    }
  }

  /** The first line of a sorted list has the smallest code. */
  lemma HeadIsLeast(rows: seq<ReportLine>, x: ReportLine)
    requires SortedByCode(rows) && rows != [] && x in rows
    ensures CodeLe(rows[0].code, x.code)
  {
    var k :| 0 <= k < |rows| && rows[k] == x;
    if k == 0 {
      CodeLeTotal(x.code, x.code);
    }
  }

  lemma {:induction false} InsertSorted(r: ReportLine, rows: seq<ReportLine>)
    requires SortedByCode(rows)
    ensures SortedByCode(Insert(r, rows))
  {
    if rows != [] {
      var out := Insert(r, rows);
      if CodeLe(r.code, rows[0].code) {
        assert out == [r] + rows;
        forall i, j | 0 <= i < j < |out|
          ensures CodeLe(out[i].code, out[j].code)
        {
          if i == 0 && j > 1 {
            CodeLeTransitive(r.code, rows[0].code, rows[j - 1].code);
          }
        }
      } else {
        var rest := Insert(r, rows[1..]);
        assert out == [rows[0]] + rest;
        InsertSorted(r, rows[1..]);
        InsertMultiset(r, rows[1..]);
        CodeLeTotal(r.code, rows[0].code);
        forall i, j | 0 <= i < j < |out|
          ensures CodeLe(out[i].code, out[j].code)
        {
          if i == 0 {
            var x := rest[j - 1];
            assert x in multiset(rest);
            if x != r {
              assert x in rows[1..];
              HeadIsLeast(rows, x);
            }
          }
        }
      }
    }
  }

  /** The sorted list is sorted by code, holds the same lines and the same total. */
  lemma {:induction false} SortByCodeSpec(rows: seq<ReportLine>)
    ensures SortedByCode(SortByCode(rows))
    ensures multiset(SortByCode(rows)) == multiset(rows)
    ensures SumRows(SortByCode(rows)) == SumRows(rows)
  {
    if rows != [] {
      SortByCodeSpec(rows[1..]);
      InsertSorted(rows[0], SortByCode(rows[1..]));
      InsertMultiset(rows[0], SortByCode(rows[1..]));
      assert rows == [rows[0]] + rows[1..];
    }
  }

  /** One step of the filtering loop: the prefix grows by one item. */
  lemma KeptStep(lines: seq<MoveLine>, i: nat, keys: set<string>)
    requires i < |lines|
    ensures Kept(lines[..i + 1], keys) ==
      Kept(lines[..i], keys) + (if lines[i].distribution != map[] && NamesBranch(lines[i], keys) then [lines[i]] else [])
  {
    assert lines[..i + 1][..i] == lines[..i];
  }

  /** One step of the grouping loop: the prefix grows by one item. */
  lemma GroupStep(lines: seq<MoveLine>, i: nat)
    requires i < |lines|
    ensures Accounts(lines[..i + 1]) ==
      (if lines[i].account in Accounts(lines[..i]) then Accounts(lines[..i]) else Accounts(lines[..i]) + [lines[i].account])
    ensures forall a ::
      AccountSum(lines[..i + 1], a) == AccountSum(lines[..i], a) + (if lines[i].account == a then lines[i].balance else 0)
  {
    assert lines[..i + 1][..i] == lines[..i];
  }

  /** One step of the splitting loop: one more account is placed. */
  lemma SplitStep(accounts: seq<Account>, j: nat, lines: seq<MoveLine>)
    requires j < |accounts|
    ensures Rows(accounts[..j + 1], lines, true) ==
      Rows(accounts[..j], lines, true) + (if IsIncomeType(accounts[j].accountType) then [RowOf(accounts[j], lines)] else [])
    ensures Rows(accounts[..j + 1], lines, false) ==
      Rows(accounts[..j], lines, false) + (if IsIncomeType(accounts[j].accountType) then [] else [RowOf(accounts[j], lines)])
  {
    assert accounts[..j + 1][..j] == accounts[..j];
  }

  // ---------------------------------------------------------------------
  // _get_report_values
  // ---------------------------------------------------------------------

  /** The report values computed from the kept journal items. */
  function ReportOf(kept: seq<MoveLine>): Report
  {
    var accounts := Accounts(kept);
    var income := Rows(accounts, kept, true);
    var expense := Rows(accounts, kept, false);
    Report(SortByCode(income), SortByCode(expense), SumRows(income), SumRows(expense), SumRows(income) - SumRows(expense))
  }

  /** The loop keeping the searched items whose distribution names a selected account. */
  method FilterByDistribution(moveLines: seq<MoveLine>, keys: set<string>) returns (filtered: seq<MoveLine>)
    ensures filtered == Kept(moveLines, keys)
  {
    filtered := [];
    var i := 0;
    while i < |moveLines|
      invariant 0 <= i <= |moveLines|
      invariant filtered == Kept(moveLines[..i], keys)
    {
      KeptStep(moveLines, i, keys);
      var line := moveLines[i];
      if line.distribution != map[] {
        if NamesBranch(line, keys) {
          filtered := filtered + [line];
        }
      }
      i := i + 1;
    }
    assert moveLines[..|moveLines|] == moveLines;
  }

  /**
   * The loop summing balances per account into an insertion-ordered
   * dictionary, modelled as the key order `order` and the map `totals`.
   */
  method GroupByAccount(filtered: seq<MoveLine>) returns (order: seq<Account>, totals: map<Account, int>)
    ensures order == Accounts(filtered)
    ensures forall a :: a in totals <==> a in order
    ensures forall a :: a in totals ==> totals[a] == AccountSum(filtered, a)
  {
    totals := map[];
    order := [];
    var i := 0;
    while i < |filtered|
      invariant 0 <= i <= |filtered|
      invariant order == Accounts(filtered[..i])
      invariant forall a :: a in totals <==> a in order
      invariant forall a :: a in totals ==> totals[a] == AccountSum(filtered[..i], a)
    {
      GroupStep(filtered, i);
      var line := filtered[i];
      ghost var before := totals;
      if line.account !in totals {
        AccountsSpec(filtered[..i]);
        AccountSumAbsent(filtered[..i], line.account);
        totals := totals[line.account := 0];
        order := order + [line.account];
      }
      totals := totals[line.account := totals[line.account] + line.balance];
      forall a | a in totals
        ensures totals[a] == AccountSum(filtered[..i + 1], a)
      {
        if a != line.account {
          assert a in before;
        }
      }
      i := i + 1;
    }
    assert filtered[..|filtered|] == filtered;
  }

  /** The loop placing each account in the income or the expense list and summing each list. */
  method SplitByType(order: seq<Account>, totals: map<Account, int>, ghost filtered: seq<MoveLine>)
    returns (incomeLines: seq<ReportLine>, expenseLines: seq<ReportLine>, totalIncome: int, totalExpense: int)
    requires forall a :: a in order ==> a in totals && totals[a] == AccountSum(filtered, a)
    ensures incomeLines == Rows(order, filtered, true)
    ensures expenseLines == Rows(order, filtered, false)
    ensures totalIncome == SumRows(incomeLines)
    ensures totalExpense == SumRows(expenseLines)
  {
    incomeLines := [];
    expenseLines := [];
    totalIncome := 0;
    totalExpense := 0;
    var j := 0;
    while j < |order|
      invariant 0 <= j <= |order|
      invariant incomeLines == Rows(order[..j], filtered, true)
      invariant expenseLines == Rows(order[..j], filtered, false)
      invariant totalIncome == SumRows(incomeLines)
      invariant totalExpense == SumRows(expenseLines)
    {
      SplitStep(order, j, filtered);
      var account := order[j];
      var balance := totals[account];
      if account.accountType == Income || account.accountType == IncomeOther {
        var amount := -balance;
        totalIncome := totalIncome + amount;
        SumRowsAppend(incomeLines, ReportLine(account.name, account.code, amount));
        incomeLines := incomeLines + [ReportLine(account.name, account.code, amount)];
      } else {
        var amount := balance;
        totalExpense := totalExpense + amount;
        SumRowsAppend(expenseLines, ReportLine(account.name, account.code, amount));
        expenseLines := expenseLines + [ReportLine(account.name, account.code, amount)];
      }
      j := j + 1;
    }
    assert order[..|order|] == order;
  }

  /**
   * `ReportOpticalBranchPL._get_report_values`. `form` is None when the report
   * data carries no form; `branchAnalytic` holds the analytic account of each
   * selected branch; `ledger` are the journal items the search runs over.
   */
  method ReportValues(form: Option<Form>, branchAnalytic: seq<Id>, ledger: seq<MoveLine>)
    returns (r: Result<Report, ReportError>)
    ensures form.None? ==> r == Failure(FormMissing)
    ensures form.Some? && (forall a :: a in branchAnalytic ==> a == 0) ==> r == Failure(NoAnalyticAccounts)
    ensures form.Some? && (exists a :: a in branchAnalytic && a != 0) ==>
      r == Success(ReportOf(Kept(Search(ledger, form.value), AccountKeys(branchAnalytic))))
  {
    if form.None? {
      return Failure(FormMissing);
    }
    if forall a | a in branchAnalytic :: a == 0 {
      return Failure(NoAnalyticAccounts);
    }
    var moveLines := Search(ledger, form.value);
    var filtered := FilterByDistribution(moveLines, AccountKeys(branchAnalytic));
    var order, totals := GroupByAccount(filtered);
    var incomeLines, expenseLines, totalIncome, totalExpense := SplitByType(order, totals, filtered);
    r := Success(Report(SortByCode(incomeLines), SortByCode(expenseLines), totalIncome, totalExpense,
                        totalIncome - totalExpense));
    assert r.value == ReportOf(filtered);
  }

  /**
   * What the report promises, stated on its output: both lists sorted by
   * code, every grouped account listed once, the totals the sums of the listed
   * amounts, and the net profit the negated sum of the balances of the kept
   * items.
   */
  lemma ReportOfSpec(kept: seq<MoveLine>)
    ensures var rep := ReportOf(kept);
      && SortedByCode(rep.incomeLines) && SortedByCode(rep.expenseLines)
      && rep.totalIncome == SumRows(rep.incomeLines)
      && rep.totalExpense == SumRows(rep.expenseLines)
      && |rep.incomeLines| + |rep.expenseLines| == |Accounts(kept)|
      && rep.netProfit == -SumBalance(kept)
  {
    var accounts := Accounts(kept);
    var income := Rows(accounts, kept, true);
    var expense := Rows(accounts, kept, false);
    SortByCodeSpec(income);
    SortByCodeSpec(expense);
    RowsPartition(accounts, kept);
    NetProfitIsNegatedBalance(kept);
    assert |SortByCode(income)| == |multiset(SortByCode(income))|;
    assert |SortByCode(expense)| == |multiset(SortByCode(expense))|;
  }

  /** Each listed line is the shown total of one grouped account of the matching type, and each such account is listed. */
  lemma ReportOfLines(kept: seq<MoveLine>)
    ensures var rep := ReportOf(kept);
      && (forall x :: x in rep.incomeLines <==>
            exists a :: a in Accounts(kept) && IsIncomeType(a.accountType) && x == RowOf(a, kept))
      && (forall x :: x in rep.expenseLines <==>
            exists a :: a in Accounts(kept) && !IsIncomeType(a.accountType) && x == RowOf(a, kept))
  {
    var accounts := Accounts(kept);
    var income := Rows(accounts, kept, true);
    var expense := Rows(accounts, kept, false);
    SortByCodeSpec(income);
    SortByCodeSpec(expense);
    RowsPartition(accounts, kept);
    forall x ensures x in SortByCode(income) <==> x in income {
      assert x in SortByCode(income) <==> x in multiset(SortByCode(income));
    }
    forall x ensures x in SortByCode(expense) <==> x in expense {
      assert x in SortByCode(expense) <==> x in multiset(SortByCode(expense));
    }
  }
}
