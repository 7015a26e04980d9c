/** Expenses (src/controllers/expense.controller.js): an expense is a
    balanced posting of type 'Expense'; the listing sums its debit rows. */
module Expense {
  import opened Common
  import opened LedgerModel
  import opened LedgerService

  /** The body of a create-expense request. */
  datatype ExpenseBody = ExpenseBody(
    companyId: Id,
    description: Option<string>,
    debitAccount: string,
    creditAccount: string,
    amount: int,
    referenceType: Option<string>,
    linkedEntityId: Option<Id>,
    accountId: Option<Id>,
    createdBy: Id)

  /** The call `createExpense` makes: the amount on both sides, type
      'Expense', reference type 'Payments' unless given, no invoice, no date. */
  function ExpensePost(body: ExpenseBody, transactionId: Id): (req: PostRequest)
    ensures req.debitAmount == body.amount && req.creditAmount == body.amount
    ensures req.transactionType == "Expense" && req.transactionId == Some(transactionId)
    ensures req.referenceType == Some(if body.referenceType.Some? then body.referenceType.value else "Payments")
    ensures req.companyId == body.companyId && req.createdBy == body.createdBy
    ensures req.debitAccount == body.debitAccount && req.creditAccount == body.creditAccount
    ensures req.date.None? && req.invoiceId.None?
  {
    PostRequest(Some(transactionId), body.companyId, "Expense",
                Some(if body.referenceType.Some? then body.referenceType.value else "Payments"),
                None, body.description, body.debitAccount, body.amount, body.creditAccount, body.amount,
                body.linkedEntityId, None, body.accountId, body.createdBy)
  }

  /** `createExpense`: always posts, since the same amount is passed as debit
      and credit; `transactionId` is the freshly generated ObjectId. */
  method CreateExpense(ledger: LedgerStore, body: ExpenseBody, transactionId: Id, debitId: Id, creditId: Id, now: int)
    returns (r: Result<seq<LedgerRow>>)
    modifies ledger
    ensures r.Ok? && r == DoubleEntry(ExpensePost(body, transactionId), debitId, creditId, now)
    ensures ledger.rows == old(ledger.rows) + r.value
    ensures r.value[0].transactionType == "Expense" && r.value[1].transactionType == "Expense"
    ensures r.value[0].body.amount == body.amount && r.value[1].body.amount == body.amount
  {
    r := CreateDoubleLedgerEntry(ledger, ExpensePost(body, transactionId), debitId, creditId, now);
  }

  predicate HasTransaction(t: Id, r: LedgerRow)
  {
    r.transactionId == Some(t)
  }

  function WithTransaction(t: Id): LedgerRow -> bool
  {
    r => HasTransaction(t, r)
  }

  /** With a fresh transaction id, the expense's two rows are exactly the
      rows of the ledger that carry it. */
  lemma ExpenseOwnsTransaction(rows: seq<LedgerRow>, body: ExpenseBody, t: Id, debitId: Id, creditId: Id, now: int, pair: seq<LedgerRow>)
    requires forall i :: 0 <= i < |rows| ==> !HasTransaction(t, rows[i])
    requires DoubleEntry(ExpensePost(body, t), debitId, creditId, now) == Ok(pair)
    ensures Filter(rows + pair, WithTransaction(t)) == pair
  {
    ExpenseRowsCarry(body, t, debitId, creditId, now);
    OnlyAppendedCarry(rows, pair, t);
  }

  /** Both rows of an expense carry its transaction id. */
  lemma ExpenseRowsCarry(body: ExpenseBody, t: Id, debitId: Id, creditId: Id, now: int)
    ensures DoubleEntry(ExpensePost(body, t), debitId, creditId, now).Ok?
    ensures var pair := DoubleEntry(ExpensePost(body, t), debitId, creditId, now).value;
      forall i :: 0 <= i < |pair| ==> HasTransaction(t, pair[i])
  {
    var req := ExpensePost(body, t);
    var pair := DoubleEntry(req, debitId, creditId, now).value;
    assert HasTransaction(t, pair[0]) && HasTransaction(t, pair[1]);
  }

  /** Rows appended with transaction `t` to rows without it are exactly the
      rows carrying `t`. */
  lemma OnlyAppendedCarry(rows: seq<LedgerRow>, pair: seq<LedgerRow>, t: Id)
    requires forall i :: 0 <= i < |rows| ==> !HasTransaction(t, rows[i])
    requires forall i :: 0 <= i < |pair| ==> HasTransaction(t, pair[i])
    ensures Filter(rows + pair, WithTransaction(t)) == pair
  {
    FilterAppend(rows, pair, WithTransaction(t));
    FilterNone(rows, WithTransaction(t));
    FilterAll(pair, WithTransaction(t));
  }

  // ---------------------------------------------------------------------
  // The listing.

  /** The query of `getAllExpenses`; the date bounds are the instants the
      day boundaries of `startDate` and `endDate` denote. */
  datatype ExpenseQuery = ExpenseQuery(
    companyId: Option<Id>, from: Option<int>, to: Option<int>, page: Pos, limit: Pos)

  datatype ExpensePage = ExpensePage(
    entries: seq<LedgerRow>, totalRecords: nat, currentPage: nat, totalPages: nat, totalExpenses: int)

  const MissingCompanyMessage := "Missing companyId in query"

  /** The filter: live 'Expense' rows of the company within the bounds. */
  predicate ExpenseMatch(c: Id, from: Option<int>, to: Option<int>, r: LedgerRow)
  {
    && r.companyId == c && r.transactionType == "Expense" && !r.isDeleted
    && (from.None? || r.date >= from.value)
    && (to.None? || r.date <= to.value)
  }

  function MatchOf(c: Id, from: Option<int>, to: Option<int>): LedgerRow -> bool
  {
    r => ExpenseMatch(c, from, to, r)
  }

  function DateOf(r: LedgerRow): int { r.date }

  function DebitAmount(r: LedgerRow): int
  {
    if r.body.Posting? && r.body.entryType == Debit then r.body.amount else 0
  }

  predicate IsDebitRow(r: LedgerRow) { r.body.Posting? && r.body.entryType == Debit }

  function Amount(r: LedgerRow): int { if r.body.Posting? then r.body.amount else 0 }

  /** `getAllExpenses`: 400 without a company (absent or empty); otherwise the page of matching
      rows, newest first, with the count, page count and debit total. */
  function GetAllExpenses(rows: seq<LedgerRow>, q: ExpenseQuery): (r: Result<ExpensePage>)
    ensures r.Err? <==> q.companyId.None? || q.companyId.value == ""
    ensures r.Err? ==> r == Err(400, MissingCompanyMessage)
    ensures r.Ok? ==> |r.value.entries| <= q.limit
    ensures r.Ok? ==> forall k :: 0 <= k < |r.value.entries| ==>
      ExpenseMatch(q.companyId.value, q.from, q.to, r.value.entries[k])
    ensures r.Ok? ==> SortedDesc(r.value.entries, DateOf)
    ensures r.Ok? ==> r.value.totalRecords == |Filter(rows, MatchOf(q.companyId.value, q.from, q.to))|
    ensures r.Ok? ==>
      IsPage(r.value.entries, SortDesc(Filter(rows, MatchOf(q.companyId.value, q.from, q.to)), DateOf), q.page, q.limit)
    ensures r.Ok? ==> PageCount(r.value.totalPages, r.value.totalRecords, q.limit)
    ensures r.Ok? ==> r.value.totalExpenses == SumOf(r.value.entries, DebitAmount)
  {
    if q.companyId.None? || q.companyId.value == "" then Err(400, MissingCompanyMessage)
    else
      var matches := Filter(rows, MatchOf(q.companyId.value, q.from, q.to));
      var sorted := SortDesc(matches, DateOf);
      var entries := Paginate(sorted, q.page, q.limit);
      SortedPage(matches, q.page, q.limit, q.companyId.value, q.from, q.to);
      Ok(ExpensePage(entries, |matches|, q.page, CeilDiv(|matches|, q.limit), SumOf(entries, DebitAmount)))
  }

  /** No matching row is out of reach: the i-th newest match is item
      i % limit of page i / limit + 1. */
  lemma EveryExpenseListed(rows: seq<LedgerRow>, q: ExpenseQuery, i: nat)
    requires q.companyId.Some? && q.companyId.value != ""
    requires i < |Filter(rows, MatchOf(q.companyId.value, q.from, q.to))| && q.page == i / q.limit + 1
    ensures i % q.limit < |GetAllExpenses(rows, q).value.entries|
    ensures GetAllExpenses(rows, q).value.entries[i % q.limit]
      == SortDesc(Filter(rows, MatchOf(q.companyId.value, q.from, q.to)), DateOf)[i]
  {
    var sorted := SortDesc(Filter(rows, MatchOf(q.companyId.value, q.from, q.to)), DateOf);
    var e := GetAllExpenses(rows, q).value.entries;
    assert IsPage(e, sorted, q.page, q.limit);
    OnPage(e, sorted, i, q.page, q.limit);
  }

  /** The page of the sorted matches holds matching rows in date order. */
  lemma SortedPage(matches: seq<LedgerRow>, page: Pos, limit: Pos, c: Id, from: Option<int>, to: Option<int>)
    requires forall i :: 0 <= i < |matches| ==> ExpenseMatch(c, from, to, matches[i])
    ensures var e := Paginate(SortDesc(matches, DateOf), page, limit);
      SortedDesc(e, DateOf) && forall k :: 0 <= k < |e| ==> ExpenseMatch(c, from, to, e[k])
  {
    var sorted := SortDesc(matches, DateOf);
    SortDescSorted(matches, DateOf);
    PermutationKeeps(matches, sorted, MatchOf(c, from, to));
    SortedPageOf(sorted, DateOf, MatchOf(c, from, to), page, limit);
  }

  /** The expense total counts debit rows only: it is the sum of amounts
      over the listed rows whose entry type is debit. */
  lemma TotalCountsDebitsOnly(rows: seq<LedgerRow>, q: ExpenseQuery)
    requires q.companyId.Some? && q.companyId.value != ""
    ensures var p := GetAllExpenses(rows, q).value;
      p.totalExpenses == SumOf(Filter(p.entries, IsDebitRowFn()), Amount)
  {
    var p := GetAllExpenses(rows, q).value;
    SumOfFilter(p.entries, IsDebitRowFn(), Amount, DebitAmount);
  }

  function IsDebitRowFn(): LedgerRow -> bool { r => IsDebitRow(r) }
}
