/** `createDoubleLedgerEntry` (src/utils/ledgerService.js): a balanced
    posting written as one debit row and one credit row. */
module LedgerService {
  import opened Common
  import opened LedgerModel

  /** The arguments of `createDoubleLedgerEntry`; `None` is an omitted or
      null field. */
  datatype PostRequest = PostRequest(
    transactionId: Option<Id>,
    companyId: Id,
    transactionType: string,
    referenceType: Option<string>,
    date: Option<int>,
    description: Option<string>,
    debitAccount: string,
    debitAmount: int,
    creditAccount: string,
    creditAmount: int,
    linkedEntityId: Option<Id>,
    invoiceId: Option<Id>,
    accountId: Option<Id>,
    createdBy: Id)

  const UnbalancedMessage := "Debit and credit amounts must match for double-entry."

  /** One row of the pair; `date` defaults to the current time. */
  function PostingRow(req: PostRequest, id: Id, now: int, body: RowBody): LedgerRow
  {
    LedgerRow(id, req.companyId, req.transactionId, req.transactionType, req.referenceType,
              if req.date.Some? then req.date.value else now,
              req.description, req.linkedEntityId, req.invoiceId, req.accountId, req.createdBy,
              body, false, None)
  }

  /** The row carries every field of the request that both rows share, and
      is live. */
  predicate CarriesRequest(row: LedgerRow, req: PostRequest, now: int)
  {
    && row.transactionId == req.transactionId
    && row.companyId == req.companyId
    && row.transactionType == req.transactionType
    && row.referenceType == req.referenceType
    && row.date == (if req.date.Some? then req.date.value else now)
    && row.description == req.description
    && row.linkedEntityId == req.linkedEntityId
    && row.invoiceId == req.invoiceId
    && row.accountId == req.accountId
    && row.createdBy == req.createdBy
    && !row.isDeleted && row.deletedBy.None?
  }

  /** The outcome of the service: an error when the amounts differ,
      otherwise the debit row followed by the credit row. */
  function DoubleEntry(req: PostRequest, debitId: Id, creditId: Id, now: int): (r: Result<seq<LedgerRow>>)
    ensures r.Err? <==> req.debitAmount != req.creditAmount
    ensures r.Err? ==> r == Err(500, UnbalancedMessage)
    ensures r.Ok? ==> |r.value| == 2
    ensures r.Ok? ==> r.value[0].id == debitId && r.value[0].body == Posting(req.debitAccount, Debit, req.debitAmount)
    ensures r.Ok? ==> r.value[1].id == creditId && r.value[1].body == Posting(req.creditAccount, Credit, req.creditAmount)
    ensures r.Ok? ==> CarriesRequest(r.value[0], req, now) && CarriesRequest(r.value[1], req, now)
  {
    if req.debitAmount != req.creditAmount then Err(500, UnbalancedMessage)
    else Ok([PostingRow(req, debitId, now, Posting(req.debitAccount, Debit, req.debitAmount)),
             PostingRow(req, creditId, now, Posting(req.creditAccount, Credit, req.creditAmount))])
  }

  /** `createDoubleLedgerEntry(req)`: the guard, then one `insertMany`. */
  method CreateDoubleLedgerEntry(ledger: LedgerStore, req: PostRequest, debitId: Id, creditId: Id, now: int)
    returns (r: Result<seq<LedgerRow>>)
    modifies ledger
    ensures r == DoubleEntry(req, debitId, creditId, now)
    ensures r.Err? ==> ledger.rows == old(ledger.rows)
    ensures r.Ok? ==> ledger.rows == old(ledger.rows) + r.value
  {
    if req.debitAmount != req.creditAmount {
      return Err(500, UnbalancedMessage);
    }
    var entries := [PostingRow(req, debitId, now, Posting(req.debitAccount, Debit, req.debitAmount)),
                    PostingRow(req, creditId, now, Posting(req.creditAccount, Credit, req.creditAmount))];
    ledger.InsertMany(entries);
    r := Ok(entries);
  }

  // ---------------------------------------------------------------------
  // Debits equal credits.

  function DebitOf(r: LedgerRow): int
  {
    if r.body.Posting? && r.body.entryType == Debit then r.body.amount else 0
  }

  function CreditOf(r: LedgerRow): int
  {
    if r.body.Posting? && r.body.entryType == Credit then r.body.amount else 0
  }

  /** Σ amount over the debit rows. */
  function Debits(rows: seq<LedgerRow>): int { SumOf(rows, DebitOf) }

  /** Σ amount over the credit rows. */
  function Credits(rows: seq<LedgerRow>): int { SumOf(rows, CreditOf) }

  /** A successful post adds as much to the debits as to the credits. */
  lemma PostKeepsBalance(rows: seq<LedgerRow>, req: PostRequest, debitId: Id, creditId: Id, now: int)
    requires DoubleEntry(req, debitId, creditId, now).Ok?
    ensures var rows' := rows + DoubleEntry(req, debitId, creditId, now).value;
      Debits(rows') - Credits(rows') == Debits(rows) - Credits(rows)
  {
    var pair := DoubleEntry(req, debitId, creditId, now).value;
    SumOfAppend(rows, pair, DebitOf);
    SumOfAppend(rows, pair, CreditOf);
    assert pair == [pair[0], pair[1]];
    SumOfPair(pair[0], pair[1], DebitOf);
    SumOfPair(pair[0], pair[1], CreditOf);
  }

  /** One call of the service. */
  datatype Post = Post(req: PostRequest, debitId: Id, creditId: Id, now: int)

  /** The ledger after a sequence of calls, each either appending its pair
      or failing and writing nothing. Earlier rows are never changed. */
  function ApplyPosts(rows: seq<LedgerRow>, posts: seq<Post>): (r: seq<LedgerRow>)
    ensures |rows| <= |r| && r[..|rows|] == rows
  {
    if |posts| == 0 then rows
    else
      var prev := ApplyPosts(rows, posts[..|posts| - 1]);
      var p := posts[|posts| - 1];
      match DoubleEntry(p.req, p.debitId, p.creditId, p.now)
      case Ok(pair) => prev + pair
      case Err(_, _) => prev
  }

  /** Across any sequence of posts, total debits and total credits move
      together; from an empty ledger they are equal. */
  lemma {:induction false} PostsBalanced(rows: seq<LedgerRow>, posts: seq<Post>)
    ensures Debits(ApplyPosts(rows, posts)) - Credits(ApplyPosts(rows, posts)) == Debits(rows) - Credits(rows)
  {
    if |posts| > 0 {
      PostsBalanced(rows, posts[..|posts| - 1]);
      var p := posts[|posts| - 1];
      if DoubleEntry(p.req, p.debitId, p.creditId, p.now).Ok? {
        PostKeepsBalance(ApplyPosts(rows, posts[..|posts| - 1]), p.req, p.debitId, p.creditId, p.now);
      }
    }
  }

  lemma PostsFromEmptyBalanced(posts: seq<Post>)
    ensures Debits(ApplyPosts([], posts)) == Credits(ApplyPosts([], posts))
  {
    PostsBalanced([], posts);
  }
}
