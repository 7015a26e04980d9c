/** Invoices (src/controllers/invoices.controller.js and
    src/models/invoices.model.js): creation checks the referenced sale and
    ledger row, in that order, and folds the subtotal of the line items. */
module Invoices {
  import opened Common
  import opened Text
  import LedgerModel
  import PosTransactions

  datatype Invoice = Invoice(
    id: Id,
    companyId: Id,
    transactionId: Id,
    ledgerEntryId: Id,
    invoiceNumber: string,
    issuedDate: int,
    dueDate: int,
    lineItems: seq<PosTransactions.SaleLine>,
    subTotal: int,
    discountAmount: int,
    taxAmount: int,
    totalAmount: int,
    paymentStatus: string,
    notes: Option<string>,
    isDeleted: bool,
    createdBy: Id)

  datatype InvoiceRequest = InvoiceRequest(
    companyId: Id,
    transactionId: Id,
    ledgerEntryId: Id,
    lineItems: seq<PosTransactions.SaleLine>,
    discountAmount: Option<int>,
    taxAmount: Option<int>,
    totalAmount: int,
    paymentStatus: Option<string>,
    notes: Option<string>)

  const TransactionNotFoundMessage := "Transaction not found."
  const LedgerNotFoundMessage := "Ledger entry not found."

  /** `Ledger.findById` under the pre-find hook. */
  predicate LiveRow(id: Id, r: LedgerModel.LedgerRow) { !r.isDeleted && r.id == id }

  function LiveRowOf(id: Id): LedgerModel.LedgerRow -> bool
  {
    r => LiveRow(id, r)
  }

  /** `createInvoice`: a missing sale is reported before a missing ledger row;
      otherwise the invoice with the folded subtotal, both dates set to `now`,
      and the client amounts as supplied (schema defaults for omitted
      discount, tax and status; notes trimmed by the schema). */
  function CreateInvoice(txns: seq<PosTransactions.PosTransaction>, rows: seq<LedgerModel.LedgerRow>,
                         req: InvoiceRequest, number: string, now: int, user: Id, id: Id): (r: Result<Invoice>)
    ensures PosTransactions.FindLive(txns, req.transactionId).None? ==> r == Err(404, TransactionNotFoundMessage)
    ensures (PosTransactions.FindLive(txns, req.transactionId).Some? &&
             FirstWhere(rows, LiveRowOf(req.ledgerEntryId)).None?) ==> r == Err(404, LedgerNotFoundMessage)
    ensures r.Ok? <==> (PosTransactions.FindLive(txns, req.transactionId).Some? &&
                        FirstWhere(rows, LiveRowOf(req.ledgerEntryId)).Some?)
    ensures r.Ok? ==> r.value.subTotal == PosTransactions.LinesSubtotal(req.lineItems)
    ensures r.Ok? ==> r.value.totalAmount == req.totalAmount && r.value.lineItems == req.lineItems
    ensures r.Ok? ==> r.value.discountAmount == (if req.discountAmount.Some? then req.discountAmount.value else 0)
    ensures r.Ok? ==> r.value.taxAmount == (if req.taxAmount.Some? then req.taxAmount.value else 0)
    ensures r.Ok? ==> r.value.paymentStatus == (if req.paymentStatus.Some? then req.paymentStatus.value else "Pending")
    ensures r.Ok? ==> !r.value.isDeleted && r.value.companyId == req.companyId && r.value.issuedDate == now
  {
    if PosTransactions.FindLive(txns, req.transactionId).None? then Err(404, TransactionNotFoundMessage)
    else if FirstWhere(rows, LiveRowOf(req.ledgerEntryId)).None? then Err(404, LedgerNotFoundMessage)
    else
      Ok(Invoice(id, req.companyId, req.transactionId, req.ledgerEntryId, number, now, now, req.lineItems,
                 SumOf(req.lineItems, PosTransactions.LineAmount),
                 if req.discountAmount.Some? then req.discountAmount.value else 0,
                 if req.taxAmount.Some? then req.taxAmount.value else 0,
                 req.totalAmount,
                 if req.paymentStatus.Some? then req.paymentStatus.value else "Pending",
                 if req.notes.Some? then Some(Trim(req.notes.value)) else None,
                 false, user))
  }

  // ---------------------------------------------------------------------
  // The listing.

  datatype InvoiceQuery = InvoiceQuery(companyId: Option<Id>, paymentStatus: Option<string>, page: Pos, limit: Pos)

  datatype InvoicePage = InvoicePage(invoices: seq<Invoice>, totalRecords: nat, currentPage: nat, totalPages: nat)

  /** The filter `{ companyId, isDeleted: false }` plus `paymentStatus` when
      it is a non-empty string. */
  predicate InvoiceMatch(q: InvoiceQuery, v: Invoice)
  {
    && !v.isDeleted
    && (q.companyId.None? || v.companyId == q.companyId.value)
    && (q.paymentStatus.None? || q.paymentStatus.value == "" || v.paymentStatus == q.paymentStatus.value)
  }

  function MatchOf(q: InvoiceQuery): Invoice -> bool
  {
    v => InvoiceMatch(q, v)
  }

  /** `getAllInvoices` */
  function GetAllInvoices(invoices: seq<Invoice>, q: InvoiceQuery): (r: InvoicePage)
    ensures |r.invoices| <= q.limit
    ensures forall k :: 0 <= k < |r.invoices| ==> InvoiceMatch(q, r.invoices[k])
    ensures r.totalRecords == |Filter(invoices, MatchOf(q))|
    ensures IsPage(r.invoices, Filter(invoices, MatchOf(q)), q.page, q.limit)
    ensures PageCount(r.totalPages, r.totalRecords, q.limit)
  {
    var matches := Filter(invoices, MatchOf(q));
    InvoicePage(Paginate(matches, q.page, q.limit), |matches|, q.page, CeilDiv(|matches|, q.limit))
  }

  /** No matching invoice is out of reach: the i-th is item i % limit of
      page i / limit + 1. */
  lemma EveryInvoiceListed(invoices: seq<Invoice>, q: InvoiceQuery, i: nat)
    requires i < |Filter(invoices, MatchOf(q))| && q.page == i / q.limit + 1
    ensures i % q.limit < |GetAllInvoices(invoices, q).invoices|
    ensures GetAllInvoices(invoices, q).invoices[i % q.limit] == Filter(invoices, MatchOf(q))[i]
  {
    OnPage(GetAllInvoices(invoices, q).invoices, Filter(invoices, MatchOf(q)), i, q.page, q.limit);
  }

  /** A created invoice is counted by every listing of its company whose
      status filter it meets, and by no other. */
  lemma CreatedInvoiceListed(invoices: seq<Invoice>, v: Invoice, q: InvoiceQuery)
    requires !v.isDeleted
    ensures GetAllInvoices(invoices + [v], q).totalRecords ==
      GetAllInvoices(invoices, q).totalRecords + (if InvoiceMatch(q, v) then 1 else 0)
  {
    FilterAppend(invoices, [v], MatchOf(q));
    assert [v][1..] == [];
  }
}
