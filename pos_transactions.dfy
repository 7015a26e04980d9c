/** Point-of-sale transactions (src/controllers/posTransactions.controller.js
    and src/models/posTransactions.model.js): creation checks every product
    and accumulates the subtotal; the amounts a client sends are stored as
    sent. */
module PosTransactions {
  import opened Common
  import Products

  /** One sold line of a transaction. */
  datatype SaleLine = SaleLine(productId: Id, batchId: Option<string>, quantity: int, unitPrice: int, totalPrice: int)

  datatype PosTransaction = PosTransaction(
    id: Id,
    companyId: Id,
    transactionNumber: string,
    products: seq<SaleLine>,
    subTotal: int,
    discountAmount: int,
    taxAmount: int,
    totalPayable: int,
    paymentMethod: string,
    paidAmount: int,
    paymentReference: Option<string>,
    isDeleted: bool,
    createdBy: Id,
    deletedBy: Option<Id>)

  /** The body of a create request; omitted discount and tax take the
      schema default 0. */
  datatype PosRequest = PosRequest(
    companyId: Id,
    products: seq<SaleLine>,
    discountAmount: Option<int>,
    taxAmount: Option<int>,
    totalPayable: int,
    paymentMethod: string,
    paidAmount: int,
    paymentReference: Option<string>)

  function LineAmount(l: SaleLine): int { l.unitPrice * l.quantity }

  /** Σ unitPrice × quantity over the lines. */
  function LinesSubtotal(lines: seq<SaleLine>): int { SumOf(lines, LineAmount) }

  /** `Products.findById` sees every product with the id, deleted or not. */
  predicate Missing(products: seq<Products.Product>, l: SaleLine)
  {
    FirstWhere(products, Products.WithId(l.productId)).None?
  }

  function MissingOf(products: seq<Products.Product>): SaleLine -> bool
  {
    l => Missing(products, l)
  }

  function ProductNotFoundMessage(productId: Id): string
  {
    "Product not found: " + productId
  }

  /** The loop of `createPOSTransaction`: the first line whose product does
      not exist ends it with 404; otherwise the subtotal of all lines. */
  method ComputeSubtotal(products: seq<Products.Product>, lines: seq<SaleLine>) returns (r: Result<int>)
    ensures r.Err? <==> exists k :: 0 <= k < |lines| && Missing(products, lines[k])
    ensures r.Err? ==> r == Err(404, ProductNotFoundMessage(lines[FirstWhere(lines, MissingOf(products)).value].productId))
    ensures r.Ok? ==> r.value == LinesSubtotal(lines)
  {
    var subTotal := 0;
    var i := 0;
    while i < |lines|
      invariant 0 <= i <= |lines|
      invariant forall k :: 0 <= k < i ==> !Missing(products, lines[k])
      invariant subTotal == LinesSubtotal(lines[..i])
    {
      if FirstWhere(products, Products.WithId(lines[i].productId)).None? {
        assert FirstWhere(lines, MissingOf(products)) == Some(i);
        return Err(404, ProductNotFoundMessage(lines[i].productId));
      }
      assert lines[..i + 1][..i] == lines[..i];
      subTotal := subTotal + lines[i].unitPrice * lines[i].quantity;
      i := i + 1;
    }
    assert lines[..i] == lines;
    r := Ok(subTotal);
  }

  /** The stored document: the computed subtotal, and every client amount
      exactly as supplied. */
  function NewTransaction(req: PosRequest, subTotal: int, number: string, user: Id, id: Id): (t: PosTransaction)
    ensures t.subTotal == subTotal && t.totalPayable == req.totalPayable && t.paidAmount == req.paidAmount
    ensures t.discountAmount == (if req.discountAmount.Some? then req.discountAmount.value else 0)
    ensures t.taxAmount == (if req.taxAmount.Some? then req.taxAmount.value else 0)
    ensures !t.isDeleted && t.products == req.products && t.companyId == req.companyId
  {
    PosTransaction(id, req.companyId, number, req.products, subTotal,
                   if req.discountAmount.Some? then req.discountAmount.value else 0,
                   if req.taxAmount.Some? then req.taxAmount.value else 0,
                   req.totalPayable, req.paymentMethod, req.paidAmount, req.paymentReference,
                   false, user, None)
  }

  predicate LiveWithId(id: Id, t: PosTransaction) { !t.isDeleted && t.id == id }

  function LiveWithIdOf(id: Id): PosTransaction -> bool
  {
    t => LiveWithId(id, t)
  }

  const NotFoundMessage := "Transaction not found."

  /** `findById` under the pre-find hook. */
  function FindLive(txns: seq<PosTransaction>, id: Id): (r: Option<PosTransaction>)
    ensures r.Some? ==> r.value in txns && r.value.id == id && !r.value.isDeleted
    ensures r.None? <==> forall k :: 0 <= k < |txns| ==> !LiveWithId(id, txns[k])
  {
    match FirstWhere(txns, LiveWithIdOf(id))
    case None => None
    case Some(k) => Some(txns[k])
  }

  /** `getPOSTransactionById` */
  function GetPOSTransactionById(txns: seq<PosTransaction>, id: Id): (r: Result<PosTransaction>)
    ensures r.Err? <==> FindLive(txns, id).None?
    ensures r.Err? ==> r == Err(404, NotFoundMessage)
    ensures r.Ok? ==> r.value.id == id && !r.value.isDeleted
  {
    match FindLive(txns, id)
    case None => Err(404, NotFoundMessage)
    case Some(t) => Ok(t)
  }

  class PosStore {
    var transactions: seq<PosTransaction>

    constructor()
      ensures transactions == []
    {
      transactions := [];
    }

    /** `createPOSTransaction`; `number` is the generated `POS-<time>-<random>`
        transaction number. */
    method CreatePOSTransaction(products: seq<Products.Product>, req: PosRequest, user: Id, number: string, newId: Id)
      returns (r: Result<PosTransaction>)
      modifies this
      ensures r.Err? <==> exists k :: 0 <= k < |req.products| && Missing(products, req.products[k])
      ensures r.Err? ==> r.status == 404 && transactions == old(transactions)
      ensures r.Ok? ==> r.value == NewTransaction(req, LinesSubtotal(req.products), number, user, newId)
      ensures r.Ok? ==> transactions == old(transactions) + [r.value]
    {
      var sub := ComputeSubtotal(products, req.products);
      if sub.Err? {
        return Err(sub.status, sub.message);
      }
      var t := NewTransaction(req, sub.value, number, user, newId);
      transactions := transactions + [t];
      r := Ok(t);
    }

    /** `softDeletePOSTransaction` */
    method SoftDeletePOSTransaction(id: Id, user: Id) returns (r: Result<()>)
      modifies this
      ensures FirstWhere(old(transactions), LiveWithIdOf(id)).None? ==>
        r == Err(404, NotFoundMessage) && transactions == old(transactions)
      ensures FirstWhere(old(transactions), LiveWithIdOf(id)).Some? ==>
        var k := FirstWhere(old(transactions), LiveWithIdOf(id)).value;
        r == Ok(()) && transactions == old(transactions)[k := old(transactions)[k].(isDeleted := true, deletedBy := Some(user))]
    {
      var k := FirstWhere(transactions, LiveWithIdOf(id));
      if k.None? {
        return Err(404, NotFoundMessage);
      }
      transactions := transactions[k.value := transactions[k.value].(isDeleted := true, deletedBy := Some(user))];
      r := Ok(());
    }
  }

  // ---------------------------------------------------------------------
  // The listing.

  datatype TransactionQuery = TransactionQuery(companyId: Option<Id>, page: Pos, limit: Pos)

  datatype TransactionPage = TransactionPage(transactions: seq<PosTransaction>, totalRecords: nat, currentPage: nat, totalPages: nat)

  predicate TransactionMatch(c: Option<Id>, t: PosTransaction)
  {
    !t.isDeleted && (c.None? || t.companyId == c.value)
  }

  function MatchOf(c: Option<Id>): PosTransaction -> bool
  {
    t => TransactionMatch(c, t)
  }

  /** `getAllPOSTransactions`: the requested page of the company's live
      transactions, their count and ⌈count / limit⌉ pages. */
  function GetAllPOSTransactions(txns: seq<PosTransaction>, q: TransactionQuery): (r: TransactionPage)
    ensures |r.transactions| <= q.limit
    ensures forall k :: 0 <= k < |r.transactions| ==> TransactionMatch(q.companyId, r.transactions[k])
    ensures r.totalRecords == |Filter(txns, MatchOf(q.companyId))|
    ensures IsPage(r.transactions, Filter(txns, MatchOf(q.companyId)), q.page, q.limit)
    ensures PageCount(r.totalPages, r.totalRecords, q.limit)
  {
    var matches := Filter(txns, MatchOf(q.companyId));
    TransactionPage(Paginate(matches, q.page, q.limit), |matches|, q.page, CeilDiv(|matches|, q.limit))
  }

  /** No live transaction of the company is out of reach: the i-th is item
      i % limit of page i / limit + 1. */
  lemma EveryTransactionListed(txns: seq<PosTransaction>, q: TransactionQuery, i: nat)
    requires i < |Filter(txns, MatchOf(q.companyId))| && q.page == i / q.limit + 1
    ensures i % q.limit < |GetAllPOSTransactions(txns, q).transactions|
    ensures GetAllPOSTransactions(txns, q).transactions[i % q.limit] == Filter(txns, MatchOf(q.companyId))[i]
  {
    OnPage(GetAllPOSTransactions(txns, q).transactions, Filter(txns, MatchOf(q.companyId)), i, q.page, q.limit);
  }
}
