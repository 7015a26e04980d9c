/** The return of a POS sale (src/controllers/returns.controller.js): put the
    named serials back in stock, add the returned quantities back to the
    batches and totals, save the numbered return, post the reversing ledger
    pair, record a cash refund, and commit, or roll back everything written
    in the session. */
module Returns {
  import opened Common
  import opened Text
  import opened Decimal
  import LedgerModel
  import LedgerService
  import Inventory
  import PosTransactions
  import InventoryUnits
  import Counters
  import opened ReturnNumbers

  // ---------------------------------------------------------------------
  // Restocking: the two `updateOne` calls of each line. `updateOne` is not
  // matched by the pre-find hook, so soft-deleted records are updated too.

  predicate BatchIs(batchId: string, b: Inventory.Batch) { b.id == batchId }

  function BatchIsOf(batchId: string): Inventory.Batch -> bool
  {
    b => BatchIs(batchId, b)
  }

  predicate HasBatch(rec: Inventory.InventoryRecord, batchId: string)
  {
    exists k :: 0 <= k < |rec.batches| && BatchIs(batchId, rec.batches[k])
  }

  predicate OfPair(c: Id, p: Id, rec: Inventory.InventoryRecord)
  {
    rec.companyId == c && rec.productId == p
  }

  function OfPairOf(c: Id, p: Id): Inventory.InventoryRecord -> bool
  {
    rec => OfPair(c, p, rec)
  }

  /** The filter `{ companyId, productId, "batches._id": batchId }`. */
  predicate BatchOwner(c: Id, p: Id, batchId: string, rec: Inventory.InventoryRecord)
  {
    OfPair(c, p, rec) && HasBatch(rec, batchId)
  }

  function BatchOwnerOf(c: Id, p: Id, batchId: string): Inventory.InventoryRecord -> bool
  {
    rec => BatchOwner(c, p, batchId, rec)
  }

  /** `$inc: { "batches.$.quantity": q }`: the first batch with the id. */
  function BumpBatch(batches: seq<Inventory.Batch>, batchId: string, q: int): (r: seq<Inventory.Batch>)
    ensures |r| == |batches|
    ensures forall k :: 0 <= k < |r| ==> r[k].id == batches[k].id
    ensures FirstWhere(batches, BatchIsOf(batchId)).None? ==> r == batches
    ensures FirstWhere(batches, BatchIsOf(batchId)).Some? ==> Inventory.TotalOf(r) == Inventory.TotalOf(batches) + q
  {
    match FirstWhere(batches, BatchIsOf(batchId))
    case None => batches
    case Some(k) =>
      Inventory.TotalOfIncrement(batches, k, q);
      batches[k := batches[k].(quantity := batches[k].quantity + q)]
  }

  /** The record with its batches replaced. */
  function WithBatches(rec: Inventory.InventoryRecord, batches: seq<Inventory.Batch>): (r: Inventory.InventoryRecord)
    ensures r.batches == batches && r.totalQuantity == rec.totalQuantity
    ensures r.companyId == rec.companyId && r.productId == rec.productId
  {
    rec.(batches := batches)
  }

  /** `$inc: { totalQuantity: q }` on one record. */
  function AddToTotal(rec: Inventory.InventoryRecord, q: int): (r: Inventory.InventoryRecord)
    ensures r.totalQuantity == rec.totalQuantity + q && r.batches == rec.batches
    ensures r.companyId == rec.companyId && r.productId == rec.productId
  {
    rec.(totalQuantity := rec.totalQuantity + q)
  }

  /** The first `updateOne`: the batch quantity of the first record of the
      pair that holds the batch; nothing when no record holds it. */
  function RestockBatch(records: seq<Inventory.InventoryRecord>, c: Id, p: Id, batchId: string, q: int)
    : seq<Inventory.InventoryRecord>
  {
    match FirstWhere(records, BatchOwnerOf(c, p, batchId))
    case None => records
    case Some(i) => records[i := WithBatches(records[i], BumpBatch(records[i].batches, batchId, q))]
  }

  /** The second `updateOne`: the total of the first record of the pair,
      whether or not the first one found the batch. */
  function RestockTotal(records: seq<Inventory.InventoryRecord>, c: Id, p: Id, q: int)
    : seq<Inventory.InventoryRecord>
  {
    match FirstWhere(records, OfPairOf(c, p))
    case None => records
    case Some(i) => records[i := AddToTotal(records[i], q)]
  }

  function RestockLine(records: seq<Inventory.InventoryRecord>, c: Id, line: ReturnLine)
    : seq<Inventory.InventoryRecord>
  {
    RestockTotal(RestockBatch(records, c, line.productId, line.batchId, line.quantity), c, line.productId, line.quantity)
  }

  /** The restocking of the lines in order. */
  function RestockLines(records: seq<Inventory.InventoryRecord>, c: Id, lines: seq<ReturnLine>)
    : seq<Inventory.InventoryRecord>
  {
    if |lines| == 0 then records
    else RestockLine(RestockLines(records, c, lines[..|lines| - 1]), c, lines[|lines| - 1])
  }

  /** At most one record, live or deleted, for the pair. */
  predicate OnePerPair(records: seq<Inventory.InventoryRecord>, c: Id, p: Id)
  {
    forall i, j :: 0 <= i < j < |records| && OfPair(c, p, records[i]) ==> !OfPair(c, p, records[j])
  }

  /** The pair has one record and it holds the line's batch. */
  predicate Stocked(records: seq<Inventory.InventoryRecord>, c: Id, line: ReturnLine)
  {
    && OnePerPair(records, c, line.productId)
    && exists i :: 0 <= i < |records| && BatchOwner(c, line.productId, line.batchId, records[i])
  }

  /** With one record for the pair, that record is the first of the pair. */
  lemma FirstOfPair(records: seq<Inventory.InventoryRecord>, c: Id, p: Id, k: nat)
    requires OnePerPair(records, c, p) && k < |records| && OfPair(c, p, records[k])
    ensures FirstWhere(records, OfPairOf(c, p)) == Some(k)
  {
    var f := FirstWhere(records, OfPairOf(c, p));
    assert OfPairOf(c, p)(records[k]);
    assert OfPair(c, p, records[f.value]);
  }

  /** Only the pair's fields decide which record is the pair's first. */
  lemma FirstOfPairAfterBump(records: seq<Inventory.InventoryRecord>, c: Id, p: Id, k: nat, batches: seq<Inventory.Batch>)
    requires OnePerPair(records, c, p) && k < |records| && OfPair(c, p, records[k])
    ensures FirstWhere(records[k := WithBatches(records[k], batches)], OfPairOf(c, p)) == Some(k)
  {
    var mid := records[k := WithBatches(records[k], batches)];
    assert forall j :: 0 <= j < |mid| ==> OfPair(c, p, mid[j]) == OfPair(c, p, records[j]);
    FirstOfPair(mid, c, p, k);
  }

  lemma RestockTotalAt(records: seq<Inventory.InventoryRecord>, c: Id, p: Id, q: int, k: nat)
    requires FirstWhere(records, OfPairOf(c, p)) == Some(k)
    ensures RestockTotal(records, c, p, q) == records[k := AddToTotal(records[k], q)]
  {
  }

  /** Replacing one record by a consistent one keeps the store consistent. */
  lemma ConsistentUpdate(records: seq<Inventory.InventoryRecord>, k: nat, rec: Inventory.InventoryRecord)
    requires Inventory.Consistent(records) && k < |records| && rec.totalQuantity == Inventory.TotalOf(rec.batches)
    ensures Inventory.Consistent(records[k := rec])
  {
  }

  /** When the pair's one record holds the batch, the batch and the total
      both rise by the returned quantity, so the total stays the batch sum. */
  lemma RestockLineKeepsConsistent(records: seq<Inventory.InventoryRecord>, c: Id, line: ReturnLine)
    requires Inventory.Consistent(records) && Stocked(records, c, line)
    ensures Inventory.Consistent(RestockLine(records, c, line))
  {
    var p, b, q := line.productId, line.batchId, line.quantity;
    var i :| 0 <= i < |records| && BatchOwner(c, p, b, records[i]);
    assert BatchOwnerOf(c, p, b)(records[i]);
    var k := FirstWhere(records, BatchOwnerOf(c, p, b)).value;
    var bk :| 0 <= bk < |records[k].batches| && BatchIs(b, records[k].batches[bk]);
    assert BatchIsOf(b)(records[k].batches[bk]);
    var bumped := BumpBatch(records[k].batches, b, q);
    var mid := records[k := WithBatches(records[k], bumped)];
    assert RestockBatch(records, c, p, b, q) == mid;
    FirstOfPairAfterBump(records, c, p, k, bumped);
    RestockTotalAt(mid, c, p, q, k);
    var rec := AddToTotal(WithBatches(records[k], bumped), q);
    assert mid[k := AddToTotal(mid[k], q)] == records[k := rec];
    ConsistentUpdate(records, k, rec);
  }

  /** Restocking keeps every record's pair, deletion flag and batch ids. */
  predicate SameShape(a: seq<Inventory.InventoryRecord>, b: seq<Inventory.InventoryRecord>)
  {
    && |a| == |b|
    && forall i :: 0 <= i < |a| ==>
         && a[i].companyId == b[i].companyId && a[i].productId == b[i].productId
         && |a[i].batches| == |b[i].batches|
         && forall k :: 0 <= k < |a[i].batches| ==> a[i].batches[k].id == b[i].batches[k].id
  }

  lemma SameShapeTrans(a: seq<Inventory.InventoryRecord>, b: seq<Inventory.InventoryRecord>, d: seq<Inventory.InventoryRecord>)
    requires SameShape(a, b) && SameShape(b, d)
    ensures SameShape(a, d)
  {
  }

  /** A record that differs from another only in quantities has its shape. */
  lemma UpdateShape(records: seq<Inventory.InventoryRecord>, i: nat, rec: Inventory.InventoryRecord)
    requires i < |records|
    requires rec.companyId == records[i].companyId && rec.productId == records[i].productId
    requires |rec.batches| == |records[i].batches|
    requires forall k :: 0 <= k < |rec.batches| ==> rec.batches[k].id == records[i].batches[k].id
    ensures SameShape(records, records[i := rec])
  {
  }

  lemma RestockBatchShape(records: seq<Inventory.InventoryRecord>, c: Id, p: Id, b: string, q: int)
    ensures SameShape(records, RestockBatch(records, c, p, b, q))
  {
    match FirstWhere(records, BatchOwnerOf(c, p, b))
    case None =>
    case Some(i) =>
      UpdateShape(records, i, WithBatches(records[i], BumpBatch(records[i].batches, b, q)));
  }

  lemma RestockTotalShape(records: seq<Inventory.InventoryRecord>, c: Id, p: Id, q: int)
    ensures SameShape(records, RestockTotal(records, c, p, q))
  {
    match FirstWhere(records, OfPairOf(c, p))
    case None =>
    case Some(i) =>
      UpdateShape(records, i, AddToTotal(records[i], q));
  }

  lemma RestockLineShape(records: seq<Inventory.InventoryRecord>, c: Id, line: ReturnLine)
    ensures SameShape(records, RestockLine(records, c, line))
  {
    var mid := RestockBatch(records, c, line.productId, line.batchId, line.quantity);
    RestockBatchShape(records, c, line.productId, line.batchId, line.quantity);
    RestockTotalShape(mid, c, line.productId, line.quantity);
    SameShapeTrans(records, mid, RestockTotal(mid, c, line.productId, line.quantity));
  }

  lemma StockedTransfers(a: seq<Inventory.InventoryRecord>, b: seq<Inventory.InventoryRecord>, c: Id, line: ReturnLine)
    requires SameShape(a, b) && Stocked(a, c, line)
    ensures Stocked(b, c, line)
  {
    var i :| 0 <= i < |a| && BatchOwner(c, line.productId, line.batchId, a[i]);
    var k :| 0 <= k < |a[i].batches| && BatchIs(line.batchId, a[i].batches[k]);
    assert BatchIs(line.batchId, b[i].batches[k]);
  }

  /** Every line of a return whose batches all exist in their pair's one
      record keeps the totals equal to the batch sums. */
  lemma {:induction false} RestockLinesKeepsConsistent(records: seq<Inventory.InventoryRecord>, c: Id, lines: seq<ReturnLine>)
    requires Inventory.Consistent(records)
    requires forall l :: 0 <= l < |lines| ==> Stocked(records, c, lines[l])
    ensures Inventory.Consistent(RestockLines(records, c, lines)) && SameShape(records, RestockLines(records, c, lines))
  {
    if |lines| > 0 {
      var n := |lines| - 1;
      var init := lines[..n];
      assert forall l :: 0 <= l < |init| ==> Stocked(records, c, init[l]) by {
        forall l | 0 <= l < |init| ensures Stocked(records, c, init[l]) {
          assert init[l] == lines[l];
        }
      }
      RestockLinesKeepsConsistent(records, c, init);
      var mid := RestockLines(records, c, init);
      StockedTransfers(records, mid, c, lines[n]);
      RestockLineKeepsConsistent(mid, c, lines[n]);
      RestockLineShape(mid, c, lines[n]);
    }
  }

  /** A line whose batch id is in no record of the pair still raises the
      pair's total, so the total no longer equals the batch sum. */
  lemma MissingBatchBreaksConsistency(records: seq<Inventory.InventoryRecord>, c: Id, line: ReturnLine)
    requires Inventory.Consistent(records) && line.quantity != 0
    requires exists i :: 0 <= i < |records| && OfPair(c, line.productId, records[i])
    requires forall i :: 0 <= i < |records| ==> !BatchOwner(c, line.productId, line.batchId, records[i])
    ensures !Inventory.Consistent(RestockLine(records, c, line))
  {
    FirstWhereNone(records, BatchOwnerOf(c, line.productId, line.batchId));
    var k := FirstWhere(records, OfPairOf(c, line.productId)).value;
    var after := RestockLine(records, c, line);
    assert after[k].totalQuantity == Inventory.TotalOf(after[k].batches) + line.quantity;
  }


  // ---------------------------------------------------------------------
  // Unit restores of all lines.

  /** The serials of every line, line by line; the first failure ends it. */
  function RestoreLines(units: seq<InventoryUnits.InventoryUnit>, c: Id, lines: seq<ReturnLine>, user: Id)
    : Result<seq<InventoryUnits.InventoryUnit>>
  {
    if |lines| == 0 then Ok(units)
    else
      match RestoreLines(units, c, lines[..|lines| - 1], user)
      case Err(s, m) => Err(s, m)
      case Ok(us) =>
        var l := lines[|lines| - 1];
        InventoryUnits.RestoreSerials(us, c, l.productId, l.batchId, l.serialDetails, user)
  }

  lemma {:induction false} RestoreLinesErr(units: seq<InventoryUnits.InventoryUnit>, c: Id, lines: seq<ReturnLine>,
                                           i: nat, user: Id)
    requires i <= |lines| && RestoreLines(units, c, lines[..i], user).Err?
    ensures RestoreLines(units, c, lines, user) == RestoreLines(units, c, lines[..i], user)
    decreases |lines| - i
  {
    if i < |lines| {
      assert lines[..i + 1][..i] == lines[..i];
      RestoreLinesErr(units, c, lines, i + 1, user);
    } else {
      assert lines[..i] == lines;
    }
  }

  lemma RestoreLinesStep(units: seq<InventoryUnits.InventoryUnit>, c: Id, lines: seq<ReturnLine>, i: nat, user: Id,
                         us: seq<InventoryUnits.InventoryUnit>)
    requires i < |lines| && RestoreLines(units, c, lines[..i], user) == Ok(us)
    ensures RestoreLines(units, c, lines[..i + 1], user) ==
            InventoryUnits.RestoreSerials(us, c, lines[i].productId, lines[i].batchId, lines[i].serialDetails, user)
  {
    assert lines[..i + 1][..i] == lines[..i];
  }

  lemma RestockLinesStep(records: seq<Inventory.InventoryRecord>, c: Id, lines: seq<ReturnLine>, i: nat)
    requires i < |lines|
    ensures RestockLines(records, c, lines[..i + 1]) == RestockLine(RestockLines(records, c, lines[..i]), c, lines[i])
  {
    assert lines[..i + 1][..i] == lines[..i];
  }

  function SerialCount(l: ReturnLine): int { |l.serialDetails| }

  /** A successful return takes exactly as many units out of 'Sold' as it
      names serials. */
  lemma {:induction false} RestoreLinesCounts(units: seq<InventoryUnits.InventoryUnit>, c: Id, lines: seq<ReturnLine>, user: Id)
    requires RestoreLines(units, c, lines, user).Ok?
    ensures InventoryUnits.SoldCount(RestoreLines(units, c, lines, user).value) ==
            InventoryUnits.SoldCount(units) - SumOf(lines, SerialCount)
  {
    if |lines| > 0 {
      var n := |lines| - 1;
      RestoreLinesCounts(units, c, lines[..n], user);
      var us := RestoreLines(units, c, lines[..n], user).value;
      InventoryUnits.RestoreSerialsCounts(us, c, lines[n].productId, lines[n].batchId, lines[n].serialDetails, user);
    }
  }

  // ---------------------------------------------------------------------
  // Payments and the request.

  datatype Payment = Payment(
    companyId: Id,
    transactionId: Id,
    ledgerEntryId: Option<Id>,
    paymentMethod: string,
    amountPaid: int,
    paymentStatus: string,
    createdBy: Id,
    paidBy: Option<Id>,
    isDeleted: bool)

  class PaymentStore {
    var payments: seq<Payment>

    constructor()
      ensures payments == []
    {
      payments := [];
    }
  }

  datatype ReturnRequest = ReturnRequest(
    originalTransactionId: Id,
    companyId: Id,
    products: seq<ReturnLine>,
    totalRefund: int,
    refundMethod: string,
    reason: Option<string>,
    createdBy: Id,
    accountId: Option<Id>,
    linkedEntityId: Option<Id>)

  const TransactionNotFoundMessage := "Original transaction not found."
  const SalesReturnAccount := "Sales Return"

  function Abs(x: int): int { if x < 0 then -x else x }

  /** Cash refunds are paid out of 'Cash/Bank'; any other method is owed. */
  function CreditAccount(refundMethod: string): string
  {
    if refundMethod == "Cash" then "Cash/Bank" else "Accounts Payable"
  }

  /** The unsaved return document. */
  function Draft(req: ReturnRequest, id: Id, now: int): ReturnRecord
  {
    ReturnRecord(id, req.originalTransactionId, req.companyId, None, None, req.products, req.totalRefund,
                 req.refundMethod, req.createdBy, req.linkedEntityId, req.accountId, req.reason, now)
  }

  /** The arguments of the ledger post. */
  function ReturnPost(req: ReturnRequest, txn: PosTransactions.PosTransaction, returnId: Id): LedgerService.PostRequest
  {
    LedgerService.PostRequest(
      Some(returnId), req.companyId, "Return", Some("Returns"), None,
      Some("Return processed for original txn " + txn.transactionNumber),
      SalesReturnAccount, req.totalRefund, CreditAccount(req.refundMethod), req.totalRefund,
      req.linkedEntityId, None, req.accountId, req.createdBy)
  }

  /** The refund record of a cash return. */
  function Refund(req: ReturnRequest, txn: PosTransactions.PosTransaction): Payment
  {
    Payment(req.companyId, txn.id, None, "Cash", -Abs(req.totalRefund), "Refunded", req.createdBy, None, false)
  }

  /** The reversing pair always passes the balance guard: it debits 'Sales
      Return' and credits the refund account, both by the refund. */
  lemma ReturnPostBalanced(req: ReturnRequest, txn: PosTransactions.PosTransaction, returnId: Id,
                           debitId: Id, creditId: Id, now: int)
    ensures var rows := LedgerService.DoubleEntry(ReturnPost(req, txn, returnId), debitId, creditId, now);
      && rows.Ok?
      && rows.value[0].body == LedgerModel.Posting(SalesReturnAccount, LedgerModel.Debit, req.totalRefund)
      && rows.value[1].body == LedgerModel.Posting(CreditAccount(req.refundMethod), LedgerModel.Credit, req.totalRefund)
      && LedgerService.Debits(rows.value) == LedgerService.Credits(rows.value)
      && rows.value[0].transactionId == Some(returnId) && rows.value[0].transactionType == "Return"
  {
    var rows := LedgerService.DoubleEntry(ReturnPost(req, txn, returnId), debitId, creditId, now).value;
    LedgerService.PostKeepsBalance([], ReturnPost(req, txn, returnId), debitId, creditId, now);
    assert [] + rows == rows;
  }

  /** For a non-negative cash refund the payment record cancels the amount
      credited to 'Cash/Bank'. */
  lemma RefundCancelsCashCredit(req: ReturnRequest, txn: PosTransactions.PosTransaction, returnId: Id,
                                debitId: Id, creditId: Id, now: int)
    requires req.refundMethod == "Cash" && req.totalRefund >= 0
    ensures var rows := LedgerService.DoubleEntry(ReturnPost(req, txn, returnId), debitId, creditId, now);
      && rows.Ok?
      && rows.value[1].body.account == "Cash/Bank"
      && Refund(req, txn).amountPaid + rows.value[1].body.amount == 0
      && Refund(req, txn).amountPaid <= 0
  {
  }

  // ---------------------------------------------------------------------
  // The workflow.

  /** The ledger pair of the return. */
  function ReturnPair(req: ReturnRequest, txn: PosTransactions.PosTransaction, returnId: Id,
                      debitId: Id, creditId: Id, now: int): seq<LedgerModel.LedgerRow>
  {
    LedgerService.DoubleEntry(ReturnPost(req, txn, returnId), debitId, creditId, now).value
  }

  /** The return as the save stores it. */
  function SavedReturn(req: ReturnRequest, stored: seq<ReturnRecord>, docs: seq<Counters.CounterDoc>,
                       returnId: Id, now: int, datePart: string): ReturnRecord
  {
    Draft(req, returnId, now).(returnNumber := Some(NumberFor(stored, req.companyId, datePart)),
                               counterNumber := Some(Counters.Next(docs, CounterName, req.companyId).1))
  }

  /** The inner loop of step 1: each serial of the line goes from 'Sold'
      back to 'In Stock'; a serial that matches no sold unit stops it. */
  method RestoreSerialUnits(units: InventoryUnits.UnitStore, c: Id, line: ReturnLine, user: Id)
    returns (r: Result<()>)
    modifies units
    ensures var restored := InventoryUnits.RestoreSerials(old(units.units), c, line.productId, line.batchId, line.serialDetails, user);
      && (restored.Err? <==> r.Err?)
      && (restored.Err? ==> r == Err(500, restored.message))
      && (restored.Ok? ==> units.units == restored.value)
  {
    var u0 := units.units;
    var serials := line.serialDetails;
    var j := 0;
    while j < |serials|
      invariant 0 <= j <= |serials|
      invariant InventoryUnits.RestoreSerials(u0, c, line.productId, line.batchId, serials[..j], user) == Ok(units.units)
    {
      var step := InventoryUnits.RestoreUnit(units.units, c, line.productId, line.batchId, serials[j], user);
      assert serials[..j + 1][..j] == serials[..j];
      if step.Err? {
        InventoryUnits.RestoreSerialsErr(u0, c, line.productId, line.batchId, serials, j + 1, user);
        return Err(500, step.message);
      }
      units.units := step.value;
      j := j + 1;
    }
    assert serials[..j] == serials;
    r := Ok(());
  }

  /** Step 1 of `createPOSReturn`, line by line: the line's serials, then the
      batch and the total are increased. A failure stops it, leaving the
      writes made so far for the caller to roll back. */
  method ReverseStock(units: InventoryUnits.UnitStore, inventory: Inventory.InventoryStore,
                      c: Id, lines: seq<ReturnLine>, user: Id)
    returns (r: Result<()>)
    modifies units, inventory
    ensures var restored := RestoreLines(old(units.units), c, lines, user);
      && (restored.Err? <==> r.Err?)
      && (restored.Err? ==> r == Err(500, restored.message))
      && (restored.Ok? ==> units.units == restored.value &&
                           inventory.records == RestockLines(old(inventory.records), c, lines))
  {
    var u0, i0 := units.units, inventory.records;
    var i := 0;
    while i < |lines|
      invariant 0 <= i <= |lines|
      invariant RestoreLines(u0, c, lines[..i], user) == Ok(units.units)
      invariant inventory.records == RestockLines(i0, c, lines[..i])
    {
      var line := lines[i];
      var us := units.units;
      RestoreLinesStep(u0, c, lines, i, user, us);
      var serialsDone := RestoreSerialUnits(units, c, line, user);
      if serialsDone.Err? {
        RestoreLinesErr(u0, c, lines, i + 1, user);
        return serialsDone;
      }
      inventory.records := RestockBatch(inventory.records, c, line.productId, line.batchId, line.quantity);
      inventory.records := RestockTotal(inventory.records, c, line.productId, line.quantity);
      RestockLinesStep(i0, c, lines, i);
      i := i + 1;
    }
    assert lines[..i] == lines;
    r := Ok(());
  }

  /** Everything a return may write. */
  datatype World = World(
    units: seq<InventoryUnits.InventoryUnit>,
    records: seq<Inventory.InventoryRecord>,
    stored: seq<ReturnRecord>,
    docs: seq<Counters.CounterDoc>,
    rows: seq<LedgerModel.LedgerRow>,
    payments: seq<Payment>)

  /** The outcome of `createPOSReturn` on a world: the response and the world
      after commit or abort. `counterError` is the outcome of the save hook's
      counter upsert and `receiptError` that of the receipt step (None when
      the counter advances and when the PDF is written). Every failure answers 500 with the
      thrown message. An abort undoes the writes made in the session (units,
      inventory, the return, the payment), but the counter advance of the
      save hook and the ledger pair are written outside it and stay. */
  function ProcessReturn(req: ReturnRequest, txns: seq<PosTransactions.PosTransaction>, w: World,
                         returnId: Id, debitId: Id, creditId: Id, now: int, datePart: string,
                         counterError: Option<string>, receiptError: Option<string>): (Result<ReturnRecord>, World)
  {
    match PosTransactions.FindLive(txns, req.originalTransactionId)
    case None => (Err(500, TransactionNotFoundMessage), w)
    case Some(txn) =>
      match RestoreLines(w.units, req.companyId, req.products, req.createdBy)
      case Err(_, m) => (Err(500, m), w)
      case Ok(units') =>
        CompleteReturn(req, txn, w, units', RestockLines(w.records, req.companyId, req.products),
                       returnId, debitId, creditId, now, datePart, counterError, receiptError)
  }

  /** Steps 3 to 7, after the stock has been reversed to `units'` and
      `records'` inside the session; `w` is the world before the return. */
  function CompleteReturn(req: ReturnRequest, txn: PosTransactions.PosTransaction, w: World,
                          units': seq<InventoryUnits.InventoryUnit>, records': seq<Inventory.InventoryRecord>,
                          returnId: Id, debitId: Id, creditId: Id, now: int, datePart: string,
                          counterError: Option<string>, receiptError: Option<string>): (Result<ReturnRecord>, World)
  {
    if counterError.Some? then (Err(500, counterError.value), w)
    else
      var docs' := Counters.Next(w.docs, CounterName, req.companyId).0;
      if Taken(w.stored, NumberFor(w.stored, req.companyId, datePart)) then
        (Err(500, DuplicateKeyMessage), w.(docs := docs'))
      else
        var rows' := w.rows + ReturnPair(req, txn, returnId, debitId, creditId, now);
        match receiptError
        case Some(m) => (Err(500, m), w.(docs := docs', rows := rows'))
        case None =>
          var saved := SavedReturn(req, w.stored, w.docs, returnId, now, datePart);
          (Ok(saved),
           World(units', records', w.stored + [saved], docs', rows',
                 w.payments + (if req.refundMethod == "Cash" then [Refund(req, txn)] else [])))
  }

  /** `createPOSReturn`, proved against `ProcessReturn`. */
  method CreatePOSReturn(req: ReturnRequest, txns: seq<PosTransactions.PosTransaction>,
                         units: InventoryUnits.UnitStore, inventory: Inventory.InventoryStore,
                         store: ReturnStore, counters: Counters.CounterStore,
                         ledger: LedgerModel.LedgerStore, payments: PaymentStore,
                         returnId: Id, debitId: Id, creditId: Id, now: int, datePart: string,
                         counterError: Option<string>, receiptError: Option<string>)
    returns (r: Result<ReturnRecord>)
    modifies units, inventory, store, counters, ledger, payments
    ensures (r, World(units.units, inventory.records, store.stored, counters.docs, ledger.rows, payments.payments)) ==
      ProcessReturn(req, txns,
                    old(World(units.units, inventory.records, store.stored, counters.docs, ledger.rows, payments.payments)),
                    returnId, debitId, creditId, now, datePart, counterError, receiptError)
  {
    var u0, i0 := units.units, inventory.records;

    var txn := PosTransactions.FindLive(txns, req.originalTransactionId);
    if txn.None? {
      return Err(500, TransactionNotFoundMessage);
    }

    var reversed := ReverseStock(units, inventory, req.companyId, req.products, req.createdBy);
    if reversed.Err? {
      units.units := u0;
      inventory.records := i0;
      return Err(reversed.status, reversed.message);
    }

    r := Complete(req, txn.value, units, inventory, store, counters, ledger, payments, u0, i0,
                  returnId, debitId, creditId, now, datePart, counterError, receiptError);
  }

  /** Steps 3 to 7 of `createPOSReturn`: save the return, post the ledger
      pair, record a cash refund, write the receipt, then commit, or abort
      back to the units `u0` and records `i0` of before the return. */
  method Complete(req: ReturnRequest, txn: PosTransactions.PosTransaction,
                  units: InventoryUnits.UnitStore, inventory: Inventory.InventoryStore,
                  store: ReturnStore, counters: Counters.CounterStore,
                  ledger: LedgerModel.LedgerStore, payments: PaymentStore,
                  u0: seq<InventoryUnits.InventoryUnit>, i0: seq<Inventory.InventoryRecord>,
                  returnId: Id, debitId: Id, creditId: Id, now: int, datePart: string,
                  counterError: Option<string>, receiptError: Option<string>)
    returns (r: Result<ReturnRecord>)
    modifies units, inventory, store, counters, ledger, payments
    ensures (r, World(units.units, inventory.records, store.stored, counters.docs, ledger.rows, payments.payments)) ==
      CompleteReturn(req, txn, World(u0, i0, old(store.stored), old(counters.docs), old(ledger.rows), old(payments.payments)),
                     old(units.units), old(inventory.records), returnId, debitId, creditId, now, datePart, counterError, receiptError)
  {
    var s0 := store.stored;
    var saved := store.Save(Draft(req, returnId, now), counters, datePart, counterError);
    if saved.Err? {
      units.units := u0;
      inventory.records := i0;
      return Err(saved.status, saved.message);
    }

    var posted := LedgerService.CreateDoubleLedgerEntry(ledger, ReturnPost(req, txn, returnId), debitId, creditId, now);

    var p0 := payments.payments;
    if req.refundMethod == "Cash" {
      payments.payments := payments.payments + [Refund(req, txn)];
    }

    if receiptError.Some? {
      units.units := u0;
      inventory.records := i0;
      store.stored := s0;
      payments.payments := p0;
      return Err(500, receiptError.value);
    }
    r := Ok(saved.value);
    var w := World(u0, i0, s0, old(counters.docs), old(ledger.rows), p0);
    assert !Taken(w.stored, NumberFor(w.stored, req.companyId, datePart));
    assert saved.value == SavedReturn(req, w.stored, w.docs, returnId, now, datePart);
    assert store.stored == w.stored + [saved.value];
    assert counters.docs == Counters.Next(w.docs, CounterName, req.companyId).0;
    assert ledger.rows == w.rows + ReturnPair(req, txn, returnId, debitId, creditId, now);
    assert payments.payments == w.payments + (if req.refundMethod == "Cash" then [Refund(req, txn)] else []);
  }

  // ---------------------------------------------------------------------
  // What a return promises.

  /** A return succeeds exactly when the sale is found, every serial is
      sold, the counter advances, the number is free and the receipt is
      written. */
  lemma ReturnSucceedsIff(req: ReturnRequest, txns: seq<PosTransactions.PosTransaction>, w: World,
                          returnId: Id, debitId: Id, creditId: Id, now: int, datePart: string,
                          counterError: Option<string>, receiptError: Option<string>)
    ensures ProcessReturn(req, txns, w, returnId, debitId, creditId, now, datePart, counterError, receiptError).0.Ok? <==>
      && PosTransactions.FindLive(txns, req.originalTransactionId).Some?
      && RestoreLines(w.units, req.companyId, req.products, req.createdBy).Ok?
      && counterError.None?
      && !Taken(w.stored, NumberFor(w.stored, req.companyId, datePart))
      && receiptError.None?
  {
  }

  /** Under the counter schema as written, the first return of a company
      whose counter name another company already holds fails with the
      upsert's duplicate-key error, and the whole return is undone. */
  lemma AsWrittenCounterBlocksReturn(req: ReturnRequest, txns: seq<PosTransactions.PosTransaction>, w: World,
                                     returnId: Id, debitId: Id, creditId: Id, now: int, datePart: string,
                                     receiptError: Option<string>)
    requires PosTransactions.FindLive(txns, req.originalTransactionId).Some?
    requires RestoreLines(w.units, req.companyId, req.products, req.createdBy).Ok?
    requires FirstWhere(w.docs, Counters.PairOf(CounterName, req.companyId)).None?
    requires FirstWhere(w.docs, Counters.NameOf(CounterName)).Some?
    ensures ProcessReturn(req, txns, w, returnId, debitId, creditId, now, datePart,
                          AsWrittenCounterError(w.docs, req.companyId), receiptError)
            == (Err(500, Counters.DuplicateKeyMessage), w)
  {
    assert Counters.NextAsWritten(w.docs, CounterName, req.companyId) == Err(500, Counters.DuplicateKeyMessage);
  }

  /** A failed return leaves the session's collections as they were; only
      the counter advance and the ledger pair may remain. */
  lemma FailedReturnRollsBack(req: ReturnRequest, txns: seq<PosTransactions.PosTransaction>, w: World,
                              returnId: Id, debitId: Id, creditId: Id, now: int, datePart: string,
                              counterError: Option<string>, receiptError: Option<string>)
    ensures var (r, w') := ProcessReturn(req, txns, w, returnId, debitId, creditId, now, datePart, counterError, receiptError);
      r.Err? ==>
        && r.status == 500
        && w'.units == w.units && w'.records == w.records
        && w'.stored == w.stored && w'.payments == w.payments
        && (w'.docs == w.docs || w'.docs == Counters.Next(w.docs, CounterName, req.companyId).0)
        && (w'.rows == w.rows ||
            exists txn :: w'.rows == w.rows + ReturnPair(req, txn, returnId, debitId, creditId, now))
  {
    var found := PosTransactions.FindLive(txns, req.originalTransactionId);
    if found.Some? && RestoreLines(w.units, req.companyId, req.products, req.createdBy).Ok? {
      var txn := found.value;
      var w' := ProcessReturn(req, txns, w, returnId, debitId, creditId, now, datePart, counterError, receiptError).1;
      if counterError.None? && !Taken(w.stored, NumberFor(w.stored, req.companyId, datePart)) && receiptError.Some? {
        assert w'.rows == w.rows + ReturnPair(req, txn, returnId, debitId, creditId, now);
      }
    }
  }

  /** A return whose serials are all found and whose number is free posts
      the ledger pair even when the receipt then fails. */
  lemma LedgerPairSurvivesReceiptFailure(req: ReturnRequest, txns: seq<PosTransactions.PosTransaction>, w: World,
                                         returnId: Id, debitId: Id, creditId: Id, now: int, datePart: string,
                                         message: string)
    requires PosTransactions.FindLive(txns, req.originalTransactionId).Some?
    requires RestoreLines(w.units, req.companyId, req.products, req.createdBy).Ok?
    requires !Taken(w.stored, NumberFor(w.stored, req.companyId, datePart))
    ensures var (r, w') := ProcessReturn(req, txns, w, returnId, debitId, creditId, now, datePart, None, Some(message));
      && r == Err(500, message)
      && |w'.rows| == |w.rows| + 2
      && w'.rows[|w.rows|].body == LedgerModel.Posting(SalesReturnAccount, LedgerModel.Debit, req.totalRefund)
      && w'.stored == w.stored
  {
    var txn := PosTransactions.FindLive(txns, req.originalTransactionId).value;
    ReturnPostBalanced(req, txn, returnId, debitId, creditId, now);
  }

  /** Whatever the outcome, the ledger's debits and credits move together. */
  lemma ReturnKeepsLedgerBalance(req: ReturnRequest, txns: seq<PosTransactions.PosTransaction>, w: World,
                                 returnId: Id, debitId: Id, creditId: Id, now: int, datePart: string,
                                 counterError: Option<string>, receiptError: Option<string>)
    ensures var w' := ProcessReturn(req, txns, w, returnId, debitId, creditId, now, datePart, counterError, receiptError).1;
      LedgerService.Debits(w'.rows) - LedgerService.Credits(w'.rows) ==
      LedgerService.Debits(w.rows) - LedgerService.Credits(w.rows)
  {
    var txn := PosTransactions.FindLive(txns, req.originalTransactionId);
    if txn.Some? {
      ReturnPostBalanced(req, txn.value, returnId, debitId, creditId, now);
      LedgerService.PostKeepsBalance(w.rows, ReturnPost(req, txn.value, returnId), debitId, creditId, now);
    }
  }

  /** A successful return stores the numbered record, restores its serials,
      and records a refund of −|totalRefund| for cash and nothing otherwise. */
  lemma SuccessfulReturnEffects(req: ReturnRequest, txns: seq<PosTransactions.PosTransaction>, w: World,
                                returnId: Id, debitId: Id, creditId: Id, now: int, datePart: string)
    ensures var (r, w') := ProcessReturn(req, txns, w, returnId, debitId, creditId, now, datePart, None, None);
      r.Ok? ==>
        && w'.stored == w.stored + [r.value]
        && r.value.returnNumber == Some(NumberFor(w.stored, req.companyId, datePart))
        && r.value.counterNumber == Some(Counters.Next(w.docs, CounterName, req.companyId).1)
        && InventoryUnits.SoldCount(w'.units) == InventoryUnits.SoldCount(w.units) - SumOf(req.products, SerialCount)
        && (req.refundMethod == "Cash" ==>
              && |w'.payments| == |w.payments| + 1
              && w'.payments[|w.payments|].amountPaid == -Abs(req.totalRefund)
              && w'.payments[|w.payments|].paymentStatus == "Refunded")
        && (req.refundMethod != "Cash" ==> w'.payments == w.payments)
  {
    if RestoreLines(w.units, req.companyId, req.products, req.createdBy).Ok? {
      RestoreLinesCounts(w.units, req.companyId, req.products, req.createdBy);
    }
  }

  /** When every line's batch is in its pair's one record, a return keeps
      every total equal to its batch sum, whatever its outcome. */
  lemma ReturnKeepsInventoryConsistent(req: ReturnRequest, txns: seq<PosTransactions.PosTransaction>, w: World,
                                       returnId: Id, debitId: Id, creditId: Id, now: int, datePart: string,
                                       counterError: Option<string>, receiptError: Option<string>)
    requires Inventory.Consistent(w.records)
    requires forall l :: 0 <= l < |req.products| ==> Stocked(w.records, req.companyId, req.products[l])
    ensures Inventory.Consistent(ProcessReturn(req, txns, w, returnId, debitId, creditId, now, datePart, counterError, receiptError).1.records)
  {
    RestockLinesKeepsConsistent(w.records, req.companyId, req.products);
  }

  // ---------------------------------------------------------------------
  // The listing.

  datatype SortField = CreatedAt | CounterNumber | TotalRefund

  /** The query of `getAllReturns`; an empty string counts as absent. */
  datatype ReturnQuery = ReturnQuery(
    companyId: Option<Id>,
    returnNumber: Option<string>,
    originalTransactionId: Option<Id>,
    counterNumber: Option<string>,
    sortField: SortField,
    ascending: bool,
    page: Pos,
    limit: Pos)

  datatype ReturnPage = ReturnPage(entries: seq<ReturnRecord>, total: nat, page: nat, limit: nat, totalPages: nat)

  predicate Given(x: Option<string>) { x.Some? && x.value != "" }

  /** `Number(counterNumber)` on text of digits; anything else is NaN and
      matches nothing. */
  function CounterQuery(s: string): Option<nat>
  {
    if |s| > 0 && AllDigits(s) then Some(Value(s)) else None
  }

  /** The filter: company, a case-insensitive substring of the return
      number, the original sale, and the counter number, each when given. */
  predicate ReturnMatch(q: ReturnQuery, r: ReturnRecord)
  {
    && (!Given(q.companyId) || r.companyId == q.companyId.value)
    && (!Given(q.returnNumber) ||
        (r.returnNumber.Some? && Contains(LowerStr(r.returnNumber.value), LowerStr(q.returnNumber.value))))
    && (!Given(q.originalTransactionId) || r.originalTransactionId == q.originalTransactionId.value)
    && (!Given(q.counterNumber) ||
        (CounterQuery(q.counterNumber.value).Some? && r.counterNumber == CounterQuery(q.counterNumber.value)))
  }

  function ReturnMatchOf(q: ReturnQuery): ReturnRecord -> bool
  {
    r => ReturnMatch(q, r)
  }

  /** The sort key; a missing counter sorts as 0. An ascending sort is a
      descending sort on the negated key. */
  function KeyOf(f: SortField, ascending: bool, r: ReturnRecord): int
  {
    var k := match f
      case CreatedAt => r.createdAt
      case CounterNumber => if r.counterNumber.Some? then r.counterNumber.value else 0
      case TotalRefund => r.totalRefund;
    if ascending then -k else k
  }

  function SortKey(f: SortField, ascending: bool): ReturnRecord -> int
  {
    r => KeyOf(f, ascending, r)
  }

  /** `getAllReturns`: the matches sorted on the field (descending unless
      'asc'), the requested page of them, their count and the page count. */
  function GetAllReturns(stored: seq<ReturnRecord>, q: ReturnQuery): (r: ReturnPage)
    ensures |r.entries| <= q.limit
    ensures forall k :: 0 <= k < |r.entries| ==> ReturnMatch(q, r.entries[k])
    ensures r.total == |Filter(stored, ReturnMatchOf(q))|
    ensures forall i, j :: 0 <= i < j < |r.entries| ==>
      KeyOf(q.sortField, q.ascending, r.entries[i]) >= KeyOf(q.sortField, q.ascending, r.entries[j])
    ensures IsPage(r.entries, SortDesc(Filter(stored, ReturnMatchOf(q)), SortKey(q.sortField, q.ascending)), q.page, q.limit)
    ensures PageCount(r.totalPages, r.total, q.limit)
  {
    var matches := Filter(stored, ReturnMatchOf(q));
    ReturnListing(stored, q);
    ReturnPage(SortedPage(matches, q), |matches|, q.page, q.limit, CeilDiv(|matches|, q.limit))
  }

  /** No matching return is out of reach: the i-th match in key order is
      item i % limit of page i / limit + 1. */
  lemma EveryReturnListed(stored: seq<ReturnRecord>, q: ReturnQuery, i: nat)
    requires i < |Filter(stored, ReturnMatchOf(q))| && q.page == i / q.limit + 1
    ensures i % q.limit < |GetAllReturns(stored, q).entries|
    ensures GetAllReturns(stored, q).entries[i % q.limit]
      == SortDesc(Filter(stored, ReturnMatchOf(q)), SortKey(q.sortField, q.ascending))[i]
  {
    var sorted := SortDesc(Filter(stored, ReturnMatchOf(q)), SortKey(q.sortField, q.ascending));
    var e := GetAllReturns(stored, q).entries;
    assert IsPage(e, sorted, q.page, q.limit);
    OnPage(e, sorted, i, q.page, q.limit);
  }

  /** The requested page of the matches once sorted. */
  function SortedPage(matches: seq<ReturnRecord>, q: ReturnQuery): seq<ReturnRecord>
  {
    Paginate(SortDesc(matches, SortKey(q.sortField, q.ascending)), q.page, q.limit)
  }

  /** The page of the sorted matches holds matches only, in key order. */
  lemma ReturnListing(stored: seq<ReturnRecord>, q: ReturnQuery)
    ensures |SortedPage(Filter(stored, ReturnMatchOf(q)), q)| <= q.limit
    ensures forall k :: 0 <= k < |SortedPage(Filter(stored, ReturnMatchOf(q)), q)| ==>
      ReturnMatch(q, SortedPage(Filter(stored, ReturnMatchOf(q)), q)[k])
    ensures forall i, j :: 0 <= i < j < |SortedPage(Filter(stored, ReturnMatchOf(q)), q)| ==>
      KeyOf(q.sortField, q.ascending, SortedPage(Filter(stored, ReturnMatchOf(q)), q)[i])
        >= KeyOf(q.sortField, q.ascending, SortedPage(Filter(stored, ReturnMatchOf(q)), q)[j])
  {
    var matches := Filter(stored, ReturnMatchOf(q));
    var key := SortKey(q.sortField, q.ascending);
    var sorted := SortDesc(matches, key);
    SortDescSorted(matches, key);
    PermutationKeeps(matches, sorted, ReturnMatchOf(q));
    SortedPageOf(sorted, key, ReturnMatchOf(q), q.page, q.limit);
  }
}
