/** Stock records (src/controllers/inventory.controller.js and
    src/models/inventory.model.js): one record per (product, company) holding
    its batches and a `totalQuantity` kept equal to the batch sum. */
module Inventory {
  import opened Common
  import Products

  /** One entry of `batches`; `id` is the subdocument's own `_id`. */
  datatype Batch = Batch(id: Id, batchId: string, quantity: int, purchasePrice: int, sellingPrice: int)

  datatype InventoryRecord = InventoryRecord(
    id: Id,
    companyId: Id,
    productId: Id,
    barcode: string,
    batches: seq<Batch>,
    totalQuantity: int,
    isDeleted: bool,
    createdBy: Id,
    updatedBy: Option<Id>,
    deletedBy: Option<Id>)

  function Qty(b: Batch): int { b.quantity }

  /** `batches.reduce((sum, batch) => sum + batch.quantity, 0)` */
  function TotalOf(batches: seq<Batch>): int { SumOf(batches, Qty) }

  /** Raising one batch's quantity raises the batch sum by the same amount. */
  lemma TotalOfIncrement(batches: seq<Batch>, k: nat, q: int)
    requires k < |batches|
    ensures TotalOf(batches[k := batches[k].(quantity := batches[k].quantity + q)]) == TotalOf(batches) + q
  {
    SumOfUpdate(batches, k, batches[k].(quantity := batches[k].quantity + q), Qty);
  }

  /** Every record's total is the sum of its batches. */
  predicate Consistent(records: seq<InventoryRecord>)
  {
    forall i :: 0 <= i < |records| ==> records[i].totalQuantity == TotalOf(records[i].batches)
  }

  /** At most one live record per (product, company). */
  predicate UniqueLive(records: seq<InventoryRecord>)
  {
    forall i, j :: 0 <= i < j < |records| && !records[i].isDeleted && !records[j].isDeleted ==>
      records[i].productId != records[j].productId || records[i].companyId != records[j].companyId
  }

  predicate LiveFor(p: Id, c: Id, r: InventoryRecord)
  {
    !r.isDeleted && r.productId == p && r.companyId == c
  }

  function LiveForOf(p: Id, c: Id): InventoryRecord -> bool
  {
    r => LiveFor(p, c, r)
  }

  /** `findById` under the pre-find hook: only live records are seen. */
  predicate LiveWithId(id: Id, r: InventoryRecord)
  {
    !r.isDeleted && r.id == id
  }

  function LiveWithIdOf(id: Id): InventoryRecord -> bool
  {
    r => LiveWithId(id, r)
  }

  datatype InventoryRequest = InventoryRequest(productId: Id, companyId: Id, barcode: string, batches: seq<Batch>)

  const ProductNotFoundMessage := "Product not found."
  const AlreadyExistsMessage := "Inventory for this product already exists."
  const NotFoundMessage := "Inventory not found."

  function NewRecord(req: InventoryRequest, user: Id, id: Id): (r: InventoryRecord)
    ensures r.totalQuantity == TotalOf(req.batches) && !r.isDeleted
  {
    InventoryRecord(id, req.companyId, req.productId, req.barcode, req.batches, TotalOf(req.batches),
                    false, user, None, None)
  }

  /** The record after `updateInventory`: batches replaced wholesale, the
      total recomputed, the updater recorded. */
  function Updated(r: InventoryRecord, batches: seq<Batch>, user: Id): (u: InventoryRecord)
    ensures u.totalQuantity == TotalOf(batches) && u.batches == batches
    ensures u.id == r.id && u.productId == r.productId && u.companyId == r.companyId && u.isDeleted == r.isDeleted
  {
    r.(batches := batches, totalQuantity := TotalOf(batches), updatedBy := Some(user))
  }

  /** A record's find by id: absent and soft-deleted records are both
      "not found". */
  function GetInventoryById(records: seq<InventoryRecord>, id: Id): (r: Result<InventoryRecord>)
    ensures r.Ok? ==> r.value.id == id && !r.value.isDeleted && r.value in records
    ensures r.Err? ==> r == Err(404, NotFoundMessage)
    ensures r.Err? <==> forall i :: 0 <= i < |records| ==> !LiveWithId(id, records[i])
  {
    match FirstWhere(records, LiveWithIdOf(id))
    case None => Err(404, NotFoundMessage)
    case Some(i) => Ok(records[i])
  }

  class InventoryStore {
    var records: seq<InventoryRecord>

    constructor()
      ensures records == []
    {
      records := [];
    }

    /** `createInventory`: the product must exist (deleted products count,
        the product model has no pre-find hook), and no live record may exist
        for the pair. */
    method CreateInventory(products: seq<Products.Product>, req: InventoryRequest, user: Id, newId: Id)
      returns (r: Result<InventoryRecord>)
      modifies this
      ensures FirstWhere(products, Products.WithId(req.productId)).None? ==>
        r == Err(404, ProductNotFoundMessage) && records == old(records)
      ensures (FirstWhere(products, Products.WithId(req.productId)).Some? &&
               FirstWhere(old(records), LiveForOf(req.productId, req.companyId)).Some?) ==>
        r == Err(400, AlreadyExistsMessage) && records == old(records)
      ensures (FirstWhere(products, Products.WithId(req.productId)).Some? &&
               FirstWhere(old(records), LiveForOf(req.productId, req.companyId)).None?) ==>
        r == Ok(NewRecord(req, user, newId)) && records == old(records) + [r.value]
      ensures Consistent(old(records)) ==> Consistent(records)
      ensures UniqueLive(old(records)) ==> UniqueLive(records)
    {
      if FirstWhere(products, Products.WithId(req.productId)).None? {
        return Err(404, ProductNotFoundMessage);
      }
      if FirstWhere(records, LiveForOf(req.productId, req.companyId)).Some? {
        return Err(400, AlreadyExistsMessage);
      }
      var rec := NewRecord(req, user, newId);
      CreateKeepsUnique(records, rec);
      records := records + [rec];
      r := Ok(rec);
    }

    /** `updateInventory` */
    method UpdateInventory(id: Id, batches: seq<Batch>, user: Id) returns (r: Result<InventoryRecord>)
      modifies this
      ensures FirstWhere(old(records), LiveWithIdOf(id)).None? ==> r == Err(404, NotFoundMessage) && records == old(records)
      ensures FirstWhere(old(records), LiveWithIdOf(id)).Some? ==>
        var i := FirstWhere(old(records), LiveWithIdOf(id)).value;
        r == Ok(Updated(old(records)[i], batches, user)) && records == old(records)[i := r.value]
      ensures Consistent(old(records)) ==> Consistent(records)
      ensures UniqueLive(old(records)) ==> UniqueLive(records)
    {
      var i := FirstWhere(records, LiveWithIdOf(id));
      if i.None? {
        return Err(404, NotFoundMessage);
      }
      var u := Updated(records[i.value], batches, user);
      records := records[i.value := u];
      r := Ok(u);
    }

    /** `softDeleteInventory` with the model's `softDelete`. */
    method SoftDeleteInventory(id: Id, user: Id) returns (r: Result<()>)
      modifies this
      ensures FirstWhere(old(records), LiveWithIdOf(id)).None? ==> r == Err(404, NotFoundMessage) && records == old(records)
      ensures FirstWhere(old(records), LiveWithIdOf(id)).Some? ==>
        var i := FirstWhere(old(records), LiveWithIdOf(id)).value;
        r == Ok(()) && records == old(records)[i := old(records)[i].(isDeleted := true, deletedBy := Some(user))]
      ensures Consistent(old(records)) ==> Consistent(records)
      ensures UniqueLive(old(records)) ==> UniqueLive(records)
    {
      var i := FirstWhere(records, LiveWithIdOf(id));
      if i.None? {
        return Err(404, NotFoundMessage);
      }
      records := records[i.value := records[i.value].(isDeleted := true, deletedBy := Some(user))];
      r := Ok(());
    }
  }

  lemma CreateKeepsUnique(records: seq<InventoryRecord>, rec: InventoryRecord)
    requires FirstWhere(records, LiveForOf(rec.productId, rec.companyId)).None?
    ensures UniqueLive(records) ==> UniqueLive(records + [rec])
  {
    var rs := records + [rec];
    if UniqueLive(records) {
      forall i, j | 0 <= i < j < |rs| && !rs[i].isDeleted && !rs[j].isDeleted
        ensures rs[i].productId != rs[j].productId || rs[i].companyId != rs[j].companyId
      {
        if j == |records| {
          assert !LiveFor(rec.productId, rec.companyId, records[i]);
        }
      }
    }
  }

  /** After the soft delete of a live record it is no longer found by id,
      and a record for its pair may be created again. */
  lemma {:induction false} SoftDeleteHides(records: seq<InventoryRecord>, i: nat, user: Id)
    requires i < |records| && !records[i].isDeleted
    requires forall j :: 0 <= j < |records| && j != i ==> records[j].id != records[i].id
    ensures var rs := records[i := records[i].(isDeleted := true, deletedBy := Some(user))];
      GetInventoryById(rs, records[i].id).Err?
    ensures var rs := records[i := records[i].(isDeleted := true, deletedBy := Some(user))];
      UniqueLive(records) ==> FirstWhere(rs, LiveForOf(records[i].productId, records[i].companyId)).None?
  {
    var rs := records[i := records[i].(isDeleted := true, deletedBy := Some(user))];
    assert forall j :: 0 <= j < |rs| ==> !LiveWithId(records[i].id, rs[j]);
    if UniqueLive(records) {
      var p, c := records[i].productId, records[i].companyId;
      assert forall j :: 0 <= j < |rs| ==> !LiveFor(p, c, rs[j]);
      FirstWhereNone(rs, LiveForOf(p, c));
    }
  }


  // ---------------------------------------------------------------------
  // The listing.

  datatype InventoryQuery = InventoryQuery(companyId: Option<Id>, page: Pos, limit: Pos)

  datatype InventoryPage = InventoryPage(inventoryItems: seq<InventoryRecord>, totalRecords: nat, currentPage: nat, totalPages: nat)

  /** The filter `{ companyId, isDeleted: false }`; an omitted company drops
      out of it. */
  predicate InventoryMatch(c: Option<Id>, r: InventoryRecord)
  {
    !r.isDeleted && (c.None? || r.companyId == c.value)
  }

  function MatchOf(c: Option<Id>): InventoryRecord -> bool
  {
    r => InventoryMatch(c, r)
  }

  /** `getAllInventory`: the requested page of the live records of the
      company in stored order, their count and the page count. */
  function GetAllInventory(records: seq<InventoryRecord>, q: InventoryQuery): (r: InventoryPage)
    ensures |r.inventoryItems| <= q.limit
    ensures forall k :: 0 <= k < |r.inventoryItems| ==> InventoryMatch(q.companyId, r.inventoryItems[k])
    ensures r.totalRecords == |Filter(records, MatchOf(q.companyId))|
    ensures IsPage(r.inventoryItems, Filter(records, MatchOf(q.companyId)), q.page, q.limit)
    ensures PageCount(r.totalPages, r.totalRecords, q.limit)
  {
    var matches := Filter(records, MatchOf(q.companyId));
    InventoryPage(Paginate(matches, q.page, q.limit), |matches|, q.page, CeilDiv(|matches|, q.limit))
  }

  /** No live record of the company is out of reach: the i-th is item
      i % limit of page i / limit + 1. */
  lemma EveryRecordListed(records: seq<InventoryRecord>, q: InventoryQuery, i: nat)
    requires i < |Filter(records, MatchOf(q.companyId))| && q.page == i / q.limit + 1
    ensures i % q.limit < |GetAllInventory(records, q).inventoryItems|
    ensures GetAllInventory(records, q).inventoryItems[i % q.limit] == Filter(records, MatchOf(q.companyId))[i]
  {
    OnPage(GetAllInventory(records, q).inventoryItems, Filter(records, MatchOf(q.companyId)), i, q.page, q.limit);
  }
}
