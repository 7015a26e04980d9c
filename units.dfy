/** Serialized stock units (src/models/inventoryUnits.model.js) and the
    step of a return that puts a sold unit back in stock
    (src/controllers/returns.controller.js). */
module InventoryUnits {
  import opened Common
  import opened Text

  datatype UnitStatus = InStock | Sold | Returned | Faulty

  /** One unit; `serialNumber` is stored trimmed. The model has no
      soft-delete field and no pre-find hook. */
  datatype InventoryUnit = InventoryUnit(
    id: Id,
    companyId: Id,
    productId: Id,
    inventoryId: Id,
    batchBarcode: string,
    serialNumber: string,
    status: UnitStatus,
    soldOn: Option<int>,
    updatedBy: Option<Id>)

  class UnitStore {
    var units: seq<InventoryUnit>

    constructor()
      ensures units == []
    {
      units := [];
    }
  }

  /** The filter of the return's `findOneAndUpdate`: a sold unit of the
      company, product and batch whose serial is the trimmed request serial. */
  predicate SoldMatch(c: Id, p: Id, batch: string, serial: string, u: InventoryUnit)
  {
    && u.companyId == c && u.productId == p && u.batchBarcode == batch
    && u.serialNumber == Trim(serial) && u.status == Sold
  }

  function SoldMatchOf(c: Id, p: Id, batch: string, serial: string): InventoryUnit -> bool
  {
    u => SoldMatch(c, p, batch, serial, u)
  }

  /** The error names the serial as the request wrote it, untrimmed. */
  function SerialMessage(serial: string): string
  {
    "Serial number " + serial + " not found or already returned."
  }

  /** `$set: { status: 'In Stock', updatedBy }`; `returnedOn` is not a field
      of the model and is dropped. */
  function Restored(u: InventoryUnit, user: Id): InventoryUnit
  {
    u.(status := InStock, updatedBy := Some(user))
  }

  /** One serial of a return: the first matching sold unit goes back in
      stock; no match is an error. */
  function RestoreUnit(units: seq<InventoryUnit>, c: Id, p: Id, batch: string, serial: string, user: Id)
    : (r: Result<seq<InventoryUnit>>)
    ensures r.Err? <==> forall i :: 0 <= i < |units| ==> !SoldMatch(c, p, batch, serial, units[i])
    ensures r.Err? ==> r == Err(500, SerialMessage(serial))
    ensures r.Ok? ==> |r.value| == |units|
    ensures r.Ok? ==>
      exists i :: 0 <= i < |units| && SoldMatch(c, p, batch, serial, units[i]) &&
        r.value == units[i := Restored(units[i], user)]
  {
    match FirstWhere(units, SoldMatchOf(c, p, batch, serial))
    case None => Err(500, SerialMessage(serial))
    case Some(i) => Ok(units[i := Restored(units[i], user)])
  }

  /** All serials of one line, in order; the first failure ends it. */
  function RestoreSerials(units: seq<InventoryUnit>, c: Id, p: Id, batch: string, serials: seq<string>, user: Id)
    : Result<seq<InventoryUnit>>
  {
    if |serials| == 0 then Ok(units)
    else
      match RestoreSerials(units, c, p, batch, serials[..|serials| - 1], user)
      case Err(s, m) => Err(s, m)
      case Ok(us) => RestoreUnit(us, c, p, batch, serials[|serials| - 1], user)
  }

  /** A failure of a prefix of the serials is the failure of them all. */
  lemma {:induction false} RestoreSerialsErr(units: seq<InventoryUnit>, c: Id, p: Id, batch: string,
                                             serials: seq<string>, j: nat, user: Id)
    requires j <= |serials| && RestoreSerials(units, c, p, batch, serials[..j], user).Err?
    ensures RestoreSerials(units, c, p, batch, serials, user) == RestoreSerials(units, c, p, batch, serials[..j], user)
    decreases |serials| - j
  {
    if j < |serials| {
      var n := |serials|;
      assert serials[..j + 1][..j] == serials[..j];
      RestoreSerialsErr(units, c, p, batch, serials, j + 1, user);
    } else {
      assert serials[..j] == serials;
    }
  }

  // ---------------------------------------------------------------------
  // What a restore changes.

  function SoldFlag(u: InventoryUnit): int { if u.status == Sold then 1 else 0 }

  /** The number of sold units. */
  function SoldCount(units: seq<InventoryUnit>): int { SumOf(units, SoldFlag) }

  /** The same unit up to its status and updater. */
  predicate SameUnit(a: InventoryUnit, b: InventoryUnit)
  {
    && a.id == b.id && a.companyId == b.companyId && a.productId == b.productId
    && a.inventoryId == b.inventoryId && a.batchBarcode == b.batchBarcode
    && a.serialNumber == b.serialNumber && a.soldOn == b.soldOn
  }

  /** One restored serial takes exactly one unit out of 'Sold'. */
  lemma RestoreUnitCounts(units: seq<InventoryUnit>, c: Id, p: Id, batch: string, serial: string, user: Id)
    requires RestoreUnit(units, c, p, batch, serial, user).Ok?
    ensures var us := RestoreUnit(units, c, p, batch, serial, user).value;
      && SoldCount(us) == SoldCount(units) - 1
      && |us| == |units|
      && forall i :: 0 <= i < |units| ==> SameUnit(us[i], units[i])
  {
    var i :| 0 <= i < |units| && SoldMatch(c, p, batch, serial, units[i]) &&
      RestoreUnit(units, c, p, batch, serial, user).value == units[i := Restored(units[i], user)];
    SumOfUpdate(units, i, Restored(units[i], user), SoldFlag);
  }

  /** Each restored serial takes exactly one unit out of 'Sold', and nothing
      but status and updater changes: every unit keeps its identity, serial,
      company, product and batch. */
  lemma {:induction false} RestoreSerialsCounts(units: seq<InventoryUnit>, c: Id, p: Id, batch: string,
                                                serials: seq<string>, user: Id)
    requires RestoreSerials(units, c, p, batch, serials, user).Ok?
    ensures var us := RestoreSerials(units, c, p, batch, serials, user).value;
      && SoldCount(us) == SoldCount(units) - |serials|
      && |us| == |units|
      && forall i :: 0 <= i < |units| ==> SameUnit(us[i], units[i])
  {
    if |serials| > 0 {
      var n := |serials| - 1;
      RestoreSerialsCounts(units, c, p, batch, serials[..n], user);
      var us := RestoreSerials(units, c, p, batch, serials[..n], user).value;
      RestoreUnitCounts(us, c, p, batch, serials[n], user);
    }
  }

  /** A serial restored once is no longer sold, so naming it a second time in
      the same return fails. */
  lemma RestoreTwiceFails(units: seq<InventoryUnit>, c: Id, p: Id, batch: string, serial: string, user: Id)
    requires forall i, j :: 0 <= i < j < |units| ==> units[i].serialNumber != units[j].serialNumber
    requires RestoreUnit(units, c, p, batch, serial, user).Ok?
    ensures RestoreUnit(RestoreUnit(units, c, p, batch, serial, user).value, c, p, batch, serial, user).Err?
  {
    var us := RestoreUnit(units, c, p, batch, serial, user).value;
    var i :| 0 <= i < |units| && SoldMatch(c, p, batch, serial, units[i]) && us == units[i := Restored(units[i], user)];
    forall k | 0 <= k < |us| ensures !SoldMatch(c, p, batch, serial, us[k]) {
      if k < i {
        assert units[k].serialNumber != units[i].serialNumber;
      } else if k > i {
        assert units[i].serialNumber != units[k].serialNumber;
      }
    }
  }
}
