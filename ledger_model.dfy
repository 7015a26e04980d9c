/** The `Ledger` collection (src/models/ledger.model.js): its rows, the
    pre-find filter that hides soft-deleted rows, `softDelete`, and the
    running-balance writer `manageLedgerEntry`. */
module LedgerModel {
  import opened Common

  datatype EntryType = Debit | Credit

  /** The two shapes of row written to the collection: the double-entry
      service writes `account`/`entryType`/`amount`; `manageLedgerEntry`
      writes captions, both amounts and a running `balance`. */
  datatype RowBody =
    | Posting(account: string, entryType: EntryType, amount: int)
    | Running(debitCaption: Option<string>, creditCaption: Option<string>,
              debitAmount: int, creditAmount: int, balance: int)

  datatype LedgerRow = LedgerRow(
    id: Id,
    companyId: Id,
    transactionId: Option<Id>,
    transactionType: string,
    referenceType: Option<string>,
    date: int,
    description: Option<string>,
    linkedEntityId: Option<Id>,
    invoiceId: Option<Id>,
    accountId: Option<Id>,
    createdBy: Id,
    body: RowBody,
    isDeleted: bool,
    deletedBy: Option<Id>)

  /** The stored `balance`; a posting row has the schema default 0. */
  function Balance(r: LedgerRow): int
  {
    if r.body.Running? then r.body.balance else 0
  }

  /** What a running row adds to the balance: debit minus credit. */
  function Net(r: LedgerRow): int
  {
    if r.body.Running? then r.body.debitAmount - r.body.creditAmount else 0
  }

  predicate LiveIn(c: Id, r: LedgerRow)
  {
    !r.isDeleted && r.companyId == c
  }

  function LiveOf(c: Id): LedgerRow -> bool
  {
    r => LiveIn(c, r)
  }

  /** The rows of company `c` that a query sees: the pre-find hook adds
      `isDeleted: false` to every find. */
  function CompanyRows(rows: seq<LedgerRow>, c: Id): seq<LedgerRow>
  {
    Filter(rows, LiveOf(c))
  }

  /** `findOne({ companyId }).sort({ date: -1 })`: the live row of the company
      with the greatest date; among rows with that date, the one inserted last. */
  function Latest(rows: seq<LedgerRow>, c: Id): (r: Option<nat>)
    ensures r.Some? ==> r.value < |rows| && LiveIn(c, rows[r.value])
    ensures r.Some? ==> forall j :: 0 <= j < |rows| && LiveIn(c, rows[j]) ==> rows[j].date <= rows[r.value].date
    ensures r.None? <==> forall j :: 0 <= j < |rows| ==> !LiveIn(c, rows[j])
  {
    if |rows| == 0 then None
    else
      var n := |rows| - 1;
      var prev := Latest(rows[..n], c);
      assert forall j :: 0 <= j < n ==> rows[..n][j] == rows[j];
      if LiveIn(c, rows[n]) && (prev.None? || rows[prev.value].date <= rows[n].date) then Some(n)
      else prev
  }

  /** `ledger ? ledger.balance : 0` */
  function PreviousBalance(rows: seq<LedgerRow>, c: Id): int
  {
    match Latest(rows, c)
    case None => 0
    case Some(i) => Balance(rows[i])
  }

  /** The arguments of `manageLedgerEntry`; `None` is an omitted field. */
  datatype RunningRequest = RunningRequest(
    companyId: Option<Id>,
    transactionType: Option<string>,
    description: Option<string>,
    debitCaption: Option<string>,
    creditCaption: Option<string>,
    debitAmount: Option<int>,
    creditAmount: Option<int>,
    linkedEntityId: Option<Id>,
    invoiceId: Option<Id>,
    referenceType: Option<string>,
    createdBy: Option<Id>)

  /** An omitted amount defaults to 0. */
  function OrZero(x: Option<int>): int
  {
    if x.Some? then x.value else 0
  }

  /** The fields the schema requires are present, so `create` can succeed. */
  predicate Creatable(req: RunningRequest)
  {
    req.companyId.Some? && req.transactionType.Some? && req.createdBy.Some?
  }

  const FailedMessage := "Failed to manage ledger entry"

  /** The row `manageLedgerEntry` creates, dated `now` (the schema default). */
  function RunningRow(rows: seq<LedgerRow>, req: RunningRequest, id: Id, now: int): (row: LedgerRow)
    requires Creatable(req)
    ensures row.companyId == req.companyId.value && !row.isDeleted && row.date == now
    ensures row.body.Running?
    ensures row.body.debitAmount == OrZero(req.debitAmount) && row.body.creditAmount == OrZero(req.creditAmount)
    ensures Latest(rows, row.companyId).None? ==> row.body.balance == OrZero(req.debitAmount) - OrZero(req.creditAmount)
    ensures Latest(rows, row.companyId).Some? ==>
      row.body.balance == Balance(rows[Latest(rows, row.companyId).value]) + OrZero(req.debitAmount) - OrZero(req.creditAmount)
  {
    var c := req.companyId.value;
    var debit := OrZero(req.debitAmount);
    var credit := OrZero(req.creditAmount);
    LedgerRow(id, c, None, req.transactionType.value, req.referenceType, now, req.description,
              req.linkedEntityId, req.invoiceId, None, req.createdBy.value,
              Running(req.debitCaption, req.creditCaption, debit, credit, PreviousBalance(rows, c) + debit - credit),
              false, None)
  }

  /** The collection, in insertion order. */
  class LedgerStore {
    var rows: seq<LedgerRow>

    constructor()
      ensures rows == []
    {
      rows := [];
    }

    /** `Ledger.insertMany(entries)`: the rows are appended in the given order. */
    method InsertMany(entries: seq<LedgerRow>)
      modifies this
      ensures rows == old(rows) + entries
    {
      rows := rows + entries;
    }

    /** `ledger.softDelete(deletedBy)` on the loaded row at index `i`. */
    method SoftDelete(i: nat, deletedBy: Id)
      requires i < |rows|
      modifies this
      ensures rows == old(rows)[i := old(rows)[i].(isDeleted := true, deletedBy := Some(deletedBy))]
    {
      rows := rows[i := rows[i].(isDeleted := true, deletedBy := Some(deletedBy))];
    }

    /** `Ledger.manageLedgerEntry(req)`: appends one running row whose balance
        continues the company's latest one; a row the schema refuses leaves
        the collection unchanged and is reported with one fixed message. */
    method ManageLedgerEntry(req: RunningRequest, newId: Id, now: int) returns (r: Result<LedgerRow>)
      modifies this
      ensures !Creatable(req) ==> r == Err(500, FailedMessage) && rows == old(rows)
      ensures Creatable(req) ==> r == Ok(RunningRow(old(rows), req, newId, now)) && rows == old(rows) + [r.value]
    {
      if !Creatable(req) {
        return Err(500, FailedMessage);
      }
      var row := RunningRow(rows, req, newId, now);
      rows := rows + [row];
      r := Ok(row);
    }
  }

  // ---------------------------------------------------------------------
  // Soft deletion and the pre-find filter.

  /** After a soft delete, every query of every company sees the other rows
      exactly as before, and never the deleted one. */
  lemma SoftDeleteHides(rows: seq<LedgerRow>, i: nat, who: Id, c: Id)
    requires i < |rows|
    ensures CompanyRows(rows[i := rows[i].(isDeleted := true, deletedBy := Some(who))], c)
         == CompanyRows(rows[..i], c) + CompanyRows(rows[i + 1..], c)
  {
    var d := rows[i].(isDeleted := true, deletedBy := Some(who));
    var rows' := rows[i := d];
    assert rows' == rows[..i] + [d] + rows[i + 1..];
    FilterAppend(rows[..i] + [d], rows[i + 1..], LiveOf(c));
    FilterAppend(rows[..i], [d], LiveOf(c));
    assert Filter([d], LiveOf(c)) == [];
  }

  // ---------------------------------------------------------------------
  // The running balance.

  /** A company's rows are in date order. */
  ghost predicate Chronological(chain: seq<LedgerRow>)
  {
    forall i, j :: 0 <= i < j < |chain| ==> chain[i].date <= chain[j].date
  }

  /** Every stored balance is the running sum of debit minus credit up to and
      including its row. */
  ghost predicate RunningConsistent(chain: seq<LedgerRow>)
  {
    forall k :: 0 <= k < |chain| ==> chain[k].body.Running? && chain[k].body.balance == SumOf(chain[..k + 1], Net)
  }

  lemma CompanyRowsSnoc(rows: seq<LedgerRow>, x: LedgerRow, c: Id)
    ensures CompanyRows(rows + [x], c) == CompanyRows(rows, c) + (if LiveIn(c, x) then [x] else [])
  {
    FilterAppend(rows, [x], LiveOf(c));
    assert Filter([x], LiveOf(c)) == (if LiveIn(c, x) then [x] else []) by {
      assert [x][1..] == [];
    }
  }

  /** One more row: it becomes the latest when it is live and not older than
      the previous latest. */
  lemma LatestSnoc(p: seq<LedgerRow>, x: LedgerRow, c: Id)
    ensures var prev := Latest(p, c);
      Latest(p + [x], c) ==
        if LiveIn(c, x) && (prev.None? || p[prev.value].date <= x.date) then Some(|p|) else prev
  {
    var rows := p + [x];
    assert rows[..|p|] == p;
    var prev := Latest(p, c);
    if prev.Some? { assert rows[prev.value] == p[prev.value]; }
  }

  /** When a company's rows are in date order, the row the sorted `findOne`
      returns is the last one inserted. */
  lemma {:induction false} LatestIsLast(rows: seq<LedgerRow>, c: Id)
    requires Chronological(CompanyRows(rows, c))
    ensures Latest(rows, c).None? <==> |CompanyRows(rows, c)| == 0
    ensures Latest(rows, c).Some? ==> rows[Latest(rows, c).value] == CompanyRows(rows, c)[|CompanyRows(rows, c)| - 1]
  {
    if |rows| > 0 {
      var n := |rows| - 1;
      var p := rows[..n];
      var x := rows[n];
      assert rows == p + [x];
      CompanyRowsSnoc(p, x, c);
      LatestSnoc(p, x, c);
      var pc := CompanyRows(p, c);
      var chain := CompanyRows(rows, c);
      assert Chronological(pc) by {
        assert forall i :: 0 <= i < |pc| ==> pc[i] == chain[i];
      }
      LatestIsLast(p, c);
      var prev := Latest(p, c);
      if prev.Some? {
        assert rows[prev.value] == p[prev.value];
        if LiveIn(c, x) {
          assert pc[|pc| - 1] == chain[|pc| - 1] && chain[|chain| - 1] == x;
        }
      }
    } else {
      assert CompanyRows(rows, c) == [];
    }
  }

  /** The balance `manageLedgerEntry` reads is the last stored balance of the
      company, or 0 when the company has no live row. */
  lemma PreviousIsLastBalance(rows: seq<LedgerRow>, c: Id)
    requires Chronological(CompanyRows(rows, c))
    ensures var chain := CompanyRows(rows, c);
      PreviousBalance(rows, c) == if |chain| == 0 then 0 else Balance(chain[|chain| - 1])
  {
    LatestIsLast(rows, c);
  }

  /** Appending through `manageLedgerEntry` keeps every balance of the
      company equal to the running sum of debit minus credit, provided the
      company's rows are all running rows in date order. */
  lemma ManageKeepsRunningSum(rows: seq<LedgerRow>, req: RunningRequest, id: Id, now: int)
    requires Creatable(req)
    requires RunningConsistent(CompanyRows(rows, req.companyId.value))
    requires Chronological(CompanyRows(rows, req.companyId.value))
    ensures RunningConsistent(CompanyRows(rows + [RunningRow(rows, req, id, now)], req.companyId.value))
  {
    var c := req.companyId.value;
    var row := RunningRow(rows, req, id, now);
    CompanyRowsSnoc(rows, row, c);
    PreviousIsLastBalance(rows, c);
    ChainExtend(CompanyRows(rows, c), row);
  }

  /** A running row whose balance continues the last one extends a
      consistent chain to a consistent chain. */
  lemma ChainExtend(chain: seq<LedgerRow>, row: LedgerRow)
    requires RunningConsistent(chain) && row.body.Running?
    requires row.body.balance == (if |chain| == 0 then 0 else Balance(chain[|chain| - 1])) + Net(row)
    ensures RunningConsistent(chain + [row])
  {
    var chain' := chain + [row];
    assert row.body.balance == SumOf(chain', Net) by {
      assert chain'[..|chain'| - 1] == chain;
      if |chain| > 0 {
        assert chain[..|chain|] == chain;
      }
    }
    forall k | 0 <= k < |chain'|
      ensures chain'[k].body.Running? && chain'[k].body.balance == SumOf(chain'[..k + 1], Net)
    {
      if k < |chain| {
        assert chain'[..k + 1] == chain[..k + 1];
      } else {
        assert chain'[..k + 1] == chain';
      }
    }
  }

  /** The new row is dated `now`, so the company's rows stay in date order
      when `now` is not earlier than any of them. */
  lemma ManageKeepsChronological(rows: seq<LedgerRow>, req: RunningRequest, id: Id, now: int)
    requires Creatable(req)
    requires Chronological(CompanyRows(rows, req.companyId.value))
    requires forall j :: 0 <= j < |rows| && LiveIn(req.companyId.value, rows[j]) ==> rows[j].date <= now
    ensures Chronological(CompanyRows(rows + [RunningRow(rows, req, id, now)], req.companyId.value))
  {
    var c := req.companyId.value;
    var row := RunningRow(rows, req, id, now);
    var chain := CompanyRows(rows, c);
    CompanyRowsSnoc(rows, row, c);
    var chain' := chain + [row];
    FilterMembers(rows, LiveOf(c));
    forall i | 0 <= i < |chain| ensures chain[i].date <= now {
      assert chain[i] in rows;
    }
  }

  /** A row of another company, or any new row for an unrelated query,
      changes neither what another company's next entry reads nor that
      company's rows. */
  lemma OtherCompaniesUnaffected(rows: seq<LedgerRow>, x: LedgerRow, c: Id)
    requires x.companyId != c
    ensures CompanyRows(rows + [x], c) == CompanyRows(rows, c)
    ensures PreviousBalance(rows + [x], c) == PreviousBalance(rows, c)
  {
    CompanyRowsSnoc(rows, x, c);
    assert (rows + [x])[..|rows|] == rows;
  }

  /** The balance read for company `c` depends only on the company's live
      rows: dropping the rows of other companies and deleted rows changes nothing. */
  lemma PreviousBalanceOwnRows(rows: seq<LedgerRow>, c: Id)
    ensures PreviousBalance(CompanyRows(rows, c), c) == PreviousBalance(rows, c)
    ensures Latest(CompanyRows(rows, c), c).Some? <==> Latest(rows, c).Some?
    ensures Latest(rows, c).Some? ==>
      CompanyRows(rows, c)[Latest(CompanyRows(rows, c), c).value] == rows[Latest(rows, c).value]
  {
    OwnLatest(rows, c);
  }

  /** The latest row of a company is the same whether found among all rows
      or among the company's own live rows. */
  ghost predicate OwnLatestAgrees(rows: seq<LedgerRow>, c: Id)
  {
    var chain := CompanyRows(rows, c);
    && (Latest(chain, c).Some? <==> Latest(rows, c).Some?)
    && (Latest(rows, c).Some? ==> chain[Latest(chain, c).value] == rows[Latest(rows, c).value])
  }

  lemma {:induction false} OwnLatest(rows: seq<LedgerRow>, c: Id)
    ensures OwnLatestAgrees(rows, c)
  {
    if |rows| > 0 {
      var n := |rows| - 1;
      assert rows == rows[..n] + [rows[n]];
      OwnLatest(rows[..n], c);
      OwnLatestStep(rows[..n], rows[n], c);
    } else {
      assert CompanyRows(rows, c) == [];
    }
  }

  lemma OwnLatestStep(p: seq<LedgerRow>, x: LedgerRow, c: Id)
    requires OwnLatestAgrees(p, c)
    ensures OwnLatestAgrees(p + [x], c)
  {
    CompanyRowsSnoc(p, x, c);
    LatestSnoc(p, x, c);
    var pc := CompanyRows(p, c);
    var prev := Latest(p, c);
    if prev.Some? { assert (p + [x])[prev.value] == p[prev.value]; }
    if LiveIn(c, x) {
      assert CompanyRows(p + [x], c) == pc + [x];
      LatestSnoc(pc, x, c);
      if prev.Some? {
        var q := Latest(pc, c).value;
        assert (pc + [x])[q] == pc[q];
      }
    } else {
      assert CompanyRows(p + [x], c) == pc;
    }
  }
}
