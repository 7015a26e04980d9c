/** The dashboard (src/controllers/dashboard.controller.js): the ledger
    KPIs, the inventory value and table, the entity counts, the six-month
    sales chart and the top products, behind the company-id guard. The
    aggregation pipelines are modelled by what they compute over the rows
    given; the clock enters as the window start and the current month. */
module Dashboard {
  import opened Common
  import LedgerModel
  import Inventory
  import Products
  import Validation

  // ---------------------------------------------------------------------
  // Ledger KPIs.

  /** `$amount`: a posting row's amount; a running-balance row has no
      `amount` field, which `$sum` counts as 0. */
  function Amount(r: LedgerModel.LedgerRow): int
  {
    if r.body.Posting? then r.body.amount else 0
  }

  /** The `$match` of `getLedgerKPIs`: live rows of the company dated at or
      after the start of the window. */
  predicate InWindow(c: Id, start: int, r: LedgerModel.LedgerRow)
  {
    !r.isDeleted && r.companyId == c && r.date >= start
  }

  function InWindowOf(c: Id, start: int): LedgerModel.LedgerRow -> bool
  {
    r => InWindow(c, start, r)
  }

  /** One output document of `$group: { _id: '$transactionType', total }`. */
  datatype Group = Group(key: string, total: int)

  predicate KeyIs(key: string, g: Group) { g.key == key }

  function KeyIsOf(key: string): Group -> bool
  {
    g => KeyIs(key, g)
  }

  /** Adds one row to the running groups: its group's total grows, or a new
      group is opened at the end. */
  function AddTo(groups: seq<Group>, key: string, amount: int): seq<Group>
  {
    match FirstWhere(groups, KeyIsOf(key))
    case None => groups + [Group(key, amount)]
    case Some(i) => groups[i := Group(key, groups[i].total + amount)]
  }

  /** The `$group` stage over the matched rows. */
  function GroupByType(rows: seq<LedgerModel.LedgerRow>): seq<Group>
  {
    if |rows| == 0 then []
    else
      var last := rows[|rows| - 1];
      AddTo(GroupByType(rows[..|rows| - 1]), last.transactionType, Amount(last))
  }

  /** `getAmount(type)`: the total of the type's group, 0 when there is none. */
  function GetAmount(groups: seq<Group>, key: string): (r: int)
    ensures FirstWhere(groups, KeyIsOf(key)).None? ==> r == 0
  {
    match FirstWhere(groups, KeyIsOf(key))
    case None => 0
    case Some(i) => groups[i].total
  }

  /** A row's amount when it has the given type, else 0. */
  function AmountIf(key: string): LedgerModel.LedgerRow -> int
  {
    (r: LedgerModel.LedgerRow) => if r.transactionType == key then Amount(r) else 0
  }

  /** Adding a row changes the total of its own type by its amount and
      leaves every other type's total as it was. */
  lemma AddToAmount(groups: seq<Group>, rowKey: string, amount: int, key: string)
    ensures GetAmount(AddTo(groups, rowKey, amount), key) ==
      GetAmount(groups, key) + (if rowKey == key then amount else 0)
  {
    match FirstWhere(groups, KeyIsOf(rowKey))
    case None =>
      var g' := groups + [Group(rowKey, amount)];
      assert AddTo(groups, rowKey, amount) == g';
      if rowKey == key {
        assert KeyIsOf(key)(g'[|groups|]);
        assert forall j :: 0 <= j < |groups| ==> g'[j] == groups[j];
      } else {
        FirstWhereSnoc(groups, Group(rowKey, amount), KeyIsOf(key));
      }
    case Some(i) =>
      var g' := groups[i := Group(rowKey, groups[i].total + amount)];
      assert AddTo(groups, rowKey, amount) == g';
      FirstWhereSameMatches(g', groups, KeyIsOf(key));
      var f := FirstWhere(groups, KeyIsOf(key));
      if rowKey == key {
        assert f == Some(i);
        assert GetAmount(g', key) == g'[i].total;
      } else if f.Some? {
        assert f.value != i;
        assert GetAmount(g', key) == g'[f.value].total == groups[f.value].total;
      }
  }

  /** The grouped total of a type is the sum of the amounts of all rows of
      that type, debit and credit rows alike; a type without rows gets 0. */
  lemma {:induction false} GroupTotals(rows: seq<LedgerModel.LedgerRow>, key: string)
    ensures GetAmount(GroupByType(rows), key) == SumOf(rows, AmountIf(key))
  {
    if |rows| > 0 {
      var n := |rows| - 1;
      GroupTotals(rows[..n], key);
      AddToAmount(GroupByType(rows[..n]), rows[n].transactionType, Amount(rows[n]), key);
    }
  }

  /** The debit rows on 'Cash/Bank'. */
  function CashDebit(r: LedgerModel.LedgerRow): int
  {
    if r.body.Posting? && r.body.account == "Cash/Bank" && r.body.entryType == LedgerModel.Debit
    then r.body.amount else 0
  }

  datatype Kpis = Kpis(totalSales: int, paymentsReceived: int, discountsGiven: int, cashInBank: int)

  /** `getLedgerKPIs` */
  function GetLedgerKpis(rows: seq<LedgerModel.LedgerRow>, c: Id, start: int): Kpis
  {
    var matched := Filter(rows, InWindowOf(c, start));
    var groups := GroupByType(matched);
    Kpis(GetAmount(groups, "Sale"), GetAmount(groups, "Payment"), GetAmount(groups, "Discount"),
         SumOf(matched, CashDebit))
  }

  /** Each KPI is a sum over the window's rows: the three per-type totals
      take every row of their type, and cash in bank only the 'Cash/Bank'
      debits. */
  lemma KpisAreSums(rows: seq<LedgerModel.LedgerRow>, c: Id, start: int)
    ensures var k := GetLedgerKpis(rows, c, start);
      var matched := Filter(rows, InWindowOf(c, start));
      && k.totalSales == SumOf(matched, AmountIf("Sale"))
      && k.paymentsReceived == SumOf(matched, AmountIf("Payment"))
      && k.discountsGiven == SumOf(matched, AmountIf("Discount"))
      && k.cashInBank == SumOf(matched, CashDebit)
  {
    var matched := Filter(rows, InWindowOf(c, start));
    GroupTotals(matched, "Sale");
    GroupTotals(matched, "Payment");
    GroupTotals(matched, "Discount");
  }

  /** A balanced sale posting adds its amount twice to total sales, once for
      each of its two rows, and adds to cash in bank only when the debit row
      is on 'Cash/Bank'. */
  lemma SalePairCountsTwice(matched: seq<LedgerModel.LedgerRow>, debit: LedgerModel.LedgerRow,
                            credit: LedgerModel.LedgerRow, amount: int)
    requires debit.transactionType == "Sale" && credit.transactionType == "Sale"
    requires debit.body == LedgerModel.Posting("Cash/Bank", LedgerModel.Debit, amount)
    requires credit.body.Posting? && credit.body.entryType == LedgerModel.Credit && credit.body.amount == amount
    ensures GetAmount(GroupByType(matched + [debit, credit]), "Sale") == GetAmount(GroupByType(matched), "Sale") + 2 * amount
    ensures SumOf(matched + [debit, credit], CashDebit) == SumOf(matched, CashDebit) + amount
  {
    GroupTotals(matched + [debit, credit], "Sale");
    GroupTotals(matched, "Sale");
    SumOfAppend(matched, [debit, credit], AmountIf("Sale"));
    SumOfPair(debit, credit, AmountIf("Sale"));
    SumOfAppend(matched, [debit, credit], CashDebit);
    SumOfPair(debit, credit, CashDebit);
  }

  // ---------------------------------------------------------------------
  // Inventory value and table.

  /** `(batch.quantity || 0) * (batch.purchasePrice || 0)`; both fields are
      required by the schema, and 0 is its own default. */
  function BatchValue(b: Inventory.Batch): int { b.quantity * b.purchasePrice }

  function RecordValue(r: Inventory.InventoryRecord): int { SumOf(r.batches, BatchValue) }

  /** `Inventory.find({ companyId, isDeleted: false })` */
  function CompanyInventories(records: seq<Inventory.InventoryRecord>, c: Id): seq<Inventory.InventoryRecord>
  {
    Filter(records, Inventory.MatchOf(Some(c)))
  }

  /** ΣΣ quantity × purchasePrice over the company's live records. */
  function InventoryValue(records: seq<Inventory.InventoryRecord>, c: Id): int
  {
    SumOf(CompanyInventories(records, c), RecordValue)
  }

  /** `getInventoryValue`: the two nested loops. */
  method GetInventoryValue(records: seq<Inventory.InventoryRecord>, c: Id) returns (total: int)
    ensures total == InventoryValue(records, c)
  {
    var inventories := CompanyInventories(records, c);
    total := 0;
    var i := 0;
    while i < |inventories|
      invariant 0 <= i <= |inventories|
      invariant total == SumOf(inventories[..i], RecordValue)
    {
      var batches := inventories[i].batches;
      var j := 0;
      while j < |batches|
        invariant 0 <= j <= |batches|
        invariant total == SumOf(inventories[..i], RecordValue) + SumOf(batches[..j], BatchValue)
      {
        assert batches[..j + 1][..j] == batches[..j];
        total := total + batches[j].quantity * batches[j].purchasePrice;
        j := j + 1;
      }
      assert batches[..j] == batches;
      assert inventories[..i + 1][..i] == inventories[..i];
      i := i + 1;
    }
    assert inventories[..i] == inventories;
  }

  /** One row of the inventory table. */
  datatype TableRow = TableRow(product: string, quantity: int, value: int)

  /** `productMap[inv.productId] || 'Unknown'` over the company's live
      products; an empty product name is falsy too. */
  function TableName(products: seq<Products.Product>, c: Id, productId: Id): (r: string)
    ensures (forall j :: 0 <= j < |products| ==> !LiveProduct(c, productId, products[j])) ==> r == "Unknown"
    ensures r != "Unknown" ==>
      exists j :: 0 <= j < |products| && LiveProduct(c, productId, products[j]) && products[j].productName == r
  {
    match FirstWhere(products, LiveProductOf(c, productId))
    case None => "Unknown"
    case Some(k) => if products[k].productName == "" then "Unknown" else products[k].productName
  }

  predicate LiveProduct(c: Id, productId: Id, p: Products.Product)
  {
    !p.isDeleted && p.companyId == c && p.id == productId
  }

  function LiveProductOf(c: Id, productId: Id): Products.Product -> bool
  {
    p => LiveProduct(c, productId, p)
  }

  function RowOf(products: seq<Products.Product>, c: Id, r: Inventory.InventoryRecord): TableRow
  {
    TableRow(TableName(products, c, r.productId), r.totalQuantity, RecordValue(r))
  }

  /** The `inventories.map(...)` of `getInventoryTable`, one row per record
      in order. */
  function Rows(products: seq<Products.Product>, c: Id, invs: seq<Inventory.InventoryRecord>): (t: seq<TableRow>)
    ensures |t| == |invs|
    ensures forall k :: 0 <= k < |invs| ==> t[k] == RowOf(products, c, invs[k])
  {
    if |invs| == 0 then []
    else Rows(products, c, invs[..|invs| - 1]) + [RowOf(products, c, invs[|invs| - 1])]
  }

  /** `getInventoryTable` */
  function GetInventoryTable(records: seq<Inventory.InventoryRecord>, products: seq<Products.Product>, c: Id)
    : seq<TableRow>
  {
    Rows(products, c, CompanyInventories(records, c))
  }

  function RowValue(t: TableRow): int { t.value }
  function RowQuantity(t: TableRow): int { t.quantity }

  lemma {:induction false} RowsValue(products: seq<Products.Product>, c: Id, invs: seq<Inventory.InventoryRecord>)
    ensures SumOf(Rows(products, c, invs), RowValue) == SumOf(invs, RecordValue)
  {
    if |invs| > 0 {
      var n := |invs| - 1;
      RowsValue(products, c, invs[..n]);
      assert Rows(products, c, invs)[..n] == Rows(products, c, invs[..n]);
    }
  }

  /** The table's values add up to the inventory value of the KPIs. */
  lemma TableSumsToValue(records: seq<Inventory.InventoryRecord>, products: seq<Products.Product>, c: Id)
    ensures SumOf(GetInventoryTable(records, products, c), RowValue) == InventoryValue(records, c)
  {
    RowsValue(products, c, CompanyInventories(records, c));
  }

  /** Each row names its product or says 'Unknown', carries the value of its
      record's batches, and, when the totals are consistent, the sum of its
      batch quantities. */
  lemma TableRowFacts(records: seq<Inventory.InventoryRecord>, products: seq<Products.Product>, c: Id, k: nat)
    requires k < |CompanyInventories(records, c)|
    ensures var inv := CompanyInventories(records, c)[k];
      var row := GetInventoryTable(records, products, c)[k];
      && row.product == TableName(products, c, inv.productId)
      && row.value == RecordValue(inv)
      && (Inventory.Consistent(records) ==> row.quantity == Inventory.TotalOf(inv.batches))
  {
    var invs := CompanyInventories(records, c);
    FilterMembers(records, Inventory.MatchOf(Some(c)));
    assert invs[k] in records;
  }

  // ---------------------------------------------------------------------
  // Entity counts.

  /** The fields of an entity the counts read. */
  datatype EntityDoc = EntityDoc(companyId: Id, entityType: string, isDeleted: bool)

  predicate CountedAs(c: Id, types: set<string>, e: EntityDoc)
  {
    !e.isDeleted && e.companyId == c && e.entityType in types
  }

  function CountedAsOf(c: Id, types: set<string>): EntityDoc -> bool
  {
    e => CountedAs(c, types, e)
  }

  /** `getEntityCounts`: live customers ('Customer' or 'Both') and vendors
      ('Vendor' or 'Both') of the company. */
  function GetEntityCounts(entities: seq<EntityDoc>, c: Id): (r: (nat, nat))
    ensures r.0 <= |entities| && r.1 <= |entities|
  {
    (|Filter(entities, CountedAsOf(c, {"Customer", "Both"}))|, |Filter(entities, CountedAsOf(c, {"Vendor", "Both"}))|)
  }

  /** A new entity raises the customer count when it is a live 'Customer'
      or 'Both' of the company, and the vendor count when it is a live
      'Vendor' or 'Both'; any other entity changes neither count. */
  lemma NewEntityCounted(entities: seq<EntityDoc>, c: Id, e: EntityDoc)
    ensures GetEntityCounts(entities + [e], c).0 ==
      GetEntityCounts(entities, c).0 + (if CountedAs(c, {"Customer", "Both"}, e) then 1 else 0)
    ensures GetEntityCounts(entities + [e], c).1 ==
      GetEntityCounts(entities, c).1 + (if CountedAs(c, {"Vendor", "Both"}, e) then 1 else 0)
  {
    FilterAppend(entities, [e], CountedAsOf(c, {"Customer", "Both"}));
    FilterAppend(entities, [e], CountedAsOf(c, {"Vendor", "Both"}));
    assert [e][1..] == [];
  }

  // ---------------------------------------------------------------------
  // Sales chart.

  /** One output document of the chart's `$group`: a calendar month and the
      sum of its credit 'Sale' rows. */
  datatype MonthTotal = MonthTotal(year: int, month: int, totalSales: int)

  const MonthNames: seq<string> := ["Jan", "Feb", "Mar", "Apr", "May", "Jun", "Jul", "Aug", "Sep", "Oct", "Nov", "Dec"]

  /** Months counted from January of year 0. */
  function MonthIndex(year: int, month: int): int { year * 12 + (month - 1) }

  function YearOf(idx: int): int { idx / 12 }

  function MonthOf(idx: int): int { idx % 12 + 1 }

  /** `format('MMM')` */
  function Label(idx: int): string { MonthNames[idx % 12] }

  predicate AtMonth(year: int, month: int, d: MonthTotal) { d.month == month && d.year == year }

  function AtMonthOf(year: int, month: int): MonthTotal -> bool
  {
    d => AtMonth(year, month, d)
  }

  /** `salesData.find(...)?.totalSales || 0` */
  function MonthSales(data: seq<MonthTotal>, year: int, month: int): (r: int)
    ensures (forall k :: 0 <= k < |data| ==> !AtMonth(year, month, data[k])) ==> r == 0
    ensures r != 0 ==> exists k :: 0 <= k < |data| && AtMonth(year, month, data[k]) && data[k].totalSales == r
  {
    match FirstWhere(data, AtMonthOf(year, month))
    case None => 0
    case Some(k) => data[k].totalSales
  }

  /** The month `back` months before the current one. */
  function MonthBack(nowYear: int, nowMonth: int, back: int): int
  {
    MonthIndex(nowYear, nowMonth) - back
  }

  /** The month shown at position `k` of the chart, `k` = 0 the oldest. */
  function ChartMonth(nowYear: int, nowMonth: int, k: int): int
  {
    MonthBack(nowYear, nowMonth, 5 - k)
  }

  /** `getSalesChart`: the loop from five months back to the current month. */
  method GetSalesChart(data: seq<MonthTotal>, nowYear: int, nowMonth: int) returns (labels: seq<string>, values: seq<int>)
    ensures |labels| == 6 && |values| == 6
    ensures forall k :: 0 <= k < 6 ==>
      var idx := ChartMonth(nowYear, nowMonth, k);
      labels[k] == Label(idx) && values[k] == MonthSales(data, YearOf(idx), MonthOf(idx))
  {
    labels := [];
    values := [];
    var i := 5;
    while i >= 0
      invariant -1 <= i <= 5
      invariant |labels| == 5 - i && |values| == 5 - i
      invariant forall k :: 0 <= k < 5 - i ==>
        var idx := ChartMonth(nowYear, nowMonth, k);
        labels[k] == Label(idx) && values[k] == MonthSales(data, YearOf(idx), MonthOf(idx))
    {
      var idx := MonthIndex(nowYear, nowMonth) - i;
      var monthLabel := Label(idx);
      var found := FirstWhere(data, AtMonthOf(YearOf(idx), MonthOf(idx)));
      var value := if found.Some? then data[found.value].totalSales else 0;
      labels := labels + [monthLabel];
      values := values + [value];
      i := i - 1;
    }
  }

  /** The chart's months are consecutive, oldest first, and end with the
      current month. */
  lemma ChartMonths(nowYear: int, nowMonth: int)
    requires 1 <= nowMonth <= 12
    ensures YearOf(ChartMonth(nowYear, nowMonth, 5)) == nowYear
    ensures MonthOf(ChartMonth(nowYear, nowMonth, 5)) == nowMonth
    ensures forall k :: 0 <= k < 5 ==>
      MonthIndex(YearOf(ChartMonth(nowYear, nowMonth, k)), MonthOf(ChartMonth(nowYear, nowMonth, k))) + 1 ==
      MonthIndex(YearOf(ChartMonth(nowYear, nowMonth, k + 1)), MonthOf(ChartMonth(nowYear, nowMonth, k + 1)))
  {
    var idx := MonthIndex(nowYear, nowMonth);
    assert idx / 12 == nowYear && idx % 12 == nowMonth - 1 by {
      assert idx == nowYear * 12 + (nowMonth - 1) && 0 <= nowMonth - 1 < 12;
    }
    forall k | 0 <= k < 5
      ensures MonthIndex(YearOf(ChartMonth(nowYear, nowMonth, k)), MonthOf(ChartMonth(nowYear, nowMonth, k))) + 1 ==
              MonthIndex(YearOf(ChartMonth(nowYear, nowMonth, k + 1)), MonthOf(ChartMonth(nowYear, nowMonth, k + 1)))
    {
      MonthIndexRoundTrip(ChartMonth(nowYear, nowMonth, k));
      MonthIndexRoundTrip(ChartMonth(nowYear, nowMonth, k + 1));
    }
  }

  /** A month index splits into a year and a month that give it back. */
  lemma MonthIndexRoundTrip(idx: int)
    ensures 1 <= MonthOf(idx) <= 12
    ensures MonthIndex(YearOf(idx), MonthOf(idx)) == idx
  {
  }

  // ---------------------------------------------------------------------
  // Top products.

  /** One output document of the `$group` by product: the sold quantity
      and the revenue. */
  datatype ProductTotal = ProductTotal(productId: Id, unitsSold: int, revenue: int)

  datatype TopProduct = TopProduct(name: string, unitsSold: int, revenue: int)

  function UnitsSold(p: ProductTotal): int { p.unitsSold }

  const TopLimit := 8

  /** `productNames.find(...)?.productName || 'Unknown'`: the product query
      has neither a company nor a soft-delete filter. */
  function TopName(products: seq<Products.Product>, id: Id): string
  {
    match FirstWhere(products, Products.WithId(id))
    case None => "Unknown"
    case Some(k) => if products[k].productName == "" then "Unknown" else products[k].productName
  }

  function Named(products: seq<Products.Product>, top: seq<ProductTotal>): (r: seq<TopProduct>)
    ensures |r| == |top|
    ensures forall k :: 0 <= k < |top| ==>
      r[k] == TopProduct(TopName(products, top[k].productId), top[k].unitsSold, top[k].revenue)
  {
    if |top| == 0 then []
    else
      var p := top[|top| - 1];
      Named(products, top[..|top| - 1]) + [TopProduct(TopName(products, p.productId), p.unitsSold, p.revenue)]
  }

  /** `$sort: { unitsSold: -1 }` then `$limit: 8` on the groups: at most
      eight of them, each group at most once, best sellers first. */
  function TopGroups(agg: seq<ProductTotal>): (t: seq<ProductTotal>)
    ensures |t| == Min(TopLimit, |agg|)
    ensures SortedDesc(t, UnitsSold)
    ensures multiset(t) <= multiset(agg)
  {
    var sorted := SortDesc(agg, UnitsSold);
    SortDescSorted(agg, UnitsSold);
    DescPrefix(sorted, UnitsSold, Min(TopLimit, |agg|));
    sorted[..Min(TopLimit, |agg|)]
  }

  /** Every group of a sub-multiset of the groups is one of the groups. */
  lemma GroupsFromAgg(agg: seq<ProductTotal>, top: seq<ProductTotal>)
    requires multiset(top) <= multiset(agg)
    ensures forall k :: 0 <= k < |top| ==> top[k] in agg
  {
    forall k | 0 <= k < |top| ensures top[k] in agg {
      assert top[k] in multiset(top);
    }
  }

  /** `getTopProducts` after the `$group`: the top groups with their names. */
  function GetTopProducts(agg: seq<ProductTotal>, products: seq<Products.Product>): (r: seq<TopProduct>)
    ensures r == Named(products, TopGroups(agg))
    ensures |r| == Min(TopLimit, |agg|)
    ensures forall i, j :: 0 <= i < j < |r| ==> r[i].unitsSold >= r[j].unitsSold
    ensures forall k :: 0 <= k < |r| ==>
      exists j :: 0 <= j < |agg| && agg[j].unitsSold == r[k].unitsSold && agg[j].revenue == r[k].revenue &&
                  r[k].name == TopName(products, agg[j].productId)
  {
    var top := TopGroups(agg);
    GroupsFromAgg(agg, top);
    var r := Named(products, top);
    forall k | 0 <= k < |r|
      ensures exists j :: 0 <= j < |agg| && agg[j].unitsSold == r[k].unitsSold && agg[j].revenue == r[k].revenue &&
                          r[k].name == TopName(products, agg[j].productId)
    {
      var j :| 0 <= j < |agg| && agg[j] == top[k];
    }
    r
  }

  /** No product left out of the top list sold more than any product in it. */
  lemma TopIsTop(agg: seq<ProductTotal>, products: seq<Products.Product>)
    ensures var r := GetTopProducts(agg, products);
      forall k, j :: 0 <= k < |r| && |r| <= j < |agg| ==> SortDesc(agg, UnitsSold)[j].unitsSold <= r[k].unitsSold
  {
    SortDescSorted(agg, UnitsSold);
    var sorted := SortDesc(agg, UnitsSold);
    var r := GetTopProducts(agg, products);
    forall k, j | 0 <= k < |r| && |r| <= j < |agg| ensures sorted[j].unitsSold <= r[k].unitsSold {
      assert r[k].unitsSold == sorted[k].unitsSold;
    }
  }

  // ---------------------------------------------------------------------
  // The endpoint.

  const InvalidCompanyMessage := "Valid companyId is required"

  datatype DashboardData = DashboardData(
    kpis: Kpis,
    inventoryValue: int,
    totalCustomers: nat,
    totalVendors: nat,
    outstandingReceivables: int,
    chartLabels: seq<string>,
    chartData: seq<int>,
    inventoryTable: seq<TableRow>,
    topProducts: seq<TopProduct>)

  /** `getDashboard`: a missing or malformed company id is refused with 400
      before anything is read. `start` is the start of the filter's window;
      `monthData` and `agg` are the outputs of the chart's and the top
      products' `$group` stages. */
  method GetDashboard(companyId: Option<string>, start: int, nowYear: int, nowMonth: int,
                      rows: seq<LedgerModel.LedgerRow>, records: seq<Inventory.InventoryRecord>,
                      products: seq<Products.Product>, entities: seq<EntityDoc>,
                      monthData: seq<MonthTotal>, agg: seq<ProductTotal>) returns (r: Result<DashboardData>)
    ensures r.Err? <==> !(companyId.Some? && Validation.IsHex24(companyId.value))
    ensures r.Err? ==> r == Err(400, InvalidCompanyMessage)
    ensures r.Ok? ==>
      var c := companyId.value;
      && r.value.kpis == GetLedgerKpis(rows, c, start)
      && r.value.inventoryValue == InventoryValue(records, c)
      && (r.value.totalCustomers, r.value.totalVendors) == GetEntityCounts(entities, c)
      && r.value.outstandingReceivables == 0
      && |r.value.chartLabels| == 6 && |r.value.chartData| == 6
      && (forall k :: 0 <= k < 6 ==>
            && r.value.chartLabels[k] == Label(ChartMonth(nowYear, nowMonth, k))
            && r.value.chartData[k] ==
                 MonthSales(monthData, YearOf(ChartMonth(nowYear, nowMonth, k)), MonthOf(ChartMonth(nowYear, nowMonth, k))))
      && r.value.inventoryTable == GetInventoryTable(records, products, c)
      && r.value.topProducts == GetTopProducts(agg, products)
  {
    if !(companyId.Some? && Validation.IsHex24(companyId.value)) {
      return Err(400, InvalidCompanyMessage);
    }
    var c := companyId.value;
    var value := GetInventoryValue(records, c);
    var counts := GetEntityCounts(entities, c);
    var labels, data := GetSalesChart(monthData, nowYear, nowMonth);
    r := Ok(DashboardData(GetLedgerKpis(rows, c, start), value, counts.0, counts.1, 0, labels, data,
                          GetInventoryTable(records, products, c), GetTopProducts(agg, products)));
  }
}
