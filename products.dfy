/** Products and company metadata (src/controllers/products.controller.js):
    the SKU guard, the merge of a product's category and brand into the
    company's metadata lists, and the by-id and list queries. */
module Products {
  import opened Common
  import opened Text
  import opened FormatName

  datatype Product = Product(
    id: Id,
    productName: string,
    sku: Option<string>,
    category: Option<string>,
    brandName: Option<string>,
    companyId: Id,
    createdBy: Option<Id>,
    isDeleted: bool)

  /** The per-company lists of category and brand names. */
  datatype CompanyMetadata = CompanyMetadata(companyId: Id, categories: seq<string>, brands: seq<string>)

  /** A JavaScript truthy string: present and non-empty. */
  predicate Truthy(x: Option<string>)
  {
    x.Some? && x.value != ""
  }

  // ---------------------------------------------------------------------
  // Metadata merge.

  /** One list of an existing metadata document: the formatted name is
      pushed when the raw name is given and the raw name is not in the list. */
  function MergeList(list: seq<string>, raw: Option<string>): (r: seq<string>)
    ensures |r| >= |list| && r[..|list|] == list
    ensures |r| == |list| + 1 <==> Truthy(raw) && raw.value !in list
    ensures |r| == |list| + 1 ==> r[|list|] == Format(raw)
    ensures |r| <= |list| + 1
  {
    if Truthy(raw) && raw.value !in list then list + [Format(raw)] else list
  }

  /** A new metadata document: the raw names as the schema stores them,
      trimmed but not formatted. */
  function NewMetadata(c: Id, category: Option<string>, brand: Option<string>): CompanyMetadata
  {
    CompanyMetadata(c,
      if Truthy(category) then [Trim(category.value)] else [],
      if Truthy(brand) then [Trim(brand.value)] else [])
  }

  function MergeMetadata(m: CompanyMetadata, category: Option<string>, brand: Option<string>): CompanyMetadata
  {
    m.(categories := MergeList(m.categories, category), brands := MergeList(m.brands, brand))
  }

  predicate OfCompany(c: Id, m: CompanyMetadata) { m.companyId == c }

  function CompanyOf(c: Id): CompanyMetadata -> bool
  {
    m => OfCompany(c, m)
  }

  /** The metadata documents after `companyData.save()`. */
  function UpsertMetadata(docs: seq<CompanyMetadata>, c: Id, category: Option<string>, brand: Option<string>)
    : (r: seq<CompanyMetadata>)
    ensures FirstWhere(docs, CompanyOf(c)).None? ==> r == docs + [NewMetadata(c, category, brand)]
    ensures FirstWhere(docs, CompanyOf(c)).Some? ==>
      (var i := FirstWhere(docs, CompanyOf(c)).value;
       |r| == |docs| && r[i] == MergeMetadata(docs[i], category, brand) &&
       forall j :: 0 <= j < |docs| && j != i ==> r[j] == docs[j])
  {
    match FirstWhere(docs, CompanyOf(c))
    case None => docs + [NewMetadata(c, category, brand)]
    case Some(i) => docs[i := MergeMetadata(docs[i], category, brand)]
  }

  /** Membership is tested on the raw name while the formatted name is
      stored, so a name that formatting changes is pushed again on every
      request that carries it. */
  lemma MergeRepeats(list: seq<string>, raw: Option<string>)
    requires Truthy(raw) && raw.value !in list && Format(raw) != raw.value
    ensures MergeList(MergeList(list, raw), raw) == list + [Format(raw), Format(raw)]
  {
    assert MergeList(list, raw) == list + [Format(raw)];
  }

  /** A name given in lower case is stored capitalised, and the next product
      with the same raw category pushes it once more. */
  lemma MergeRepeatsExample()
    ensures Format(Some("phones")) == "Phones"
    ensures MergeList(MergeList(["Phones"], Some("phones")), Some("phones")) == ["Phones", "Phones", "Phones"]
  {
    FormatPhones();
    assert "phones" != "Phones" by { assert "phones"[0] != "Phones"[0]; }
    MergeRepeats(["Phones"], Some("phones"));
  }

  lemma FormatPhones()
    ensures Format(Some("phones")) == "Phones"
  {
    var w := "phones";
    assert forall i :: 0 <= i < |w| ==> 'a' <= w[i] <= 'z';
    FormatLowercaseWord(w);
    assert [ToUpper(w[0])] + w[1..] == "Phones";
  }

  // ---------------------------------------------------------------------
  // Creating a product.

  datatype ProductRequest = ProductRequest(
    productName: string,
    sku: Option<string>,
    category: Option<string>,
    brandName: Option<string>,
    companyId: Id,
    createdBy: Option<Id>)

  const DuplicateSkuMessage := "Product with this SKU already exists."
  const NoGenerateSkuMessage := "product.generateSKU is not a function"
  const DuplicateKeyMessage := "E11000 duplicate key error"

  /** `findOne({ sku, companyId })`: an omitted SKU drops out of the filter,
      which then matches any product of the company, deleted or not. */
  predicate SkuClash(sku: Option<string>, c: Id, p: Product)
  {
    p.companyId == c && (sku.None? || p.sku == sku)
  }

  function SkuClashOf(sku: Option<string>, c: Id): Product -> bool
  {
    p => SkuClash(sku, c, p)
  }

  /** The schema's `unique` index on `sku`, across all companies. */
  predicate SameSku(sku: string, p: Product) { p.sku == Some(sku) }

  function SameSkuOf(sku: string): Product -> bool
  {
    p => SameSku(sku, p)
  }

  function NewProduct(req: ProductRequest, id: Id): Product
  {
    Product(id, req.productName, req.sku, req.category, req.brandName, req.companyId, req.createdBy, false)
  }

  class ProductStore {
    var products: seq<Product>

    constructor()
      ensures products == []
    {
      products := [];
    }
  }

  class MetadataStore {
    var docs: seq<CompanyMetadata>

    constructor()
      ensures docs == []
    {
      docs := [];
    }
  }

  /** `createProduct`: a clashing SKU is refused before any write; then the
      metadata is saved; then a missing SKU fails on the call of a method the
      product model does not define, and a SKU used by another company fails
      on the unique index, both after the metadata was written. */
  method CreateProduct(store: ProductStore, meta: MetadataStore, req: ProductRequest, newId: Id)
    returns (r: Result<Product>)
    modifies store, meta
    ensures FirstWhere(old(store.products), SkuClashOf(req.sku, req.companyId)).Some? ==>
      r == Err(400, DuplicateSkuMessage) && store.products == old(store.products) && meta.docs == old(meta.docs)
    ensures FirstWhere(old(store.products), SkuClashOf(req.sku, req.companyId)).None? ==>
      meta.docs == UpsertMetadata(old(meta.docs), req.companyId, req.category, req.brandName)
    ensures FirstWhere(old(store.products), SkuClashOf(req.sku, req.companyId)).None? && !Truthy(req.sku) ==>
      r == Err(500, NoGenerateSkuMessage) && store.products == old(store.products)
    ensures (FirstWhere(old(store.products), SkuClashOf(req.sku, req.companyId)).None? && Truthy(req.sku) &&
             FirstWhere(old(store.products), SameSkuOf(req.sku.value)).Some?) ==>
      r == Err(500, DuplicateKeyMessage) && store.products == old(store.products)
    ensures (FirstWhere(old(store.products), SkuClashOf(req.sku, req.companyId)).None? && Truthy(req.sku) &&
             FirstWhere(old(store.products), SameSkuOf(req.sku.value)).None?) ==>
      r == Ok(NewProduct(req, newId)) && store.products == old(store.products) + [r.value]
  {
    if FirstWhere(store.products, SkuClashOf(req.sku, req.companyId)).Some? {
      return Err(400, DuplicateSkuMessage);
    }
    meta.docs := UpsertMetadata(meta.docs, req.companyId, req.category, req.brandName);
    if !Truthy(req.sku) {
      return Err(500, NoGenerateSkuMessage);
    }
    if FirstWhere(store.products, SameSkuOf(req.sku.value)).Some? {
      return Err(500, DuplicateKeyMessage);
    }
    var p := NewProduct(req, newId);
    store.products := store.products + [p];
    r := Ok(p);
  }

  /** Every successful creation leaves at most one product per
      (SKU, company): the guard refuses any SKU already used in the company. */
  lemma CreateKeepsSkuUnique(products: seq<Product>, req: ProductRequest, newId: Id)
    requires forall i, j :: 0 <= i < j < |products| && products[i].sku.Some? && products[i].sku == products[j].sku ==>
      products[i].companyId != products[j].companyId
    requires FirstWhere(products, SkuClashOf(req.sku, req.companyId)).None?
    ensures var ps := products + [NewProduct(req, newId)];
      forall i, j :: 0 <= i < j < |ps| && ps[i].sku.Some? && ps[i].sku == ps[j].sku ==> ps[i].companyId != ps[j].companyId
  {
    var ps := products + [NewProduct(req, newId)];
    forall i, j | 0 <= i < j < |ps| && ps[i].sku.Some? && ps[i].sku == ps[j].sku
      ensures ps[i].companyId != ps[j].companyId
    {
      if j == |products| {
        assert !SkuClash(req.sku, req.companyId, products[i]);
      }
    }
  }

  // ---------------------------------------------------------------------
  // Queries.

  predicate HasId(id: Id, p: Product) { p.id == id }

  function WithId(id: Id): Product -> bool
  {
    p => HasId(id, p)
  }

  const NotFoundMessage := "Product not found."

  /** `getProductById`: `findById` sees deleted products too, and the
      controller reports them as not found. */
  function GetProductById(products: seq<Product>, id: Id): (r: Result<Product>)
    ensures r.Ok? ==> r.value.id == id && !r.value.isDeleted && r.value in products
    ensures r.Err? ==> r == Err(404, NotFoundMessage)
  {
    match FirstWhere(products, WithId(id))
    case None => Err(404, NotFoundMessage)
    case Some(i) => if products[i].isDeleted then Err(404, NotFoundMessage) else Ok(products[i])
  }

  /** With unique ids, a product is found exactly when a live product has
      the id. */
  lemma GetProductByIdFinds(products: seq<Product>, id: Id)
    requires forall i, j :: 0 <= i < j < |products| ==> products[i].id != products[j].id
    ensures GetProductById(products, id).Ok? <==>
      exists i :: 0 <= i < |products| && products[i].id == id && !products[i].isDeleted
  {
    var f := FirstWhere(products, WithId(id));
    if exists i :: 0 <= i < |products| && products[i].id == id && !products[i].isDeleted {
      var i :| 0 <= i < |products| && products[i].id == id && !products[i].isDeleted;
      assert HasId(id, products[i]);
      assert f.value == i;
    }
  }

  datatype ProductQuery = ProductQuery(companyId: Option<Id>, category: Option<string>, page: Pos, limit: Pos)

  datatype ProductPage = ProductPage(products: seq<Product>, totalRecords: nat, currentPage: nat, totalPages: nat)

  /** The filter `{ isDeleted: false, companyId }`, plus `category` when it is
      given; an omitted company drops out of the filter. */
  predicate ProductMatch(q: ProductQuery, p: Product)
  {
    && !p.isDeleted
    && (q.companyId.None? || p.companyId == q.companyId.value)
    && (!Truthy(q.category) || p.category == q.category)
  }

  function MatchOf(q: ProductQuery): Product -> bool
  {
    p => ProductMatch(q, p)
  }

  /** `getAllProducts`: the requested page of the matching products in
      stored order, with their count and the page count. */
  function GetAllProducts(products: seq<Product>, q: ProductQuery): (r: ProductPage)
    ensures |r.products| <= q.limit
    ensures forall k :: 0 <= k < |r.products| ==> ProductMatch(q, r.products[k])
    ensures r.totalRecords == |Filter(products, MatchOf(q))|
    ensures IsPage(r.products, Filter(products, MatchOf(q)), q.page, q.limit)
    ensures PageCount(r.totalPages, r.totalRecords, q.limit)
    ensures r.currentPage == q.page
  {
    var matches := Filter(products, MatchOf(q));
    ProductPage(Paginate(matches, q.page, q.limit), |matches|, q.page, CeilDiv(|matches|, q.limit))
  }

  /** No matching product is out of reach: the i-th is item i % limit of
      page i / limit + 1. */
  lemma EveryProductListed(products: seq<Product>, q: ProductQuery, i: nat)
    requires i < |Filter(products, MatchOf(q))| && q.page == i / q.limit + 1
    ensures i % q.limit < |GetAllProducts(products, q).products|
    ensures GetAllProducts(products, q).products[i % q.limit] == Filter(products, MatchOf(q))[i]
  {
    OnPage(GetAllProducts(products, q).products, Filter(products, MatchOf(q)), i, q.page, q.limit);
  }
}
