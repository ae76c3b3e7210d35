/**
 * The product catalogue service: turning raw `products_c` records into the
 * storefront's product view, building the `fetchRecords` query for a
 * catalogue listing, and the filters applied to the fetched list on the
 * client side (sizes, colours, price bounds, related products, category
 * names).
 */
module Products {
  import opened Wrappers
  import opened JsText
  import opened Seqs
  import opened Records

  // ------------------------------------------------------------ raw records

  /**
   * The value of a multi-picklist field as the backend hands it over: unset
   * (or another falsy value), a comma-joined string, an array of labels, or
   * some other truthy value.
   */
  datatype Picklist = Unset | Joined(text: string) | Items(values: seq<string>) | OtherValue

  /** One entry of `images_c`, which may carry its address as `url` or as `Url`. */
  datatype ImageRef = ImageRef(url: Option<string>, Url: Option<string>)

  /** The `category_c` reference, resolved to the category's `Name`. */
  datatype CategoryRef = CategoryRef(name: Option<string>)

  /** A `products_c` record; prices arrive already parsed. */
  datatype RawProduct = RawProduct(
    id: int,
    name: Option<string>,
    description: Option<string>,
    price: Option<real>,
    category: Option<CategoryRef>,
    subcategory: Option<string>,
    sizes: Picklist,
    colors: Picklist,
    images: Option<seq<ImageRef>>)

  /** The product view handed to the pages. */
  datatype Product = Product(
    id: int,
    name: string,
    description: string,
    price: real,
    category: string,
    subcategory: string,
    sizes: seq<string>,
    colors: seq<string>,
    images: seq<string>)

  /** A row of `categories_c`. */
  datatype CategoryRow = CategoryRow(name: Option<string>)

  const Placeholder: string := "/api/placeholder/300/400"

  // --------------------------------------------------------- transformation

  /**
   * `parseMultiPicklist`: an array is kept as it is, a non-empty string is
   * split at commas and each piece trimmed, anything else gives no labels.
   */
  function ParseMultiPicklist(v: Picklist): (r: seq<string>)
    ensures v.Items? ==> r == v.values
    ensures v.Joined? && v.text != "" ==>
              |r| == |Split(v.text, ',')| &&
              forall i :: 0 <= i < |r| ==> r[i] == Trim(Split(v.text, ',')[i]) && ',' !in r[i] && Trimmed(r[i])
    ensures v.Unset? || v.OtherValue? || v == Joined("") ==> r == []
  {
    match v
    case Unset => []
    case Joined(text) =>
      if text == "" then []
      else
        var pieces := Split(text, ',');
        forall i | 0 <= i < |pieces| ensures ',' !in Trim(pieces[i]) {
          if ',' in Trim(pieces[i]) {
            TrimKeepsCharacters(pieces[i], ',');
          }
        }
        TrimAll(pieces)
    case Items(values) => values
    case OtherValue => []
  }

  /** Parsing what a parse returned, now an array, gives it back unchanged. */
  lemma ParseIdempotent(v: Picklist)
    ensures ParseMultiPicklist(Items(ParseMultiPicklist(v))) == ParseMultiPicklist(v)
  {
  }

  /**
   * A comma-joined string parses to the same labels as the array it was
   * joined from, when the labels are already trimmed and comma-free.
   */
  lemma ParseJoinedMatchesItems(xs: seq<string>)
    requires |xs| >= 1
    requires forall i :: 0 <= i < |xs| ==> ',' !in xs[i] && Trimmed(xs[i])
    requires Join(xs, ',') != ""
    ensures ParseMultiPicklist(Joined(Join(xs, ','))) == ParseMultiPicklist(Items(xs))
  {
    SplitJoin(xs, ',');
    
    forall i | 0 <= i < |xs| ensures Trim(xs[i]) == xs[i] {
      TrimLeavesTrimmed(xs[i]);
    }
  }

  /** `img.url || img.Url || placeholder`: never an empty address. */
  function ImageUrl(img: ImageRef): (u: string)
    ensures u != ""
    ensures Truthy(img.url) ==> u == img.url.value
    ensures !Truthy(img.url) && Truthy(img.Url) ==> u == img.Url.value
    ensures !Truthy(img.url) && !Truthy(img.Url) ==> u == Placeholder
  {
    Or(img.url, Or(img.Url, Placeholder))
  }

  /** `record.category_c?.Name`: the name when the reference and its name are both there. */
  function CategoryName(c: Option<CategoryRef>): (n: Option<string>)
    ensures n.Some? <==> c.Some? && c.value.name.Some?
    ensures n.Some? ==> n.value == c.value.name.value
  {
    if c.Some? then c.value.name else None
  }

  /**
   * `transformProductData`: every field of the view gets a typed value, the
   * record's own when it has one and a fixed default otherwise.
   */
  function TransformProductData(raw: RawProduct): (p: Product)
    ensures p.id == raw.id
    ensures raw.name.Some? ==> p.name == raw.name.value
    ensures raw.name.None? ==> p.name == ""
    ensures raw.description.Some? ==> p.description == raw.description.value
    ensures raw.description.None? ==> p.description == ""
    ensures raw.subcategory.Some? ==> p.subcategory == raw.subcategory.value
    ensures raw.subcategory.None? ==> p.subcategory == ""
    ensures raw.price.Some? ==> p.price == raw.price.value
    ensures raw.price.None? ==> p.price == 0.0
    ensures CategoryName(raw.category).Some? ==> p.category == CategoryName(raw.category).value
    ensures CategoryName(raw.category).None? ==> p.category == ""
    ensures p.sizes == ParseMultiPicklist(raw.sizes) && p.colors == ParseMultiPicklist(raw.colors)
    ensures raw.images.None? ==> p.images == [Placeholder]
    ensures raw.images.Some? ==> (|p.images| == |raw.images.value| &&
              forall i :: 0 <= i < |p.images| ==> p.images[i] == ImageUrl(raw.images.value[i]))
    ensures forall u :: u in p.images ==> u != ""
  {
    Product(
      raw.id,
      Or(raw.name, ""),
      Or(raw.description, ""),
      raw.price.GetOr(0.0),
      Or(CategoryName(raw.category), ""),
      Or(raw.subcategory, ""),
      ParseMultiPicklist(raw.sizes),
      ParseMultiPicklist(raw.colors),
      if raw.images.Some? then MapSeq(raw.images.value, ImageUrl) else [Placeholder])
  }

  /** `(response.data || []).map(transformProductData)` */
  function Views(rows: seq<RawProduct>): (ps: seq<Product>)
    ensures |ps| == |rows|
    ensures forall i :: 0 <= i < |rows| ==> ps[i] == TransformProductData(rows[i]) && ps[i].id == rows[i].id
  {
    MapSeq(rows, TransformProductData)
  }

  // ----------------------------------------------------------------- query

  /**
   * A price bound as the caller passes it. The service tests a bound with
   * `!== undefined`, so a `null` bound is applied too, and compares as 0.
   */
  datatype PriceBound = Undefined | Null | Bound(value: real)

  /** The number a defined bound compares as: its value, or 0 for `null`. */
  function Numeric(b: PriceBound): (x: real)
    ensures b.Bound? ==> x == b.value
    ensures b.Null? ==> x == 0.0
  {
    if b.Bound? then b.value else 0.0
  }

  /** What a catalogue listing may ask for. */
  datatype ProductFilters = ProductFilters(
    category: Option<string>,
    search: Option<string>,
    sortBy: Option<string>,
    sizes: Option<seq<string>>,
    colors: Option<seq<string>>,
    minPrice: PriceBound,
    maxPrice: PriceBound)

  /**
   * The `fetchRecords` query of `getAll`: an equality clause on the category
   * and a contains clause on the lower-cased search term, each only when
   * given, and a sort directive only for the three known orders.
   */
  function ProductQuery(f: ProductFilters): (q: Query)
    ensures q.table == "products_c" && q.paging.None?
    ensures |q.where| == (if Truthy(f.category) then 1 else 0) + (if Truthy(f.search) then 1 else 0)
    ensures Truthy(f.category) ==> q.where[0] == Condition("category_c", EqualTo, [Text(f.category.value)])
    ensures Truthy(f.search) ==>
              q.where[|q.where| - 1] == Condition("name_c", Contains, [Text(Lower(f.search.value))])
    ensures q.orderBy.Some? <==> f.sortBy in {Some("price-low"), Some("price-high"), Some("name")}
    ensures f.sortBy == Some("price-low") ==> q.orderBy == Some([SortDirective("price_c", Asc)])
    ensures f.sortBy == Some("price-high") ==> q.orderBy == Some([SortDirective("price_c", Desc)])
    ensures f.sortBy == Some("name") ==> q.orderBy == Some([SortDirective("name_c", Asc)])
  {
    var byCategory := if Truthy(f.category) then [Condition("category_c", EqualTo, [Text(f.category.value)])] else [];
    var bySearch := if Truthy(f.search) then [Condition("name_c", Contains, [Text(Lower(f.search.value))])] else [];
    var orderBy :=
      if f.sortBy == Some("price-low") then Some([SortDirective("price_c", Asc)])
      else if f.sortBy == Some("price-high") then Some([SortDirective("price_c", Desc)])
      else if f.sortBy == Some("name") then Some([SortDirective("name_c", Asc)])
      else None;
    Query("products_c", byCategory + bySearch, orderBy, None)
  }

  /** Builds the `getAll` query the way the service does, clause by clause. */
  method BuildProductQuery(f: ProductFilters) returns (q: Query)
    ensures q == ProductQuery(f)
  {
    var whereConditions: seq<Condition> := [];
    if Truthy(f.category) {
      whereConditions := whereConditions + [Condition("category_c", EqualTo, [Text(f.category.value)])];
    }
    if Truthy(f.search) {
      var searchTerm := Lower(f.search.value);
      whereConditions := whereConditions + [Condition("name_c", Contains, [Text(searchTerm)])];
    }
    var orderBy: seq<SortDirective> := [];
    if f.sortBy.Some? {
      var sortBy := f.sortBy.value;
      if sortBy == "price-low" {
        orderBy := orderBy + [SortDirective("price_c", Asc)];
        assert orderBy == [SortDirective("price_c", Asc)];
      } else if sortBy == "price-high" {
        orderBy := orderBy + [SortDirective("price_c", Desc)];
        assert orderBy == [SortDirective("price_c", Desc)];
      } else if sortBy == "name" {
        orderBy := orderBy + [SortDirective("name_c", Asc)];
        assert orderBy == [SortDirective("name_c", Asc)];
      }
    }
    q := Query("products_c", whereConditions, if |orderBy| > 0 then Some(orderBy) else None, None);
    assert q.where == ProductQuery(f).where by {
      if !Truthy(f.category) && Truthy(f.search) {
        assert [] + [Condition("name_c", Contains, [Text(Lower(f.search.value))])] == whereConditions;
      }
    }
  }

  // ------------------------------------------------------ client-side filters

  /**
   * `wanted.some(w => have.includes(w))`, scanning `wanted` from the front:
   * some wanted label is among the labels the product has.
   */
  function AnyMatch(wanted: seq<string>, have: seq<string>): (b: bool)
    ensures b <==> exists w :: w in wanted && w in have
  {
    if wanted == [] then false
    else if wanted[0] in have then true
    else
      assert forall w :: w in wanted ==> w == wanted[0] || w in wanted[1..];
      AnyMatch(wanted[1..], have)
  }

  /** An absent or empty request list asks for nothing. */
  predicate Requested(list: Option<seq<string>>) {
    list.Some? && |list.value| > 0
  }

  /** The four filter callbacks of `getAll`, in the order they are applied. */
  function SizeStep(f: ProductFilters): Product -> bool {
    (p: Product) => AnyMatch(f.sizes.GetOr([]), p.sizes)
  }

  function ColorStep(f: ProductFilters): Product -> bool {
    (p: Product) => AnyMatch(f.colors.GetOr([]), p.colors)
  }

  function MinStep(f: ProductFilters): Product -> bool {
    (p: Product) => p.price >= Numeric(f.minPrice)
  }

  function MaxStep(f: ProductFilters): Product -> bool {
    (p: Product) => p.price <= Numeric(f.maxPrice)
  }

  /** The product passes the first `n` of the four client-side filters, skipping those not asked for. */
  predicate PassesFirst(f: ProductFilters, n: nat, p: Product) {
    && (n >= 1 && Requested(f.sizes) ==> SizeStep(f)(p))
    && (n >= 2 && Requested(f.colors) ==> ColorStep(f)(p))
    && (n >= 3 && !f.minPrice.Undefined? ==> MinStep(f)(p))
    && (n >= 4 && !f.maxPrice.Undefined? ==> MaxStep(f)(p))
  }

  /**
   * The product passes every client-side filter of `f`: it has one of the
   * requested sizes and one of the requested colours, and its price lies
   * within the defined bounds, bounds included (a `null` bound is 0).
   */
  function Keeps(f: ProductFilters, p: Product): (b: bool)
    ensures b <==> PassesFirst(f, 4, p)
    ensures b <==>
              && (Requested(f.sizes) ==> exists w :: w in f.sizes.value && w in p.sizes)
              && (Requested(f.colors) ==> exists c :: c in f.colors.value && c in p.colors)
              && (!f.minPrice.Undefined? ==> Numeric(f.minPrice) <= p.price)
              && (!f.maxPrice.Undefined? ==> p.price <= Numeric(f.maxPrice))
  {
    && (Requested(f.sizes) ==> AnyMatch(f.sizes.value, p.sizes))
    && (Requested(f.colors) ==> AnyMatch(f.colors.value, p.colors))
    && (!f.minPrice.Undefined? ==> p.price >= Numeric(f.minPrice))
    && (!f.maxPrice.Undefined? ==> p.price <= Numeric(f.maxPrice))
  }

  function PostFiltered(f: ProductFilters, ps: seq<Product>): seq<Product> {
    Filter(ps, p => Keeps(f, p))
  }

  /** The products that pass the first `n` client-side filters. */
  function Stage(f: ProductFilters, n: nat): Product -> bool {
    p => PassesFirst(f, n, p)
  }

  /**
   * The client-side filters of `getAll`, applied one after the other: the
   * result is the order-preserving subsequence of the products that pass all
   * of them.
   */
  method ApplyPostFilters(f: ProductFilters, ps: seq<Product>) returns (products: seq<Product>)
    ensures products == PostFiltered(f, ps)
    ensures SubseqOf(products, ps)
    ensures forall p :: p in products <==> p in ps && Keeps(f, p)
  {
    NoStageKeepsAll(f, ps);
    products := ps;
    if Requested(f.sizes) {
      var next := Filter(products, SizeStep(f));
      NextStage(f, ps, 0, 1, products, next);
      products := next;
    } else {
      NextStage(f, ps, 0, 1, products, products);
    }
    if Requested(f.colors) {
      var next := Filter(products, ColorStep(f));
      NextStage(f, ps, 1, 2, products, next);
      products := next;
    } else {
      NextStage(f, ps, 1, 2, products, products);
    }
    if !f.minPrice.Undefined? {
      var next := Filter(products, MinStep(f));
      NextStage(f, ps, 2, 3, products, next);
      products := next;
    } else {
      NextStage(f, ps, 2, 3, products, products);
    }
    if !f.maxPrice.Undefined? {
      var next := Filter(products, MaxStep(f));
      NextStage(f, ps, 3, 4, products, next);
      products := next;
    } else {
      NextStage(f, ps, 3, 4, products, products);
    }
    FilterSamePredicate(ps, Stage(f, 4), p => Keeps(f, p));
  }

  /** Before any filter is applied every product is still there. */
  lemma NoStageKeepsAll(f: ProductFilters, ps: seq<Product>)
    ensures Filter(ps, Stage(f, 0)) == ps
  {
    FilterKeepsAll(ps, Stage(f, 0));
  }

  /** Whether filter number `n` (0 to 3) is applied, and its callback. */
  predicate StepApplied(f: ProductFilters, n: nat) {
    if n == 0 then Requested(f.sizes)
    else if n == 1 then Requested(f.colors)
    else if n == 2 then !f.minPrice.Undefined?
    else !f.maxPrice.Undefined?
  }

  function StepFilter(f: ProductFilters, n: nat): Product -> bool {
    if n == 0 then SizeStep(f)
    else if n == 1 then ColorStep(f)
    else if n == 2 then MinStep(f)
    else MaxStep(f)
  }

  /**
   * One step of `ApplyPostFilters`: applying filter `n` when it is asked for
   * (and skipping it otherwise) to the products that passed the first `n`
   * filters leaves those that pass the first `m == n + 1`.
   */
  lemma NextStage(f: ProductFilters, ps: seq<Product>, n: nat, m: nat, before: seq<Product>, after: seq<Product>)
    requires n < 4 && m == n + 1
    requires before == Filter(ps, Stage(f, n))
    requires after == if StepApplied(f, n) then Filter(before, StepFilter(f, n)) else before
    ensures after == Filter(ps, Stage(f, m))
  {
    if StepApplied(f, n) {
      FilterTwice(ps, Stage(f, n), StepFilter(f, n), Stage(f, m));
    } else {
      FilterSamePredicate(ps, Stage(f, n), Stage(f, m));
    }
  }

  /** Filtering by two predicates that agree everywhere gives the same list. */
  lemma {:induction false} FilterSamePredicate(s: seq<Product>, p: Product -> bool, q: Product -> bool)
    requires forall x :: p(x) == q(x)
    ensures Filter(s, p) == Filter(s, q)
  {
    if s != [] {
      FilterSamePredicate(s[1..], p, q);
    }
  }

  /** With no client-side filter requested every fetched product is kept, in order. */
  lemma NoPostFilterKeepsAll(f: ProductFilters, ps: seq<Product>)
    requires !Requested(f.sizes) && !Requested(f.colors) && f.minPrice.Undefined? && f.maxPrice.Undefined?
    ensures PostFiltered(f, ps) == ps
  {
    FilterKeepsAll(ps, p => Keeps(f, p));
  }

  /** The price bounds are inclusive: a product priced at either bound is kept by them. */
  lemma PriceBoundsInclusive(f: ProductFilters, p: Product)
    requires !Requested(f.sizes) && !Requested(f.colors)
    requires f.minPrice.Bound? && f.maxPrice.Bound?
    ensures Keeps(f, p) <==> f.minPrice.value <= p.price <= f.maxPrice.value
    ensures p.price == f.minPrice.value && p.price <= f.maxPrice.value ==> Keeps(f, p)
    ensures p.price == f.maxPrice.value && p.price >= f.minPrice.value ==> Keeps(f, p)
  {
  }

  /**
   * A `null` bound is applied and compares as 0: `maxPrice: null` drops
   * every product with a positive price.
   */
  lemma NullMaxPriceDropsPriced(f: ProductFilters, ps: seq<Product>)
    requires f.maxPrice.Null?
    requires forall p :: p in ps ==> p.price > 0.0
    ensures PostFiltered(f, ps) == []
  {
  }

  /** Any-match: sizes S and M meet a request for M or L, but not one for L or XL. */
  lemma SizeFilterAnyMatch(p: Product)
    requires p.sizes == ["S", "M"]
    ensures AnyMatch(["M", "L"], p.sizes)
    ensures !AnyMatch(["L", "XL"], p.sizes)
  {
    assert "M" in ["M", "L"] && "M" in p.sizes;
  }

  // ------------------------------------------------------------ related

  /** The fetched records other than the product itself. */
  function Others(rows: seq<RawProduct>, productId: int): seq<RawProduct> {
    Filter(rows, (r: RawProduct) => r.id != productId)
  }

  /**
   * `filter(record => record.Id !== productId).slice(0, limit)`: a prefix of
   * the other records in server order; `limit` of them when there are that
   * many and `limit` is not negative.
   */
  function RelatedRecords(rows: seq<RawProduct>, productId: int, limit: int): (kept: seq<RawProduct>)
    ensures |kept| <= |Others(rows, productId)| && kept == Others(rows, productId)[..|kept|]
    ensures SubseqOf(kept, rows)
    ensures forall r :: r in kept ==> r in rows && r.id != productId
    ensures limit >= 0 ==> |kept| == if limit < |Others(rows, productId)| then limit else |Others(rows, productId)|
  {
    var others := Others(rows, productId);
    var kept := Slice(others, 0, limit);
    SubseqPrefix(others, rows, |kept|);
    kept
  }

  /** The related products: never the product itself, at most `limit` of them. */
  function RelatedProducts(rows: seq<RawProduct>, productId: int, limit: int): (ps: seq<Product>)
    ensures ps == Views(RelatedRecords(rows, productId, limit))
    ensures forall p :: p in ps ==> p.id != productId
    ensures limit >= 0 ==> |ps| <= limit
  {
    Views(RelatedRecords(rows, productId, limit))
  }

  /**
   * The query for the other products of a category: one page from the
   * start, one record longer than `limit`, to leave room for the product
   * itself; no sort order is asked for.
   */
  function RelatedQuery(categoryName: string, limit: int): (q: Query)
    ensures q.table == "products_c" && q.orderBy.None?
    ensures q.where == [Condition("category_c", EqualTo, [Text(categoryName)])]
    ensures q.paging.Some? && q.paging.value.offset == 0 && q.paging.value.limit == limit + 1
  {
    Query("products_c", [Condition("category_c", EqualTo, [Text(categoryName)])], None, Some(Paging(limit + 1, 0)))
  }

  /**
   * Why the page holds `limit + 1`: when ids are unique and the backend
   * fills the page, excluding the product itself still leaves `limit`
   * related records.
   */
  lemma RelatedPageFillsLimit(rows: seq<RawProduct>, productId: int, limit: int)
    requires limit >= 0 && |rows| == limit + 1
    requires forall i, j :: 0 <= i < j < |rows| ==> rows[i].id != rows[j].id
    ensures |RelatedRecords(rows, productId, limit)| == limit
  {
    OthersDropAtMostOne(rows, productId);
  }

  /** With unique ids, excluding one id removes at most one record. */
  lemma {:induction false} OthersDropAtMostOne(rows: seq<RawProduct>, productId: int)
    requires forall i, j :: 0 <= i < j < |rows| ==> rows[i].id != rows[j].id
    ensures |Others(rows, productId)| + 1 >= |rows|
  {
    if rows != [] {
      var tail := rows[1..];
      assert forall i, j :: 0 <= i < j < |tail| ==> tail[i].id != tail[j].id by {
        forall i, j | 0 <= i < j < |tail| ensures tail[i].id != tail[j].id {
          assert tail[i] == rows[i + 1] && tail[j] == rows[j + 1];
        }
      }
      if rows[0].id == productId {
        forall r | r in tail ensures r.id != productId {
          var k :| 0 <= k < |tail| && tail[k] == r;
          assert rows[k + 1] == r;
        }
        FilterKeepsAll(tail, (r: RawProduct) => r.id != productId);
        assert Others(rows, productId) == Others(tail, productId);
      } else {
        OthersDropAtMostOne(tail, productId);
        assert Others(rows, productId) == [rows[0]] + Others(tail, productId);
      }
    }
  }

  // ----------------------------------------------------------- categories

  /** `cat.Name`, reading a missing name as the equally falsy `""`. */
  function NameOf(row: CategoryRow): string {
    Or(row.name, "")
  }

  predicate NonEmpty(s: string) {
    s != ""
  }

  /**
   * `data.map(cat => cat.Name).filter(Boolean)`: the category names in
   * order, without the missing and empty ones.
   */
  function CategoryNames(rows: seq<CategoryRow>): (names: seq<string>)
    ensures forall n :: n in names ==> n != ""
    ensures forall i :: 0 <= i < |rows| && Truthy(rows[i].name) ==> rows[i].name.value in names
    ensures forall n :: n in names ==> exists i :: 0 <= i < |rows| && rows[i].name == Some(n)
    ensures SubseqOf(names, MapSeq(rows, NameOf))
    ensures forall n :: multiset(names)[n] == if n != "" then multiset(MapSeq(rows, NameOf))[n] else 0
  {
    var all := MapSeq(rows, NameOf);
    var names := Filter(all, NonEmpty);
    assert forall i :: 0 <= i < |rows| ==> all[i] in all;
    names
  }

  // ------------------------------------------------------------- service

  /** The catalogue service; its only state is the lazily created client handle. */
  class ProductsService {
    var client: Option<Client>

    constructor()
      ensures client == None
    {
      client := None;
    }

    /** `initClient`: `supplied` is what the client factory returns on this call. */
    method InitClient(supplied: Option<Client>) returns (c: Option<Client>)
      modifies this
      ensures client == Lazily(old(client), supplied)
      ensures c == client
    {
      if client.None? {
        client := supplied;
      }
      c := client;
    }

    /**
     * `getAll`: sends the listing query, then transforms the fetched records
     * and applies the client-side filters. Any failure is an unsuccessful
     * answer with an empty list.
     */
    method GetAll(filters: ProductFilters, supplied: Option<Client>, reply: Reply<seq<RawProduct>>)
      returns (sent: Option<Query>, r: Answer<seq<Product>>)
      modifies this
      ensures client == Lazily(old(client), supplied)
      ensures client.None? ==> sent.None? && r == Answer(false, Some([]), None)
      ensures client.Some? ==> sent == Some(ProductQuery(filters))
      ensures client.Some? && !Succeeded(reply) ==> r == Answer(false, Some([]), None)
      ensures client.Some? && Succeeded(reply) ==> r == Ok(PostFiltered(filters, Views(Rows(reply))))
    {
      var c := InitClient(supplied);
      if c.None? {
        return None, Answer(false, Some([]), None);
      }
      var q := BuildProductQuery(filters);
      sent := Some(q);
      if !Succeeded(reply) {
        return sent, Answer(false, Some([]), None);
      }
      var products := Views(Rows(reply));
      products := ApplyPostFilters(filters, products);
      r := Ok(products);
    }

    /**
     * `getById`: does not create the client; without one, or without a
     * record, the product is not found.
     */
    method GetById(id: int, reply: Reply<RawProduct>) returns (fetched: Option<int>, r: Answer<Product>)
      ensures fetched == if client.Some? then Some(id) else None
      ensures client.None? || !Found(reply) ==> r == Fail("Product not found")
      ensures client.Some? && Found(reply) ==> r == Ok(TransformProductData(reply.data.value))
    {
      if client.None? {
        return None, Fail("Product not found");
      }
      fetched := Some(id);
      if !Found(reply) {
        return fetched, Fail("Product not found");
      }
      r := Ok(TransformProductData(reply.data.value));
    }

    /** `getFeatured`: the featured products, or an empty success on any failure. */
    method GetFeatured(supplied: Option<Client>, reply: Reply<seq<RawProduct>>)
      returns (sent: Option<Query>, r: Answer<seq<Product>>)
      modifies this
      ensures client == Lazily(old(client), supplied)
      ensures sent == if client.Some? then Some(Query("products_c", [Condition("featured_c", EqualTo, [Flag(true)])], None, None)) else None
      ensures client.None? || !Succeeded(reply) ==> r == Ok([])
      ensures client.Some? && Succeeded(reply) ==> r == Ok(Views(Rows(reply)))
    {
      var c := InitClient(supplied);
      if c.None? {
        return None, Ok([]);
      }
      sent := Some(Query("products_c", [Condition("featured_c", EqualTo, [Flag(true)])], None, None));
      if !Succeeded(reply) {
        return sent, Ok([]);
      }
      r := Ok(Views(Rows(reply)));
    }

    /**
     * `getRelated`: looks up the product, then fetches the other products of
     * its category. A product without a category has no related products.
     */
    method GetRelated(productId: int, supplied: Option<Client>,
                      main: Reply<RawProduct>, related: Reply<seq<RawProduct>>, limit: int := 4)
      returns (sent: Option<Query>, r: Answer<seq<Product>>)
      modifies this
      ensures client == Lazily(old(client), supplied)
      ensures client.None? || !Found(main) ==> sent.None? && r == Fail("Product not found")
      ensures client.Some? && Found(main) && !Truthy(CategoryName(main.data.value.category)) ==>
                sent.None? && r == Ok([])
      ensures client.Some? && Found(main) && Truthy(CategoryName(main.data.value.category)) ==>
                && sent == Some(RelatedQuery(CategoryName(main.data.value.category).value, limit))
                && (related.Threw? ==> r == Fail("Product not found"))
                && (related.Replied? && !related.success ==> r == Ok([]))
                && (Succeeded(related) ==> r == Ok(RelatedProducts(Rows(related), productId, limit)))
    {
      var c := InitClient(supplied);
      if c.None? || !Found(main) {
        return None, Fail("Product not found");
      }
      var categoryName := CategoryName(main.data.value.category);
      if !Truthy(categoryName) {
        return None, Ok([]);
      }
      sent := Some(RelatedQuery(categoryName.value, limit));
      if related.Threw? {
        return sent, Fail("Product not found");
      }
      if !related.success {
        return sent, Ok([]);
      }
      r := Ok(RelatedProducts(Rows(related), productId, limit));
    }

    /** `getCategories`: the non-empty category names, or an empty success on any failure. */
    method GetCategories(supplied: Option<Client>, reply: Reply<seq<CategoryRow>>)
      returns (sent: Option<Query>, r: Answer<seq<string>>)
      modifies this
      ensures client == Lazily(old(client), supplied)
      ensures sent == if client.Some? then Some(Query("categories_c", [], None, None)) else None
      ensures client.None? || !Succeeded(reply) ==> r == Ok([])
      ensures client.Some? && Succeeded(reply) ==> r == Ok(CategoryNames(Rows(reply)))
    {
      var c := InitClient(supplied);
      if c.None? {
        return None, Ok([]);
      }
      sent := Some(Query("categories_c", [], None, None));
      if !Succeeded(reply) {
        return sent, Ok([]);
      }
      r := Ok(CategoryNames(Rows(reply)));
    }
  }
}
