/** The products API of src/app/api/products/route.ts. GET builds a `where`
    clause from the search term and the category slug, then sorts the
    matching products newest first, skips `offset`, takes `limit`, and
    reports the number of matches and whether more pages follow. POST
    validates a new product and inserts it. The database is replaced by a
    sequence of product rows, joined with their categories. */
module ProductService {
  import opened Types

  const DefaultLimit: nat := 20
  const DefaultOffset: nat := 0

  function Min(a: int, b: int): int {
    if a <= b then a else b
  }

  /** ASCII lower-casing, standing in for the database's case-insensitive
      comparison. */
  function Lower(c: char): char {
    if 'A' <= c <= 'Z' then (c as int + 32) as char else c
  }

  function LowerCase(s: string): (r: string)
    ensures |r| == |s| && forall i :: 0 <= i < |s| ==> r[i] == Lower(s[i])
  {
    if s == [] then [] else [Lower(s[0])] + LowerCase(s[1..])
  }

  /** `needle` occurs in `hay` starting at position `i`. */
  predicate OccursAt(hay: string, needle: string, i: int) {
    0 <= i && i + |needle| <= |hay| && hay[i..i + |needle|] == needle
  }

  /** `needle` matches `hay` at position `i` when case is ignored, character
      by character. */
  predicate MatchesAt(hay: string, needle: string, i: int) {
    0 <= i && i + |needle| <= |hay| && forall j :: 0 <= j < |needle| ==> Lower(hay[i + j]) == Lower(needle[j])
  }

  lemma OccursAfterHead(hay: string, needle: string, i: nat)
    requires hay != []
    ensures OccursAt(hay[1..], needle, i) <==> OccursAt(hay, needle, i + 1)
  {
    if i + |needle| <= |hay[1..]| {
      assert hay[1..][i..i + |needle|] == hay[i + 1..i + 1 + |needle|];
    }
  }

  /** Substring search, scanning the start positions from the left. */
  function Contains(hay: string, needle: string): (b: bool)
    ensures b <==> exists i :: OccursAt(hay, needle, i)
    decreases |hay|
  {
    if |needle| > |hay| then
      false
    else if hay[..|needle|] == needle then
      assert OccursAt(hay, needle, 0);
      true
    else
      var b := Contains(hay[1..], needle);
      assert b ==> exists i :: OccursAt(hay, needle, i) by {
        if b {
          var i :| OccursAt(hay[1..], needle, i);
          OccursAfterHead(hay, needle, i);
        }
      }
      assert (exists i :: OccursAt(hay, needle, i)) ==> b by {
        if exists i :: OccursAt(hay, needle, i) {
          var i :| OccursAt(hay, needle, i);
          assert i != 0;
          OccursAfterHead(hay, needle, i - 1);
        }
      }
      b
  }

  lemma OccursLowerCase(hay: string, needle: string, i: int)
    ensures OccursAt(LowerCase(hay), LowerCase(needle), i) <==> MatchesAt(hay, needle, i)
  {
    var h, n := LowerCase(hay), LowerCase(needle);
    if 0 <= i && i + |needle| <= |hay| {
      var w := h[i..i + |n|];
      assert forall j :: 0 <= j < |needle| ==> w[j] == h[i + j];
      if MatchesAt(hay, needle, i) {
        assert w == n;
      }
    }
  }

  /** `contains: search, mode: 'insensitive'`: the search term occurs in
      `hay` at some position, ignoring case. */
  function ContainsInsensitive(hay: string, needle: string): (b: bool)
    ensures b <==> exists i :: MatchesAt(hay, needle, i)
  {
    var b := Contains(LowerCase(hay), LowerCase(needle));
    assert b ==> exists i :: MatchesAt(hay, needle, i) by {
      if b {
        var i :| OccursAt(LowerCase(hay), LowerCase(needle), i);
        OccursLowerCase(hay, needle, i);
      }
    }
    assert (exists i :: MatchesAt(hay, needle, i)) ==> b by {
      if exists i :: MatchesAt(hay, needle, i) {
        var i :| MatchesAt(hay, needle, i);
        OccursLowerCase(hay, needle, i);
      }
    }
    b
  }

  /** The `where` clause of GET: an empty search or category imposes no
      constraint; a non-empty search must occur, ignoring case, in the title
      OR the description; a non-empty category must equal the product's
      category slug; both are AND-combined. */
  predicate Matches(p: Product, search: string, category: string) {
    && (search == "" || ContainsInsensitive(p.title, search) || ContainsInsensitive(p.description, search))
    && (category == "" || p.category.slug == category)
  }

  /** The products that satisfy the `where` clause, each as often as in the
      table. */
  function Filter(products: seq<Product>, search: string, category: string): (r: seq<Product>)
    ensures forall p :: multiset(r)[p] == if Matches(p, search, category) then multiset(products)[p] else 0
    ensures forall p :: p in r ==> p in products && Matches(p, search, category)
    ensures |r| <= |products|
  {
    if products == [] then
      []
    else
      var head := if Matches(products[0], search, category) then [products[0]] else [];
      var r := head + Filter(products[1..], search, category);
      assert products == [products[0]] + products[1..];
      assert multiset(r) == multiset(head) + multiset(Filter(products[1..], search, category));
      assert forall p :: p in r ==> multiset(r)[p] > 0;
      r
  }

  /** `orderBy: { createdAt: 'desc' }`. */
  predicate NewestFirst(s: seq<Product>) {
    forall i, j :: 0 <= i < j < |s| ==> s[i].createdAt >= s[j].createdAt
  }

  lemma NewestFirstTail(s: seq<Product>)
    requires s != [] && NewestFirst(s)
    ensures NewestFirst(s[1..])
    ensures forall y :: y in s[1..] ==> y.createdAt <= s[0].createdAt
  {
    forall i, j | 0 <= i < j < |s[1..]| ensures s[1..][i].createdAt >= s[1..][j].createdAt {
      assert s[1..][i] == s[i + 1] && s[1..][j] == s[j + 1];
    }
    forall y | y in s[1..] ensures y.createdAt <= s[0].createdAt {
      var k :| 0 <= k < |s[1..]| && s[1..][k] == y;
      assert s[1..][k] == s[k + 1];
    }
  }

  lemma PrependNewest(x: Product, s: seq<Product>)
    requires NewestFirst(s)
    requires forall y :: y in s ==> y.createdAt <= x.createdAt
    ensures NewestFirst([x] + s)
  {
    var r := [x] + s;
    forall i, j | 0 <= i < j < |r| ensures r[i].createdAt >= r[j].createdAt {
      assert r[j] == s[j - 1] && r[j] in s;
      if i > 0 {
        assert r[i] == s[i - 1];
      }
    }
  }

  function InsertByDate(p: Product, s: seq<Product>): (r: seq<Product>)
    requires NewestFirst(s)
    ensures NewestFirst(r) && multiset(r) == multiset(s) + multiset{p}
    ensures |r| == |s| + 1
  {
    if s == [] then
      [p]
    else
      NewestFirstTail(s);
      if p.createdAt >= s[0].createdAt then
        PrependNewest(p, s);
        [p] + s
      else
        var rest := InsertByDate(p, s[1..]);
        assert s == [s[0]] + s[1..];
        forall x | x in rest ensures x.createdAt <= s[0].createdAt {
          assert x in multiset(rest);
          assert x == p || x in multiset(s[1..]);
        }
        PrependNewest(s[0], rest);
        [s[0]] + rest
  }

  /** The matching products, newest first. Products created at the same
      time may come in either order in the database; this insertion sort
      fixes one of them. */
  function SortNewestFirst(s: seq<Product>): (r: seq<Product>)
    ensures NewestFirst(r) && multiset(r) == multiset(s)
    ensures |r| == |s|
  {
    if s == [] then
      []
    else
      assert s == [s[0]] + s[1..];
      InsertByDate(s[0], SortNewestFirst(s[1..]))
  }

  /** `skip: offset, take: limit`. */
  function Page(s: seq<Product>, offset: nat, limit: nat): (r: seq<Product>)
    ensures |r| == if offset >= |s| then 0 else Min(limit, |s| - offset)
    ensures forall i :: 0 <= i < |r| ==> r[i] == s[offset + i]
  {
    if offset >= |s| then [] else s[offset..offset + Min(limit, |s| - offset)]
  }

  /** A page of a newest-first list is newest first and holds only
      elements of the list. */
  lemma PageOfSorted(s: seq<Product>, offset: nat, limit: nat)
    requires NewestFirst(s)
    ensures NewestFirst(Page(s, offset, limit))
    ensures forall p :: p in Page(s, offset, limit) ==> p in s
  {
    var r := Page(s, offset, limit);
    forall i, j | 0 <= i < j < |r| ensures r[i].createdAt >= r[j].createdAt {
      assert r[i] == s[offset + i] && r[j] == s[offset + j];
    }
    forall p | p in r ensures p in s {
      var i :| 0 <= i < |r| && r[i] == p;
      assert r[i] == s[offset + i];
    }
  }

  /** Every product on a page of the sorted matches is a matching row of
      the table, and the page is newest first. */
  lemma PageOfMatches(catalog: seq<Product>, search: string, category: string, offset: nat, limit: nat)
    ensures var page := Page(SortNewestFirst(Filter(catalog, search, category)), offset, limit);
      && NewestFirst(page)
      && forall p :: p in page ==> p in catalog && Matches(p, search, category)
  {
    var matching := Filter(catalog, search, category);
    var sorted := SortNewestFirst(matching);
    PageOfSorted(sorted, offset, limit);
    forall p | p in sorted ensures p in matching {
      assert p in multiset(sorted);
    }
  }

  /** Query parameters of GET. `None` stands for an absent or empty parameter
      (`searchParams.get(...) || default`). */
  datatype ProductQuery = ProductQuery(search: Option<string>, category: Option<string>, limit: Option<nat>, offset: Option<nat>)

  datatype Pagination = Pagination(total: nat, limit: nat, offset: nat, hasMore: bool)

  datatype ProductPage = ProductPage(products: seq<Product>, pagination: Pagination)

  /** GET /api/products. */
  function ListProducts(catalog: seq<Product>, query: ProductQuery): (r: ProductPage)
    ensures r.pagination.limit == query.limit.GetOr(DefaultLimit)
    ensures r.pagination.offset == query.offset.GetOr(DefaultOffset)
    ensures r.pagination.total == |Filter(catalog, query.search.GetOr(""), query.category.GetOr(""))|
    ensures r.pagination.hasMore <==> r.pagination.offset + r.pagination.limit < r.pagination.total
    ensures |r.products| == if r.pagination.offset >= r.pagination.total then 0
                            else Min(r.pagination.limit, r.pagination.total - r.pagination.offset)
    ensures var sorted := SortNewestFirst(Filter(catalog, query.search.GetOr(""), query.category.GetOr("")));
      forall i :: 0 <= i < |r.products| ==> r.products[i] == sorted[r.pagination.offset + i]
  {
    var search, category := query.search.GetOr(""), query.category.GetOr("");
    var limit, offset := query.limit.GetOr(DefaultLimit), query.offset.GetOr(DefaultOffset);
    var matching := Filter(catalog, search, category);
    var sorted := SortNewestFirst(matching);
    var products := Page(sorted, offset, limit);
    ProductPage(products, Pagination(|matching|, limit, offset, offset + limit < |matching|))
  }

  /** Every listed product is a row of the table that satisfies the
      `where` clause, and the page is newest first. */
  lemma ListedProductsMatch(catalog: seq<Product>, query: ProductQuery)
    ensures var r := ListProducts(catalog, query);
      && NewestFirst(r.products)
      && forall p :: p in r.products ==> p in catalog && Matches(p, query.search.GetOr(""), query.category.GetOr(""))
  {
    PageOfMatches(catalog, query.search.GetOr(""), query.category.GetOr(""),
                  query.offset.GetOr(DefaultOffset), query.limit.GetOr(DefaultLimit));
  }

  /** Without a search term and a category every product matches, so
      `total` is the size of the table. */
  lemma NoFilterMatchesAll(catalog: seq<Product>, limit: Option<nat>, offset: Option<nat>)
    ensures ListProducts(catalog, ProductQuery(None, None, limit, offset)).pagination.total == |catalog|
  {
    var matching := Filter(catalog, "", "");
    assert multiset(matching) == multiset(catalog);
    assert |matching| == |multiset(matching)|;
  }

  /** A matching product created strictly after every other row of the table
      heads the first page. */
  lemma NewestMatchListedFirst(catalog: seq<Product>, query: ProductQuery, p: Product)
    requires p in catalog && Matches(p, query.search.GetOr(""), query.category.GetOr(""))
    requires forall q :: q in catalog && q != p ==> q.createdAt < p.createdAt
    requires query.offset.GetOr(DefaultOffset) == 0 && query.limit.GetOr(DefaultLimit) >= 1
    ensures var r := ListProducts(catalog, query); |r.products| >= 1 && r.products[0] == p
  {
    var matching := Filter(catalog, query.search.GetOr(""), query.category.GetOr(""));
    var sorted := SortNewestFirst(matching);
    assert p in multiset(sorted);
    var j :| 0 <= j < |sorted| && sorted[j] == p;
    assert sorted[0] in multiset(sorted);
  }

  /** The JSON body of POST. */
  datatype ProductInput = ProductInput(title: string, description: string, price: int, imageUrl: string, categoryId: string)

  predicate IsSchemeChar(c: char) {
    ('a' <= c <= 'z') || ('A' <= c <= 'Z') || ('0' <= c <= '9') || c == '+' || c == '-' || c == '.'
  }

  /** Stand-in for zod's URL check: a scheme that starts with a letter,
      then ':' and at least one more character. */
  predicate IsValidUrl(url: string) {
    exists k :: 1 <= k < |url| - 1 && url[k] == ':'
      && (('a' <= url[0] <= 'z') || ('A' <= url[0] <= 'Z'))
      && forall i :: 0 <= i < k ==> IsSchemeChar(url[i])
  }

  /** createProductSchema: non-empty title, description and categoryId, a
      positive price and a URL. */
  predicate InputValid(input: ProductInput) {
    && |input.title| >= 1
    && |input.description| >= 1
    && input.price > 0
    && IsValidUrl(input.imageUrl)
    && |input.categoryId| >= 1
  }

  /** The product and category tables. `Valid`: every product refers to a
      known category, carries that category joined, and has a positive price. */
  class ProductStore {
    var products: seq<Product>
    var categories: map<string, Category>

    ghost predicate Valid()
      reads this
    {
      forall i :: 0 <= i < |products| ==>
        && products[i].categoryId in categories
        && products[i].category == categories[products[i].categoryId]
        && products[i].price > 0
    }

    constructor (categories: map<string, Category>)
      ensures this.categories == categories && products == [] && Valid()
    {
      this.categories := categories;
      products := [];
    }

    /** POST /api/products. `newId` and `now` stand for the id and the
        timestamp the database gives the new row. An invalid body is 400; an
        unknown category id fails the foreign key, which the route reports
        as 500; otherwise exactly one product is inserted and returned with
        201. */
    method Create(input: ProductInput, newId: string, now: int) returns (status: int, created: Option<Product>)
      modifies this
      ensures categories == old(categories)
      ensures !InputValid(input) ==> status == 400 && created == None && products == old(products)
      ensures InputValid(input) && input.categoryId !in categories ==>
        status == 500 && created == None && products == old(products)
      ensures InputValid(input) && input.categoryId in categories ==>
        && status == 201
        && created == Some(Product(newId, input.title, input.description, input.price, input.imageUrl,
                                   input.categoryId, categories[input.categoryId], now))
        && products == old(products) + [created.value]
      ensures old(Valid()) ==> Valid()
    {
      if !InputValid(input) {
        return 400, None;
      }
      if input.categoryId !in categories {
        return 500, None;
      }
      var product := Product(newId, input.title, input.description, input.price, input.imageUrl,
                             input.categoryId, categories[input.categoryId], now);
      products := products + [product];
      status, created := 201, Some(product);
    }
  }
}
