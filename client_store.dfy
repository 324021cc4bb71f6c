/** The client-side stores of src/store/index.ts: the shopping cart (a list of
    lines merged by product id, with two derived totals), the search-filter
    store and the modal store. Each store is a class whose setters replace
    its fields; the cart's list operations are specified by pure functions
    over `seq<CartItem>`, and the totals are folds. */
module ClientStore {
  import opened Types

  /** A client cart line: a synthetic id, the product id, the quantity and a
      snapshot of the product taken when the line was first added. */
  datatype CartItem = CartItem(id: string, productId: string, quantity: int, product: Product)

  predicate InCart(items: seq<CartItem>, productId: string) {
    exists i :: 0 <= i < |items| && items[i].productId == productId
  }

  /** At most one line per product id. */
  predicate UniqueProducts(items: seq<CartItem>) {
    forall i, j :: 0 <= i < j < |items| ==> items[i].productId != items[j].productId
  }

  /** The position of the line `items.find` returns: the first line for
      `productId`, or None when there is none. */
  function FindIndex(items: seq<CartItem>, productId: string): (r: Option<nat>)
    ensures r.None? <==> !InCart(items, productId)
    ensures r.Some? ==> r.value < |items| && items[r.value].productId == productId
    ensures r.Some? ==> forall j :: 0 <= j < r.value ==> items[j].productId != productId
  {
    if items == [] then None
    else if items[0].productId == productId then Some(0)
    else
      match FindIndex(items[1..], productId)
      case None =>
        assert forall i :: 1 <= i < |items| ==> items[i] == items[1..][i - 1];
        None
      case Some(k) => Some(k + 1)
  }

  /** The quantity rewrites the store applies: `q + delta` on add,
      an absolute `n` on update. */
  function AddTo(delta: int): int -> int {
    q => q + delta
  }

  function SetTo(n: int): int -> int {
    _ => n
  }

  /** `items.map(...)` rewriting the quantity of every line for `productId`
      with `f` and leaving the other lines as they are. */
  function MapQuantity(items: seq<CartItem>, productId: string, f: int -> int): (r: seq<CartItem>)
    ensures |r| == |items|
    ensures forall i :: 0 <= i < |items| ==>
      r[i] == if items[i].productId == productId then items[i].(quantity := f(items[i].quantity)) else items[i]
  {
    if items == [] then []
    else
      var head := if items[0].productId == productId then items[0].(quantity := f(items[0].quantity)) else items[0];
      [head] + MapQuantity(items[1..], productId, f)
  }

  /** removeItem: `items.filter(item => item.productId !== productId)`. */
  function Removed(items: seq<CartItem>, productId: string): (r: seq<CartItem>)
    ensures forall x :: x in r <==> x in items && x.productId != productId
    ensures |r| <= |items|
    ensures !InCart(r, productId)
    ensures !InCart(items, productId) ==> r == items
    ensures UniqueProducts(items) ==> UniqueProducts(r)
  {
    if items == [] then []
    else
      var rest := Removed(items[1..], productId);
      assert forall x :: x in items <==> x == items[0] || x in items[1..];
      if items[0].productId == productId then
        rest
      else
        var r := [items[0]] + rest;
        assert forall i :: 0 < i < |r| ==> r[i] == rest[i - 1];
        assert !InCart(items, productId) ==> rest == items[1..] by {
          if !InCart(items, productId) {
            assert !InCart(items[1..], productId) by {
              forall i | 0 <= i < |items[1..]| ensures items[1..][i].productId != productId {
                assert items[1..][i] == items[i + 1];
              }
            }
          }
        }
        assert UniqueProducts(items) ==> UniqueProducts(r) by {
          if UniqueProducts(items) {
            assert UniqueProducts(items[1..]) by {
              forall i, j | 0 <= i < j < |items[1..]|
                ensures items[1..][i].productId != items[1..][j].productId
              {
                assert items[1..][i] == items[i + 1] && items[1..][j] == items[j + 1];
              }
            }
            forall j | 0 < j < |r| ensures r[0].productId != r[j].productId {
              assert r[j] in items[1..];
              var m :| 0 <= m < |items[1..]| && items[1..][m] == r[j];
              assert items[1..][m] == items[m + 1];
            }
          }
        }
        r
  }

  /** addItem(product, quantity = 1): an existing line for the product has
      `quantity` added to it; otherwise one new line, carrying the fresh id
      `id` and the product snapshot, is appended at the end. */
  function Added(items: seq<CartItem>, product: Product, id: string, quantity: int := 1): (r: seq<CartItem>)
    ensures InCart(items, product.id) ==> |r| == |items|
    ensures InCart(items, product.id) ==> forall i :: 0 <= i < |items| ==>
      r[i] == if items[i].productId == product.id
              then items[i].(quantity := items[i].quantity + quantity)
              else items[i]
    ensures !InCart(items, product.id) ==> r == items + [CartItem(id, product.id, quantity, product)]
    ensures InCart(r, product.id)
    ensures UniqueProducts(items) ==> UniqueProducts(r)
  {
    match FindIndex(items, product.id)
    case Some(k) =>
      var r := MapQuantity(items, product.id, AddTo(quantity));
      assert r[k].productId == product.id;
      r
    case None =>
      var r := items + [CartItem(id, product.id, quantity, product)];
      assert r[|items|].productId == product.id;
      r
  }

  /** updateQuantity(productId, quantity): a quantity of zero or less is
      removeItem; otherwise the matching line's quantity is set to
      `quantity`, and no line is inserted for an absent product. */
  function Updated(items: seq<CartItem>, productId: string, quantity: int): (r: seq<CartItem>)
    ensures quantity <= 0 ==> r == Removed(items, productId)
    ensures quantity > 0 ==> |r| == |items|
    ensures quantity > 0 ==> forall i :: 0 <= i < |items| ==>
      r[i] == if items[i].productId == productId then items[i].(quantity := quantity) else items[i]
    ensures quantity > 0 ==> (InCart(r, productId) <==> InCart(items, productId))
    ensures UniqueProducts(items) ==> UniqueProducts(r)
  {
    if quantity <= 0 then
      Removed(items, productId)
    else
      var r := MapQuantity(items, productId, SetTo(quantity));
      assert InCart(r, productId) ==> InCart(items, productId);
      r
  }

  /** The two per-line weights the totals add up. */
  function LineQuantity(item: CartItem): int {
    item.quantity
  }

  /** The snapshot price times the quantity. */
  function LineSubtotal(item: CartItem): int {
    item.product.price * item.quantity
  }

  /** `items.reduce((total, item) => total + weight(item), acc)`: a left fold. */
  function Reduce(items: seq<CartItem>, acc: int, weight: CartItem -> int): int {
    if items == [] then acc else Reduce(items[1..], acc + weight(items[0]), weight)
  }

  /** Reference definition of a total: the plain sum of the weights. */
  function Sum(items: seq<CartItem>, weight: CartItem -> int): int {
    if items == [] then 0 else weight(items[0]) + Sum(items[1..], weight)
  }

  lemma {:induction false} ReduceIsSum(items: seq<CartItem>, acc: int, weight: CartItem -> int)
    ensures Reduce(items, acc, weight) == acc + Sum(items, weight)
  {
    if items != [] {
      ReduceIsSum(items[1..], acc + weight(items[0]), weight);
    }
  }

  /** getTotalItems: the sum of the line quantities. */
  function TotalItems(items: seq<CartItem>): (r: int)
    ensures r == Sum(items, LineQuantity)
    ensures items == [] ==> r == 0
  {
    ReduceIsSum(items, 0, LineQuantity);
    Reduce(items, 0, LineQuantity)
  }

  /** getTotalPrice: the sum of snapshot price times quantity. */
  function TotalPrice(items: seq<CartItem>): (r: int)
    ensures r == Sum(items, LineSubtotal)
    ensures items == [] ==> r == 0
  {
    ReduceIsSum(items, 0, LineSubtotal);
    Reduce(items, 0, LineSubtotal)
  }

  lemma {:induction false} SumAppend(a: seq<CartItem>, b: seq<CartItem>, weight: CartItem -> int)
    ensures Sum(a + b, weight) == Sum(a, weight) + Sum(b, weight)
  {
    if a == [] {
      assert a + b == b;
    } else {
      assert (a + b)[1..] == a[1..] + b;
      SumAppend(a[1..], b, weight);
    }
  }

  lemma {:induction false} SumReplaceAt(items: seq<CartItem>, k: nat, x: CartItem, weight: CartItem -> int)
    requires k < |items|
    ensures Sum(items[k := x], weight) == Sum(items, weight) - weight(items[k]) + weight(x)
  {
    if k == 0 {
      assert items[k := x][1..] == items[1..];
    } else {
      assert items[k := x][1..] == items[1..][k - 1 := x];
      SumReplaceAt(items[1..], k - 1, x, weight);
    }
  }

  lemma SumRemoveAt(items: seq<CartItem>, k: nat, weight: CartItem -> int)
    requires k < |items|
    ensures Sum(items[..k] + items[k + 1..], weight) == Sum(items, weight) - weight(items[k])
  {
    assert items == items[..k] + items[k..];
    assert items[k..] == [items[k]] + items[k + 1..];
    SumAppend(items[..k], items[k + 1..], weight);
    SumAppend(items[..k], items[k..], weight);
    SumAppend([items[k]], items[k + 1..], weight);
    assert [items[k]][1..] == [];
  }

  lemma UniqueTail(items: seq<CartItem>)
    requires items != [] && UniqueProducts(items)
    ensures UniqueProducts(items[1..])
    ensures !InCart(items[1..], items[0].productId)
  {
    var tail := items[1..];
    forall i, j | 0 <= i < j < |tail| ensures tail[i].productId != tail[j].productId {
      assert tail[i] == items[i + 1] && tail[j] == items[j + 1];
    }
    forall i | 0 <= i < |tail| ensures tail[i].productId != items[0].productId {
      assert tail[i] == items[i + 1];
    }
  }

  /** With one line per product, removing a product deletes exactly the line
      at its position and keeps every other line in order. */
  lemma {:induction false} RemovedAt(items: seq<CartItem>, k: nat)
    requires UniqueProducts(items) && k < |items|
    ensures Removed(items, items[k].productId) == items[..k] + items[k + 1..]
  {
    var p := items[k].productId;
    var tail := items[1..];
    UniqueTail(items);
    if k == 0 {
      assert Removed(items, p) == Removed(tail, p) == tail;
    } else {
      assert Removed(items, p) == [items[0]] + Removed(tail, p);
      assert tail[k - 1] == items[k];
      RemovedAt(tail, k - 1);
      SplitAfterHead(items, k);
    }
  }

  lemma SplitAfterHead(items: seq<CartItem>, k: nat)
    requires 0 < k < |items|
    ensures items[..k] + items[k + 1..] == [items[0]] + (items[1..][..k - 1] + items[1..][k..])
  {
    assert items[..k] == [items[0]] + items[1..][..k - 1];
    assert items[k + 1..] == items[1..][k..];
  }

  /** With one line per product, the merge on add rewrites only the line at
      the product's position. */
  lemma AddedAt(items: seq<CartItem>, product: Product, id: string, quantity: int, k: nat)
    requires UniqueProducts(items) && k < |items| && items[k].productId == product.id
    ensures Added(items, product, id, quantity) == items[k := items[k].(quantity := items[k].quantity + quantity)]
  {
    var r := Added(items, product, id, quantity);
    var s := items[k := items[k].(quantity := items[k].quantity + quantity)];
    forall i | 0 <= i < |items| ensures r[i] == s[i] {
      if i != k {
        assert items[i].productId != product.id;
      }
    }
  }

  /** Adding `quantity` of a product raises the item count by `quantity`
      and the price total by the line's snapshot price times `quantity`:
      the snapshot of an existing line, not the price passed in. */
  lemma TotalsAfterAdd(items: seq<CartItem>, product: Product, id: string, quantity: int)
    requires UniqueProducts(items)
    ensures TotalItems(Added(items, product, id, quantity)) == TotalItems(items) + quantity
    ensures match FindIndex(items, product.id)
      case Some(k) =>
        TotalPrice(Added(items, product, id, quantity)) == TotalPrice(items) + items[k].product.price * quantity
      case None =>
        TotalPrice(Added(items, product, id, quantity)) == TotalPrice(items) + product.price * quantity
  {
    match FindIndex(items, product.id)
    case Some(k) =>
      var line := items[k].(quantity := items[k].quantity + quantity);
      AddedAt(items, product, id, quantity, k);
      SumReplaceAt(items, k, line, LineQuantity);
      SumReplaceAt(items, k, line, LineSubtotal);
      assert LineSubtotal(line) == LineSubtotal(items[k]) + items[k].product.price * quantity by {
        var p := items[k].product.price;
        assert p * (items[k].quantity + quantity) == p * items[k].quantity + p * quantity;
      }
    case None =>
      var line := CartItem(id, product.id, quantity, product);
      SumAppend(items, [line], LineQuantity);
      SumAppend(items, [line], LineSubtotal);
  }

  /** Removing a product lowers the totals by exactly its line; removing an
      absent product changes nothing. */
  lemma TotalsAfterRemove(items: seq<CartItem>, productId: string)
    requires UniqueProducts(items)
    ensures match FindIndex(items, productId)
      case Some(k) =>
        && TotalItems(Removed(items, productId)) == TotalItems(items) - items[k].quantity
        && TotalPrice(Removed(items, productId)) == TotalPrice(items) - LineSubtotal(items[k])
      case None =>
        Removed(items, productId) == items
  {
    match FindIndex(items, productId)
    case Some(k) =>
      RemovedAt(items, k);
      SumRemoveAt(items, k, LineQuantity);
      SumRemoveAt(items, k, LineSubtotal);
    case None =>
  }

  /** Setting a positive quantity replaces the line's share of both totals,
      priced at the line's snapshot; a product not in the cart leaves the
      cart as it was. */
  lemma TotalsAfterUpdate(items: seq<CartItem>, productId: string, quantity: int)
    requires UniqueProducts(items) && quantity > 0
    ensures match FindIndex(items, productId)
      case Some(k) =>
        && TotalItems(Updated(items, productId, quantity)) == TotalItems(items) - items[k].quantity + quantity
        && TotalPrice(Updated(items, productId, quantity))
           == TotalPrice(items) - LineSubtotal(items[k]) + items[k].product.price * quantity
      case None =>
        Updated(items, productId, quantity) == items
  {
    var r := Updated(items, productId, quantity);
    match FindIndex(items, productId)
    case Some(k) =>
      var line := items[k].(quantity := quantity);
      forall i | 0 <= i < |items| ensures r[i] == items[k := line][i] {
        if i != k {
          assert items[i].productId != productId;
        }
      }
      assert r == items[k := line];
      SumReplaceAt(items, k, line, LineQuantity);
      SumReplaceAt(items, k, line, LineSubtotal);
    case None =>
      assert r == items;
  }

  /** Adding a product that is not yet in the cart twice leaves one line,
      holding the first add's id and snapshot and the sum of both
      quantities. */
  lemma AddTwiceMerges(items: seq<CartItem>, product: Product, id1: string, id2: string, q1: int, q2: int)
    requires !InCart(items, product.id)
    ensures Added(Added(items, product, id1, q1), product, id2, q2)
         == items + [CartItem(id1, product.id, q1 + q2, product)]
  {
    var once := Added(items, product, id1, q1);
    var twice := Added(once, product, id2, q2);
    var want := items + [CartItem(id1, product.id, q1 + q2, product)];
    assert once[|items|].productId == product.id;
    forall i | 0 <= i < |once| ensures twice[i] == want[i] {
      if i < |items| {
        assert once[i] == items[i];
      }
    }
  }

  /** useCartStore: the client cart. `Valid` is the one-line-per-product
      invariant; every operation keeps it. */
  class CartStore {
    var items: seq<CartItem>

    ghost predicate Valid()
      reads this
    {
      UniqueProducts(items)
    }

    constructor ()
      ensures Valid() && items == []
    {
      items := [];
    }

    /** `id` stands for the `${product.id}-${Date.now()}` id of a new line. */
    method AddItem(product: Product, id: string, quantity: int := 1)
      modifies this
      ensures items == Added(old(items), product, id, quantity)
      ensures old(Valid()) ==> Valid()
    {
      var existing := FindIndex(items, product.id);
      if existing.Some? {
        items := MapQuantity(items, product.id, AddTo(quantity));
      } else {
        items := items + [CartItem(id, product.id, quantity, product)];
      }
    }

    method RemoveItem(productId: string)
      modifies this
      ensures items == Removed(old(items), productId)
      ensures old(Valid()) ==> Valid()
    {
      items := Removed(items, productId);
    }

    method UpdateQuantity(productId: string, quantity: int)
      modifies this
      ensures items == Updated(old(items), productId, quantity)
      ensures old(Valid()) ==> Valid()
    {
      if quantity <= 0 {
        RemoveItem(productId);
        return;
      }
      items := MapQuantity(items, productId, SetTo(quantity));
    }

    method ClearCart()
      modifies this
      ensures items == [] && Valid()
    {
      items := [];
    }

    method GetTotalItems() returns (total: int)
      ensures total == Sum(items, LineQuantity)
    {
      total := TotalItems(items);
    }

    method GetTotalPrice() returns (total: int)
      ensures total == Sum(items, LineSubtotal)
    {
      total := TotalPrice(items);
    }
  }

  /** useSearchStore: the search term and the selected category slug. */
  class SearchStore {
    var searchTerm: string
    var selectedCategory: string

    constructor ()
      ensures searchTerm == "" && selectedCategory == ""
    {
      searchTerm, selectedCategory := "", "";
    }

    method SetSearchTerm(term: string)
      modifies this
      ensures searchTerm == term && selectedCategory == old(selectedCategory)
    {
      searchTerm := term;
    }

    method SetSelectedCategory(category: string)
      modifies this
      ensures selectedCategory == category && searchTerm == old(searchTerm)
    {
      selectedCategory := category;
    }

    method ClearFilters()
      modifies this
      ensures searchTerm == "" && selectedCategory == ""
    {
      searchTerm, selectedCategory := "", "";
    }
  }

  /** useModalStore: whether the product modal is open and which product it
      shows. `Valid`: the modal is open exactly when a product is selected. */
  class ModalStore {
    var isOpen: bool
    var selectedProduct: Option<Product>

    ghost predicate Valid()
      reads this
    {
      isOpen <==> selectedProduct.Some?
    }

    constructor ()
      ensures Valid() && !isOpen && selectedProduct == None
    {
      isOpen, selectedProduct := false, None;
    }

    method OpenModal(product: Product)
      modifies this
      ensures isOpen && selectedProduct == Some(product) && Valid()
    {
      isOpen, selectedProduct := true, Some(product);
    }

    method CloseModal()
      modifies this
      ensures !isOpen && selectedProduct == None && Valid()
    {
      isOpen, selectedProduct := false, None;
    }
  }
}
