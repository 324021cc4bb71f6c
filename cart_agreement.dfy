/** The client cart (src/store/index.ts) and the server cart
    (src/app/api/cart/route.ts) follow the same merge rule: adding a product
    that is already in the cart increments its line, and a positive update
    overwrites it. Read through `Quantities`, which forgets the line order,
    ids and snapshots of the client list, the two agree on every valid
    request; where they differ is the error paths. */
module CartAgreement {
  import opened Types
  import opened ClientStore
  import CartService

  lemma InCartCons(items: seq<CartItem>, productId: string)
    requires items != []
    ensures InCart(items, productId) <==> items[0].productId == productId || InCart(items[1..], productId)
  {
    if InCart(items, productId) && items[0].productId != productId {
      var i :| 0 <= i < |items| && items[i].productId == productId;
      assert items[1..][i - 1] == items[i];
    }
    if InCart(items[1..], productId) {
      var i :| 0 <= i < |items[1..]| && items[1..][i].productId == productId;
      assert items[1..][i] == items[i + 1];
    }
  }

  /** The product-to-quantity map a client cart stands for (the first line
      for a product wins, as `find` does). */
  function Quantities(items: seq<CartItem>): map<string, int> {
    if items == [] then map[]
    else Quantities(items[1..])[items[0].productId := items[0].quantity]
  }

  /** The map has an entry exactly for the products in the cart, and on a
      cart with one line per product each entry is that line's quantity. */
  lemma {:induction false} QuantitiesOf(items: seq<CartItem>)
    ensures forall p :: p in Quantities(items) <==> InCart(items, p)
    ensures UniqueProducts(items) ==> forall i :: 0 <= i < |items| ==>
      items[i].productId in Quantities(items) && Quantities(items)[items[i].productId] == items[i].quantity
  {
    if items != [] {
      QuantitiesOf(items[1..]);
      forall p ensures p in Quantities(items) <==> InCart(items, p) {
        InCartCons(items, p);
      }
      if UniqueProducts(items) {
        UniqueTail(items);
        forall i | 0 < i < |items|
          ensures items[i].productId in Quantities(items) && Quantities(items)[items[i].productId] == items[i].quantity
        {
          assert items[1..][i - 1] == items[i];
        }
      }
    }
  }

  /** Rewriting every line of one product rewrites that product's entry. */
  lemma {:induction false} QuantitiesMapQuantity(items: seq<CartItem>, productId: string, f: int -> int)
    ensures var before := Quantities(items);
      Quantities(MapQuantity(items, productId, f))
        == if productId in before then before[productId := f(before[productId])] else before
  {
    if items != [] {
      QuantitiesMapQuantity(items[1..], productId, f);
      var mapped := MapQuantity(items, productId, f);
      assert mapped[1..] == MapQuantity(items[1..], productId, f);
      assert mapped[0] == if items[0].productId == productId then items[0].(quantity := f(items[0].quantity)) else items[0];
    }
  }

  /** Appending a line for a new product adds one entry. */
  lemma {:induction false} QuantitiesAppend(items: seq<CartItem>, line: CartItem)
    requires !InCart(items, line.productId)
    ensures Quantities(items + [line]) == Quantities(items)[line.productId := line.quantity]
  {
    if items == [] {
      assert items + [line] == [line];
    } else {
      InCartCons(items, line.productId);
      assert (items + [line])[1..] == items[1..] + [line];
      QuantitiesAppend(items[1..], line);
    }
  }

  /** Dropping a product's lines drops its entry. */
  lemma {:induction false} QuantitiesRemoved(items: seq<CartItem>, productId: string)
    ensures Quantities(Removed(items, productId)) == Quantities(items) - {productId}
  {
    if items != [] {
      var head, tail := items[0], items[1..];
      var rest := Quantities(tail);
      QuantitiesRemoved(tail, productId);
      RemovedCons(items, productId);
      if head.productId == productId {
        DropUpdated(rest, productId, head.quantity);
      } else {
        QuantitiesCons(head, Removed(tail, productId));
        DropOther(rest, productId, head.productId, head.quantity);
      }
    }
  }

  lemma DropUpdated(m: map<string, int>, key: string, value: int)
    ensures m[key := value] - {key} == m - {key}
  {
  }

  lemma DropOther(m: map<string, int>, key: string, other: string, value: int)
    requires other != key
    ensures (m - {key})[other := value] == m[other := value] - {key}
  {
  }

  lemma RemovedCons(items: seq<CartItem>, productId: string)
    requires items != []
    ensures Removed(items, productId)
         == if items[0].productId == productId then Removed(items[1..], productId)
            else [items[0]] + Removed(items[1..], productId)
  {
  }

  lemma QuantitiesCons(head: CartItem, tail: seq<CartItem>)
    ensures Quantities([head] + tail) == Quantities(tail)[head.productId := head.quantity]
  {
    assert ([head] + tail)[1..] == tail;
  }

  /** The client's addItem, read through Quantities: the product's entry
      grows by the quantity, or appears with it. */
  lemma {:induction false} QuantitiesAdded(items: seq<CartItem>, product: Product, id: string, quantity: int)
    ensures var before := Quantities(items);
      Quantities(Added(items, product, id, quantity))
        == before[product.id := if product.id in before then before[product.id] + quantity else quantity]
  {
    QuantitiesHas(items, product.id);
    if InCart(items, product.id) {
      AddedMerges(items, product, id, quantity);
      QuantitiesMapQuantity(items, product.id, AddTo(quantity));
    } else {
      QuantitiesAppend(items, CartItem(id, product.id, quantity, product));
    }
  }

  lemma AddedMerges(items: seq<CartItem>, product: Product, id: string, quantity: int)
    requires InCart(items, product.id)
    ensures Added(items, product, id, quantity) == MapQuantity(items, product.id, AddTo(quantity))
  {
    assert FindIndex(items, product.id).Some?;
  }

  lemma QuantitiesHas(items: seq<CartItem>, productId: string)
    ensures productId in Quantities(items) <==> InCart(items, productId)
  {
    QuantitiesOf(items);
  }

  /** The server's POST on a valid body, as a map update of the user's lines. */
  lemma ServerAdded(carts: CartService.Carts, body: CartService.CartBody, newCartId: string)
    requires CartService.AddBodyValid(body)
    ensures var before := CartService.ItemsOf(carts, body.userId);
      CartService.ItemsOf(CartService.AddItem(carts, body, newCartId).carts, body.userId)
        == before[body.productId := if body.productId in before then before[body.productId] + body.quantity else body.quantity]
  {
  }

  /** A valid POST and the client's addItem for the same product and
      quantity change a cart holding the same quantities in the same way. */
  lemma AddAgrees(items: seq<CartItem>, product: Product, id: string,
                  carts: CartService.Carts, body: CartService.CartBody, newCartId: string)
    requires CartService.AddBodyValid(body) && body.productId == product.id
    requires Quantities(items) == CartService.ItemsOf(carts, body.userId)
    ensures Quantities(Added(items, product, id, body.quantity))
         == CartService.ItemsOf(CartService.AddItem(carts, body, newCartId).carts, body.userId)
  {
    QuantitiesAdded(items, product, id, body.quantity);
    ServerAdded(carts, body, newCartId);
  }

  /** A valid PUT and the client's updateQuantity agree on a cart holding
      the same quantities: 0 removes the line, a positive quantity
      overwrites it, and an absent product is not inserted. */
  lemma UpdateAgrees(items: seq<CartItem>, carts: CartService.Carts, body: CartService.CartBody)
    requires CartService.UpdateBodyValid(body) && body.userId in carts
    requires Quantities(items) == carts[body.userId].items
    ensures Quantities(Updated(items, body.productId, body.quantity))
         == CartService.UpdateItem(carts, body).carts[body.userId].items
  {
    if body.quantity == 0 {
      QuantitiesRemoved(items, body.productId);
    } else {
      QuantitiesMapQuantity(items, body.productId, SetTo(body.quantity));
    }
  }

  /** The error paths differ: a negative quantity is a removal for the
      client store, but the server rejects it with 400 and changes nothing. */
  lemma NegativeUpdateDiffers(items: seq<CartItem>, carts: CartService.Carts, body: CartService.CartBody)
    requires body.quantity < 0
    ensures Updated(items, body.productId, body.quantity) == Removed(items, body.productId)
    ensures CartService.UpdateItem(carts, body) == CartService.Outcome(carts, CartService.Reply(400, None))
  {
  }
}
