/** The cart API of src/app/api/cart/route.ts, with the database replaced by
    an in-memory store: each user id has at most one cart (the unique userId
    of the Cart table), and a cart maps each product id to its quantity (the
    unique (cartId, productId) pair of the CartItem table, so a cart can
    never hold two lines for one product). Each handler is a pure transition
    from the old store to a new store and a reply; the class CartServer runs
    the same handlers step by step, as the route does. */
module CartService {
  import opened Types

  datatype StoredCart = StoredCart(id: string, items: map<string, int>)

  type Carts = map<string, StoredCart>

  /** The JSON body of POST and PUT. */
  datatype CartBody = CartBody(productId: string, quantity: int, userId: string)

  /** The cart a handler answers with (the joined product rows are left out). */
  datatype CartView = CartView(id: string, userId: string, items: map<string, int>)

  /** An HTTP status and, for a reply that carries one, the cart. */
  datatype Reply = Reply(status: int, cart: Option<CartView>)

  datatype Outcome = Outcome(carts: Carts, reply: Reply)

  /** addToCartSchema: non-empty productId and userId, quantity at least 1. */
  predicate AddBodyValid(body: CartBody) {
    |body.productId| >= 1 && body.quantity >= 1 && |body.userId| >= 1
  }

  /** updateCartItemSchema: as for add, but a quantity of 0 is allowed. */
  predicate UpdateBodyValid(body: CartBody) {
    |body.productId| >= 1 && body.quantity >= 0 && |body.userId| >= 1
  }

  /** `!userId` for a query parameter: absent or the empty string. */
  predicate MissingUserId(userId: Option<string>) {
    userId.None? || userId.value == ""
  }

  /** The lines of the user's cart; none when the user has no cart. */
  function ItemsOf(carts: Carts, userId: string): map<string, int> {
    if userId in carts then carts[userId].items else map[]
  }

  /** Every stored line holds a positive quantity. */
  predicate PositiveQuantities(carts: Carts) {
    forall u, p :: u in carts && p in carts[u].items ==> carts[u].items[p] >= 1
  }

  function View(userId: string, cart: StoredCart): CartView {
    CartView(cart.id, userId, cart.items)
  }

  /** GET ?userId=: 400 without a user id; the user's cart when there is
      one; otherwise a synthesised empty cart with id "", stored nowhere. */
  function Fetch(carts: Carts, userId: Option<string>): (r: Reply)
    ensures r.status == 400 <==> MissingUserId(userId)
    ensures MissingUserId(userId) ==> r.cart == None
    ensures !MissingUserId(userId) ==>
      r.status == 200 && r.cart.Some? && r.cart.value.userId == userId.value
    ensures !MissingUserId(userId) && userId.value !in carts ==>
      r.cart.value.id == "" && r.cart.value.items == map[]
    ensures !MissingUserId(userId) && userId.value in carts ==>
      r.cart.value.id == carts[userId.value].id && r.cart.value.items == carts[userId.value].items
  {
    if MissingUserId(userId) then Reply(400, None)
    else if userId.value !in carts then Reply(200, Some(CartView("", userId.value, map[])))
    else Reply(200, Some(View(userId.value, carts[userId.value])))
  }

  /** POST: an invalid body is 400 and changes nothing. Otherwise the user's
      cart is found or created (with the fresh id `newCartId`); an existing
      line for the product grows by the requested quantity, an absent one is
      inserted with it; no other line and no other user's cart changes. */
  function AddItem(carts: Carts, body: CartBody, newCartId: string): (r: Outcome)
    ensures !AddBodyValid(body) ==> r == Outcome(carts, Reply(400, None))
    ensures AddBodyValid(body) ==>
      && r.reply.status == 200
      && r.carts.Keys == carts.Keys + {body.userId}
      && r.carts[body.userId].id == (if body.userId in carts then carts[body.userId].id else newCartId)
      && r.reply.cart == Some(View(body.userId, r.carts[body.userId]))
    ensures AddBodyValid(body) ==>
      var before, after := ItemsOf(carts, body.userId), ItemsOf(r.carts, body.userId);
      && after.Keys == before.Keys + {body.productId}
      && after[body.productId] == (if body.productId in before then before[body.productId] else 0) + body.quantity
      && forall p :: p in before && p != body.productId ==> after[p] == before[p]
    ensures forall u :: u in carts && u != body.userId ==> u in r.carts && r.carts[u] == carts[u]
    ensures PositiveQuantities(carts) ==> PositiveQuantities(r.carts)
  {
    if !AddBodyValid(body) then
      Outcome(carts, Reply(400, None))
    else
      var cart := if body.userId in carts then carts[body.userId] else StoredCart(newCartId, map[]);
      var quantity := if body.productId in cart.items then cart.items[body.productId] + body.quantity else body.quantity;
      var updated := cart.(items := cart.items[body.productId := quantity]);
      Outcome(carts[body.userId := updated], Reply(200, Some(View(body.userId, updated))))
  }

  /** PUT: an invalid body is 400 and a user without a cart is 404, both
      changing nothing. Otherwise a quantity of 0 deletes the product's line
      and a positive quantity overwrites it (absolute, not added); a product
      without a line is not inserted. */
  function UpdateItem(carts: Carts, body: CartBody): (r: Outcome)
    ensures !UpdateBodyValid(body) ==> r == Outcome(carts, Reply(400, None))
    ensures UpdateBodyValid(body) && body.userId !in carts ==> r == Outcome(carts, Reply(404, None))
    ensures UpdateBodyValid(body) && body.userId in carts ==>
      && r.reply.status == 200
      && r.carts.Keys == carts.Keys
      && r.carts[body.userId].id == carts[body.userId].id
      && r.reply.cart == Some(View(body.userId, r.carts[body.userId]))
    ensures UpdateBodyValid(body) && body.userId in carts ==>
      var before, after := carts[body.userId].items, r.carts[body.userId].items;
      && (body.quantity == 0 ==> after.Keys == before.Keys - {body.productId})
      && (body.quantity > 0 ==> after.Keys == before.Keys)
      && (body.quantity > 0 && body.productId in before ==> after[body.productId] == body.quantity)
      && forall p :: p in after && p != body.productId ==> after[p] == before[p]
    ensures forall u :: u in carts && u != body.userId ==> u in r.carts && r.carts[u] == carts[u]
    ensures PositiveQuantities(carts) ==> PositiveQuantities(r.carts)
  {
    if !UpdateBodyValid(body) then
      Outcome(carts, Reply(400, None))
    else if body.userId !in carts then
      Outcome(carts, Reply(404, None))
    else
      var cart := carts[body.userId];
      var items :=
        if body.quantity == 0 then cart.items - {body.productId}
        else if body.productId in cart.items then cart.items[body.productId := body.quantity]
        else cart.items;
      var updated := cart.(items := items);
      Outcome(carts[body.userId := updated], Reply(200, Some(View(body.userId, updated))))
  }

  /** DELETE ?userId=: 400 without a user id; otherwise the user's cart, if
      any, is gone and the reply is 200 either way. */
  function Clear(carts: Carts, userId: Option<string>): (r: Outcome)
    ensures MissingUserId(userId) ==> r == Outcome(carts, Reply(400, None))
    ensures !MissingUserId(userId) ==>
      r.reply == Reply(200, None) && r.carts.Keys == carts.Keys - {userId.value}
    ensures forall u :: u in r.carts ==> u in carts && r.carts[u] == carts[u]
    ensures PositiveQuantities(carts) ==> PositiveQuantities(r.carts)
  {
    if MissingUserId(userId) then Outcome(carts, Reply(400, None))
    else Outcome(carts - {userId.value}, Reply(200, None))
  }

  /** Clearing twice is the same as clearing once, and the second clear
      succeeds although there is no cart left. */
  lemma ClearIdempotent(carts: Carts, userId: Option<string>)
    ensures Clear(Clear(carts, userId).carts, userId) == Clear(carts, userId)
  {
  }

  /** After a clear, GET synthesises the empty cart again. */
  lemma FetchAfterClear(carts: Carts, userId: string)
    requires userId != ""
    ensures Fetch(Clear(carts, Some(userId)).carts, Some(userId)) == Reply(200, Some(CartView("", userId, map[])))
  {
  }

  /** Two valid POSTs of one product by one user leave a single line whose
      quantity is the earlier quantity (0 if none) plus both requests. */
  lemma AddTwiceAccumulates(carts: Carts, b1: CartBody, b2: CartBody, id1: string, id2: string)
    requires AddBodyValid(b1) && AddBodyValid(b2)
    requires b1.userId == b2.userId && b1.productId == b2.productId
    ensures var before := ItemsOf(carts, b1.userId);
      var after := ItemsOf(AddItem(AddItem(carts, b1, id1).carts, b2, id2).carts, b1.userId);
      && after.Keys == before.Keys + {b1.productId}
      && after[b1.productId] == (if b1.productId in before then before[b1.productId] else 0) + b1.quantity + b2.quantity
  {
    var mid := AddItem(carts, b1, id1).carts;
    assert b1.productId in ItemsOf(mid, b1.userId);
  }

  /** PUT sets where POST adds: a PUT of a positive quantity after any POST
      of the same product leaves exactly that quantity. */
  lemma UpdateAfterAddOverwrites(carts: Carts, add: CartBody, update: CartBody, newCartId: string)
    requires AddBodyValid(add) && UpdateBodyValid(update) && update.quantity > 0
    requires add.userId == update.userId && add.productId == update.productId
    ensures var r := UpdateItem(AddItem(carts, add, newCartId).carts, update);
      r.reply.status == 200 && ItemsOf(r.carts, add.userId)[add.productId] == update.quantity
  {
    var mid := AddItem(carts, add, newCartId).carts;
    assert add.userId in mid && add.productId in mid[add.userId].items;
  }

  /** POSTs for two different users touch disjoint carts, so their order
      does not matter. */
  lemma AddsOfDistinctUsersCommute(carts: Carts, b1: CartBody, b2: CartBody, id1: string, id2: string)
    requires b1.userId != b2.userId
    ensures AddItem(AddItem(carts, b1, id1).carts, b2, id2).carts
         == AddItem(AddItem(carts, b2, id2).carts, b1, id1).carts
  {
    var left := AddItem(AddItem(carts, b1, id1).carts, b2, id2).carts;
    var right := AddItem(AddItem(carts, b2, id2).carts, b1, id1).carts;
    assert left.Keys == right.Keys;
    forall u | u in left ensures left[u] == right[u] {
      if u == b1.userId || u == b2.userId {
        assert ItemsOf(left, u) == ItemsOf(right, u);
      }
    }
  }

  /** The route's store: one map from user id to cart. `Valid`: every stored
      quantity is positive, which every handler keeps. */
  class CartServer {
    var carts: Carts

    ghost predicate Valid()
      reads this
    {
      PositiveQuantities(carts)
    }

    constructor ()
      ensures carts == map[] && Valid()
    {
      carts := map[];
    }

    method Get(userId: Option<string>) returns (reply: Reply)
      ensures reply == Fetch(carts, userId)
    {
      if userId.None? || userId.value == "" {
        return Reply(400, None);
      }
      var u := userId.value;
      if u !in carts {
        return Reply(200, Some(CartView("", u, map[])));
      }
      reply := Reply(200, Some(View(u, carts[u])));
    }

    /** `newCartId` stands for the id the database gives a new cart. */
    method Post(body: CartBody, newCartId: string) returns (reply: Reply)
      modifies this
      ensures Outcome(carts, reply) == AddItem(old(carts), body, newCartId)
      ensures old(Valid()) ==> Valid()
    {
      if !AddBodyValid(body) {
        return Reply(400, None);
      }
      var cart: StoredCart;
      if body.userId in carts {
        cart := carts[body.userId];
      } else {
        cart := StoredCart(newCartId, map[]);
        carts := carts[body.userId := cart];
      }
      if body.productId in cart.items {
        cart := cart.(items := cart.items[body.productId := cart.items[body.productId] + body.quantity]);
      } else {
        cart := cart.(items := cart.items[body.productId := body.quantity]);
      }
      carts := carts[body.userId := cart];
      reply := Reply(200, Some(View(body.userId, cart)));
    }

    method Put(body: CartBody) returns (reply: Reply)
      modifies this
      ensures Outcome(carts, reply) == UpdateItem(old(carts), body)
      ensures old(Valid()) ==> Valid()
    {
      if !UpdateBodyValid(body) {
        return Reply(400, None);
      }
      if body.userId !in carts {
        return Reply(404, None);
      }
      var cart := carts[body.userId];
      if body.quantity == 0 {
        cart := cart.(items := cart.items - {body.productId});
      } else if body.productId in cart.items {
        cart := cart.(items := cart.items[body.productId := body.quantity]);
      }
      carts := carts[body.userId := cart];
      reply := Reply(200, Some(View(body.userId, cart)));
    }

    method Delete(userId: Option<string>) returns (reply: Reply)
      modifies this
      ensures Outcome(carts, reply) == Clear(old(carts), userId)
      ensures old(Valid()) ==> Valid()
    {
      if userId.None? || userId.value == "" {
        return Reply(400, None);
      }
      carts := carts - {userId.value};
      reply := Reply(200, None);
    }
  }
}
