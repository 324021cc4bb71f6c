/** The product detail modal of src/components/product-modal.tsx: a quantity
    selector that starts at 1, is reset to 1 whenever the selected product
    changes, decrements clamped at 1 and increments without bound, and an
    add-to-cart handler that adds the selected product with that quantity
    to the cart store and closes the modal. */
module ProductModal {
  import opened Types
  import opened ClientStore

  /** What can happen to the quantity: the reset on a new selection, the
      minus button and the plus button. */
  datatype QuantityEvent = Reset | Decrement | Increment

  function Max(a: int, b: int): int {
    if a >= b then a else b
  }

  function Step(quantity: int, event: QuantityEvent): (r: int)
    ensures quantity >= 1 ==> r >= 1
  {
    match event
    case Reset => 1
    case Decrement => Max(1, quantity - 1)
    case Increment => quantity + 1
  }

  /** The quantity after a sequence of events, oldest first. */
  function Run(quantity: int, events: seq<QuantityEvent>): int
    decreases events
  {
    if events == [] then quantity else Run(Step(quantity, events[0]), events[1..])
  }

  /** The quantity is at least 1 after any sequence of resets, decrements
      and increments. */
  lemma {:induction false} RunStaysPositive(quantity: int, events: seq<QuantityEvent>)
    requires quantity >= 1
    ensures Run(quantity, events) >= 1
    decreases events
  {
    if events != [] {
      RunStaysPositive(Step(quantity, events[0]), events[1..]);
    }
  }

  lemma {:induction false} RunAppend(quantity: int, a: seq<QuantityEvent>, b: seq<QuantityEvent>)
    ensures Run(quantity, a + b) == Run(Run(quantity, a), b)
    decreases a
  {
    if a == [] {
      assert a + b == b;
    } else {
      assert (a + b)[1..] == a[1..] + b;
      RunAppend(Step(quantity, a[0]), a[1..], b);
    }
  }

  /** A new selection at the end leaves the quantity at 1, whatever came
      before. */
  lemma RunEndingInReset(quantity: int, events: seq<QuantityEvent>)
    ensures Run(quantity, events + [Reset]) == 1
  {
    RunAppend(quantity, events, [Reset]);
  }

  /** Increments are unbounded: n presses of plus add n. */
  lemma {:induction false} RunIncrements(quantity: int, n: nat)
    ensures Run(quantity, seq(n, _ => Increment)) == quantity + n
    decreases n
  {
    if n > 0 {
      assert seq(n, _ => Increment)[1..] == seq(n - 1, _ => Increment);
      RunIncrements(quantity + 1, n - 1);
    }
  }

  /** Decrements stop at 1: n presses of minus give max(1, quantity - n). */
  lemma {:induction false} RunDecrements(quantity: int, n: nat)
    requires quantity >= 1
    ensures Run(quantity, seq(n, _ => Decrement)) == Max(1, quantity - n)
    decreases n
  {
    if n > 0 {
      assert seq(n, _ => Decrement)[1..] == seq(n - 1, _ => Decrement);
      RunDecrements(Max(1, quantity - 1), n - 1);
    }
  }

  /** The modal component's own state (the `quantity` of useState) beside the
      two stores it uses. `shownProduct` is the selection the reset effect
      last saw. `Valid`: the quantity is at least 1. */
  class ProductModalView {
    const modal: ModalStore
    const cart: CartStore
    var quantity: int
    var shownProduct: Option<Product>

    ghost predicate Valid()
      reads this
    {
      quantity >= 1
    }

    /** Mounting: useState(1), and the effect records the current selection. */
    constructor (modal: ModalStore, cart: CartStore)
      ensures this.modal == modal && this.cart == cart
      ensures quantity == 1 && shownProduct == modal.selectedProduct && Valid()
    {
      this.modal, this.cart := modal, cart;
      quantity := 1;
      shownProduct := modal.selectedProduct;
    }

    /** The effect on [selectedProduct]: a changed selection resets the
        quantity to 1. */
    method SyncSelection()
      modifies this
      ensures shownProduct == modal.selectedProduct
      ensures quantity == if modal.selectedProduct != old(shownProduct) then Step(old(quantity), Reset) else old(quantity)
      ensures old(Valid()) ==> Valid()
    {
      if modal.selectedProduct != shownProduct {
        quantity := 1;
      }
      shownProduct := modal.selectedProduct;
    }

    /** The minus button: `setQuantity(Math.max(1, quantity - 1))`. */
    method DecrementQuantity()
      modifies this
      ensures quantity == Step(old(quantity), Decrement) && shownProduct == old(shownProduct)
      ensures quantity >= 1
    {
      quantity := Max(1, quantity - 1);
    }

    /** The plus button: `setQuantity(quantity + 1)`. */
    method IncrementQuantity()
      modifies this
      ensures quantity == Step(old(quantity), Increment) && shownProduct == old(shownProduct)
      ensures old(Valid()) ==> Valid()
    {
      quantity := quantity + 1;
    }

    /** handleAddToCart. The component renders nothing, so offers no button,
        while the modal is closed or nothing is selected; otherwise the
        selected product is added with the chosen quantity and the modal
        closes. */
    method HandleAddToCart(id: string) returns (offered: bool)
      modifies cart, modal
      ensures offered == (old(modal.isOpen) && old(modal.selectedProduct).Some?)
      ensures offered ==>
        && cart.items == Added(old(cart.items), old(modal.selectedProduct).value, id, quantity)
        && !modal.isOpen && modal.selectedProduct == None
      ensures !offered ==>
        && cart.items == old(cart.items)
        && modal.isOpen == old(modal.isOpen) && modal.selectedProduct == old(modal.selectedProduct)
      ensures old(cart.Valid()) ==> cart.Valid()
    {
      if !modal.isOpen || modal.selectedProduct.None? {
        return false;
      }
      cart.AddItem(modal.selectedProduct.value, id, quantity);
      modal.CloseModal();
      offered := true;
    }
  }
}
