/** The page's cart: the in-memory lines, the snapshot saved under the
    storage key "cart", and the item counter shown on the cart icon. */
module CartStore {
  import opened Catalog
  import opened CartLines

  datatype Option<T> = None | Some(value: T)

  /** What start-up reads back from storage: the saved lines, or the empty
      cart when nothing was ever saved. */
  function Restored(saved: Option<seq<Line>>): seq<Line>
  {
    if saved.Some? then saved.value else []
  }

  class Cart {
    var lines: seq<Line>
    var stored: Option<seq<Line>>
    var badge: int

    /** Reloading the page would restore exactly the current cart, and the
        counter shows its item count. */
    ghost predicate Consistent()
      reads this
    {
      Restored(stored) == lines && badge == ItemCount(lines)
    }

    /** Page start: restore the saved cart and show its count. */
    constructor Load(saved: Option<seq<Line>>)
      ensures lines == Restored(saved) && stored == saved
      ensures Consistent()
    {
      lines := Restored(saved);
      stored := saved;
      badge := ItemCount(Restored(saved));
    }

    /** Overwrite the saved snapshot with the current lines. */
    method Persist()
      modifies this`stored
      ensures stored == Some(lines)
    {
      stored := Some(lines);
    }

    /** Show the sum of the line quantities on the cart icon. */
    method UpdateCartCount()
      modifies this`badge
      ensures badge == ItemCount(lines)
    {
      badge := ItemCount(lines);
    }

    /** Add one unit of `p`: merge into its line if there is one, else append. */
    method AddToCart(p: Product)
      modifies this
      ensures lines == Added(old(lines), p)
      ensures stored == Some(lines) && Consistent()
      ensures badge == old(ItemCount(lines)) + 1
      ensures Wellformed(old(lines)) ==> Wellformed(lines)
    {
      var i := FindIndex(lines, p.id);
      if i > -1 {
        lines := lines[i := lines[i].(quantity := lines[i].quantity + 1)];
      } else {
        lines := lines + [Line(p, 1)];
      }
      Persist();
      UpdateCartCount();
      AddCount(old(lines), p);
      if Wellformed(old(lines)) {
        AddPreservesWellformed(old(lines), p);
      }
    }

    /** The plus and minus buttons: change the quantity of product `id` by
        `change`, dropping the line when it reaches zero or less. An id with no
        line is ignored without touching storage or the counter. */
    method UpdateCartItemQuantity(id: int, change: int)
      modifies this
      ensures lines == Changed(old(lines), id, change)
      ensures Absent(old(lines), id) ==> unchanged(this)
      ensures !Absent(old(lines), id) ==> stored == Some(lines) && Consistent()
      ensures old(Consistent()) ==> Consistent()
      ensures Wellformed(old(lines)) ==> Wellformed(lines)
    {
      var i := FindIndex(lines, id);
      if i == -1 {
        return;
      }
      lines := lines[i := lines[i].(quantity := lines[i].quantity + change)];
      if lines[i].quantity <= 0 {
        lines := lines[..i] + lines[i+1..];
      }
      Persist();
      UpdateCartCount();
      if Wellformed(old(lines)) {
        ChangePreservesWellformed(old(lines), id, change);
      }
    }

    /** The remove button: keep only the lines of other products. */
    method RemoveCartItem(id: int)
      modifies this
      ensures lines == Without(old(lines), id)
      ensures stored == Some(lines) && Consistent()
      ensures Absent(old(lines), id) ==> lines == old(lines)
      ensures Wellformed(old(lines)) ==> Wellformed(lines)
    {
      lines := Without(lines, id);
      Persist();
      UpdateCartCount();
      if Absent(old(lines), id) {
        WithoutAbsent(old(lines), id);
      }
      if Wellformed(old(lines)) {
        WithoutPreservesWellformed(old(lines), id);
      }
    }

    /** The checkout button: an empty cart is left alone; otherwise the
        purchase is confirmed and the cart is emptied. */
    method Checkout() returns (purchased: bool)
      modifies this
      ensures purchased == (old(lines) != [])
      ensures !purchased ==> unchanged(this)
      ensures purchased ==> lines == [] && stored == Some([]) && badge == 0
      ensures old(Consistent()) ==> Consistent()
    {
      if |lines| == 0 {
        return false;
      }
      lines := [];
      Persist();
      UpdateCartCount();
      purchased := true;
    }
  }

  /** A visit that adds one product twice, presses minus twice and then
      checks out the empty cart. */
  method ShoppingSession(p: Product)
  {
    AddTwiceThenDecrementTwice(p);
    assert ItemCount([Line(p, 1)]) == 1 by { assert [Line(p, 1)][..0] == []; }
    var cart := new Cart.Load(None);
    cart.AddToCart(p);
    assert cart.lines == [Line(p, 1)];
    cart.AddToCart(p);
    assert cart.lines == [Line(p, 2)] && cart.badge == 2;
    cart.UpdateCartItemQuantity(p.id, -1);
    assert cart.lines == [Line(p, 1)] && cart.badge == 1;
    cart.UpdateCartItemQuantity(p.id, -1);
    assert cart.lines == [] && cart.stored == Some([]) && cart.badge == 0;
    var purchased := cart.Checkout();
    assert !purchased;
  }
}
