/** The cart screen: the signed-in user's cart lines, the removal dialog's
    draft quantity, and the local update applied once the server has
    confirmed a removal (components/CartScreen.tsx). */
module Cart {
  import opened Common

  /** One line of the cart as the server returns it. Prices are in cents. */
  datatype CartItem = CartItem(id: int, pizzaName: string, pizzaPrice: int, quantity: int)

  /** The request `handleRemoveItem` sends:
      DELETE /cart/remove/{id}/{email}?quantity={quantity}. */
  datatype RemoveRequest = RemoveRequest(id: int, email: Option<string>, quantity: int)

  /** No two lines of the cart share an id. */
  predicate UniqueIds(items: seq<CartItem>)
  {
    forall i, j :: 0 <= i < j < |items| ==> items[i].id != items[j].id
  }

  // ---------------------------------------------------------------------
  // The removal updater: `prevItems.map(...).filter(Boolean)`

  /** The `map` callback: the line with the removed id is decremented by
      `amount`, or becomes `null` when nothing positive is left. */
  function Decrement(item: CartItem, id: int, amount: int): (r: Option<CartItem>)
    ensures item.id != id ==> r == Some(item)
    ensures item.id == id ==> (r.Some? <==> item.quantity - amount > 0)
    ensures item.id == id && r.Some? ==> r.value == item.(quantity := item.quantity - amount)
  {
    if item.id == id then
      var updated := item.quantity - amount;
      if updated > 0 then Some(item.(quantity := updated)) else None
    else Some(item)
  }

  /** One entry as `filter(Boolean)` sees it: a line is kept, `null` is not. */
  function Kept(entry: Option<CartItem>): seq<CartItem>
  {
    match entry
    case Some(item) => [item]
    case None => []
  }

  /** `filter(Boolean)`: drops the `null` entries and keeps the rest in order. */
  function Compact(s: seq<Option<CartItem>>): (r: seq<CartItem>)
    ensures |r| <= |s|
  {
    if s == [] then [] else Kept(s[0]) + Compact(s[1..])
  }

  /** `filter(Boolean)` keeps exactly the lines that are present: a line is in
      the result if and only if it is a non-null entry of the input. */
  lemma {:induction false} CompactKeepsPresent(s: seq<Option<CartItem>>)
    ensures forall x :: x in Compact(s) <==> Some(x) in s
  {
    if s != [] {
      CompactKeepsPresent(s[1..]);
      assert s == [s[0]] + s[1..];
    }
  }

  /** The `map` pass: every line passed through `Decrement`, in order. */
  function MapDecrement(items: seq<CartItem>, id: int, amount: int): (r: seq<Option<CartItem>>)
    ensures |r| == |items|
    ensures forall k :: 0 <= k < |items| ==> r[k] == Decrement(items[k], id, amount)
  {
    if items == [] then []
    else [Decrement(items[0], id, amount)] + MapDecrement(items[1..], id, amount)
  }

  /** The state updater passed to `setCartItems` after a confirmed removal of
      `amount` units from line `id`. */
  function ApplyRemoval(items: seq<CartItem>, id: int, amount: int): (r: seq<CartItem>)
    ensures |r| <= |items|
  {
    Compact(MapDecrement(items, id, amount))
  }

  /** The updater handles the first line and the rest independently. */
  lemma ApplyRemovalCons(items: seq<CartItem>, id: int, amount: int)
    requires items != []
    ensures ApplyRemoval(items, id, amount)
         == Kept(Decrement(items[0], id, amount)) + ApplyRemoval(items[1..], id, amount)
  {
    var head := [Decrement(items[0], id, amount)];
    var tail := MapDecrement(items[1..], id, amount);
    assert MapDecrement(items, id, amount) == head + tail;
    assert (head + tail)[0] == Decrement(items[0], id, amount);
    assert (head + tail)[1..] == tail;
  }

  lemma {:induction false} CompactAppend(s: seq<Option<CartItem>>, t: seq<Option<CartItem>>)
    ensures Compact(s + t) == Compact(s) + Compact(t)
  {
    if s == [] {
      assert s + t == t;
    } else {
      var u := s + t;
      assert u[0] == s[0];
      assert u[1..] == s[1..] + t;
      assert Compact(u) == Kept(s[0]) + Compact(s[1..] + t);
      assert Compact(s) == Kept(s[0]) + Compact(s[1..]);
      CompactAppend(s[1..], t);
    }
  }

  lemma {:induction false} MapDecrementAppend(a: seq<CartItem>, b: seq<CartItem>, id: int, amount: int)
    ensures MapDecrement(a + b, id, amount) == MapDecrement(a, id, amount) + MapDecrement(b, id, amount)
  {
    var l, r := MapDecrement(a + b, id, amount), MapDecrement(a, id, amount) + MapDecrement(b, id, amount);
    assert |l| == |r|;
    forall k | 0 <= k < |l| ensures l[k] == r[k] {
      if k < |a| {
        assert (a + b)[k] == a[k];
      } else {
        assert (a + b)[k] == b[k - |a|];
      }
    }
  }

  /** The updater distributes over concatenation of line lists. */
  lemma ApplyRemovalAppend(a: seq<CartItem>, b: seq<CartItem>, id: int, amount: int)
    ensures ApplyRemoval(a + b, id, amount) == ApplyRemoval(a, id, amount) + ApplyRemoval(b, id, amount)
  {
    MapDecrementAppend(a, b, id, amount);
    CompactAppend(MapDecrement(a, id, amount), MapDecrement(b, id, amount));
  }

  /** A confirmed removal for an id that no line carries leaves the list as it was. */
  lemma {:induction false} RemovalOfAbsentId(items: seq<CartItem>, id: int, amount: int)
    requires forall x :: x in items ==> x.id != id
    ensures ApplyRemoval(items, id, amount) == items
  {
    if items != [] {
      ApplyRemovalCons(items, id, amount);
      RemovalOfAbsentId(items[1..], id, amount);
    }
  }

  /** No line carrying the removed id is kept at a quantity of 0 or less. */
  lemma {:induction false} RemovalDropsEmptiedLines(items: seq<CartItem>, id: int, amount: int)
    ensures forall k :: 0 <= k < |ApplyRemoval(items, id, amount)| && ApplyRemoval(items, id, amount)[k].id == id
                        ==> ApplyRemoval(items, id, amount)[k].quantity > 0
  {
    if items != [] {
      ApplyRemovalCons(items, id, amount);
      RemovalDropsEmptiedLines(items[1..], id, amount);
    }
  }

  lemma RemovalOfOne(item: CartItem, amount: int)
    ensures var q := item.quantity - amount;
      ApplyRemoval([item], item.id, amount) == if q > 0 then [item.(quantity := q)] else []
  {
    ApplyRemovalCons([item], item.id, amount);
    assert [item][1..] == [];
  }

  /** With distinct ids, the lines before and after index `i` carry other ids. */
  lemma OthersCarryOtherIds(items: seq<CartItem>, i: int)
    requires UniqueIds(items)
    requires 0 <= i < |items|
    ensures forall x :: x in items[..i] ==> x.id != items[i].id
    ensures forall x :: x in items[i + 1..] ==> x.id != items[i].id
  {
  }

  /** After a confirmed removal of `amount` units from the line at index `i`,
      that line's quantity becomes `q - amount` when positive and the line is
      dropped otherwise; every other line is unchanged and keeps its place. */
  lemma RemovalAt(items: seq<CartItem>, i: int, amount: int)
    requires UniqueIds(items)
    requires 0 <= i < |items|
    ensures var q := items[i].quantity - amount;
      ApplyRemoval(items, items[i].id, amount)
        == items[..i] + (if q > 0 then [items[i].(quantity := q)] else []) + items[i + 1..]
  {
    var id := items[i].id;
    var pre, mid, post := items[..i], [items[i]], items[i + 1..];
    var q := items[i].quantity - amount;
    var kept := if q > 0 then [items[i].(quantity := q)] else [];
    assert items == pre + mid + post;
    OthersCarryOtherIds(items, i);
    RemovalOfAbsentId(pre, id, amount);
    RemovalOfAbsentId(post, id, amount);
    RemovalOfOne(items[i], amount);
    ApplyRemovalAppend(pre, mid, id, amount);
    assert ApplyRemoval(pre + mid, id, amount) == pre + kept;
    ApplyRemovalAppend(pre + mid, post, id, amount);
    assert ApplyRemoval(items, id, amount) == pre + kept + post;
  }

  /** The lines whose id differs from `id`, in order. */
  function LinesOtherThan(items: seq<CartItem>, id: int): seq<CartItem>
  {
    if items == [] then []
    else (if items[0].id != id then [items[0]] else []) + LinesOtherThan(items[1..], id)
  }

  /** Whatever the cart holds, a confirmed removal from line `id` leaves the
      sequence of all other lines exactly as it was: same lines, same order. */
  lemma {:induction false} RemovalKeepsOtherLines(items: seq<CartItem>, id: int, amount: int)
    ensures LinesOtherThan(ApplyRemoval(items, id, amount), id) == LinesOtherThan(items, id)
  {
    if items != [] {
      ApplyRemovalCons(items, id, amount);
      RemovalKeepsOtherLines(items[1..], id, amount);
      LinesOtherThanAppend(Kept(Decrement(items[0], id, amount)), ApplyRemoval(items[1..], id, amount), id);
    }
  }

  lemma {:induction false} LinesOtherThanAppend(a: seq<CartItem>, b: seq<CartItem>, id: int)
    ensures LinesOtherThan(a + b, id) == LinesOtherThan(a, id) + LinesOtherThan(b, id)
  {
    if a == [] {
      assert a + b == b;
    } else {
      assert (a + b)[1..] == a[1..] + b;
      LinesOtherThanAppend(a[1..], b, id);
    }
  }

  /** Committing a draft of 0 keeps every line of positive quantity: the
      cart is left exactly as it was. */
  lemma {:induction false} ZeroRemovalKeepsCart(items: seq<CartItem>, id: int)
    requires forall x :: x in items ==> x.quantity > 0
    ensures ApplyRemoval(items, id, 0) == items
  {
    if items != [] {
      var head, rest := items[0], items[1..];
      assert head in items;
      assert Kept(Decrement(head, id, 0)) == [head];
      assert forall x :: x in rest ==> x in items;
      ZeroRemovalKeepsCart(rest, id);
      ApplyRemovalCons(items, id, 0);
      assert items == [head] + rest;
    }
  }

  lemma UniqueIdsReplace(items: seq<CartItem>, i: int, x: CartItem)
    requires UniqueIds(items) && 0 <= i < |items| && x.id == items[i].id
    ensures UniqueIds(items[..i] + [x] + items[i + 1..])
  {
    var r := items[..i] + [x] + items[i + 1..];
    assert forall k :: 0 <= k < |r| ==> r[k].id == items[k].id;
  }

  lemma UniqueIdsDelete(items: seq<CartItem>, i: int)
    requires UniqueIds(items) && 0 <= i < |items|
    ensures UniqueIds(items[..i] + items[i + 1..])
  {
    var r := items[..i] + items[i + 1..];
    assert forall k :: 0 <= k < |r| ==> r[k] == items[if k < i then k else k + 1];
  }

  lemma RemovalAtKeepsIdsUnique(items: seq<CartItem>, i: int, amount: int)
    requires UniqueIds(items) && 0 <= i < |items|
    ensures UniqueIds(ApplyRemoval(items, items[i].id, amount))
  {
    RemovalAt(items, i, amount);
    var q := items[i].quantity - amount;
    if q > 0 {
      UniqueIdsReplace(items, i, items[i].(quantity := q));
    } else {
      UniqueIdsDelete(items, i);
      assert items[..i] + [] + items[i + 1..] == items[..i] + items[i + 1..];
    }
  }

  /** A confirmed removal keeps the ids of the cart distinct. */
  lemma RemovalKeepsIdsUnique(items: seq<CartItem>, id: int, amount: int)
    requires UniqueIds(items)
    ensures UniqueIds(ApplyRemoval(items, id, amount))
  {
    if i :| 0 <= i < |items| && items[i].id == id {
      RemovalAtKeepsIdsUnique(items, i, amount);
    } else {
      forall x | x in items
        ensures x.id != id
      {
        var k :| 0 <= k < |items| && items[k] == x;
      }
      RemovalOfAbsentId(items, id, amount);
    }
  }

  // ---------------------------------------------------------------------
  // The draft of the removal dialog

  /** `handleQuantityChange`'s updater: the draft moves by `change` and is
      clamped to `[0, selectedItem.quantity]`, or to 0 when no line is
      selected. */
  function ClampDraft(prev: int, change: int, selected: Option<CartItem>): (r: int)
    ensures r >= 0
    ensures selected.Some? && selected.value.quantity >= 0 ==> r <= selected.value.quantity
    ensures selected.None? ==> r == 0
    ensures selected.Some? && 0 <= prev + change <= selected.value.quantity ==> r == prev + change
    ensures selected.Some? && 0 <= selected.value.quantity < prev + change ==> r == selected.value.quantity
    ensures prev + change < 0 || (selected.Some? && selected.value.quantity < 0) ==> r == 0
  {
    var newQuantity := prev + change;
    var bound := if selected.Some? then selected.value.quantity else 0;
    var low := if newQuantity < bound then newQuantity else bound;
    if 0 < low then low else 0
  }

  /** The draft after pressing "-" and "+" as `changes` says, in order. */
  function DraftAfter(start: int, changes: seq<int>, selected: Option<CartItem>): int
    decreases |changes|
  {
    if changes == [] then start else DraftAfter(ClampDraft(start, changes[0], selected), changes[1..], selected)
  }

  /** A draft that starts within `[0, quantity]` of the selected line stays
      there whatever the buttons do. */
  lemma {:induction false} DraftStaysInRange(start: int, changes: seq<int>, item: CartItem)
    requires 0 <= start <= item.quantity
    decreases |changes|
    ensures 0 <= DraftAfter(start, changes, Some(item)) <= item.quantity
  {
    if changes != [] {
      DraftStaysInRange(ClampDraft(start, changes[0], Some(item)), changes[1..], item);
    }
  }

  // ---------------------------------------------------------------------
  // The total

  /** One line's contribution to the total. */
  function LineTotal(item: CartItem): int
  {
    item.pizzaPrice * item.quantity
  }

  /** The sum of price times quantity over the lines, first line first.
      `SumIgnoresOrder` shows that the order does not matter. */
  function Sum(items: seq<CartItem>): int
  {
    if items == [] then 0 else LineTotal(items[0]) + Sum(items[1..])
  }

  /** `reduce((total, item) => total + price * quantity, acc)`, left to right:
      the fold ends at its starting value plus the sum of the lines. */
  function Reduce(items: seq<CartItem>, acc: int): (r: int)
    ensures r == acc + Sum(items)
  {
    if items == [] then acc else Reduce(items[1..], acc + LineTotal(items[0]))
  }

  /** `calculateTotalPrice`: the reduce over the lines starting from 0. */
  function CalculateTotalPrice(items: seq<CartItem>): (r: int)
    ensures r == Sum(items)
    ensures items == [] ==> r == 0
  {
    Reduce(items, 0)
  }

  lemma {:induction false} SumRemoveAt(s: seq<CartItem>, j: int)
    requires 0 <= j < |s|
    ensures Sum(s) == LineTotal(s[j]) + Sum(s[..j] + s[j + 1..])
  {
    if j > 0 {
      SumRemoveAt(s[1..], j - 1);
      assert s[1..][..j - 1] + s[1..][j..] == (s[..j] + s[j + 1..])[1..];
    } else {
      assert s[..j] + s[j + 1..] == s[1..];
    }
  }

  /** Taking one copy of the first line out of both sides of a permutation
      leaves a permutation. */
  lemma PermutationWithoutHead(a: seq<CartItem>, b: seq<CartItem>, j: int)
    requires multiset(a) == multiset(b) && a != []
    requires 0 <= j < |b| && b[j] == a[0]
    ensures multiset(b[..j] + b[j + 1..]) == multiset(a[1..])
  {
    var x := a[0];
    assert b == b[..j] + [b[j]] + b[j + 1..];
    assert multiset(b) == multiset(b[..j]) + multiset{x} + multiset(b[j + 1..]);
    assert a == [x] + a[1..];
    assert multiset(a) == multiset{x} + multiset(a[1..]);
    assert multiset(b[..j] + b[j + 1..]) == multiset(b[..j]) + multiset(b[j + 1..]);
    assert multiset(b[..j] + b[j + 1..]) == multiset(b) - multiset{x};
    assert multiset(a[1..]) == multiset(a) - multiset{x};
  }

  /** The sum of price times quantity does not depend on the order of the lines. */
  lemma {:induction false} SumIgnoresOrder(a: seq<CartItem>, b: seq<CartItem>)
    requires multiset(a) == multiset(b)
    ensures Sum(a) == Sum(b)
  {
    if a == [] {
      assert |multiset(b)| == 0;
    } else {
      assert a[0] in multiset(b);
      var j :| 0 <= j < |b| && b[j] == a[0];
      PermutationWithoutHead(a, b, j);
      SumIgnoresOrder(a[1..], b[..j] + b[j + 1..]);
      SumRemoveAt(b, j);
    }
  }

  /** The cart total does not depend on the order of the lines. */
  lemma TotalIgnoresOrder(a: seq<CartItem>, b: seq<CartItem>)
    requires multiset(a) == multiset(b)
    ensures CalculateTotalPrice(a) == CalculateTotalPrice(b)
  {
    SumIgnoresOrder(a, b);
  }

  /** The partial removal scenario: a line of three 9.00 pizzas loses two and
      the total becomes 9.00; removing all three drops the line. */
  lemma PartialAndFullRemoval()
    ensures var cart := [CartItem(7, "Margherita", 900, 3)];
      && ApplyRemoval(cart, 7, 2) == [CartItem(7, "Margherita", 900, 1)]
      && CalculateTotalPrice(ApplyRemoval(cart, 7, 2)) == 900
      && ApplyRemoval(cart, 7, 3) == []
  {
    var cart := [CartItem(7, "Margherita", 900, 3)];
    RemovalAt(cart, 0, 2);
    RemovalAt(cart, 0, 3);
    assert CalculateTotalPrice([CartItem(7, "Margherita", 900, 1)]) == 900;
  }

  // ---------------------------------------------------------------------
  // The component's state

  class CartScreen {
    var cartItems: seq<CartItem>
    var modalVisible: bool
    var removeQuantity: int
    var selectedItem: Option<CartItem>

    /** The draft lies within `[0, quantity]` of the selected line. */
    predicate DraftInRange()
      reads this
    {
      selectedItem.Some? ==> 0 <= removeQuantity <= selectedItem.value.quantity
    }

    /** The `useState` initial values. */
    constructor ()
      ensures cartItems == [] && !modalVisible && removeQuantity == 1 && selectedItem == None
      ensures DraftInRange()
    {
      cartItems := [];
      modalVisible := false;
      removeQuantity := 1;
      selectedItem := None;
    }

    /** The total shown under the list. */
    function TotalPrice(): (r: int)
      reads this
      ensures r == Sum(cartItems)
    {
      CalculateTotalPrice(cartItems)
    }

    /** The focus effect's `fetchCartItems`: with no (or an empty) email it
        does nothing; an ok response replaces the cart wholesale; a failed or
        throwing call leaves it as it was. */
    method FetchCartItems(email: Option<string>, response: HttpOutcome<seq<CartItem>>)
      modifies this
      ensures modalVisible == old(modalVisible) && removeQuantity == old(removeQuantity)
      ensures selectedItem == old(selectedItem)
      ensures cartItems == if email.Some? && email.value != "" && response.Ok? then response.data
                           else old(cartItems)
    {
      if email.None? || email.value == "" {
        return;
      }
      match response {
        case Ok(data) => cartItems := data;
        case NotOk =>
        case Threw =>
      }
    }

    /** "Remove": opens the dialog with the draft seeded at the line's quantity. */
    method OpenRemoveModal(item: CartItem)
      modifies this
      ensures selectedItem == Some(item) && removeQuantity == item.quantity && modalVisible
      ensures cartItems == old(cartItems)
      ensures item.quantity >= 0 ==> DraftInRange()
    {
      selectedItem := Some(item);
      removeQuantity := item.quantity;
      modalVisible := true;
    }

    /** "-" and "+" in the dialog. */
    method HandleQuantityChange(change: int)
      modifies this
      ensures removeQuantity == ClampDraft(old(removeQuantity), change, selectedItem)
      ensures cartItems == old(cartItems) && selectedItem == old(selectedItem)
      ensures modalVisible == old(modalVisible)
      ensures selectedItem.Some? && selectedItem.value.quantity >= 0 ==> DraftInRange()
    {
      removeQuantity := ClampDraft(removeQuantity, change, selectedItem);
    }

    /** "Cancel" (and the dialog's request to close): hides the dialog and
        leaves everything else, the draft included, as it was. */
    method Cancel()
      modifies this
      ensures !modalVisible
      ensures cartItems == old(cartItems) && removeQuantity == old(removeQuantity)
      ensures selectedItem == old(selectedItem)
    {
      modalVisible := false;
    }

    /** "Confirm": with no selected line nothing happens and nothing is sent.
        Otherwise the removal of the draft quantity is sent; only an ok
        response applies the local update, and whatever the outcome the
        dialog closes and the draft is reset to 1. */
    method HandleRemoveItem(email: Option<string>, response: HttpOutcome<()>) returns (sent: Option<RemoveRequest>)
      modifies this
      ensures old(selectedItem).None? ==>
        sent == None && cartItems == old(cartItems) && modalVisible == old(modalVisible)
        && removeQuantity == old(removeQuantity)
      ensures old(selectedItem).Some? ==>
        && sent == Some(RemoveRequest(old(selectedItem).value.id, email, old(removeQuantity)))
        && !modalVisible && removeQuantity == 1
        && cartItems == if response.Ok? then ApplyRemoval(old(cartItems), old(selectedItem).value.id, old(removeQuantity))
                        else old(cartItems)
      ensures selectedItem == old(selectedItem)
    {
      if selectedItem.None? {
        return None;
      }
      var item := selectedItem.value;
      sent := Some(RemoveRequest(item.id, email, removeQuantity));
      match response {
        case Ok(_) => cartItems := ApplyRemoval(cartItems, item.id, removeQuantity);
        case NotOk =>
        case Threw =>
      }
      modalVisible := false;
      removeQuantity := 1;
    }
  }
}
