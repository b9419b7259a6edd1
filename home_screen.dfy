/** The catalog screen: the fetched pizzas, the loading flag, and a quantity
    per pizza id chosen before ordering (components/HomeScreen.tsx). */
module Home {
  import opened Common
  import Order

  /** A catalog entry as GET /pizzas returns it. */
  datatype Pizza = Pizza(id: string, name: string, price: string, image: string)

  /** The ids of the fetched pizzas. */
  function PizzaIds(pizzas: seq<Pizza>): set<string>
  {
    set p | p in pizzas :: p.id
  }

  /** Every chosen quantity is at least one. */
  predicate AllAtLeastOne(quantities: map<string, int>)
  {
    forall id :: id in quantities ==> quantities[id] >= 1
  }

  /** The `reduce` in `fetchPizzas`: an accumulator that gets `acc[id] = 1`
      for each fetched pizza in turn. */
  method InitialQuantities(data: seq<Pizza>) returns (acc: map<string, int>)
    ensures acc.Keys == PizzaIds(data)
    ensures forall id :: id in acc ==> acc[id] == 1
  {
    acc := map[];
    var i := 0;
    while i < |data|
      invariant 0 <= i <= |data|
      invariant acc.Keys == PizzaIds(data[..i])
      invariant forall id :: id in acc ==> acc[id] == 1
    {
      assert data[..i + 1] == data[..i] + [data[i]];
      acc := acc[data[i].id := 1];
      i := i + 1;
    }
    assert data[..i] == data;
  }

  /** `handleQuantityChange`'s updater: the touched id moves by `change` but
      not below 1; every other id keeps its quantity. */
  function BumpQuantity(quantities: map<string, int>, id: string, change: int): (r: map<string, int>)
    requires id in quantities
    ensures r.Keys == quantities.Keys
    ensures r[id] >= 1 && r[id] >= quantities[id] + change
    ensures r[id] == quantities[id] + change || r[id] == 1
    ensures forall other :: other in quantities && other != id ==> r[other] == quantities[other]
  {
    quantities[id := AtLeastOne(quantities[id], change)]
  }

  /** `quantities[item.id] || 1`: a missing (or zero) quantity reads as 1.
      It is both the number shown and the quantity passed to the order screen. */
  function ShownQuantity(quantities: map<string, int>, id: string): (r: int)
    ensures id !in quantities || quantities[id] == 0 ==> r == 1
    ensures id in quantities && quantities[id] != 0 ==> r == quantities[id]
    ensures AllAtLeastOne(quantities) ==> r >= 1
  {
    if id in quantities && quantities[id] != 0 then quantities[id] else 1
  }

  /** "Add to Order": the route parameters of the order screen. */
  function OrderParams(pizza: Pizza, quantities: map<string, int>): (r: Order.OrderNowParams)
    ensures r.pizzaName == pizza.name && r.pizzaPrice == pizza.price
    ensures r.quantity == ShownQuantity(quantities, pizza.id)
  {
    Order.OrderNowParams(pizza.name, pizza.price, ShownQuantity(quantities, pizza.id))
  }

  class HomeScreen {
    var pizzas: seq<Pizza>
    var loading: bool
    var quantities: map<string, int>

    /** The `useState` initial values. */
    constructor ()
      ensures pizzas == [] && loading && quantities == map[]
    {
      pizzas := [];
      loading := true;
      quantities := map[];
    }

    /** `fetchPizzas`: an ok response replaces the list and sets every
        fetched id's quantity to 1; a failure leaves both as they were. The
        loading flag is down afterwards in every case. */
    method FetchPizzas(response: HttpOutcome<seq<Pizza>>)
      modifies this
      ensures !loading
      ensures response.Ok? ==>
        && pizzas == response.data
        && quantities.Keys == PizzaIds(response.data)
        && (forall id :: id in quantities ==> quantities[id] == 1)
      ensures !response.Ok? ==> pizzas == old(pizzas) && quantities == old(quantities)
    {
      match response {
        case Ok(data) =>
          pizzas := data;
          var initial := InitialQuantities(data);
          quantities := initial;
        case NotOk =>
        case Threw =>
      }
      loading := false;
    }

    /** "-" and "+" on a card whose id has a quantity. */
    method HandleQuantityChange(id: string, change: int)
      requires id in quantities
      modifies this
      ensures quantities == BumpQuantity(old(quantities), id, change)
      ensures pizzas == old(pizzas) && loading == old(loading)
      ensures old(AllAtLeastOne(quantities)) ==> AllAtLeastOne(quantities)
    {
      quantities := BumpQuantity(quantities, id, change);
    }
  }
}
