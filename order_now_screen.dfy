/** The order screen: the quantity counter seeded from the route, the price
    string turned into a number, and the body of the add-to-cart request
    (components/OrderNowScreen.tsx). */
module Order {
  import opened Common
  import Auth

  /** The 'OrderNow' route parameters (app/index.tsx). */
  datatype OrderNowParams = OrderNowParams(pizzaName: string, pizzaPrice: string, quantity: int)

  /** The JSON body of POST /cart/add. `email` is `None` when nobody is
      signed in (`user?.email` is undefined and left out of the JSON). */
  datatype OrderDetails = OrderDetails(pizzaName: string, pizzaPrice: int, quantity: int, email: Option<string>)

  // ---------------------------------------------------------------------
  // `pizzaPrice.replace('$', '').trim()`

  /** The characters `String.prototype.trim` removes: the ECMAScript
      WhiteSpace and LineTerminator characters. */
  predicate IsTrimmable(c: char)
  {
    || c == ' ' || c == '\t' || c == '\n' || c == '\r'
    || c == '\U{B}' || c == '\U{C}' || c == '\U{A0}' || c == '\U{FEFF}' || c == '\U{1680}'
    || ('\U{2000}' <= c <= '\U{200A}')
    || c == '\U{2028}' || c == '\U{2029}' || c == '\U{202F}' || c == '\U{205F}' || c == '\U{3000}'
  }

  /** The number of occurrences of `c` in `s`. */
  function Count(c: char, s: string): nat
  {
    if s == [] then 0 else (if s[0] == c then 1 else 0) + Count(c, s[1..])
  }

  /** The position of the first `c` in `s`. */
  function IndexOf(s: string, c: char): (i: nat)
    requires c in s
    ensures i < |s| && s[i] == c && c !in s[..i]
  {
    if s[0] == c then 0 else 1 + IndexOf(s[1..], c)
  }

  /** `s.replace(c, '')` with a one-character string pattern: only the first
      occurrence is removed. */
  function ReplaceFirst(s: string, c: char): (r: string)
    ensures c !in s ==> r == s
    ensures |r| == if c in s then |s| - 1 else |s|
  {
    if s == [] then []
    else if s[0] == c then s[1..]
    else [s[0]] + ReplaceFirst(s[1..], c)
  }

  /** What `replace` removes is the first `c` and nothing else: the text
      before it and the text after it are kept as they were. */
  lemma {:induction false} ReplaceFirstRemovesFirst(s: string, c: char)
    requires c in s
    ensures ReplaceFirst(s, c) == s[..IndexOf(s, c)] + s[IndexOf(s, c) + 1..]
  {
    if s[0] != c {
      var t := s[1..];
      ReplaceFirstRemovesFirst(t, c);
      var j := IndexOf(t, c);
      assert IndexOf(s, c) == j + 1;
      assert s[..j + 1] == [s[0]] + t[..j];
      assert s[j + 2..] == t[j + 1..];
    }
  }

  /** The length of the trimmable prefix of `s`. */
  function LeadingCount(s: string): (k: nat)
    ensures k <= |s|
    ensures forall i :: 0 <= i < k ==> IsTrimmable(s[i])
    ensures k < |s| ==> !IsTrimmable(s[k])
  {
    if s != [] && IsTrimmable(s[0]) then 1 + LeadingCount(s[1..]) else 0
  }

  /** The length of the trimmable suffix of `s`. */
  function TrailingCount(s: string): (k: nat)
    ensures k <= |s|
    ensures forall i :: |s| - k <= i < |s| ==> IsTrimmable(s[i])
    ensures k < |s| ==> !IsTrimmable(s[|s| - 1 - k])
  {
    if s != [] && IsTrimmable(s[|s| - 1]) then 1 + TrailingCount(s[..|s| - 1]) else 0
  }

  /** `String.prototype.trim`: the longest middle part of `s` whose first
      and last characters are not trimmable; everything cut off on either
      side is trimmable. */
  function Trim(s: string): (r: string)
    ensures |r| <= |s|
    ensures r == [] || (!IsTrimmable(r[0]) && !IsTrimmable(r[|r| - 1]))
    ensures exists a, b ::
              && 0 <= a <= b <= |s| && r == s[a..b]
              && (forall i :: 0 <= i < a ==> IsTrimmable(s[i]))
              && (forall i :: b <= i < |s| ==> IsTrimmable(s[i]))
  {
    var a := LeadingCount(s);
    var rest := s[a..];
    var b := a + |rest| - TrailingCount(rest);
    assert forall i :: b <= i < |s| ==> IsTrimmable(s[i]) by {
      forall i | b <= i < |s| ensures IsTrimmable(s[i]) {
        assert s[i] == rest[i - a];
      }
    }
    assert 0 <= a <= b <= |s| && s[a..b] == s[a..b];
    s[a..b]
  }

  /** Trimming twice is trimming once. */
  lemma TrimIdempotent(s: string)
    ensures Trim(Trim(s)) == Trim(s)
  {
    var r := Trim(s);
    assert LeadingCount(r) == 0;
    assert TrailingCount(r[LeadingCount(r)..]) == 0 by {
      assert r[LeadingCount(r)..] == r;
    }
    assert r[0..|r|] == r;
  }

  /** The price string with its first '$' removed and surrounding white
      space trimmed: the text handed to `parseFloat`. */
  function NormalizePrice(pizzaPrice: string): (r: string)
    ensures '$' in pizzaPrice ==> |r| < |pizzaPrice|
    ensures '$' !in pizzaPrice ==> r == Trim(pizzaPrice)
  {
    Trim(ReplaceFirst(pizzaPrice, '$'))
  }

  lemma {:induction false} CountAppend(c: char, s: string, t: string)
    ensures Count(c, s + t) == Count(c, s) + Count(c, t)
  {
    if s == [] {
      assert s + t == t;
    } else {
      assert (s + t)[1..] == s[1..] + t;
      CountAppend(c, s[1..], t);
    }
  }

  lemma {:induction false} CountAbsent(c: char, s: string)
    requires c !in s
    ensures Count(c, s) == 0
  {
    if s != [] {
      CountAbsent(c, s[1..]);
    }
  }

  /** Trimming never removes a character that is not white space. */
  lemma TrimKeepsCount(c: char, s: string)
    requires !IsTrimmable(c)
    ensures Count(c, Trim(s)) == Count(c, s)
  {
    var a, b :| 0 <= a <= b <= |s| && Trim(s) == s[a..b]
      && (forall i :: 0 <= i < a ==> IsTrimmable(s[i]))
      && (forall i :: b <= i < |s| ==> IsTrimmable(s[i]));
    assert s == s[..a] + s[a..b] + s[b..];
    CountAppend(c, s[..a] + s[a..b], s[b..]);
    CountAppend(c, s[..a], s[a..b]);
    CountAbsent(c, s[..a]);
    CountAbsent(c, s[b..]);
  }

  /** Removing the first `c` lowers the number of `c`s by one, if there was one. */
  lemma {:induction false} ReplaceFirstCount(s: string, c: char)
    ensures Count(c, ReplaceFirst(s, c)) == if c in s then Count(c, s) - 1 else Count(c, s)
  {
    if s != [] && s[0] != c {
      ReplaceFirstCount(s[1..], c);
      var rest := ReplaceFirst(s[1..], c);
      assert ([s[0]] + rest)[1..] == rest;
      assert c in s <==> c in s[1..];
    }
  }

  /** Normalising removes exactly one '$' when the price has one and none
      otherwise. */
  lemma NormalizeRemovesOneDollar(pizzaPrice: string)
    ensures Count('$', NormalizePrice(pizzaPrice))
         == if '$' in pizzaPrice then Count('$', pizzaPrice) - 1 else Count('$', pizzaPrice)
  {
    TrimKeepsCount('$', ReplaceFirst(pizzaPrice, '$'));
    ReplaceFirstCount(pizzaPrice, '$');
  }

  /** "$9.99" is normalised to the bare number. */
  lemma NormalizeExample()
    ensures NormalizePrice("$9.99") == "9.99"
  {
    assert "$9.99"[0] == '$' && "$9.99"[1..] == "9.99";
    assert ReplaceFirst("$9.99", '$') == "9.99";
    assert LeadingCount("9.99") == 0;
    assert TrailingCount("9.99") == 0;
  }

  // ---------------------------------------------------------------------
  // The total shown on the screen

  /** Pressing "+" adds one unit price to the total; pressing "-" takes one
      away, except at quantity 1 where the total stays. */
  lemma OrderTotalStep(priceValue: int, quantity: int)
    requires quantity >= 1
    ensures priceValue * AtLeastOne(quantity, 1) == priceValue * quantity + priceValue
    ensures priceValue * AtLeastOne(quantity, -1)
         == if quantity == 1 then priceValue * quantity else priceValue * quantity - priceValue
  {
    assert priceValue * (quantity + 1) == priceValue * quantity + priceValue;
    assert priceValue * (quantity - 1) == priceValue * quantity - priceValue;
  }

  // ---------------------------------------------------------------------
  // The component's state

  class OrderNowScreen {
    const pizzaName: string
    const pizzaPrice: string
    /** `parseFloat` of the normalised price, in cents. */
    const priceValue: int
    var quantity: int

    /** The screen opens with the route's name, price and quantity; the
        price is normalised and handed to `parseFloat`, which is outside the
        model and passed in. */
    constructor (params: OrderNowParams, parseFloat: string -> int)
      ensures pizzaName == params.pizzaName && pizzaPrice == params.pizzaPrice
      ensures quantity == params.quantity
      ensures priceValue == parseFloat(NormalizePrice(params.pizzaPrice))
    {
      pizzaName := params.pizzaName;
      pizzaPrice := params.pizzaPrice;
      priceValue := parseFloat(NormalizePrice(params.pizzaPrice));
      quantity := params.quantity;
    }

    /** The "Total Price" line. */
    function TotalPrice(): (r: int)
      reads this
      ensures r == priceValue * quantity
    {
      priceValue * quantity
    }

    /** "-" and "+": the counter moves by `change` and never goes below 1. */
    method HandleQuantityChange(change: int)
      modifies this
      ensures quantity == AtLeastOne(old(quantity), change)
      ensures quantity >= 1
    {
      quantity := AtLeastOne(quantity, change);
    }

    /** "Add to Cart": the request body carries the pizza's name, the parsed
        price, the current quantity and the signed-in user's email. The
        response only decides which alert is shown. */
    method HandleAddToCart(user: Option<Auth.User>) returns (body: OrderDetails)
      ensures body.pizzaName == pizzaName && body.pizzaPrice == priceValue && body.quantity == quantity
      ensures body.email == if user.Some? then Some(user.value.email) else None
    {
      var email := match user
        case Some(u) => Some(u.email)
        case None => None;
      body := OrderDetails(pizzaName, priceValue, quantity, email);
    }
  }
}
