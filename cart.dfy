/** Products and the shopping cart: a validated product, a cart that
    appends, removes the first product of a given name, and totals the
    prices of a non-empty cart. */
module Cart {
  import opened Common

  /** Prices are exact reals: the float rounding of `float(price)` and of
      `sum` is not modelled. */
  datatype Product = Product(name: string, price: real)

  /** What the constructor guarantees of every product it returns. */
  predicate Valid(p: Product)
  {
    p.name != "" && p.price > 0.0
  }

  /** The exceptions of this file, each with its message. */
  datatype CartError =
    | NameError(message: string)          // ValueError from the constructor
    | InvalidPrice(message: string)       // InvalidPriceError
    | NotInCart(message: string)          // ValueError from remove_product
    | EmptyCart(message: string)          // EmptyCartError

  /** `Product(name, price)`: the name is checked first, then the price. */
  function NewProduct(name: string, price: real): (r: Result<Product, CartError>)
    ensures r.Success? <==> name != "" && price > 0.0
    ensures r.Success? ==> r.value == Product(name, price) && Valid(r.value)
    ensures name == "" ==> r == Failure(NameError("Product name must be a non-empty string"))
    ensures name != "" && price <= 0.0 ==> r == Failure(InvalidPrice("Product price must be greater than 0"))
  {
    if name == "" then Failure(NameError("Product name must be a non-empty string"))
    else if price <= 0.0 then Failure(InvalidPrice("Product price must be greater than 0"))
    else Success(Product(name, price))
  }

  /** The index of the first product named `name`, if any. */
  function FirstNamed(ps: seq<Product>, name: string): (r: Option<nat>)
    ensures r.Some? ==> r.value < |ps| && ps[r.value].name == name
    ensures r.Some? ==> forall j :: 0 <= j < r.value ==> ps[j].name != name
    ensures r.None? ==> forall j :: 0 <= j < |ps| ==> ps[j].name != name
  {
    if ps == [] then None
    else if ps[0].name == name then Some(0)
    else match FirstNamed(ps[1..], name)
      case None => None
      case Some(i) => Some(i + 1)
  }

  /** The cart after `remove_product(name)`, or its error. */
  function Removed(ps: seq<Product>, name: string): (r: Result<seq<Product>, CartError>)
    ensures FirstNamed(ps, name).None? ==>
      r == Failure(NotInCart("Product '" + name + "' not found in cart"))
    ensures FirstNamed(ps, name).Some? ==>
      var i := FirstNamed(ps, name).value; r == Success(ps[..i] + ps[i + 1..])
  {
    match FirstNamed(ps, name)
    case None => Failure(NotInCart("Product '" + name + "' not found in cart"))
    case Some(i) => Success(ps[..i] + ps[i + 1..])
  }

  /** Removing takes out one product of that name and keeps the others, in
      their order: every product before the removed one is unchanged, every
      later one moves down one place. */
  lemma RemovedKeepsOthers(ps: seq<Product>, name: string)
    requires Removed(ps, name).Success?
    ensures var i, rest := FirstNamed(ps, name).value, Removed(ps, name).value;
      && ps[i].name == name
      && |rest| == |ps| - 1
      && (forall j :: 0 <= j < i ==> rest[j] == ps[j])
      && (forall j :: i <= j < |rest| ==> rest[j] == ps[j + 1])
      && multiset(rest) + multiset{ps[i]} == multiset(ps)
  {
    var i := FirstNamed(ps, name).value;
    var rest := Removed(ps, name).value;
    assert ps == ps[..i] + [ps[i]] + ps[i + 1..];
    assert forall j :: 0 <= j < i ==> rest[j] == ps[j];
    assert forall j :: i <= j < |rest| ==> rest[j] == ps[j + 1];
  }

  /** `sum(product.price ...)`. */
  function Sum(ps: seq<Product>): real
  {
    if ps == [] then 0.0 else Sum(ps[..|ps| - 1]) + ps[|ps| - 1].price
  }

  /** `calculate_total_price`: an empty cart raises. */
  function Total(ps: seq<Product>): (r: Result<real, CartError>)
    ensures r.Failure? <==> ps == []
    ensures r.Failure? ==> r.error == EmptyCart("Cannot calculate total. Cart is empty")
  {
    if ps == [] then Failure(EmptyCart("Cannot calculate total. Cart is empty")) else Success(Sum(ps))
  }

  /** Adding a product adds its price to the total. */
  lemma SumAppend(ps: seq<Product>, p: Product)
    ensures Sum(ps + [p]) == Sum(ps) + p.price
  {
    assert (ps + [p])[..|ps|] == ps;
  }

  /** The total of a non-empty cart of valid products is positive and at
      least the price of every product in it. */
  lemma {:induction false} TotalBoundsPrices(ps: seq<Product>)
    requires forall k :: 0 <= k < |ps| ==> Valid(ps[k])
    ensures ps != [] ==> Sum(ps) > 0.0
    ensures forall k :: 0 <= k < |ps| ==> ps[k].price <= Sum(ps)
  {
    if ps != [] {
      var init := ps[..|ps| - 1];
      TotalBoundsPrices(init);
      assert forall k :: 0 <= k < |init| ==> ps[k] == init[k];
    }
  }

  class ShoppingCart {
    var products: seq<Product>

    constructor()
      ensures products == []
    {
      products := [];
    }

    /** `add_product`. */
    method AddProduct(p: Product)
      modifies this
      ensures products == old(products) + [p]
    {
      products := products + [p];
    }

    /** `remove_product`: the first product of that name goes; none found
        raises and leaves the cart as it was. */
    method RemoveProduct(name: string) returns (error: Option<CartError>)
      modifies this
      ensures Removed(old(products), name).Success? ==>
        error.None? && products == Removed(old(products), name).value
      ensures Removed(old(products), name).Failure? ==>
        error == Some(Removed(old(products), name).error) && products == old(products)
    {
      var i := 0;
      while i < |products|
        invariant 0 <= i <= |products|
        invariant forall j :: 0 <= j < i ==> products[j].name != name
      {
        if products[i].name == name {
          FirstNamedIs(products, name, i);
          products := products[..i] + products[i + 1..];
          return None;
        }
        i := i + 1;
      }
      return Some(NotInCart("Product '" + name + "' not found in cart"));
    }

    /** `calculate_total_price`. */
    method CalculateTotalPrice() returns (r: Result<real, CartError>)
      ensures r == Total(products)
    {
      if |products| == 0 {
        return Failure(EmptyCart("Cannot calculate total. Cart is empty"));
      }
      return Success(Sum(products));
    }

    /** `is_empty`. */
    function IsEmpty(): (b: bool)
      reads this
      ensures b <==> |products| == 0
      ensures b <==> Total(products).Failure?
    {
      |products| == 0
    }
  }

  /** The search loop's answer is the first index of that name. */
  lemma FirstNamedIs(ps: seq<Product>, name: string, i: nat)
    requires i < |ps| && ps[i].name == name
    requires forall j :: 0 <= j < i ==> ps[j].name != name
    ensures FirstNamed(ps, name) == Some(i)
  {
  }
}
