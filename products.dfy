/**
 * The product catalogue of the inventory: a plain stocked product, a non-stocked
 * product (licences and the like, quantity pinned at 0) and a product capped per
 * order. Each product owns a quantity and an active flag that purchases and the
 * setters update in place.
 *
 * The pure step functions (NewState, SetQuantityStep, BuyStep) say what each
 * operation does to the mutable part of a product; the class Product performs
 * the operations in place and its methods are proved against those functions.
 */
module Products {

  /** The ways an operation on a product or an order can fail. */
  datatype Error = InvalidArgument | Inactive | OutOfStock | LimitExceeded

  datatype Result<T> = Ok(value: T) | Err(error: Error)

  /** The variant of a product. A limited product carries its per-order cap. */
  datatype Kind = Standard | NonStocked | Limited(maximum: nat)

  /** The part of a product that changes after construction. */
  datatype State = State(quantity: nat, active: bool)

  // ---------------------------------------------------------------------------
  // Names: a name is refused when Python's str.strip() leaves nothing of it.
  // ---------------------------------------------------------------------------

  /** The characters Python's str.isspace accepts (and str.strip removes). */
  predicate IsSpace(c: char) {
    || c == ' ' || c == '\t' || c == '\n' || c == '\r' || c == '\U{0B}' || c == '\U{0C}'
    || ('\U{1C}' <= c <= '\U{1F}')
    || c == '\U{85}' || c == '\U{A0}' || c == '\U{1680}'
    || ('\U{2000}' <= c <= '\U{200A}')
    || c == '\U{2028}' || c == '\U{2029}' || c == '\U{202F}' || c == '\U{205F}' || c == '\U{3000}'
  }

  /** `s.lstrip()`: a suffix of `s` that does not start with whitespace; all it drops is whitespace. */
  function StripLeft(s: string): (r: string)
    ensures |r| <= |s| && r == s[|s| - |r|..]
    ensures r != [] ==> !IsSpace(r[0])
    ensures forall i :: 0 <= i < |s| - |r| ==> IsSpace(s[i])
  {
    if s != [] && IsSpace(s[0]) then StripLeft(s[1..]) else s
  }

  /** `s.rstrip()`: a prefix of `s` that does not end with whitespace; all it drops is whitespace. */
  function StripRight(s: string): (r: string)
    ensures |r| <= |s| && r == s[..|r|]
    ensures r != [] ==> !IsSpace(r[|r| - 1])
    ensures forall i :: |r| <= i < |s| ==> IsSpace(s[i])
  {
    if s != [] && IsSpace(s[|s| - 1]) then StripRight(s[..|s| - 1]) else s
  }

  function Strip(s: string): string {
    StripRight(StripLeft(s))
  }

  /** `not name.strip()`: the test the constructor applies to a product name. */
  predicate Blank(name: string) {
    Strip(name) == []
  }

  /** A name is blank exactly when every character of it is whitespace (the empty name included). */
  lemma BlankIffAllSpace(s: string)
    ensures Blank(s) <==> forall i :: 0 <= i < |s| ==> IsSpace(s[i])
  {
  }

  // ---------------------------------------------------------------------------
  // What each operation does to the state of a product
  // ---------------------------------------------------------------------------

  /** Product.__init__: the starting state, or InvalidArgument for a blank name,
      a negative price or a negative quantity. */
  function NewState(name: string, price: int, quantity: int): Result<State> {
    if Blank(name) || price < 0 || quantity < 0 then Err(InvalidArgument)
    else Ok(State(quantity, true))
  }

  /** LimitedProduct.__init__: the base checks, then a positive cap. */
  function NewLimitedState(name: string, price: int, quantity: int, maximum: int): Result<State> {
    match NewState(name, price, quantity)
    case Err(e) => Err(e)
    case Ok(s) => if maximum <= 0 then Err(InvalidArgument) else Ok(s)
  }

  /** Construction succeeds exactly for a name with a non-whitespace character, a
      non-negative price and a non-negative quantity; the product then holds that
      quantity and starts active, even with quantity 0. */
  lemma NewStateOutcome(name: string, price: int, quantity: int)
    ensures NewState(name, price, quantity).Ok?
        <==> (exists i :: 0 <= i < |name| && !IsSpace(name[i])) && price >= 0 && quantity >= 0
    ensures NewState(name, price, quantity).Ok? ==>
              NewState(name, price, quantity).value == State(quantity, true)
  {
    BlankIffAllSpace(name);
  }

  /** A limited product needs everything a product needs and, besides, a cap of at least 1. */
  lemma NewLimitedStateOutcome(name: string, price: int, quantity: int, maximum: int)
    ensures NewLimitedState(name, price, quantity, maximum).Ok?
        <==> NewState(name, price, quantity).Ok? && maximum > 0
    ensures NewLimitedState(name, price, quantity, maximum).Ok? ==>
              NewLimitedState(name, price, quantity, maximum).value == State(quantity, true)
  {
  }

  /** set_quantity(q): the outcome and the state after it. The non-stocked variant
      ignores the call; the others refuse a negative q and deactivate on 0. */
  function SetQuantityStep(kind: Kind, s: State, q: int): (Result<()>, State) {
    if kind.NonStocked? then (Ok(()), s)
    else if q < 0 then (Err(InvalidArgument), s)
    else (Ok(()), State(q, if q == 0 then false else s.active))
  }

  /** Product.buy, shared by the standard and the limited variant: the three checks
      in source order, then the decrement and the deactivation at 0. */
  function StockedBuy(price: nat, s: State, n: int): (Result<nat>, State) {
    if n <= 0 then (Err(InvalidArgument), s)
    else if !s.active then (Err(Inactive), s)
    else if n > s.quantity then (Err(OutOfStock), s)
    else
      var left := s.quantity - n;
      (Ok(price * n), State(left, if left == 0 then false else s.active))
  }

  /** buy(n) for each variant. */
  function BuyStep(kind: Kind, price: nat, s: State, n: int): (Result<nat>, State) {
    match kind
    case Standard => StockedBuy(price, s, n)
    case NonStocked =>
      if n <= 0 then (Err(InvalidArgument), s)
      else if !s.active then (Err(Inactive), s)
      else (Ok(price * n), s)
    case Limited(maximum) =>
      if n > maximum then (Err(LimitExceeded), s) else StockedBuy(price, s, n)
  }

  /** The state invariant each variant keeps: a non-stocked product holds 0, a limited one a positive cap. */
  predicate StateFits(kind: Kind, s: State) {
    (kind.NonStocked? ==> s.quantity == 0) && (kind.Limited? ==> kind.maximum > 0)
  }

  // ---------------------------------------------------------------------------
  // Properties of the operations
  // ---------------------------------------------------------------------------

  /** set_quantity: a negative value fails and changes nothing; otherwise the quantity
      is the new value, the product goes inactive at 0 and is never re-activated. */
  lemma SetQuantityEffect(kind: Kind, s: State, q: int)
    requires !kind.NonStocked?
    ensures SetQuantityStep(kind, s, q).0.Err? <==> q < 0
    ensures q < 0 ==> SetQuantityStep(kind, s, q) == (Err(InvalidArgument), s)
    ensures q >= 0 ==> SetQuantityStep(kind, s, q).1.quantity == q
    ensures q >= 0 ==> (SetQuantityStep(kind, s, q).1.active <==> s.active && q != 0)
  {
  }

  /** The non-stocked set_quantity accepts any value and leaves the product as it was. */
  lemma NonStockedSetQuantityIgnored(s: State, q: int)
    ensures SetQuantityStep(NonStocked, s, q) == (Ok(()), s)
  {
  }

  /** Standard buy(n) fails for exactly these reasons, checked in this order, and
      leaves the state as it was on every failure. */
  lemma StandardBuyErrors(price: nat, s: State, n: int)
    ensures BuyStep(Standard, price, s, n).0 == Err(InvalidArgument) <==> n <= 0
    ensures BuyStep(Standard, price, s, n).0 == Err(Inactive) <==> n > 0 && !s.active
    ensures BuyStep(Standard, price, s, n).0 == Err(OutOfStock) <==> n > 0 && s.active && n > s.quantity
    ensures BuyStep(Standard, price, s, n).0.Ok? <==> n > 0 && s.active && n <= s.quantity
    ensures BuyStep(Standard, price, s, n).0.Err? ==> BuyStep(Standard, price, s, n).1 == s
  {
  }

  /** A successful standard buy(n) takes n off the stock, charges price * n and
      leaves the product active exactly when stock remains. */
  lemma StandardBuySuccess(price: nat, s: State, n: int)
    requires BuyStep(Standard, price, s, n).0.Ok?
    ensures BuyStep(Standard, price, s, n).1.quantity == s.quantity - n
    ensures BuyStep(Standard, price, s, n).0.value == price * n
    ensures BuyStep(Standard, price, s, n).1.active <==> BuyStep(Standard, price, s, n).1.quantity != 0
  {
  }

  /** The non-stocked buy(n) fails only for n <= 0 or an inactive product, and never
      changes quantity or the active flag. */
  lemma NonStockedBuy(price: nat, s: State, n: int)
    ensures BuyStep(NonStocked, price, s, n).1 == s
    ensures BuyStep(NonStocked, price, s, n).0 ==
              if n <= 0 then Err(InvalidArgument)
              else if !s.active then Err(Inactive)
              else Ok(price * n)
  {
  }

  /** The limited buy(n) refuses more than the cap before any other check and
      otherwise behaves exactly as the standard buy. */
  lemma LimitedBuy(maximum: nat, price: nat, s: State, n: int)
    ensures n > maximum ==> BuyStep(Limited(maximum), price, s, n) == (Err(LimitExceeded), s)
    ensures n <= maximum ==> BuyStep(Limited(maximum), price, s, n) == BuyStep(Standard, price, s, n)
  {
  }

  /** Every buy leaves the state as it was when it fails, never adds stock, never
      re-activates, charges price * n whenever it succeeds and keeps the variant's
      invariant. */
  lemma BuyStepEffect(kind: Kind, price: nat, s: State, n: int)
    ensures BuyStep(kind, price, s, n).0.Err? ==> BuyStep(kind, price, s, n).1 == s
    ensures BuyStep(kind, price, s, n).1.quantity <= s.quantity
    ensures BuyStep(kind, price, s, n).1.active ==> s.active
    ensures BuyStep(kind, price, s, n).0.Ok? ==> n > 0 && BuyStep(kind, price, s, n).0.value == price * n
    ensures StateFits(kind, s) ==> StateFits(kind, BuyStep(kind, price, s, n).1)
  {
  }

  /** The outcomes exercised by the repository's product tests. */
  lemma ProductTestOutcomes()
    ensures NewState("", 200, 2) == Err(InvalidArgument)
    ensures NewState("MacBook", -10, 33) == Err(InvalidArgument)
    ensures BuyStep(Standard, 1000, State(1, true), 1) == (Ok(1000), State(0, false))
    ensures BuyStep(Standard, 200, State(10, true), 3) == (Ok(600), State(7, true))
    ensures BuyStep(Standard, 500, State(5, true), 6) == (Err(OutOfStock), State(5, true))
  {
    assert !IsSpace('M');
    assert StripLeft("MacBook") == "MacBook";
  }

  // ---------------------------------------------------------------------------
  // The product object
  // ---------------------------------------------------------------------------

  class Product {
    const name: string
    const price: nat
    const kind: Kind
    var quantity: nat
    var active: bool

    /** The object invariant: the state fits the variant. */
    ghost predicate Valid()
      reads this
    {
      StateFits(kind, Current())
    }

    function Current(): State
      reads this
    {
      State(quantity, active)
    }

    constructor Init(name: string, price: nat, kind: Kind, s: State)
      ensures this.name == name && this.price == price && this.kind == kind
      ensures Current() == s
    {
      this.name := name;
      this.price := price;
      this.kind := kind;
      this.quantity := s.quantity;
      this.active := s.active;
    }

    /** Product(name, price, quantity). */
    static method New(name: string, price: int, quantity: int) returns (r: Result<Product>)
      ensures r.Ok? <==> NewState(name, price, quantity).Ok?
      ensures r.Err? ==> r.error == InvalidArgument
      ensures r.Ok? ==> fresh(r.value) && r.value.Valid()
      ensures r.Ok? ==> !Blank(r.value.name) && r.value.name == name && r.value.price == price && r.value.kind == Standard
      ensures r.Ok? ==> r.value.Current() == NewState(name, price, quantity).value
    {
      if Blank(name) || price < 0 || quantity < 0 {
        return Err(InvalidArgument);
      }
      var p := new Product.Init(name, price, Standard, State(quantity, true));
      return Ok(p);
    }

    /** NonStockedProduct(name, price): a product whose quantity is fixed at 0. */
    static method NewNonStocked(name: string, price: int) returns (r: Result<Product>)
      ensures r.Ok? <==> NewState(name, price, 0).Ok?
      ensures r.Err? ==> r.error == InvalidArgument
      ensures r.Ok? ==> fresh(r.value) && r.value.Valid()
      ensures r.Ok? ==> !Blank(r.value.name) && r.value.name == name && r.value.price == price && r.value.kind == NonStocked
      ensures r.Ok? ==> r.value.Current() == State(0, true)
    {
      if Blank(name) || price < 0 {
        return Err(InvalidArgument);
      }
      var p := new Product.Init(name, price, NonStocked, State(0, true));
      return Ok(p);
    }

    /** LimitedProduct(name, price, quantity, maximum_per_order). */
    static method NewLimited(name: string, price: int, quantity: int, maximum: int) returns (r: Result<Product>)
      ensures r.Ok? <==> NewLimitedState(name, price, quantity, maximum).Ok?
      ensures r.Err? ==> r.error == InvalidArgument
      ensures r.Ok? ==> fresh(r.value) && r.value.Valid()
      ensures r.Ok? ==> !Blank(r.value.name) && r.value.name == name && r.value.price == price && r.value.kind == Limited(maximum)
      ensures r.Ok? ==> r.value.Current() == NewLimitedState(name, price, quantity, maximum).value
    {
      if Blank(name) || price < 0 || quantity < 0 {
        return Err(InvalidArgument);
      }
      if maximum <= 0 {
        return Err(InvalidArgument);
      }
      var p := new Product.Init(name, price, Limited(maximum), State(quantity, true));
      return Ok(p);
    }

    method GetQuantity() returns (q: nat)
      ensures q == quantity
    {
      q := quantity;
    }

    method IsActive() returns (b: bool)
      ensures b == active
    {
      b := active;
    }

    method SetQuantity(q: int) returns (r: Result<()>)
      requires Valid()
      modifies this
      ensures Valid()
      ensures (r, Current()) == SetQuantityStep(kind, old(Current()), q)
    {
      if kind.NonStocked? {
        return Ok(());
      }
      if q < 0 {
        return Err(InvalidArgument);
      }
      quantity := q;
      if quantity == 0 {
        active := false;
      }
      r := Ok(());
    }

    method Activate()
      modifies this
      ensures active && quantity == old(quantity)
      ensures old(Valid()) ==> Valid()
    {
      active := true;
    }

    method Deactivate()
      modifies this
      ensures !active && quantity == old(quantity)
      ensures old(Valid()) ==> Valid()
    {
      active := false;
    }

    /** The base class's buy, which the limited variant delegates to. */
    method BuyStocked(n: int) returns (r: Result<nat>)
      requires Valid() && !kind.NonStocked?
      modifies this
      ensures Valid()
      ensures (r, Current()) == StockedBuy(price, old(Current()), n)
    {
      if n <= 0 {
        return Err(InvalidArgument);
      }
      if !active {
        return Err(Inactive);
      }
      if n > quantity {
        return Err(OutOfStock);
      }
      quantity := quantity - n;
      if quantity == 0 {
        active := false;
      }
      r := Ok(price * n);
    }

    method Buy(n: int) returns (r: Result<nat>)
      requires Valid()
      modifies this
      ensures Valid()
      ensures (r, Current()) == BuyStep(kind, price, old(Current()), n)
    {
      match kind
      case Standard =>
        r := BuyStocked(n);
      case NonStocked =>
        if n <= 0 {
          return Err(InvalidArgument);
        }
        if !active {
          return Err(Inactive);
        }
        r := Ok(price * n);
      case Limited(maximum) =>
        if n > maximum {
          return Err(LimitExceeded);
        }
        r := BuyStocked(n);
    }
  }
}
