/**
 * The store aggregate: an ordered list of product references, with insertion,
 * removal, the stock total, the active listing and multi-line orders.
 *
 * Each list operation is specified by a function on sequences (Insert,
 * RemoveFirst, TotalQuantity, ActiveOf) and an order by OrderFrom, which runs
 * the lines one after another over a map from each named product to its state.
 * The class Store performs the operations on the live objects and its methods
 * are proved against those functions.
 */
module Stores {
  import opened Products

  /** One line of a shopping list: the product and the amount asked for. */
  datatype OrderLine = OrderLine(product: Product, amount: int)

  /** No product occurs twice (by identity). */
  predicate Distinct(ps: seq<Product>) {
    forall i, j :: 0 <= i < j < |ps| ==> ps[i] != ps[j]
  }

  // ---------------------------------------------------------------------------
  // add_product and remove_product
  // ---------------------------------------------------------------------------

  /** The list after add_product(p), where `active` is p.is_active(). */
  function Insert(ps: seq<Product>, p: Product, active: bool): seq<Product> {
    if active && p !in ps then ps + [p] else ps
  }

  /** add_product appends p exactly when it is active and not yet listed, and so
      keeps a list without duplicates free of them. */
  lemma InsertEffect(ps: seq<Product>, p: Product, active: bool)
    ensures Insert(ps, p, active) == (if active && p !in ps then ps + [p] else ps)
    ensures p in Insert(ps, p, active) <==> p in ps || active
    ensures Distinct(ps) ==> Distinct(Insert(ps, p, active))
  {
  }

  /** The position of the first occurrence of p. */
  function FirstIndex(ps: seq<Product>, p: Product): (i: nat)
    requires p in ps
    ensures i < |ps| && ps[i] == p && p !in ps[..i]
  {
    if ps[0] == p then 0
    else
      assert p in ps[1..];
      var j := FirstIndex(ps[1..], p);
      assert ps[..j + 1] == [ps[0]] + ps[1..][..j];
      j + 1
  }

  /** list.remove(p) on a list that holds p, and the list itself otherwise. */
  function RemoveFirst(ps: seq<Product>, p: Product): seq<Product> {
    if ps == [] then []
    else if ps[0] == p then ps[1..]
    else [ps[0]] + RemoveFirst(ps[1..], p)
  }

  /** remove_product drops exactly the first occurrence of p and keeps the others
      in their order; without p the list is unchanged. */
  lemma {:induction false} RemoveFirstEffect(ps: seq<Product>, p: Product)
    ensures p !in ps ==> RemoveFirst(ps, p) == ps
    ensures p in ps ==> RemoveFirst(ps, p) == ps[..FirstIndex(ps, p)] + ps[FirstIndex(ps, p) + 1..]
  {
    if ps != [] {
      RemoveFirstEffect(ps[1..], p);
      if ps[0] != p {
        assert ps == [ps[0]] + ps[1..];
        if p in ps {
          assert p in ps[1..];
          var j := FirstIndex(ps[1..], p);
          assert FirstIndex(ps, p) == j + 1;
          assert ps[..j + 1] == [ps[0]] + ps[1..][..j];
          assert ps[j + 2..] == ps[1..][j + 1..];
        }
      }
    }
  }

  /** Removing takes exactly one copy of p out of the multiset of members when p is listed. */
  lemma {:induction false} RemoveFirstMembers(ps: seq<Product>, p: Product)
    ensures multiset(RemoveFirst(ps, p)) == multiset(ps) - multiset{p}
  {
    if ps != [] {
      assert ps == [ps[0]] + ps[1..];
      if ps[0] != p {
        RemoveFirstMembers(ps[1..], p);
      }
    }
  }

  /** On a list without duplicates, remove_product leaves p absent and the list
      still without duplicates. */
  lemma RemoveFirstDistinct(ps: seq<Product>, p: Product)
    requires Distinct(ps)
    ensures Distinct(RemoveFirst(ps, p)) && p !in RemoveFirst(ps, p)
  {
    RemoveFirstEffect(ps, p);
    if p in ps {
      var i := FirstIndex(ps, p);
      var r := RemoveFirst(ps, p);
      assert r == ps[..i] + ps[i + 1..];
      assert forall k :: 0 <= k < |r| ==> r[k] == ps[if k < i then k else k + 1];
    }
  }

  // ---------------------------------------------------------------------------
  // get_total_quantity and get_all_products
  // ---------------------------------------------------------------------------

  /** The sum of the members' quantities, inactive members included. */
  function TotalQuantity(ps: seq<Product>): nat
    reads ps
  {
    if ps == [] then 0 else TotalQuantity(ps[..|ps| - 1]) + ps[|ps| - 1].quantity
  }

  /** The stock total of a list is the total of its parts. */
  lemma {:induction false} TotalQuantityAppend(a: seq<Product>, b: seq<Product>)
    ensures TotalQuantity(a + b) == TotalQuantity(a) + TotalQuantity(b)
  {
    if b == [] {
      assert a + b == a;
    } else {
      assert (a + b)[..|a + b| - 1] == a + b[..|b| - 1];
      TotalQuantityAppend(a, b[..|b| - 1]);
    }
  }

  /** add_product raises the stock total by the added product's quantity, which for
      a non-stocked product is 0. */
  lemma TotalAfterInsert(ps: seq<Product>, p: Product, active: bool)
    ensures TotalQuantity(Insert(ps, p, active))
         == TotalQuantity(ps) + (if active && p !in ps then p.quantity else 0)
    ensures p.Valid() && p.kind.NonStocked? ==>
              TotalQuantity(Insert(ps, p, active)) == TotalQuantity(ps)
  {
    if active && p !in ps {
      TotalQuantityAppend(ps, [p]);
      assert [p][..0] == [];
    }
  }

  /** remove_product lowers the stock total by the removed product's quantity. */
  lemma TotalAfterRemove(ps: seq<Product>, p: Product)
    ensures TotalQuantity(RemoveFirst(ps, p)) + (if p in ps then p.quantity else 0) == TotalQuantity(ps)
  {
    RemoveFirstEffect(ps, p);
    if p in ps {
      var i := FirstIndex(ps, p);
      var before, after := ps[..i], ps[i + 1..];
      assert RemoveFirst(ps, p) == before + after;
      assert ps == before + ([p] + after);
      TotalQuantityAppend(before, [p] + after);
      TotalQuantityAppend([p], after);
      TotalQuantityAppend(before, after);
      assert [p][..0] == [];
    }
  }

  /** The active members, in list order. */
  function ActiveOf(ps: seq<Product>): seq<Product>
    reads ps
  {
    if ps == [] then []
    else ActiveOf(ps[..|ps| - 1]) + (if ps[|ps| - 1].active then [ps[|ps| - 1]] else [])
  }

  /** Filtering a concatenation filters each part and keeps them in order. */
  lemma {:induction false} ActiveOfAppend(a: seq<Product>, b: seq<Product>)
    ensures ActiveOf(a + b) == ActiveOf(a) + ActiveOf(b)
  {
    if b == [] {
      assert a + b == a;
    } else {
      assert (a + b)[..|a + b| - 1] == a + b[..|b| - 1];
      ActiveOfAppend(a, b[..|b| - 1]);
    }
  }

  /** get_all_products lists exactly the active members, no longer than the list,
      and filtering its own output changes nothing. */
  lemma {:induction false} ActiveOfMembers(ps: seq<Product>)
    ensures forall p :: p in ActiveOf(ps) <==> p in ps && p.active
    ensures |ActiveOf(ps)| <= |ps|
    ensures ActiveOf(ActiveOf(ps)) == ActiveOf(ps)
  {
    if ps != [] {
      var init, last := ps[..|ps| - 1], ps[|ps| - 1];
      assert ps == init + [last];
      ActiveOfMembers(init);
      var tail := if last.active then [last] else [];
      ActiveOfAppend(ActiveOf(init), tail);
      assert tail == [] || tail[..0] == [];
    }
  }

  // ---------------------------------------------------------------------------
  // order
  // ---------------------------------------------------------------------------

  /** The products an order names. */
  function Members(lines: seq<OrderLine>): set<Product> {
    set l | l in lines :: l.product
  }

  /** The current state of each of the given products. */
  function Snapshot(ps: set<Product>): map<Product, State>
    reads ps
  {
    map p | p in ps :: p.Current()
  }

  /** Every product the lines name has a state in st. */
  predicate Named(lines: seq<OrderLine>, st: map<Product, State>) {
    forall i :: 0 <= i < |lines| ==> lines[i].product in st
  }

  /** One line of order(): the store's stock pre-check against the product's state
      `s`, then the product's own buy. */
  function LineStep(line: OrderLine, s: State): (Result<nat>, State) {
    if line.amount > s.quantity then (Err(OutOfStock), s)
    else BuyStep(line.product.kind, line.product.price, s, line.amount)
  }

  /** A line leaves the product as it was when it fails, charges price * amount for
      a positive amount when it succeeds, takes that amount off a stocked product
      and leaves a non-stocked one untouched. */
  lemma LineStepEffect(line: OrderLine, s: State)
    ensures LineStep(line, s).0.Err? ==> LineStep(line, s).1 == s
    ensures LineStep(line, s).0.Ok? ==>
              && line.amount > 0
              && LineStep(line, s).0.value == line.product.price * line.amount
              && LineStep(line, s).1.quantity
                 == if line.product.kind.NonStocked? then s.quantity else s.quantity - line.amount
    ensures line.product.kind.NonStocked? ==> LineStep(line, s).1 == s
  {
    BuyStepEffect(line.product.kind, line.product.price, s, line.amount);
  }

  /** order(lines) with `total` already charged and the products in the states `st`:
      each line in turn is checked and bought from the state the earlier lines left;
      the first failure ends the order and keeps what earlier lines did. */
  function OrderFrom(lines: seq<OrderLine>, st: map<Product, State>, total: nat)
    : (Result<nat>, map<Product, State>)
    requires Named(lines, st)
    decreases |lines|
  {
    if lines == [] then (Ok(total), st)
    else
      var p := lines[0].product;
      var step := LineStep(lines[0], st[p]);
      if step.0.Err? then (step.0, st)
      else OrderFrom(lines[1..], st[p := step.1], total + step.0.value)
  }

  /** An order keeps the set of products it knows about and changes only the
      products its lines name. */
  lemma {:induction false} OrderFrame(lines: seq<OrderLine>, st: map<Product, State>, t: nat)
    requires Named(lines, st)
    ensures OrderFrom(lines, st, t).1.Keys == st.Keys
    ensures forall p :: p in st && p !in Members(lines) ==> OrderFrom(lines, st, t).1[p] == st[p]
  {
    if lines != [] {
      var p := lines[0].product;
      var step := LineStep(lines[0], st[p]);
      if step.0.Ok? {
        OrderFrame(lines[1..], st[p := step.1], t + step.0.value);
        assert Members(lines[1..]) <= Members(lines) by {
          forall l | l in lines[1..] ensures l in lines { }
        }
        assert lines[0] in lines;
      }
    }
  }

  /** Line i of an order, run from the state `st` the earlier lines left: it decides
      the outcome when it fails, and otherwise the lines after it continue from
      the state it leaves. */
  lemma OrderLineStep(lines: seq<OrderLine>, i: nat, st: map<Product, State>, total: nat)
    requires i < |lines| && Named(lines[i..], st)
    ensures Named(lines[i + 1..], st)
    ensures lines[i].product in st
    ensures LineStep(lines[i], st[lines[i].product]).0.Err? ==>
              OrderFrom(lines[i..], st, total) == (LineStep(lines[i], st[lines[i].product]).0, st)
    ensures LineStep(lines[i], st[lines[i].product]).0.Ok? ==>
              OrderFrom(lines[i..], st, total)
              == OrderFrom(lines[i + 1..], st[lines[i].product := LineStep(lines[i], st[lines[i].product]).1],
                           total + LineStep(lines[i], st[lines[i].product]).0.value)
  {
    assert lines[i..][0] == lines[i];
    assert lines[i..][1..] == lines[i + 1..];
  }

  /** Running two shopping lists one after the other is running their concatenation:
      the second starts from the stock the first left, and does not run at all when
      the first failed. */
  lemma {:induction false} OrderSequential(a: seq<OrderLine>, b: seq<OrderLine>, st: map<Product, State>, t: nat)
    requires Named(a, st) && Named(b, st)
    ensures Named(a + b, st)
    ensures OrderFrom(a, st, t).1.Keys == st.Keys
    ensures OrderFrom(a + b, st, t)
         == (var (r, st') := OrderFrom(a, st, t); if r.Ok? then OrderFrom(b, st', r.value) else (r, st'))
  {
    OrderFrame(a, st, t);
    if a == [] {
      assert a + b == b;
    } else {
      assert (a + b)[0] == a[0];
      assert (a + b)[1..] == a[1..] + b;
      var p := a[0].product;
      var step := LineStep(a[0], st[p]);
      if step.0.Ok? {
        OrderSequential(a[1..], b, st[p := step.1], t + step.0.value);
      }
    }
  }

  /** The list price of an order: the sum of price * amount over its lines. */
  function ListPrice(lines: seq<OrderLine>): int {
    if lines == [] then 0
    else lines[0].product.price * lines[0].amount + ListPrice(lines[1..])
  }

  /** How much of p the lines ask for in all. */
  function Requested(lines: seq<OrderLine>, p: Product): int {
    if lines == [] then 0
    else (if lines[0].product == p then lines[0].amount else 0) + Requested(lines[1..], p)
  }

  /** A successful order asked for a positive amount on every line and charges
      the list price of the order. */
  lemma {:induction false} OrderTotal(lines: seq<OrderLine>, st: map<Product, State>, t: nat)
    requires Named(lines, st)
    ensures OrderFrom(lines, st, t).0.Ok? ==>
              && (forall i :: 0 <= i < |lines| ==> lines[i].amount > 0)
              && OrderFrom(lines, st, t).0.value == t + ListPrice(lines)
  {
    if lines != [] {
      var p := lines[0].product;
      var step := LineStep(lines[0], st[p]);
      LineStepEffect(lines[0], st[p]);
      if step.0.Ok? {
        OrderTotal(lines[1..], st[p := step.1], t + step.0.value);
        if OrderFrom(lines, st, t).0.Ok? {
          forall i | 0 <= i < |lines| ensures lines[i].amount > 0 {
            if i > 0 { assert lines[i] == lines[1..][i - 1]; }
          }
        }
      }
    }
  }

  /** An order never changes a non-stocked product, and a successful one takes
      from every stocked product exactly the total its lines asked for, so a
      product listed twice is drawn down twice. */
  lemma {:induction false} OrderStockDrawn(lines: seq<OrderLine>, st: map<Product, State>, t: nat)
    requires Named(lines, st)
    ensures OrderFrom(lines, st, t).1.Keys == st.Keys
    ensures forall p :: p in st && p.kind.NonStocked? ==> OrderFrom(lines, st, t).1[p] == st[p]
    ensures OrderFrom(lines, st, t).0.Ok? ==>
              forall p :: p in st && !p.kind.NonStocked? ==>
                OrderFrom(lines, st, t).1[p].quantity == st[p].quantity - Requested(lines, p)
  {
    OrderFrame(lines, st, t);
    if lines != [] {
      var q := lines[0].product;
      var step := LineStep(lines[0], st[q]);
      LineStepEffect(lines[0], st[q]);
      if step.0.Ok? {
        OrderStockDrawn(lines[1..], st[q := step.1], t + step.0.value);
      }
    }
  }

  /** Line k is where the order stops: the lines before it succeed, line k fails
      from the state they leave with the order's error, and that state is the
      order's final state, so nothing after line k is touched. */
  predicate FailsAt(lines: seq<OrderLine>, st: map<Product, State>, t: nat, k: nat)
    requires Named(lines, st)
  {
    && k < |lines|
    && Named(lines[..k], st)
    && var (rk, stk) := OrderFrom(lines[..k], st, t);
       && rk.Ok?
       && lines[k].product in stk
       && LineStep(lines[k], stk[lines[k].product]).0 == OrderFrom(lines, st, t).0
       && LineStep(lines[k], stk[lines[k].product]).0.Err?
       && OrderFrom(lines, st, t).1 == stk
  }

  /** A failed order failed at some line, keeping the effect of the lines before
      it (no rollback) and leaving the lines after it unprocessed. */
  lemma {:induction false} OrderStopsAtFirstFailure(lines: seq<OrderLine>, st: map<Product, State>, t: nat)
    requires Named(lines, st)
    ensures OrderFrom(lines, st, t).0.Err? ==> exists k :: FailsAt(lines, st, t, k)
  {
    if lines != [] && OrderFrom(lines, st, t).0.Err? {
      var p := lines[0].product;
      var step := LineStep(lines[0], st[p]);
      assert lines[..0] == [];
      if step.0.Err? {
        assert FailsAt(lines, st, t, 0);
      } else {
        var st1, t1 := st[p := step.1], t + step.0.value;
        OrderStopsAtFirstFailure(lines[1..], st1, t1);
        var k: nat :| FailsAt(lines[1..], st1, t1, k);
        assert lines[..k + 1][0] == lines[0];
        assert lines[..k + 1][1..] == lines[1..][..k];
        assert lines[k + 1] == lines[1..][k];
        assert FailsAt(lines, st, t, k + 1);
      }
    }
  }

  /** A non-stocked product holds 0, so the store's stock pre-check refuses any
      positive amount of it and its buy refuses any other: an order that names a
      non-stocked product never succeeds. */
  lemma {:induction false} NonStockedNeverOrdered(lines: seq<OrderLine>, st: map<Product, State>, t: nat)
    requires Named(lines, st)
    requires forall p :: p in st && p.kind.NonStocked? ==> st[p].quantity == 0
    ensures OrderFrom(lines, st, t).0.Ok? ==> forall i :: 0 <= i < |lines| ==> !lines[i].product.kind.NonStocked?
  {
    if lines != [] {
      var q := lines[0].product;
      var step := LineStep(lines[0], st[q]);
      LineStepEffect(lines[0], st[q]);
      if step.0.Ok? {
        NonStockedNeverOrdered(lines[1..], st[q := step.1], t + step.0.value);
        if OrderFrom(lines, st, t).0.Ok? {
          forall i | 0 <= i < |lines| ensures !lines[i].product.kind.NonStocked? {
            if i > 0 { assert lines[i] == lines[1..][i - 1]; }
          }
        }
      }
    }
  }

  /** The store walk-through: one product at price 200 with 10 in stock; ordering 3
      charges 600 and leaves 7, after which an order for 8 is out of stock. */
  lemma OrderWalkThrough(p: Product)
    requires p.kind == Standard && p.price == 200
    ensures var st := map[p := State(10, true)];
            var (r1, st1) := OrderFrom([OrderLine(p, 3)], st, 0);
            && r1 == Ok(600)
            && st1 == map[p := State(7, true)]
            && OrderFrom([OrderLine(p, 8)], st1, 0) == (Err(OutOfStock), st1)
  {
    var st := map[p := State(10, true)];
    assert [OrderLine(p, 3)][1..] == [];
  }

  // ---------------------------------------------------------------------------
  // The store object
  // ---------------------------------------------------------------------------

  class Store {
    var products: seq<Product>

    constructor (products: seq<Product>)
      ensures this.products == products
    {
      this.products := products;
    }

    method AddProduct(p: Product)
      modifies this
      ensures products == Insert(old(products), p, p.active)
    {
      var active := p.IsActive();
      if active && p !in products {
        products := products + [p];
      }
    }

    method RemoveProduct(p: Product)
      modifies this
      ensures products == RemoveFirst(old(products), p)
    {
      RemoveFirstEffect(products, p);
      if p in products {
        var i := FirstIndex(products, p);
        products := products[..i] + products[i + 1..];
      }
    }

    method GetTotalQuantity() returns (total: nat)
      ensures total == TotalQuantity(products)
    {
      total := 0;
      var i := 0;
      while i < |products|
        invariant 0 <= i <= |products|
        invariant total == TotalQuantity(products[..i])
      {
        var q := products[i].GetQuantity();
        assert products[..i + 1][..i] == products[..i];
        total := total + q;
        i := i + 1;
      }
      assert products[..i] == products;
    }

    method GetAllProducts() returns (active: seq<Product>)
      ensures active == ActiveOf(products)
    {
      active := [];
      var i := 0;
      while i < |products|
        invariant 0 <= i <= |products|
        invariant active == ActiveOf(products[..i])
      {
        var p := products[i];
        assert products[..i + 1][..i] == products[..i];
        var isActive := p.IsActive();
        if isActive {
          active := active + [p];
        }
        i := i + 1;
      }
      assert products[..i] == products;
    }

    /**
     * The body of order's loop for one line: the stock pre-check, then buy.
     * Of the products in ps, only the line's product changes.
     */
    method ProcessLine(line: OrderLine, ghost ps: set<Product>) returns (r: Result<nat>)
      requires line.product in ps
      requires forall q :: q in ps ==> q.Valid()
      modifies line.product
      ensures forall q :: q in ps ==> q.Valid()
      ensures (r, line.product.Current()) == LineStep(line, old(line.product.Current()))
      ensures Snapshot(ps) == old(Snapshot(ps))[line.product := line.product.Current()]
      ensures r.Err? ==> Snapshot(ps) == old(Snapshot(ps))
    {
      var p, n := line.product, line.amount;
      if n > p.quantity {
        return Err(OutOfStock);
      }
      r := p.Buy(n);
    }

    method Order(lines: seq<OrderLine>) returns (r: Result<nat>)
      requires forall l :: l in lines ==> l.product.Valid()
      modifies Members(lines)
      ensures forall l :: l in lines ==> l.product.Valid()
      ensures (r, Snapshot(Members(lines))) == OrderFrom(lines, old(Snapshot(Members(lines))), 0)
    {
      ghost var ps := Members(lines);
      ghost var goal := OrderFrom(lines, Snapshot(ps), 0);
      var total: nat := 0;
      var i := 0;
      assert lines[0..] == lines;
      while i < |lines|
        invariant 0 <= i <= |lines|
        invariant forall q :: q in ps ==> q.Valid()
        invariant Named(lines[i..], Snapshot(ps))
        invariant OrderFrom(lines[i..], Snapshot(ps), total) == goal
      {
        ghost var st := Snapshot(ps);
        var p := lines[i].product;
        OrderLineStep(lines, i, st, total);
        ghost var step := LineStep(lines[i], st[p]);
        assert st[p] == p.Current();
        var bought := ProcessLine(lines[i], ps);
        assert (bought, p.Current()) == step;
        if bought.Err? {
          return bought;
        }
        assert Snapshot(ps) == st[p := step.1];
        total := total + bought.value;
        i := i + 1;
      }
      assert lines[i..] == [];
      r := Ok(total);
    }
  }
}
