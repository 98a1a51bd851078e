/** What a checkout computes from a cart and the products it refers to: the
    lines that fail the stock check, the amount due, the stock left afterwards,
    and the ticket. */
module Checkout {
  import opened Options
  import opened ProductModel
  import opened Http
  import opened CartLines

  /** A completed purchase. */
  datatype Ticket = Ticket(code: string, amount: int, purchaser: string)

  const DefaultPurchaser := "cliente_desconocido"

  /** The purchaser named in the request, or the placeholder when none (or an
      empty one) is given. */
  function PurchaserLabel(purchaser: Option<string>): (name: string)
    ensures name != ""
    ensures purchaser.Some? && purchaser.value != "" ==> name == purchaser.value
    ensures purchaser.None? || purchaser.value == "" ==> name == DefaultPurchaser
  {
    if purchaser.Some? && purchaser.value != "" then purchaser.value else DefaultPurchaser
  }

  /** Every line refers to a product that exists. */
  predicate Resolves(lines: seq<LineItem>, ps: map<ProductId, Product>) {
    forall i :: 0 <= i < |lines| ==> lines[i].product in ps
  }

  /** A line asks for more than its product's stock. */
  predicate Short(line: LineItem, ps: map<ProductId, Product>)
    requires line.product in ps
  {
    ps[line.product].stock < line.quantity
  }

  /** The report of every line that fails the stock check, in cart order. */
  function Shortfalls(lines: seq<LineItem>, ps: map<ProductId, Product>): seq<StockFailure>
    requires Resolves(lines, ps)
    decreases |lines|
  {
    if lines == [] then []
    else
      var last := lines[|lines| - 1];
      var p := ps[last.product];
      Shortfalls(lines[..|lines| - 1], ps)
      + (if Short(last, ps) then [StockFailure(p.title, last.quantity, p.stock)] else [])
  }

  /** The lines that pass the stock check, in cart order. */
  function Fulfillable(lines: seq<LineItem>, ps: map<ProductId, Product>): (kept: seq<LineItem>)
    requires Resolves(lines, ps)
    ensures Resolves(kept, ps)
    ensures forall i :: 0 <= i < |kept| ==> !Short(kept[i], ps)
    decreases |lines|
  {
    if lines == [] then []
    else
      var last := lines[|lines| - 1];
      Fulfillable(lines[..|lines| - 1], ps) + (if Short(last, ps) then [] else [last])
  }

  /** The sum of unit price times quantity over the lines. */
  function Total(lines: seq<LineItem>, ps: map<ProductId, Product>): int
    requires Resolves(lines, ps)
    decreases |lines|
  {
    if lines == [] then 0
    else
      var last := lines[|lines| - 1];
      Total(lines[..|lines| - 1], ps) + ps[last.product].price * last.quantity
  }

  function SumQuantities(lines: seq<LineItem>): int {
    if lines == [] then 0 else lines[0].quantity + SumQuantities(lines[1..])
  }

  /** The total quantity the cart holds of one product, over all its lines. */
  function QuantityOf(lines: seq<LineItem>, pid: ProductId): int {
    SumQuantities(LinesFor(lines, pid))
  }

  /** The products after each line's quantity has been taken off its
      product's stock, one line after another. */
  function Decrement(ps: map<ProductId, Product>, lines: seq<LineItem>): (after: map<ProductId, Product>)
    ensures after.Keys == ps.Keys
    decreases |lines|
  {
    if lines == [] then ps
    else
      var last := lines[|lines| - 1];
      var d := Decrement(ps, lines[..|lines| - 1]);
      if last.product in d then d[last.product := d[last.product].(stock := d[last.product].stock - last.quantity)]
      else d
  }

  /** No two lines refer to the same product. */
  predicate DistinctProducts(lines: seq<LineItem>) {
    forall i, j :: 0 <= i < j < |lines| ==> lines[i].product != lines[j].product
  }

  lemma {:induction false} SumQuantitiesAppend(a: seq<LineItem>, b: seq<LineItem>)
    ensures SumQuantities(a + b) == SumQuantities(a) + SumQuantities(b)
  {
    if a != [] {
      SumQuantitiesAppend(a[1..], b);
      assert (a + b)[1..] == a[1..] + b;
    } else {
      assert a + b == b;
    }
  }

  lemma QuantityOfSnoc(init: seq<LineItem>, last: LineItem, pid: ProductId)
    ensures QuantityOf(init + [last], pid) == QuantityOf(init, pid) + (if last.product == pid then last.quantity else 0)
  {
    LinesForAppend(init, [last], pid);
    SumQuantitiesAppend(LinesFor(init, pid), LinesFor([last], pid));
  }

  /** The report over two runs of lines is the report over the first run
      followed by the report over the second: entries keep cart order. */
  lemma {:induction false} ShortfallsAppend(s: seq<LineItem>, t: seq<LineItem>, ps: map<ProductId, Product>)
    requires Resolves(s, ps) && Resolves(t, ps)
    ensures Resolves(s + t, ps)
    ensures Shortfalls(s + t, ps) == Shortfalls(s, ps) + Shortfalls(t, ps)
    decreases |t|
  {
    assert forall i :: 0 <= i < |s + t| ==> (s + t)[i] == if i < |s| then s[i] else t[i - |s|];
    if t == [] {
      assert s + t == s;
    } else {
      var init := t[..|t| - 1];
      assert Resolves(init, ps) by {
        forall i | 0 <= i < |init| ensures init[i].product in ps {
          assert init[i] == t[i];
        }
      }
      ShortfallsAppend(s, init, ps);
      assert (s + t)[..|s + t| - 1] == s + init;
      assert (s + t)[|s + t| - 1] == t[|t| - 1];
    }
  }

  /** A single line is reported exactly when it is short, as its product's
      title, the quantity asked for and the stock on hand. */
  lemma ShortfallsSingle(x: LineItem, ps: map<ProductId, Product>)
    requires x.product in ps
    ensures Resolves([x], ps)
    ensures Shortfalls([x], ps) ==
              if Short(x, ps) then [StockFailure(ps[x.product].title, x.quantity, ps[x.product].stock)] else []
  {
    assert [x][..0] == [];
  }

  /** Failing lines are reported and the others kept, in cart order: the cart
      passes exactly when every line asks for no more than its product's stock,
      and then every line is kept. */
  lemma {:induction false} StockCheckExact(lines: seq<LineItem>, ps: map<ProductId, Product>)
    requires Resolves(lines, ps)
    ensures |Shortfalls(lines, ps)| + |Fulfillable(lines, ps)| == |lines|
    ensures Shortfalls(lines, ps) == [] <==>
              forall i :: 0 <= i < |lines| ==> lines[i].quantity <= ps[lines[i].product].stock
    ensures Shortfalls(lines, ps) == [] ==> Fulfillable(lines, ps) == lines
    decreases |lines|
  {
    if lines != [] {
      var init := lines[..|lines| - 1];
      StockCheckExact(init, ps);
      assert lines == init + [lines[|lines| - 1]];
      if forall i :: 0 <= i < |lines| ==> lines[i].quantity <= ps[lines[i].product].stock {
        assert forall i :: 0 <= i < |init| ==> init[i].quantity <= ps[init[i].product].stock by {
          forall i | 0 <= i < |init| ensures init[i].quantity <= ps[init[i].product].stock {
            assert init[i] == lines[i];
          }
        }
      }
    }
  }

  /** After the decrements a product is still there, unchanged except that
      its stock is down by the total quantity the cart holds of it. */
  lemma {:induction false} DecrementStockAt(ps: map<ProductId, Product>, lines: seq<LineItem>, pid: ProductId)
    requires pid in ps
    ensures Decrement(ps, lines)[pid] == ps[pid].(stock := ps[pid].stock - QuantityOf(lines, pid))
    decreases |lines|
  {
    if lines != [] {
      var init := lines[..|lines| - 1];
      var last := lines[|lines| - 1];
      DecrementStockAt(ps, init, pid);
      assert lines == init + [last];
      QuantityOfSnoc(init, last, pid);
    }
  }

  /** The same, for every product at once. */
  lemma DecrementStock(ps: map<ProductId, Product>, lines: seq<LineItem>)
    ensures forall pid :: pid in ps ==>
              Decrement(ps, lines)[pid] == ps[pid].(stock := ps[pid].stock - QuantityOf(lines, pid))
  {
    forall pid | pid in ps
      ensures Decrement(ps, lines)[pid] == ps[pid].(stock := ps[pid].stock - QuantityOf(lines, pid))
    {
      DecrementStockAt(ps, lines, pid);
    }
  }

  lemma DecrementKeepsCodes(ps: map<ProductId, Product>, lines: seq<LineItem>)
    requires CodesUnique(ps)
    ensures CodesUnique(Decrement(ps, lines))
  {
    DecrementStock(ps, lines);
  }

  /** A product no line refers to has quantity zero. */
  lemma {:induction false} QuantityOfAbsent(lines: seq<LineItem>, pid: ProductId)
    requires forall i :: 0 <= i < |lines| ==> lines[i].product != pid
    ensures QuantityOf(lines, pid) == 0
    decreases |lines|
  {
    if lines != [] {
      var init := lines[..|lines| - 1];
      var last := lines[|lines| - 1];
      assert forall i :: 0 <= i < |init| ==> init[i] == lines[i];
      QuantityOfAbsent(init, pid);
      assert lines == init + [last];
      QuantityOfSnoc(init, last, pid);
    }
  }

  /** With one line per product, a product's quantity is that of its line. */
  lemma {:induction false} QuantityOfDistinctAt(lines: seq<LineItem>, i: nat)
    requires DistinctProducts(lines)
    requires i < |lines|
    ensures QuantityOf(lines, lines[i].product) == lines[i].quantity
    decreases |lines|
  {
    var pid := lines[i].product;
    var init := lines[..|lines| - 1];
    var last := lines[|lines| - 1];
    assert lines == init + [last];
    QuantityOfSnoc(init, last, pid);
    if i == |lines| - 1 {
      assert forall k :: 0 <= k < |init| ==> init[k].product != pid by {
        forall k | 0 <= k < |init| ensures init[k].product != pid {
          assert init[k] == lines[k];
        }
      }
      QuantityOfAbsent(init, pid);
    } else {
      assert DistinctProducts(init) by {
        forall a, b | 0 <= a < b < |init| ensures init[a].product != init[b].product {
          assert init[a] == lines[a] && init[b] == lines[b];
        }
      }
      assert init[i] == lines[i];
      QuantityOfDistinctAt(init, i);
    }
  }

  /** When the cart passes the check and holds one line per product, taking
      the stock leaves no product of the cart below zero, and leaves every
      product outside the cart as it was. */
  lemma CheckoutKeepsStockNonNegative(ps: map<ProductId, Product>, lines: seq<LineItem>)
    requires Resolves(lines, ps)
    requires Shortfalls(lines, ps) == []
    requires DistinctProducts(lines)
    ensures forall i :: 0 <= i < |lines| ==> Decrement(ps, lines)[lines[i].product].stock >= 0
    ensures forall pid :: pid in ps && (forall i :: 0 <= i < |lines| ==> lines[i].product != pid) ==>
              Decrement(ps, lines)[pid] == ps[pid]
  {
    StockCheckExact(lines, ps);
    forall i | 0 <= i < |lines|
      ensures Decrement(ps, lines)[lines[i].product].stock >= 0
    {
      DecrementStockAt(ps, lines, lines[i].product);
      QuantityOfDistinctAt(lines, i);
    }
    forall pid | pid in ps && (forall i :: 0 <= i < |lines| ==> lines[i].product != pid)
      ensures Decrement(ps, lines)[pid] == ps[pid]
    {
      DecrementStockAt(ps, lines, pid);
      QuantityOfAbsent(lines, pid);
    }
  }

  lemma DuplicateLinesOverdraw(p: Product)
    requires p.stock == 1
    ensures var ps := map[7 := p];
            var lines := [LineItem(7, 1), LineItem(7, 1)];
            && Resolves(lines, ps)
            && Shortfalls(lines, ps) == []
            && Decrement(ps, lines)[7].stock == -1
  {
    var ps := map[7 := p];
    var lines := [LineItem(7, 1), LineItem(7, 1)];
    assert lines[..1] == [LineItem(7, 1)];
    assert lines[..1][..0] == [];
    DecrementStock(ps, lines);
    assert LinesFor(lines, 7) == lines by {
      assert lines[1..] == [LineItem(7, 1)];
    }
    assert lines[1..] == [LineItem(7, 1)];
  }

  /** Adding one unit of a product raises the cart's total quantity of it by
      exactly 1 and leaves every other product's total alone. */
  lemma AddOneQuantity(lines: seq<LineItem>, pid: ProductId, other: ProductId)
    ensures QuantityOf(AddOne(lines, pid), pid) == QuantityOf(lines, pid) + 1
    ensures other != pid ==> QuantityOf(AddOne(lines, pid), other) == QuantityOf(lines, other)
  {
    AddOneEffect(lines, pid, other);
    var before := LinesFor(lines, pid);
    if before != [] {
      var bumped := before[0].(quantity := before[0].quantity + 1);
      assert ([bumped] + before[1..])[1..] == before[1..];
    } else {
      assert [LineItem(pid, 1)][1..] == [];
    }
  }

  /** A cart of two units of a product with stock 5 and one unit of a product
      with stock 0 fails, reporting the second line only. */
  lemma ScenarioShortOfStock(p1: Product, p2: Product)
    requires p1.stock == 5 && p2.stock == 0
    ensures var ps := map[1 := p1, 2 := p2];
            var lines := [LineItem(1, 2), LineItem(2, 1)];
            Resolves(lines, ps) && Shortfalls(lines, ps) == [StockFailure(p2.title, 1, 0)]
  {
    var lines := [LineItem(1, 2), LineItem(2, 1)];
    assert lines[..1] == [LineItem(1, 2)];
    assert lines[..1][..0] == [];
  }

  /** The same cart with the second product's stock at 1 passes: the amount is
      2 x 10 + 1 x 20 = 40, and the stocks become 3 and 0. */
  lemma ScenarioCheckout(p1: Product, p2: Product)
    requires p1.price == 10 && p1.stock == 5 && p2.price == 20 && p2.stock == 1
    ensures var ps := map[1 := p1, 2 := p2];
            var lines := [LineItem(1, 2), LineItem(2, 1)];
            && Resolves(lines, ps)
            && Shortfalls(lines, ps) == []
            && Total(lines, ps) == 40
            && Decrement(ps, lines)[1].stock == 3
            && Decrement(ps, lines)[2].stock == 0
  {
    var ps := map[1 := p1, 2 := p2];
    var lines := [LineItem(1, 2), LineItem(2, 1)];
    assert lines[..1] == [LineItem(1, 2)];
    assert lines[..1][..0] == [];
    DecrementStock(ps, lines);
    assert lines[1..] == [LineItem(2, 1)];
    assert LinesFor(lines, 1) == [LineItem(1, 2)];
    assert LinesFor(lines, 2) == [LineItem(2, 1)];
  }
}
