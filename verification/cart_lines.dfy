/** A cart's line items and the edits the cart handlers make to them: add one
    unit of a product, drop a product, set a product's quantity, replace or
    clear the list. */
module CartLines {
  import opened Options
  import opened ProductModel

  type CartId = nat

  /** One cart line: a product reference and a quantity. Nothing keeps the
      quantity positive or the reference pointing at an existing product. */
  datatype LineItem = LineItem(product: ProductId, quantity: int)

  /** A cart line with its product looked up; None where the product is gone. */
  datatype ResolvedLine = ResolvedLine(product: Option<Product>, quantity: int)

  /** The position of the first line for `pid`, if any. */
  function FirstIndex(lines: seq<LineItem>, pid: ProductId): (r: Option<nat>)
    ensures r.Some? ==> && r.value < |lines|
                        && lines[r.value].product == pid
                        && forall k :: 0 <= k < r.value ==> lines[k].product != pid
    ensures r.None? ==> forall k :: 0 <= k < |lines| ==> lines[k].product != pid
  {
    if lines == [] then None
    else if lines[0].product == pid then Some(0)
    else
      match FirstIndex(lines[1..], pid)
      case None => None
      case Some(i) => Some(i + 1)
  }

  /** The handlers' search for the product's line in the cart. */
  method FindLine(lines: seq<LineItem>, pid: ProductId) returns (found: Option<nat>)
    ensures found == FirstIndex(lines, pid)
  {
    var i := 0;
    while i < |lines|
      invariant 0 <= i <= |lines|
      invariant forall k :: 0 <= k < i ==> lines[k].product != pid
    {
      if lines[i].product == pid {
        return Some(i);
      }
      i := i + 1;
    }
    return None;
  }

  /** Add one unit of `pid`: the first line for it gains 1, or a line with
      quantity 1 goes at the end. */
  function AddOne(lines: seq<LineItem>, pid: ProductId): seq<LineItem> {
    match FirstIndex(lines, pid)
    case Some(i) => lines[i := lines[i].(quantity := lines[i].quantity + 1)]
    case None => lines + [LineItem(pid, 1)]
  }

  /** The lines whose product is not `pid`, in their order. */
  function Without(lines: seq<LineItem>, pid: ProductId): seq<LineItem> {
    if lines == [] then []
    else (if lines[0].product == pid then [] else [lines[0]]) + Without(lines[1..], pid)
  }

  /** The first line for `pid` set to quantity `q`; no line for it leaves the list as it is. */
  function WithQuantity(lines: seq<LineItem>, pid: ProductId, q: int): seq<LineItem> {
    match FirstIndex(lines, pid)
    case Some(i) => lines[i := lines[i].(quantity := q)]
    case None => lines
  }

  /** The lines for `pid`, in their order: the view of the cart that one
      product's operations are about. */
  function LinesFor(lines: seq<LineItem>, pid: ProductId): seq<LineItem> {
    if lines == [] then []
    else (if lines[0].product == pid then [lines[0]] else []) + LinesFor(lines[1..], pid)
  }

  lemma {:induction false} LinesForEmpty(lines: seq<LineItem>, pid: ProductId)
    ensures LinesFor(lines, pid) == [] <==> FirstIndex(lines, pid).None?
  {
    if lines != [] {
      LinesForEmpty(lines[1..], pid);
    }
  }

  lemma {:induction false} LinesForAppend(s: seq<LineItem>, t: seq<LineItem>, pid: ProductId)
    ensures LinesFor(s + t, pid) == LinesFor(s, pid) + LinesFor(t, pid)
  {
    if s == [] {
      assert s + t == t;
    } else {
      LinesForAppend(s[1..], t, pid);
      assert (s + t)[0] == s[0];
      assert (s + t)[1..] == s[1..] + t;
      var h := if s[0].product == pid then [s[0]] else [];
      calc {
        LinesFor(s + t, pid);
        h + LinesFor(s[1..] + t, pid);
        h + (LinesFor(s[1..], pid) + LinesFor(t, pid));
        (h + LinesFor(s[1..], pid)) + LinesFor(t, pid);
      }
    }
  }

  /** Replacing the first line for `pid` by another line for `pid` replaces the
      head of that product's lines. */
  lemma {:induction false} LinesForFirstUpdate(s: seq<LineItem>, pid: ProductId, x: LineItem)
    requires FirstIndex(s, pid).Some? && x.product == pid
    ensures LinesFor(s, pid) != []
    ensures LinesFor(s[FirstIndex(s, pid).value := x], pid) == [x] + LinesFor(s, pid)[1..]
  {
    var i := FirstIndex(s, pid).value;
    if i == 0 {
      assert s[0 := x] == [x] + s[1..];
      assert (s[0 := x])[1..] == s[1..];
    } else {
      LinesForFirstUpdate(s[1..], pid, x);
      assert FirstIndex(s[1..], pid).value == i - 1;
      assert s[i := x][1..] == s[1..][i - 1 := x];
    }
  }

  /** Changing a line that is not for `pid`, into one that is not for `pid`,
      leaves the lines for `pid` alone. */
  lemma {:induction false} LinesForOtherUpdate(s: seq<LineItem>, i: nat, x: LineItem, pid: ProductId)
    requires i < |s| && s[i].product != pid && x.product != pid
    ensures LinesFor(s[i := x], pid) == LinesFor(s, pid)
  {
    if i > 0 {
      LinesForOtherUpdate(s[1..], i - 1, x, pid);
      assert s[i := x][1..] == s[1..][i - 1 := x];
    } else {
      assert s[0 := x][1..] == s[1..];
    }
  }

  /** Adding `pid` gives its first line one more unit, or creates a line with
      quantity 1 when there was none; the list grows only in that second case,
      and then only at the end. Every other position keeps its line, so the
      lines of every other product stay as they were. */
  lemma AddOneEffect(lines: seq<LineItem>, pid: ProductId, other: ProductId)
    ensures var before := LinesFor(lines, pid);
            LinesFor(AddOne(lines, pid), pid) ==
              if before == [] then [LineItem(pid, 1)]
              else [before[0].(quantity := before[0].quantity + 1)] + before[1..]
    ensures |AddOne(lines, pid)| == if LinesFor(lines, pid) == [] then |lines| + 1 else |lines|
    ensures FirstIndex(lines, pid).None? ==>
              |AddOne(lines, pid)| == |lines| + 1
              && AddOne(lines, pid)[..|lines|] == lines
              && AddOne(lines, pid)[|lines|] == LineItem(pid, 1)
    ensures FirstIndex(lines, pid).Some? ==>
              |AddOne(lines, pid)| == |lines|
              && forall k :: 0 <= k < |lines| && k != FirstIndex(lines, pid).value ==>
                   AddOne(lines, pid)[k] == lines[k]
    ensures other != pid ==> LinesFor(AddOne(lines, pid), other) == LinesFor(lines, other)
  {
    LinesForEmpty(lines, pid);
    match FirstIndex(lines, pid)
    case Some(i) =>
      var x := lines[i].(quantity := lines[i].quantity + 1);
      LinesForFirstUpdate(lines, pid, x);
      LinesForFirstUpdate(lines, pid, lines[i]);
      assert lines[i := lines[i]] == lines;
      if other != pid {
        LinesForOtherUpdate(lines, i, x, other);
      }
    case None =>
      LinesForAppend(lines, [LineItem(pid, 1)], pid);
      LinesForAppend(lines, [LineItem(pid, 1)], other);
      assert LinesFor([LineItem(pid, 1)], pid) == [LineItem(pid, 1)];
  }

  /** Setting the quantity of `pid` rewrites only its first line; the length,
      every other position and so the lines of every other product are
      unchanged, and a product not in the cart leaves the list as it is. */
  lemma WithQuantityEffect(lines: seq<LineItem>, pid: ProductId, q: int, other: ProductId)
    ensures |WithQuantity(lines, pid, q)| == |lines|
    ensures FirstIndex(lines, pid).None? ==> WithQuantity(lines, pid, q) == lines
    ensures FirstIndex(lines, pid).Some? ==>
              forall k :: 0 <= k < |lines| && k != FirstIndex(lines, pid).value ==>
                WithQuantity(lines, pid, q)[k] == lines[k]
    ensures var before := LinesFor(lines, pid);
            LinesFor(WithQuantity(lines, pid, q), pid) ==
              if before == [] then [] else [LineItem(pid, q)] + before[1..]
    ensures other != pid ==> LinesFor(WithQuantity(lines, pid, q), other) == LinesFor(lines, other)
  {
    LinesForEmpty(lines, pid);
    match FirstIndex(lines, pid)
    case Some(i) =>
      var x := lines[i].(quantity := q);
      assert x == LineItem(pid, q);
      LinesForFirstUpdate(lines, pid, x);
      if other != pid {
        LinesForOtherUpdate(lines, i, x, other);
      }
    case None =>
  }

  lemma {:induction false} WithoutDropsAll(lines: seq<LineItem>, pid: ProductId)
    ensures LinesFor(Without(lines, pid), pid) == []
  {
    if lines != [] {
      WithoutDropsAll(lines[1..], pid);
      var head := if lines[0].product == pid then [] else [lines[0]];
      LinesForAppend(head, Without(lines[1..], pid), pid);
    }
  }

  lemma {:induction false} WithoutKeepsOthers(lines: seq<LineItem>, pid: ProductId, other: ProductId)
    requires other != pid
    ensures LinesFor(Without(lines, pid), other) == LinesFor(lines, other)
  {
    if lines != [] {
      WithoutKeepsOthers(lines[1..], pid, other);
      var head := if lines[0].product == pid then [] else [lines[0]];
      LinesForAppend(head, Without(lines[1..], pid), other);
    }
  }

  lemma {:induction false} WithoutSplits(lines: seq<LineItem>, pid: ProductId)
    ensures multiset(Without(lines, pid)) + multiset(LinesFor(lines, pid)) == multiset(lines)
  {
    if lines != [] {
      WithoutSplits(lines[1..], pid);
      assert lines == [lines[0]] + lines[1..];
    }
  }

  lemma {:induction false} WithoutAbsent(lines: seq<LineItem>, pid: ProductId)
    requires FirstIndex(lines, pid).None?
    ensures Without(lines, pid) == lines
  {
    if lines != [] {
      WithoutAbsent(lines[1..], pid);
      assert lines == [lines[0]] + lines[1..];
    }
  }

  /** Removing `pid` from a concatenation concatenates the removals, so the
      lines kept stay in their relative order across products. */
  lemma {:induction false} WithoutAppend(s: seq<LineItem>, t: seq<LineItem>, pid: ProductId)
    ensures Without(s + t, pid) == Without(s, pid) + Without(t, pid)
  {
    if s == [] {
      assert s + t == t;
    } else {
      WithoutAppend(s[1..], t, pid);
      assert (s + t)[0] == s[0];
      assert (s + t)[1..] == s[1..] + t;
      var h := if s[0].product == pid then [] else [s[0]];
      calc {
        Without(s + t, pid);
        h + Without(s[1..] + t, pid);
        h + (Without(s[1..], pid) + Without(t, pid));
        (h + Without(s[1..], pid)) + Without(t, pid);
      }
    }
  }

  /** A single line is dropped exactly when it is for `pid`. */
  lemma WithoutSingle(x: LineItem, pid: ProductId)
    ensures Without([x], pid) == if x.product == pid then [] else [x]
  {
    assert [x][1..] == [];
  }

  /** Removing `pid` drops every line for it and keeps every other line, in
      order; a product not in the cart leaves the list unchanged. */
  lemma WithoutEffect(lines: seq<LineItem>, pid: ProductId, other: ProductId)
    ensures LinesFor(Without(lines, pid), pid) == []
    ensures other != pid ==> LinesFor(Without(lines, pid), other) == LinesFor(lines, other)
    ensures multiset(Without(lines, pid)) + multiset(LinesFor(lines, pid)) == multiset(lines)
    ensures FirstIndex(lines, pid).None? ==> Without(lines, pid) == lines
  {
    WithoutDropsAll(lines, pid);
    if other != pid {
      WithoutKeepsOthers(lines, pid, other);
    }
    WithoutSplits(lines, pid);
    if FirstIndex(lines, pid).None? {
      WithoutAbsent(lines, pid);
    }
  }

  /** A cart edit on one product, as the add, remove and set-quantity handlers make them. */
  datatype Edit = Add(pid: ProductId) | Remove(pid: ProductId) | SetQuantity(pid: ProductId, quantity: int)

  function ApplyEdit(lines: seq<LineItem>, e: Edit): seq<LineItem> {
    match e
    case Add(p) => AddOne(lines, p)
    case Remove(p) => Without(lines, p)
    case SetQuantity(p, q) => WithQuantity(lines, p, q)
  }

  function ApplyEdits(lines: seq<LineItem>, edits: seq<Edit>): seq<LineItem>
    decreases |edits|
  {
    if edits == [] then lines else ApplyEdits(ApplyEdit(lines, edits[0]), edits[1..])
  }

  /** Edits about other products never touch the lines for `pid`. */
  lemma {:induction false} UnrelatedEdits(lines: seq<LineItem>, edits: seq<Edit>, pid: ProductId)
    requires forall k :: 0 <= k < |edits| ==> edits[k].pid != pid
    ensures LinesFor(ApplyEdits(lines, edits), pid) == LinesFor(lines, pid)
    decreases |edits|
  {
    if edits != [] {
      var next := ApplyEdit(lines, edits[0]);
      match edits[0] {
        case Add(p) => AddOneEffect(lines, p, pid);
        case Remove(p) => WithoutEffect(lines, p, pid);
        case SetQuantity(p, q) => WithQuantityEffect(lines, p, q, pid);
      }
      assert forall k :: 0 <= k < |edits[1..]| ==> edits[1..][k] == edits[k + 1];
      UnrelatedEdits(next, edits[1..], pid);
    }
  }

  /** Adding a product twice to a cart that lacks it, whatever edits of other
      products come in between, leaves exactly one line for it, with quantity 2. */
  lemma AddTwice(lines: seq<LineItem>, between: seq<Edit>, pid: ProductId)
    requires LinesFor(lines, pid) == []
    requires forall k :: 0 <= k < |between| ==> between[k].pid != pid
    ensures LinesFor(AddOne(ApplyEdits(AddOne(lines, pid), between), pid), pid) == [LineItem(pid, 2)]
  {
    AddOneEffect(lines, pid, pid);
    UnrelatedEdits(AddOne(lines, pid), between, pid);
    AddOneEffect(ApplyEdits(AddOne(lines, pid), between), pid, pid);
  }

  /** The cart with every line's product looked up. */
  function Populate(lines: seq<LineItem>, ps: map<ProductId, Product>): (r: seq<ResolvedLine>)
    ensures |r| == |lines|
    ensures forall i :: 0 <= i < |lines| ==>
              && r[i].quantity == lines[i].quantity
              && (r[i].product.Some? <==> lines[i].product in ps)
              && (r[i].product.Some? ==> r[i].product.value == ps[lines[i].product])
  {
    if lines == [] then []
    else
      var p := if lines[0].product in ps then Some(ps[lines[0].product]) else None;
      [ResolvedLine(p, lines[0].quantity)] + Populate(lines[1..], ps)
  }
}
