/**
 * The shopping-cart transforms of the customer app: each handler computes a
 * new line sequence from the current one with `find`, `map`, `filter` and
 * `reduce`. They are modelled here as pure functions; the component state
 * that holds their results is the class in module Storefront.
 */
module ClientCart {
  import opened Wrappers
  import opened Records

  // ---------------------------------------------------------------------
  // Shape of a cart
  // ---------------------------------------------------------------------

  /** Some line of the cart belongs to menu item `id`. */
  predicate HasId(cart: seq<CartLine>, id: int) {
    exists k :: 0 <= k < |cart| && cart[k].item.id == id
  }

  /** At most one line per menu item. */
  predicate UniqueIds(cart: seq<CartLine>) {
    forall i, j :: 0 <= i < j < |cart| ==> cart[i].item.id != cart[j].item.id
  }

  /** Every line has a quantity of at least one. */
  predicate AllPositive(cart: seq<CartLine>) {
    forall k :: 0 <= k < |cart| ==> cart[k].quantidade >= 1
  }

  /** The invariant the handlers keep: one line per item, no empty line. */
  predicate WellFormed(cart: seq<CartLine>) {
    UniqueIds(cart) && AllPositive(cart)
  }

  // ---------------------------------------------------------------------
  // The array primitives the handlers use
  // ---------------------------------------------------------------------

  /** `cart.find((c) => c.id === id)`: a line of item `id`, if any. */
  function Find(cart: seq<CartLine>, id: int): (r: Option<CartLine>)
    ensures r.Some? <==> HasId(cart, id)
    ensures r.Some? ==> r.value in cart && r.value.item.id == id
  {
    if cart == [] then None
    else if cart[0].item.id == id then Some(cart[0])
    else
      assert forall k :: 0 < k < |cart| ==> cart[k] == cart[1..][k - 1];
      Find(cart[1..], id)
  }

  /** The callback of the handlers' `map`: `{ ...c, quantidade: c.quantidade + delta }` on the lines of `id`. */
  function Bump(l: CartLine, id: int, delta: int): CartLine {
    if l.item.id == id then l.(quantidade := l.quantidade + delta) else l
  }

  /** `cart.map(...)` with the callback Bump. */
  function Shift(cart: seq<CartLine>, id: int, delta: int): seq<CartLine> {
    seq(|cart|, k requires 0 <= k < |cart| => Bump(cart[k], id, delta))
  }

  /** `s.filter(keep)`: the lines that pass `keep`, in their original order. */
  function Filter(s: seq<CartLine>, keep: CartLine -> bool): (r: seq<CartLine>)
    ensures |r| <= |s|
    ensures forall k :: 0 <= k < |r| ==> keep(r[k])
    ensures forall l :: l in r <==> l in s && keep(l)
  {
    if s == [] then []
    else
      assert forall l :: l in s <==> l == s[0] || l in s[1..];
      (if keep(s[0]) then [s[0]] else []) + Filter(s[1..], keep)
  }

  /** The filter callback of `diminuirQuantidade`: `item.quantidade > 0`. */
  function IsPositive(l: CartLine): bool {
    l.quantidade > 0
  }

  /** The filter callback of `removerDoCarrinho`: `item.id !== id`. */
  function NotId(id: int): CartLine -> bool {
    (l: CartLine) => l.item.id != id
  }

  /** Reference sum of `f` over the lines. */
  function Sum(s: seq<CartLine>, f: CartLine -> int): int {
    if s == [] then 0 else f(s[0]) + Sum(s[1..], f)
  }

  /** `s.reduce((acc, l) => acc + f(l), acc)`: a left fold from the first line. */
  function Reduce(s: seq<CartLine>, f: CartLine -> int, acc: int): (r: int)
    ensures r == acc + Sum(s, f)
  {
    if s == [] then acc else Reduce(s[1..], f, acc + f(s[0]))
  }

  /** What one line adds to the total: `item.preco * item.quantidade`. */
  function LineTotal(l: CartLine): int {
    l.item.preco * l.quantidade
  }

  /** What one line adds to the item count: `item.quantidade`. */
  function LineCount(l: CartLine): int {
    l.quantidade
  }

  // ---------------------------------------------------------------------
  // The cart operations
  // ---------------------------------------------------------------------

  /** `adicionarAoCarrinho`: bump the line of the item if there is one, else append a line of one. */
  function Adicionar(cart: seq<CartLine>, item: MenuItem): seq<CartLine> {
    if Find(cart, item.id).Some? then Shift(cart, item.id, 1)
    else cart + [CartLine(item, 1)]
  }

  /** `aumentarQuantidade`: one more of item `id`. */
  function Aumentar(cart: seq<CartLine>, id: int): seq<CartLine> {
    Shift(cart, id, 1)
  }

  /** `diminuirQuantidade`: one fewer of item `id`, then drop every line that is no longer positive. */
  function Diminuir(cart: seq<CartLine>, id: int): (r: seq<CartLine>)
    ensures AllPositive(r)
    ensures forall l :: l in r ==> l in Shift(cart, id, -1)
  {
    Filter(Shift(cart, id, -1), IsPositive)
  }

  /** `removerDoCarrinho`: drop every line of item `id`. */
  function Remover(cart: seq<CartLine>, id: int): (r: seq<CartLine>)
    ensures !HasId(r, id)
    ensures forall l :: l in r <==> l in cart && l.item.id != id
  {
    Filter(cart, NotId(id))
  }

  /** `calcularTotal`, before formatting: the reduce of price times quantity. */
  function CalcularTotal(cart: seq<CartLine>): (r: int)
    ensures r == Sum(cart, LineTotal)
    ensures cart == [] ==> r == 0
  {
    Reduce(cart, LineTotal, 0)
  }

  /** `totalItensCarrinho`: the reduce of the quantities. */
  function TotalItens(cart: seq<CartLine>): (r: int)
    ensures r == Sum(cart, LineCount)
    ensures cart == [] ==> r == 0
  {
    Reduce(cart, LineCount, 0)
  }

  // ---------------------------------------------------------------------
  // Sums
  // ---------------------------------------------------------------------

  lemma {:induction false} SumConcat(a: seq<CartLine>, b: seq<CartLine>, f: CartLine -> int)
    ensures Sum(a + b, f) == Sum(a, f) + Sum(b, f)
  {
    if a == [] {
      assert a + b == b;
    } else {
      assert (a + b)[1..] == a[1..] + b;
      SumConcat(a[1..], b, f);
    }
  }

  /** Replacing one line changes a sum by the difference of that line's contributions. */
  lemma SumUpdate(s: seq<CartLine>, j: int, l: CartLine, f: CartLine -> int)
    requires 0 <= j < |s|
    ensures Sum(s[j := l], f) == Sum(s, f) - f(s[j]) + f(l)
  {
    assert s == s[..j] + [s[j]] + s[j + 1..];
    assert s[j := l] == s[..j] + [l] + s[j + 1..];
    SumConcat(s[..j] + [s[j]], s[j + 1..], f);
    SumConcat(s[..j], [s[j]], f);
    SumConcat(s[..j] + [l], s[j + 1..], f);
    SumConcat(s[..j], [l], f);
  }

  /** Dropping one line takes its contribution out of a sum. */
  lemma SumRemoveAt(s: seq<CartLine>, j: int, f: CartLine -> int)
    requires 0 <= j < |s|
    ensures Sum(s[..j] + s[j + 1..], f) == Sum(s, f) - f(s[j])
  {
    assert s == s[..j] + [s[j]] + s[j + 1..];
    SumConcat(s[..j] + [s[j]], s[j + 1..], f);
    SumConcat(s[..j], [s[j]], f);
    SumConcat(s[..j], s[j + 1..], f);
  }

  /** With no empty line the item count is at least the number of lines, so it is zero only for the empty cart. */
  lemma {:induction false} TotalItensAtLeastLines(cart: seq<CartLine>)
    requires AllPositive(cart)
    ensures TotalItens(cart) >= |cart|
    ensures TotalItens(cart) == 0 <==> cart == []
  {
    if cart != [] {
      assert AllPositive(cart[1..]) by {
        forall k | 0 <= k < |cart[1..]| ensures cart[1..][k].quantidade >= 1 {
          assert cart[1..][k] == cart[k + 1];
        }
      }
      TotalItensAtLeastLines(cart[1..]);
    }
  }

  // ---------------------------------------------------------------------
  // Filters
  // ---------------------------------------------------------------------

  /** A filter of a concatenation is the concatenation of the filters: relative order is kept. */
  lemma {:induction false} FilterConcat(a: seq<CartLine>, b: seq<CartLine>, keep: CartLine -> bool)
    ensures Filter(a + b, keep) == Filter(a, keep) + Filter(b, keep)
  {
    if a == [] {
      assert a + b == b;
    } else {
      assert (a + b)[0] == a[0];
      assert (a + b)[1..] == a[1..] + b;
      FilterConcat(a[1..], b, keep);
    }
  }

  /** A filter that keeps every line changes nothing. */
  lemma {:induction false} FilterKeepsAll(s: seq<CartLine>, keep: CartLine -> bool)
    requires forall k :: 0 <= k < |s| ==> keep(s[k])
    ensures Filter(s, keep) == s
  {
    if s != [] {
      assert keep(s[0]);
      FilterKeepsAll(s[1..], keep);
      assert [s[0]] + s[1..] == s;
    }
  }

  /** Every line after the first but the one at `j` passes, read on the tail. */
  lemma TailKeeps(s: seq<CartLine>, keep: CartLine -> bool, j: int)
    requires 0 < |s|
    requires forall k :: 0 < k < |s| && k != j ==> keep(s[k])
    ensures forall k :: 0 <= k < |s| - 1 && k != j - 1 ==> keep(s[1..][k])
  {
    forall k | 0 <= k < |s| - 1 && k != j - 1 ensures keep(s[1..][k]) {
      assert s[1..][k] == s[k + 1];
    }
  }

  /** Putting the head back in front of the tail without its position `j - 1`. */
  lemma ConsWithout(s: seq<CartLine>, j: int)
    requires 0 < j < |s|
    ensures [s[0]] + (s[1..][..j - 1] + s[1..][j..]) == s[..j] + s[j + 1..]
  {
    assert s[1..][..j - 1] == s[1..j] && s[1..][j..] == s[j + 1..];
    assert s[..j] == [s[0]] + s[1..j];
  }

  /** A filter that rejects exactly one line drops that line and keeps the rest in order. */
  lemma {:induction false} FilterDropsOne(s: seq<CartLine>, keep: CartLine -> bool, j: int)
    requires 0 <= j < |s| && !keep(s[j])
    requires forall k :: 0 <= k < |s| && k != j ==> keep(s[k])
    ensures Filter(s, keep) == s[..j] + s[j + 1..]
  {
    TailKeeps(s, keep, j);
    if j == 0 {
      FilterKeepsAll(s[1..], keep);
    } else {
      assert keep(s[0]);
      FilterDropsOne(s[1..], keep, j - 1);
      ConsWithout(s, j);
    }
  }

  /** Filtering never creates two lines for one item. */
  lemma {:induction false} FilterUnique(s: seq<CartLine>, keep: CartLine -> bool)
    requires UniqueIds(s)
    ensures UniqueIds(Filter(s, keep))
  {
    if s != [] {
      var t := s[1..];
      assert UniqueIds(t) by {
        forall i, j | 0 <= i < j < |t| ensures t[i].item.id != t[j].item.id {
          assert t[i] == s[i + 1] && t[j] == s[j + 1];
        }
      }
      FilterUnique(t, keep);
      var rest := Filter(t, keep);
      forall l | l in rest ensures l.item.id != s[0].item.id {
        var k :| 0 <= k < |t| && t[k] == l;
        assert t[k] == s[k + 1];
      }
    }
  }

  // ---------------------------------------------------------------------
  // The map of the handlers on a cart with one line per item
  // ---------------------------------------------------------------------

  /** On a cart with one line per item, the map touches exactly the line of `id`. */
  lemma ShiftAt(cart: seq<CartLine>, id: int, delta: int, j: int)
    requires UniqueIds(cart)
    requires 0 <= j < |cart| && cart[j].item.id == id
    ensures Shift(cart, id, delta) == cart[j := cart[j].(quantidade := cart[j].quantidade + delta)]
  {
    var r := Shift(cart, id, delta);
    forall k | 0 <= k < |cart|
      ensures r[k] == cart[j := cart[j].(quantidade := cart[j].quantidade + delta)][k]
    {
      if k != j {
        assert cart[k].item.id != id by {
          if k < j { assert cart[k].item.id != cart[j].item.id; }
          else { assert cart[j].item.id != cart[k].item.id; }
        }
      }
    }
  }

  /** The map leaves a cart without item `id` as it is. */
  lemma ShiftAbsent(cart: seq<CartLine>, id: int, delta: int)
    requires !HasId(cart, id)
    ensures Shift(cart, id, delta) == cart
  {
    var r := Shift(cart, id, delta);
    forall k | 0 <= k < |cart| ensures r[k] == cart[k] {
      assert cart[k].item.id != id;
    }
  }

  // ---------------------------------------------------------------------
  // adicionarAoCarrinho
  // ---------------------------------------------------------------------

  /**
   * Adding an item the cart already holds bumps that line by one and leaves
   * the length and every other line alone; the count grows by one and the
   * total by the price stored in the line (the snapshot taken at first add).
   */
  lemma AdicionarExisting(cart: seq<CartLine>, item: MenuItem, j: int)
    requires UniqueIds(cart)
    requires 0 <= j < |cart| && cart[j].item.id == item.id
    ensures Adicionar(cart, item) == cart[j := cart[j].(quantidade := cart[j].quantidade + 1)]
    ensures TotalItens(Adicionar(cart, item)) == TotalItens(cart) + 1
    ensures CalcularTotal(Adicionar(cart, item)) == CalcularTotal(cart) + cart[j].item.preco
  {
    assert HasId(cart, item.id);
    var l := cart[j].(quantidade := cart[j].quantidade + 1);
    ShiftAt(cart, item.id, 1, j);
    SumUpdate(cart, j, l, LineCount);
    SumUpdate(cart, j, l, LineTotal);
  }

  /**
   * Adding an item the cart does not hold appends one line of quantity one
   * at the end; the count grows by one and the total by the item's price.
   */
  lemma AdicionarNew(cart: seq<CartLine>, item: MenuItem)
    requires !HasId(cart, item.id)
    ensures Adicionar(cart, item) == cart + [CartLine(item, 1)]
    ensures TotalItens(Adicionar(cart, item)) == TotalItens(cart) + 1
    ensures CalcularTotal(Adicionar(cart, item)) == CalcularTotal(cart) + item.preco
  {
    SumConcat(cart, [CartLine(item, 1)], LineCount);
    SumConcat(cart, [CartLine(item, 1)], LineTotal);
  }

  /** Adding keeps one line per item and no empty line, and the item is then in the cart. */
  lemma AdicionarKeepsWellFormed(cart: seq<CartLine>, item: MenuItem)
    requires WellFormed(cart)
    ensures WellFormed(Adicionar(cart, item))
    ensures HasId(Adicionar(cart, item), item.id)
    ensures TotalItens(Adicionar(cart, item)) == TotalItens(cart) + 1
  {
    var r := Adicionar(cart, item);
    if HasId(cart, item.id) {
      var j :| 0 <= j < |cart| && cart[j].item.id == item.id;
      AdicionarExisting(cart, item, j);
      assert r[j].item.id == item.id;
    } else {
      AdicionarNew(cart, item);
      assert r[|cart|].item.id == item.id;
    }
  }

  // ---------------------------------------------------------------------
  // aumentarQuantidade
  // ---------------------------------------------------------------------

  /** Increasing bumps only the line of `id`; count grows by one, total by that line's price. */
  lemma AumentarAt(cart: seq<CartLine>, id: int, j: int)
    requires UniqueIds(cart)
    requires 0 <= j < |cart| && cart[j].item.id == id
    ensures Aumentar(cart, id) == cart[j := cart[j].(quantidade := cart[j].quantidade + 1)]
    ensures TotalItens(Aumentar(cart, id)) == TotalItens(cart) + 1
    ensures CalcularTotal(Aumentar(cart, id)) == CalcularTotal(cart) + cart[j].item.preco
  {
    var l := cart[j].(quantidade := cart[j].quantidade + 1);
    ShiftAt(cart, id, 1, j);
    SumUpdate(cart, j, l, LineCount);
    SumUpdate(cart, j, l, LineTotal);
  }

  /** Increasing an id that has no line leaves the cart unchanged. */
  lemma AumentarAbsent(cart: seq<CartLine>, id: int)
    requires !HasId(cart, id)
    ensures Aumentar(cart, id) == cart
  {
    ShiftAbsent(cart, id, 1);
  }

  /** Increasing keeps one line per item and no empty line. */
  lemma AumentarKeepsWellFormed(cart: seq<CartLine>, id: int)
    requires WellFormed(cart)
    ensures WellFormed(Aumentar(cart, id))
  {
    if HasId(cart, id) {
      var j :| 0 <= j < |cart| && cart[j].item.id == id;
      AumentarAt(cart, id, j);
    } else {
      AumentarAbsent(cart, id);
    }
  }

  // ---------------------------------------------------------------------
  // diminuirQuantidade
  // ---------------------------------------------------------------------

  /**
   * Decreasing the line of `id`: a line above one loses one unit in place;
   * a line at one disappears and the others keep their order.
   */
  lemma DiminuirAt(cart: seq<CartLine>, id: int, j: int)
    requires WellFormed(cart)
    requires 0 <= j < |cart| && cart[j].item.id == id
    ensures cart[j].quantidade > 1 ==>
      Diminuir(cart, id) == cart[j := cart[j].(quantidade := cart[j].quantidade - 1)]
    ensures cart[j].quantidade == 1 ==> Diminuir(cart, id) == cart[..j] + cart[j + 1..]
  {
    var s := Shift(cart, id, -1);
    ShiftAt(cart, id, -1, j);
    if cart[j].quantidade > 1 {
      FilterKeepsAll(s, IsPositive);
    } else {
      FilterDropsOne(s, IsPositive, j);
      assert s[..j] == cart[..j] && s[j + 1..] == cart[j + 1..];
    }
  }

  /** Decreasing the line of `id` takes one unit out of the count and that line's price out of the total. */
  lemma DiminuirTotals(cart: seq<CartLine>, id: int, j: int)
    requires WellFormed(cart)
    requires 0 <= j < |cart| && cart[j].item.id == id
    ensures TotalItens(Diminuir(cart, id)) == TotalItens(cart) - 1
    ensures CalcularTotal(Diminuir(cart, id)) == CalcularTotal(cart) - cart[j].item.preco
  {
    DiminuirAt(cart, id, j);
    var r := Diminuir(cart, id);
    if cart[j].quantidade > 1 {
      var l := cart[j].(quantidade := cart[j].quantidade - 1);
      assert r == cart[j := l];
      SumUpdate(cart, j, l, LineCount);
      SumUpdate(cart, j, l, LineTotal);
    } else {
      assert r == cart[..j] + cart[j + 1..];
      SumRemoveAt(cart, j, LineCount);
      SumRemoveAt(cart, j, LineTotal);
    }
  }

  /** Decreasing an id that has no line leaves a well-formed cart unchanged. */
  lemma DiminuirAbsent(cart: seq<CartLine>, id: int)
    requires WellFormed(cart)
    requires !HasId(cart, id)
    ensures Diminuir(cart, id) == cart
  {
    ShiftAbsent(cart, id, -1);
    FilterKeepsAll(cart, IsPositive);
  }

  /** Decreasing keeps one line per item (and, by its contract, no line at zero or below). */
  lemma DiminuirKeepsWellFormed(cart: seq<CartLine>, id: int)
    requires WellFormed(cart)
    ensures WellFormed(Diminuir(cart, id))
  {
    var s := Shift(cart, id, -1);
    assert UniqueIds(s) by {
      forall i, j | 0 <= i < j < |s| ensures s[i].item.id != s[j].item.id {
        assert s[i].item.id == cart[i].item.id && s[j].item.id == cart[j].item.id;
      }
    }
    FilterUnique(s, IsPositive);
  }

  // ---------------------------------------------------------------------
  // removerDoCarrinho
  // ---------------------------------------------------------------------

  /** Removing the one line of `id` drops it, keeps the other lines in order, and takes its quantity and subtotal out of the sums. */
  lemma RemoverAt(cart: seq<CartLine>, id: int, j: int)
    requires UniqueIds(cart)
    requires 0 <= j < |cart| && cart[j].item.id == id
    ensures Remover(cart, id) == cart[..j] + cart[j + 1..]
    ensures TotalItens(Remover(cart, id)) == TotalItens(cart) - cart[j].quantidade
    ensures CalcularTotal(Remover(cart, id)) == CalcularTotal(cart) - LineTotal(cart[j])
  {
    forall k | 0 <= k < |cart| && k != j ensures NotId(id)(cart[k]) {
      if k < j { assert cart[k].item.id != cart[j].item.id; }
      else { assert cart[j].item.id != cart[k].item.id; }
    }
    FilterDropsOne(cart, NotId(id), j);
    SumRemoveAt(cart, j, LineCount);
    SumRemoveAt(cart, j, LineTotal);
  }

  /** Removing an id that has no line leaves the cart unchanged. */
  lemma RemoverAbsent(cart: seq<CartLine>, id: int)
    requires !HasId(cart, id)
    ensures Remover(cart, id) == cart
  {
    FilterKeepsAll(cart, NotId(id));
  }

  /** Removing keeps one line per item and no empty line. */
  lemma RemoverKeepsWellFormed(cart: seq<CartLine>, id: int)
    requires WellFormed(cart)
    ensures WellFormed(Remover(cart, id))
  {
    FilterUnique(cart, NotId(id));
    var r := Remover(cart, id);
    forall k | 0 <= k < |r| ensures r[k].quantidade >= 1 {
      assert r[k] in cart;
    }
  }
}
