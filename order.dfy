/**
 * The order being composed on the order screen (screens/PedidoScreen.js): a list of
 * lines merged by menu-item id, line removal with `splice`, the running total, loading
 * a saved order, starting a new one, and the payload sent when the order is saved.
 */
module Order {
  import opened Wrappers
  import Catalogue

  /**
   * One line of the order: the menu item's id, name and unit price (cents), the quantity,
   * and the kitchen notes a saved order may carry (lines added on screen have none).
   */
  datatype Line = Line(id: int, nombre: string, precio: int, cantidad: int, notas: Option<string>)

  /** The amount a line contributes to the total: `cantidad * precio`. */
  function Amount(l: Line): int
  {
    l.cantidad * l.precio
  }

  /** The order total: the sum of every line's amount, in order. */
  function SumLines(lines: seq<Line>): int
  {
    if lines == [] then 0 else SumLines(lines[..|lines| - 1]) + Amount(lines[|lines| - 1])
  }

  /** Lines with non-negative quantities and prices never make a negative total. */
  lemma {:induction false} SumLinesNonNegative(lines: seq<Line>)
    requires forall i :: 0 <= i < |lines| ==> lines[i].cantidad >= 0 && lines[i].precio >= 0
    ensures SumLines(lines) >= 0
  {
    if lines != [] {
      var last := lines[|lines| - 1];
      SumLinesNonNegative(lines[..|lines| - 1]);
      assert last.cantidad >= 0 && last.precio >= 0;
      assert Amount(last) >= 0;
    }
  }

  lemma {:induction false} SumLinesAppend(a: seq<Line>, b: seq<Line>)
    ensures SumLines(a + b) == SumLines(a) + SumLines(b)
  {
    if b == [] {
      assert a + b == a;
    } else {
      SumLinesAppend(a, b[..|b| - 1]);
      assert (a + b)[..|a + b| - 1] == a + b[..|b| - 1];
      assert (a + b)[|a + b| - 1] == b[|b| - 1];
    }
  }

  /** The total splits around any one line. */
  lemma SumLinesAround(lines: seq<Line>, k: nat)
    requires k < |lines|
    ensures SumLines(lines) == SumLines(lines[..k]) + Amount(lines[k]) + SumLines(lines[k + 1..])
  {
    assert lines == (lines[..k] + [lines[k]]) + lines[k + 1..];
    SumLinesAppend(lines[..k] + [lines[k]], lines[k + 1..]);
    SingleLineSum(lines[..k], lines[k]);
  }

  lemma SingleLineSum(before: seq<Line>, l: Line)
    ensures SumLines(before + [l]) == SumLines(before) + Amount(l)
  {
  }

  /** Replacing one line changes the total by the difference of the two lines' amounts. */
  lemma SumLinesUpdate(lines: seq<Line>, k: nat, l: Line)
    requires k < |lines|
    ensures SumLines(lines[k := l]) == SumLines(lines) - Amount(lines[k]) + Amount(l)
  {
    var updated := lines[k := l];
    assert updated[..k] == lines[..k] && updated[k + 1..] == lines[k + 1..];
    SumLinesAround(lines, k);
    SumLinesAround(updated, k);
  }

  // ---------------------------------------------------------------------------
  // Adding a menu item (`addItemToPedido`)
  // ---------------------------------------------------------------------------

  /** Lines are matched on the menu-item id alone; notes play no part. */
  predicate HasId(lines: seq<Line>, id: int)
  {
    exists k :: 0 <= k < |lines| && lines[k].id == id
  }

  /** Index of the first line with this id, or `|lines|` when there is none. */
  function FirstLineWith(lines: seq<Line>, id: int): (k: nat)
    ensures k <= |lines|
    ensures k < |lines| ==> lines[k].id == id
    ensures forall j :: 0 <= j < k ==> lines[j].id != id
  {
    if lines == [] then 0
    else if lines[0].id == id then 0
    else 1 + FirstLineWith(lines[1..], id)
  }

  /** The line a menu item starts with: quantity 1, no notes. */
  function NewLine(m: Catalogue.MenuItem): Line
  {
    Line(m.id, m.nombre, m.precio, 1, None)
  }

  /** The order after tapping menu item `m`: bump the first line with its id, or append it. */
  function AddItem(lines: seq<Line>, m: Catalogue.MenuItem): (r: seq<Line>)
    ensures |r| == if HasId(lines, m.id) then |lines| else |lines| + 1
    ensures forall i :: 0 <= i < |lines| ==> r[i].id == lines[i].id
    ensures HasId(r, m.id)
  {
    var k := FirstLineWith(lines, m.id);
    if k < |lines| then lines[k := lines[k].(cantidad := lines[k].cantidad + 1)]
    else
      var r := lines + [NewLine(m)];
      assert r[|lines|].id == m.id;
      r
  }

  /** `findIndex(p => p.item.id === id)`: the first matching position, or -1. */
  method FindLine(lines: seq<Line>, id: int) returns (k: int)
    ensures -1 <= k < |lines|
    ensures k == -1 <==> !HasId(lines, id)
    ensures k >= 0 ==> lines[k].id == id && forall j :: 0 <= j < k ==> lines[j].id != id
  {
    var i := 0;
    while i < |lines|
      invariant 0 <= i <= |lines|
      invariant forall j :: 0 <= j < i ==> lines[j].id != id
    {
      if lines[i].id == id {
        return i;
      }
      i := i + 1;
    }
    return -1;
  }

  /** An item already on the order: one more of it, same number of lines, nothing else changes. */
  lemma AddExistingItem(lines: seq<Line>, m: Catalogue.MenuItem)
    requires HasId(lines, m.id)
    ensures var r := AddItem(lines, m);
      var k := FirstLineWith(lines, m.id);
      && k < |lines| && |r| == |lines|
      && r[k].cantidad == lines[k].cantidad + 1
      && r[k] == lines[k].(cantidad := lines[k].cantidad + 1)
      && (forall j :: 0 <= j < |lines| && j != k ==> r[j] == lines[j])
  {
  }

  /** A new item: appended at the end with quantity 1, earlier lines untouched and in order. */
  lemma AddNewItem(lines: seq<Line>, m: Catalogue.MenuItem)
    requires !HasId(lines, m.id)
    ensures AddItem(lines, m) == lines + [Line(m.id, m.nombre, m.precio, 1, None)]
    ensures |AddItem(lines, m)| == |lines| + 1
  {
  }

  /** Every line has a different menu-item id. */
  predicate UniqueIds(lines: seq<Line>)
  {
    forall i, j :: 0 <= i < j < |lines| ==> lines[i].id != lines[j].id
  }

  /** Merge-on-match keeps one line per menu item. */
  lemma AddKeepsIdsUnique(lines: seq<Line>, m: Catalogue.MenuItem)
    requires UniqueIds(lines)
    ensures UniqueIds(AddItem(lines, m))
  {
  }

  /**
   * Adding raises the total by one unit price: the price kept on the matched line (which
   * for a loaded order is the saved price), or the menu price for a new line.
   */
  lemma AddItemTotal(lines: seq<Line>, m: Catalogue.MenuItem)
    ensures HasId(lines, m.id) ==>
      SumLines(AddItem(lines, m)) == SumLines(lines) + lines[FirstLineWith(lines, m.id)].precio
    ensures !HasId(lines, m.id) ==> SumLines(AddItem(lines, m)) == SumLines(lines) + m.precio
  {
    var k := FirstLineWith(lines, m.id);
    if k < |lines| {
      var l := lines[k];
      SumLinesUpdate(lines, k, l.(cantidad := l.cantidad + 1));
      assert Amount(l.(cantidad := l.cantidad + 1)) == Amount(l) + l.precio;
    } else {
      assert !HasId(lines, m.id);
      SumLinesAppend(lines, [NewLine(m)]);
      assert SumLines([NewLine(m)]) == m.precio;
    }
  }

  // ---------------------------------------------------------------------------
  // Removing a line (`splice(index, 1)`)
  // ---------------------------------------------------------------------------

  /** The position `splice` starts at: negative indices count from the end, clamped to the list. */
  function SpliceStart(len: nat, index: int): (start: nat)
    ensures start <= len
    ensures 0 <= index < len ==> start == index
    ensures index >= len ==> start == len
    ensures -(len as int) <= index < 0 ==> start == len + index
    ensures index < -(len as int) ==> start == 0
  {
    if index < 0 then (if len + index < 0 then 0 else len + index)
    else if index < len then index else len
  }

  /** `updatedPedido.splice(index, 1)` on a copy of the lines. */
  function RemoveAt(lines: seq<Line>, index: int): (r: seq<Line>)
    ensures 0 <= index < |lines| ==> r == lines[..index] + lines[index + 1..]
    ensures index >= |lines| ==> r == lines
    ensures lines != [] && index < 0 ==> |r| == |lines| - 1
    ensures var s := SpliceStart(|lines|, index);
      s < |lines| ==> r == lines[..s] + lines[s + 1..]
  {
    var start := SpliceStart(|lines|, index);
    if start < |lines| then lines[..start] + lines[start + 1..] else lines
  }

  /** Removing a line takes exactly that line's amount off the total. */
  lemma RemoveAtTotal(lines: seq<Line>, index: nat)
    requires index < |lines|
    ensures SumLines(RemoveAt(lines, index)) == SumLines(lines) - Amount(lines[index])
  {
    SumLinesAround(lines, index);
    assert RemoveAt(lines, index) == lines[..index] + lines[index + 1..];
    SumLinesAppend(lines[..index], lines[index + 1..]);
  }

  /** Removing a line keeps the ids unique. */
  lemma RemoveKeepsIdsUnique(lines: seq<Line>, index: int)
    requires UniqueIds(lines)
    ensures UniqueIds(RemoveAt(lines, index))
  {
  }

  // ---------------------------------------------------------------------------
  // The running total (the effect on `pedidoActual`)
  // ---------------------------------------------------------------------------

  /** `let sum = 0; lines.forEach(l => sum += l.cantidad * l.item.precio)` */
  method ComputeTotal(lines: seq<Line>) returns (sum: int)
    ensures sum == SumLines(lines)
  {
    sum := 0;
    for i := 0 to |lines|
      invariant sum == SumLines(lines[..i])
    {
      assert lines[..i + 1][..i] == lines[..i];
      sum := sum + lines[i].cantidad * lines[i].precio;
    }
    assert lines[..|lines|] == lines;
  }

  // ---------------------------------------------------------------------------
  // Loading a saved order (`detallePedido.items.map(...)`)
  // ---------------------------------------------------------------------------

  /** A line of a saved order as the order service returns it. */
  datatype SavedItem = SavedItem(
    menuItemId: int,
    nombre: string,
    precioUnitario: int,
    cantidad: int,
    notas: Option<string>)

  /** A saved order: its id, its lines and the total the server computed. */
  datatype SavedOrder = SavedOrder(id: int, items: seq<SavedItem>, total: int)

  function ToLine(it: SavedItem): Line
  {
    Line(it.menuItemId, it.nombre, it.precioUnitario, it.cantidad, it.notas)
  }

  function Hydrate(items: seq<SavedItem>): (lines: seq<Line>)
    ensures |lines| == |items|
    ensures forall i :: 0 <= i < |items| ==>
      && lines[i].id == items[i].menuItemId
      && lines[i].nombre == items[i].nombre
      && lines[i].precio == items[i].precioUnitario
      && lines[i].cantidad == items[i].cantidad
      && lines[i].notas == items[i].notas
  {
    seq(|items|, i requires 0 <= i < |items| => ToLine(items[i]))
  }

  /** The value of a saved order at its saved prices. */
  function SavedValue(items: seq<SavedItem>): int
  {
    if items == [] then 0 else items[0].cantidad * items[0].precioUnitario + SavedValue(items[1..])
  }

  /** A loaded order totals the saved lines at their saved unit prices. */
  lemma {:induction false} HydrateTotal(items: seq<SavedItem>)
    ensures SumLines(Hydrate(items)) == SavedValue(items)
  {
    if items != [] {
      HydrateTotal(items[1..]);
      assert Hydrate(items) == [ToLine(items[0])] + Hydrate(items[1..]);
      SumLinesAppend([ToLine(items[0])], Hydrate(items[1..]));
      assert SumLines([ToLine(items[0])]) == Amount(ToLine(items[0]));
    }
  }

  // ---------------------------------------------------------------------------
  // Saving (`guardarPedido`)
  // ---------------------------------------------------------------------------

  /** The table label the takeaway flow uses in place of a table number. */
  const TakeawayLabel := "Para llevar"

  datatype SaveError = EmptyOrder

  /** The body of the "create order" request. */
  datatype OrderPayload = OrderPayload(
    mesaId: int,
    notas: string,
    esParaLlevar: bool,
    nombreCliente: Option<string>,
    telefonoCliente: Option<string>,
    items: seq<Line>)

  /** An empty order is refused before any payload exists; otherwise the lines go out as they are. */
  function SavePayload(mesaId: int, mesaNumero: string, lines: seq<Line>): (r: Result<OrderPayload, SaveError>)
    ensures r.Failure? <==> lines == []
    ensures r.Success? ==>
      && r.value.items == lines
      && r.value.mesaId == mesaId
      && r.value.notas == ""
      && r.value.telefonoCliente == None
      && (r.value.esParaLlevar <==> mesaNumero == TakeawayLabel)
      && (r.value.nombreCliente.Some? <==> r.value.esParaLlevar)
      && (r.value.esParaLlevar ==> r.value.nombreCliente == Some("Cliente"))
  {
    if |lines| == 0 then Failure(EmptyOrder)
    else
      var takeaway := mesaNumero == TakeawayLabel;
      Success(OrderPayload(mesaId, "", takeaway, if takeaway then Some("Cliente") else None, None, lines))
  }

  // ---------------------------------------------------------------------------
  // The screen's order state
  // ---------------------------------------------------------------------------

  /**
   * The order screen's state: the current lines (`pedidoActual`), the displayed total
   * (`total`) and the id of the saved order being edited, if any (`pedidoSeleccionado`).
   * After every change the total is recomputed from the lines.
   */
  class OrderEditor {
    var lines: seq<Line>
    var total: int
    var selected: Option<int>

    ghost predicate Valid()
      reads this
    {
      total == SumLines(lines)
    }

    constructor ()
      ensures Valid()
      ensures lines == [] && total == 0 && selected == None
    {
      lines := [];
      total := 0;
      selected := None;
    }

    /** The total effect: runs after every change to the lines. */
    method RefreshTotal()
      modifies this`total
      ensures Valid()
      ensures total == SumLines(lines)
    {
      total := ComputeTotal(lines);
    }

    /** `addItemToPedido(m)` */
    method Add(m: Catalogue.MenuItem)
      modifies this
      ensures Valid()
      ensures lines == AddItem(old(lines), m)
      ensures selected == old(selected)
    {
      var k := FindLine(lines, m.id);
      if k >= 0 {
        lines := lines[k := lines[k].(cantidad := lines[k].cantidad + 1)];
      } else {
        lines := lines + [NewLine(m)];
      }
      RefreshTotal();
    }

    /** `removeItemFromPedido(index)` */
    method Remove(index: int)
      modifies this
      ensures Valid()
      ensures lines == RemoveAt(old(lines), index)
      ensures selected == old(selected)
    {
      lines := RemoveAt(lines, index);
      RefreshTotal();
    }

    /** `seleccionarPedido` (and the initial load of an occupied table) once the order is fetched. */
    method Load(saved: SavedOrder)
      modifies this
      ensures Valid()
      ensures lines == Hydrate(saved.items)
      ensures selected == Some(saved.id)
    {
      selected := Some(saved.id);
      lines := Hydrate(saved.items);
      total := saved.total;
      RefreshTotal();
    }

    /** `crearNuevoPedido` */
    method Reset()
      modifies this
      ensures Valid()
      ensures lines == [] && total == 0 && selected == None
    {
      selected := None;
      lines := [];
      total := 0;
    }
  }
}
