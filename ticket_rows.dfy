/**
 * The item rows of the pre-ticket (screens/ResumenTicketScreen.js, `imprimirTicket`):
 * the quantity, the unit price and the line amount each left-padded to a minimum width (never
 * truncated), and the name cut to 20 and padded to exactly 24, one row per item, joined with
 * newlines. Amounts are integer cents rendered with two decimals.
 */
module TicketRows {
  import Text

  /** A line of the bill summary returned by the close-bill call; amounts in cents. */
  datatype SummaryItem = SummaryItem(nombre: string, cantidad: int, precioUnitario: int, subtotal: int)

  const NameLimit := 20
  const NameWidth := 24

  /** `nombre.length > 20 ? nombre.slice(0, 20) : nombre` */
  function TruncateName(nombre: string): (r: string)
    ensures |r| <= NameLimit
    ensures |nombre| <= NameLimit ==> r == nombre
    ensures |nombre| > NameLimit ==> |r| == NameLimit
    ensures r == nombre[..|r|]
  {
    if |nombre| > NameLimit then nombre[..NameLimit] else nombre
  }

  /** `nombre.padEnd(24)` of the truncated name: always exactly 24 characters. */
  function NameColumn(nombre: string): (col: string)
    ensures |col| == NameWidth
    ensures var t := TruncateName(nombre);
      col[..|t|] == t && forall i :: |t| <= i < NameWidth ==> col[i] == ' '
  {
    Text.PadEnd(TruncateName(nombre), NameWidth)
  }

  function Abs(x: int): nat
  {
    if x < 0 then -x else x
  }

  /** `x.toFixed(2)` for an amount of `c` cents. */
  function FormatCents(c: int): (r: string)
    ensures 4 <= |r|
    ensures forall i :: 0 <= i < |r| ==> r[i] == '-' || r[i] == '.' || Text.IsDigit(r[i])
  {
    var a := Abs(c);
    var frac := a % 100;
    (if c < 0 then "-" else "") + Text.NatToDecimal(a / 100) + "." +
      [Text.DigitChar(frac / 10), Text.DigitChar(frac % 10)]
  }

  /** A string of the shape `[-]digits.dd`. */
  predicate IsAmountText(s: string)
  {
    var k := if |s| > 0 && s[0] == '-' then 1 else 0;
    && k + 4 <= |s|
    && s[|s| - 3] == '.'
    && (forall i :: k <= i < |s| - 3 ==> Text.IsDigit(s[i]))
    && Text.IsDigit(s[|s| - 2]) && Text.IsDigit(s[|s| - 1])
  }

  /** The number of cents an amount text denotes. */
  function AmountValue(s: string): int
    requires IsAmountText(s)
  {
    var negative := s[0] == '-';
    var k := if negative then 1 else 0;
    var magnitude := Text.DecimalValue(s[k..|s| - 3]) * 100 + Text.DecimalValue(s[|s| - 2..]);
    if negative then -magnitude else magnitude
  }

  /** The two-decimal rendering is exact: reading it back gives the same number of cents. */
  lemma FormatCentsRoundTrip(c: int)
    ensures IsAmountText(FormatCents(c))
    ensures AmountValue(FormatCents(c)) == c
    ensures var r := FormatCents(c);
      var k := if c < 0 then 1 else 0;
      && (r[0] == '-' <==> c < 0)
      && r[k..|r| - 3] == Text.NatToDecimal(Abs(c) / 100)
  {
    var a := Abs(c);
    var sign: string := if c < 0 then "-" else "";
    var whole := Text.NatToDecimal(a / 100);
    var frac := a % 100;
    var cents := [Text.DigitChar(frac / 10), Text.DigitChar(frac % 10)];
    var r := FormatCents(c);
    assert r == sign + whole + "." + cents;
    var k := |sign|;
    assert whole[0] != '-';
    assert r[k..|r| - 3] == whole;
    assert r[|r| - 2..] == cents;
    Text.DecimalRoundTrip(a / 100);
    TwoDigitValue(frac);
  }

  lemma TwoDigitValue(frac: nat)
    requires frac < 100
    ensures Text.DecimalValue([Text.DigitChar(frac / 10), Text.DigitChar(frac % 10)]) == frac
  {
    var cents := [Text.DigitChar(frac / 10), Text.DigitChar(frac % 10)];
    assert cents[..1][..0] == [];
    assert Text.DecimalValue(cents[..1]) == frac / 10;
    assert Text.DecimalValue(cents) == Text.DecimalValue(cents[..1]) * 10 + frac % 10;
  }

  /** `${cantidad}  ${nombre} ${precio} ${importe}` */
  function Columns(q: string, name: string, price: string, amount: string): (row: string)
    ensures |row| == |q| + 2 + |name| + 1 + |price| + 1 + |amount|
  {
    q + "  " + name + " " + price + " " + amount
  }

  /** Where each field of a row starts and ends. */
  lemma ColumnsSlices(q: string, name: string, price: string, amount: string)
    ensures var row := Columns(q, name, price, amount);
      && |row| == |q| + 2 + |name| + 1 + |price| + 1 + |amount|
      && row[..|q|] == q
      && row[|q|..|q| + 2] == "  "
      && row[|q| + 2..|q| + 2 + |name|] == name
      && row[|row| - |amount|..] == amount
  {
  }

  /** `field` occurs in `row` at `start`, with a space just before it and just after it. */
  predicate FieldBetweenSpaces(row: string, start: int, field: string)
  {
    && 1 <= start
    && start + |field| < |row|
    && row[start - 1] == ' '
    && row[start..start + |field|] == field
    && row[start + |field|] == ' '
  }

  /** The price field sits between two single spaces, after the name. */
  lemma ColumnsPriceSlice(q: string, name: string, price: string, amount: string)
    ensures FieldBetweenSpaces(Columns(q, name, price, amount), |q| + 2 + |name| + 1, price)
  {
    var left := q + "  " + name + " ";
    var row := Columns(q, name, price, amount);
    assert row == left + price + " " + amount;
    assert row[|left|..|left| + |price|] == price;
  }

  /** The quantity field: `cantidad.toString().padStart(2, ' ')`. */
  function QuantityField(item: SummaryItem): string
  {
    Text.PadStart(Text.IntToDecimal(item.cantidad), 2)
  }

  /** The unit-price field: the unit price to two decimals, `padStart(6, ' ')`. */
  function PriceField(item: SummaryItem): string
  {
    Text.PadStart(FormatCents(item.precioUnitario), 6)
  }

  /** The line-amount field: `subtotal.toFixed(2).padStart(7, ' ')`. */
  function AmountField(item: SummaryItem): string
  {
    Text.PadStart(FormatCents(item.subtotal), 7)
  }

  /** The narrowest a row can be: 2 + 2 + 24 + 1 + 6 + 1 + 7 characters. */
  const RowMinWidth := 43

  /** One receipt row: `${cantidad}  ${nombre.padEnd(24)} ${precio} ${importe}`. */
  function Row(item: SummaryItem): (r: string)
    ensures |r| >= RowMinWidth
  {
    Columns(QuantityField(item), NameColumn(item.nombre), PriceField(item), AmountField(item))
  }

  /**
   * The left part of a row: the quantity right-aligned in at least two places, two spaces,
   * then the 24-wide name column.
   */
  lemma RowLeftColumns(item: SummaryItem)
    ensures var row := Row(item);
      var q := QuantityField(item);
      && |q| >= 2
      && |row| >= |q| + 2 + NameWidth
      && row[..|q|] == q
      && row[|q|..|q| + 2] == "  "
      && row[|q| + 2..|q| + 2 + NameWidth] == NameColumn(item.nombre)
  {
    ColumnsSlices(QuantityField(item), NameColumn(item.nombre), PriceField(item), AmountField(item));
  }

  /**
   * The end of a row: the line amount right-aligned in at least seven places, which reads
   * back as the item's subtotal once the padding is skipped.
   */
  lemma RowAmountColumn(item: SummaryItem)
    ensures var row := Row(item);
      var amount := AmountField(item);
      var text := FormatCents(item.subtotal);
      && 7 <= |amount| <= |row|
      && row[|row| - |amount|..] == amount
      && (forall i :: 0 <= i < |amount| - |text| ==> amount[i] == ' ')
      && amount[|amount| - |text|..] == text
      && IsAmountText(text)
      && AmountValue(text) == item.subtotal
  {
    ColumnsSlices(QuantityField(item), NameColumn(item.nombre), PriceField(item), AmountField(item));
    FormatCentsRoundTrip(item.subtotal);
  }

  /**
   * The middle of a row: one space after the name column, the unit-price field, then one
   * space. What the field holds is stated by `PriceFieldValue`.
   */
  lemma RowPriceColumn(item: SummaryItem)
    ensures FieldBetweenSpaces(Row(item), |QuantityField(item)| + 2 + NameWidth + 1, PriceField(item))
  {
    ColumnsPriceSlice(QuantityField(item), NameColumn(item.nombre), PriceField(item), AmountField(item));
  }

  /** The unit-price field: the unit price to two decimals, right-aligned in at least six places. */
  lemma PriceFieldValue(item: SummaryItem)
    ensures var price := PriceField(item);
      var text := FormatCents(item.precioUnitario);
      && 6 <= |price|
      && (forall i :: 0 <= i < |price| - |text| ==> price[i] == ' ')
      && price[|price| - |text|..] == text
      && IsAmountText(text)
      && AmountValue(text) == item.precioUnitario
  {
    PaddedAmount(item.precioUnitario, 6);
  }

  /** An amount left-padded to `width`: spaces, then the two-decimal text, which reads back. */
  lemma PaddedAmount(c: int, width: nat)
    ensures var field := Text.PadStart(FormatCents(c), width);
      var text := FormatCents(c);
      && width <= |field|
      && (forall i :: 0 <= i < |field| - |text| ==> field[i] == ' ')
      && field[|field| - |text|..] == text
      && IsAmountText(text)
      && AmountValue(text) == c
  {
    FormatCentsRoundTrip(c);
  }

  /** Quantities from -9 to 99 render in at most two characters. */
  lemma ShortQuantity(x: int)
    requires -9 <= x <= 99
    ensures |Text.IntToDecimal(x)| <= 2
  {
    if x >= 10 {
      assert |Text.NatToDecimal(x / 10)| == 1;
    } else if x < 0 {
      assert |Text.NatToDecimal(-x)| == 1;
    }
  }

  /** Quantities of one or two characters keep the name column at the same place in every row. */
  lemma NameColumnAligned(item: SummaryItem)
    requires -9 <= item.cantidad <= 99
    ensures Row(item)[4..4 + NameWidth] == NameColumn(item.nombre)
  {
    ShortQuantity(item.cantidad);
    assert |QuantityField(item)| == 2;
    RowLeftColumns(item);
  }

  /** A row holds a newline only if the item name does. */
  lemma RowHasNoNewline(item: SummaryItem)
    requires '\n' !in item.nombre
    ensures '\n' !in Row(item)
  {
    NameColumnNoNewline(item.nombre);
    NoNewlineInNumbers(item.cantidad);
    NoNewlineInAmount(item.precioUnitario);
    NoNewlineInAmount(item.subtotal);
    ColumnsNoNewline(QuantityField(item), NameColumn(item.nombre), PriceField(item), AmountField(item));
  }

  /** The name column adds only spaces to a prefix of the name. */
  lemma NameColumnNoNewline(nombre: string)
    requires '\n' !in nombre
    ensures '\n' !in NameColumn(nombre)
  {
    var t := TruncateName(nombre);
    var name := NameColumn(nombre);
    forall i | 0 <= i < |name| ensures name[i] != '\n' {
      if i < |t| {
        assert name[i] == t[i] == nombre[i];
      }
    }
  }

  /** The row template adds only spaces between its four fields. */
  lemma ColumnsNoNewline(q: string, name: string, price: string, amount: string)
    requires '\n' !in q && '\n' !in name && '\n' !in price && '\n' !in amount
    ensures '\n' !in Columns(q, name, price, amount)
  {
  }

  lemma NoNewlineInNumbers(x: int)
    ensures '\n' !in Text.PadStart(Text.IntToDecimal(x), 2)
  {
    NoNewlineInPadded(Text.IntToDecimal(x), 2);
  }

  lemma NoNewlineInAmount(c: int)
    ensures '\n' !in Text.PadStart(FormatCents(c), 7)
    ensures '\n' !in Text.PadStart(FormatCents(c), 6)
  {
    var t := FormatCents(c);
    forall i | 0 <= i < |t| ensures t[i] != '\n' {
      assert t[i] == '-' || t[i] == '.' || Text.IsDigit(t[i]);
    }
    NoNewlineInPadded(t, 7);
    NoNewlineInPadded(t, 6);
  }

  /** Left padding adds only spaces. */
  lemma NoNewlineInPadded(t: string, width: nat)
    requires '\n' !in t
    ensures '\n' !in Text.PadStart(t, width)
  {
    var r := Text.PadStart(t, width);
    var k := |r| - |t|;
    forall i | 0 <= i < |r| ensures r[i] != '\n' {
      if i >= k {
        assert r[i] == r[k..][i - k] == t[i - k];
      }
    }
  }

  /** The rows of the ticket body: `items.map(row).join('\n')`. */
  function Rows(items: seq<SummaryItem>): (r: string)
    ensures |r| >= (RowMinWidth + 1) * |items| - 1
  {
    var rows := seq(|items|, i requires 0 <= i < |items| => Row(items[i]));
    JoinLength(rows, '\n');
    Text.Join(rows, '\n')
  }

  /** Rows at least `RowMinWidth` wide, joined by a one-character separator. */
  lemma {:induction false} JoinLength(rows: seq<string>, sep: char)
    requires forall i :: 0 <= i < |rows| ==> |rows[i]| >= RowMinWidth
    ensures |Text.Join(rows, sep)| >= (RowMinWidth + 1) * |rows| - 1
  {
    if |rows| > 1 {
      JoinLength(rows[1..], sep);
    }
  }

  /**
   * One printed line per item, in item order: when no name holds a newline, splitting the
   * ticket body on newlines gives back each item's row.
   */
  lemma RowsOnePerItem(items: seq<SummaryItem>)
    requires 1 <= |items|
    requires forall i :: 0 <= i < |items| ==> '\n' !in items[i].nombre
    ensures var lines := Text.Split(Rows(items), '\n');
      |lines| == |items| && forall i :: 0 <= i < |items| ==> lines[i] == Row(items[i])
  {
    var rows := seq(|items|, i requires 0 <= i < |items| => Row(items[i]));
    forall i | 0 <= i < |rows| ensures '\n' !in rows[i] {
      RowHasNoNewline(items[i]);
    }
    Text.SplitJoin(rows, '\n');
  }
}
