/** Keyboards attached to an outgoing message, and the row-major layout of
    a flat list of buttons into rows of a fixed number of columns. */
module Keyboard {
  import opened Values

  /** An inline button: a URL button, or a callback button carrying a token. */
  datatype InlineButton = InlineButton(text: string, url: Option<string>, callbackData: Option<string>)

  /** A reply-keyboard button: it only has a label. */
  datatype KeyboardButton = KeyboardButton(text: string)

  /** The reply markup of a message. `None` options of a reply keyboard
      leave the field at whatever the keyboard constructor of the bot library
      sets; `RawMarkup` is a caller-supplied markup passed on unchanged. */
  datatype Markup =
    | NoMarkup
    | InlineKeyboard(inlineRows: seq<seq<InlineButton>>)
    | ReplyKeyboard(rows: seq<seq<KeyboardButton>>, resize: Option<bool>, oneTime: Option<bool>)
    | RawMarkup(fields: map<string, Value>)

  /** The cells, `width` to a row, in order; the last row holds the rest. */
  function Chunk<T>(cells: seq<T>, width: nat): seq<seq<T>>
    requires width > 0
    decreases |cells|
  {
    if |cells| == 0 then []
    else if |cells| <= width then [cells]
    else [cells[..width]] + Chunk(cells[width..], width)
  }

  function Flatten<T>(rows: seq<seq<T>>): seq<T>
  {
    if rows == [] then [] else rows[0] + Flatten(rows[1..])
  }

  lemma {:induction false} FlattenAppend<T>(a: seq<seq<T>>, b: seq<seq<T>>)
    ensures Flatten(a + b) == Flatten(a) + Flatten(b)
  {
    if a == [] {
      assert a + b == b;
    } else {
      assert (a + b)[0] == a[0];
      assert (a + b)[1..] == a[1..] + b;
      FlattenAppend(a[1..], b);
    }
  }

  /** Reading the rows left to right, top to bottom gives back the cells. */
  lemma {:induction false} ChunkFlatten<T>(cells: seq<T>, width: nat)
    requires width > 0
    ensures Flatten(Chunk(cells, width)) == cells
  {
    if |cells| > width {
      ChunkFlatten(cells[width..], width);
      assert cells[..width] + cells[width..] == cells;
    } else if |cells| > 0 {
      assert [cells][1..] == [];
    }
  }

  /** Every row but the last is full. */
  lemma {:induction false} ChunkFullRows<T>(cells: seq<T>, width: nat, r: nat)
    requires width > 0 && r + 1 < |Chunk(cells, width)|
    ensures |Chunk(cells, width)[r]| == width
  {
    if r > 0 {
      ChunkFullRows(cells[width..], width, r - 1);
    }
  }

  /** The last row holds what the full rows leave, 1 to `width` cells. */
  lemma {:induction false} ChunkLastRow<T>(cells: seq<T>, width: nat)
    requires width > 0 && |cells| > 0
    ensures var rows := Chunk(cells, width);
      && |rows| > 0
      && |rows[|rows| - 1]| == |cells| - width * (|rows| - 1)
      && 1 <= |rows[|rows| - 1]| <= width
  {
    if |cells| > width {
      var rest := Chunk(cells[width..], width);
      ChunkLastRow(cells[width..], width);
      assert Chunk(cells, width) == [cells[..width]] + rest;
      assert width * |rest| == width * (|rest| - 1) + width;
    }
  }

  /** Every row but the last is full; the last holds the remaining 1 to
      `width` cells. */
  lemma ChunkShape<T>(cells: seq<T>, width: nat)
    requires width > 0
    ensures var rows := Chunk(cells, width);
      && (|cells| == 0 <==> |rows| == 0)
      && (forall r :: 0 <= r < |rows| - 1 ==> |rows[r]| == width)
      && (|cells| > 0 ==> |rows[|rows| - 1]| == |cells| - width * (|rows| - 1))
      && (|cells| > 0 ==> 1 <= |rows[|rows| - 1]| <= width)
  {
    var rows := Chunk(cells, width);
    forall r | 0 <= r < |rows| - 1
      ensures |rows[r]| == width
    {
      ChunkFullRows(cells, width, r);
    }
    if |cells| > 0 {
      ChunkLastRow(cells, width);
    }
  }

  /** A non-zero multiple of `width` is at least `width` away from zero. */
  lemma MultipleAwayFromZero(d: int, width: int)
    requires width > 0
    ensures d == 0 || d * width >= width || d * width <= -width
  {
    if d >= 1 {
      assert d * width == (d - 1) * width + width;
    } else if d <= -1 {
      assert d * width == (d + 1) * width - width;
    }
  }

  /** `x` is `q` whole widths and a remainder below `width`, so `x / width`
      is `q`. */
  lemma DivUnique(x: int, width: int, q: int, r: int)
    requires width > 0 && 0 <= r < width && x == q * width + r
    ensures x / width == q
  {
    var q', r' := x / width, x % width;
    assert (q - q') * width == r' - r;
    MultipleAwayFromZero(q - q', width);
  }

  /** The number of rows is the number of cells divided by `width`, rounded
      up. */
  lemma RowCount<T>(cells: seq<T>, width: nat)
    requires width > 0
    ensures |Chunk(cells, width)| == (|cells| + width - 1) / width
  {
    ChunkShape(cells, width);
    var k := |Chunk(cells, width)|;
    if |cells| == 0 {
      DivUnique(width - 1, width, 0, width - 1);
    } else {
      var last := |cells| - width * (k - 1);
      assert |cells| + width - 1 == (k - 1) * width + last + width - 1;
      DivUnique(|cells| + width - 1, width, k, last - 1);
    }
  }

  /** Cell `c` of row `r` is cell `r * width + c` of the input. */
  lemma {:induction false} ChunkCell<T>(cells: seq<T>, width: nat, r: nat, c: nat)
    requires width > 0
    requires r < |Chunk(cells, width)| && c < |Chunk(cells, width)[r]|
    ensures r * width + c < |cells|
    ensures Chunk(cells, width)[r][c] == cells[r * width + c]
  {
    if r > 0 {
      var rest := cells[width..];
      assert |cells| > width;
      assert Chunk(cells, width)[r] == Chunk(rest, width)[r - 1];
      ChunkCell(rest, width, r - 1, c);
      assert (r - 1) * width + c + width == r * width + c;
      assert rest[(r - 1) * width + c] == cells[r * width + c];
    } else {
      assert |cells| > width ==> Chunk(cells, width)[0] == cells[..width];
    }
  }

  /** Laying out the cells from index `i` on takes the next row of up to
      `width` cells, then lays out the rest. */
  lemma ChunkFrom<T>(cells: seq<T>, width: nat, i: nat)
    requires width > 0 && i < |cells|
    ensures var stop := if i + width < |cells| then i + width else |cells|;
      Chunk(cells[i..], width) == [cells[i..stop]] + Chunk(cells[stop..], width)
  {
    var rest := cells[i..];
    if |rest| <= width {
      assert rest == cells[i..|cells|];
      assert cells[|cells|..] == [];
    } else {
      assert rest[..width] == cells[i..i + width];
      assert rest[width..] == cells[i + width..];
    }
  }

  /** Appending the next row keeps `rows` a prefix of the layout. */
  lemma LayoutStep<T>(cells: seq<T>, width: nat, i: nat, rows: seq<seq<T>>, row: seq<T>)
    requires width > 0 && i < |cells|
    requires rows + Chunk(cells[i..], width) == Chunk(cells, width)
    requires row == cells[i..if i + width < |cells| then i + width else |cells|]
    ensures var stop := if i + width < |cells| then i + width else |cells|;
      (rows + [row]) + Chunk(cells[stop..], width) == Chunk(cells, width)
  {
    var stop := if i + width < |cells| then i + width else |cells|;
    ChunkFrom(cells, width, i);
    AppendAssociative(rows, [row], Chunk(cells[stop..], width));
  }

  /** The layout loop of buildInlineKeyboardMarkup and
      buildReplyKeyboardMarkup: `i` advances by `width` through the cells,
      and the inner loop takes up to `width` of them into a new row. */
  method LayoutRows<T>(cells: seq<T>, width: int) returns (rows: seq<seq<T>>)
    requires width > 0
    ensures rows == Chunk(cells, width)
  {
    rows := [];
    var i := 0;
    while i < |cells|
      invariant 0 <= i
      invariant var done := if i < |cells| then i else |cells|;
        rows + Chunk(cells[done..], width) == Chunk(cells, width)
      decreases |cells| - i
    {
      var row: seq<T> := [];
      var j := 0;
      while j < width && i + j < |cells|
        invariant 0 <= j <= width && i + j <= |cells|
        invariant row == cells[i..i + j]
      {
        row := row + [cells[i + j]];
        j := j + 1;
      }
      LayoutStep(cells, width, i, rows, row);
      rows := rows + [row];
      i := i + width;
    }
    assert cells[|cells|..] == [];
  }

  /** Seven labels in three columns make rows of 3, 3 and 1; six make two
      full rows; none make no rows. */
  lemma LayoutExamples()
    ensures var rows := Chunk(["a", "b", "c", "d", "e", "f", "g"], 3);
      |rows| == 3 && |rows[0]| == 3 && |rows[1]| == 3 && |rows[2]| == 1
    ensures var rows := Chunk(["a", "b", "c", "d", "e", "f"], 3);
      |rows| == 2 && |rows[0]| == 3 && |rows[1]| == 3
    ensures var none: seq<string> := []; Chunk(none, 3) == []
  {
    RowCount(["a", "b", "c", "d", "e", "f", "g"], 3);
    ChunkShape(["a", "b", "c", "d", "e", "f", "g"], 3);
    RowCount(["a", "b", "c", "d", "e", "f"], 3);
    ChunkShape(["a", "b", "c", "d", "e", "f"], 3);
  }
}
