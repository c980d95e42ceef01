/** aiogram's `InlineKeyboardBuilder` as the menus use it: `add` one button
    at a time, `adjust` the buttons into rows of one width, append whole
    `row`s. A button carries either a navigation token or the inert
    `"no_action"` data. */
module KeyboardBuilder {
  import opened Callbacks

  datatype Action = Press(token: Token) | NoAction

  datatype Button = Button(text: string, action: Action)

  /** Rows of buttons, top to bottom. */
  type Markup = seq<seq<Button>>

  /** The builder's `max_width` for inline keyboards. */
  const MaxWidth: nat := 8

  /** The buttons row by row, left to right. */
  function Flatten(m: Markup): seq<Button>
    decreases |m|
  {
    if m == [] then [] else m[0] + Flatten(m[1..])
  }

  lemma {:induction false} FlattenAppend(m: Markup, row: seq<Button>)
    ensures Flatten(m + [row]) == Flatten(m) + row
    decreases |m|
  {
    if m != [] {
      assert (m + [row])[1..] == m[1..] + [row];
      FlattenAppend(m[1..], row);
    }
  }

  lemma {:induction false} FlattenConcat(m: Markup, n: Markup)
    ensures Flatten(m + n) == Flatten(m) + Flatten(n)
    decreases |m|
  {
    if m != [] {
      assert (m + n)[1..] == m[1..] + n;
      FlattenConcat(m[1..], n);
      assert (m + n)[0] == m[0];
      assert Flatten(m + n) == m[0] + Flatten(m[1..] + n);
      assert Flatten(m) == m[0] + Flatten(m[1..]);
    } else {
      assert m + n == n;
    }
  }

  /** Every row holds between one and `width` buttons. */
  predicate RowsWithin(m: Markup, width: nat) {
    forall k :: 0 <= k < |m| ==> 1 <= |m[k]| <= width
  }

  /** `buttons` cut into rows of `width`, the last row possibly shorter. */
  function Chunk(buttons: seq<Button>, width: nat): Markup
    requires width > 0
    decreases |buttons|
  {
    if buttons == [] then []
    else if |buttons| <= width then [buttons]
    else [buttons[..width]] + Chunk(buttons[width..], width)
  }

  /** Chunking keeps every button, in order, in rows of the given width:
      all rows full but the last, which is not empty. */
  lemma {:induction false} ChunkProperties(buttons: seq<Button>, width: nat)
    requires width > 0
    ensures Flatten(Chunk(buttons, width)) == buttons
    ensures RowsWithin(Chunk(buttons, width), width)
    ensures forall k :: 0 <= k < |Chunk(buttons, width)| - 1 ==> |Chunk(buttons, width)[k]| == width
    ensures |Chunk(buttons, width)| == 0 <==> buttons == []
    decreases |buttons|
  {
    if |buttons| > width {
      ChunkProperties(buttons[width..], width);
      var c := Chunk(buttons, width);
      assert c[1..] == Chunk(buttons[width..], width);
      assert buttons[..width] + buttons[width..] == buttons;
    }
  }

  /** A short row is its own chunk. */
  lemma ChunkSmall(row: seq<Button>, width: nat)
    requires 1 <= |row| <= width
    ensures Chunk(row, width) == [row]
  {
  }

  /** Full rows in front of a remainder chunk as themselves. */
  lemma {:induction false} ChunkAfterFullRows(full: Markup, rest: seq<Button>, width: nat)
    requires width > 0
    requires forall k :: 0 <= k < |full| ==> |full[k]| == width
    ensures Chunk(Flatten(full) + rest, width) == full + Chunk(rest, width)
    decreases |full|
  {
    if full != [] {
      ChunkAfterFullRows(full[1..], rest, width);
      assert Flatten(full) == full[0] + Flatten(full[1..]);
      assert full == [full[0]] + full[1..];
      var all := Flatten(full) + rest;
      var tail := Flatten(full[1..]) + rest;
      assert all == full[0] + tail;
      if tail == [] {
        assert Flatten(full[1..]) == [] && rest == [];
        assert full == [full[0]];
      } else {
        assert all[..width] == full[0];
        assert all[width..] == tail;
      }
    } else {
      assert Flatten(full) + rest == rest;
    }
  }

  /** The markup after `add(button)`: the button joins the last row while
      that row has room, otherwise it starts a new row. */
  function AddButton(m: Markup, b: Button): Markup {
    if m != [] && |m[|m| - 1]| < MaxWidth then m[..|m| - 1] + [m[|m| - 1] + [b]]
    else m + [[b]]
  }

  /** Adding appends the button to the reading order and keeps the width limit. */
  lemma AddButtonProperties(m: Markup, b: Button)
    requires RowsWithin(m, MaxWidth)
    ensures Flatten(AddButton(m, b)) == Flatten(m) + [b]
    ensures RowsWithin(AddButton(m, b), MaxWidth)
  {
    var r := AddButton(m, b);
    if m != [] && |m[|m| - 1]| < MaxWidth {
      var init := m[..|m| - 1];
      var last := m[|m| - 1];
      assert m == init + [last];
      assert r == init + [last + [b]];
      FlattenAppend(init, last);
      FlattenAppend(init, last + [b]);
      forall k | 0 <= k < |r|
        ensures 1 <= |r[k]| <= MaxWidth
      {
        if k < |init| {
          assert r[k] == m[k];
        }
      }
    } else {
      assert r == m + [[b]];
      FlattenAppend(m, [b]);
      forall k | 0 <= k < |r|
        ensures 1 <= |r[k]| <= MaxWidth
      {
        if k < |m| {
          assert r[k] == m[k];
        }
      }
    }
  }

  class InlineKeyboardBuilder {
    var markup: Markup

    predicate Valid()
      reads this
    {
      RowsWithin(markup, MaxWidth)
    }

    constructor()
      ensures markup == [] && Valid()
    {
      markup := [];
    }

    /** `builder.add(button)`. */
    method Add(b: Button)
      requires Valid()
      modifies this
      ensures markup == AddButton(old(markup), b) && Valid()
    {
      AddButtonProperties(markup, b);
      if markup != [] && |markup[|markup| - 1]| < MaxWidth {
        var last := markup[|markup| - 1];
        markup := markup[..|markup| - 1] + [last + [b]];
      } else {
        markup := markup + [[b]];
      }
    }

    /** `builder.adjust(size)`: every button, in order, re-cut into rows of
        `size`. */
    method Adjust(size: nat)
      requires 1 <= size <= MaxWidth && Valid()
      modifies this
      ensures markup == Chunk(Flatten(old(markup)), size) && Valid()
    {
      var buttons := Flatten(markup);
      var rows: Markup := [];
      var row: seq<Button> := [];
      var i := 0;
      while i < |buttons|
        invariant 0 <= i <= |buttons|
        invariant Flatten(rows) + row == buttons[..i]
        invariant forall k :: 0 <= k < |rows| ==> |rows[k]| == size
        invariant |row| <= size
        invariant i > 0 ==> row != []
        invariant i == 0 ==> rows == [] && row == []
      {
        if |row| >= size {
          FlattenAppend(rows, row);
          rows := rows + [row];
          row := [];
        }
        row := row + [buttons[i]];
        assert buttons[..i + 1] == buttons[..i] + [buttons[i]];
        i := i + 1;
      }
      assert buttons[..i] == buttons;
      ChunkAfterFullRows(rows, row, size);
      if row != [] {
        ChunkSmall(row, size);
        rows := rows + [row];
      }
      ChunkProperties(buttons, size);
      markup := rows;
    }

    /** `builder.row(*buttons)`: the buttons appended as new rows of at
        most `MaxWidth`. */
    method Row(buttons: seq<Button>)
      requires Valid()
      modifies this
      ensures markup == old(markup) + Chunk(buttons, MaxWidth) && Valid()
    {
      ChunkProperties(buttons, MaxWidth);
      var pos := 0;
      while pos < |buttons|
        invariant 0 <= pos <= |buttons|
        invariant markup + Chunk(buttons[pos..], MaxWidth) == old(markup) + Chunk(buttons, MaxWidth)
        invariant RowsWithin(markup, MaxWidth)
      {
        var rest := buttons[pos..];
        var end := if pos + MaxWidth < |buttons| then pos + MaxWidth else |buttons|;
        if |rest| > MaxWidth {
          assert rest[..MaxWidth] == buttons[pos..end];
          assert rest[MaxWidth..] == buttons[end..];
        } else {
          assert rest == buttons[pos..end] && buttons[end..] == [];
        }
        assert Chunk(rest, MaxWidth) == [buttons[pos..end]] + Chunk(buttons[end..], MaxWidth);
        markup := markup + [buttons[pos..end]];
        pos := end;
      }
      assert buttons[pos..] == [];
    }
  }
}
