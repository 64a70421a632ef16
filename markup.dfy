/** The reply markup of an outgoing message (applyReplyMarkup and the three
    builders it calls). A caller-supplied `reply_markup` is converted; else
    the button labels `Buts` are laid out, `colNum` to a row, as an inline
    keyboard whose buttons carry minted callback tokens, or as a reply
    keyboard. The callback records of the tokens are saved in one batch
    before the markup is used. */
module Markups {
  import opened Values
  import opened Errors
  import opened Keyboard
  import opened ActionTypes

  // ---------------------------------------------------------------------
  // Callback records and the save step
  // ---------------------------------------------------------------------

  /** Record `i`: the token minted for index `i`, the action's project and
      internal user id, and `Actions[i]` when there is one. */
  function RecordFor(project: string, userId: string, actions: seq<RawMessage>, mint: nat -> string, i: nat): CallbackData
  {
    CallbackData(project, userId, mint(i), if i < |actions| then Some(actions[i]) else None)
  }

  /** Records 0 to n - 1. */
  function Records(project: string, userId: string, actions: seq<RawMessage>, mint: nat -> string, n: nat): seq<CallbackData>
  {
    seq(n, i requires 0 <= i < n => RecordFor(project, userId, actions, mint, i))
  }

  lemma RecordsExtend(project: string, userId: string, actions: seq<RawMessage>, mint: nat -> string, n: nat)
    ensures Records(project, userId, actions, mint, n + 1)
         == Records(project, userId, actions, mint, n) + [RecordFor(project, userId, actions, mint, n)]
  {
  }

  /** Record `i` pairs token `i` with `Actions[i]`, and has no action
      exactly when there are not that many actions. */
  lemma RecordsPairTokensWithActions(project: string, userId: string, actions: seq<RawMessage>, mint: nat -> string, n: nat, i: nat)
    requires i < n
    ensures var r := Records(project, userId, actions, mint, n)[i];
      && r.queryData == mint(i) && r.project == project && r.userId == userId
      && (r.action.Some? <==> i < |actions|)
      && (i < |actions| ==> r.action == Some(actions[i]))
  {
  }

  /** The outcome of a markup step: the markup, and the records of the
      callback tokens it minted, to be saved as one batch. */
  datatype Plan = Plan(markup: Markup, batch: seq<CallbackData>)

  /** The batch is saved only when a saver is configured and the batch is
      not empty. */
  predicate Saves(plan: Plan, saver: Saver)
  {
    saver.Some? && |plan.batch| > 0
  }

  function SaveCalls(plan: Plan, saver: Saver): seq<Effect>
  {
    if Saves(plan, saver) then [BatchSaved(plan.batch)] else []
  }

  function SaveError(plan: Plan, saver: Saver): Option<Error>
  {
    if Saves(plan, saver) then saver.value(plan.batch) else None
  }

  /** A step that carries out `plan`: it calls the saver as `plan` says,
      fails with the saver's error, and otherwise yields the planned markup. */
  predicate Realizes(plan: Plan, saver: Saver, markup: Markup, err: Option<Error>, trace: seq<Effect>)
  {
    && trace == SaveCalls(plan, saver)
    && err == SaveError(plan, saver)
    && (err.None? ==> markup == plan.markup)
  }

  // ---------------------------------------------------------------------
  // Keyboards laid out from Buts
  // ---------------------------------------------------------------------

  /** Button `i` of the inline keyboard: label `Buts[i]`, token `i`. */
  function InlineCells(buts: seq<string>, mint: nat -> string): seq<InlineButton>
  {
    seq(|buts|, i requires 0 <= i < |buts| => InlineButton(buts[i], None, Some(mint(i))))
  }

  function KeyboardCells(buts: seq<string>): seq<KeyboardButton>
  {
    seq(|buts|, i requires 0 <= i < |buts| => KeyboardButton(buts[i]))
  }

  /** The records buildInlineKeyboardMarkup mints for an action: one per
      label, whatever the column count. */
  function InlineRecords(action: Action, mint: nat -> string): seq<CallbackData>
  {
    Records(action.project, action.user.id, action.content.actions, mint, |action.content.buts|)
  }

  /** Saving `batch` is attempted and the saver reports an error. */
  predicate SaveFails(batch: seq<CallbackData>, saver: Saver)
  {
    saver.Some? && |batch| > 0 && saver.value(batch).Some?
  }

  /** buildInlineKeyboardMarkup: one record per label, and the labels laid
      out `colNum` to a row. The records are saved before the layout, so a
      count of 0 or less is reached only when that save fails, and then the
      empty keyboard the source returns beside the error stands in. */
  function InlinePlan(action: Action, colNum: int, mint: nat -> string): Plan
  {
    Plan(if colNum > 0 then InlineKeyboard(Chunk(InlineCells(action.content.buts, mint), colNum))
         else InlineKeyboard([]),
         InlineRecords(action, mint))
  }

  /** buildReplyKeyboardMarkup: the labels laid out `colNum` to a row, with
      resize and one-time set. */
  function ReplyLayout(buts: seq<string>, colNum: nat): Markup
    requires colNum > 0
  {
    ReplyKeyboard(Chunk(KeyboardCells(buts), colNum), Some(true), Some(true))
  }

  method BuildInlineKeyboardMarkup(action: Action, colNum: int, env: Env) returns (markup: Markup, err: Option<Error>, trace: seq<Effect>)
    requires colNum > 0 || SaveFails(InlineRecords(action, env.mint), env.saver)
    ensures Realizes(InlinePlan(action, colNum, env.mint), env.saver, markup, err, trace)
  {
    var buts := action.content.buts;
    var callbackData := new string[|buts|];
    var callbackQueries: seq<CallbackData> := [];
    for i := 0 to |buts|
      invariant forall k :: 0 <= k < i ==> callbackData[k] == env.mint(k)
      invariant callbackQueries == Records(action.project, action.user.id, action.content.actions, env.mint, i)
    {
      var hash := env.mint(i);
      callbackData[i] := hash;
      var data := CallbackData(action.project, action.user.id, hash, None);
      if i < |action.content.actions| {
        data := data.(action := Some(action.content.actions[i]));
      }
      RecordsExtend(action.project, action.user.id, action.content.actions, env.mint, i);
      callbackQueries := callbackQueries + [data];
    }

    trace := [];
    err := None;
    if env.saver.Some? && |callbackQueries| > 0 {
      trace := [BatchSaved(callbackQueries)];
      err := env.saver.value(callbackQueries);
      if err.Some? {
        markup := InlineKeyboard([]);
        return;
      }
    }

    assert colNum > 0;
    var tokens := callbackData[..];
    var cells := seq(|buts|, idx requires 0 <= idx < |buts| => InlineButton(buts[idx], None, Some(tokens[idx])));
    assert cells == InlineCells(buts, env.mint);
    var rows := LayoutRows(cells, colNum);
    markup := InlineKeyboard(rows);
  }

  method BuildReplyKeyboardMarkup(action: Action, colNum: int) returns (markup: Markup)
    requires colNum > 0
    ensures markup == ReplyLayout(action.content.buts, colNum)
  {
    var rows := LayoutRows(KeyboardCells(action.content.buts), colNum);
    markup := ReplyKeyboard(rows, Some(true), Some(true));
  }

  /** The button at row `r`, column `c` of `rows` is label `r * colNum + c`,
      a callback button carrying the token of the record with that index. */
  predicate CellsPairRecords(rows: seq<seq<InlineButton>>, buts: seq<string>, batch: seq<CallbackData>, colNum: nat)
  {
    forall r, c :: 0 <= r < |rows| && 0 <= c < |rows[r]| ==> CellPairsRecord(rows[r][c], buts, batch, r * colNum + c)
  }

  predicate CellPairsRecord(button: InlineButton, buts: seq<string>, batch: seq<CallbackData>, k: int)
  {
    && 0 <= k < |buts| && k < |batch|
    && button.text == buts[k]
    && button.url.None?
    && button.callbackData == Some(batch[k].queryData)
  }

  /** The button at row `r`, column `c` of the inline keyboard is label
      `r * colNum + c`, carrying the token of the record with that index. */
  lemma InlineButtonAt(action: Action, colNum: nat, mint: nat -> string, r: nat, c: nat)
    requires colNum > 0
    requires var rows := InlinePlan(action, colNum, mint).markup.inlineRows;
      r < |rows| && c < |rows[r]|
    ensures var plan := InlinePlan(action, colNum, mint);
      CellPairsRecord(plan.markup.inlineRows[r][c], action.content.buts, plan.batch, r * colNum + c)
  {
    var buts := action.content.buts;
    var cells := InlineCells(buts, mint);
    ChunkCell(cells, colNum, r, c);
    var k := r * colNum + c;
    var batch := Records(action.project, action.user.id, action.content.actions, mint, |buts|);
    RecordsPairTokensWithActions(action.project, action.user.id, action.content.actions, mint, |buts|, k);
    assert InlinePlan(action, colNum, mint).markup.inlineRows[r][c] == cells[k];
    assert InlinePlan(action, colNum, mint).batch[k].queryData == mint(k);
  }

  /** The inline keyboard built from Buts reads back, row by row, as the
      labels in order; it has ceil(N / colNum) rows; and the button at row
      `r`, column `c` is label `r * colNum + c`, carrying the token of the
      record with that index. */
  lemma InlineLayout(action: Action, colNum: nat, mint: nat -> string)
    requires colNum > 0
    ensures Flatten(InlinePlan(action, colNum, mint).markup.inlineRows) == InlineCells(action.content.buts, mint)
    ensures |InlinePlan(action, colNum, mint).markup.inlineRows| == (|action.content.buts| + colNum - 1) / colNum
    ensures |InlinePlan(action, colNum, mint).batch| == |action.content.buts|
    ensures var plan := InlinePlan(action, colNum, mint);
      CellsPairRecords(plan.markup.inlineRows, action.content.buts, plan.batch, colNum)
  {
    var cells := InlineCells(action.content.buts, mint);
    var plan := InlinePlan(action, colNum, mint);
    assert plan.markup.inlineRows == Chunk(cells, colNum);
    ChunkFlatten(cells, colNum);
    RowCount(cells, colNum);
    forall r, c | 0 <= r < |plan.markup.inlineRows| && 0 <= c < |plan.markup.inlineRows[r]|
      ensures CellPairsRecord(plan.markup.inlineRows[r][c], action.content.buts, plan.batch, r * colNum + c)
    {
      InlineButtonAt(action, colNum, mint, r, c);
    }
  }

  predicate LabelAt(button: KeyboardButton, buts: seq<string>, k: int)
  {
    0 <= k < |buts| && button.text == buts[k]
  }

  /** The button at row `r`, column `c` of the reply keyboard is label
      `r * colNum + c`. */
  lemma ReplyButtonAt(buts: seq<string>, colNum: nat, r: nat, c: nat)
    requires colNum > 0
    requires var rows := ReplyLayout(buts, colNum).rows;
      r < |rows| && c < |rows[r]|
    ensures LabelAt(ReplyLayout(buts, colNum).rows[r][c], buts, r * colNum + c)
  {
    ChunkCell(KeyboardCells(buts), colNum, r, c);
  }

  /** The reply keyboard built from Buts reads back as the labels in order,
      has ceil(N / colNum) rows, and always resizes and hides after use. */
  lemma ReplyLayoutLabels(buts: seq<string>, colNum: nat)
    requires colNum > 0
    ensures Flatten(ReplyLayout(buts, colNum).rows) == KeyboardCells(buts)
    ensures |ReplyLayout(buts, colNum).rows| == (|buts| + colNum - 1) / colNum
    ensures ReplyLayout(buts, colNum).resize == Some(true) && ReplyLayout(buts, colNum).oneTime == Some(true)
    ensures var rows := ReplyLayout(buts, colNum).rows;
      forall r, c :: 0 <= r < |rows| && 0 <= c < |rows[r]| ==> LabelAt(rows[r][c], buts, r * colNum + c)
  {
    var cells := KeyboardCells(buts);
    assert ReplyLayout(buts, colNum).rows == Chunk(cells, colNum);
    ChunkFlatten(cells, colNum);
    RowCount(cells, colNum);
    var rows := ReplyLayout(buts, colNum).rows;
    forall r, c | 0 <= r < |rows| && 0 <= c < |rows[r]|
      ensures LabelAt(rows[r][c], buts, r * colNum + c)
    {
      ReplyButtonAt(buts, colNum, r, c);
    }
  }

  // ---------------------------------------------------------------------
  // A caller-supplied reply_markup
  // ---------------------------------------------------------------------

  /** An `inline_keyboard` item that gets a callback token: a map whose
      `url` is not a string. */
  predicate TakesToken(item: Value)
  {
    item.Object? && OptString(item.fields, "url").None?
  }

  function TokenCount(items: seq<Value>): nat
  {
    if items == [] then 0
    else TokenCount(items[..|items| - 1]) + (if TakesToken(items[|items| - 1]) then 1 else 0)
  }

  /** The button of a map item: a URL button when `url` is a string, else a
      callback button with the token of index `index`. */
  function InlineButtonOf(fields: map<string, Value>, index: nat, mint: nat -> string): InlineButton
  {
    var text := StringField(fields, "text");
    if OptString(fields, "url").Some? then InlineButton(text, OptString(fields, "url"), None)
    else InlineButton(text, None, Some(mint(index)))
  }

  /** The buttons of one row: items that are not maps are skipped, and the
      token index advances only on callback buttons, from `start`. */
  function InlineItems(items: seq<Value>, start: nat, mint: nat -> string): seq<InlineButton>
  {
    if items == [] then []
    else
      var init := items[..|items| - 1];
      var last := items[|items| - 1];
      InlineItems(init, start, mint)
        + (if last.Object? then [InlineButtonOf(last.fields, start + TokenCount(init), mint)] else [])
  }

  function RowTokens(row: Value): nat
  {
    if row.List? then TokenCount(row.items) else 0
  }

  function TotalTokens(rows: seq<Value>): nat
  {
    if rows == [] then 0 else TotalTokens(rows[..|rows| - 1]) + RowTokens(rows[|rows| - 1])
  }

  /** The rows of the converted inline keyboard: rows that are not lists
      are skipped; the token index runs on across rows. */
  function InlineRows(rows: seq<Value>, mint: nat -> string): seq<seq<InlineButton>>
  {
    if rows == [] then []
    else
      var init := rows[..|rows| - 1];
      var last := rows[|rows| - 1];
      InlineRows(init, mint) + (if last.List? then [InlineItems(last.items, TotalTokens(init), mint)] else [])
  }

  /** A reply-keyboard item: a string is a label, a map gives its `text`,
      anything else is skipped. */
  function KeyboardItem(item: Value): seq<KeyboardButton>
  {
    if item.Str? then [KeyboardButton(item.s)]
    else if item.Object? then [KeyboardButton(StringField(item.fields, "text"))]
    else []
  }

  function KeyboardItems(items: seq<Value>): seq<KeyboardButton>
  {
    if items == [] then [] else KeyboardItems(items[..|items| - 1]) + KeyboardItem(items[|items| - 1])
  }

  function KeyboardRows(rows: seq<Value>): seq<seq<KeyboardButton>>
  {
    if rows == [] then []
    else
      var last := rows[|rows| - 1];
      KeyboardRows(rows[..|rows| - 1]) + (if last.List? then [KeyboardItems(last.items)] else [])
  }

  /** convertReplyMarkup. An `inline_keyboard` list is converted and its
      callback records are saved; a `keyboard` list becomes a reply keyboard
      whose resize and one-time flags are set only when given as booleans;
      anything else (a key holding a non-list, or neither key) passes the
      map through unchanged. `inline_keyboard` wins when both keys are set. */
  function ConvertPlan(rm: map<string, Value>, action: Action, mint: nat -> string): Plan
  {
    if "inline_keyboard" in rm then
      if rm["inline_keyboard"].List? then
        var rows := rm["inline_keyboard"].items;
        Plan(InlineKeyboard(InlineRows(rows, mint)),
             Records(action.project, action.user.id, action.content.actions, mint, TotalTokens(rows)))
      else Plan(RawMarkup(rm), [])
    else if "keyboard" in rm then
      if rm["keyboard"].List? then
        Plan(ReplyKeyboard(KeyboardRows(rm["keyboard"].items), OptBool(rm, "resize_keyboard"), OptBool(rm, "one_time_keyboard")), [])
      else Plan(RawMarkup(rm), [])
    else Plan(RawMarkup(rm), [])
  }

  /** The nested loop over the `inline_keyboard` rows and their items. */
  method ConvertInlineRows(rows: seq<Value>, action: Action, mint: nat -> string)
    returns (keyboard: seq<seq<InlineButton>>, records: seq<CallbackData>)
    ensures keyboard == InlineRows(rows, mint)
    ensures records == Records(action.project, action.user.id, action.content.actions, mint, TotalTokens(rows))
  {
    var actions := action.content.actions;
    keyboard := [];
    records := [];
    var index := 0;
    for i := 0 to |rows|
      invariant keyboard == InlineRows(rows[..i], mint)
      invariant index == TotalTokens(rows[..i])
      invariant records == Records(action.project, action.user.id, actions, mint, index)
    {
      assert rows[..i + 1][..i] == rows[..i];
      if rows[i].List? {
        var items := rows[i].items;
        var keyboardRow: seq<InlineButton> := [];
        ghost var start := index;
        for j := 0 to |items|
          invariant keyboardRow == InlineItems(items[..j], start, mint)
          invariant index == start + TokenCount(items[..j])
          invariant records == Records(action.project, action.user.id, actions, mint, index)
        {
          assert items[..j + 1][..j] == items[..j];
          if items[j].Object? {
            var btn := items[j].fields;
            var text := StringField(btn, "text");
            var button: InlineButton;
            var url := OptString(btn, "url");
            if url.Some? {
              button := InlineButton(text, url, None);
            } else {
              var hash := mint(index);
              button := InlineButton(text, None, Some(hash));
              var data := CallbackData(action.project, action.user.id, hash, None);
              if index < |actions| {
                data := data.(action := Some(actions[index]));
              }
              RecordsExtend(action.project, action.user.id, actions, mint, index);
              records := records + [data];
              index := index + 1;
            }
            keyboardRow := keyboardRow + [button];
          }
        }
        assert items[..|items|] == items;
        keyboard := keyboard + [keyboardRow];
      }
    }
    assert rows[..|rows|] == rows;
  }

  /** The nested loop over the `keyboard` rows and their items. */
  method ConvertKeyboardRows(rows: seq<Value>) returns (keyboard: seq<seq<KeyboardButton>>)
    ensures keyboard == KeyboardRows(rows)
  {
    keyboard := [];
    for i := 0 to |rows|
      invariant keyboard == KeyboardRows(rows[..i])
    {
      assert rows[..i + 1][..i] == rows[..i];
      if rows[i].List? {
        var items := rows[i].items;
        var keyboardRow: seq<KeyboardButton> := [];
        for j := 0 to |items|
          invariant keyboardRow == KeyboardItems(items[..j])
        {
          assert items[..j + 1][..j] == items[..j];
          var item := items[j];
          if item.Str? {
            keyboardRow := keyboardRow + [KeyboardButton(item.s)];
          } else if item.Object? {
            keyboardRow := keyboardRow + [KeyboardButton(StringField(item.fields, "text"))];
          }
        }
        assert items[..|items|] == items;
        keyboard := keyboard + [keyboardRow];
      }
    }
    assert rows[..|rows|] == rows;
  }

  method ConvertReplyMarkup(action: Action, env: Env) returns (markup: Markup, err: Option<Error>, trace: seq<Effect>)
    requires action.content.replyMarkup.Some?
    ensures Realizes(ConvertPlan(action.content.replyMarkup.value, action, env.mint), env.saver, markup, err, trace)
  {
    var rm := action.content.replyMarkup.value;
    trace := [];
    err := None;
    if "inline_keyboard" in rm {
      var inlineKeyboard := rm["inline_keyboard"];
      if !inlineKeyboard.List? {
        markup := RawMarkup(rm);
        return;
      }
      var keyboard, callbackQueries := ConvertInlineRows(inlineKeyboard.items, action, env.mint);
      if env.saver.Some? && |callbackQueries| > 0 {
        trace := [BatchSaved(callbackQueries)];
        err := env.saver.value(callbackQueries);
        if err.Some? {
          markup := NoMarkup;
          return;
        }
      }
      markup := InlineKeyboard(keyboard);
      return;
    }
    if "keyboard" in rm {
      var keyboard := rm["keyboard"];
      if !keyboard.List? {
        markup := RawMarkup(rm);
        return;
      }
      var replyKeyboard := ConvertKeyboardRows(keyboard.items);
      markup := ReplyKeyboard(replyKeyboard, OptBool(rm, "resize_keyboard"), OptBool(rm, "one_time_keyboard"));
      return;
    }
    markup := RawMarkup(rm);
  }

  /** The callback buttons of a converted inline keyboard, read row by row,
      carry the tokens of indices 0, 1, 2, ... in order: the index advances
      exactly on the buttons without a URL, across rows. Token `k` is the
      token of record `k` of the saved batch. */
  lemma ConvertedTokensInOrder(rm: map<string, Value>, action: Action, mint: nat -> string)
    requires "inline_keyboard" in rm && rm["inline_keyboard"].List?
    ensures var plan := ConvertPlan(rm, action, mint);
      && |Tokens(Flatten(plan.markup.inlineRows))| == |plan.batch|
      && (forall k :: 0 <= k < |plan.batch| ==>
            Tokens(Flatten(plan.markup.inlineRows))[k] == plan.batch[k].queryData == mint(k))
  {
    var rows := rm["inline_keyboard"].items;
    InlineRowsTokens(rows, mint);
  }

  /** The callback tokens of a run of buttons, in order. */
  function Tokens(buttons: seq<InlineButton>): seq<string>
  {
    if buttons == [] then []
    else
      var last := buttons[|buttons| - 1];
      Tokens(buttons[..|buttons| - 1]) + (if last.callbackData.Some? then [last.callbackData.value] else [])
  }

  /** Tokens `start`, `start + 1`, ..., `start + n - 1`. */
  function Minted(mint: nat -> string, start: nat, n: nat): seq<string>
  {
    seq(n, k requires 0 <= k < n => mint(start + k))
  }

  lemma {:induction false} TokensAppend(a: seq<InlineButton>, b: seq<InlineButton>)
    ensures Tokens(a + b) == Tokens(a) + Tokens(b)
    decreases |b|
  {
    if b != [] {
      var b' := b[..|b| - 1];
      assert (a + b)[..|a + b| - 1] == a + b';
      assert (a + b)[|a + b| - 1] == b[|b| - 1];
      TokensAppend(a, b');
    } else {
      assert a + b == a;
    }
  }

  lemma MintedSplit(mint: nat -> string, start: nat, a: nat, b: nat)
    ensures Minted(mint, start, a + b) == Minted(mint, start, a) + Minted(mint, start + a, b)
  {
  }

  /** The tokens of the buttons an item adds: one token, `start`, exactly
      when the item takes one. */
  lemma ItemTokens(item: Value, start: nat, mint: nat -> string)
    ensures Tokens(if item.Object? then [InlineButtonOf(item.fields, start, mint)] else [])
         == Minted(mint, start, if TakesToken(item) then 1 else 0)
  {
    if item.Object? {
      var b := InlineButtonOf(item.fields, start, mint);
      assert [b][..0] == [];
    }
  }

  lemma {:induction false} InlineItemsTokens(items: seq<Value>, start: nat, mint: nat -> string)
    ensures Tokens(InlineItems(items, start, mint)) == Minted(mint, start, TokenCount(items))
    decreases |items|
  {
    if items != [] {
      var init := items[..|items| - 1];
      var last := items[|items| - 1];
      var n := TokenCount(init);
      var tail := if last.Object? then [InlineButtonOf(last.fields, start + n, mint)] else [];
      calc {
        Tokens(InlineItems(items, start, mint));
        Tokens(InlineItems(init, start, mint) + tail);
        { TokensAppend(InlineItems(init, start, mint), tail); }
        Tokens(InlineItems(init, start, mint)) + Tokens(tail);
        { InlineItemsTokens(init, start, mint); ItemTokens(last, start + n, mint); }
        Minted(mint, start, n) + Minted(mint, start + n, if TakesToken(last) then 1 else 0);
        { MintedSplit(mint, start, n, if TakesToken(last) then 1 else 0); }
        Minted(mint, start, TokenCount(items));
      }
    }
  }

  lemma {:induction false} InlineRowsTokens(rows: seq<Value>, mint: nat -> string)
    ensures Tokens(Flatten(InlineRows(rows, mint))) == Minted(mint, 0, TotalTokens(rows))
    decreases |rows|
  {
    if rows != [] {
      var init := rows[..|rows| - 1];
      var last := rows[|rows| - 1];
      var n := TotalTokens(init);
      var tail := if last.List? then [InlineItems(last.items, n, mint)] else [];
      assert Tokens(Flatten(tail)) == Minted(mint, n, RowTokens(last)) by {
        if last.List? {
          assert Flatten(tail) == InlineItems(last.items, n, mint) by {
            assert tail[1..] == [];
          }
          InlineItemsTokens(last.items, n, mint);
        }
      }
      calc {
        Tokens(Flatten(InlineRows(rows, mint)));
        Tokens(Flatten(InlineRows(init, mint) + tail));
        { FlattenAppend(InlineRows(init, mint), tail); }
        Tokens(Flatten(InlineRows(init, mint)) + Flatten(tail));
        { TokensAppend(Flatten(InlineRows(init, mint)), Flatten(tail)); }
        Tokens(Flatten(InlineRows(init, mint))) + Tokens(Flatten(tail));
        { InlineRowsTokens(init, mint); }
        Minted(mint, 0, n) + Minted(mint, n, RowTokens(last));
        { MintedSplit(mint, 0, n, RowTokens(last)); }
        Minted(mint, 0, TotalTokens(rows));
      }
    }
  }

  /** A `keyboard` whose items are all strings gives the same buttons as
      laying out the same labels from Buts. */
  lemma {:induction false} StringItemsAreLabels(labels: seq<string>)
    ensures KeyboardItems(seq(|labels|, i requires 0 <= i < |labels| => Str(labels[i]))) == KeyboardCells(labels)
    decreases |labels|
  {
    if labels != [] {
      var init := labels[..|labels| - 1];
      StringItemsAreLabels(init);
      var items := seq(|labels|, i requires 0 <= i < |labels| => Str(labels[i]));
      assert items[..|items| - 1] == seq(|init|, i requires 0 <= i < |init| => Str(init[i]));
      assert KeyboardCells(labels) == KeyboardCells(init) + [KeyboardButton(labels[|labels| - 1])];
    }
  }

  // ---------------------------------------------------------------------
  // applyReplyMarkup
  // ---------------------------------------------------------------------

  /** The column count: `ColumnNum` when set, else 3. */
  function Columns(c: Content): int
  {
    if c.columnNum.Some? then c.columnNum.value else 3
  }

  /** A keyboard is laid out from Buts. */
  predicate LaysOutButs(c: Content)
  {
    c.replyMarkup.None? && |c.buts| > 0 && (c.contentType == "inline_keyboard" || c.contentType == "virtual_keyboard")
  }

  /** The source does not check the column count: a reply keyboard laid
      out with a count of zero or less does not complete. */
  predicate ReplyWidthOk(c: Content)
  {
    LaysOutButs(c) && c.contentType == "virtual_keyboard" ==> Columns(c) > 0
  }

  /** The calls that complete: a count of zero or less is harmless only for
      an inline keyboard whose records fail to save, since that save comes
      before the layout. */
  predicate LayoutWidthOk(action: Action, mint: nat -> string, saver: Saver)
  {
    var c := action.content;
    LaysOutButs(c) && Columns(c) <= 0 ==>
      c.contentType == "inline_keyboard" && SaveFails(InlineRecords(action, mint), saver)
  }

  /** applyReplyMarkup: a caller-supplied `reply_markup` wins; else no
      labels means no markup; else the type picks an inline keyboard, a
      reply keyboard, or no markup. */
  function MarkupFor(action: Action, mint: nat -> string): Plan
    requires ReplyWidthOk(action.content)
  {
    var c := action.content;
    if c.replyMarkup.Some? then ConvertPlan(c.replyMarkup.value, action, mint)
    else if |c.buts| == 0 then Plan(NoMarkup, [])
    else if c.contentType == "inline_keyboard" then InlinePlan(action, Columns(c), mint)
    else if c.contentType == "virtual_keyboard" then Plan(ReplyLayout(c.buts, Columns(c)), [])
    else Plan(NoMarkup, [])
  }

  method ApplyReplyMarkup(action: Action, env: Env) returns (markup: Markup, err: Option<Error>, trace: seq<Effect>)
    requires LayoutWidthOk(action, env.mint, env.saver)
    ensures Realizes(MarkupFor(action, env.mint), env.saver, markup, err, trace)
  {
    markup := NoMarkup;
    err := None;
    trace := [];
    if action.content.replyMarkup.Some? {
      markup, err, trace := ConvertReplyMarkup(action, env);
      return;
    }

    if |action.content.buts| == 0 {
      return;
    }

    var colNum := 3;
    if action.content.columnNum.Some? {
      colNum := action.content.columnNum.value;
    }

    if action.content.contentType == "inline_keyboard" {
      markup, err, trace := BuildInlineKeyboardMarkup(action, colNum, env);
    } else if action.content.contentType == "virtual_keyboard" {
      markup := BuildReplyKeyboardMarkup(action, colNum);
    }
  }

  /** A supplied `reply_markup` takes precedence: the labels, the column
      count and the content type then play no part. */
  lemma ReplyMarkupTakesPrecedence(action: Action, mint: nat -> string, buts: seq<string>, columnNum: Option<int>, contentType: string)
    requires action.content.replyMarkup.Some?
    ensures var other := action.(content := action.content.(buts := buts, columnNum := columnNum, contentType := contentType));
      MarkupFor(other, mint) == MarkupFor(action, mint)
  {
  }

  /** Without a supplied markup, no labels or a type other than the two
      keyboard types means no markup and no saved records. */
  lemma NoLabelsNoMarkup(action: Action, mint: nat -> string)
    requires action.content.replyMarkup.None?
    requires |action.content.buts| == 0
      || (action.content.contentType != "inline_keyboard" && action.content.contentType != "virtual_keyboard")
    ensures MarkupFor(action, mint) == Plan(NoMarkup, [])
  {
  }

  /** An inline keyboard whose column count is zero or less still mints
      and saves its records first; when that save fails, the markup step
      ends with the saver's error. */
  lemma SaveFailsBeforeLayout(action: Action, mint: nat -> string, saver: Saver)
    requires LaysOutButs(action.content) && action.content.contentType == "inline_keyboard"
    requires SaveFails(InlineRecords(action, mint), saver)
    ensures var plan := MarkupFor(action, mint);
      && plan.batch == InlineRecords(action, mint)
      && SaveCalls(plan, saver) == [BatchSaved(InlineRecords(action, mint))]
      && SaveError(plan, saver) == saver.value(InlineRecords(action, mint))
      && SaveError(plan, saver).Some?
  {
  }

  /** With no column count given, labels are laid out three to a row. */
  lemma DefaultThreeColumns(action: Action, mint: nat -> string)
    requires LaysOutButs(action.content) && action.content.columnNum.None?
    ensures action.content.contentType == "inline_keyboard" ==>
      MarkupFor(action, mint) == InlinePlan(action, 3, mint)
    ensures action.content.contentType == "virtual_keyboard" ==>
      MarkupFor(action, mint) == Plan(ReplyLayout(action.content.buts, 3), [])
  {
  }

  // ---------------------------------------------------------------------
  // A column count of zero or less
  // ---------------------------------------------------------------------

  /** The index of the layout loop after `k` turns of `i += colNum`. */
  function LayoutIndexAfter(colNum: int, k: nat): int
  {
    k * colNum
  }

  lemma NonPositiveStep(colNum: int, k: nat)
    requires colNum <= 0
    ensures LayoutIndexAfter(colNum, k) <= 0
  {
  }

  /** As written, a count of zero or less whose records are saved (or not
      saved at all) is outside what completes: should the layout be
      reached, its index stays at or below 0, so `i < len(Buts)` holds on
      every turn and the loop never ends. */
  lemma NonPositiveColumnsStall(action: Action, mint: nat -> string, saver: Saver)
    requires LaysOutButs(action.content) && Columns(action.content) <= 0
    requires !SaveFails(InlineRecords(action, mint), saver)
    ensures !LayoutWidthOk(action, mint, saver)
    ensures forall k: nat :: LayoutIndexAfter(Columns(action.content), k) < |action.content.buts|
  {
    forall k: nat
      ensures LayoutIndexAfter(Columns(action.content), k) < |action.content.buts|
    {
      NonPositiveStep(Columns(action.content), k);
    }
  }

  /** The column count with a count of zero or less treated like a missing
      one: always positive, `ColumnNum` when that is positive, else 3. */
  function ColumnsOrDefault(c: Content): (n: int)
    ensures n > 0
    ensures Columns(c) > 0 ==> n == Columns(c)
    ensures Columns(c) <= 0 ==> n == 3
  {
    if c.columnNum.Some? && c.columnNum.value > 0 then c.columnNum.value else 3
  }

  /** applyReplyMarkup with that default: defined for every action. */
  function IntendedMarkupFor(action: Action, mint: nat -> string): Plan
  {
    var c := action.content;
    if !LaysOutButs(c) then MarkupFor(action, mint)
    else if c.contentType == "inline_keyboard" then InlinePlan(action, ColumnsOrDefault(c), mint)
    else Plan(ReplyLayout(c.buts, ColumnsOrDefault(c)), [])
  }

  /** Wherever the source completes, the default changes nothing: the same
      save, the same error, and the same markup when there is no error. */
  lemma IntendedAgreesWhereSourceCompletes(action: Action, mint: nat -> string, saver: Saver)
    requires LayoutWidthOk(action, mint, saver)
    ensures var intended := IntendedMarkupFor(action, mint);
      var written := MarkupFor(action, mint);
      && intended.batch == written.batch
      && SaveCalls(intended, saver) == SaveCalls(written, saver)
      && SaveError(intended, saver) == SaveError(written, saver)
      && (SaveError(written, saver).None? ==> intended.markup == written.markup)
  {
  }

  /** With the default, a count of zero or less lays out the labels as a
      missing count does: three to a row. */
  lemma NonPositiveLikeMissing(action: Action, mint: nat -> string)
    requires Columns(action.content) <= 0
    ensures IntendedMarkupFor(action, mint)
         == IntendedMarkupFor(action.(content := action.content.(columnNum := None)), mint)
  {
    var c := action.content;
    var other := action.(content := c.(columnNum := None));
    if c.replyMarkup.Some? {
      ReplyMarkupTakesPrecedence(action, mint, c.buts, None, c.contentType);
      assert other == action.(content := c.(buts := c.buts, columnNum := None, contentType := c.contentType));
    }
  }
}
