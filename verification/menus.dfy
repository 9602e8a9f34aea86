/**
 The inline keyboard `sendMenu` builds: one row per button, one button per row.
 */
module Menus {
  import opened Wrappers
  import opened ButtonTypes
  import opened Constants

  /** What an inline button carries besides its label: callback data or a URL. */
  datatype Payload = CallbackData(data: Option<string>) | Link(url: Option<string>)

  /** An `InlineKeyboardButton`. */
  datatype InlineButton = InlineButton(text: string, payload: Payload)

  /** The keyboard button for one `Buttons` constant: a `CALLBACK` button gets its callback data,
      any other kind its URL. */
  function ToInline(b: ButtonSpec): (r: InlineButton)
    ensures r.text == b.text
    ensures r.payload.CallbackData? <==> b.bType == Callback
    ensures r.payload.CallbackData? ==> r.payload.data == b.callBack
    ensures r.payload.Link? ==> r.payload.url == b.url
  {
    if b.bType == Callback then InlineButton(b.text, CallbackData(b.callBack))
    else InlineButton(b.text, Link(b.url))
  }

  /** A single-column keyboard listing `buttons` top to bottom. */
  predicate SingleColumn(buttons: seq<ButtonSpec>, rows: seq<seq<InlineButton>>) {
    && |rows| == |buttons|
    && forall i :: 0 <= i < |rows| ==> rows[i] == [ToInline(buttons[i])]
  }

  /** The keyboard of `sendMenu`, as a value. */
  function Keyboard(buttons: seq<ButtonSpec>): (rows: seq<seq<InlineButton>>)
    ensures SingleColumn(buttons, rows)
  {
    if |buttons| == 0 then []
    else Keyboard(buttons[..|buttons| - 1]) + [[ToInline(buttons[|buttons| - 1])]]
  }

  /** The loop of `sendMenu` that fills the `buttons.length` by 1 array row by row. */
  method BuildKeyboard(buttons: seq<ButtonSpec>) returns (rows: seq<seq<InlineButton>>)
    ensures SingleColumn(buttons, rows)
    ensures rows == Keyboard(buttons)
  {
    rows := [];
    var i := 0;
    while i < |buttons|
      invariant 0 <= i <= |buttons|
      invariant SingleColumn(buttons[..i], rows)
    {
      var cell;
      if buttons[i].bType == Callback {
        cell := InlineButton(buttons[i].text, CallbackData(buttons[i].callBack));
      } else {
        cell := InlineButton(buttons[i].text, Link(buttons[i].url));
      }
      rows := rows + [[cell]];
      i := i + 1;
    }
    assert buttons[..i] == buttons;
    KeyboardIsUnique(buttons, rows);
  }

  /** A single-column keyboard for given buttons is determined by them. */
  lemma KeyboardIsUnique(buttons: seq<ButtonSpec>, rows: seq<seq<InlineButton>>)
    requires SingleColumn(buttons, rows)
    ensures rows == Keyboard(buttons)
  {
  }

  /** The context menu's buttons, in the order they are passed to `sendMenu`. */
  function ContextMenuButtons(cat: Catalog): seq<ButtonSpec> {
    [cat.supportButton, cat.safetyButton, cat.helpButton]
  }
}
