/**
 The shape of one inbound Telegram update, as far as the listener reads it,
 and the classifier `checkingUpdate` that turns that shape into an `UpdateType`.
 */
module Updates {
  import opened Wrappers
  import opened JavaText

  /** A Telegram chat or user id (a Java `Long`; no arithmetic is done on it). */
  type ChatId = int

  /** The `from` user of a message or callback query. */
  datatype TgUser = TgUser(id: ChatId, firstName: Option<string>, lastName: Option<string>, username: Option<string>)

  /** A message: its sender (null for channel posts), its text and whether a photo is attached. */
  datatype TgMessage = TgMessage(from: Option<TgUser>, text: Option<string>, hasPhoto: bool)

  /** A press on an inline button: its sender and its callback data. */
  datatype TgCallbackQuery = TgCallbackQuery(from: Option<TgUser>, data: Option<string>)

  /** One update; either part may be null. */
  datatype Update = Update(message: Option<TgMessage>, callbackQuery: Option<TgCallbackQuery>)

  /** The `UpdateType` values the listener distinguishes. */
  datatype UpdateType = Command | Message | Photo | CallBackQuery | Error

  /** `checkingUpdate`: the message is inspected first (text, then photo); the callback only when there is no message. */
  function CheckingUpdate(u: Update): (r: UpdateType)
    ensures r == Command <==> u.message.Some? && u.message.value.text.Some? && StartsWith(u.message.value.text.value, "/")
    ensures r == Message <==> u.message.Some? && u.message.value.text.Some? && !StartsWith(u.message.value.text.value, "/")
    ensures r == Photo <==> u.message.Some? && u.message.value.text.None? && u.message.value.hasPhoto
    ensures r == CallBackQuery <==> u.message.None? && u.callbackQuery.Some?
    ensures r == Error <==>
              || (u.message.Some? && u.message.value.text.None? && !u.message.value.hasPhoto)
              || (u.message.None? && u.callbackQuery.None?)
  {
    match u.message
    case Some(m) =>
      if m.text.Some? then
        if StartsWith(m.text.value, "/") then Command else Message
      else if m.hasPhoto then Photo
      else Error
    case None =>
      if u.callbackQuery.Some? then CallBackQuery else Error
  }

  /** The kinds whose sender is read from the message. */
  predicate FromMessage(kind: UpdateType) {
    kind == Command || kind == Message || kind == Photo
  }

  /** A present message decides the type on its own: the callback query is never looked at. */
  lemma MessageWinsOverCallback(m: TgMessage, c1: Option<TgCallbackQuery>, c2: Option<TgCallbackQuery>)
    ensures CheckingUpdate(Update(Some(m), c1)) == CheckingUpdate(Update(Some(m), c2))
    ensures CheckingUpdate(Update(Some(m), c1)) != CallBackQuery
  {
  }

  /** Text beginning with a slash is a command, whatever follows the slash. */
  lemma SlashTextIsCommand(from: Option<TgUser>, text: string, hasPhoto: bool, c: Option<TgCallbackQuery>)
    requires |text| > 0 && text[0] == '/'
    ensures CheckingUpdate(Update(Some(TgMessage(from, Some(text), hasPhoto)), c)) == Command
  {
  }

  /** Text not beginning with a slash (the empty text included) is a plain message, photo or not. */
  lemma PlainTextIsMessage(from: Option<TgUser>, text: string, hasPhoto: bool, c: Option<TgCallbackQuery>)
    requires |text| == 0 || text[0] != '/'
    ensures CheckingUpdate(Update(Some(TgMessage(from, Some(text), hasPhoto)), c)) == Message
  {
  }

  /** The type tells which parts of the update are present, so the listener's field reads are defined. */
  lemma TypeDeterminesShape(u: Update)
    ensures FromMessage(CheckingUpdate(u)) ==> u.message.Some?
    ensures CheckingUpdate(u) in {Command, Message} ==> u.message.Some? && u.message.value.text.Some?
    ensures CheckingUpdate(u) == CallBackQuery ==> u.callbackQuery.Some?
  {
  }

  /** Who an update is attributed to: chat id and the three optional names. */
  datatype Sender = Sender(chatId: ChatId, firstName: Option<string>, lastName: Option<string>, nickName: Option<string>)

  /** The sender used for `ERROR` updates: chat id 0 and null names. */
  const Anonymous := Sender(0, None, None, None)

  /** The opening of the per-update lambda: the sender comes from the message or the callback;
      `ERROR` updates keep the defaults. `None` is a null `from()` (a NullPointerException). */
  function Attribute(u: Update, kind: UpdateType): (r: Option<Sender>)
    requires kind == CheckingUpdate(u)
    ensures kind == Error ==> r == Some(Anonymous)
    ensures FromMessage(kind) ==> (r.Some? <==> u.message.value.from.Some?)
    ensures kind == CallBackQuery ==> (r.Some? <==> u.callbackQuery.value.from.Some?)
    ensures r.Some? && kind != Error ==>
      var f := if FromMessage(kind) then u.message.value.from.value else u.callbackQuery.value.from.value;
      r.value == Sender(f.id, f.firstName, f.lastName, f.username)
  {
    if FromMessage(kind) then
      match u.message.value.from
      case Some(f) => Some(Sender(f.id, f.firstName, f.lastName, f.username))
      case None => None
    else if kind == CallBackQuery then
      match u.callbackQuery.value.from
      case Some(f) => Some(Sender(f.id, f.firstName, f.lastName, f.username))
      case None => None
    else
      Some(Anonymous)
  }
}
