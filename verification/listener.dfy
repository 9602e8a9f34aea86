/**
 `TelegramBotUpdatesListener`: per-update attribution, session bootstrap, the
 chat-state switch, the existing-user router and the batch loop of `process`.
 Every send to Telegram and every post to the completion endpoint is an event
 appended to a trace; Java runtime exceptions are explicit faults, and a fault
 ends the batch.
 */
module Listener {
  import opened Wrappers
  import opened JavaText
  import opened Updates
  import opened Completion
  import opened Constants
  import opened Store
  import opened Menus

  /** Outbound traffic: a text or a menu to a chat, or a request to the completion endpoint. */
  datatype Event =
    | Text(chatId: ChatId, text: string)
    | Menu(chatId: ChatId, header: string, rows: seq<seq<InlineButton>>)
    | Post(request: ChatRequest)

  /** The Java runtime exceptions the listener can raise. */
  datatype Fault = NullPointer | NoSuchElement | IndexOutOfBounds

  /** The listener's injected configuration: the constants and the model name. */
  datatype Bot = Bot(catalog: Catalog, model: string)

  /** One update together with what the completion endpoint does if this update reaches it. */
  datatype Arrival = Arrival(update: Update, completion: CallOutcome)

  /** Events sent while handling one update, and the exception that ended the handling, if any. */
  datatype Route = Route(sent: seq<Event>, fault: Option<Fault>)

  /** The store after one update, its events, and its exception, if any. */
  datatype Step = Step(store: Store, sent: seq<Event>, fault: Option<Fault>)

  /** The value `process` returns, or the exception that escaped it. */
  datatype BatchOutcome = ConfirmedAll | Aborted(fault: Fault)

  /** The store and trace after a batch, and how `process` ended. */
  datatype Batch = Batch(store: Store, sent: seq<Event>, outcome: BatchOutcome)

  /** The text of a message update (present for `COMMAND` and `MESSAGE`). */
  function MessageText(u: Update, kind: UpdateType): string
    requires kind == CheckingUpdate(u) && (kind == Command || kind == Message)
  {
    u.message.value.text.value
  }

  /** `updateType == COMMAND && text.equalsIgnoreCase(command)`. */
  predicate CommandIs(u: Update, kind: UpdateType, command: string)
    requires kind == CheckingUpdate(u)
  {
    kind == Command && EqualsIgnoreCase(MessageText(u, kind), command)
  }

  /** `updateType == CALL_BACK_QUERY && data.equals(callBack)`, for non-null data. */
  predicate CallbackIs(u: Update, kind: UpdateType, callBack: Option<string>)
    requires kind == CheckingUpdate(u)
  {
    kind == CallBackQuery && u.callbackQuery.value.data.Some? && u.callbackQuery.value.data == callBack
  }

  /** The `MESSAGE` branch: post the text, report a thrown call, report a missing reply, then
      read the first choice (which throws when there is none). */
  function RelayCompletion(bot: Bot, id: ChatId, prompt: string, completion: CallOutcome): (r: Route)
    ensures |r.sent| >= 1 && r.sent[0] == Post(ChatRequest(bot.model, prompt))
    ensures r.fault.None? <==>
      completion.Returned? && !NoChoices(completion.response)
      && completion.response.value.choices.value[0].message.Some?
    ensures r.fault.None? ==>
      r.sent[|r.sent| - 1] == Text(id, completion.response.value.choices.value[0].message.value.content)
  {
    var msgs := bot.catalog.messages;
    var post := [Post(ChatRequest(bot.model, prompt))];
    var apology := match completion
      case Threw(e) => [Text(id, msgs.somethingWrong + Render(e) + msgs.callSupport)]
      case Returned(_) => [];
    var response := match completion
      case Threw(_) => None
      case Returned(resp) => resp;
    var notice := if NoChoices(response) then [Text(id, msgs.noResponse)] else [];
    var sent := post + apology + notice;
    if response.None? || response.value.choices.None? then Route(sent, Some(NullPointer))
    else if |response.value.choices.value| == 0 then Route(sent, Some(IndexOutOfBounds))
    else
      match response.value.choices.value[0].message
      case None => Route(sent, Some(NullPointer))
      case Some(m) => Route(sent + [Text(id, m.content)], None)
  }

  /** `existingUserUpdateProcessing`: an if/else chain, first match wins. Reading the data of a
      callback query first happens in the help test, so null data throws there. */
  function ExistingUserUpdateProcessing(bot: Bot, id: ChatId, u: Update, kind: UpdateType, completion: CallOutcome): (r: Route)
    requires kind == CheckingUpdate(u)
    ensures r.fault.Some? ==> kind == Message || kind == CallBackQuery
    ensures kind == CallBackQuery ==> (r.fault.Some? <==> u.callbackQuery.value.data.None?)
    ensures kind == Error ==> r == Route([], None)
  {
    var cat := bot.catalog;
    var msgs := cat.messages;
    var cmds := cat.commands;
    if kind == Message then
      RelayCompletion(bot, id, MessageText(u, kind), completion)
    else if CommandIs(u, kind, cmds.start) then
      Route([Text(id, msgs.wellOneMoreTime), Text(id, msgs.welcome)], None)
    else if kind == CallBackQuery && u.callbackQuery.value.data.None? then
      Route([], Some(NullPointer))
    else if CommandIs(u, kind, cmds.help) || CallbackIs(u, kind, cat.helpButton.callBack) then
      Route([Text(id, msgs.help)], None)
    else if CommandIs(u, kind, cmds.menu) then
      Route([Menu(id, msgs.contextMenu, Keyboard(ContextMenuButtons(cat)))], None)
    else if CommandIs(u, kind, cmds.safety) || CallbackIs(u, kind, cat.safetyButton.callBack) then
      Route([Text(id, msgs.safety)], None)
    else if CommandIs(u, kind, cmds.support) || CallbackIs(u, kind, cat.supportButton.callBack) then
      Route([Text(id, msgs.support)], None)
    else if kind == Command then
      Route([Text(id, msgs.noSuchCommand), Text(id, msgs.help)], None)
    else if kind == Photo then
      Route([Text(id, msgs.cannotProcessPhotos), Text(id, msgs.help)], None)
    else
      Route([], None)
  }

  /** The `switch (chatState)` of `process`. */
  function SwitchOnState(bot: Bot, id: ChatId, state: ChatState, a: Arrival, kind: UpdateType): (r: Route)
    requires kind == CheckingUpdate(a.update)
    ensures state == NewUser ==> r == Route([Text(id, bot.catalog.messages.welcome)], None)
    ensures state == ZeroState ==> r == Route([], None)
    ensures r.fault.Some? ==> state == ExistingUser
  {
    match state
    case NewUser => Route([Text(id, bot.catalog.messages.welcome)], None)
    case ExistingUser => ExistingUserUpdateProcessing(bot, id, a.update, kind, a.completion)
    case ZeroState => Route([], None)
  }

  /** The body of the `forEach` lambda: attribute, look up, bootstrap both records when both are
      absent, otherwise `get()` both (which throws if either is absent), then switch on the state. */
  function ProcessUpdate(bot: Bot, store: Store, a: Arrival): (r: Step)
    ensures Extends(store, r.store)
    ensures Keyed(store) ==> Keyed(r.store)
    ensures Paired(store) ==> Paired(r.store)
    ensures r.fault.Some? ==> r.store == store
  {
    var kind := CheckingUpdate(a.update);
    match Attribute(a.update, kind)
    case None => Step(store, [], Some(NullPointer))
    case Some(sender) =>
      var id := sender.chatId;
      var configResult := FindChatConfig(store, id);
      var userResult := FindUser(store, id);
      if configResult.None? && userResult.None? then
        var user := User(sender.firstName, sender.lastName, sender.nickName, id);
        var store' := AddChatConfig(AddUser(store, user), ChatConfig(id, ExistingUser));
        var route := SwitchOnState(bot, id, NewUser, a, kind);
        Step(store', route.sent, route.fault)
      else if userResult.None? || configResult.None? then
        Step(store, [], Some(NoSuchElement))
      else
        var route := SwitchOnState(bot, id, configResult.value.chatState, a, kind);
        Step(store, route.sent, route.fault)
  }

  /** `process`: the updates in list order; an exception ends the batch and escapes,
      otherwise `CONFIRMED_UPDATES_ALL` is returned. */
  function Process(bot: Bot, store: Store, arrivals: seq<Arrival>): (r: Batch)
    ensures Extends(store, r.store)
    ensures Keyed(store) ==> Keyed(r.store)
    ensures Paired(store) ==> Paired(r.store)
    ensures |arrivals| == 0 ==> r == Batch(store, [], ConfirmedAll)
    decreases |arrivals|
  {
    if |arrivals| == 0 then Batch(store, [], ConfirmedAll)
    else
      var step := ProcessUpdate(bot, store, arrivals[0]);
      if step.fault.Some? then Batch(step.store, step.sent, Aborted(step.fault.value))
      else
        var rest := Process(bot, step.store, arrivals[1..]);
        Batch(rest.store, step.sent + rest.sent, rest.outcome)
  }
}
