/**
 Properties of one update's handling: bootstrap, attribution of `ERROR`
 updates, the half-present fault, the completion relay and the router's
 outcomes.
 */
module RouterProperties {
  import opened Wrappers
  import opened JavaText
  import opened Updates
  import opened Completion
  import opened Constants
  import opened Store
  import opened Menus
  import opened Listener

  /** The chat has both records and its config says `EXISTING_USER`. */
  predicate Existing(store: Store, id: ChatId) {
    id in store.users && id in store.configs && store.configs[id].chatState == ExistingUser
  }

  /** The sender an arrival is attributed to, when its `from()` is not null. */
  predicate AttributedTo(a: Arrival, sender: Sender) {
    Attribute(a.update, CheckingUpdate(a.update)) == Some(sender)
  }

  // ---------------------------------------------------------------- bootstrap

  /** First contact: both records are created under the sender's id, the persisted state is
      `EXISTING_USER`, and the only thing sent is the welcome text. */
  lemma Bootstrap(bot: Bot, store: Store, a: Arrival, sender: Sender)
    requires AttributedTo(a, sender)
    requires sender.chatId !in store.users && sender.chatId !in store.configs
    ensures var id := sender.chatId;
      ProcessUpdate(bot, store, a) == Step(
        Store(store.users[id := User(sender.firstName, sender.lastName, sender.nickName, id)],
              store.configs[id := ChatConfig(id, ExistingUser)]),
        [Text(id, bot.catalog.messages.welcome)],
        None)
  {
  }

  /** The store changes exactly when the sender is known and has neither record. */
  lemma BootstrapIff(bot: Bot, store: Store, a: Arrival)
    ensures ProcessUpdate(bot, store, a).store != store <==>
      exists sender :: AttributedTo(a, sender) && sender.chatId !in store.users && sender.chatId !in store.configs
  {
  }

  /** Exactly one of the two records present: `Optional.get()` throws before anything is sent. */
  lemma HalfPresentFaults(bot: Bot, store: Store, a: Arrival, sender: Sender)
    requires AttributedTo(a, sender)
    requires (sender.chatId in store.users) != (sender.chatId in store.configs)
    ensures ProcessUpdate(bot, store, a) == Step(store, [], Some(NoSuchElement))
  {
  }

  /** A null `from()` on a message or callback query throws before any lookup. */
  lemma MissingSenderFaults(bot: Bot, store: Store, a: Arrival)
    requires CheckingUpdate(a.update) != Error
    requires Attribute(a.update, CheckingUpdate(a.update)).None?
    ensures ProcessUpdate(bot, store, a) == Step(store, [], Some(NullPointer))
  {
  }

  /** `ZERO_STATE` chats: nothing is sent and nothing changes. */
  lemma ZeroStateDoesNothing(bot: Bot, store: Store, a: Arrival, sender: Sender)
    requires AttributedTo(a, sender)
    requires sender.chatId in store.users && sender.chatId in store.configs
    requires store.configs[sender.chatId].chatState == ZeroState
    ensures ProcessUpdate(bot, store, a) == Step(store, [], None)
  {
  }

  /** For an existing chat the update goes to the router and the store is left as it is. */
  lemma ExistingChatIsRouted(bot: Bot, store: Store, a: Arrival, sender: Sender)
    requires AttributedTo(a, sender) && Existing(store, sender.chatId)
    ensures var route := ExistingUserUpdateProcessing(bot, sender.chatId, a.update, CheckingUpdate(a.update), a.completion);
      ProcessUpdate(bot, store, a) == Step(store, route.sent, route.fault)
  {
  }

  // ---------------------------------------------------------------- ERROR updates

  /** `ERROR` updates belong to chat 0 with null names: on a store without chat 0 they
      bootstrap it. */
  lemma ErrorUpdateBootstrapsChatZero(bot: Bot, store: Store, a: Arrival)
    requires CheckingUpdate(a.update) == Error
    requires 0 !in store.users && 0 !in store.configs
    ensures ProcessUpdate(bot, store, a) == Step(
      Store(store.users[0 := User(None, None, None, 0)], store.configs[0 := ChatConfig(0, ExistingUser)]),
      [Text(0, bot.catalog.messages.welcome)],
      None)
  {
  }

  /** ... and on an existing chat 0 they send nothing. */
  lemma ErrorUpdateOnChatZeroIsSilent(bot: Bot, store: Store, a: Arrival)
    requires CheckingUpdate(a.update) == Error
    requires Existing(store, 0)
    ensures ProcessUpdate(bot, store, a) == Step(store, [], None)
  {
  }

  // ---------------------------------------------------------------- free text

  /** The `MESSAGE` update of an existing chat, with its sender and text. */
  predicate FreeTextFrom(store: Store, a: Arrival, sender: Sender, text: string) {
    && CheckingUpdate(a.update) == Message
    && AttributedTo(a, sender)
    && a.update.message.value.text == Some(text)
    && Existing(store, sender.chatId)
  }

  /** A reply with a first choice is relayed verbatim, after the request carrying the text. */
  lemma FreeTextRelaysFirstChoice(bot: Bot, store: Store, a: Arrival, sender: Sender, text: string, cs: seq<Choice>, content: string)
    requires FreeTextFrom(store, a, sender, text)
    requires a.completion == Returned(Some(ChatResponse(Some(cs))))
    requires |cs| > 0 && cs[0].message == Some(ChoiceMessage(content))
    ensures ProcessUpdate(bot, store, a) == Step(store,
      [Post(ChatRequest(bot.model, text)), Text(sender.chatId, content)], None)
  {
  }

  /** A thrown call: the apology (prefix, error text, suffix), then "no response", then the
      dereference of the null response throws. */
  lemma FreeTextThrownCall(bot: Bot, store: Store, a: Arrival, sender: Sender, text: string, err: Option<string>)
    requires FreeTextFrom(store, a, sender, text)
    requires a.completion == Threw(err)
    ensures var msgs := bot.catalog.messages; var id := sender.chatId;
      ProcessUpdate(bot, store, a) == Step(store,
        [Post(ChatRequest(bot.model, text)),
         Text(id, msgs.somethingWrong + Render(err) + msgs.callSupport),
         Text(id, msgs.noResponse)],
        Some(NullPointer))
  {
  }

  /** A null response, null choices or empty choices: "no response", then reading the first
      choice throws. */
  lemma FreeTextNoChoices(bot: Bot, store: Store, a: Arrival, sender: Sender, text: string, response: Option<ChatResponse>)
    requires FreeTextFrom(store, a, sender, text)
    requires a.completion == Returned(response) && NoChoices(response)
    ensures var r := ProcessUpdate(bot, store, a);
      && r.store == store
      && r.sent == [Post(ChatRequest(bot.model, text)), Text(sender.chatId, bot.catalog.messages.noResponse)]
      && r.fault == Some(if response.Some? && response.value.choices.Some? then IndexOutOfBounds else NullPointer)
  {
  }

  // ---------------------------------------------------------------- commands and callbacks

  /** A command update of an existing chat, with its sender and text. */
  predicate CommandFrom(store: Store, a: Arrival, sender: Sender, text: string) {
    && CheckingUpdate(a.update) == Command
    && AttributedTo(a, sender)
    && a.update.message.value.text == Some(text)
    && Existing(store, sender.chatId)
  }

  /** A callback update of an existing chat, with its sender and (non-null) data. */
  predicate CallbackFrom(store: Store, a: Arrival, sender: Sender, data: string) {
    && CheckingUpdate(a.update) == CallBackQuery
    && AttributedTo(a, sender)
    && a.update.callbackQuery.value.data == Some(data)
    && Existing(store, sender.chatId)
  }

  /** `/start` (in any case): "one more time", then the welcome text. */
  lemma StartCommand(bot: Bot, store: Store, a: Arrival, sender: Sender, text: string)
    requires CommandFrom(store, a, sender, text)
    requires EqualsIgnoreCase(text, bot.catalog.commands.start)
    ensures var msgs := bot.catalog.messages;
      ProcessUpdate(bot, store, a) == Step(store,
        [Text(sender.chatId, msgs.wellOneMoreTime), Text(sender.chatId, msgs.welcome)], None)
  {
  }

  /** The three topics reachable both by command and by button. */
  datatype Topic = HelpTopic | SafetyTopic | SupportTopic

  function TopicCommand(cat: Catalog, t: Topic): string {
    match t
    case HelpTopic => cat.commands.help
    case SafetyTopic => cat.commands.safety
    case SupportTopic => cat.commands.support
  }

  function TopicButton(cat: Catalog, t: Topic): ButtonSpec {
    match t
    case HelpTopic => cat.helpButton
    case SafetyTopic => cat.safetyButton
    case SupportTopic => cat.supportButton
  }

  function TopicText(cat: Catalog, t: Topic): string {
    match t
    case HelpTopic => cat.messages.help
    case SafetyTopic => cat.messages.safety
    case SupportTopic => cat.messages.support
  }

  /** The commands in the order the router tests them. */
  function CommandChain(c: CommandTexts): seq<string> {
    [c.start, c.help, c.menu, c.safety, c.support]
  }

  /** With distinct commands, a text matching the command at position `target` of the chain
      matches no other. */
  lemma OnlyTargetMatches(c: CommandTexts, text: string, target: nat)
    requires DistinctCommands(c)
    requires target < 5 && EqualsIgnoreCase(text, CommandChain(c)[target])
    ensures forall i | 0 <= i < 5 :: EqualsIgnoreCase(text, CommandChain(c)[i]) <==> i == target
  {
  }

  /** With distinct commands, a command matching a topic's command sends that topic's text alone. */
  lemma TopicByCommand(bot: Bot, store: Store, a: Arrival, sender: Sender, text: string, t: Topic)
    requires DistinctCommands(bot.catalog.commands)
    requires CommandFrom(store, a, sender, text)
    requires EqualsIgnoreCase(text, TopicCommand(bot.catalog, t))
    ensures ProcessUpdate(bot, store, a) == Step(store, [Text(sender.chatId, TopicText(bot.catalog, t))], None)
  {
    var c := bot.catalog.commands;
    var target := match t case HelpTopic => 1 case SafetyTopic => 3 case SupportTopic => 4;
    assert CommandChain(c)[target] == TopicCommand(bot.catalog, t);
    OnlyTargetMatches(c, text, target);
    assert !EqualsIgnoreCase(text, CommandChain(c)[0]);
    assert !EqualsIgnoreCase(text, CommandChain(c)[2]);
    assert target != 1 ==> !EqualsIgnoreCase(text, CommandChain(c)[1]);
    assert target != 3 ==> !EqualsIgnoreCase(text, CommandChain(c)[3]);
    ExistingChatIsRouted(bot, store, a, sender);
  }

  /** With distinct callback data, a button press carrying a topic's callback data sends that
      topic's text alone. */
  lemma TopicByCallback(bot: Bot, store: Store, a: Arrival, sender: Sender, data: string, t: Topic)
    requires DistinctCallbacks(bot.catalog)
    requires CallbackFrom(store, a, sender, data)
    requires TopicButton(bot.catalog, t).callBack == Some(data)
    ensures ProcessUpdate(bot, store, a) == Step(store, [Text(sender.chatId, TopicText(bot.catalog, t))], None)
  {
  }

  /** Command and button reach the same topic with the identical outcome. */
  lemma CommandAndCallbackAgree(bot: Bot, store: Store, a1: Arrival, a2: Arrival, sender: Sender,
                                text: string, data: string, t: Topic)
    requires DistinctCommands(bot.catalog.commands) && DistinctCallbacks(bot.catalog)
    requires CommandFrom(store, a1, sender, text) && EqualsIgnoreCase(text, TopicCommand(bot.catalog, t))
    requires CallbackFrom(store, a2, sender, data) && TopicButton(bot.catalog, t).callBack == Some(data)
    ensures ProcessUpdate(bot, store, a1) == ProcessUpdate(bot, store, a2)
  {
    TopicByCommand(bot, store, a1, sender, text, t);
    TopicByCallback(bot, store, a2, sender, data, t);
  }

  /** Commands are compared case-insensitively: two command texts equal up to case are handled
      identically. */
  lemma CommandsIgnoreCase(bot: Bot, store: Store, a1: Arrival, a2: Arrival, sender: Sender, t1: string, t2: string)
    requires CommandFrom(store, a1, sender, t1) && CommandFrom(store, a2, sender, t2)
    requires EqualsIgnoreCase(t1, t2)
    ensures ProcessUpdate(bot, store, a1) == ProcessUpdate(bot, store, a2)
  {
  }

  /** Callback data is compared exactly: data equal to none of the three buttons' callback data
      sends nothing. */
  lemma UnmatchedCallbackIsSilent(bot: Bot, store: Store, a: Arrival, sender: Sender, data: string)
    requires CallbackFrom(store, a, sender, data)
    requires forall t: Topic :: TopicButton(bot.catalog, t).callBack != Some(data)
    ensures ProcessUpdate(bot, store, a) == Step(store, [], None)
  {
    assert TopicButton(bot.catalog, HelpTopic).callBack != Some(data);
    assert TopicButton(bot.catalog, SafetyTopic).callBack != Some(data);
    assert TopicButton(bot.catalog, SupportTopic).callBack != Some(data);
  }

  /** A button press with null data throws on `data().equals(...)`. */
  lemma NullCallbackDataFaults(bot: Bot, store: Store, a: Arrival, sender: Sender)
    requires CheckingUpdate(a.update) == CallBackQuery && AttributedTo(a, sender)
    requires a.update.callbackQuery.value.data.None?
    requires Existing(store, sender.chatId)
    ensures ProcessUpdate(bot, store, a) == Step(store, [], Some(NullPointer))
  {
  }

  /** `/menu`: one menu whose keyboard lists support, safety and help, one button per row. */
  lemma MenuCommand(bot: Bot, store: Store, a: Arrival, sender: Sender, text: string)
    requires DistinctCommands(bot.catalog.commands)
    requires CommandFrom(store, a, sender, text)
    requires EqualsIgnoreCase(text, bot.catalog.commands.menu)
    ensures var cat := bot.catalog; var r := ProcessUpdate(bot, store, a);
      && r.store == store && r.fault.None? && |r.sent| == 1
      && r.sent[0].Menu? && r.sent[0].chatId == sender.chatId && r.sent[0].header == cat.messages.contextMenu
      && r.sent[0].rows == [[ToInline(cat.supportButton)], [ToInline(cat.safetyButton)], [ToInline(cat.helpButton)]]
  {
    var c := bot.catalog.commands;
    OnlyTargetMatches(c, text, 2);
    assert !EqualsIgnoreCase(text, CommandChain(c)[0]);
    assert !EqualsIgnoreCase(text, CommandChain(c)[1]);
    ExistingChatIsRouted(bot, store, a, sender);
    var rows := Keyboard(ContextMenuButtons(bot.catalog));
    assert rows[0] == [ToInline(bot.catalog.supportButton)];
  }

  /** A command matching none of the five: "no such command", then help. */
  lemma UnknownCommand(bot: Bot, store: Store, a: Arrival, sender: Sender, text: string)
    requires CommandFrom(store, a, sender, text)
    requires forall i | 0 <= i < 5 :: !EqualsIgnoreCase(text, CommandChain(bot.catalog.commands)[i])
    ensures var msgs := bot.catalog.messages;
      ProcessUpdate(bot, store, a) == Step(store,
        [Text(sender.chatId, msgs.noSuchCommand), Text(sender.chatId, msgs.help)], None)
  {
    var c := CommandChain(bot.catalog.commands);
    assert !EqualsIgnoreCase(text, c[0]) && !EqualsIgnoreCase(text, c[1]) && !EqualsIgnoreCase(text, c[2]);
    assert !EqualsIgnoreCase(text, c[3]) && !EqualsIgnoreCase(text, c[4]);
  }

  /** A photo: "cannot process photos", then help. */
  lemma PhotoUpdate(bot: Bot, store: Store, a: Arrival, sender: Sender)
    requires CheckingUpdate(a.update) == Photo && AttributedTo(a, sender)
    requires Existing(store, sender.chatId)
    ensures var msgs := bot.catalog.messages;
      ProcessUpdate(bot, store, a) == Step(store,
        [Text(sender.chatId, msgs.cannotProcessPhotos), Text(sender.chatId, msgs.help)], None)
  {
  }
}
