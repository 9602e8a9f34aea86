# Telegram chat-bot update listener — a Dafny model

This project models the update-handling core of a Telegram bot that relays
free-text messages to a chat-completion endpoint. The core is
`TelegramBotUpdatesListener` and the small `ButtonType` enum.

`TelegramBotUpdatesListener.process` takes a batch of updates and handles each in turn:

1. **Classify.** `checkingUpdate` sorts an update into COMMAND, MESSAGE, PHOTO,
   CALL_BACK_QUERY or ERROR. The message is inspected first: its text, then its photo.
2. **Attribute.** The sender comes from the message or the callback query. ERROR updates
   keep the defaults: chat id 0 and null names.
3. **Look up.** The user and the chat config are looked up by chat id.
   - If both are absent, both are created. The config is persisted as EXISTING_USER and the
     update gets the NEW_USER treatment: one welcome text.
   - Otherwise both are read with `Optional.get()`.
4. **Switch on the chat state.**
   - NEW_USER sends the welcome text.
   - EXISTING_USER goes to the router, `existingUserUpdateProcessing`.
   - ZERO_STATE does nothing.

The router is an if/else chain where the first match wins:
- free text goes to the completion endpoint, and the first choice is relayed;
- `/start` sends "one more time" and then the welcome text;
- help, menu, safety and support are each reached by command (compared case-insensitively
  with the whole text) or, except menu, by button (callback data compared exactly);
- an unknown command gets "no such command" and then help;
- a photo gets "cannot process photos" and then help;
- anything else sends nothing.

`sendMenu` builds a single-column inline keyboard. `ButtonType` maps its `type` strings back
to its two variants.

## Shape of the model

- `Wrappers.Option` stands in for Java's `null` and `Optional`.
- `JavaText` models `startsWith` and `equalsIgnoreCase`. It also renders a possibly-null
  string the way Java's `+` does (`"null"`).
- `ButtonTypes` models `ButtonType`: its `type` strings, the static lookup table built by a
  loop over `values()`, and `getButtonTypeByString`.
- `Updates` holds the update shapes, the classifier and the sender attribution.
- `Completion` holds the request, the response, its choices, and the call outcome: the call
  either throws a `RestClientException` or returns a possibly-null response.
- `Constants` holds a `Catalog`. It carries the texts of the `Messages`, `Commands` and
  `Buttons` constants, whose literal values are configuration. Two predicates state when
  those constants are distinct.
- `Store` models both repositories as maps keyed by chat id.
- `Menus` builds the keyboard of `sendMenu`, as a function and as the loop of `sendMenu`.
- `Listener` models `process`, the state switch and the router.
  - Outbound traffic is a trace of `Text`, `Menu` and `Post` events. A `Post` is a request
    to the completion endpoint.
  - Each update comes paired with the outcome the completion endpoint would give it.
  - A Java runtime exception (`NullPointerException`, `NoSuchElementException`,
    `IndexOutOfBoundsException`) is a `Fault`. A fault ends the batch: the
    exception escapes the `forEach`.
- `RouterProperties` and `BatchProperties` state the properties of one update and of a
  whole batch.

## Behaviour of the code worth knowing

- A command is compared with the whole message text, slash included
  (`TelegramBotUpdatesListener.java:151`).
- The completion reply is not guarded (`TelegramBotUpdatesListener.java:143-148`). After a
  thrown call, a null response or empty choices, the "no response" text is sent and then
  reading the first choice throws. That exception escapes the `forEach` and aborts the rest
  of the batch.
- ERROR updates are not dropped (`TelegramBotUpdatesListener.java:66-93`). They are
  attributed to chat 0. When chat 0 has neither record, they bootstrap it and welcome it.
  When it has exactly one record, they fail on `Optional.get()`. When it has both, the
  chat's state decides: EXISTING_USER reaches the router, which sends nothing for them,
  ZERO_STATE does nothing, and a stored NEW_USER state sends the welcome text again (this
  code itself only ever stores EXISTING_USER).

## Model

| member | source | states |
|---|---|---|
| `JavaText.EqualsIgnoreCaseIsEquivalence` | src/main/java/com/example/telegram_bot_chat_ai/listener/TelegramBotUpdatesListener.java:150-172 | case-insensitive command matching is reflexive, symmetric and transitive, so distinct commands split texts into disjoint classes |
| `JavaText.StartsWithSlash` | src/main/java/com/example/telegram_bot_chat_ai/listener/TelegramBotUpdatesListener.java:190 | `startsWith("/")` holds exactly for non-empty text whose first character is a slash |
| `JavaText.Render` | src/main/java/com/example/telegram_bot_chat_ai/listener/TelegramBotUpdatesListener.java:139 | a null operand is appended as "null" |
| `JavaText.EqualsIgnoreCase` | src/main/java/com/example/telegram_bot_chat_ai/listener/TelegramBotUpdatesListener.java:151-168 | `equalsIgnoreCase`: equal lengths and every character pair equal under the three-step case test |
| `JavaText.StartsWith` | src/main/java/com/example/telegram_bot_chat_ai/listener/TelegramBotUpdatesListener.java:190 | `startsWith`: the prefix is an initial segment of the text |
| `Listener.CommandIs` | src/main/java/com/example/telegram_bot_chat_ai/listener/TelegramBotUpdatesListener.java:150-170 | the update is a COMMAND whose whole text equals the command up to case |
| `Listener.CallbackIs` | src/main/java/com/example/telegram_bot_chat_ai/listener/TelegramBotUpdatesListener.java:154-170 | the update is a CALL_BACK_QUERY whose non-null data equals the button's callback data exactly |
| `ButtonTypes.Values` | src/main/java/com/example/telegram_bot_chat_ai/constant/ButtonType.java:7 | `values()` lists both variants, two distinct entries |
| `ButtonTypes.BuildLookup` | src/main/java/com/example/telegram_bot_chat_ai/constant/ButtonType.java:15-21 | the table built by the static loop has exactly the variants' `type` strings as keys, each mapped to a variant with that `type` |
| `ButtonTypes.ButtonTypeTable` | src/main/java/com/example/telegram_bot_chat_ai/constant/ButtonType.java:15-21 | the static map `BUTTON_TYPE`: the lookup built from all variants of `values()` |
| `ButtonTypes.GetButtonTypeByString` | src/main/java/com/example/telegram_bot_chat_ai/constant/ButtonType.java:23-25 | the lookup finds a variant exactly for "callback" and "url", and the variant found has the string as its `type` |
| `ButtonTypes.RoundTrip` | src/main/java/com/example/telegram_bot_chat_ai/constant/ButtonType.java:17-24 | looking up a variant's own `type` returns that variant |
| `ButtonTypes.TypeIsInjective` | src/main/java/com/example/telegram_bot_chat_ai/constant/ButtonType.java:7-13 | the two variants carry different `type` strings |
| `ButtonTypes.TableHasTwoEntries` | src/main/java/com/example/telegram_bot_chat_ai/constant/ButtonType.java:7-21 | the lookup table has exactly two keys, "callback" for CALLBACK and "url" for URL |
| `ButtonTypes.OtherStringsAreAbsent` | src/main/java/com/example/telegram_bot_chat_ai/constant/ButtonType.java:23-24 | every other string (case-sensitive) yields null |
| `Updates.CheckingUpdate` | src/main/java/com/example/telegram_bot_chat_ai/listener/TelegramBotUpdatesListener.java:187-207 | for each of the five types, the exact condition on message, text, photo and callback under which it is returned |
| `Updates.MessageWinsOverCallback` | src/main/java/com/example/telegram_bot_chat_ai/listener/TelegramBotUpdatesListener.java:188-206 | with a message present the callback query is irrelevant and the type is never CALL_BACK_QUERY |
| `Updates.SlashTextIsCommand` | src/main/java/com/example/telegram_bot_chat_ai/listener/TelegramBotUpdatesListener.java:189-191 | text starting with a slash is COMMAND, with or without a photo |
| `Updates.PlainTextIsMessage` | src/main/java/com/example/telegram_bot_chat_ai/listener/TelegramBotUpdatesListener.java:192-194 | other text, empty text included, is MESSAGE |
| `Updates.TypeDeterminesShape` | src/main/java/com/example/telegram_bot_chat_ai/listener/TelegramBotUpdatesListener.java:71-81 | the type guarantees the message (and its text) or the callback the listener then reads |
| `Updates.FromMessage` | src/main/java/com/example/telegram_bot_chat_ai/listener/TelegramBotUpdatesListener.java:71 | the sender is read from the message exactly for COMMAND, MESSAGE and PHOTO |
| `Updates.Attribute` | src/main/java/com/example/telegram_bot_chat_ai/listener/TelegramBotUpdatesListener.java:66-81 | ERROR updates get chat id 0 and null names; otherwise the sender is the message's or callback's `from`, and a null `from` throws |
| `Store.FindUser` | src/main/java/com/example/telegram_bot_chat_ai/listener/TelegramBotUpdatesListener.java:84 | present exactly when a user is stored under the id, and then that user |
| `Store.FindChatConfig` | src/main/java/com/example/telegram_bot_chat_ai/repository/ChatConfigRepository.java:18 | present exactly when a config is stored under the id, and then that config |
| `Store.AddUser` | src/main/java/com/example/telegram_bot_chat_ai/listener/TelegramBotUpdatesListener.java:89-90 | the user is stored under its own chat id; the configs and other users are untouched |
| `Store.AddChatConfig` | src/main/java/com/example/telegram_bot_chat_ai/listener/TelegramBotUpdatesListener.java:91-92 | the config is stored under its own chat id; the users and other configs are untouched |
| `Menus.ToInline` | src/main/java/com/example/telegram_bot_chat_ai/listener/TelegramBotUpdatesListener.java:233-237 | a button keeps its label and carries callback data exactly when it is CALLBACK-typed, otherwise its URL |
| `Menus.Keyboard` | src/main/java/com/example/telegram_bot_chat_ai/listener/TelegramBotUpdatesListener.java:231-238 | n buttons give n rows of exactly one button each, in input order |
| `Menus.BuildKeyboard` | src/main/java/com/example/telegram_bot_chat_ai/listener/TelegramBotUpdatesListener.java:231-238 | the array-filling loop produces the single-column keyboard, row i holding button i |
| `Menus.KeyboardIsUnique` | src/main/java/com/example/telegram_bot_chat_ai/listener/TelegramBotUpdatesListener.java:231-238 | the single-column keyboard for a button list is unique |
| `Menus.ContextMenuButtons` | src/main/java/com/example/telegram_bot_chat_ai/listener/TelegramBotUpdatesListener.java:161 | the context menu lists the support, safety and help buttons, in that order |
| `Listener.RelayCompletion` | src/main/java/com/example/telegram_bot_chat_ai/listener/TelegramBotUpdatesListener.java:124-148 | the text is posted first; handling completes without an exception exactly when the call returned a first choice with a message, whose content is then the last text sent |
| `Completion.NoChoices` | src/main/java/com/example/telegram_bot_chat_ai/listener/TelegramBotUpdatesListener.java:143 | the "no response" test: the response is null, or its choices are null or empty |
| `Listener.ExistingUserUpdateProcessing` | src/main/java/com/example/telegram_bot_chat_ai/listener/TelegramBotUpdatesListener.java:121-180 | only free text and callbacks can throw; a callback throws exactly when its data is null; ERROR sends nothing |
| `Listener.SwitchOnState` | src/main/java/com/example/telegram_bot_chat_ai/listener/TelegramBotUpdatesListener.java:100-108 | NEW_USER sends the welcome text alone, ZERO_STATE nothing, and only EXISTING_USER can throw |
| `Listener.ProcessUpdate` | src/main/java/com/example/telegram_bot_chat_ai/listener/TelegramBotUpdatesListener.java:64-109 | one update only adds records, never changes one, keeps records under their own ids and keeps users and configs paired; a faulting update changes nothing |
| `Listener.Process` | src/main/java/com/example/telegram_bot_chat_ai/listener/TelegramBotUpdatesListener.java:63-111 | the same store invariants over a whole batch; an empty batch sends nothing and is confirmed |
| `RouterProperties.Bootstrap` | src/main/java/com/example/telegram_bot_chat_ai/listener/TelegramBotUpdatesListener.java:83-103 | first contact adds exactly one user and one EXISTING_USER config under the sender's id and sends exactly one welcome text |
| `RouterProperties.BootstrapIff` | src/main/java/com/example/telegram_bot_chat_ai/listener/TelegramBotUpdatesListener.java:83-98 | the store changes exactly when the sender is known and has neither record |
| `RouterProperties.HalfPresentFaults` | src/main/java/com/example/telegram_bot_chat_ai/listener/TelegramBotUpdatesListener.java:94-98 | exactly one record present: `Optional.get()` throws, nothing sent, store unchanged |
| `RouterProperties.MissingSenderFaults` | src/main/java/com/example/telegram_bot_chat_ai/listener/TelegramBotUpdatesListener.java:71-81 | a null `from` throws before any lookup or send |
| `RouterProperties.ZeroStateDoesNothing` | src/main/java/com/example/telegram_bot_chat_ai/listener/TelegramBotUpdatesListener.java:107-108 | a ZERO_STATE chat: nothing sent, nothing changed |
| `RouterProperties.ExistingChatIsRouted` | src/main/java/com/example/telegram_bot_chat_ai/listener/TelegramBotUpdatesListener.java:94-106 | an EXISTING_USER chat is handed to the router with the store unchanged |
| `RouterProperties.ErrorUpdateBootstrapsChatZero` | src/main/java/com/example/telegram_bot_chat_ai/listener/TelegramBotUpdatesListener.java:66-93 | an ERROR update on a store without chat 0 creates user and config 0 with null names and welcomes chat 0 |
| `RouterProperties.ErrorUpdateOnChatZeroIsSilent` | src/main/java/com/example/telegram_bot_chat_ai/listener/TelegramBotUpdatesListener.java:172-178 | an ERROR update on an existing chat 0 sends nothing and changes nothing |
| `RouterProperties.FreeTextRelaysFirstChoice` | src/main/java/com/example/telegram_bot_chat_ai/listener/TelegramBotUpdatesListener.java:124-148 | a reply with a first choice: the request carries the text, and the one text sent is the first choice's content verbatim |
| `RouterProperties.FreeTextThrownCall` | src/main/java/com/example/telegram_bot_chat_ai/listener/TelegramBotUpdatesListener.java:131-148 | a thrown call sends apology prefix, error text and support suffix, then "no response", then throws on the null response |
| `RouterProperties.FreeTextNoChoices` | src/main/java/com/example/telegram_bot_chat_ai/listener/TelegramBotUpdatesListener.java:143-148 | a null response, null choices or empty choices sends "no response" and then throws (index out of bounds for an empty list, null pointer otherwise) |
| `RouterProperties.StartCommand` | src/main/java/com/example/telegram_bot_chat_ai/listener/TelegramBotUpdatesListener.java:150-153 | `/start` in any case sends "one more time" then the welcome text |
| `RouterProperties.OnlyTargetMatches` | src/main/java/com/example/telegram_bot_chat_ai/listener/TelegramBotUpdatesListener.java:150-171 | with case-insensitively distinct commands, a text matches at most one command of the chain |
| `RouterProperties.TopicByCommand` | src/main/java/com/example/telegram_bot_chat_ai/listener/TelegramBotUpdatesListener.java:154-171 | the help, safety or support command sends exactly that topic's text |
| `RouterProperties.TopicByCallback` | src/main/java/com/example/telegram_bot_chat_ai/listener/TelegramBotUpdatesListener.java:154-171 | the help, safety or support button's callback data sends exactly that topic's text |
| `RouterProperties.CommandAndCallbackAgree` | src/main/java/com/example/telegram_bot_chat_ai/listener/TelegramBotUpdatesListener.java:154-171 | command and button for the same topic have identical outcomes |
| `RouterProperties.CommandsIgnoreCase` | src/main/java/com/example/telegram_bot_chat_ai/listener/TelegramBotUpdatesListener.java:150-172 | two command texts equal up to case are handled identically |
| `RouterProperties.UnmatchedCallbackIsSilent` | src/main/java/com/example/telegram_bot_chat_ai/listener/TelegramBotUpdatesListener.java:154-178 | callback data equal to none of the three buttons' data sends nothing |
| `RouterProperties.NullCallbackDataFaults` | src/main/java/com/example/telegram_bot_chat_ai/listener/TelegramBotUpdatesListener.java:154-157 | a callback with null data throws on `equals` and sends nothing |
| `RouterProperties.MenuCommand` | src/main/java/com/example/telegram_bot_chat_ai/listener/TelegramBotUpdatesListener.java:159-161 | `/menu` sends one menu with the context-menu header and rows support, safety, help, one button each |
| `RouterProperties.UnknownCommand` | src/main/java/com/example/telegram_bot_chat_ai/listener/TelegramBotUpdatesListener.java:172-174 | a command matching none of the five sends "no such command" then help |
| `RouterProperties.PhotoUpdate` | src/main/java/com/example/telegram_bot_chat_ai/listener/TelegramBotUpdatesListener.java:175-177 | a photo sends "cannot process photos" then help |
| `BatchProperties.ProcessAppend` | src/main/java/com/example/telegram_bot_chat_ai/listener/TelegramBotUpdatesListener.java:64 | updates are handled in list order: a batch split in two runs the second part from the first part's store, after its events, unless the first part threw |
| `BatchProperties.ProcessSingle` | src/main/java/com/example/telegram_bot_chat_ai/listener/TelegramBotUpdatesListener.java:63-111 | a one-update batch is that update's step, confirmed unless it threw |
| `BatchProperties.ConfirmedIffNoFault` | src/main/java/com/example/telegram_bot_chat_ai/listener/TelegramBotUpdatesListener.java:63-111 | `CONFIRMED_UPDATES_ALL` is returned exactly when no reached update throws |
| `BatchProperties.PairedNeverMissesARecord` | src/main/java/com/example/telegram_bot_chat_ai/listener/TelegramBotUpdatesListener.java:83-98 | starting from paired users and configs, no update of a batch fails on `Optional.get()` |
| `BatchProperties.SecondContactIsNotNew` | src/main/java/com/example/telegram_bot_chat_ai/listener/TelegramBotUpdatesListener.java:83-98 | a new chat is bootstrapped once: a second update from it changes nothing in the store |

## Left out

- Telegram client calls (`telegramBot.execute`, `setUpdatesListener` in `init`) are network I/O. Each send is a trace event, and handling always continues after it.
- The delivery result of a send and the error logs of `sendMessage`/`sendMenu` are diagnostics only. This includes the inverted else-branch of `sendMenu`, which only changes log text.
- The stack-trace formatting and logging of a failed completion call are diagnostics only.
- `restTemplate.postForObject` is a foreign HTTP client. Its outcome is an input paired with each update. The API URL is not modelled; the request records the model name and the prompt.
- Exceptions from the completion call other than `RestClientException` are not modelled. They would escape like any other fault.
- JavaText.EqualsIgnoreCase: models `equalsIgnoreCase` with ASCII case mapping only. Unicode case folding is not modelled.
- The literal texts of `Messages`, `Commands` and `Buttons` are configuration outside this core. They are fields of a `Catalog`, and which kind each button is stays open.
- Nulls the model does not represent:
  - null content in a choice's message;
  - null elements in the choices list;
  - a null chat state in a stored config;
  - a null `bType` on a button;
  - null constant texts;
  - a null argument to `getButtonTypeByString`, which Java answers with null;
  - a null `updates` list, on which `forEach` throws a NullPointerException (line 64);
  - a null element of the list, on which `checkingUpdate` throws a NullPointerException (line 188).
- What the Telegram client library does with an exception that escapes `process` (for example, re-delivering the batch) is outside this core.
- Concurrency and the atomicity of the two repository writes are not modelled. Updates are handled sequentially, as the code does.
- Spring wiring (dependency injection, `@Value` configuration, `@Qualifier`) is not modelled.
- The `Choice.index` field is carried but never read, as in the code.
