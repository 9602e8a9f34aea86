/**
 The two repositories the listener reads and writes (users and chat configs),
 reduced to finite maps keyed by chat id, and the chat states.
 */
module Store {
  import opened Wrappers
  import opened Updates

  /** `ChatState`; `ZeroState` is declared but nothing moves a chat into it. */
  datatype ChatState = NewUser | ExistingUser | ZeroState

  /** The user record created on first contact. */
  datatype User = User(firstName: Option<string>, lastName: Option<string>, nickName: Option<string>, chatId: ChatId)

  /** The chat config record created on first contact. */
  datatype ChatConfig = ChatConfig(chatId: ChatId, chatState: ChatState)

  /** Both repositories; `findByChatId` is a map lookup. */
  datatype Store = Store(users: map<ChatId, User>, configs: map<ChatId, ChatConfig>)

  function FindUser(s: Store, id: ChatId): (r: Option<User>)
    ensures r.Some? <==> id in s.users
    ensures r.Some? ==> r.value == s.users[id]
  {
    if id in s.users then Some(s.users[id]) else None
  }

  function FindChatConfig(s: Store, id: ChatId): (r: Option<ChatConfig>)
    ensures r.Some? <==> id in s.configs
    ensures r.Some? ==> r.value == s.configs[id]
  {
    if id in s.configs then Some(s.configs[id]) else None
  }

  /** `userService.addUser`: the record is stored under its own chat id; nothing else changes. */
  function AddUser(s: Store, u: User): (r: Store)
    ensures r.configs == s.configs
    ensures r.users.Keys == s.users.Keys + {u.chatId} && r.users[u.chatId] == u
    ensures forall id :: id in s.users && id != u.chatId ==> r.users[id] == s.users[id]
  {
    s.(users := s.users[u.chatId := u])
  }

  /** `chatConfigService.addChatConfig`: the record is stored under its own chat id; nothing else changes. */
  function AddChatConfig(s: Store, c: ChatConfig): (r: Store)
    ensures r.users == s.users
    ensures r.configs.Keys == s.configs.Keys + {c.chatId} && r.configs[c.chatId] == c
    ensures forall id :: id in s.configs && id != c.chatId ==> r.configs[id] == s.configs[id]
  {
    s.(configs := s.configs[c.chatId := c])
  }

  /** Users and chat configs exist for the same chat ids ("both or neither"). */
  predicate Paired(s: Store) {
    s.users.Keys == s.configs.Keys
  }

  /** Every record is stored under the chat id it carries. */
  predicate Keyed(s: Store) {
    && (forall id :: id in s.users ==> s.users[id].chatId == id)
    && (forall id :: id in s.configs ==> s.configs[id].chatId == id)
  }

  /** `s'` holds every record of `s`, unchanged. */
  predicate Extends(s: Store, s': Store) {
    && s.users.Keys <= s'.users.Keys
    && s.configs.Keys <= s'.configs.Keys
    && (forall id :: id in s.users ==> s'.users[id] == s.users[id])
    && (forall id :: id in s.configs ==> s'.configs[id] == s.configs[id])
  }

}
