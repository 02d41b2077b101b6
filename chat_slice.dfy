/**
 * src/features/chatSlice.js: the chat thunks over the `chats` table
 * (seeding a chat on its first message, creating, replacing, deleting and
 * importing chats) and the chat reducer.
 */
module ChatSlice {
  import opened Wrappers
  import opened Records
  import opened Constants
  import opened Seqs
  import opened Tables

  const CHAT_NOT_FOUND: string := "Chat not found."
  const INVALID_CHAT_DATA: string := "Invalid chat data format."
  const DB_ERROR_FALLBACK: string := "An error occurred while accessing the database."

  /** handleDbError: a thunk rejects with the error's message, or with a fixed text when that is empty. */
  function DbErrorValue(message: string): (r: string)
    ensures r != ""
    ensures message != "" ==> r == message
    ensures message == "" ==> r == DB_ERROR_FALLBACK
  {
    if message != "" then message else DB_ERROR_FALLBACK
  }

  // ---------------------------------------------------------------------------
  // Seeding a chat on its first message

  /** `JSON.parse(saved) || []` for the saved seeds; a malformed value throws instead. */
  function SavedSeedList(saved: Parsed<seq<Seed>>): (r: seq<Seed>)
    requires !saved.Malformed?
    ensures saved.Value? ==> r == saved.value
    ensures saved.Null? ==> r == []
  {
    if saved.Value? then saved.value else []
  }

  /** A seed is copied into a new chat when both its role and its message are truthy. */
  predicate SeedIsCopied(s: Seed) { s.role != "" && s.message != "" }

  function SeedToMessage(s: Seed): Message { Message(s.role, s.message) }

  /** The messages the seeding loop pushes: the copied seeds, in order, as `{role, txt}`. */
  function SeedMessages(seeds: seq<Seed>): seq<Message> {
    Map(Filter(seeds, SeedIsCopied), SeedToMessage)
  }

  /** Seeding a sequence is seeding its parts: the copied seeds keep their relative order. */
  lemma SeedMessagesConcat(a: seq<Seed>, b: seq<Seed>)
    ensures SeedMessages(a + b) == SeedMessages(a) + SeedMessages(b)
  {
    FilterConcat(a, b, SeedIsCopied);
    MapConcat(Filter(a, SeedIsCopied), Filter(b, SeedIsCopied), SeedToMessage);
  }

  /** The first of the two synthetic character-introduction messages. */
  function IntroText(c: Character): string {
    "Role play as, Character Name: " + c.name + ".\nCharacter description: " + c.description
    + ".\nExample dialogue: " + c.prompt
  }

  /** The acknowledgement that follows the introduction. */
  function AckText(c: Character): string {
    "Understood, I'll play as " + c.name + " from now on."
  }

  /** The introduction pair, present only when the chat's character was found. */
  function IntroPair(character: Option<Character>): (r: seq<Message>)
    ensures character.None? ==> r == []
    ensures character.Some? ==> |r| == 2 && r[0].role == YOU && r[1].role == AI
  {
    if character.Some? then [Message(YOU, IntroText(character.value)), Message(AI, AckText(character.value))]
    else []
  }

  /** `chat.characterId && character`: the chat's character, when its id is truthy and the row exists. */
  function CharacterOf(characters: map<int, Character>, characterId: Option<int>): (r: Option<Character>)
    ensures r.Some? <==> characterId.Some? && characterId.value != 0 && characterId.value in characters
    ensures r.Some? ==> r.value == characters[characterId.value]
  {
    if characterId.Some? && characterId.value != 0 && characterId.value in characters
    then Some(characters[characterId.value])
    else None
  }

  /**
   * The content addMessage writes: on an empty chat the copied seeds, then the
   * introduction pair, then the message; otherwise the old content plus the message.
   */
  function ContentAfterAdd(content: seq<Message>, seeds: seq<Seed>, character: Option<Character>,
                           role: string, text: string): (r: seq<Message>)
    ensures |r| >= 1 && r[|r| - 1] == Message(role, text)
    ensures content != [] ==> |r| == |content| + 1 && r[..|content|] == content
    ensures content == [] ==> r[..|r| - 1] == SeedMessages(seeds) + IntroPair(character)
  {
    if content == [] then SeedMessages(seeds) + IntroPair(character) + [Message(role, text)]
    else content + [Message(role, text)]
  }

  /** The `forEach` loop that pushes the copied seeds onto an empty content. */
  method CopySeeds(seeds: seq<Seed>) returns (content: seq<Message>)
    ensures content == SeedMessages(seeds)
  {
    content := [];
    for i := 0 to |seeds|
      invariant content == SeedMessages(seeds[..i])
    {
      if seeds[i].role != "" && seeds[i].message != "" {
        content := content + [Message(seeds[i].role, seeds[i].message)];
      }
      assert seeds[..i + 1] == seeds[..i] + [seeds[i]];
      SeedMessagesConcat(seeds[..i], [seeds[i]]);
    }
    assert seeds[..|seeds|] == seeds;
  }

  // ---------------------------------------------------------------------------
  // Thunks over the chats table

  /** addChat: a new row with a fresh id and empty content; the row written is the row returned. */
  method AddChat(db: Db, title: string, characterId: Option<int>, now: int) returns (chat: Chat)
    requires db.Valid()
    modifies db`chats, db`nextChatId
    ensures db.Valid()
    ensures chat.id == old(db.nextChatId) && chat.id !in old(db.chats)
    ensures chat == Chat(chat.id, title, now, [], characterId)
    ensures db.chats == old(db.chats)[chat.id := chat]
  {
    chat := Chat(db.nextChatId, title, now, [], characterId);
    db.chats := db.chats[chat.id := chat];
    db.nextChatId := db.nextChatId + 1;
  }

  /**
   * addMessage: reads the chat, parses the saved seeds, seeds the chat when its
   * content is empty, appends `{role, txt: text}`, writes the chat back with `put`
   * and fulfils with the content it wrote.
   */
  method AddMessage(db: Db, chatId: int, role: string, text: string, savedSeeds: Parsed<seq<Seed>>)
    returns (r: Result<seq<Message>, string>)
    requires db.Valid()
    modifies db`chats
    ensures db.Valid()
    ensures r.Failure? ==> r.error != "" && db.chats == old(db.chats)
    ensures chatId !in old(db.chats) ==> r == Failure(CHAT_NOT_FOUND)
    ensures chatId in old(db.chats) && savedSeeds.Malformed? ==> r == Failure(DbErrorValue(savedSeeds.message))
    ensures chatId in old(db.chats) && !savedSeeds.Malformed? ==>
              var chat := old(db.chats[chatId]);
              && r == Success(ContentAfterAdd(chat.content, SavedSeedList(savedSeeds),
                                              CharacterOf(old(db.characters), chat.characterId), role, text))
              && db.chats == old(db.chats)[chatId := chat.(content := r.value)]
  {
    if chatId !in db.chats {
      return Failure(CHAT_NOT_FOUND);
    }
    var chat := db.chats[chatId];
    if savedSeeds.Malformed? {
      return Failure(DbErrorValue(savedSeeds.message));
    }
    var seeds := SavedSeedList(savedSeeds);
    var content := chat.content;
    if |content| == 0 {
      content := CopySeeds(seeds);
      var character := db.CharacterById(chat.characterId);
      if chat.characterId.Some? && chat.characterId.value != 0 && character.Some? {
        content := content + [Message(YOU, IntroText(character.value))];
        content := content + [Message(AI, AckText(character.value))];
      }
      assert content == SeedMessages(seeds) + IntroPair(CharacterOf(db.characters, chat.characterId));
    }
    content := content + [Message(role, text)];
    db.chats := db.chats[chatId := chat.(content := content)];
    r := Success(content);
  }

  /** deleteChat: removes the row and fulfils with its id. */
  method DeleteChat(db: Db, chatId: int) returns (deleted: int)
    requires db.Valid()
    modifies db`chats
    ensures db.Valid()
    ensures deleted == chatId
    ensures chatId !in db.chats
    ensures db.chats == old(db.chats) - {chatId}
  {
    db.chats := db.chats - {chatId};
    deleted := chatId;
  }

  /** The fulfilled value of updateMessages. */
  datatype MessagesUpdate = MessagesUpdate(chatId: int, newMessages: seq<Message>)

  /** updateMessages: replaces the content of an existing chat and nothing else. */
  method UpdateMessages(db: Db, chatId: int, newMessages: seq<Message>) returns (r: Result<MessagesUpdate, string>)
    requires db.Valid()
    modifies db`chats
    ensures db.Valid()
    ensures chatId !in old(db.chats) ==> r == Failure(CHAT_NOT_FOUND) && db.chats == old(db.chats)
    ensures chatId in old(db.chats) ==>
              && r == Success(MessagesUpdate(chatId, newMessages))
              && db.chats == old(db.chats)[chatId := old(db.chats[chatId]).(content := newMessages)]
  {
    if chatId !in db.chats {
      return Failure(CHAT_NOT_FOUND);
    }
    var chat := db.chats[chatId];
    db.chats := db.chats[chatId := chat.(content := newMessages)];
    r := Success(MessagesUpdate(chatId, newMessages));
  }

  /**
   * An exported chat as read back from a file. `content` is `None` when the
   * field is missing or not an array; an absent `title` reads as "".
   */
  datatype ChatData = ChatData(title: string, content: Option<seq<Message>>, characterId: Option<int>, timestamp: Option<int>)

  /**
   * importChat's validation and record construction: the row that would be
   * stored under `id`, or the rejection.
   */
  function ImportedChat(data: ChatData, id: int, now: int): (r: Result<Chat, string>)
    ensures r.Failure? <==> data.title == "" || data.content.None?
    ensures r.Failure? ==> r.error == INVALID_CHAT_DATA
    ensures r.Success? ==>
              && r.value.id == id
              && r.value.title == data.title
              && r.value.content == data.content.value
              && (r.value.characterId.Some? <==> data.characterId.Some? && data.characterId.value != 0)
              && (r.value.characterId.Some? ==> r.value.characterId == data.characterId)
              && (data.timestamp.Some? && data.timestamp.value != 0 ==> r.value.timestamp == data.timestamp.value)
              && (data.timestamp.None? || data.timestamp.value == 0 ==> r.value.timestamp == now)
  {
    if data.title == "" || data.content.None? then Failure(INVALID_CHAT_DATA)
    else
      var characterId := if data.characterId.Some? && data.characterId.value != 0 then data.characterId else None;
      var timestamp := if data.timestamp.Some? && data.timestamp.value != 0 then data.timestamp.value else now;
      Success(Chat(id, data.title, timestamp, data.content.value, characterId))
  }

  /** importChat: stores a valid export under a fresh id, ignoring any id it carried. */
  method ImportChat(db: Db, data: ChatData, now: int) returns (r: Result<Chat, string>)
    requires db.Valid()
    modifies db`chats, db`nextChatId
    ensures db.Valid()
    ensures r == ImportedChat(data, old(db.nextChatId), now)
    ensures r.Failure? ==> db.chats == old(db.chats)
    ensures r.Success? ==> r.value.id !in old(db.chats) && db.chats == old(db.chats)[r.value.id := r.value]
  {
    r := ImportedChat(data, db.nextChatId, now);
    if r.Success? {
      db.chats := db.chats[r.value.id := r.value];
      db.nextChatId := db.nextChatId + 1;
    }
  }

  // ---------------------------------------------------------------------------
  // The chat reducer

  /** The actions the chat reducer receives; `Other` stands for every action it has no case for. */
  datatype ChatAction =
    | FetchChatsPending
    | FetchChatsFulfilled(chats: seq<Chat>)
    | FetchChatsRejected(error: string)
    | FetchChatByIdRejected(error: string)
    | AddChatFulfilled(chat: Chat)
    | AddChatRejected(error: string)
    | DeleteChatFulfilled(id: int)
    | DeleteChatRejected(error: string)
    | UpdateMessagesFulfilled(update: MessagesUpdate)
    | UpdateMessagesRejected(error: string)
    | ImportChatFulfilled(chat: Chat)
    | ImportChatRejected(error: string)
    | Other

  /** `state.chats.find(c => c.id === chatId)` gets its content replaced. */
  function ReplaceContent(chats: seq<Chat>, chatId: int, content: seq<Message>): (r: seq<Chat>)
    ensures |r| == |chats|
    ensures var k := FindIndex(chats, (c: Chat) => c.id == chatId);
            forall i :: 0 <= i < |chats| ==> r[i] == if i == k then chats[i].(content := content) else chats[i]
  {
    var k := FindIndex(chats, (c: Chat) => c.id == chatId);
    if k < 0 then chats else chats[k := chats[k].(content := content)]
  }

  /** The in-memory chat list with its loading flag and last error. */
  class ChatState {
    var chats: seq<Chat>
    var loading: bool
    var error: Option<string>

    constructor ()
      ensures chats == [] && !loading && error == None
    {
      chats, loading, error := [], false, None;
    }

    /** The slice's extra reducers, one case per action. */
    method Apply(action: ChatAction)
      modifies this
      ensures action.FetchChatsPending? ==> loading && error == None && chats == old(chats)
      ensures action.FetchChatsFulfilled? ==> !loading && chats == action.chats && error == old(error)
      ensures action.FetchChatsRejected? ==> !loading && error == Some(action.error) && chats == old(chats)
      ensures action.FetchChatByIdRejected? || action.AddChatRejected? || action.DeleteChatRejected?
              || action.UpdateMessagesRejected? || action.ImportChatRejected? ==>
                error == Some(action.error) && chats == old(chats) && loading == old(loading)
      ensures action.AddChatFulfilled? || action.ImportChatFulfilled? ==>
                chats == old(chats) + [action.chat] && loading == old(loading) && error == old(error)
      ensures action.DeleteChatFulfilled? ==>
                chats == Filter(old(chats), (c: Chat) => c.id != action.id)
                && loading == old(loading) && error == old(error)
      ensures action.UpdateMessagesFulfilled? ==>
                chats == ReplaceContent(old(chats), action.update.chatId, action.update.newMessages)
                && loading == old(loading) && error == old(error)
      ensures action.Other? ==> chats == old(chats) && loading == old(loading) && error == old(error)
    {
      match action
      case FetchChatsPending =>
        loading := true;
        error := None;
      case FetchChatsFulfilled(payload) =>
        loading := false;
        chats := payload;
      case FetchChatsRejected(payload) =>
        loading := false;
        error := Some(payload);
      case FetchChatByIdRejected(payload) =>
        error := Some(payload);
      case AddChatFulfilled(chat) =>
        chats := chats + [chat];
      case AddChatRejected(payload) =>
        error := Some(payload);
      case DeleteChatFulfilled(id) =>
        chats := Filter(chats, (c: Chat) => c.id != id);
      case DeleteChatRejected(payload) =>
        error := Some(payload);
      case UpdateMessagesFulfilled(update) =>
        chats := ReplaceContent(chats, update.chatId, update.newMessages);
      case UpdateMessagesRejected(payload) =>
        error := Some(payload);
      case ImportChatFulfilled(chat) =>
        chats := chats + [chat];
      case ImportChatRejected(payload) =>
        error := Some(payload);
      case Other =>
    }
  }

  // ---------------------------------------------------------------------------
  // Properties

  /**
   * On an empty chat with a character, the stored content is the copied seeds,
   * the introduction, the acknowledgement and the new message, in that order.
   */
  lemma FirstMessageLayout(seeds: seq<Seed>, c: Character, role: string, text: string)
    ensures var r := ContentAfterAdd([], seeds, Some(c), role, text);
            var n := |SeedMessages(seeds)|;
            && |r| == n + 3
            && r[..n] == SeedMessages(seeds)
            && r[n] == Message(YOU, IntroText(c))
            && r[n + 1] == Message(AI, AckText(c))
            && r[n + 2] == Message(role, text)
  {
    var r := ContentAfterAdd([], seeds, Some(c), role, text);
    var n := |SeedMessages(seeds)|;
    assert r[..|r| - 1] == SeedMessages(seeds) + IntroPair(Some(c));
    assert r[..n] == (r[..|r| - 1])[..n];
  }

  /** Every seeded message comes from a seed with a truthy role and message, and each such seed is seeded. */
  lemma SeedMessagesFaithful(seeds: seq<Seed>)
    ensures forall i :: 0 <= i < |SeedMessages(seeds)| ==>
              SeedMessages(seeds)[i].role != "" && SeedMessages(seeds)[i].txt != ""
              && Seed(SeedMessages(seeds)[i].role, SeedMessages(seeds)[i].txt) in seeds
    ensures forall s :: s in seeds && SeedIsCopied(s) ==> SeedToMessage(s) in SeedMessages(seeds)
  {
    var kept := Filter(seeds, SeedIsCopied);
    forall s | s in seeds && SeedIsCopied(s)
      ensures SeedToMessage(s) in SeedMessages(seeds)
    {
      var i :| 0 <= i < |seeds| && seeds[i] == s;
      assert s in kept;
      var j :| 0 <= j < |kept| && kept[j] == s;
      assert SeedMessages(seeds)[j] == SeedToMessage(s);
    }
  }
}
