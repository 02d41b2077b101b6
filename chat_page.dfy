/**
 * src/pages/ChatPage.jsx: the conversion of stored messages into generation
 * history, and the send and regenerate handlers that drive addMessage,
 * updateMessages and generateAIResponse.
 */
module ChatPage {
  import opened Wrappers
  import opened Records
  import opened Constants
  import opened Seqs
  import opened Text
  import opened Tables
  import opened ChatSlice
  import opened AiSlice
  import opened ChatWindow

  const SEND_FAILED: string := "Failed to send message. Please try again."

  /** One stored message as a generation-history entry. */
  function ToEntry(m: Message): Entry {
    Entry(if m.role == YOU then USER else MODEL, m.txt)
  }

  /** createChatHistory: "you" becomes "user", every other role becomes "model". */
  function CreateChatHistory(msgs: seq<Message>): (r: seq<Entry>)
    ensures |r| == |msgs|
    ensures forall i :: 0 <= i < |r| ==>
              && r[i].text == msgs[i].txt
              && (r[i].role == USER <==> msgs[i].role == YOU)
              && (r[i].role == USER || r[i].role == MODEL)
  {
    Map(msgs, ToEntry)
  }

  /** The content after the assistant's payload is appended, when it is truthy. */
  function WithReply(content: seq<Message>, payload: string): seq<Message> {
    if payload != "" then content + [Message(AI, payload)] else content
  }

  /** Writing a chat's content twice leaves the second content. */
  lemma RewriteTwice(chats: map<int, Chat>, chatId: int, first: seq<Message>, second: seq<Message>)
    requires chatId in chats
    ensures var once := chats[chatId := chats[chatId].(content := first)];
            once[chatId := once[chatId].(content := second)] == chats[chatId := chats[chatId].(content := second)]
  {
  }

  /** `if (aiResponse.payload) addMessage(...)`: stores a truthy payload as an assistant message. */
  method StoreReply(db: Db, chatId: int, content: seq<Message>, payload: string, savedSeeds: Parsed<seq<Seed>>)
    requires db.Valid() && content != []
    requires chatId in db.chats ==> db.chats[chatId].content == content
    modifies db`chats
    ensures db.Valid()
    ensures chatId !in old(db.chats) || savedSeeds.Malformed? ==> db.chats == old(db.chats)
    ensures chatId in old(db.chats) && !savedSeeds.Malformed? ==>
              db.chats == old(db.chats)[chatId := old(db.chats[chatId]).(content := WithReply(content, payload))]
  {
    if payload != "" {
      var reply := AddMessage(db, chatId, AI, payload, savedSeeds);
      if reply.Success? {
        assert reply.value == content + [Message(AI, payload)];
      }
    } else if chatId in db.chats {
      assert db.chats == db.chats[chatId := db.chats[chatId].(content := content)];
    }
  }

  /**
   * The common tail of both handlers: generate from `content`, then store the
   * payload. `content` is what the chat holds at this point, if the chat exists.
   */
  method GenerateAndStore(db: Db, chatId: int, content: seq<Message>, prompt: string, env: Env,
                          sdk: SdkRequest -> StreamOutcome)
    returns (sent: Option<SdkRequest>)
    requires db.Valid() && content != []
    requires chatId in db.chats ==> db.chats[chatId].content == content
    modifies db`chats
    ensures db.Valid()
    ensures sent == RequestSent(env, prompt, CreateChatHistory(content))
    ensures chatId !in old(db.chats) || env.savedSeeds.Malformed? ==> db.chats == old(db.chats)
    ensures chatId in old(db.chats) && !env.savedSeeds.Malformed? ==>
              db.chats == old(db.chats)[chatId := old(db.chats[chatId]).(content :=
                WithReply(content, Generate(env, prompt, CreateChatHistory(content), sdk).Payload()))]
  {
    var aiResponse;
    aiResponse, sent := GenerateAIResponse(env, prompt, CreateChatHistory(content), sdk);
    StoreReply(db, chatId, content, aiResponse.Payload(), env.savedSeeds);
  }

  /**
   * handleSend: ignores blank text and a missing chat id; otherwise stores the
   * user's message, generates a reply from the stored content and stores the
   * reply (or the rejection message) as an assistant message. A rejected
   * addMessage makes the history conversion throw, which sets the error.
   */
  method HandleSend(db: Db, chatId: int, text: string, env: Env, sdk: SdkRequest -> StreamOutcome,
                    errorBefore: Option<string>)
    returns (error: Option<string>, sent: Option<SdkRequest>)
    requires db.Valid()
    modifies db`chats
    ensures db.Valid()
    ensures Trim(text) == "" || chatId == 0 ==>
              error == errorBefore && sent == None && db.chats == old(db.chats)
    ensures Trim(text) != "" && chatId != 0 && (chatId !in old(db.chats) || env.savedSeeds.Malformed?) ==>
              error == Some(SEND_FAILED) && sent == None && db.chats == old(db.chats)
    ensures Trim(text) != "" && chatId != 0 && chatId in old(db.chats) && !env.savedSeeds.Malformed? ==>
              var chat := old(db.chats[chatId]);
              var stored := ContentAfterAdd(chat.content, SavedSeedList(env.savedSeeds),
                                            CharacterOf(old(db.characters), chat.characterId), YOU, text);
              var history := CreateChatHistory(stored);
              && error == None
              && sent == RequestSent(env, text, history)
              && db.chats == old(db.chats)[chatId := chat.(content := WithReply(stored, Generate(env, text, history, sdk).Payload()))]
  {
    if Trim(text) == "" || chatId == 0 {
      return errorBefore, None;
    }
    error := None;
    var added := AddMessage(db, chatId, YOU, text, env.savedSeeds);
    if added.Failure? {
      assert chatId !in old(db.chats) || env.savedSeeds.Malformed?;
      return Some(SEND_FAILED), None;
    }
    var updatedMessages := added.value;
    assert chatId in old(db.chats) && !env.savedSeeds.Malformed?;
    ghost var chat := old(db.chats[chatId]);
    assert updatedMessages == ContentAfterAdd(chat.content, SavedSeedList(env.savedSeeds),
                                              CharacterOf(old(db.characters), chat.characterId), YOU, text);
    assert db.chats == old(db.chats)[chatId := chat.(content := updatedMessages)];
    ghost var reply := WithReply(updatedMessages, Generate(env, text, CreateChatHistory(updatedMessages), sdk).Payload());
    sent := GenerateAndStore(db, chatId, updatedMessages, text, env, sdk);
    RewriteTwice(old(db.chats), chatId, updatedMessages, reply);
  }

  /**
   * handleRegenerate: ignores an index outside the shown content and a missing
   * chat id; otherwise persists the content before `index`, and when that ends
   * with a user message regenerates from it and stores the payload.
   */
  method HandleRegenerate(db: Db, chatId: int, messages: seq<Message>, index: int, env: Env,
                          sdk: SdkRequest -> StreamOutcome)
    returns (sent: Option<SdkRequest>)
    requires db.Valid()
    modifies db`chats
    ensures db.Valid()
    ensures index < 0 || index >= |messages| || chatId == 0 ==> sent == None && db.chats == old(db.chats)
    ensures 0 <= index < |messages| && chatId != 0 && chatId !in old(db.chats) ==> db.chats == old(db.chats)
    ensures 0 <= index < |messages| && chatId != 0 && (index == 0 || messages[index - 1].role != YOU) ==>
              && sent == None
              && (chatId in old(db.chats) ==>
                    db.chats == old(db.chats)[chatId := old(db.chats[chatId]).(content := messages[..index])])
    ensures 0 < index < |messages| && chatId != 0 && messages[index - 1].role == YOU ==>
              var kept := messages[..index];
              var prompt := messages[index - 1].txt;
              && sent == RequestSent(env, prompt, CreateChatHistory(kept))
              && (chatId in old(db.chats) && env.savedSeeds.Malformed? ==>
                    db.chats == old(db.chats)[chatId := old(db.chats[chatId]).(content := kept)])
              && (chatId in old(db.chats) && !env.savedSeeds.Malformed? ==>
                    db.chats == old(db.chats)[chatId := old(db.chats[chatId]).(content :=
                      WithReply(kept, Generate(env, prompt, CreateChatHistory(kept), sdk).Payload()))])
  {
    if index < 0 || index >= |messages| || chatId == 0 {
      return None;
    }
    var updatedMessages := messages[..index];
    var _ := UpdateMessages(db, chatId, updatedMessages);
    if |updatedMessages| == 0 || updatedMessages[|updatedMessages| - 1].role != YOU {
      return None;
    }
    var lastUserMessage := updatedMessages[|updatedMessages| - 1].txt;
    ghost var reply := WithReply(updatedMessages,
                                 Generate(env, lastUserMessage, CreateChatHistory(updatedMessages), sdk).Payload());
    sent := GenerateAndStore(db, chatId, updatedMessages, lastUserMessage, env, sdk);
    if chatId in old(db.chats) && !env.savedSeeds.Malformed? {
      RewriteTwice(old(db.chats), chatId, updatedMessages, reply);
    }
  }

  // ---------------------------------------------------------------------------
  // Properties

  /** The history of a content ending with a non-empty user message passes generateAIResponse's guard. */
  lemma HistoryOfUserEndingAccepted(content: seq<Message>)
    requires content != [] && content[|content| - 1].role == YOU && content[|content| - 1].txt != ""
    ensures var valid := ValidHistory(CreateChatHistory(content));
            HistoryAccepted(valid) && valid[|valid| - 1] == Entry(USER, content[|content| - 1].txt)
  {
    var h := CreateChatHistory(content);
    var n := |h|;
    assert h == h[..n - 1] + [h[n - 1]];
    FilterConcat(h[..n - 1], [h[n - 1]], IsValidEntry);
    assert Filter([h[n - 1]], IsValidEntry) == [h[n - 1]];
  }

  /**
   * Sending non-blank text: the stored content ends with the user's message, so
   * the guard passes and, given a key and a safety object, the SDK receives the
   * typed text as its prompt.
   */
  lemma SendReachesModel(content: seq<Message>, seeds: seq<Seed>, character: Option<Character>, text: string, env: Env)
    requires Trim(text) != ""
    requires HasApiKey(env) && SafetyObject(env).Some?
    ensures var stored := ContentAfterAdd(content, seeds, character, YOU, text);
            var r := RequestSent(env, text, CreateChatHistory(stored));
            r.Some? && r.value.prompt == text
  {
    var stored := ContentAfterAdd(content, seeds, character, YOU, text);
    assert text != "";
    HistoryOfUserEndingAccepted(stored);
    AcceptedHistoryIsSent(env, text, CreateChatHistory(stored));
  }

  /** The introduction addMessage writes is the one the window looks for. */
  lemma IntroIsRecognised(c: Character)
    ensures IsIntroPrompt(Message(YOU, IntroText(c)))
  {
    var rest := " " + c.name + ".\nCharacter description: " + c.description + ".\nExample dialogue: " + c.prompt;
    assert "Role play as, Character Name: " == INTRO_PREFIX + " ";
    assert IntroText(c) == INTRO_PREFIX + rest;
    assert (INTRO_PREFIX + rest)[..|INTRO_PREFIX|] == INTRO_PREFIX;
  }

  /**
   * The first message of a character chat whose seeds hold no introduction-like
   * message: the window starts right after the acknowledgement and shows only
   * the user's message.
   */
  lemma FirstSendWindow(seeds: seq<Seed>, c: Character, text: string)
    requires forall i :: 0 <= i < |SeedMessages(seeds)| ==> !IsIntroPrompt(SeedMessages(seeds)[i])
    ensures var stored := ContentAfterAdd([], seeds, Some(c), YOU, text);
            StartIndex(stored) == |SeedMessages(seeds)| + 2 && VisibleMessages(stored) == [Message(YOU, text)]
  {
    var stored := ContentAfterAdd([], seeds, Some(c), YOU, text);
    var n := |SeedMessages(seeds)|;
    FirstMessageLayout(seeds, c, YOU, text);
    IntroIsRecognised(c);
    assert forall i :: 0 <= i < n ==> stored[i] == stored[..n][i];
    assert StartIndex(stored) == n + 2;
  }

  /**
   * Regenerating the message at `index` when the message before it is a
   * non-empty user message: the guard passes and, given a key and a safety
   * object, the SDK is asked again with that user message as the prompt.
   */
  lemma RegenerateReachesModel(messages: seq<Message>, index: int, env: Env)
    requires 0 < index <= |messages| && messages[index - 1].role == YOU && messages[index - 1].txt != ""
    requires HasApiKey(env) && SafetyObject(env).Some?
    ensures RequestSent(env, messages[index - 1].txt, CreateChatHistory(messages[..index])).Some?
  {
    var kept := messages[..index];
    assert kept[|kept| - 1] == messages[index - 1];
    HistoryOfUserEndingAccepted(kept);
    AcceptedHistoryIsSent(env, messages[index - 1].txt, CreateChatHistory(kept));
  }
}
