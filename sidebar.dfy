/**
 * src/components/Sidebar.jsx: the contact list (characters without a chat),
 * the reuse-or-create decision when a character is clicked, and the confirmed
 * chat deletion.
 */
module Sidebar {
  import opened Wrappers
  import opened Records
  import opened Seqs
  import opened Tables
  import opened ChatSlice

  /** Some chat in the list belongs to the character with this id. */
  predicate HasChat(chats: seq<Chat>, characterId: int) {
    exists i :: 0 <= i < |chats| && chats[i].characterId == Some(characterId)
  }

  /** The filter's test: no chat refers to the character. */
  function IsContact(chats: seq<Chat>): Character -> bool {
    (c: Character) => !HasChat(chats, c.id)
  }

  /** filteredCharacters: the characters no chat refers to, in their original order. */
  function Contacts(chats: seq<Chat>, characters: seq<Character>): (r: seq<Character>)
    ensures |r| <= |characters|
    ensures forall i :: 0 <= i < |r| ==> r[i] in characters && !HasChat(chats, r[i].id)
    ensures forall i :: 0 <= i < |characters| && !HasChat(chats, characters[i].id) ==> characters[i] in r
  {
    Filter(characters, IsContact(chats))
  }

  /**
   * The contact list keeps the characters' order: the contacts of a split list
   * are the contacts of each part, in turn, and a single character is listed
   * exactly when it has no chat.
   */
  lemma ContactsOrder(chats: seq<Chat>, a: seq<Character>, b: seq<Character>, c: Character)
    ensures Contacts(chats, a + b) == Contacts(chats, a) + Contacts(chats, b)
    ensures Contacts(chats, [c]) == if HasChat(chats, c.id) then [] else [c]
  {
    FilterConcat(a, b, IsContact(chats));
    assert [c][1..] == [];
  }

  /** What a click on a character does: open its first chat, or create one. */
  datatype ClickDecision = Reuse(chatId: int) | Create(title: string, characterId: int)

  function DecideClick(chats: seq<Chat>, characterId: int, characterName: string): (d: ClickDecision)
    ensures d.Reuse? <==> HasChat(chats, characterId)
    ensures d.Reuse? ==> exists i :: 0 <= i < |chats| && chats[i].characterId == Some(characterId)
                                     && chats[i].id == d.chatId
                                     && forall j :: 0 <= j < i ==> chats[j].characterId != Some(characterId)
    ensures d.Create? ==> d == Create(characterName, characterId)
  {
    var k := FindIndex(chats, (c: Chat) => c.characterId == Some(characterId));
    if k != -1 then Reuse(chats[k].id) else Create(characterName, characterId)
  }

  /**
   * handleCharacterClick: navigates to the first existing chat of the character,
   * or adds a chat titled with its name and navigates to the id that comes back.
   */
  method HandleCharacterClick(db: Db, chats: seq<Chat>, characterId: int, characterName: string, now: int)
    returns (navigateTo: int)
    requires db.Valid()
    modifies db`chats, db`nextChatId
    ensures db.Valid()
    ensures DecideClick(chats, characterId, characterName).Reuse? ==>
              navigateTo == DecideClick(chats, characterId, characterName).chatId
              && db.chats == old(db.chats) && db.nextChatId == old(db.nextChatId)
    ensures DecideClick(chats, characterId, characterName).Create? ==>
              && navigateTo == old(db.nextChatId)
              && db.chats == old(db.chats)[navigateTo := Chat(navigateTo, characterName, now, [], Some(characterId))]
  {
    var decision := DecideClick(chats, characterId, characterName);
    if decision.Reuse? {
      return decision.chatId;
    }
    var chat := AddChat(db, characterName, Some(characterId), now);
    navigateTo := chat.id;
  }

  /** handleDeleteChat: deletes only after confirmation. */
  method HandleDeleteChat(db: Db, confirmed: bool, chatId: int)
    requires db.Valid()
    modifies db`chats
    ensures db.Valid()
    ensures !confirmed ==> db.chats == old(db.chats)
    ensures confirmed ==> db.chats == old(db.chats) - {chatId}
  {
    if confirmed {
      var _ := DeleteChat(db, chatId);
    }
  }

  // ---------------------------------------------------------------------------
  // Properties

  /** Clicking a listed contact always creates a chat. */
  lemma ContactClickCreates(chats: seq<Chat>, characters: seq<Character>, i: nat)
    requires i < |Contacts(chats, characters)|
    ensures var c := Contacts(chats, characters)[i];
            DecideClick(chats, c.id, c.name) == Create(c.name, c.id)
  {
  }

  /** Once a chat for a character is in the list, that character is no longer a contact. */
  lemma NewChatHidesContact(chats: seq<Chat>, characters: seq<Character>, chat: Chat)
    requires chat.characterId.Some?
    ensures forall i :: 0 <= i < |Contacts(chats + [chat], characters)| ==>
              Contacts(chats + [chat], characters)[i].id != chat.characterId.value
  {
    var all := chats + [chat];
    assert all[|chats|] == chat;
    assert HasChat(all, chat.characterId.value);
  }

  /** A click on a character that already has a chat never creates another one. */
  lemma ExistingChatReused(chats: seq<Chat>, k: nat, characterName: string)
    requires k < |chats| && chats[k].characterId.Some?
    ensures DecideClick(chats, chats[k].characterId.value, characterName).Reuse?
  {
    assert HasChat(chats, chats[k].characterId.value);
  }
}
