/**
 * The two Dexie tables of database "ChatAppDB" (schema `++id, ...`):
 * records keyed by an auto-incremented id starting at 1.
 */
module Tables {
  import opened Wrappers
  import opened Records

  class Db {
    var chats: map<int, Chat>
    var characters: map<int, Character>
    /** The id the next `add` on each table hands out. */
    var nextChatId: int
    var nextCharacterId: int

    /** Every row sits under its own id, and every id is below the next one to be handed out. */
    ghost predicate Valid()
      reads this
    {
      && 1 <= nextChatId
      && 1 <= nextCharacterId
      && (forall k :: k in chats ==> 1 <= k < nextChatId && chats[k].id == k)
      && (forall k :: k in characters ==> 1 <= k < nextCharacterId && characters[k].id == k)
    }

    constructor ()
      ensures Valid()
      ensures chats == map[] && characters == map[]
      ensures nextChatId == 1 && nextCharacterId == 1
    {
      chats, characters := map[], map[];
      nextChatId, nextCharacterId := 1, 1;
    }

    /** `db.characters.get(id)` for an id that may be null. */
    function CharacterById(id: Option<int>): Option<Character>
      reads this
    {
      if id.Some? && id.value in characters then Some(characters[id.value]) else None
    }
  }
}
