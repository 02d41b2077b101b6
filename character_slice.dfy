/**
 * src/features/characterSlice.js: the character thunks over the `characters`
 * table (add with validation, cascading delete, unvalidated update, lookup)
 * and the character reducer.
 */
module CharacterSlice {
  import opened Wrappers
  import opened Records
  import opened Seqs
  import opened Text
  import opened Tables

  const NAME_AND_PROMPT_REQUIRED: string := "Character name and prompt are required."
  const CHARACTER_NOT_FOUND: string := "Character not found."

  /** addCharacter's check: both the name and the prompt are non-blank after trimming. */
  predicate CharacterInputValid(name: string, prompt: string) {
    Trim(name) != "" && Trim(prompt) != ""
  }

  /** addCharacter: rejects a blank name or prompt; otherwise adds a row under a fresh id and returns it. */
  method AddCharacter(db: Db, name: string, description: string, prompt: string) returns (r: Result<Character, string>)
    requires db.Valid()
    modifies db`characters, db`nextCharacterId
    ensures db.Valid()
    ensures !CharacterInputValid(name, prompt) ==>
              r == Failure(NAME_AND_PROMPT_REQUIRED) && db.characters == old(db.characters)
    ensures CharacterInputValid(name, prompt) ==>
              && r == Success(Character(old(db.nextCharacterId), name, description, prompt))
              && r.value.id !in old(db.characters)
              && db.characters == old(db.characters)[r.value.id := r.value]
  {
    if Trim(name) == "" || Trim(prompt) == "" {
      return Failure(NAME_AND_PROMPT_REQUIRED);
    }
    var c := Character(db.nextCharacterId, name, description, prompt);
    db.characters := db.characters[c.id := c];
    db.nextCharacterId := db.nextCharacterId + 1;
    r := Success(c);
  }

  /** `db.chats.where("characterId").equals(characterId).delete()`: the rows left behind. */
  function ChatsWithoutCharacter(chats: map<int, Chat>, characterId: int): (r: map<int, Chat>)
    ensures forall k :: k in r <==> k in chats && chats[k].characterId != Some(characterId)
    ensures forall k :: k in r ==> r[k] == chats[k]
  {
    map k | k in chats && chats[k].characterId != Some(characterId) :: chats[k]
  }

  /** deleteCharacter: deletes the character's chats, then the character; every other row stays. */
  method DeleteCharacter(db: Db, characterId: int) returns (deleted: int)
    requires db.Valid()
    modifies db`chats, db`characters
    ensures db.Valid()
    ensures deleted == characterId
    ensures db.chats == ChatsWithoutCharacter(old(db.chats), characterId)
    ensures db.characters == old(db.characters) - {characterId}
  {
    db.chats := ChatsWithoutCharacter(db.chats, characterId);
    db.characters := db.characters - {characterId};
    deleted := characterId;
  }

  /**
   * updateCharacter: overwrites name, description and prompt of the row, with no
   * validation; an absent id changes nothing. It fulfils with the values it was given.
   */
  method UpdateCharacter(db: Db, id: int, name: string, description: string, prompt: string) returns (r: Character)
    requires db.Valid()
    modifies db`characters
    ensures db.Valid()
    ensures r == Character(id, name, description, prompt)
    ensures id in old(db.characters) ==> db.characters == old(db.characters)[id := r]
    ensures id !in old(db.characters) ==> db.characters == old(db.characters)
  {
    r := Character(id, name, description, prompt);
    if id in db.characters {
      db.characters := db.characters[id := r];
    }
  }

  /** fetchCharacterById: the row, or a rejection for an absent id. */
  method FetchCharacterById(db: Db, id: int) returns (r: Result<Character, string>)
    ensures id in db.characters ==> r == Success(db.characters[id])
    ensures id !in db.characters ==> r == Failure(CHARACTER_NOT_FOUND)
  {
    if id in db.characters {
      r := Success(db.characters[id]);
    } else {
      r := Failure(CHARACTER_NOT_FOUND);
    }
  }

  /** The actions the character reducer receives; `updateCharacter` has no case and falls under `Other`. */
  datatype CharacterAction =
    | FetchCharactersPending
    | FetchCharactersFulfilled(characters: seq<Character>)
    | FetchCharactersRejected(error: string)
    | FetchCharacterByIdRejected(error: string)
    | AddCharacterFulfilled(character: Character)
    | AddCharacterRejected(error: string)
    | DeleteCharacterFulfilled(id: int)
    | DeleteCharacterRejected(error: string)
    | UpdateCharacterFulfilled(character: Character)
    | Other

  /** The in-memory character list with its loading flag and last error. */
  class CharacterState {
    var characters: seq<Character>
    var loading: bool
    var error: Option<string>

    constructor ()
      ensures characters == [] && !loading && error == None
    {
      characters, loading, error := [], false, None;
    }

    /** The slice's extra reducers, one case per action. */
    method Apply(action: CharacterAction)
      modifies this
      ensures action.FetchCharactersPending? ==> loading && error == None && characters == old(characters)
      ensures action.FetchCharactersFulfilled? ==> !loading && characters == action.characters && error == old(error)
      ensures action.FetchCharactersRejected? ==> !loading && error == Some(action.error) && characters == old(characters)
      ensures action.FetchCharacterByIdRejected? || action.AddCharacterRejected? || action.DeleteCharacterRejected? ==>
                error == Some(action.error) && characters == old(characters) && loading == old(loading)
      ensures action.AddCharacterFulfilled? ==>
                characters == old(characters) + [action.character] && loading == old(loading) && error == old(error)
      ensures action.DeleteCharacterFulfilled? ==>
                characters == Filter(old(characters), (c: Character) => c.id != action.id)
                && loading == old(loading) && error == old(error)
      ensures action.UpdateCharacterFulfilled? || action.Other? ==>
                characters == old(characters) && loading == old(loading) && error == old(error)
    {
      match action
      case FetchCharactersPending =>
        loading := true;
        error := None;
      case FetchCharactersFulfilled(payload) =>
        loading := false;
        characters := payload;
      case FetchCharactersRejected(payload) =>
        loading := false;
        error := Some(payload);
      case FetchCharacterByIdRejected(payload) =>
        error := Some(payload);
      case AddCharacterFulfilled(c) =>
        characters := characters + [c];
      case AddCharacterRejected(payload) =>
        error := Some(payload);
      case DeleteCharacterFulfilled(id) =>
        characters := Filter(characters, (c: Character) => c.id != id);
      case DeleteCharacterRejected(payload) =>
        error := Some(payload);
      case UpdateCharacterFulfilled(_) =>
      case Other =>
    }
  }

  /** A name made only of whitespace is refused even though it is non-empty. */
  lemma BlankNameRefused(name: string, prompt: string)
    requires name != "" && AllWhitespace(name)
    ensures !CharacterInputValid(name, prompt)
  {
    TrimEmptyIff(name);
  }
}
