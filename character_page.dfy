/**
 * src/pages/CharacterPage.jsx: the character form (its fields and edit state,
 * the non-empty check before create and save, the reset afterwards), the
 * description truncation and the back-navigation decision.
 */
module CharacterPage {
  import opened Wrappers
  import opened Records
  import opened Text
  import opened Tables
  import opened CharacterSlice

  /** The page's own check: the name and the prompt are non-empty, with no trimming. */
  predicate FormAccepts(name: string, prompt: string) {
    name != "" && prompt != ""
  }

  /** The form's state: the three fields and the character being edited, if any. */
  class CharacterForm {
    var name: string
    var description: string
    var prompt: string
    var editCharacter: Option<Character>

    constructor ()
      ensures name == "" && description == "" && prompt == "" && editCharacter == None
    {
      name, description, prompt, editCharacter := "", "", "", None;
    }

    /** handerSetEditCharacter (the cancel control): leaves edit mode and clears the fields. */
    method CancelEdit()
      modifies this
      ensures name == "" && description == "" && prompt == "" && editCharacter == None
    {
      editCharacter := None;
      name, description, prompt := "", "", "";
    }

    /** handleEditCharacter: enters edit mode with the character's values in the fields. */
    method Edit(c: Character)
      modifies this
      ensures editCharacter == Some(c)
      ensures name == c.name && description == c.description && prompt == c.prompt
    {
      editCharacter := Some(c);
      name := c.name;
      description := c.description;
      prompt := c.prompt;
    }

    /**
     * The submit button: handleSaveEdit in edit mode, handleCreateCharacter
     * otherwise. A refused form (empty name or prompt) only raises the alert;
     * an accepted one dispatches and resets the fields (and leaves edit mode).
     */
    method Submit(db: Db) returns (alerted: bool)
      requires db.Valid()
      modifies this, db`characters, db`nextCharacterId
      ensures db.Valid()
      ensures alerted <==> !FormAccepts(old(name), old(prompt))
      ensures alerted ==> name == old(name) && description == old(description) && prompt == old(prompt)
                          && editCharacter == old(editCharacter) && db.characters == old(db.characters)
      ensures !alerted ==> name == "" && description == "" && prompt == "" && editCharacter == None
      ensures !alerted && old(editCharacter).None? ==>
                if CharacterInputValid(old(name), old(prompt))
                then db.characters == old(db.characters)[old(db.nextCharacterId) :=
                       Character(old(db.nextCharacterId), old(name), old(description), old(prompt))]
                else db.characters == old(db.characters)
      ensures !alerted && old(editCharacter).Some? ==>
                var id := old(editCharacter).value.id;
                db.characters == if id in old(db.characters)
                                 then old(db.characters)[id := Character(id, old(name), old(description), old(prompt))]
                                 else old(db.characters)
    {
      if name == "" || prompt == "" {
        return true;
      }
      alerted := false;
      if editCharacter.Some? {
        var _ := UpdateCharacter(db, editCharacter.value.id, name, description, prompt);
        editCharacter := None;
      } else {
        var _ := AddCharacter(db, name, description, prompt);
      }
      name, description, prompt := "", "", "";
    }
  }

  /** handleDeleteCharacter: deletes the character and its chats only after confirmation. */
  method HandleDeleteCharacter(db: Db, confirmed: bool, id: int)
    requires db.Valid()
    modifies db`chats, db`characters
    ensures db.Valid()
    ensures !confirmed ==> db.chats == old(db.chats) && db.characters == old(db.characters)
    ensures confirmed ==> db.chats == ChatsWithoutCharacter(old(db.chats), id)
                          && db.characters == old(db.characters) - {id}
  {
    if confirmed {
      var _ := DeleteCharacter(db, id);
    }
  }

  /** The default length of a shown description. */
  const DESCRIPTION_LENGTH: nat := 100

  /** truncateText: texts longer than `maxLength` are cut to `maxLength` characters and end in "...". */
  function TruncateText(text: string, maxLength: nat): (r: string)
    ensures |text| <= maxLength ==> r == text
    ensures |text| > maxLength ==> |r| == maxLength + 3 && r[..maxLength] == text[..maxLength]
                                   && r[maxLength..] == "..."
  {
    if |text| > maxLength then text[..maxLength] + "..." else text
  }

  /** Truncation never yields more than `maxLength + 3` characters and always keeps a prefix of the text. */
  lemma TruncateBounded(text: string, maxLength: nat)
    ensures |TruncateText(text, maxLength)| <= maxLength + 3
    ensures var r := TruncateText(text, maxLength);
            var n := if |text| <= maxLength then |text| else maxLength;
            r[..n] == text[..n]
  {
  }

  /** The description shown on a character card: `truncateText(char.description)` with the default limit. */
  function DescriptionPreview(description: string): (r: string)
    ensures |r| <= DESCRIPTION_LENGTH + 3
    ensures |description| <= DESCRIPTION_LENGTH ==> r == description
  {
    TruncateText(description, DESCRIPTION_LENGTH)
  }

  /** Where the back button goes. */
  datatype BackTarget = HistoryBack | ReplaceWithHome

  /** goBackOrHome: back when the history index is a number above 0, else replace with "/". */
  function GoBackOrHome(idx: Option<int>): (t: BackTarget)
    ensures t == HistoryBack <==> idx.Some? && idx.value > 0
  {
    if idx.Some? && idx.value > 0 then HistoryBack else ReplaceWithHome
  }

  /**
   * The page's check is weaker than addCharacter's: a blank-but-non-empty name
   * passes the form, resets the fields, and is then refused by the thunk.
   */
  lemma BlankNamePassesFormOnly(name: string, prompt: string)
    requires name != "" && AllWhitespace(name) && Trim(prompt) != ""
    ensures FormAccepts(name, prompt) && !CharacterInputValid(name, prompt)
  {
    BlankNameRefused(name, prompt);
  }
}
