/**
 * src/components/InitialMessages.jsx: the seed-message editor. Loading the
 * saved list, the save effect (only non-blank entries are stored, and the
 * first entry is forced to role "you" when the first non-blank one is not),
 * and the add, change and delete updaters.
 */
module InitialMessages {
  import opened Wrappers
  import opened Records
  import opened Constants
  import opened Seqs
  import opened Text

  /**
   * getSavedMessages: an absent or empty stored string, or one the parser
   * refuses, loads as the empty list; a stored `null` loads as `null` (None).
   */
  function GetSavedMessages(saved: Option<string>, parse: string -> Parsed<seq<Seed>>): (r: Option<seq<Seed>>)
    ensures saved.None? || saved.value == "" ==> r == Some([])
    ensures saved.Some? && saved.value != "" && parse(saved.value).Malformed? ==> r == Some([])
    ensures saved.Some? && saved.value != "" && parse(saved.value).Value? ==> r == Some(parse(saved.value).value)
    ensures r.None? <==> saved.Some? && saved.value != "" && parse(saved.value).Null?
  {
    if saved.None? || saved.value == "" then Some([])
    else
      match parse(saved.value)
      case Value(list) => Some(list)
      case Null => None
      case Malformed(_) => Some([])
  }

  /** An entry whose message is not blank once trimmed. */
  predicate IsNonBlank(s: Seed) {
    Trim(s.message) != ""
  }

  /** The list the save effect writes to storage. */
  function PersistedSeeds(list: seq<Seed>): (r: seq<Seed>)
    ensures |r| <= |list|
    ensures forall i :: 0 <= i < |r| ==> r[i] in list && IsNonBlank(r[i])
    ensures forall i :: 0 <= i < |list| && IsNonBlank(list[i]) ==> list[i] in r
  {
    Filter(list, IsNonBlank)
  }

  /** The fix-up condition: some entry is non-blank and the first such entry's role is not "you". */
  predicate NeedsRoleFix(list: seq<Seed>) {
    var kept := PersistedSeeds(list);
    |kept| > 0 && kept[0].role != YOU
  }

  /** `[{ ...prev[0], role: YOU }, ...prev.slice(1)]`. */
  function FixFirstRole(list: seq<Seed>): (r: seq<Seed>)
    requires list != []
    ensures |r| == |list| && r[0] == Seed(YOU, list[0].message) && r[1..] == list[1..]
  {
    [Seed(YOU, list[0].message)] + list[1..]
  }

  /** One run of the save effect: what it stores, and the state it leaves. */
  datatype EffectRun = EffectRun(stored: seq<Seed>, next: seq<Seed>)

  function SaveEffect(list: seq<Seed>): (r: EffectRun)
    ensures r.stored == PersistedSeeds(list)
    ensures !NeedsRoleFix(list) ==> r.next == list
    ensures NeedsRoleFix(list) ==> |r.next| == |list| && r.next[0].role == YOU
                                   && r.next[0].message == list[0].message && r.next[1..] == list[1..]
  {
    if NeedsRoleFix(list) then EffectRun(PersistedSeeds(list), FixFirstRole(list))
    else EffectRun(PersistedSeeds(list), list)
  }

  /** handleAddMessage: a blank entry whose role alternates with the list's length. */
  function AddSeed(list: seq<Seed>): (r: seq<Seed>)
    ensures |r| == |list| + 1 && r[..|list|] == list
    ensures r[|list|].message == ""
    ensures r[|list|].role == (if |list| % 2 == 0 then YOU else AI)
  {
    list + [Seed(if |list| % 2 == 0 then YOU else AI, "")]
  }

  /** The field a `handleChange` call edits. */
  datatype SeedField = RoleField | MessageField

  /** handleChange: field `field` of entry `idx` becomes `value`; an index outside the list changes nothing. */
  function ChangeSeed(list: seq<Seed>, idx: int, field: SeedField, value: string): (r: seq<Seed>)
    ensures |r| == |list|
    ensures forall i :: 0 <= i < |list| && i != idx ==> r[i] == list[i]
    ensures 0 <= idx < |list| && field == RoleField ==> r[idx] == Seed(value, list[idx].message)
    ensures 0 <= idx < |list| && field == MessageField ==> r[idx] == Seed(list[idx].role, value)
  {
    seq(|list|, i requires 0 <= i < |list| =>
      if i != idx then list[i]
      else if field == RoleField then list[i].(role := value)
      else list[i].(message := value))
  }

  /** handleDeleteMessage: the list without entry `idx`, the others in order. */
  function DeleteSeed(list: seq<Seed>, idx: int): (r: seq<Seed>)
    ensures 0 <= idx < |list| ==> r == list[..idx] + list[idx + 1..]
    ensures !(0 <= idx < |list|) ==> r == list
  {
    if list == [] then []
    else if idx == 0 then list[1..]
    else
      var rest := DeleteSeed(list[1..], idx - 1);
      assert 0 <= idx - 1 < |list| - 1 ==> [list[0]] + rest == list[..idx] + list[idx + 1..];
      [list[0]] + rest
  }

  /** The delete control is offered only while more than one entry remains. */
  predicate CanDelete(list: seq<Seed>) {
    |list| > 1
  }

  // ---------------------------------------------------------------------------
  // Properties

  /** A newly added blank entry is never stored. */
  lemma AddSeedNotStored(list: seq<Seed>)
    ensures PersistedSeeds(AddSeed(list)) == PersistedSeeds(list)
  {
    var s := Seed(if |list| % 2 == 0 then YOU else AI, "");
    FilterConcat(list, [s], IsNonBlank);
    assert Trim("") == "";
    assert Filter([s], IsNonBlank) == [];
  }

  /** Deleting keeps the list non-empty whenever the control is offered. */
  lemma DeleteKeepsOne(list: seq<Seed>, idx: int)
    requires CanDelete(list)
    ensures |DeleteSeed(list, idx)| >= 1
  {
  }

  /**
   * When entry 0 is non-blank, one fix-up settles the list: the stored list then
   * starts with a "you" entry and the effect does not fire again.
   */
  lemma FixSettles(list: seq<Seed>)
    requires NeedsRoleFix(list) && IsNonBlank(list[0])
    ensures !NeedsRoleFix(FixFirstRole(list))
    ensures PersistedSeeds(FixFirstRole(list))[0] == Seed(YOU, list[0].message)
  {
    var f := FixFirstRole(list);
    assert f == [f[0]] + f[1..];
    FilterConcat([f[0]], f[1..], IsNonBlank);
    assert Filter([f[0]], IsNonBlank) == [f[0]];
  }

  /**
   * When entry 0 is blank, the fix-up changes nothing that is stored and the
   * fix-up condition still holds, so the stored first role never becomes "you".
   */
  lemma FixIneffectiveOnBlankFirst(list: seq<Seed>)
    requires NeedsRoleFix(list) && !IsNonBlank(list[0])
    ensures PersistedSeeds(FixFirstRole(list)) == PersistedSeeds(list)
    ensures NeedsRoleFix(FixFirstRole(list))
  {
    var f := FixFirstRole(list);
    assert f[0].message == list[0].message;
    assert !IsNonBlank(f[0]);
    assert Filter(f, IsNonBlank) == Filter(f[1..], IsNonBlank);
    assert Filter(list, IsNonBlank) == Filter(list[1..], IsNonBlank);
  }

  /** Starting from an empty editor, two adds give a "you" entry followed by an "ai" entry. */
  lemma AddAlternates()
    ensures AddSeed(AddSeed([])) == [Seed(YOU, ""), Seed(AI, "")]
  {
    assert AddSeed([]) == [Seed(YOU, "")];
  }
}
