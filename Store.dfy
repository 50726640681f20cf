/** The page's module-level state (app.js:5-9) as one object: the record
    list `allQuilts`, the editor flags `isEditing`/`editingQuiltId` with the
    editor panel's visibility, and the persisted slot. Every handler that
    changes the list writes the slot afterwards, as `saveQuiltData` does. */
module Store {
  import opened Optional
  import opened JsonData
  import opened Categories
  import opened Records
  import opened Persistence
  import opened Import
  import opened Submit

  /** The editor as the user sees it. */
  datatype EditorState = Closed | Creating | Editing(id: string)

  /** How a submit ends: refused, or saved as a new record (`inserted`) or as
      a replacement of an existing one. */
  datatype SubmitOutcome = Rejected(reason: Rejection) | Saved(record: Quilt, inserted: bool)

  class QuiltStore {
    var quilts: seq<Quilt>
    var isEditing: bool
    var editingId: Option<string>
    /** The editor panel is shown (it lacks the `hidden` class). */
    var panelOpen: bool
    /** The key-value slot the list is persisted under, as parsed JSON; None
        when it is missing or does not hold valid JSON. */
    var slot: Option<Json>
    /** How many times `saveQuiltData` has written the slot. */
    var writes: nat

    /** The flags never disagree: an id is recorded exactly while editing,
        and editing only happens with the panel open. */
    ghost predicate Valid()
      reads this
    {
      && (isEditing <==> editingId.Some?)
      && (isEditing ==> panelOpen)
    }

    function Editor(): (r: EditorState)
      reads this
      requires Valid()
      ensures r == Closed <==> !panelOpen
      ensures r.Editing? <==> isEditing
      ensures r.Editing? ==> editingId == Some(r.id)
    {
      if !panelOpen then Closed
      else if isEditing then Editing(editingId.value)
      else Creating
    }

    /** The hidden edit-id input of the form: `startEdit` fills it with the id
        it edits and every reset of the form empties it, so it always shows
        the id being edited, or nothing. */
    function EditTarget(): (r: string)
      reads this
      requires Valid()
      ensures Editor().Editing? ==> r == Editor().id
      ensures !Editor().Editing? ==> r == ""
    {
      if isEditing then editingId.value else ""
    }

    /** The state when the page starts, before `loadQuiltData`. */
    constructor (stored: Option<Json>)
      ensures Valid() && Editor() == Closed
      ensures quilts == [] && slot == stored && writes == 0
    {
      quilts := [];
      isEditing := false;
      editingId := None;
      panelOpen := false;
      slot := stored;
      writes := 0;
    }

    /** `loadQuiltData`: rebuilds the list from the slot. */
    method Load()
      requires Valid()
      modifies this`quilts
      ensures Valid() && Editor() == old(Editor())
      ensures quilts == LoadList(slot)
      ensures AllNormalized(quilts)
    {
      quilts := LoadList(slot);
    }

    /** `saveQuiltData`: writes the whole list to the slot. */
    method Persist()
      requires Valid()
      modifies this`slot, this`writes
      ensures Valid() && Editor() == old(Editor())
      ensures slot == Some(Serialize(quilts)) && writes == old(writes) + 1
    {
      slot := Some(Serialize(quilts));
      writes := writes + 1;
    }

    /** `openQuiltEditor(false)`: shows an empty form for a new record. */
    method OpenEditor()
      modifies this`isEditing, this`editingId, this`panelOpen
      ensures Valid() && Editor() == Creating
    {
      isEditing := false;
      editingId := None;
      panelOpen := true;
    }

    /** `closeQuiltEditor`: hides the form and forgets any edit. */
    method CloseEditor()
      modifies this`isEditing, this`editingId, this`panelOpen
      ensures Valid() && Editor() == Closed
    {
      panelOpen := false;
      isEditing := false;
      editingId := None;
    }

    /** `startEdit(id)`: opens the form on the record with that id; does
        nothing when no record has it. */
    method StartEdit(id: string)
      requires Valid()
      modifies this`isEditing, this`editingId, this`panelOpen
      ensures Valid()
      ensures HasId(quilts, id) ==> Editor() == Editing(id)
      ensures !HasId(quilts, id) ==> Editor() == old(Editor())
    {
      var idx := FindIndex(quilts, id);
      if idx == -1 {
        return;
      }
      OpenEditor();
      isEditing := true;
      editingId := Some(id);
    }

    /** `saveQuiltRecord(q)`: replaces the first record with `q`'s id in
        place, or puts `q` first; then persists and closes the editor. */
    method Save(q: Quilt) returns (inserted: bool)
      requires Valid()
      modifies this
      ensures inserted == !HasId(old(quilts), q.id)
      ensures quilts == Upserted(old(quilts), q)
      ensures AllNormalized(old(quilts)) && IsNormalized(q.category) ==> AllNormalized(quilts)
      ensures slot == Some(Serialize(quilts)) && writes == old(writes) + 1
      ensures Valid() && Editor() == Closed
    {
      var idx := FindIndex(quilts, q.id);
      if idx != -1 {
        quilts := quilts[idx := q];
        inserted := false;
      } else {
        quilts := [q] + quilts;
        inserted := true;
      }
      if AllNormalized(old(quilts)) && IsNormalized(q.category) {
        UpsertKeepsNormalized(old(quilts), q);
      }
      Persist();
      CloseEditor();
    }

    /** `toggleFavorite(id)`: flips the favourite flag of the first record
        with that id and persists; without such a record nothing happens,
        not even a write. */
    method ToggleFavorite(id: string)
      requires Valid()
      modifies this`quilts, this`slot, this`writes
      ensures Valid() && Editor() == old(Editor())
      ensures quilts == Toggled(old(quilts), id)
      ensures AllNormalized(old(quilts)) ==> AllNormalized(quilts)
      ensures HasId(old(quilts), id) ==> slot == Some(Serialize(quilts)) && writes == old(writes) + 1
      ensures !HasId(old(quilts), id) ==> slot == old(slot) && writes == old(writes)
    {
      var idx := FindIndex(quilts, id);
      if idx == -1 {
        return;
      }
      var q := quilts[idx];
      quilts := quilts[idx := q.(isFavorite := !q.isFavorite)];
      ToggleTwice(old(quilts), id);
      Persist();
    }

    /** `removeQuilt(id)` and, when the user confirms, its Delete action:
        every record with that id is dropped and the list persisted. An
        unknown id returns before asking; a cancelled prompt changes
        nothing. */
    method Remove(id: string, confirmed: bool) returns (removed: bool)
      requires Valid()
      modifies this`quilts, this`slot, this`writes
      ensures Valid() && Editor() == old(Editor())
      ensures removed == (HasId(old(quilts), id) && confirmed)
      ensures quilts == if removed then Without(old(quilts), id) else old(quilts)
      ensures AllNormalized(old(quilts)) ==> AllNormalized(quilts)
      ensures removed ==> slot == Some(Serialize(quilts)) && writes == old(writes) + 1
      ensures !removed ==> slot == old(slot) && writes == old(writes)
    {
      var idx := FindIndex(quilts, id);
      if idx == -1 || !confirmed {
        return false;
      }
      quilts := Without(quilts, id);
      WithoutAbsent(old(quilts), id);
      Persist();
      removed := true;
    }

    /** The `onload` handler of `handleImportFile`: on success the imported
        records replace the list and are persisted; every failure leaves
        list and slot as they were. The editor is not touched. */
    method Import(file: Option<Json>, clock: Clock, newId: nat -> string) returns (outcome: ImportOutcome)
      requires Valid()
      modifies this`quilts, this`slot, this`writes
      ensures Valid() && Editor() == old(Editor())
      ensures outcome == ImportPayload(file, clock, newId)
      ensures outcome.Imported? ==> quilts == outcome.records && AllNormalized(quilts)
      ensures outcome.Imported? ==> slot == Some(Serialize(quilts)) && writes == old(writes) + 1
      ensures !outcome.Imported? ==> quilts == old(quilts) && slot == old(slot) && writes == old(writes)
    {
      outcome := ImportPayload(file, clock, newId);
      if outcome.Imported? {
        quilts := outcome.records;
        Persist();
      }
    }

    /** `handleFormSubmit`: a refused submit changes nothing; otherwise the
        prepared record is saved as `saveQuiltRecord` does. */
    method Submit(form: Form, clock: Clock, freshId: string) returns (outcome: SubmitOutcome)
      requires Valid()
      modifies this
      ensures var prepared := PrepareRecord(old(quilts), old(EditTarget()), form, clock, freshId);
        match prepared
        case Failure(reason) =>
          && outcome == Rejected(reason)
          && quilts == old(quilts) && slot == old(slot) && writes == old(writes)
          && Valid() && Editor() == old(Editor())
        case Success(q) =>
          && outcome == Saved(q, !HasId(old(quilts), q.id))
          && quilts == Upserted(old(quilts), q)
          && slot == Some(Serialize(quilts)) && writes == old(writes) + 1
          && Valid() && Editor() == Closed
      ensures AllNormalized(old(quilts)) ==> AllNormalized(quilts)
    {
      var prepared := PrepareRecord(quilts, EditTarget(), form, clock, freshId);
      if prepared.Failure? {
        return Rejected(prepared.error);
      }
      var inserted := Save(prepared.value);
      outcome := Saved(prepared.value, inserted);
    }
  }
}
