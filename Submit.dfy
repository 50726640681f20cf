/** The synchronous decisions of `handleFormSubmit` (app.js:684-751): which
    id the record gets, the two validation checks, and which completion
    date, photo and timestamp it keeps. */
module Submit {
  import opened Optional
  import opened Text
  import opened Categories
  import opened Records

  /** What the editor form holds at submit time. `completedDate` is None when
      the page has no completion-date input; `newPhoto` is the data URL of a
      newly chosen photo, once read. */
  datatype Form = Form(
    title: string,
    category: string,
    notes: string,
    deadline: string,
    completedDate: Option<string>,
    newPhoto: Option<string>,
    isCharity: bool,
    isFavorite: bool)

  /** Why a submit is refused; the store is left untouched in both cases. */
  datatype Rejection = MissingTitle | CompletedWithFutureDeadline

  /** `editId || generateUniqueId()`: the id being edited, or a fresh one. */
  function SubmitId(editId: string, freshId: string): (r: string)
    ensures editId != "" ==> r == editId
    ensures editId == "" ==> r == freshId
  {
    if editId != "" then editId else freshId
  }

  /** The record `handleFormSubmit` hands to `saveQuiltRecord`, or the reason
      it refuses. `editId` is the hidden edit-id input (empty when creating),
      `freshId` the value `generateUniqueId` returns, `qs` the current list. */
  function PrepareRecord(qs: seq<Quilt>, editId: string, form: Form, clock: Clock, freshId: string): (r: Result<Quilt, Rejection>)
    ensures r == Failure(MissingTitle) <==> Trim(form.title) == ""
    ensures r == Failure(CompletedWithFutureDeadline) <==>
      Trim(form.title) != "" && NormalizeCategory(form.category) == Completed && clock.isFuture(form.deadline)
    ensures r.Success? ==> WellFormed(r.value, clock) && r.value.id == SubmitId(editId, freshId)
    ensures r.Success? ==> r.value.title == Trim(form.title) && r.value.category == NormalizeCategory(form.category)
    ensures r.Success? ==>
      && r.value.notes == Trim(form.notes) && r.value.deadline == form.deadline
      && r.value.isCharity == form.isCharity && r.value.isFavorite == form.isFavorite
    ensures r.Success? && form.newPhoto.Some? ==> r.value.photo == form.newPhoto
    ensures r.Success? && form.completedDate.Some? ==> r.value.completedDate == form.completedDate.value
    ensures r.Success? ==> match Find(qs, r.value.id)
      case Some(existing) =>
        && r.value.timestamp == existing.timestamp
        && (form.newPhoto.None? ==> r.value.photo == existing.photo)
        && (form.completedDate.None? ==> r.value.completedDate == existing.completedDate)
      case None =>
        && r.value.timestamp == clock.today
        && r.value.photo == form.newPhoto
        && (form.completedDate.None? ==> r.value.completedDate == "")
  {
    var id := SubmitId(editId, freshId);
    var title := Trim(form.title);
    var existing := Find(qs, id);
    var completedDate :=
      if form.completedDate.Some? then form.completedDate.value
      else if existing.Some? then existing.value.completedDate
      else "";
    var timestamp := if existing.Some? then existing.value.timestamp else clock.today;
    if title == "" then Failure(MissingTitle)
    else
      var category := NormalizeCategory(form.category);
      if category == Completed && clock.isFuture(form.deadline) then Failure(CompletedWithFutureDeadline)
      else
        Success(Quilt(
          id := id,
          title := title,
          category := category,
          notes := Trim(form.notes),
          deadline := form.deadline,
          completedDate := completedDate,
          photo := if form.newPhoto.Some? then form.newPhoto else if existing.Some? then existing.value.photo else None,
          timestamp := timestamp,
          isCharity := form.isCharity,
          isFavorite := form.isFavorite))
  }

  /** Editing a record without choosing a new photo and saving it changes
      only the fields on the form: its id, position, photo and timestamp stay,
      and the rest of the list is untouched. */
  lemma EditKeepsPhotoAndPlace(qs: seq<Quilt>, editId: string, form: Form, clock: Clock, freshId: string)
    requires editId != "" && HasId(qs, editId) && form.newPhoto.None?
    requires PrepareRecord(qs, editId, form, clock, freshId).Success?
    ensures var q := PrepareRecord(qs, editId, form, clock, freshId).value;
      var i := FirstIndex(qs, editId).value;
      var r := Upserted(qs, q);
      && |r| == |qs|
      && r[i].id == qs[i].id && r[i].photo == qs[i].photo && r[i].timestamp == qs[i].timestamp
      && (forall j :: 0 <= j < |qs| && j != i ==> r[j] == qs[j])
  {
    var q := PrepareRecord(qs, editId, form, clock, freshId).value;
    var i := FirstIndex(qs, editId).value;
    assert Find(qs, q.id) == Some(qs[i]);
  }
}
