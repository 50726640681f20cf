/** The persisted slot: `saveQuiltData` writes the list as a JSON array
    (app.js:186-188) and `loadQuiltData` rebuilds the list from whatever the
    slot holds (app.js:151-177). Parsing and printing JSON text are not
    modelled: the slot holds the parsed value, or None when it is missing or
    not valid JSON. */
module Persistence {
  import opened Optional
  import opened JsonData
  import opened Categories
  import opened Records

  function PhotoJson(photo: Option<string>): Json
  {
    match photo
    case None => JNull
    case Some(p) => JStr(p)
  }

  /** The JSON object `JSON.stringify` writes for one record. */
  function ToJson(q: Quilt): Json
  {
    JObj(map[
      "id" := JStr(q.id),
      "title" := JStr(q.title),
      "category" := JStr(q.category),
      "notes" := JStr(q.notes),
      "deadline" := JStr(q.deadline),
      "completedDate" := JStr(q.completedDate),
      "photo" := PhotoJson(q.photo),
      "timestamp" := JStr(q.timestamp),
      "isCharity" := JBool(q.isCharity),
      "isFavorite" := JBool(q.isFavorite)])
  }

  /** The JSON array written for the whole list. */
  function Serialize(qs: seq<Quilt>): (r: Json)
    ensures r.JArr? && |r.items| == |qs|
    ensures forall j :: 0 <= j < |qs| ==> r.items[j] == ToJson(qs[j])
  {
    JArr(seq(|qs|, j requires 0 <= j < |qs| => ToJson(qs[j])))
  }

  /** `normalizeCategory(quilt.category)` on a stored value; a category that
      is not a string is read as the empty string. */
  function StoredCategory(v: Option<Json>): (r: string)
    ensures IsNormalized(r)
    ensures v.Some? && v.value.JStr? ==> r == NormalizeCategory(v.value.s)
    ensures !(v.Some? && v.value.JStr?) ==> r == Upcoming
  {
    NormalizeCategory(StringOr(v, ""))
  }

  /** The `map` callback of `loadQuiltData`: the stored record with its
      category normalised and both flags coerced with `Boolean`. */
  function LoadEntry(v: Json): (q: Quilt)
    ensures IsNormalized(q.category)
    ensures q.category == StoredCategory(Get(v, "category"))
    ensures q.isCharity == Truthy(Get(v, "isCharity")) && q.isFavorite == Truthy(Get(v, "isFavorite"))
    ensures && q.id == StringOr(Get(v, "id"), "") && q.title == StringOr(Get(v, "title"), "")
            && q.notes == StringOr(Get(v, "notes"), "") && q.deadline == StringOr(Get(v, "deadline"), "")
            && q.completedDate == StringOr(Get(v, "completedDate"), "")
            && q.timestamp == StringOr(Get(v, "timestamp"), "")
    ensures Get(v, "photo").Some? && Get(v, "photo").value.JStr? ==> q.photo == Some(Get(v, "photo").value.s)
    ensures !(Get(v, "photo").Some? && Get(v, "photo").value.JStr?) ==> q.photo == None
  {
    var photo := Get(v, "photo");
    Quilt(
      id := StringOr(Get(v, "id"), ""),
      title := StringOr(Get(v, "title"), ""),
      category := StoredCategory(Get(v, "category")),
      notes := StringOr(Get(v, "notes"), ""),
      deadline := StringOr(Get(v, "deadline"), ""),
      completedDate := StringOr(Get(v, "completedDate"), ""),
      photo := if photo.Some? && photo.value.JStr? then Some(photo.value.s) else None,
      timestamp := StringOr(Get(v, "timestamp"), ""),
      isCharity := Truthy(Get(v, "isCharity")),
      isFavorite := Truthy(Get(v, "isFavorite")))
  }

  function LoadEntries(items: seq<Json>): (r: seq<Quilt>)
    ensures |r| == |items|
    ensures forall j :: 0 <= j < |items| ==> r[j] == LoadEntry(items[j])
  {
    seq(|items|, j requires 0 <= j < |items| => LoadEntry(items[j]))
  }

  /** `loadQuiltData`: a missing, unparsable or non-array slot gives the empty
      list; an array gives one record per element, in order, every category
      normalised. */
  function LoadList(slot: Option<Json>): (r: seq<Quilt>)
    ensures !(slot.Some? && slot.value.JArr?) ==> r == []
    ensures slot.Some? && slot.value.JArr? ==> |r| == |slot.value.items|
    ensures slot.Some? && slot.value.JArr? ==> forall j :: 0 <= j < |r| ==> r[j] == LoadEntry(slot.value.items[j])
    ensures AllNormalized(r)
  {
    if slot.Some? && slot.value.JArr? then LoadEntries(slot.value.items) else []
  }

  /** A record with a normalised category is read back exactly as it was
      written. */
  lemma LoadEntryRoundTrip(q: Quilt)
    requires IsNormalized(q.category)
    ensures LoadEntry(ToJson(q)) == q
  {
    NormalizedIsFixedPoint(q.category);
  }

  /** Loading migrates legacy data: a record stored with the retired `wip`
      status comes back `in-progress`, and every other field as stored. */
  lemma LoadMigratesLegacyStatus(q: Quilt)
    requires q.category == LegacyWip
    ensures LoadEntry(ToJson(q)) == q.(category := InProgress)
  {
    assert Get(ToJson(q), "category") == Some(JStr(LegacyWip));
  }

  /** Saving and then loading gives back every field of every record, in
      order, whenever all categories are normalised (which every operation
      of the store keeps true). */
  lemma LoadAfterSave(qs: seq<Quilt>)
    requires AllNormalized(qs)
    ensures LoadList(Some(Serialize(qs))) == qs
  {
    var r := LoadList(Some(Serialize(qs)));
    forall j | 0 <= j < |qs| ensures r[j] == qs[j] {
      LoadEntryRoundTrip(qs[j]);
    }
  }

  /** Loading is idempotent: saving a loaded list and loading it again gives
      the same list. */
  lemma LoadIdempotent(slot: Option<Json>)
    ensures LoadList(Some(Serialize(LoadList(slot)))) == LoadList(slot)
  {
    LoadAfterSave(LoadList(slot));
  }
}
