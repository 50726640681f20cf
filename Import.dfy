/** Importing a backup: the synchronous body of the `FileReader` `onload`
    handler of `handleImportFile` (app.js:214-301). Each entry of the parsed
    array is normalised or skipped (app.js:236-268), and the result decides
    whether the store is replaced (app.js:226-232, 270-278). */
module Import {
  import opened Optional
  import opened JsonData
  import opened Text
  import opened Categories
  import opened Records
  import opened Persistence

  /** How an import ends; the counts are those the banners report. */
  datatype ImportOutcome =
    | InvalidJson
    | NotAList
    | NoValidEntries(skipped: nat)
    | Imported(records: seq<Quilt>, skipped: nat)

  /** The trimmed title of an entry; a title that is not a string, or an entry
      that is not an object, has the empty title. */
  function EntryTitle(entry: Json): string
  {
    Trim(StringOr(Get(entry, "title"), ""))
  }

  /** `normalizeCategory(typeof c === 'string' ? c : '') || 'upcoming'`. */
  function ImportCategory(v: Option<Json>): (r: string)
    ensures IsNormalized(r)
    ensures r == NormalizeCategory(StringOr(v, ""))
  {
    var c := NormalizeCategory(StringOr(v, ""));
    if c == "" then Upcoming else c
  }

  /** The `map` callback for the entry at position `pos`: None (the source's
      `null`) for an entry without a title, otherwise the normalised record.
      `newId(pos)` stands for the `generateUniqueId()` call made for that
      entry. */
  function NormalizeEntry(entry: Json, pos: nat, clock: Clock, newId: nat -> string): (r: Option<Quilt>)
    ensures r.None? <==> EntryTitle(entry) == ""
    ensures r.Some? ==> IsNormalized(r.value.category)
    ensures r.Some? ==> clock.EmptyIsNotFuture() ==> WellFormed(r.value, clock)
  {
    var title := EntryTitle(entry);
    if title == "" then None
    else
      var category := ImportCategory(Get(entry, "category"));
      var deadline := StringOr(Get(entry, "deadline"), "");
      var photo := Get(entry, "photo");
      var timestamp := StringOr(Get(entry, "timestamp"), "");
      var rawId := Trim(StringOr(Get(entry, "id"), ""));
      Some(Quilt(
        id := if rawId != "" then rawId else newId(pos),
        title := title,
        category := category,
        notes := StringOr(Get(entry, "notes"), ""),
        deadline := if category == Completed && clock.isFuture(deadline) then "" else deadline,
        completedDate := StringOr(Get(entry, "completedDate"), ""),
        photo := if photo.Some? && photo.value.JStr? then Some(photo.value.s) else None,
        timestamp := if timestamp != "" then timestamp else clock.today,
        isCharity := Truthy(Get(entry, "isCharity")),
        isFavorite := Truthy(Get(entry, "isFavorite"))))
  }

  /** What a kept entry becomes: its trimmed title; its trimmed string id, or
      a generated one when the id is missing, blank or not a string; its
      timestamp, or today's stamp when missing or empty; its deadline, unless
      it is completed with a future deadline, which is cleared; notes and
      completion date as strings, defaulting to empty; a photo only when it is
      a string; both flags coerced with `Boolean`. */
  lemma KeptEntryFields(entry: Json, pos: nat, clock: Clock, newId: nat -> string)
    requires EntryTitle(entry) != ""
    ensures var q := NormalizeEntry(entry, pos, clock, newId).value;
      var rawId := Trim(StringOr(Get(entry, "id"), ""));
      var deadline := StringOr(Get(entry, "deadline"), "");
      var timestamp := StringOr(Get(entry, "timestamp"), "");
      var photo := Get(entry, "photo");
      && q.title == EntryTitle(entry)
      && q.id == (if rawId != "" then rawId else newId(pos))
      && q.category == NormalizeCategory(StringOr(Get(entry, "category"), ""))
      && q.deadline == (if q.category == Completed && clock.isFuture(deadline) then "" else deadline)
      && q.timestamp == (if timestamp != "" then timestamp else clock.today)
      && q.notes == StringOr(Get(entry, "notes"), "")
      && q.completedDate == StringOr(Get(entry, "completedDate"), "")
      && q.photo == (if photo.Some? && photo.value.JStr? then Some(photo.value.s) else None)
      && q.isCharity == Truthy(Get(entry, "isCharity"))
      && q.isFavorite == Truthy(Get(entry, "isFavorite"))
  {
  }

  /** The `map` step: the callback's result for every entry, in payload
      order, the entry at position `i` drawing its generated id from
      `newId(i)`. */
  function Mapped(entries: seq<Json>, clock: Clock, newId: nat -> string): (r: seq<Option<Quilt>>)
    ensures |r| == |entries|
    ensures forall i :: 0 <= i < |entries| ==> r[i] == NormalizeEntry(entries[i], i, clock, newId)
  {
    seq(|entries|, i requires 0 <= i < |entries| => NormalizeEntry(entries[i], i, clock, newId))
  }

  /** `.filter(Boolean)`: the records, in order, with the nulls dropped. */
  function Present(s: seq<Option<Quilt>>): (r: seq<Quilt>)
    ensures forall q :: q in r <==> Some(q) in s
  {
    if s == [] then []
    else
      assert s == [s[0]] + s[1..];
      var rest := Present(s[1..]);
      if s[0].Some? then [s[0].value] + rest else rest
  }

  /** The `skipped` counter: the callback bumps it exactly when it returns
      null, so it ends as the number of nulls. */
  function Absent(s: seq<Option<Quilt>>): (n: nat)
    ensures n == multiset(s)[None]
  {
    if s == [] then 0
    else
      assert s == [s[0]] + s[1..];
      (if s[0].None? then 1 else 0) + Absent(s[1..])
  }

  /** The filter works piece by piece: the records of a concatenation are
      the records of the first part followed by those of the second. */
  lemma {:induction false} PresentAppend(a: seq<Option<Quilt>>, b: seq<Option<Quilt>>)
    ensures Present(a + b) == Present(a) + Present(b)
  {
    if a == [] {
      assert a + b == b;
    } else {
      var ab := a + b;
      assert ab[0] == a[0] && ab[1..] == a[1..] + b;
      PresentAppend(a[1..], b);
      var head := if a[0].Some? then [a[0].value] else [];
      assert Present(ab) == head + Present(ab[1..]);
      assert Present(a) == head + Present(a[1..]);
    }
  }

  /** Each record is kept as many times as it occurs in the mapped payload. */
  lemma {:induction false} PresentCounts(s: seq<Option<Quilt>>)
    ensures forall q :: multiset(Present(s))[q] == multiset(s)[Some(q)]
  {
    if s != [] {
      assert s == [s[0]] + s[1..];
      PresentCounts(s[1..]);
    }
  }

  /** Payload order is kept: the record of entry `i` comes right after the
      records of the entries before it. */
  lemma PresentKeepsOrder(s: seq<Option<Quilt>>, i: nat)
    requires i < |s| && s[i].Some?
    ensures |Present(s[..i])| < |Present(s)| && Present(s)[|Present(s[..i])|] == s[i].value
  {
    assert s == s[..i] + ([s[i]] + s[i + 1..]);
    PresentAppend(s[..i], [s[i]] + s[i + 1..]);
    PresentAppend([s[i]], s[i + 1..]);
  }

  /** Every entry is either imported or counted as skipped. */
  lemma {:induction false} PresentPlusAbsent(s: seq<Option<Quilt>>)
    ensures |Present(s)| + Absent(s) == |s|
  {
    if s != [] {
      PresentPlusAbsent(s[1..]);
    }
  }

  /** The filter keeps only records normalisation produced, so their
      categories are normalised. */
  lemma PresentNormalized(entries: seq<Json>, clock: Clock, newId: nat -> string)
    ensures AllNormalized(Present(Mapped(entries, clock, newId)))
  {
    var mapped := Mapped(entries, clock, newId);
    var kept := Present(mapped);
    forall j | 0 <= j < |kept|
      ensures IsNormalized(kept[j].category)
    {
      assert Some(kept[j]) in mapped;
      var i :| 0 <= i < |mapped| && mapped[i] == Some(kept[j]);
      assert NormalizeEntry(entries[i], i, clock, newId) == Some(kept[j]);
    }
  }

  /** When no entry is null, the filter keeps them all. */
  lemma {:induction false} PresentOfAllSome(s: seq<Option<Quilt>>, qs: seq<Quilt>)
    requires |s| == |qs| && forall i :: 0 <= i < |s| ==> s[i] == Some(qs[i])
    ensures Present(s) == qs && Absent(s) == 0
  {
    if s != [] {
      PresentOfAllSome(s[1..], qs[1..]);
    }
  }

  /** The import decision: invalid JSON and non-arrays are refused; an array
      with no titled entry is refused with every entry counted as skipped;
      otherwise the titled entries, normalised and in payload order, replace
      the store, and imported plus skipped is the payload length. */
  function ImportPayload(file: Option<Json>, clock: Clock, newId: nat -> string): (r: ImportOutcome)
    ensures r == InvalidJson <==> file.None?
    ensures r == NotAList <==> file.Some? && !file.value.JArr?
    ensures r.NoValidEntries? ==> file.Some? && file.value.JArr? && r.skipped == |file.value.items|
    ensures r.NoValidEntries? ==> Present(Mapped(file.value.items, clock, newId)) == []
    ensures r.Imported? ==>
      && file.Some? && file.value.JArr?
      && r.records != []
      && |r.records| + r.skipped == |file.value.items|
      && (forall q :: q in r.records <==> exists i :: 0 <= i < |file.value.items| && NormalizeEntry(file.value.items[i], i, clock, newId) == Some(q))
      && r.records == Present(Mapped(file.value.items, clock, newId))
      && r.skipped == Absent(Mapped(file.value.items, clock, newId))
      && AllNormalized(r.records)
      && (clock.EmptyIsNotFuture() ==> forall q :: q in r.records ==> WellFormed(q, clock))
  {
    match file
    case None => InvalidJson
    case Some(JArr(items)) =>
      var mapped := Mapped(items, clock, newId);
      var kept := Present(mapped);
      PresentPlusAbsent(mapped);
      PresentNormalized(items, clock, newId);
      if kept == [] then NoValidEntries(Absent(mapped)) else Imported(kept, Absent(mapped))
    case Some(_) => NotAList
  }

  /** A record an export can carry through an import untouched. */
  predicate SurvivesImport(q: Quilt, clock: Clock)
  {
    && WellFormed(q, clock)
    && q.id != "" && IsTrimmed(q.id)
    && q.timestamp != ""
  }

  /** The fields `JSON.stringify` writes for a record are read back as they
      were. */
  lemma ExportedFields(q: Quilt)
    ensures var v := ToJson(q);
      && Get(v, "title") == Some(JStr(q.title))
      && Get(v, "id") == Some(JStr(q.id))
      && Get(v, "category") == Some(JStr(q.category))
      && Get(v, "notes") == Some(JStr(q.notes))
      && Get(v, "deadline") == Some(JStr(q.deadline))
      && Get(v, "completedDate") == Some(JStr(q.completedDate))
      && Get(v, "photo") == Some(PhotoJson(q.photo))
      && Get(v, "timestamp") == Some(JStr(q.timestamp))
      && Get(v, "isCharity") == Some(JBool(q.isCharity))
      && Get(v, "isFavorite") == Some(JBool(q.isFavorite))
  {
  }

  /** Trimming on import leaves an already trimmed title and id as they are. */
  lemma ExportedTitleAndId(q: Quilt)
    requires IsTrimmed(q.title) && IsTrimmed(q.id)
    ensures EntryTitle(ToJson(q)) == q.title
    ensures Trim(StringOr(Get(ToJson(q), "id"), "")) == q.id
  {
    ExportedFields(q);
    TrimOfTrimmed(q.title);
    TrimOfTrimmed(q.id);
  }

  /** One exported record that survives import comes back unchanged. */
  lemma ImportEntryOfExport(q: Quilt, pos: nat, clock: Clock, newId: nat -> string)
    requires SurvivesImport(q, clock)
    ensures NormalizeEntry(ToJson(q), pos, clock, newId) == Some(q)
  {
    var v := ToJson(q);
    ExportedFields(q);
    ExportedTitleAndId(q);
    NormalizedIsFixedPoint(q.category);
    assert ImportCategory(Get(v, "category")) == q.category;
  }

  /** Exporting a store and importing the file gives the same store back,
      with nothing skipped, provided each record has a trimmed title and id,
      a timestamp, a normalised category and no future deadline while
      completed. An empty export is refused on import. */
  lemma ImportAfterExport(qs: seq<Quilt>, clock: Clock, newId: nat -> string)
    requires forall j :: 0 <= j < |qs| ==> SurvivesImport(qs[j], clock)
    ensures ImportPayload(Some(Serialize(qs)), clock, newId)
         == if qs == [] then NoValidEntries(0) else Imported(qs, 0)
  {
    var items := Serialize(qs).items;
    var mapped := Mapped(items, clock, newId);
    forall i | 0 <= i < |qs| ensures mapped[i] == Some(qs[i]) {
      ImportEntryOfExport(qs[i], i, clock, newId);
    }
    PresentOfAllSome(mapped, qs);
  }
}
