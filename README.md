# Quilt project tracker — a Dafny model of its record store

The tracker is a single-page browser application (`app.js`). It keeps a list of
quilt projects in the module-level array `allQuilts` and persists it in a
`localStorage` slot. The user can add and edit a project through an editor
form, mark a project as a favourite, delete it behind a confirmation banner,
and export or import a JSON backup. Three galleries show the list: all
projects filtered by status (with "due soon" projects counted as upcoming),
charity projects, and favourites.

The model covers the part of `app.js` that is not DOM work:

- `Records` holds the project record `Quilt` and the list operations the
  handlers perform. Upsert replaces the *first* record with an id or
  prepends. Toggle flips the favourite flag of the first record with an id.
  Delete drops *every* record with an id. Ids are not assumed unique,
  because neither import nor submit makes them so.
- `Store` is the page state as a class, `QuiltStore`. It holds the list, the
  editor flags `isEditing`/`editingQuiltId`, the editor panel's visibility and
  the persisted slot with a write counter. Each handler is a method whose
  `ensures` ties the new state to the list functions of `Records`.
- `Categories`, `Text` and `Views` hold the pure helpers:
  `normalizeCategory`, `getCategoryLabel`, `getCategoryClass`, `trim`,
  `truncateText`, `isDueSoon`, `filterQuiltsByCategory` and the charity and
  favourite lists.
- `Persistence` gives the shape `saveQuiltData` writes and the way
  `loadQuiltData` reads it back. It proves that a save followed by a load
  gives back the list whenever every category is already normalised, which
  every operation of the store keeps true. It also proves that a stored
  legacy status is migrated on load.
- `Import` is the synchronous body of the import `onload` handler. It covers
  per-entry normalisation, skip counting and the accept/reject decision. It
  proves that importing an export gives back the same list, provided that
  every record has a trimmed non-empty title and id, a timestamp, a
  normalised category, and is not a completed project with a future
  deadline.
- `Submit` is the validation and record assembly of `handleFormSubmit`.
- `JsonData` models parsed JSON values with JavaScript's `Boolean()` and
  field reads. `Optional` holds `Option` and `Result`. `Seqs` holds an
  order-preserving filter.

The environment is passed in as parameters:

- **Dates.** `isFutureDate` and today's stamp form a `Clock`. `isFuture` is
  any predicate on strings. Where a proof needs it, `isFuture("")` is false,
  as `isFutureDate` guarantees (app.js:880-881).
- **Ids.** `generateUniqueId` is an oracle. Import receives `newId`, indexed
  by the entry's position in the payload, and submit receives `freshId`.
- **Parsing.** JSON text is not parsed: the slot and the imported file hold
  parsed values, or `None` when the text is missing or invalid.

Nothing in the code makes ids unique or limits a category to the three
statuses. An import keeps any supplied id and any string category, so the
model allows both.

## Model

| member | source | states |
|---|---|---|
| Text.Trim | app.js:690 | the result has no leading or trailing whitespace; it is the contiguous slice of the input that starts after the leading whitespace, and only whitespace follows it; it is empty exactly when the input is all whitespace |
| Text.TrimIdempotent | app.js:690 | trimming twice is trimming once |
| Text.TruncateText | app.js:910-913 | text that fits is returned unchanged; longer text becomes a prefix of the input of `maxLength` characters (none for a negative limit) followed by `...` |
| Categories.NormalizeCategory | app.js:835-846 | the result is never empty and never a legacy alias; `wip` becomes `in-progress`; `not-started` and the empty string become `upcoming`; every other value is returned unchanged |
| Categories.NormalizeIdempotent | app.js:835-846 | normalising twice is normalising once |
| Categories.CategoryLabel | app.js:849-857 | a known status shows its label and any other category shows its normalised name; the label is never empty |
| Categories.CategoryClass | app.js:859-871 | the class is `status-` followed by the mapped class of a known status or by the normalised category itself |
| Categories.RenderingIgnoresAliases | app.js:849-871 | a category and its normal form get the same label and class; `wip` renders as "In Progress" with class `status-wip` |
| Categories.PrototypeNameLeaksIntoLabel | app.js:849-857 | as written, the category `constructor` yields an inherited member instead of a label, and the category `toString` yields one instead of a class; the corrected functions give the category's own name |
| Categories.AsWrittenAgreesOffPrototype | app.js:859-871 | away from `Object.prototype` names the corrected label and class equal the written ones; the written class never takes its empty-string branch |
| Categories.CategoryLabelAsWritten | app.js:849-857 | as written, the label lookup yields an inherited member exactly when the normalised category names an `Object.prototype` member, and otherwise a non-empty text |
| Categories.CategoryClassAsWritten | app.js:859-871 | as written, the class lookup yields an inherited member exactly when the normalised category names an `Object.prototype` member, and otherwise a `status-` class |
| Records.FirstIndex | app.js:755 | the index of the first record with the id, or `None` exactly when no record has it |
| Records.FindIndex | app.js:755 | the loop returns -1 exactly when no record has the id, and otherwise the first index whose record has it |
| Records.Find | app.js:783 | the record at the first position holding the id, or `None` exactly when no record has it |
| Records.Upserted | app.js:754-763 | when the id is present, the first record with it is replaced, the length is unchanged and every other position is untouched; otherwise the record is prepended and the old list follows unchanged |
| Records.UpsertThenFind | app.js:754-763 | after an upsert a lookup by the id finds the new record, at the old first position for an edit or at the front for an insertion |
| Records.UpsertIdempotent | app.js:754-763 | saving the same record twice equals saving it once |
| Records.UpsertKeepsNormalized | app.js:754-763 | upserting a record with a normalised category keeps every category normalised |
| Records.Toggled | app.js:783-786 | for a present id, only the first matching record changes and only its favourite flag flips; for an absent id the list is unchanged; the length is always kept |
| Records.FirstIndexIgnoresFlags | app.js:783-786 | lists with the same ids at the same positions have the same first index for every id |
| Records.ToggleTwice | app.js:783-786 | toggling twice restores the list, and toggling keeps categories normalised |
| Records.Without | app.js:812 | no record with the id is left; every other record stays, in order and with its multiplicity |
| Records.WithoutAbsent | app.js:802-803 | deleting an absent id leaves the list unchanged, and deleting keeps categories normalised |
| Seqs.Filter | app.js:812 | the filter keeps exactly the elements that pass, in order and with their multiplicities |
| Seqs.FilterKeepsAll | app.js:812 | when every element passes, the filter returns the list itself |
| Seqs.SubsequenceTransitive | app.js:468-469 | a subsequence of a subsequence is a subsequence, so the category filter applied to the favourites keeps the list's order |
| Views.FilterByCategory | app.js:443-452 | `all` returns the input; any other category gives an order-preserving subsequence that keeps each record the test passes as many times as it occurs and drops the others; for `upcoming` a record passes iff it is upcoming after normalisation or due soon; otherwise the normalised categories must match |
| Views.IsDueSoon | app.js:890-892 | a due-soon project is never completed, and a project without a deadline is never due soon |
| Views.UpcomingIncludesDueSoon | app.js:890-892 | an in-progress project with a future deadline is listed under `upcoming`, and under its legacy alias `not-started` |
| Views.CharityList | app.js:461-464 | the charity records, in order, each as many times as it occurs |
| Views.FavoriteList | app.js:467-471 | an order-preserving subsequence holding each favourite that the favourites' category filter passes, as many times as it occurs, and nothing else |
| Views.ShouldShowAll | app.js:19-20 | the app opens on all projects exactly when there is a project and none is a favourite |
| Views.ShowAllIffNoFavorites | app.js:19-20 | the app opens on all projects exactly when the list is non-empty and the unfiltered favourites list is empty |
| Persistence.Serialize | app.js:186-188 | one JSON object per record, in order |
| Persistence.StoredCategory | app.js:168 | a stored string category loads as its normalised form; a missing or non-string one loads as `upcoming` |
| Persistence.LoadEntry | app.js:167-175 | a loaded record has the stored category normalised, its flags are the truthiness of the stored values, and every other field is the stored string (or no photo when the stored photo is not a string) |
| Persistence.LoadList | app.js:151-177 | a missing, invalid or non-array slot loads as the empty list; an array loads as one record per element, record j being element j loaded, with every category normalised |
| Persistence.LoadEntryRoundTrip | app.js:167-175 | a record with a normalised category loads back exactly as it was written |
| Persistence.LoadMigratesLegacyStatus | app.js:167-175 | a record stored with the retired `wip` status loads as `in-progress`, with every other field as stored |
| Persistence.LoadAfterSave | app.js:151-188 | save followed by load returns the list whenever all categories are normalised |
| Persistence.LoadIdempotent | app.js:151-188 | saving a loaded list and loading it again gives the same list |
| Import.ImportCategory | app.js:243 | the fallback to `'upcoming'` never fires: the imported category is `normalizeCategory` of the string read |
| Import.NormalizeEntry | app.js:237-267 | an entry is dropped exactly when its trimmed title is empty; a kept entry has a normalised category and is well formed (trimmed non-empty title, no completed project with a future deadline) |
| Import.KeptEntryFields | app.js:237-267 | every field of a kept entry: the title is trimmed; a non-empty trimmed id is kept, otherwise a fresh one is used; a completed entry loses a future deadline; a missing timestamp becomes today; non-string text fields become `''`; a non-string photo becomes null |
| Import.Mapped | app.js:236 | entry i of the payload is normalised at position i, and the result has one slot per entry |
| Import.Present | app.js:268 | `filter(Boolean)` keeps exactly the records and drops the nulls |
| Import.Absent | app.js:235-240 | the skipped counter is the number of entries the callback turned into null |
| Import.PresentAppend | app.js:268 | the records of a concatenation are the records of the first part followed by those of the second |
| Import.PresentKeepsOrder | app.js:268 | the record of entry i comes right after the records of the entries before it |
| Import.PresentCounts | app.js:268 | each record is kept as many times as it occurs among the mapped entries |
| Import.PresentPlusAbsent | app.js:235-268 | imported count plus skipped count equals the payload length |
| Import.PresentNormalized | app.js:243-268 | every kept record has a normalised category |
| Import.PresentOfAllSome | app.js:268 | with no null, the filter keeps everything and nothing is counted as skipped |
| Import.ImportPayload | app.js:214-278 | invalid JSON and non-arrays are refused; no valid entry means refusal with every entry skipped; otherwise the records are the filtered normalised entries (in payload order and with multiplicity, by PresentAppend, PresentKeepsOrder and PresentCounts), `skipped` is the number of title-less entries, the two add up to the payload length, and every record is normalised and well formed |
| Import.ExportedFields | app.js:186-188 | each field of an exported record reads back as written |
| Import.ImportEntryOfExport | app.js:237-267 | an exported record that survives import (trimmed title and id, normalised category, timestamp present, no completed project with a future deadline) comes back unchanged |
| Import.ImportAfterExport | app.js:190-278 | importing an export of such records restores exactly that list with nothing skipped; an empty export is refused as having no valid entries |
| Submit.PrepareRecord | app.js:684-751 | refused with MissingTitle exactly when the trimmed title is empty; refused for a completed project with a future deadline exactly when the title is present, the category normalises to completed and the deadline is in the future; otherwise a well-formed record whose id is the edit id or a fresh one, with trimmed title and notes, the deadline and both flags from the form, the new photo when given, the form's completion date or else the existing record's or else `''`, and an existing record's timestamp and (without a new photo) its photo |
| Submit.SubmitId | app.js:688 | the record gets the edit id when one is set, and the fresh id otherwise |
| Submit.EditKeepsPhotoAndPlace | app.js:744-763 | saving an accepted edit of an existing record with no new photo keeps that record's photo and timestamp, and keeps its position in the list |
| Store.QuiltStore.constructor | app.js:5-10 | the page starts with an empty list and the editor closed |
| Store.QuiltStore.Editor | app.js:8-9 | the editor is closed exactly when the panel is hidden, editing exactly when `isEditing` holds, and then on the recorded id |
| Store.QuiltStore.EditTarget | app.js:688 | the hidden edit-id input holds the id under edit, and is empty when not editing |
| Store.QuiltStore.Load | app.js:151-177 | the list becomes what the slot loads as, with all categories normalised; the editor is unchanged |
| Store.QuiltStore.Persist | app.js:186-188 | the slot holds the serialised list, and one more write is counted; the editor is unchanged |
| Store.QuiltStore.OpenEditor | app.js:577-590 | both editor flags are cleared and the panel opens to create a project |
| Store.QuiltStore.CloseEditor | app.js:593-598 | the panel closes and both editor flags are cleared |
| Store.QuiltStore.StartEdit | app.js:636-660 | editing starts on the id exactly when a record has it; otherwise the editor is unchanged |
| Store.QuiltStore.Save | app.js:754-775 | the list becomes the upsert, an insertion is reported exactly when the id was absent, the list is persisted and the editor closes; normalised categories stay normalised |
| Store.QuiltStore.ToggleFavorite | app.js:777-797 | the list becomes the toggled list; a write happens only when the id is present; the editor is unchanged |
| Store.QuiltStore.Remove | app.js:800-828 | records are removed exactly when the id is present and the deletion is confirmed, and the list is then persisted; otherwise nothing changes; the editor is unchanged |
| Store.QuiltStore.Import | app.js:214-310 | an accepted import replaces the list with the imported records and persists it; every refusal leaves the list and the slot unchanged; the editor is unchanged |
| Store.QuiltStore.Submit | app.js:684-751 | a refused submit changes nothing, including the editor; an accepted one saves the prepared record as `Save` does |

## Left out

- DOM rendering, tab and view wiring, scrolling and focus: `renderQuiltGallery`, `updateProjectListing`, `showDetails`, `switchTab`, `handleViewSelect`, `reapplyCurrentViewFilters`, `updateCategoryButtonSelection` and `resetQuiltEditorFields`. They only produce markup and toggle CSS classes. The one form field with meaning, the hidden edit id, is `QuiltStore.EditTarget`.
- Banners (`showBanner`, `dismissBanner`) and their timers. The model gives only the outcome of each action (a rejection reason, or the imported and skipped counts), not the message text.
- `localStorage`, JSON text, `JSON.parse` and `JSON.stringify`. The slot holds a parsed value; a parse failure is `None`. The pretty-printing of the export and the Blob/URL download in `exportQuilts` are left out too.
- The `FileReader` callbacks are modelled as their synchronous bodies. The order in which a photo read and other events could interleave is not modelled, and neither is the `onerror` path of the import reader.
- `Date` parsing, time zones and `formatDateDisplay`. `isFutureDate` and today's stamp are parameters.
- `generateUniqueId` uses `Date.now()` and `Math.random()`; it is an oracle parameter.
- `sanitizeText` relies on the browser's escaping and is a foreign call.
- `ensureQuiltDataLoaded` and `hasLoadedData` are left out. The store is taken to be loaded whenever a handler runs, which is the case after `initializeApp`.
- `activeCategory` and `favoriteCategory` are left out as state. They are arguments of the view functions instead.
- Persistence.LoadEntry: reads a stored field that is not a string as `''` (or no photo). The code keeps whatever value was stored, and record fields here are typed.
- Persistence.LoadList: a stored array with a `null` element makes the code's `quilt.category` read throw; the model loads that element as an empty record instead.
- Text.Trim: works on Unicode scalar values, while JavaScript strings are UTF-16. The set of whitespace is the ECMAScript one. `TruncateText` likewise counts scalar values rather than UTF-16 code units.
- Store.QuiltStore.ToggleFavorite: the favourite checkbox of an open editor is not resynchronised, because the form fields other than the edit id are not modelled.
- Store.QuiltStore.Remove: the confirmation is a parameter. The banner that asks for it, and the time that can pass before the user answers, are not modelled.
- Store.QuiltStore.Persist: always succeeds. In the code `localStorage.setItem` can throw, for example when the quota is exceeded, which large photo data URLs make likely. Then `saveQuiltRecord` has already changed `allQuilts` but never closes the editor, `toggleFavorite` keeps the flip in memory only, and the slot stays stale. The model does not capture this divergence between list and slot.
- Store.QuiltStore.Submit: the title and deadline inputs are taken to exist. The completed-date input is optional, as in the code.

## Findings

| source | as written | input that shows it | evidently intended | confidence | as-written member | corrected member |
|---|---|---|---|---|---|---|
| app.js:849-871 | `labels[normalized] \|\| normalized` and `classMap[normalized] \|\| normalized` read a plain object literal, so a key that names an `Object.prototype` member finds the inherited function | an imported backup entry with category `"constructor"` is labelled with the text of `Object`'s constructor function; category `"toString"` gets a class built from a function's source text | look up own properties only, so unknown categories show their own name and get class `status-<name>` | not executed | Categories.PrototypeNameLeaksIntoLabel | Categories.AsWrittenAgreesOffPrototype |
