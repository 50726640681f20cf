/** Project categories: `normalizeCategory` (app.js:835-846) with its legacy
    aliases, and the display label and CSS class derived from a category
    (app.js:849-871). */
module Categories {

  const Upcoming := "upcoming"
  const InProgress := "in-progress"
  const Completed := "completed"

  /** Categories written by older versions of the app. */
  const LegacyWip := "wip"
  const LegacyNotStarted := "not-started"

  /** `normalizeCategory` on a string category: the empty (falsy) category
      becomes upcoming, the two legacy aliases become their current names,
      and anything else is returned unchanged. */
  function NormalizeCategory(category: string): (r: string)
    ensures r != "" && r != LegacyWip && r != LegacyNotStarted
    ensures category != "" && category != LegacyWip && category != LegacyNotStarted ==> r == category
    ensures category == LegacyWip ==> r == InProgress
    ensures category == LegacyNotStarted || category == "" ==> r == Upcoming
  {
    if category == "" then Upcoming
    else if category == LegacyWip then InProgress
    else if category == LegacyNotStarted then Upcoming
    else category
  }

  /** A category already in normal form. Nothing in the source restricts
      categories to the three canonical names: any other non-empty string
      survives normalisation. */
  predicate IsNormalized(category: string)
  {
    category != "" && category != LegacyWip && category != LegacyNotStarted
  }

  /** Normal forms are exactly the fixed points of normalisation. */
  lemma NormalizedIsFixedPoint(category: string)
    ensures IsNormalized(category) <==> NormalizeCategory(category) == category
  {
  }

  /** Normalisation is idempotent. */
  lemma NormalizeIdempotent(category: string)
    ensures NormalizeCategory(NormalizeCategory(category)) == NormalizeCategory(category)
  {
    NormalizedIsFixedPoint(NormalizeCategory(category));
  }

  /** The object literal `labels` of `getCategoryLabel`, as own properties. */
  function LabelTable(): map<string, string>
  {
    map[Upcoming := "Upcoming", InProgress := "In Progress", Completed := "Completed"]
  }

  /** The object literal `classMap` of `getCategoryClass`, as own properties. */
  function ClassTable(): map<string, string>
  {
    map[Upcoming := "upcoming", InProgress := "wip", Completed := "completed"]
  }

  /** Property names every plain JavaScript object inherits from
      `Object.prototype`; reading one of them from an object literal yields a
      function (or, for `__proto__`, the prototype object), never `undefined`. */
  const ObjectPrototypeMembers: set<string> := {
    "constructor", "hasOwnProperty", "isPrototypeOf", "propertyIsEnumerable",
    "toString", "toLocaleString", "valueOf", "__proto__",
    "__defineGetter__", "__defineSetter__", "__lookupGetter__", "__lookupSetter__"
  }

  /** What a `table[key] || key` lookup on an object literal yields. */
  datatype Lookup =
    | Text(text: string)
    | InheritedMember(name: string)  // an `Object.prototype` member, rendered as its JavaScript string form

  /** `table[key] || key` exactly as JavaScript evaluates it: own property,
      else inherited member, else the key itself. */
  function LookupAsWritten(table: map<string, string>, key: string): Lookup
  {
    if key in table then Text(table[key])
    else if key in ObjectPrototypeMembers then InheritedMember(key)
    else Text(key)
  }

  /** `getCategoryLabel` as written. */
  function CategoryLabelAsWritten(category: string): (r: Lookup)
    ensures r.InheritedMember? <==> NormalizeCategory(category) in ObjectPrototypeMembers
    ensures r.Text? ==> r.text != ""
  {
    LookupAsWritten(LabelTable(), NormalizeCategory(category))
  }

  /** `getCategoryClass` as written: the `!normalized` guard and the
      `status-` prefix around the same lookup. */
  function CategoryClassAsWritten(category: string): (r: Lookup)
    ensures r.InheritedMember? <==> NormalizeCategory(category) in ObjectPrototypeMembers
    ensures r.Text? ==> |r.text| > 7 && r.text[..7] == "status-"
  {
    var normalized := NormalizeCategory(category);
    if normalized == "" then Text("")
    else match LookupAsWritten(ClassTable(), normalized)
      case Text(t) => Text("status-" + t)
      case InheritedMember(name) => InheritedMember(name)
  }

  /** A category named like an `Object.prototype` member (one an imported
      backup can carry) is shown as that member rather than as its own name,
      and its CSS class is built from the member too. */
  lemma PrototypeNameLeaksIntoLabel()
    ensures CategoryLabelAsWritten("constructor") == InheritedMember("constructor")
    ensures CategoryClassAsWritten("toString") == InheritedMember("toString")
    ensures CategoryLabel("constructor") == "constructor"
    ensures CategoryClass("toString") == "status-toString"
  {
  }

  /** `getCategoryLabel` with own-property lookup: a known category shows its
      label, any other shows its normalised name. */
  function CategoryLabel(category: string): (r: string)
    ensures var n := NormalizeCategory(category);
      if n in LabelTable() then r == LabelTable()[n] else r == n
    ensures r != ""
  {
    var n := NormalizeCategory(category);
    if n in LabelTable() then LabelTable()[n] else n
  }

  /** `getCategoryClass` with own-property lookup: always `status-` followed
      by the mapped class of a known category, or by the category itself.
      The source's empty-class branch is unreachable (see
      AsWrittenAgreesOffPrototype). */
  function CategoryClass(category: string): (r: string)
    ensures |r| > 7 && r[..7] == "status-"
    ensures var n := NormalizeCategory(category);
      r[7..] == if n in ClassTable() then ClassTable()[n] else n
  {
    var n := NormalizeCategory(category);
    "status-" + (if n in ClassTable() then ClassTable()[n] else n)
  }

  /** On every category the corrected lookups agree with the written ones
      except on `Object.prototype` names, and the written class never takes
      its `!normalized` branch. */
  lemma AsWrittenAgreesOffPrototype(category: string)
    ensures NormalizeCategory(category) !in ObjectPrototypeMembers ==>
      CategoryLabelAsWritten(category) == Text(CategoryLabel(category)) &&
      CategoryClassAsWritten(category) == Text(CategoryClass(category))
    ensures CategoryClassAsWritten(category) != Text("")
  {
  }

  /** Labels and classes do not see legacy aliases: a category and its
      normal form render the same; `wip` renders as "In Progress" with the
      `status-wip` class. */
  lemma RenderingIgnoresAliases(category: string)
    ensures CategoryLabel(NormalizeCategory(category)) == CategoryLabel(category)
    ensures CategoryClass(NormalizeCategory(category)) == CategoryClass(category)
    ensures CategoryLabel(LegacyWip) == "In Progress" && CategoryClass(LegacyWip) == "status-wip"
  {
    NormalizeIdempotent(category);
  }
}
