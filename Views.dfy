/** The derived lists the three galleries show: the category filter with its
    "due soon" rule (app.js:443-452, 890-892), the charity and favourite
    lists (app.js:462, 468-469), and the start-up choice between showing all
    projects and showing favourites (app.js:19-20, 285-286). */
module Views {
  import opened Categories
  import opened Records
  import opened Seqs

  const AllCategories := "all"

  /** `isDueSoon`: not completed, and the deadline lies in the future; a
      project without a deadline is never due soon. */
  predicate IsDueSoon(q: Quilt, clock: Clock)
    ensures IsDueSoon(q, clock) ==> NormalizeCategory(q.category) != Completed
    ensures clock.EmptyIsNotFuture() && q.deadline == "" ==> !IsDueSoon(q, clock)
  {
    NormalizeCategory(q.category) != Completed && clock.isFuture(q.deadline)
  }

  /** The test `filterQuiltsByCategory` applies to each record once it knows
      the (already normalised) category asked for. */
  predicate InCategory(q: Quilt, normalized: string, clock: Clock)
  {
    if normalized == Upcoming then IsDueSoon(q, clock) || NormalizeCategory(q.category) == Upcoming
    else NormalizeCategory(q.category) == normalized
  }

  /** `filterQuiltsByCategory(quilts, category)`: `'all'` passes the list
      through; any other category keeps, in order, the records of that
      normalised category, where "upcoming" also takes in every record that
      is due soon. */
  function FilterByCategory(qs: seq<Quilt>, category: string, clock: Clock): (r: seq<Quilt>)
    ensures category == AllCategories ==> r == qs
    ensures category != AllCategories ==> IsSubsequence(r, qs)
    ensures category != AllCategories && NormalizeCategory(category) == Upcoming ==>
      forall q :: q in r <==> q in qs && (IsDueSoon(q, clock) || NormalizeCategory(q.category) == Upcoming)
    ensures category != AllCategories && NormalizeCategory(category) != Upcoming ==>
      forall q :: q in r <==> q in qs && NormalizeCategory(q.category) == NormalizeCategory(category)
    ensures category != AllCategories ==> forall q ::
      multiset(r)[q] == if InCategory(q, NormalizeCategory(category), clock) then multiset(qs)[q] else 0
  {
    if category == AllCategories then qs
    else
      var normalized := NormalizeCategory(category);
      Filter(qs, (q: Quilt) => InCategory(q, normalized, clock))
  }

  /** The list shown under the charity tab: the charity records, in order. */
  function CharityList(qs: seq<Quilt>): (r: seq<Quilt>)
    ensures IsSubsequence(r, qs)
    ensures forall q :: q in r <==> q in qs && q.isCharity
    ensures forall q :: multiset(r)[q] == if q.isCharity then multiset(qs)[q] else 0
  {
    Filter(qs, (q: Quilt) => q.isCharity)
  }

  /** The list shown under the favourites tab: the favourite records, in
      order, narrowed by the favourites' own category filter. */
  function FavoriteList(qs: seq<Quilt>, favoriteCategory: string, clock: Clock): (r: seq<Quilt>)
    ensures IsSubsequence(r, qs)
    ensures forall q :: q in r <==> q in qs && Shown(q, favoriteCategory, clock)
    ensures forall q :: multiset(r)[q] == if Shown(q, favoriteCategory, clock) then multiset(qs)[q] else 0
  {
    var favorites := Filter(qs, (q: Quilt) => q.isFavorite);
    var r := FilterByCategory(favorites, favoriteCategory, clock);
    if favoriteCategory == AllCategories then r
    else SubsequenceTransitive(r, favorites, qs); r
  }

  /** A record the favourites tab shows under `favoriteCategory`. */
  predicate Shown(q: Quilt, favoriteCategory: string, clock: Clock)
  {
    q.isFavorite && (favoriteCategory == AllCategories || InCategory(q, NormalizeCategory(favoriteCategory), clock))
  }

  /** `allQuilts.length > 0 && !allQuilts.some(q => q.isFavorite)`. */
  predicate ShouldShowAll(qs: seq<Quilt>)
    ensures ShouldShowAll(qs) <==> qs != [] && forall q :: q in qs ==> !q.isFavorite
  {
    |qs| > 0 && !exists j :: 0 <= j < |qs| && qs[j].isFavorite
  }

  /** The app opens on "all projects" exactly when there are projects but the
      favourites list would be empty. */
  lemma ShowAllIffNoFavorites(qs: seq<Quilt>, clock: Clock)
    ensures ShouldShowAll(qs) <==> qs != [] && FavoriteList(qs, AllCategories, clock) == []
  {
    var favs := FavoriteList(qs, AllCategories, clock);
    if favs != [] {
      assert favs[0] in favs;
    }
    if exists j :: 0 <= j < |qs| && qs[j].isFavorite {
      var j :| 0 <= j < |qs| && qs[j].isFavorite;
      assert qs[j] in favs;
    }
  }

  /** An in-progress project with a future deadline shows under "upcoming";
      a completed one never counts as due soon. */
  lemma UpcomingIncludesDueSoon(qs: seq<Quilt>, q: Quilt, clock: Clock)
    requires q in qs && NormalizeCategory(q.category) == InProgress && clock.isFuture(q.deadline)
    ensures q in FilterByCategory(qs, Upcoming, clock)
    ensures q in FilterByCategory(qs, LegacyNotStarted, clock)
  {
  }
}
