/** Project records and the list operations the store performs on them:
    `find`/`findIndex` by id, the upsert of `saveQuiltRecord`
    (app.js:754-763), the favourite flip of `toggleFavorite` (app.js:783-786)
    and the delete filter of `removeQuilt` (app.js:812). Ids are not assumed
    unique: nothing in the source enforces it. */
module Records {
  import opened Optional
  import opened Text
  import opened Categories
  import opened Seqs

  /** One quilt project. `photo` is an embedded image (a data URL) or null. */
  datatype Quilt = Quilt(
    id: string,
    title: string,
    category: string,
    notes: string,
    deadline: string,
    completedDate: string,
    photo: Option<string>,
    timestamp: string,
    isCharity: bool,
    isFavorite: bool)

  /** The environment's calendar: today's `YYYY-MM-DD` stamp and the
      `isFutureDate` test, whose date parsing is not modelled. */
  datatype Clock = Clock(today: string, isFuture: string -> bool)
  {
    /** `isFutureDate('')` is false: the source checks for the empty string
        before parsing. */
    predicate EmptyIsNotFuture()
    {
      !isFuture("")
    }
  }

  /** What the source enforces on every record it saves from the form or
      takes from a backup: a non-empty trimmed title, a normalised category,
      and no future deadline on a completed project. */
  predicate WellFormed(q: Quilt, clock: Clock)
  {
    && q.title != "" && IsTrimmed(q.title)
    && IsNormalized(q.category)
    && !(q.category == Completed && clock.isFuture(q.deadline))
  }

  predicate HasId(qs: seq<Quilt>, id: string)
  {
    exists j :: 0 <= j < |qs| && qs[j].id == id
  }

  predicate AllNormalized(qs: seq<Quilt>)
  {
    forall j :: 0 <= j < |qs| ==> IsNormalized(qs[j].category)
  }

  /** `findIndex(q => q.id === id)`, with None for -1: the first position
      holding that id. */
  function FirstIndex(qs: seq<Quilt>, id: string): (r: Option<nat>)
    ensures r.None? <==> !HasId(qs, id)
    ensures r.Some? ==> r.value < |qs| && qs[r.value].id == id
    ensures r.Some? ==> forall j :: 0 <= j < r.value ==> qs[j].id != id
  {
    if qs == [] then None
    else if qs[0].id == id then Some(0)
    else match FirstIndex(qs[1..], id)
      case None => None
      case Some(i) => Some(i + 1)
  }

  /** `find(q => q.id === id)`: a record with that id, the first one. */
  function Find(qs: seq<Quilt>, id: string): (r: Option<Quilt>)
    ensures r.None? <==> !HasId(qs, id)
    ensures r.Some? ==> r.value in qs && r.value.id == id
    ensures r.Some? ==> r.value == qs[FirstIndex(qs, id).value]
  {
    match FirstIndex(qs, id)
    case None => None
    case Some(i) => Some(qs[i])
  }

  /** The loop behind `allQuilts.findIndex(q => q.id === id)`: -1 when no
      record has the id, otherwise the first position that has it. */
  method FindIndex(qs: seq<Quilt>, id: string) returns (idx: int)
    ensures -1 <= idx < |qs|
    ensures idx == -1 <==> !HasId(qs, id)
    ensures 0 <= idx ==> qs[idx].id == id && forall j :: 0 <= j < idx ==> qs[j].id != id
  {
    idx := 0;
    while idx < |qs|
      invariant 0 <= idx <= |qs|
      invariant forall j :: 0 <= j < idx ==> qs[j].id != id
    {
      if qs[idx].id == id {
        return;
      }
      idx := idx + 1;
    }
    idx := -1;
  }

  /** The list after `saveQuiltRecord(q)`: the first record with `q`'s id is
      replaced in place, or, when there is none, `q` is put at the front. */
  function Upserted(qs: seq<Quilt>, q: Quilt): (r: seq<Quilt>)
    ensures HasId(qs, q.id) ==>
      var i := FirstIndex(qs, q.id).value;
      |r| == |qs| && r[i] == q && forall j :: 0 <= j < |qs| && j != i ==> r[j] == qs[j]
    ensures !HasId(qs, q.id) ==> |r| == |qs| + 1 && r[0] == q && r[1..] == qs
  {
    match FirstIndex(qs, q.id)
    case Some(i) => qs[i := q]
    case None => [q] + qs
  }

  /** After an upsert the record is what a lookup by its id finds: an edit
      keeps the position the id had, a new record comes first. */
  lemma UpsertThenFind(qs: seq<Quilt>, q: Quilt)
    ensures FirstIndex(Upserted(qs, q), q.id) == if HasId(qs, q.id) then FirstIndex(qs, q.id) else Some(0)
    ensures Find(Upserted(qs, q), q.id) == Some(q)
  {
    var r := Upserted(qs, q);
    if HasId(qs, q.id) {
      var i := FirstIndex(qs, q.id).value;
      assert r[i].id == q.id;
      assert forall j :: 0 <= j < i ==> r[j].id != q.id by {
        forall j | 0 <= j < i ensures r[j].id != q.id {
          assert r[j] == qs[j];
        }
      }
    } else {
      assert r[0].id == q.id;
    }
  }

  /** Upserting the same record twice is the same as upserting it once. */
  lemma UpsertIdempotent(qs: seq<Quilt>, q: Quilt)
    ensures Upserted(Upserted(qs, q), q) == Upserted(qs, q)
  {
    var r := Upserted(qs, q);
    UpsertThenFind(qs, q);
    var i := FirstIndex(r, q.id).value;
    assert r[i] == q;
  }

  /** Upserting a normalised record keeps every category normalised. */
  lemma UpsertKeepsNormalized(qs: seq<Quilt>, q: Quilt)
    requires AllNormalized(qs) && IsNormalized(q.category)
    ensures AllNormalized(Upserted(qs, q))
  {
    var r := Upserted(qs, q);
    if !HasId(qs, q.id) {
      assert forall j :: 1 <= j < |r| ==> r[j] == qs[j - 1];
    }
  }

  function Flip(q: Quilt): Quilt
  {
    q.(isFavorite := !q.isFavorite)
  }

  /** The list after `toggleFavorite(id)`: the first record with that id has
      its favourite flag flipped; nothing else changes, and without such a
      record the list is unchanged. */
  function Toggled(qs: seq<Quilt>, id: string): (r: seq<Quilt>)
    ensures |r| == |qs|
    ensures forall j :: 0 <= j < |qs| && FirstIndex(qs, id) != Some(j) ==> r[j] == qs[j]
    ensures HasId(qs, id) ==>
      var i := FirstIndex(qs, id).value;
      r[i].isFavorite == !qs[i].isFavorite && r[i] == qs[i].(isFavorite := r[i].isFavorite)
    ensures !HasId(qs, id) ==> r == qs
  {
    match FirstIndex(qs, id)
    case Some(i) => qs[i := Flip(qs[i])]
    case None => qs
  }

  /** Toggling never moves an id, so the first position of every id is the
      same before and after. */
  lemma {:induction false} FirstIndexIgnoresFlags(a: seq<Quilt>, b: seq<Quilt>, id: string)
    requires |a| == |b|
    requires forall j :: 0 <= j < |a| ==> a[j].id == b[j].id
    ensures FirstIndex(a, id) == FirstIndex(b, id)
  {
    if a != [] {
      FirstIndexIgnoresFlags(a[1..], b[1..], id);
    }
  }

  /** Toggling twice restores the list; toggling keeps categories normalised. */
  lemma ToggleTwice(qs: seq<Quilt>, id: string)
    ensures Toggled(Toggled(qs, id), id) == qs
    ensures AllNormalized(qs) ==> AllNormalized(Toggled(qs, id))
  {
    var t := Toggled(qs, id);
    FirstIndexIgnoresFlags(qs, t, id);
  }

  /** The list after the confirmed delete of `id`: every record with that id
      is gone and the rest stay, in order and with their multiplicities. */
  function Without(qs: seq<Quilt>, id: string): (r: seq<Quilt>)
    ensures !HasId(r, id)
    ensures forall q :: q in r <==> q in qs && q.id != id
    ensures forall q: Quilt :: q.id != id ==> multiset(r)[q] == multiset(qs)[q]
    ensures IsSubsequence(r, qs)
  {
    var r := Filter(qs, (q: Quilt) => q.id != id);
    assert forall j :: 0 <= j < |r| ==> r[j] in r;
    r
  }

  /** Deleting an id no record has gives the list back unchanged; deleting
      keeps categories normalised. */
  lemma WithoutAbsent(qs: seq<Quilt>, id: string)
    ensures !HasId(qs, id) ==> Without(qs, id) == qs
    ensures AllNormalized(qs) ==> AllNormalized(Without(qs, id))
  {
    if !HasId(qs, id) {
      FilterKeepsAll(qs, (q: Quilt) => q.id != id);
    }
    var r := Without(qs, id);
    assert forall j :: 0 <= j < |r| ==> r[j] in qs;
  }
}
