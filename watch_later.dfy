/** The watch-later list shared by the web and mobile clients: a sequence of
    `{id, media_type}` records, looked up and deduplicated on the pair
    `(String(id), media_type)`.  The functions here are what
    `isInWatchLater`, `addToWatchLater` and `removeFromWatchLater` compute
    from the list they read; the storage classes apply them. */
module WatchLater {
  import opened Js
  import opened Options
  import opened Text
  import Seqs

  /** One stored record. */
  datatype Entry = Entry(id: Value, mediaType: Value)

  /** `String(item.id) === String(id) && item.media_type === media_type` */
  predicate Matches(e: Entry, id: Value, mediaType: Value) {
    ToStr(e.id) == ToStr(id) && e.mediaType == mediaType
  }

  predicate SameKey(a: Entry, b: Entry) {
    Matches(a, b.id, b.mediaType)
  }

  predicate HasMatch(s: seq<Entry>, id: Value, mediaType: Value) {
    exists i :: 0 <= i < |s| && Matches(s[i], id, mediaType)
  }

  /** The store's invariant: no two records share `(String(id), media_type)`. */
  predicate NoDuplicates(s: seq<Entry>) {
    forall i, j :: 0 <= i < j < |s| ==> !SameKey(s[i], s[j])
  }

  /** `existing.find(...)` with the store's comparison. */
  function Find(s: seq<Entry>, id: Value, mediaType: Value): Option<nat> {
    Seqs.FindIndex(s, (e: Entry) => Matches(e, id, mediaType))
  }

  /** `isInWatchLater(id, media_type)` on the list `s`. */
  function IsIn(s: seq<Entry>, id: Value, mediaType: Value): (b: bool)
    ensures b <==> Truthy(id) && Truthy(mediaType) && HasMatch(s, id, mediaType)
  {
    if !Truthy(id) || !Truthy(mediaType) then false
    else Find(s, id, mediaType).Some?
  }

  /** The record `addToWatchLater` pushes: the id is stored as `String(id)`. */
  function Normalised(id: Value, mediaType: Value): Entry {
    Entry(Str(ToStr(id)), mediaType)
  }

  /** `addToWatchLater(id, media_type)` on the list `s`: the list to persist,
      and whether anything was added (and so written). */
  function Add(s: seq<Entry>, id: Value, mediaType: Value): (r: (seq<Entry>, bool))
    ensures r.1 <==> Truthy(id) && Truthy(mediaType) && !HasMatch(s, id, mediaType)
    ensures r.1 ==> r.0 == s + [Normalised(id, mediaType)]
    ensures !r.1 ==> r.0 == s
  {
    if !Truthy(id) || !Truthy(mediaType) then (s, false)
    else if Find(s, id, mediaType).Some? then (s, false)
    else (s + [Normalised(id, mediaType)], true)
  }

  /** `removeFromWatchLater(id, media_type)` on the list `s`. */
  function Remove(s: seq<Entry>, id: Value, mediaType: Value): seq<Entry> {
    Seqs.Filter(s, (e: Entry) => !Matches(e, id, mediaType))
  }

  lemma NormalisedMatches(id: Value, mediaType: Value)
    ensures Matches(Normalised(id, mediaType), id, mediaType)
  {
  }

  /** After `add(id, t)` with truthy arguments, `isInWatchLater(id, t)` holds,
      whether the pair was new or already there. */
  lemma AddThenIsIn(s: seq<Entry>, id: Value, mediaType: Value)
    requires Truthy(id) && Truthy(mediaType)
    ensures IsIn(Add(s, id, mediaType).0, id, mediaType)
  {
    var r := Add(s, id, mediaType);
    if r.1 {
      assert Matches(r.0[|s|], id, mediaType);
    }
  }

  /** `add(x); add(x)` leaves the list as the first call left it, and the
      second call reports false. */
  lemma AddTwice(s: seq<Entry>, id: Value, mediaType: Value)
    ensures Add(Add(s, id, mediaType).0, id, mediaType) == (Add(s, id, mediaType).0, false)
  {
    if Truthy(id) && Truthy(mediaType) {
      AddThenIsIn(s, id, mediaType);
    }
  }

  lemma AddPreservesNoDuplicates(s: seq<Entry>, id: Value, mediaType: Value)
    requires NoDuplicates(s)
    ensures NoDuplicates(Add(s, id, mediaType).0)
  {
    var r := Add(s, id, mediaType);
    if r.1 {
      var x := Normalised(id, mediaType);
      forall i, j | 0 <= i < j < |r.0| ensures !SameKey(r.0[i], r.0[j]) {
        if j == |s| {
          assert r.0[j] == x;
          assert !Matches(s[i], id, mediaType);
        } else {
          assert r.0[i] == s[i] && r.0[j] == s[j];
        }
      }
    }
  }

  /** A record survives a removal exactly when it does not match the pair. */
  lemma RemoveMembership(s: seq<Entry>, id: Value, mediaType: Value, e: Entry)
    ensures e in Remove(s, id, mediaType) <==> e in s && !Matches(e, id, mediaType)
  {
    Seqs.FilterMembership(s, (e: Entry) => !Matches(e, id, mediaType), e);
  }

  /** After `remove(id, t)` no record matches, so `isInWatchLater(id, t)` is false. */
  lemma RemoveThenNotIn(s: seq<Entry>, id: Value, mediaType: Value)
    ensures !HasMatch(Remove(s, id, mediaType), id, mediaType)
    ensures !IsIn(Remove(s, id, mediaType), id, mediaType)
  {
    var r := Remove(s, id, mediaType);
    forall i | 0 <= i < |r| ensures !Matches(r[i], id, mediaType) {
      RemoveMembership(s, id, mediaType, r[i]);
    }
  }

  /** Removing a pair that is not there leaves the contents unchanged. */
  lemma RemoveAbsent(s: seq<Entry>, id: Value, mediaType: Value)
    requires !HasMatch(s, id, mediaType)
    ensures Remove(s, id, mediaType) == s
  {
    Seqs.FilterKeepsAll(s, (e: Entry) => !Matches(e, id, mediaType));
  }

  /** The records that do not match keep their order: removal commutes with
      concatenation. */
  lemma RemoveAppend(a: seq<Entry>, b: seq<Entry>, id: Value, mediaType: Value)
    ensures Remove(a + b, id, mediaType) == Remove(a, id, mediaType) + Remove(b, id, mediaType)
  {
    Seqs.FilterAppend(a, b, (e: Entry) => !Matches(e, id, mediaType));
  }

  /** A successful add followed by a remove of the same pair restores the list. */
  lemma RemoveUndoesAdd(s: seq<Entry>, id: Value, mediaType: Value)
    requires Add(s, id, mediaType).1
    ensures Remove(Add(s, id, mediaType).0, id, mediaType) == s
  {
    RemoveAppend(s, [Normalised(id, mediaType)], id, mediaType);
    RemoveAbsent(s, id, mediaType);
  }

  lemma RemovePreservesNoDuplicates(s: seq<Entry>, id: Value, mediaType: Value)
    requires NoDuplicates(s)
    ensures NoDuplicates(Remove(s, id, mediaType))
  {
    Seqs.FilterPairwise(s, (e: Entry) => !Matches(e, id, mediaType), (a: Entry, b: Entry) => !SameKey(a, b));
  }

  /** Two ids with the same `String` form are the same key to the store:
      they find, add and remove the same records. */
  lemma SameTextSameKey(s: seq<Entry>, id1: Value, id2: Value, mediaType: Value)
    requires ToStr(id1) == ToStr(id2) && Truthy(id1) == Truthy(id2)
    ensures IsIn(s, id1, mediaType) == IsIn(s, id2, mediaType)
    ensures Add(s, id1, mediaType) == Add(s, id2, mediaType)
    ensures Remove(s, id1, mediaType) == Remove(s, id2, mediaType)
  {
    assert HasMatch(s, id1, mediaType) == HasMatch(s, id2, mediaType) by {
      assert forall i :: 0 <= i < |s| ==> (Matches(s[i], id1, mediaType) <==> Matches(s[i], id2, mediaType));
    }
    assert Normalised(id1, mediaType) == Normalised(id2, mediaType);
    Seqs.FilterSameTest(s, (e: Entry) => !Matches(e, id1, mediaType), (e: Entry) => !Matches(e, id2, mediaType));
  }

  /** A numeric id and its decimal text name the same record: a movie added
      as `603` is found, re-added and removed as `"603"`, and back. */
  lemma NumericIdIsItsText(s: seq<Entry>, n: nat, mediaType: Value, e: Entry)
    ensures Matches(e, Num(n), mediaType) <==> Matches(e, Str(NatToString(n)), mediaType)
    ensures Remove(s, Num(n), mediaType) == Remove(s, Str(NatToString(n)), mediaType)
    ensures n > 0 ==> IsIn(s, Num(n), mediaType) == IsIn(s, Str(NatToString(n)), mediaType)
    ensures n > 0 ==> Add(s, Num(n), mediaType) == Add(s, Str(NatToString(n)), mediaType)
  {
    assert ToStr(Num(n)) == NatToString(n);
    assert forall i :: 0 <= i < |s| ==> (Matches(s[i], Num(n), mediaType) <==> Matches(s[i], Str(NatToString(n)), mediaType));
    Seqs.FilterSameTest(s, (e: Entry) => !Matches(e, Num(n), mediaType),
      (e: Entry) => !Matches(e, Str(NatToString(n)), mediaType));
    if n > 0 {
      SameTextSameKey(s, Num(n), Str(NatToString(n)), mediaType);
    }
  }

  /** The operations a client can run on its list. */
  datatype Op = AddOp(id: Value, mediaType: Value) | RemoveOp(id: Value, mediaType: Value) | ClearOp

  function Apply(s: seq<Entry>, op: Op): seq<Entry> {
    match op
    case AddOp(id, t) => Add(s, id, t).0
    case RemoveOp(id, t) => Remove(s, id, t)
    case ClearOp => []
  }

  function ApplyAll(s: seq<Entry>, ops: seq<Op>): seq<Entry>
    decreases |ops|
  {
    if ops == [] then s else ApplyAll(Apply(s, ops[0]), ops[1..])
  }

  /** Any sequence of adds, removes and clears keeps the list free of
      duplicate pairs. */
  lemma {:induction false} ApplyAllPreservesNoDuplicates(s: seq<Entry>, ops: seq<Op>)
    requires NoDuplicates(s)
    ensures NoDuplicates(ApplyAll(s, ops))
    decreases |ops|
  {
    if ops != [] {
      match ops[0] {
        case AddOp(id, t) => AddPreservesNoDuplicates(s, id, t);
        case RemoveOp(id, t) => RemovePreservesNoDuplicates(s, id, t);
        case ClearOp =>
      }
      ApplyAllPreservesNoDuplicates(Apply(s, ops[0]), ops[1..]);
    }
  }

  /** Every stored id is a string: both web writers store strings. */
  predicate StringIds(s: seq<Entry>) {
    forall i :: 0 <= i < |s| ==> s[i].id.Str?
  }

  /** The comparison of the inline `addLater` on the watch-later page:
      `item.id === id && item.media_type === media_type`. */
  predicate StrictMatches(e: Entry, id: Value, mediaType: Value) {
    e.id == id && e.mediaType == mediaType
  }

  /** The page's inline `addLater` on the list `s`: the id is pushed as
      given; the flag says whether the list was written back. */
  function PageAdd(s: seq<Entry>, id: Value, mediaType: Value): (seq<Entry>, bool) {
    if !Truthy(id) || !Truthy(mediaType) then (s, false)
    else if Seqs.FindIndex(s, (e: Entry) => StrictMatches(e, id, mediaType)).Some? then (s, false)
    else (s + [Entry(id, mediaType)], true)
  }

  /** On lists whose ids are strings, and for the string id that the page
      reads from its query, the page's inline copy does exactly what
      `addToWatchLater` does. */
  lemma PageAddAgreesWithAdd(s: seq<Entry>, id: string, mediaType: Value)
    requires StringIds(s)
    ensures PageAdd(s, Str(id), mediaType) == Add(s, Str(id), mediaType)
  {
    assert forall i :: 0 <= i < |s| ==>
      (StrictMatches(s[i], Str(id), mediaType) <==> Matches(s[i], Str(id), mediaType));
  }

  lemma AddPreservesStringIds(s: seq<Entry>, id: Value, mediaType: Value)
    requires StringIds(s)
    ensures StringIds(Add(s, id, mediaType).0)
  {
  }

  lemma RemovePreservesStringIds(s: seq<Entry>, id: Value, mediaType: Value)
    requires StringIds(s)
    ensures StringIds(Remove(s, id, mediaType))
  {
    var r := Remove(s, id, mediaType);
    forall i | 0 <= i < |r| ensures r[i].id.Str? {
      RemoveMembership(s, id, mediaType, r[i]);
    }
  }
}
