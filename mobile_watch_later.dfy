/** The mobile side of the watch-later list: the `AsyncStorage` key
    `watchLater` and the mobile client's watch-later utility, which has the
    web utility's four operations and `clearWatchLater`. Awaiting each
    storage call makes every operation one read-compute-write step here. */
module MobileWatchLater {
  import opened Js
  import opened Options
  import opened WatchLater

  class AsyncWatchLater {
    /** The key's contents; `None` while the key is absent. */
    var stored: Option<seq<Entry>>

    ghost predicate Valid()
      reads this
    {
      NoDuplicates(List())
    }

    constructor ()
      ensures stored == None && Valid()
    {
      stored := None;
    }

    /** `getWatchLaterList()`: a missing key yields the empty list. */
    function List(): (r: seq<Entry>)
      reads this
      ensures stored.None? ==> r == []
      ensures stored.Some? ==> r == stored.value
    {
      stored.GetOr([])
    }

    /** `isInWatchLater(id, media_type)`: reads only. */
    function IsInWatchLater(id: Value, mediaType: Value): (b: bool)
      reads this
      ensures b <==> Truthy(id) && Truthy(mediaType) && HasMatch(List(), id, mediaType)
    {
      IsIn(List(), id, mediaType)
    }

    /** `addToWatchLater(id, media_type)` */
    method AddToWatchLater(id: Value, mediaType: Value) returns (added: bool)
      modifies this
      ensures added <==> Truthy(id) && Truthy(mediaType) && !HasMatch(old(List()), id, mediaType)
      ensures added ==> stored == Some(old(List()) + [Normalised(id, mediaType)])
      ensures !added ==> stored == old(stored)
      ensures old(Valid()) ==> Valid()
    {
      if !Truthy(id) || !Truthy(mediaType) {
        return false;
      }
      var existing := List();
      if Find(existing, id, mediaType).Some? {
        return false;
      }
      if Valid() {
        AddPreservesNoDuplicates(existing, id, mediaType);
      }
      existing := existing + [Normalised(id, mediaType)];
      stored := Some(existing);
      added := true;
    }

    /** `removeFromWatchLater(id, media_type)`: always writes the filtered list. */
    method RemoveFromWatchLater(id: Value, mediaType: Value)
      modifies this
      ensures stored == Some(Remove(old(List()), id, mediaType))
      ensures old(Valid()) ==> Valid()
    {
      var existing := List();
      if Valid() {
        RemovePreservesNoDuplicates(existing, id, mediaType);
      }
      stored := Some(Remove(existing, id, mediaType));
    }

    /** `clearWatchLater()`: removes the key, so the list reads as empty. */
    method ClearWatchLater()
      modifies this
      ensures stored == None && List() == []
      ensures Valid()
    {
      stored := None;
    }
  }
}
