/** The browser side of the watch-later list: the `localStorage` key
    `watchLater` and the four exported functions of the web client's
    watch-later utility, which read the key, compute, and write it back. */
module WebWatchLater {
  import opened Js
  import opened Options
  import opened WatchLater

  class LocalWatchLater {
    /** The key's contents; `None` while the key has never been written. */
    var stored: Option<seq<Entry>>

    /** Both web writers (this utility and the watch-later page) store string
        ids and never a second record with the same pair. */
    ghost predicate Valid()
      reads this
    {
      NoDuplicates(List()) && StringIds(List())
    }

    constructor ()
      ensures stored == None && Valid()
    {
      stored := None;
    }

    /** `getWatchLaterList()`: an absent key reads as the empty list. */
    function List(): (r: seq<Entry>)
      reads this
      ensures stored.None? ==> r == []
      ensures stored.Some? ==> r == stored.value
    {
      stored.GetOr([])
    }

    /** `isInWatchLater(id, media_type)`: reads the key and changes nothing. */
    function IsInWatchLater(id: Value, mediaType: Value): (b: bool)
      reads this
      ensures b <==> Truthy(id) && Truthy(mediaType) && HasMatch(List(), id, mediaType)
    {
      IsIn(List(), id, mediaType)
    }

    /** `addToWatchLater(id, media_type)` */
    method AddToWatchLater(id: Value, mediaType: Value) returns (added: bool)
      modifies this
      ensures added <==> Truthy(id) && Truthy(mediaType) && !HasMatch(old(List()), id, mediaType)
      ensures added ==> stored == Some(old(List()) + [Normalised(id, mediaType)])
      ensures !added ==> stored == old(stored)
      ensures old(Valid()) ==> Valid()
    {
      if !Truthy(id) || !Truthy(mediaType) {
        return false;
      }
      var existing := List();
      if Find(existing, id, mediaType).Some? {
        return false;
      }
      if Valid() {
        AddPreservesNoDuplicates(existing, id, mediaType);
      }
      existing := existing + [Normalised(id, mediaType)];
      stored := Some(existing);
      added := true;
    }

    /** `removeFromWatchLater(id, media_type)`: always writes the filtered list. */
    method RemoveFromWatchLater(id: Value, mediaType: Value)
      modifies this
      ensures stored == Some(Remove(old(List()), id, mediaType))
      ensures old(Valid()) ==> Valid()
    {
      var existing := List();
      if Valid() {
        RemovePreservesNoDuplicates(existing, id, mediaType);
        RemovePreservesStringIds(existing, id, mediaType);
      }
      stored := Some(Remove(existing, id, mediaType));
    }
  }
}
