/** The user's favourite event ids and the overlay that stamps `isFavorite`
    on events (Services/FavoritesManager.swift). Persistence goes through the
    user's profile store, which is outside this model: its outcome is an input. */
module Favorites {
  import opened Basics
  import opened Seqs
  import Events
  import Users

  /** `favoriteEvents.filter { $0 != id }` */
  function Without(favs: seq<string>, id: string): (r: seq<string>)
    ensures id !in r
    ensures forall x :: x in r <==> x in favs && x != id
    ensures forall x :: multiset(r)[x] == if x == id then 0 else multiset(favs)[x]
    ensures IsSubsequence(r, favs)
  {
    FilterIsSubsequence(favs, x => x != id);
    Filter(favs, x => x != id)
  }

  /** The list `toggleFavorite` asks to persist: every occurrence of `id`
      removed when it is present, otherwise `id` appended. */
  function Toggled(favs: seq<string>, id: string): (r: seq<string>)
    ensures id in favs ==> id !in r && IsSubsequence(r, favs)
    ensures id !in favs ==> r == favs + [id]
    ensures forall x :: x != id ==> (x in r <==> x in favs)
    ensures forall x :: x != id ==> multiset(r)[x] == multiset(favs)[x]
  {
    if id in favs then Without(favs, id) else favs + [id]
  }

  /** No id occurs twice. */
  predicate NoDuplicates(favs: seq<string>) {
    forall i, j :: 0 <= i < j < |favs| ==> favs[i] != favs[j]
  }

  lemma {:induction false} FilterKeepsNoDuplicates(favs: seq<string>, p: string -> bool)
    requires NoDuplicates(favs)
    ensures NoDuplicates(Filter(favs, p))
  {
    if favs != [] {
      var rest := favs[1..];
      assert NoDuplicates(rest) by {
        forall i, j | 0 <= i < j < |rest| ensures rest[i] != rest[j] {
          assert rest[i] == favs[i + 1] && rest[j] == favs[j + 1];
        }
      }
      FilterKeepsNoDuplicates(rest, p);
      if p(favs[0]) {
        var tail := Filter(rest, p);
        assert favs[0] !in rest;
        assert favs[0] !in tail;
        ConsKeepsNoDuplicates(favs[0], tail);
      }
    }
  }

  lemma ConsKeepsNoDuplicates(x: string, tail: seq<string>)
    requires NoDuplicates(tail) && x !in tail
    ensures NoDuplicates([x] + tail)
  {
    var r := [x] + tail;
    forall i, j | 0 <= i < j < |r| ensures r[i] != r[j] {
      if i == 0 {
        assert r[j] == tail[j - 1];
      } else {
        assert r[i] == tail[i - 1] && r[j] == tail[j - 1];
      }
    }
  }

  /** A toggle never introduces a duplicate id. */
  lemma ToggledKeepsNoDuplicates(favs: seq<string>, id: string)
    requires NoDuplicates(favs)
    ensures NoDuplicates(Toggled(favs, id))
  {
    if id in favs {
      FilterKeepsNoDuplicates(favs, x => x != id);
    } else {
      var r := favs + [id];
      forall i, j | 0 <= i < j < |r| ensures r[i] != r[j] {
        if j == |favs| {
          assert r[i] == favs[i];
        } else {
          assert r[i] == favs[i] && r[j] == favs[j];
        }
      }
    }
  }

  /** Removing an id that is absent leaves the list as it was. */
  lemma WithoutAbsent(favs: seq<string>, id: string)
    requires id !in favs
    ensures Without(favs, id) == favs
  {
    FilterAllKept(favs, x => x != id);
  }

  /** Toggling an absent id twice gives back the original list. */
  lemma ToggleTwiceRestores(favs: seq<string>, id: string)
    requires id !in favs
    ensures Toggled(Toggled(favs, id), id) == favs
  {
    var once := favs + [id];
    assert Toggled(favs, id) == once;
    assert id in once;
    FilterAppend(favs, [id], x => x != id);
    assert Filter([id], x => x != id) == [];
    WithoutAbsent(favs, id);
  }

  /** Removing an id keeps every other id, in its original order. */
  lemma WithoutKeepsOrder(favs: seq<string>, id: string, tail: seq<string>)
    requires id !in tail
    ensures Without(favs + tail, id) == Without(favs, id) + tail
  {
    FilterAppend(favs, tail, x => x != id);
    WithoutAbsent(tail, id);
  }

  /** The favourite flag an event gets from the list `favs`. */
  function WithFavoriteStatus(events: seq<Events.Event>, favs: seq<string>): (r: seq<Events.Event>)
    ensures |r| == |events|
    ensures forall i :: 0 <= i < |r| ==> r[i].id == events[i].id
    ensures forall i :: 0 <= i < |r| ==> r[i].isFavorite == (events[i].id in favs)
    ensures forall i :: 0 <= i < |r| ==> r[i].(isFavorite := events[i].isFavorite) == events[i]
  {
    seq(|events|, i requires 0 <= i < |events| => events[i].(isFavorite := events[i].id in favs))
  }

  /** Overlaying twice with the same list is overlaying once. */
  lemma OverlayIdempotent(events: seq<Events.Event>, favs: seq<string>)
    ensures WithFavoriteStatus(WithFavoriteStatus(events, favs), favs) == WithFavoriteStatus(events, favs)
  {
  }

  /** The overlay ignores the flag events arrive with. */
  lemma OverlayIgnoresIncomingFlag(events: seq<Events.Event>, other: seq<Events.Event>, favs: seq<string>)
    requires |events| == |other|
    requires forall i :: 0 <= i < |events| ==> events[i].(isFavorite := false) == other[i].(isFavorite := false)
    ensures WithFavoriteStatus(events, favs) == WithFavoriteStatus(other, favs)
  {
    var a, b := WithFavoriteStatus(events, favs), WithFavoriteStatus(other, favs);
    forall i | 0 <= i < |a| ensures a[i] == b[i] {
      assert events[i].id == events[i].(isFavorite := false).id == other[i].id;
    }
  }

  /** Overlaying distributes over appending pages. */
  lemma OverlayAppend(a: seq<Events.Event>, b: seq<Events.Event>, favs: seq<string>)
    ensures WithFavoriteStatus(a + b, favs) == WithFavoriteStatus(a, favs) + WithFavoriteStatus(b, favs)
  {
    var l, r := WithFavoriteStatus(a + b, favs), WithFavoriteStatus(a, favs) + WithFavoriteStatus(b, favs);
    forall i | 0 <= i < |l| ensures l[i] == r[i] {
      if i < |a| { assert (a + b)[i] == a[i]; } else { assert (a + b)[i] == b[i - |a|]; }
    }
  }

  class FavoritesManager {
    var favoriteEvents: seq<string>

    /** Starts from the signed-in user's stored favourites, or none. */
    constructor (user: Option<Users.User>)
      ensures user.Some? ==> favoriteEvents == user.value.favorites
      ensures user.None? ==> favoriteEvents == []
    {
      favoriteEvents := if user.Some? then user.value.favorites else [];
    }

    /** The observer of the signed-in user: every change of user reloads
        the list from that user's stored favourites, or empties it. */
    method ReloadFromUser(user: Option<Users.User>)
      modifies this
      ensures user.Some? ==> favoriteEvents == user.value.favorites
      ensures user.None? ==> favoriteEvents == []
    {
      favoriteEvents := if user.Some? then user.value.favorites else [];
    }

    /** `toggleFavorite(for:)` up to its `await`: the list to hand to the
        store, computed from the list as it is when the toggle starts. */
    method BeginToggle(event: Events.Event) returns (requested: seq<string>)
      ensures event.id in favoriteEvents ==> event.id !in requested
      ensures event.id !in favoriteEvents ==> requested == favoriteEvents + [event.id]
      ensures forall x :: x != event.id ==> multiset(requested)[x] == multiset(favoriteEvents)[x]
      ensures requested == Toggled(favoriteEvents, event.id)
    {
      requested := Toggled(favoriteEvents, event.id);
    }

    /** `toggleFavorite(for:)` after its `await`: when the store accepted the
        list it replaces the current one, whatever that is by now; otherwise
        nothing changes. */
    method CompleteToggle(requested: seq<string>, persisted: bool)
      modifies this
      ensures persisted ==> favoriteEvents == requested
      ensures !persisted ==> favoriteEvents == old(favoriteEvents)
    {
      if persisted {
        favoriteEvents := requested;
      }
    }

    /** `isFavorite(_:)` */
    function IsFavorite(eventId: string): (r: bool)
      reads this
      ensures r <==> exists i :: 0 <= i < |favoriteEvents| && favoriteEvents[i] == eventId
    {
      eventId in favoriteEvents
    }

    /** `updateEventsWithFavoriteStatus(_:)` */
    function UpdateEventsWithFavoriteStatus(events: seq<Events.Event>): (r: seq<Events.Event>)
      reads this
      ensures |r| == |events|
      ensures forall i :: 0 <= i < |r| ==> r[i].isFavorite == IsFavorite(events[i].id)
      ensures forall i :: 0 <= i < |r| ==> r[i].(isFavorite := events[i].isFavorite) == events[i]
    {
      WithFavoriteStatus(events, favoriteEvents)
    }
  }
}
