/** `LikeButton`: the heart toggle that keeps the liked listings in local storage.
    Storage is the list it holds; the change event is counted. */
module Favorites {
  import opened Sequences
  import opened JsValues
  import opened Normalizer

  /** The stored liked list, the button's `isLiked` state, and how many
      `likedHousesChanged` events have been dispatched. */
  datatype LikeState = LikeState(stored: seq<Property>, isLiked: bool, events: nat)

  /** `house.id === id`. */
  predicate SameId(house: Property, id: Json) {
    StrictEq(house.id, id)
  }

  /** `stored.some(house => house.id === id)`. */
  function AnyHasId(stored: seq<Property>, id: Json): (r: bool)
    ensures r <==> exists i :: 0 <= i < |stored| && SameId(stored[i], id)
  {
    if stored == [] then false
    else if SameId(stored[0], id) then true
    else
      var rest := AnyHasId(stored[1..], id);
      assert forall i :: 1 <= i < |stored| ==> stored[i] == stored[1..][i - 1];
      rest
  }

  /** The state the button starts in: liked when the stored list holds its listing's id. */
  function Mount(stored: seq<Property>, property: Property): (s: LikeState)
    ensures s.isLiked <==> exists i :: 0 <= i < |stored| && SameId(stored[i], property.id)
    ensures s.stored == stored && s.events == 0
  {
    LikeState(stored, AnyHasId(stored, property.id), 0)
  }

  /** `stored.filter(house => house.id !== id)`. */
  function WithoutId(stored: seq<Property>, id: Json): (r: seq<Property>)
    ensures IsSubseq(r, stored)
    ensures forall h :: h in r <==> h in stored && !SameId(h, id)
    ensures forall h :: multiset(r)[h] == if SameId(h, id) then 0 else multiset(stored)[h]
  {
    Filter(stored, h => !SameId(h, id))
  }

  /** `toggleLike`: a liked button removes every entry with its id and becomes unliked; an
      unliked one appends its listing and becomes liked unless the id is already stored, in
      which case nothing changes. Every click dispatches the change event. */
  function ToggleLike(s: LikeState, property: Property): (t: LikeState)
    ensures t.events == s.events + 1
    ensures s.isLiked ==> !t.isLiked && t.stored == WithoutId(s.stored, property.id)
    ensures !s.isLiked && !AnyHasId(s.stored, property.id) ==> t.isLiked && t.stored == s.stored + [property]
    ensures !s.isLiked && AnyHasId(s.stored, property.id) ==> !t.isLiked && t.stored == s.stored
  {
    if s.isLiked then
      LikeState(WithoutId(s.stored, property.id), false, s.events + 1)
    else if !AnyHasId(s.stored, property.id) then
      LikeState(s.stored + [property], true, s.events + 1)
    else
      LikeState(s.stored, false, s.events + 1)
  }

  /** No two stored entries share an id. */
  predicate UniqueIds(stored: seq<Property>) {
    forall i, j :: 0 <= i < j < |stored| ==> !SameId(stored[i], stored[j].id)
  }

  /** A removal keeps a list without repeated ids free of them. */
  lemma {:induction false} WithoutIdUnique(stored: seq<Property>, id: Json)
    requires UniqueIds(stored)
    ensures UniqueIds(WithoutId(stored, id))
  {
    if stored != [] {
      var rest := stored[1..];
      assert UniqueIds(rest) by {
        forall i, j | 0 <= i < j < |rest|
          ensures !SameId(rest[i], rest[j].id)
        {
          assert rest[i] == stored[i + 1] && rest[j] == stored[j + 1];
        }
      }
      WithoutIdUnique(rest, id);
      var tail := WithoutId(rest, id);
      assert forall h :: h in tail ==> !SameId(h, stored[0].id) by {
        forall h | h in tail
          ensures !SameId(h, stored[0].id)
        {
          var j :| 0 <= j < |rest| && rest[j] == h;
          assert stored[j + 1] == h;
        }
      }
      WithoutIdStep(stored, id);
      if !SameId(stored[0], id) {
        UniqueCons(stored[0], tail);
      }
    }
  }

  /** One step of the removal: the first entry goes unless it has the id. */
  lemma WithoutIdStep(stored: seq<Property>, id: Json)
    requires stored != []
    ensures WithoutId(stored, id)
            == (if SameId(stored[0], id) then [] else [stored[0]]) + WithoutId(stored[1..], id)
  {
  }

  /** Putting a listing whose id no entry shares in front of a list without repeated ids
      keeps it free of them. */
  lemma UniqueCons(x: Property, tail: seq<Property>)
    requires UniqueIds(tail) && forall h :: h in tail ==> !SameId(h, x.id)
    ensures UniqueIds([x] + tail)
  {
    var t := [x] + tail;
    forall i, j | 0 <= i < j < |t|
      ensures !SameId(t[i], t[j].id)
    {
      if i > 0 {
        assert t[i] == tail[i - 1] && t[j] == tail[j - 1];
      } else {
        assert t[j] in tail;
      }
    }
  }

  /** A toggle keeps the stored ids free of repeats. */
  lemma ToggleKeepsIdsUnique(s: LikeState, property: Property)
    requires UniqueIds(s.stored)
    ensures UniqueIds(ToggleLike(s, property).stored)
  {
    if s.isLiked {
      WithoutIdUnique(s.stored, property.id);
    } else if !AnyHasId(s.stored, property.id) {
      var t := s.stored + [property];
      forall i, j | 0 <= i < j < |t|
        ensures !SameId(t[i], t[j].id)
      {
        if j == |t| - 1 {
          assert !SameId(s.stored[i], property.id);
        }
      }
    }
  }

  /** The button shows liked exactly when its listing's id is stored. */
  predicate Consistent(s: LikeState, property: Property) {
    s.isLiked == AnyHasId(s.stored, property.id)
  }

  /** For a listing with a primitive id (an object id never equals a parsed copy), a toggle
      keeps the button consistent with storage. */
  lemma ToggleKeepsConsistent(s: LikeState, property: Property)
    requires IsPrimitive(property.id)
    requires Consistent(s, property)
    ensures Consistent(ToggleLike(s, property), property)
  {
    var t := ToggleLike(s, property);
    if !s.isLiked {
      assert t.stored[|t.stored| - 1] == property;
    }
  }

  /** Liking and then unliking a listing whose primitive id is not stored gives back the
      stored list exactly, after two change events. */
  lemma DoubleToggleRestores(s: LikeState, property: Property)
    requires IsPrimitive(property.id)
    requires !s.isLiked && !AnyHasId(s.stored, property.id)
    ensures ToggleLike(ToggleLike(s, property), property).stored == s.stored
    ensures !ToggleLike(ToggleLike(s, property), property).isLiked
    ensures ToggleLike(ToggleLike(s, property), property).events == s.events + 2
  {
    var p := (h: Property) => !SameId(h, property.id);
    FilterAppend(s.stored, [property], p);
    FilterAllPass(s.stored, p);
    assert Filter([property], p) == [];
  }
}
