/**
 * What the registration loops of BuildFromSpec write. Every room, obstacle,
 * listed entity and robot becomes a Placement: an id, the room whose
 * current position it is placed relative to (none for rooms, which are
 * placed absolutely), an offset and the flags it is created with. A loop
 * writes its placements in order; the first room reference that is not in
 * the registry, or whose object has been destroyed, throws in the C#, so
 * the fold stops there with `ok` false and keeps what was written before.
 */
module Ingest {
  import opened Options
  import opened Geometry
  import opened Registry

  datatype Placement = Placement(id: string, room: Option<string>, offset: Vec3, active: bool, fire: bool)

  /** The registry, the entity-to-room map, and whether every lookup so far succeeded. */
  datatype Staged = Staged(objects: map<string, Entity>, rooms: map<string, string>, ok: bool)

  /** One iteration: look the room up, write the entity (and its room), or fail. */
  function PlaceStep(s: Staged, p: Placement): Staged
  {
    if !s.ok then s
    else if p.room.None? then s.(objects := s.objects[p.id := Fresh(p.offset, p.active, p.fire)])
    else if p.room.value !in s.objects || !s.objects[p.room.value].live then s.(ok := false)
    else Staged(s.objects[p.id := Fresh(Add(s.objects[p.room.value].pos, p.offset), p.active, p.fire)],
                s.rooms[p.id := p.room.value], true)
  }

  /** A whole loop, iteration by iteration. */
  function PlaceAll(s: Staged, ps: seq<Placement>): Staged
    decreases |ps|
  {
    if ps == [] then s else PlaceStep(PlaceAll(s, ps[..|ps| - 1]), ps[|ps| - 1])
  }

  function Ids(ps: seq<Placement>): set<string>
  {
    set i | 0 <= i < |ps| :: ps[i].id
  }

  /** Every room lookup finds either a live id known beforehand or one written earlier in the same loop. */
  predicate Resolves(known: set<string>, ps: seq<Placement>)
  {
    forall i :: 0 <= i < |ps| && ps[i].room.Some? ==> ps[i].room.value in known || ps[i].room.value in Ids(ps[..i])
  }

  /** Every placement's room is among known. */
  predicate RoomsIn(ps: seq<Placement>, known: set<string>)
  {
    forall i :: 0 <= i < |ps| && ps[i].room.Some? ==> ps[i].room.value in known
  }

  lemma RoomsInAppend(a: seq<Placement>, b: seq<Placement>, known: set<string>)
    requires RoomsIn(a, known) && RoomsIn(b, known)
    ensures RoomsIn(a + b, known)
  {
    forall i | 0 <= i < |a + b| && (a + b)[i].room.Some?
      ensures (a + b)[i].room.value in known
    {
      if i >= |a| {
        assert (a + b)[i] == b[i - |a|];
      }
    }
  }

  /** Placement i is the last one written under its id. */
  predicate LastOf(ps: seq<Placement>, i: int)
    requires 0 <= i < |ps|
  {
    forall j :: i < j < |ps| ==> ps[j].id != ps[i].id
  }

  lemma IdsSnoc(ps: seq<Placement>, n: int)
    requires 0 <= n < |ps|
    ensures Ids(ps[..n + 1]) == Ids(ps[..n]) + {ps[n].id}
  {
    var a, b := ps[..n + 1], ps[..n];
    forall x | x in Ids(a)
      ensures x in Ids(b) + {ps[n].id}
    {
      var i :| 0 <= i < |a| && a[i].id == x;
      if i < n {
        assert b[i].id == x;
      }
    }
    forall x | x in Ids(b) + {ps[n].id}
      ensures x in Ids(a)
    {
      if x == ps[n].id {
        assert a[n].id == x;
      } else {
        var i :| 0 <= i < |b| && b[i].id == x;
        assert a[i].id == x;
      }
    }
  }

  /** One iteration destroys nothing, and a successful one leaves its id live. */
  lemma PlaceStepLive(s: Staged, p: Placement)
    ensures LiveIds(s.objects) <= LiveIds(PlaceStep(s, p).objects)
    ensures PlaceStep(s, p).ok ==> LiveIds(PlaceStep(s, p).objects) == LiveIds(s.objects) + {p.id}
  {
  }

  /** A loop destroys nothing, and a completed loop leaves exactly its placements' ids newly live. */
  lemma {:induction false} PlaceAllLive(s: Staged, ps: seq<Placement>)
    ensures LiveIds(s.objects) <= LiveIds(PlaceAll(s, ps).objects)
    ensures PlaceAll(s, ps).ok ==> LiveIds(PlaceAll(s, ps).objects) == LiveIds(s.objects) + Ids(ps)
    decreases |ps|
  {
    if ps != [] {
      var n := |ps| - 1;
      assert ps[..n + 1] == ps;
      PlaceAllLive(s, ps[..n]);
      PlaceAllKeys(s, ps[..n]);
      PlaceStepLive(PlaceAll(s, ps[..n]), ps[n]);
      IdsSnoc(ps, n);
    }
  }

  /**
   * A loop only adds ids; once it has failed nothing is written any more;
   * and a loop that finished has added exactly its placements' ids.
   */
  lemma {:induction false} PlaceAllKeys(s: Staged, ps: seq<Placement>)
    ensures s.objects.Keys <= PlaceAll(s, ps).objects.Keys <= s.objects.Keys + Ids(ps)
    ensures PlaceAll(s, ps).ok ==> s.ok && PlaceAll(s, ps).objects.Keys == s.objects.Keys + Ids(ps)
    ensures !s.ok ==> PlaceAll(s, ps) == s
    decreases |ps|
  {
    if ps != [] {
      var n := |ps| - 1;
      assert ps[..n + 1] == ps;
      PlaceAllKeys(s, ps[..n]);
      IdsSnoc(ps, n);
    }
  }

  /** Running two loops one after the other is running their concatenation. */
  lemma {:induction false} PlaceAllAppend(s: Staged, a: seq<Placement>, b: seq<Placement>)
    ensures PlaceAll(s, a + b) == PlaceAll(PlaceAll(s, a), b)
    decreases |b|
  {
    if b == [] {
      assert a + b == a;
    } else {
      var n := |b| - 1;
      assert (a + b)[..|a + b| - 1] == a + b[..n];
      PlaceAllAppend(s, a, b[..n]);
    }
  }

  /** Once a loop has failed, the later iterations change nothing. */
  lemma {:induction false} PlaceAllStuck(s: Staged, ps: seq<Placement>, n: int)
    requires 0 <= n <= |ps| && !PlaceAll(s, ps[..n]).ok
    ensures PlaceAll(s, ps) == PlaceAll(s, ps[..n])
    decreases |ps|
  {
    if n < |ps| {
      var m := |ps| - 1;
      assert ps[..m][..n] == ps[..n];
      PlaceAllStuck(s, ps[..m], n);
    } else {
      assert ps[..n] == ps;
    }
  }

  /** A loop completes exactly when every room lookup resolves. */
  lemma {:induction false} PlaceAllOk(s: Staged, ps: seq<Placement>)
    requires s.ok
    ensures PlaceAll(s, ps).ok <==> Resolves(LiveIds(s.objects), ps)
    decreases |ps|
  {
    if ps != [] {
      var n := |ps| - 1;
      var init := ps[..n];
      PlaceAllOk(s, init);
      PlaceAllKeys(s, init);
      PlaceAllLive(s, init);
      assert forall i :: 0 <= i < n ==> ps[i] == init[i] && ps[..i] == init[..i];
      assert Resolves(LiveIds(s.objects), ps) <==>
        Resolves(LiveIds(s.objects), init)
        && (ps[n].room.Some? ==> ps[n].room.value in LiveIds(s.objects) || ps[n].room.value in Ids(init));
    }
  }

  /** A loop whose rooms are all registered, and not destroyed, beforehand completes. */
  lemma PlaceAllKnown(s: Staged, ps: seq<Placement>)
    ensures s.ok && RoomsIn(ps, LiveIds(s.objects)) ==> PlaceAll(s, ps).ok
  {
    PlaceAllKeys(s, ps);
    if s.ok {
      PlaceAllOk(s, ps);
    }
  }

  /** An id no placement writes keeps its registry entry and its room. */
  lemma {:induction false} PlaceAllElsewhere(s: Staged, ps: seq<Placement>, k: string)
    requires k !in Ids(ps)
    ensures k in PlaceAll(s, ps).objects <==> k in s.objects
    ensures k in s.objects ==> PlaceAll(s, ps).objects[k] == s.objects[k]
    ensures k in PlaceAll(s, ps).rooms <==> k in s.rooms
    ensures k in s.rooms ==> PlaceAll(s, ps).rooms[k] == s.rooms[k]
    decreases |ps|
  {
    if ps != [] {
      var n := |ps| - 1;
      IdsSnoc(ps, n);
      assert ps[..n + 1] == ps;
      PlaceAllElsewhere(s, ps[..n], k);
    }
  }

  /**
   * After a completed loop, the entry under the last placement for an id
   * carries that placement's flags, is undestroyed and unparented, is mapped
   * to its room, and sits at the offset from where the room was before the
   * loop, unless the loop itself overwrote the room's entry.
   */
  lemma {:induction false} PlaceAllLast(s: Staged, ps: seq<Placement>, i: int)
    requires 0 <= i < |ps| && LastOf(ps, i) && PlaceAll(s, ps).ok
    ensures ps[i].id in PlaceAll(s, ps).objects
    ensures var e := PlaceAll(s, ps).objects[ps[i].id];
            e.active == ps[i].active && e.fire == ps[i].fire && e.live && e.parent == None
    ensures ps[i].room.None? ==> PlaceAll(s, ps).objects[ps[i].id].pos == ps[i].offset
    ensures ps[i].room.Some? ==> ps[i].id in PlaceAll(s, ps).rooms && PlaceAll(s, ps).rooms[ps[i].id] == ps[i].room.value
    ensures ps[i].room.Some? && ps[i].room.value in s.objects && ps[i].room.value !in Ids(ps) ==>
              PlaceAll(s, ps).objects[ps[i].id].pos == Add(s.objects[ps[i].room.value].pos, ps[i].offset)
    decreases |ps|
  {
    var n := |ps| - 1;
    var init := ps[..n];
    assert ps[..n + 1] == ps;
    var prev := PlaceAll(s, init);
    assert PlaceAll(s, ps) == PlaceStep(prev, ps[n]);
    assert prev.ok && (ps[n].room.Some? ==> ps[n].room.value in prev.objects);
    if i == n {
      if ps[i].room.Some? && ps[i].room.value !in Ids(ps) {
        IdsSnoc(ps, n);
        PlaceAllElsewhere(s, init, ps[i].room.value);
      }
    } else {
      assert LastOf(init, i) && ps[n].id != ps[i].id;
      assert init[i] == ps[i];
      if ps[i].room.Some? && ps[i].room.value !in Ids(ps) {
        IdsSnoc(ps, n);
      }
      PlaceAllLast(s, init, i);
    }
  }
}
