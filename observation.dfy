/**
 * What a robot perceives (RobotAgent.IsInFov) and the three scans built on
 * it: the reveal scan run every frame, the extinguishing sweep and the
 * choice of the nearest survivor to rescue. The scans are loops in the robot
 * class; the functions here are what those loops compute.
 */
module Observation {
  import opened Options
  import opened Geometry
  import opened Registry

  /** Vector3.Angle: the angle in degrees between two vectors (a foreign call). */
  type AngleFn = (Vec3, Vec3) -> real

  /** The observer: its position, its forward vector, its field-of-view angle and its range. */
  datatype Eye = Eye(pos: Vec3, forward: Vec3, fovDeg: real, range: real)

  /** The offset from the observer to p with the height difference dropped. */
  function FlatOffset(eye: Eye, p: Vec3): Vec3 { Flat(Sub(p, eye.pos)) }

  /**
   * The field-of-view test: a destroyed object is never seen; otherwise it
   * is seen when its horizontal offset is no longer than the range and the
   * angle to it is at most half the field of view.
   */
  function IsInFov(eye: Eye, e: Entity, angle: AngleFn): (b: bool)
    ensures !e.live ==> !b
    ensures e.live && Exceeds(SqMag(FlatOffset(eye, e.pos)), eye.range) ==> !b
    ensures e.live && !Exceeds(SqMag(FlatOffset(eye, e.pos)), eye.range) ==>
              (b <==> angle(eye.forward, FlatOffset(eye, e.pos)) <= eye.fovDeg * 0.5)
  {
    if !e.live then false
    else
      var to := FlatOffset(eye, e.pos);
      if Exceeds(SqMag(to), eye.range) then false
      else angle(eye.forward, to) <= eye.fovDeg * 0.5
  }

  /**
   * Both limits are inclusive: an object whose horizontal distance m is
   * exactly the range, at exactly half the field of view, is seen; one any
   * farther than the range is not, whatever its angle.
   */
  lemma FovBoundaries(eye: Eye, e: Entity, angle: AngleFn, m: real)
    requires e.live && m >= 0.0 && m * m == SqMag(FlatOffset(eye, e.pos))
    ensures m == eye.range && angle(eye.forward, FlatOffset(eye, e.pos)) == eye.fovDeg * 0.5 ==> IsInFov(eye, e, angle)
    ensures m > eye.range ==> !IsInFov(eye, e, angle)
    ensures m <= eye.range ==> (IsInFov(eye, e, angle) <==> angle(eye.forward, FlatOffset(eye, e.pos)) <= eye.fovDeg * 0.5)
  {
    ExceedsIff(m, eye.range);
  }

  // ---------------------------------------------------------------- reveal

  /** Map structure and the observer itself are always shown. */
  predicate AlwaysShown(id: string, selfId: string)
  {
    IsRoomId(id) || id == "Floor" || id == selfId
  }

  /** What one step of RevealInFov does to the entry under id. */
  function RevealEntry(id: string, e: Entity, selfId: string, eye: Eye, angle: AngleFn): Entity
  {
    if e.live && (AlwaysShown(id, selfId) || IsInFov(eye, e, angle)) then e.(active := true) else e
  }

  /** The registry after one reveal scan. */
  function Revealed(m: map<string, Entity>, selfId: string, eye: Eye, angle: AngleFn): map<string, Entity>
  {
    map k | k in m :: RevealEntry(k, m[k], selfId, eye, angle)
  }

  /**
   * The reveal scan only ever switches entries on: ids and everything but
   * the active flag are kept, a shown entry stays shown, and a live entry
   * that is map structure, the observer or in view is shown afterwards.
   */
  lemma RevealOnlyActivates(m: map<string, Entity>, selfId: string, eye: Eye, angle: AngleFn)
    ensures Revealed(m, selfId, eye, angle).Keys == m.Keys
    ensures forall k :: k in m ==> Revealed(m, selfId, eye, angle)[k] == m[k].(active := Revealed(m, selfId, eye, angle)[k].active)
    ensures forall k :: k in m && m[k].active ==> Revealed(m, selfId, eye, angle)[k].active
    ensures forall k :: k in m && !m[k].active && Revealed(m, selfId, eye, angle)[k].active ==>
              m[k].live && (AlwaysShown(k, selfId) || IsInFov(eye, m[k], angle))
    ensures forall k :: k in m && m[k].live && (AlwaysShown(k, selfId) || IsInFov(eye, m[k], angle)) ==>
              Revealed(m, selfId, eye, angle)[k].active
  {
  }

  /**
   * Reveal is monotone across frames: whatever the robot's later poses,
   * an entry shown once stays shown through any number of later scans.
   */
  lemma {:induction false} RevealNeverHides(m: map<string, Entity>, selfId: string, eyes: seq<Eye>, angle: AngleFn, k: string)
    requires k in m && m[k].active
    ensures k in RevealAll(m, selfId, eyes, angle) && RevealAll(m, selfId, eyes, angle)[k].active
    decreases |eyes|
  {
    if eyes != [] {
      var m' := Revealed(m, selfId, eyes[0], angle);
      assert k in m' && m'[k].active;
      RevealNeverHides(m', selfId, eyes[1..], angle, k);
    }
  }

  /** Successive reveal scans from a sequence of poses. */
  function RevealAll(m: map<string, Entity>, selfId: string, eyes: seq<Eye>, angle: AngleFn): map<string, Entity>
    decreases |eyes|
  {
    if eyes == [] then m else RevealAll(Revealed(m, selfId, eyes[0], angle), selfId, eyes[1..], angle)
  }

  /** RevealInFov's loop over the ids ks, visiting them in order. */
  function RevealScan(m: map<string, Entity>, ks: seq<string>, selfId: string, eye: Eye, angle: AngleFn): map<string, Entity>
    decreases |ks|
  {
    if ks == [] then m
    else
      var prev := RevealScan(m, ks[..|ks| - 1], selfId, eye, angle);
      var k := ks[|ks| - 1];
      if k in prev then prev[k := RevealEntry(k, prev[k], selfId, eye, angle)] else prev
  }

  /** The scan over the first i + 1 ids is the scan over the first i, then id ks[i]. */
  lemma RevealScanStep(m: map<string, Entity>, ks: seq<string>, i: nat, selfId: string, eye: Eye, angle: AngleFn)
    requires i < |ks|
    ensures var prev := RevealScan(m, ks[..i], selfId, eye, angle);
            RevealScan(m, ks[..i + 1], selfId, eye, angle) ==
              if ks[i] in prev then prev[ks[i] := RevealEntry(ks[i], prev[ks[i]], selfId, eye, angle)] else prev
  {
    assert ks[..i + 1][..i] == ks[..i];
  }

  /** Visiting the registry's ids once each, in any order, is one reveal scan. */
  lemma {:induction false} RevealScanIsRevealed(m: map<string, Entity>, ks: seq<string>, selfId: string, eye: Eye, angle: AngleFn)
    requires forall i, j :: 0 <= i < j < |ks| ==> ks[i] != ks[j]
    requires forall k :: k in m <==> k in ks
    ensures RevealScan(m, ks, selfId, eye, angle) == Revealed(m, selfId, eye, angle)
  {
    RevealScanPointwise(m, ks, selfId, eye, angle);
  }

  /** An id the scan has not reached yet still holds its original entry. */
  lemma {:induction false} RevealScanAhead(m: map<string, Entity>, ks: seq<string>, selfId: string, eye: Eye, angle: AngleFn, k: string)
    requires k !in ks
    ensures RevealScan(m, ks, selfId, eye, angle).Keys == m.Keys
    ensures k in m ==> RevealScan(m, ks, selfId, eye, angle)[k] == m[k]
    decreases |ks|
  {
    if ks != [] {
      var n := |ks| - 1;
      assert ks[n] != k && k !in ks[..n];
      RevealScanAhead(m, ks[..n], selfId, eye, angle, k);
    }
  }

  lemma {:induction false} RevealScanPointwise(m: map<string, Entity>, ks: seq<string>, selfId: string, eye: Eye, angle: AngleFn)
    requires forall i, j :: 0 <= i < j < |ks| ==> ks[i] != ks[j]
    ensures RevealScan(m, ks, selfId, eye, angle).Keys == m.Keys
    ensures forall k :: k in m ==>
              RevealScan(m, ks, selfId, eye, angle)[k] == if k in ks then RevealEntry(k, m[k], selfId, eye, angle) else m[k]
    decreases |ks|
  {
    if ks != [] {
      var n := |ks| - 1;
      RevealScanPointwise(m, ks[..n], selfId, eye, angle);
      assert forall k :: k in ks <==> k in ks[..n] || k == ks[n];
      assert ks[n] !in ks[..n];
    }
  }

  // ------------------------------------------------------------ extinguish

  /** An active, undestroyed fire in view: what ExtinguishAllInFov destroys. */
  predicate DouseTarget(e: Entity, eye: Eye, angle: AngleFn)
  {
    e.live && e.fire && e.active && IsInFov(eye, e, angle)
  }

  /** The registry after the extinguishing sweep: exactly the targets are destroyed. */
  function Doused(m: map<string, Entity>, eye: Eye, angle: AngleFn): (r: map<string, Entity>)
    ensures r.Keys == m.Keys
    ensures forall k :: k in m && DouseTarget(m[k], eye, angle) ==> r[k] == m[k].(live := false)
    ensures forall k :: k in m && !DouseTarget(m[k], eye, angle) ==> r[k] == m[k]
  {
    map k | k in m :: if DouseTarget(m[k], eye, angle) then m[k].(live := false) else m[k]
  }

  /** The ids the sweep destroys. */
  function DousedIds(m: map<string, Entity>, eye: Eye, angle: AngleFn): set<string>
  {
    set k | k in m && DouseTarget(m[k], eye, angle)
  }

  /** ExtinguishAllInFov's loop over the ids ks, visiting them in order. */
  function DouseScan(m: map<string, Entity>, ks: seq<string>, eye: Eye, angle: AngleFn): map<string, Entity>
    decreases |ks|
  {
    if ks == [] then m
    else
      var prev := DouseScan(m, ks[..|ks| - 1], eye, angle);
      var k := ks[|ks| - 1];
      if k in prev && DouseTarget(prev[k], eye, angle) then prev[k := prev[k].(live := false)] else prev
  }

  /** The sweep over the first i + 1 ids is the sweep over the first i, then id ks[i]. */
  lemma DouseScanStep(m: map<string, Entity>, ks: seq<string>, i: nat, eye: Eye, angle: AngleFn)
    requires i < |ks|
    ensures var prev := DouseScan(m, ks[..i], eye, angle);
            DouseScan(m, ks[..i + 1], eye, angle) ==
              if ks[i] in prev && DouseTarget(prev[ks[i]], eye, angle) then prev[ks[i] := prev[ks[i]].(live := false)] else prev
  {
    assert ks[..i + 1][..i] == ks[..i];
  }

  /** The targets among the ids ks. */
  function DousedAmong(ks: seq<string>, m: map<string, Entity>, eye: Eye, angle: AngleFn): set<string>
  {
    set k | k in ks && k in m && DouseTarget(m[k], eye, angle)
  }

  /**
   * Visiting the registry's ids once each is one extinguishing sweep, and
   * it destroys as many fires as there are targets.
   */
  lemma {:induction false} DouseScanIsDoused(m: map<string, Entity>, ks: seq<string>, eye: Eye, angle: AngleFn)
    requires forall i, j :: 0 <= i < j < |ks| ==> ks[i] != ks[j]
    requires forall k :: k in m <==> k in ks
    ensures DouseScan(m, ks, eye, angle) == Doused(m, eye, angle)
    ensures DousedAmong(ks, m, eye, angle) == DousedIds(m, eye, angle)
  {
    DouseScanPointwise(m, ks, eye, angle);
  }

  lemma {:induction false} DouseScanPointwise(m: map<string, Entity>, ks: seq<string>, eye: Eye, angle: AngleFn)
    requires forall i, j :: 0 <= i < j < |ks| ==> ks[i] != ks[j]
    ensures DouseScan(m, ks, eye, angle).Keys == m.Keys
    ensures forall k :: k in m ==>
              DouseScan(m, ks, eye, angle)[k] == if k in ks && DouseTarget(m[k], eye, angle) then m[k].(live := false) else m[k]
    decreases |ks|
  {
    if ks != [] {
      var n := |ks| - 1;
      DouseScanPointwise(m, ks[..n], eye, angle);
      assert forall k :: k in ks <==> k in ks[..n] || k == ks[n];
      assert ks[n] !in ks[..n];
    }
  }

  /** An id the sweep has not reached yet still holds its original entry. */
  lemma {:induction false} DouseScanAhead(m: map<string, Entity>, ks: seq<string>, eye: Eye, angle: AngleFn, k: string)
    requires k !in ks
    ensures DouseScan(m, ks, eye, angle).Keys == m.Keys
    ensures k in m ==> DouseScan(m, ks, eye, angle)[k] == m[k]
    decreases |ks|
  {
    if ks != [] {
      var n := |ks| - 1;
      assert ks[n] != k && k !in ks[..n];
      DouseScanAhead(m, ks[..n], eye, angle, k);
    }
  }

  /** Visiting one more, new id adds one to the count exactly when it is a target. */
  lemma DousedAmongStep(ks: seq<string>, i: nat, m: map<string, Entity>, eye: Eye, angle: AngleFn)
    requires i < |ks| && ks[i] !in ks[..i]
    ensures |DousedAmong(ks[..i + 1], m, eye, angle)| ==
              |DousedAmong(ks[..i], m, eye, angle)| + (if ks[i] in m && DouseTarget(m[ks[i]], eye, angle) then 1 else 0)
  {
    var before := DousedAmong(ks[..i], m, eye, angle);
    var after := DousedAmong(ks[..i + 1], m, eye, angle);
    assert forall k :: k in ks[..i + 1] <==> k in ks[..i] || k == ks[i];
    if ks[i] in m && DouseTarget(m[ks[i]], eye, angle) {
      assert after == before + {ks[i]};
    } else {
      assert after == before;
    }
  }

  // ---------------------------------------------------------------- rescue

  /** An active, undestroyed, "Human"-prefixed entry in view. */
  predicate RescueCandidate(k: string, m: map<string, Entity>, eye: Eye, angle: AngleFn)
  {
    IsHumanId(k) && k in m && m[k].live && m[k].active && IsInFov(eye, m[k], angle)
  }

  /**
   * The survivor RescueNearestInFov's loop settles on after visiting ks in
   * order: a later candidate replaces the current best only when it is
   * strictly closer (squared 3D distances, see CloserIff).
   */
  function Nearest(ks: seq<string>, m: map<string, Entity>, eye: Eye, angle: AngleFn): (r: Option<string>)
    ensures r.Some? ==> r.value in ks && RescueCandidate(r.value, m, eye, angle)
    decreases |ks|
  {
    if ks == [] then None
    else
      var prev := Nearest(ks[..|ks| - 1], m, eye, angle);
      var k := ks[|ks| - 1];
      if RescueCandidate(k, m, eye, angle)
         && (prev.None? || SqDist(eye.pos, m[k].pos) < SqDist(eye.pos, m[prev.value].pos))
      then Some(k)
      else prev
  }

  /**
   * Nearest is an argmin with first-wins ties: it is None exactly when no
   * candidate is visited; otherwise it is a candidate at some position ib
   * that is no farther than any candidate and strictly closer than every
   * candidate visited before ib.
   */
  lemma {:induction false} NearestIsFirstClosest(ks: seq<string>, m: map<string, Entity>, eye: Eye, angle: AngleFn)
    ensures Nearest(ks, m, eye, angle).None? <==> forall j :: 0 <= j < |ks| ==> !RescueCandidate(ks[j], m, eye, angle)
    ensures Nearest(ks, m, eye, angle).Some? ==>
              var b := Nearest(ks, m, eye, angle).value;
              exists ib :: 0 <= ib < |ks| && ks[ib] == b
                && (forall j :: 0 <= j < |ks| && RescueCandidate(ks[j], m, eye, angle) ==>
                      SqDist(eye.pos, m[b].pos) <= SqDist(eye.pos, m[ks[j]].pos))
                && (forall j :: 0 <= j < ib && RescueCandidate(ks[j], m, eye, angle) ==>
                      SqDist(eye.pos, m[b].pos) < SqDist(eye.pos, m[ks[j]].pos))
    decreases |ks|
  {
    if ks != [] {
      var n := |ks| - 1;
      var init := ks[..n];
      NearestIsFirstClosest(init, m, eye, angle);
      assert forall j :: 0 <= j < n ==> ks[j] == init[j];
      var prev := Nearest(init, m, eye, angle);
      var r := Nearest(ks, m, eye, angle);
      if r.Some? {
        var b := r.value;
        if r == prev {
          var ib :| 0 <= ib < |init| && init[ib] == b
            && (forall j :: 0 <= j < |init| && RescueCandidate(init[j], m, eye, angle) ==>
                  SqDist(eye.pos, m[b].pos) <= SqDist(eye.pos, m[init[j]].pos))
            && (forall j :: 0 <= j < ib && RescueCandidate(init[j], m, eye, angle) ==>
                  SqDist(eye.pos, m[b].pos) < SqDist(eye.pos, m[init[j]].pos));
          assert ks[ib] == b;
        } else {
          assert b == ks[n];
          assert forall j :: 0 <= j < n && RescueCandidate(ks[j], m, eye, angle) ==>
                   SqDist(eye.pos, m[b].pos) < SqDist(eye.pos, m[ks[j]].pos);
        }
      } else {
        assert !RescueCandidate(ks[n], m, eye, angle);
      }
    }
  }
}
