/** Obstacles on the road and the two sweeps the game makes over them each
    frame: the exit sweep, which drops obstacles that have left the road and
    credits their points, and the collision sweep, which tests every
    obstacle against the car. The sweeps are specified here as functions;
    the collision loop is here too, and module Game runs the exit sweep as
    a loop over the game state. */
module Enemies {
  import opened Rules

  /** An obstacle: its kind, the lane it was spawned in, its top edge in
      road pixels, and the points tag it carries (absent tags count 10). */
  datatype Enemy = Enemy(kind: Kind, lane: nat, top: int, scoreTag: Option<nat>)

  /** Points credited for an obstacle that leaves the road: its tag, or 10
      when it carries none. */
  function PointsOf(e: Enemy): nat
  {
    match e.scoreTag
    case Some(p) => p
    case None => 10
  }

  /** Top edge, in pixels, at which a new obstacle appears above the road. */
  const SpawnTop: int := -140

  /** The obstacle `spawnEnemy` creates from the two rolls of the random
      source: the type the first roll picks, in the lane the second picks,
      just above the road, tagged with its type's points. */
  function SpawnedEnemy(roll: real, laneRoll: real): (e: Enemy)
    requires 0.0 <= laneRoll < 1.0
    ensures e.kind == PickObstacleType(roll).kind
    ensures e.lane < LaneCount && e.top == SpawnTop
    ensures e.scoreTag == Some(TypeOf(e.kind).points)
  {
    var t := PickObstacleType(roll);
    Enemy(t.kind, SpawnLane(laneRoll), SpawnTop, Some(t.points))
  }

  /** Every obstacle carries the points tag of its own type, as every
      obstacle the game creates does. */
  predicate Tagged(es: seq<Enemy>)
  {
    forall i :: 0 <= i < |es| ==> es[i].scoreTag == Some(TypeOf(es[i].kind).points)
  }

  /** The table points of a list of obstacles. */
  function TablePoints(es: seq<Enemy>): nat
  {
    if es == [] then 0 else TypeOf(es[0].kind).points + TablePoints(es[1..])
  }

  // ------------------------------------------------------------ exit sweep

  /** An obstacle has left the road once its top is more than 140 px below
      the road's height. */
  const ExitMargin: int := 140

  predicate HasExited(e: Enemy, roadHeight: int)
  {
    e.top > roadHeight + ExitMargin
  }

  /** Every obstacle moved to its new top; nothing else about it changes. */
  function MoveTo(es: seq<Enemy>, tops: seq<int>): (moved: seq<Enemy>)
    requires |tops| == |es|
    ensures |moved| == |es|
    ensures forall i :: 0 <= i < |es| ==> moved[i] == es[i].(top := tops[i])
  {
    if es == [] then [] else [es[0].(top := tops[0])] + MoveTo(es[1..], tops[1..])
  }

  /** The obstacles that stay on the road, in their original order. */
  function Survivors(es: seq<Enemy>, roadHeight: int): (kept: seq<Enemy>)
    ensures |kept| <= |es|
  {
    if es == [] then []
    else (if HasExited(es[0], roadHeight) then [] else [es[0]]) + Survivors(es[1..], roadHeight)
  }

  /** The obstacles that have left the road, in their original order. */
  function Exited(es: seq<Enemy>, roadHeight: int): (gone: seq<Enemy>)
    ensures |gone| <= |es|
  {
    if es == [] then []
    else (if HasExited(es[0], roadHeight) then [es[0]] else []) + Exited(es[1..], roadHeight)
  }

  /** Sum of the points of a list of obstacles. */
  function TotalPoints(es: seq<Enemy>): nat
  {
    if es == [] then 0 else PointsOf(es[0]) + TotalPoints(es[1..])
  }

  /** The points the exit sweep adds to the score. */
  function ExitPoints(es: seq<Enemy>, roadHeight: int): nat
  {
    if es == [] then 0
    else (if HasExited(es[0], roadHeight) then PointsOf(es[0]) else 0) + ExitPoints(es[1..], roadHeight)
  }

  /** The exit sweep splits the obstacles into exactly those that stay and
      those that left, and credits the points of exactly those that left. */
  lemma ExitSweepPartition(es: seq<Enemy>, roadHeight: int)
    ensures |Survivors(es, roadHeight)| + |Exited(es, roadHeight)| == |es|
    ensures multiset(Survivors(es, roadHeight)) + multiset(Exited(es, roadHeight)) == multiset(es)
    ensures ExitPoints(es, roadHeight) == TotalPoints(Exited(es, roadHeight))
  {
    ExitSweepMultiset(es, roadHeight);
    assert |multiset(Survivors(es, roadHeight)) + multiset(Exited(es, roadHeight))| == |multiset(es)|;
    ExitPointsOfExited(es, roadHeight);
  }

  lemma {:induction false} ExitSweepMultiset(es: seq<Enemy>, roadHeight: int)
    ensures multiset(Survivors(es, roadHeight)) + multiset(Exited(es, roadHeight)) == multiset(es)
  {
    if es != [] {
      ExitSweepMultiset(es[1..], roadHeight);
      assert es == [es[0]] + es[1..];
      assert multiset(es) == multiset([es[0]]) + multiset(es[1..]);
      var stay := Survivors(es[1..], roadHeight);
      var gone := Exited(es[1..], roadHeight);
      if HasExited(es[0], roadHeight) {
        assert Survivors(es, roadHeight) == stay;
        assert Exited(es, roadHeight) == [es[0]] + gone;
      } else {
        assert Survivors(es, roadHeight) == [es[0]] + stay;
        assert Exited(es, roadHeight) == gone;
      }
    }
  }

  lemma {:induction false} ExitPointsOfExited(es: seq<Enemy>, roadHeight: int)
    ensures ExitPoints(es, roadHeight) == TotalPoints(Exited(es, roadHeight))
  {
    if es != [] {
      ExitPointsOfExited(es[1..], roadHeight);
      var rest := Exited(es[1..], roadHeight);
      if HasExited(es[0], roadHeight) {
        assert Exited(es, roadHeight) == [es[0]] + rest;
        assert ([es[0]] + rest)[1..] == rest;
      } else {
        assert Exited(es, roadHeight) == rest;
      }
    }
  }

  /** Every survivor was in the list and is still on the road; every
      obstacle that left was in the list and is past the exit line. */
  lemma {:induction false} ExitSweepSides(es: seq<Enemy>, roadHeight: int)
    ensures forall e :: e in Survivors(es, roadHeight) ==> e in es && !HasExited(e, roadHeight)
    ensures forall e :: e in Exited(es, roadHeight) ==> e in es && HasExited(e, roadHeight)
  {
    if es != [] {
      ExitSweepSides(es[1..], roadHeight);
      assert es == [es[0]] + es[1..];
    }
  }

  /** An obstacle that has not left the road is kept: the sweep removes
      nothing else. */
  lemma {:induction false} SurvivorsKeepStaying(es: seq<Enemy>, roadHeight: int, e: Enemy)
    requires e in es && !HasExited(e, roadHeight)
    ensures e in Survivors(es, roadHeight)
  {
    if es[0] != e {
      SurvivorsKeepStaying(es[1..], roadHeight, e);
    }
  }

  /** One step of the exit sweep run from the back of the list: with the
      entries after `i` already swept, sweeping entry `i` either splices it
      out or puts it back with its new top. */
  lemma ExitSweepStep(orig: seq<Enemy>, moved: seq<Enemy>, i: nat, roadHeight: int, cur: seq<Enemy>)
    requires |moved| == |orig| && i < |moved|
    requires cur == orig[..i + 1] + Survivors(moved[i + 1..], roadHeight)
    ensures i < |cur| && cur[..i] == orig[..i] && cur[i] == orig[i]
    ensures HasExited(moved[i], roadHeight) ==>
              cur[..i] + cur[i + 1..] == orig[..i] + Survivors(moved[i..], roadHeight)
    ensures !HasExited(moved[i], roadHeight) ==>
              cur[..i] + [moved[i]] + cur[i + 1..] == orig[..i] + Survivors(moved[i..], roadHeight)
    ensures ExitPoints(moved[i..], roadHeight)
              == (if HasExited(moved[i], roadHeight) then PointsOf(moved[i]) else 0)
                 + ExitPoints(moved[i + 1..], roadHeight)
  {
    var rest := Survivors(moved[i + 1..], roadHeight);
    assert moved[i..][0] == moved[i] && moved[i..][1..] == moved[i + 1..];
    assert orig[..i + 1] == orig[..i] + [orig[i]];
    assert cur == orig[..i] + [orig[i]] + rest;
    assert cur[..i] == orig[..i] && cur[i + 1..] == rest;
  }

  /** The sweep acts on each part of a list separately, so the survivors keep
      their relative order. */
  lemma {:induction false} SurvivorsAppend(a: seq<Enemy>, b: seq<Enemy>, roadHeight: int)
    ensures Survivors(a + b, roadHeight) == Survivors(a, roadHeight) + Survivors(b, roadHeight)
    ensures ExitPoints(a + b, roadHeight) == ExitPoints(a, roadHeight) + ExitPoints(b, roadHeight)
  {
    if a == [] {
      assert a + b == b;
    } else {
      assert (a + b)[0] == a[0] && (a + b)[1..] == a[1..] + b;
      SurvivorsAppend(a[1..], b, roadHeight);
      var head := if HasExited(a[0], roadHeight) then [] else [a[0]];
      calc {
        Survivors(a + b, roadHeight);
        head + Survivors(a[1..] + b, roadHeight);
        head + (Survivors(a[1..], roadHeight) + Survivors(b, roadHeight));
        (head + Survivors(a[1..], roadHeight)) + Survivors(b, roadHeight);
      }
    }
  }

  /** With no obstacle past the exit line the sweep changes nothing. */
  lemma {:induction false} ExitSweepNothingGone(es: seq<Enemy>, roadHeight: int)
    requires forall i :: 0 <= i < |es| ==> !HasExited(es[i], roadHeight)
    ensures Survivors(es, roadHeight) == es && ExitPoints(es, roadHeight) == 0
  {
    if es != [] {
      ExitSweepNothingGone(es[1..], roadHeight);
    }
  }

  /** Moving obstacles and dropping those that left keeps every tag, and the
      points credited for those that left are their table points. */
  lemma {:induction false} SurvivorsTagged(es: seq<Enemy>, tops: seq<int>, roadHeight: int)
    requires |tops| == |es| && Tagged(es)
    ensures Tagged(MoveTo(es, tops))
    ensures Tagged(Survivors(MoveTo(es, tops), roadHeight))
    ensures ExitPoints(MoveTo(es, tops), roadHeight) == TablePoints(Exited(MoveTo(es, tops), roadHeight))
  {
    SurvivorsOfTagged(MoveTo(es, tops), roadHeight);
    ExitPointsFromTable(MoveTo(es, tops), roadHeight);
  }

  lemma {:induction false} SurvivorsOfTagged(es: seq<Enemy>, roadHeight: int)
    requires Tagged(es)
    ensures Tagged(Survivors(es, roadHeight))
  {
    if es != [] {
      SurvivorsOfTagged(es[1..], roadHeight);
      var rest := Survivors(es[1..], roadHeight);
      if !HasExited(es[0], roadHeight) {
        assert Survivors(es, roadHeight) == [es[0]] + rest;
      }
    }
  }

  /** On tagged obstacles the default of 10 points never applies: the exit
      sweep credits exactly the table points of the obstacles that left. */
  lemma {:induction false} ExitPointsFromTable(es: seq<Enemy>, roadHeight: int)
    requires Tagged(es)
    ensures ExitPoints(es, roadHeight) == TablePoints(Exited(es, roadHeight))
    ensures forall e :: e in es ==> PointsOf(e) == TypeOf(e.kind).points
  {
    if es != [] {
      ExitPointsFromTable(es[1..], roadHeight);
      var rest := Exited(es[1..], roadHeight);
      if HasExited(es[0], roadHeight) {
        assert Exited(es, roadHeight) == [es[0]] + rest;
        assert ([es[0]] + rest)[1..] == rest;
      } else {
        assert Exited(es, roadHeight) == rest;
      }
    }
  }

  // ------------------------------------------------------- collision sweep

  /** A screen rectangle with integer edges; y grows downwards. */
  datatype Rect = Rect(top: int, bottom: int, left: int, right: int)

  /** The overlap test forgives this many pixels on every side of the car. */
  const CollisionInset: int := 10

  /** The four-inequality overlap test of an obstacle's box against the
      car's box. */
  predicate Overlaps(enemy: Rect, car: Rect)
  {
    && enemy.bottom > car.top + CollisionInset
    && enemy.top < car.bottom - CollisionInset
    && enemy.left < car.right - CollisionInset
    && enemy.right > car.left + CollisionInset
  }

  /** The car's box shrunk by `d` pixels on every side. */
  function Shrink(r: Rect, d: int): Rect
  {
    Rect(r.top + d, r.bottom - d, r.left + d, r.right - d)
  }

  /** Two boxes share interior area: their open extents meet on both axes. */
  predicate Intersect(a: Rect, b: Rect)
  {
    a.top < b.bottom && b.top < a.bottom && a.left < b.right && b.left < a.right
  }

  /** The overlap test is plain box intersection with the car's box shrunk
      by the inset; in particular an obstacle whose bottom is at or above
      the shrunk car's top never overlaps, whatever its other edges. */
  lemma OverlapsIsShrunkIntersection(enemy: Rect, car: Rect)
    ensures Overlaps(enemy, car) <==> Intersect(enemy, Shrink(car, CollisionInset))
    ensures enemy.bottom <= car.top + CollisionInset ==> !Overlaps(enemy, car)
    ensures enemy.top >= car.bottom - CollisionInset ==> !Overlaps(enemy, car)
  {
  }

  /** The overlap test of every obstacle against the car, given the box
      the page reports for each obstacle. */
  function Touching(car: Rect, boxOf: Enemy -> Rect): (touches: Enemy -> bool)
    ensures forall e :: touches(e) <==> Overlaps(boxOf(e), car)
  {
    e => Overlaps(boxOf(e), car)
  }

  /** An overlapping oil patch: removed, and it slows the traffic down. The
      predicates from here on take the overlap test as `touches`. */
  predicate HitsOil(e: Enemy, touches: Enemy -> bool)
  {
    touches(e) && e.kind == Oil
  }

  /** An overlapping obstacle of any other kind: a crash. */
  predicate Blocks(e: Enemy, touches: Enemy -> bool)
  {
    touches(e) && e.kind != Oil
  }

  /** What the collision sweep yields: whether it crashed, the obstacles
      left afterwards, and whether some oil patch was hit. */
  datatype SweepResult = SweepResult(crashed: bool, kept: seq<Enemy>, oiled: bool)

  /** The collision sweep, obstacle by obstacle from the front: an oil patch
      that overlaps is dropped and the scan goes on; the first other
      obstacle that overlaps stops the scan with a crash and leaves the rest
      untouched. */
  function CollisionSweep(es: seq<Enemy>, touches: Enemy -> bool): (r: SweepResult)
    ensures |r.kept| <= |es|
  {
    if es == [] then SweepResult(false, [], false)
    else if HitsOil(es[0], touches) then
      var rest := CollisionSweep(es[1..], touches);
      SweepResult(rest.crashed, rest.kept, true)
    else if Blocks(es[0], touches) then SweepResult(true, es, false)
    else
      var rest := CollisionSweep(es[1..], touches);
      SweepResult(rest.crashed, [es[0]] + rest.kept, rest.oiled)
  }

  /** The list without the oil patches that overlap the car. */
  function ClearOil(es: seq<Enemy>, touches: Enemy -> bool): (r: seq<Enemy>)
    ensures |r| <= |es|
  {
    if es == [] then []
    else (if HitsOil(es[0], touches) then [] else [es[0]]) + ClearOil(es[1..], touches)
  }

  lemma {:induction false} ClearOilAppend(a: seq<Enemy>, b: seq<Enemy>, touches: Enemy -> bool)
    ensures ClearOil(a + b, touches) == ClearOil(a, touches) + ClearOil(b, touches)
  {
    if a == [] {
      assert a + b == b;
    } else {
      assert (a + b)[0] == a[0] && (a + b)[1..] == a[1..] + b;
      ClearOilAppend(a[1..], b, touches);
    }
  }

  /** Index of the first obstacle that blocks the car, or |es| if none does. */
  function FirstBlock(es: seq<Enemy>, touches: Enemy -> bool): (k: nat)
    ensures k <= |es|
  {
    if es == [] then 0
    else if Blocks(es[0], touches) then 0
    else 1 + FirstBlock(es[1..], touches)
  }

  /** `FirstBlock` is the position of the first blocking obstacle, or the
      length of the list when none blocks. */
  lemma {:induction false} FirstBlockIsFirst(es: seq<Enemy>, touches: Enemy -> bool)
    ensures var k := FirstBlock(es, touches);
      && (forall j :: 0 <= j < k ==> !Blocks(es[j], touches))
      && (k < |es| ==> Blocks(es[k], touches))
  {
    if es != [] && !Blocks(es[0], touches) {
      FirstBlockIsFirst(es[1..], touches);
      assert forall j :: 1 <= j <= |es[1..]| ==> es[j] == es[1..][j - 1];
    }
  }

  /** Some obstacle of the list is an oil patch that overlaps the car. */
  predicate AnyHitsOil(es: seq<Enemy>, touches: Enemy -> bool)
  {
    es != [] && (HitsOil(es[0], touches) || AnyHitsOil(es[1..], touches))
  }

  lemma {:induction false} AnyHitsOilAppend(a: seq<Enemy>, b: seq<Enemy>, touches: Enemy -> bool)
    ensures AnyHitsOil(a + b, touches) <==> AnyHitsOil(a, touches) || AnyHitsOil(b, touches)
  {
    if a == [] {
      assert a + b == b;
    } else {
      assert (a + b)[0] == a[0] && (a + b)[1..] == a[1..] + b;
      AnyHitsOilAppend(a[1..], b, touches);
    }
  }

  /** Closed form of the collision sweep. Let k be the first blocking
      obstacle: the sweep crashes iff there is one, keeps everything before
      it except the overlapping oil patches, keeps everything from it on,
      and reports oil iff an overlapping oil patch comes before it. */
  lemma CollisionSweepClosedForm(es: seq<Enemy>, touches: Enemy -> bool)
    ensures var k := FirstBlock(es, touches);
      CollisionSweep(es, touches)
        == SweepResult(k < |es|, ClearOil(es[..k], touches) + es[k..], AnyHitsOil(es[..k], touches))
  {
    SweepCrashedForm(es, touches);
    SweepKeptForm(es, touches);
    SweepOiledForm(es, touches);
  }

  lemma {:induction false} SweepCrashedForm(es: seq<Enemy>, touches: Enemy -> bool)
    ensures CollisionSweep(es, touches).crashed == (FirstBlock(es, touches) < |es|)
  {
    if es != [] && !Blocks(es[0], touches) {
      SweepCrashedForm(es[1..], touches);
    }
  }

  lemma {:induction false} SweepKeptForm(es: seq<Enemy>, touches: Enemy -> bool)
    ensures var k := FirstBlock(es, touches);
      CollisionSweep(es, touches).kept == ClearOil(es[..k], touches) + es[k..]
  {
    if es == [] {
    } else if Blocks(es[0], touches) {
      assert es[..0] == [] && es[0..] == es;
    } else {
      var rest := es[1..];
      var k' := FirstBlock(rest, touches);
      SweepKeptForm(rest, touches);
      var head := if HitsOil(es[0], touches) then [] else [es[0]];
      var tail := ClearOil(rest[..k'], touches);
      PrefixCons(es, k');
      assert CollisionSweep(es, touches).kept == head + CollisionSweep(rest, touches).kept;
      assert head + (tail + rest[k'..]) == (head + tail) + rest[k'..];
    }
  }

  lemma {:induction false} SweepOiledForm(es: seq<Enemy>, touches: Enemy -> bool)
    ensures CollisionSweep(es, touches).oiled == AnyHitsOil(es[..FirstBlock(es, touches)], touches)
  {
    if es == [] {
    } else if Blocks(es[0], touches) {
      assert es[..0] == [];
    } else {
      var k' := FirstBlock(es[1..], touches);
      SweepOiledForm(es[1..], touches);
      PrefixCons(es, k');
    }
  }

  /** The prefix of length k + 1 is the head followed by the rest's prefix
      of length k; the suffixes line up the same way. */
  lemma PrefixCons(es: seq<Enemy>, k: nat)
    requires k < |es|
    ensures es[..k + 1][0] == es[0] && es[..k + 1][1..] == es[1..][..k]
    ensures es[k + 1..] == es[1..][k..]
  {
  }

  /** The sweep reports a crash exactly when some obstacle other than oil
      overlaps the car. */
  lemma {:induction false} CollisionSweepCrashIff(es: seq<Enemy>, touches: Enemy -> bool)
    ensures CollisionSweep(es, touches).crashed
        <==> exists i :: 0 <= i < |es| && Blocks(es[i], touches)
  {
    CollisionSweepClosedForm(es, touches);
    FirstBlockIsFirst(es, touches);
  }

  /** Without a blocking obstacle the sweep runs to the end: no crash, every
      overlapping oil patch gone, and oil reported iff one was hit. */
  lemma {:induction false} CollisionSweepNoCrash(es: seq<Enemy>, touches: Enemy -> bool)
    requires forall i :: 0 <= i < |es| ==> !Blocks(es[i], touches)
    ensures CollisionSweep(es, touches) == SweepResult(false, ClearOil(es, touches), AnyHitsOil(es, touches))
  {
    CollisionSweepClosedForm(es, touches);
    FirstBlockIsFirst(es, touches);
    var k := FirstBlock(es, touches);
    assert k == |es|;
    assert es[..k] == es && es[k..] == [];
  }

  /** The obstacles other than oil patches, in order. */
  function NonOil(es: seq<Enemy>): (r: seq<Enemy>)
    ensures |r| <= |es|
  {
    if es == [] then []
    else (if es[0].kind == Oil then [] else [es[0]]) + NonOil(es[1..])
  }

  lemma {:induction false} NonOilAppend(a: seq<Enemy>, b: seq<Enemy>)
    ensures NonOil(a + b) == NonOil(a) + NonOil(b)
  {
    if a == [] {
      assert a + b == b;
    } else {
      assert (a + b)[0] == a[0] && (a + b)[1..] == a[1..] + b;
      NonOilAppend(a[1..], b);
    }
  }

  lemma {:induction false} NonOilClearOil(es: seq<Enemy>, touches: Enemy -> bool)
    ensures NonOil(ClearOil(es, touches)) == NonOil(es)
  {
    if es != [] {
      var head := if HitsOil(es[0], touches) then [] else [es[0]];
      NonOilAppend(head, ClearOil(es[1..], touches));
      NonOilClearOil(es[1..], touches);
    }
  }

  /** The sweep never removes an obstacle other than oil, and keeps the
      others in order; everything it does remove is an oil patch that
      overlaps the car. */
  lemma CollisionSweepRemovesOnlyHitOil(es: seq<Enemy>, touches: Enemy -> bool)
    ensures NonOil(CollisionSweep(es, touches).kept) == NonOil(es)
    ensures multiset(CollisionSweep(es, touches).kept) <= multiset(es)
    ensures forall e :: e in multiset(es) - multiset(CollisionSweep(es, touches).kept)
                     ==> HitsOil(e, touches)
  {
    CollisionSweepClosedForm(es, touches);
    var k := FirstBlock(es, touches);
    assert es == es[..k] + es[k..];
    NonOilClearOil(es[..k], touches);
    NonOilAppend(ClearOil(es[..k], touches), es[k..]);
    NonOilAppend(es[..k], es[k..]);
    ClearOilSplit(es[..k], touches);
    var prefix, suffix := es[..k], es[k..];
    assert multiset(es) == multiset(prefix) + multiset(suffix);
    assert multiset(CollisionSweep(es, touches).kept) == multiset(ClearOil(prefix, touches)) + multiset(suffix);
  }

  /** The collision sweep only removes obstacles, so the tags stay. */
  lemma {:induction false} CollisionSweepTagged(es: seq<Enemy>, touches: Enemy -> bool)
    requires Tagged(es)
    ensures Tagged(CollisionSweep(es, touches).kept)
  {
    if es != [] && !Blocks(es[0], touches) {
      CollisionSweepTagged(es[1..], touches);
    }
  }

  /** The collision scan as a loop runs it: from position `i` on, having
      kept `kept` so far and with `oiled` telling whether an oil patch was
      hit so far. */
  function CollisionScan(s: seq<Enemy>, i: nat, kept: seq<Enemy>, oiled: bool,
                         touches: Enemy -> bool): SweepResult
    requires i <= |s|
    decreases |s| - i
  {
    if i == |s| then SweepResult(false, kept, oiled)
    else if HitsOil(s[i], touches) then CollisionScan(s, i + 1, kept, true, touches)
    else if Blocks(s[i], touches) then SweepResult(true, kept + s[i..], oiled)
    else CollisionScan(s, i + 1, kept + [s[i]], oiled, touches)
  }

  /** The scan from position `i` finishes what the sweep of the remaining
      obstacles does, on top of what it has accumulated. */
  lemma {:induction false} CollisionScanMatchesSweep(s: seq<Enemy>, i: nat, kept: seq<Enemy>, oiled: bool,
                                                     touches: Enemy -> bool)
    requires i <= |s|
    ensures var r := CollisionSweep(s[i..], touches);
      CollisionScan(s, i, kept, oiled, touches)
        == SweepResult(r.crashed, kept + r.kept, oiled || r.oiled)
    decreases |s| - i
  {
    if i == |s| {
      assert s[i..] == [];
      assert kept + [] == kept;
    } else {
      assert s[i..][0] == s[i] && s[i..][1..] == s[i + 1..];
      if HitsOil(s[i], touches) {
        CollisionScanMatchesSweep(s, i + 1, kept, true, touches);
      } else if !Blocks(s[i], touches) {
        CollisionScanMatchesSweep(s, i + 1, kept + [s[i]], oiled, touches);
        var r := CollisionSweep(s[i + 1..], touches);
        assert kept + [s[i]] + r.kept == kept + ([s[i]] + r.kept);
      }
    }
  }

  /** The loop of the collision check. It walks the list as it was when
      the scan started; an overlapping oil patch is filtered out of the
      working list (the entry at `pos`, since the walk has kept exactly
      `pos` obstacles before it), and the first other overlapping obstacle
      stops the scan with a crash. */
  method ScanCollisions(snapshot: seq<Enemy>, touches: Enemy -> bool)
    returns (crashed: bool, list: seq<Enemy>, oiled: bool)
    ensures SweepResult(crashed, list, oiled) == CollisionSweep(snapshot, touches)
  {
    CollisionScanMatchesSweep(snapshot, 0, [], false, touches);
    assert snapshot[0..] == snapshot;
    list := snapshot;
    oiled := false;
    crashed := false;
    ghost var kept: seq<Enemy> := [];
    var pos := 0;
    var i := 0;
    while i < |snapshot|
      invariant 0 <= i <= |snapshot|
      invariant pos == |kept|
      invariant list == kept + snapshot[i..]
      invariant CollisionScan(snapshot, i, kept, oiled, touches) == CollisionSweep(snapshot, touches)
    {
      var enemy := snapshot[i];
      CollisionScanStep(snapshot, i, kept, oiled, touches);
      if touches(enemy) {
        if enemy.kind != Oil {
          crashed := true;
          return;
        }
        oiled := true;
        list := list[..pos] + list[pos + 1..];
      } else {
        kept := kept + [enemy];
        pos := pos + 1;
      }
      i := i + 1;
    }
    CollisionScanStep(snapshot, i, kept, oiled, touches);
  }

  /** One step of the scan on the working list `kept + s[i..]`: a blocking
      obstacle ends it with the list as it is, a hit oil patch is cut out
      at position |kept|, any other obstacle is kept. */
  lemma CollisionScanStep(s: seq<Enemy>, i: nat, kept: seq<Enemy>, oiled: bool, touches: Enemy -> bool)
    requires i <= |s|
    ensures i == |s| ==> CollisionScan(s, i, kept, oiled, touches) == SweepResult(false, kept, oiled)
    ensures i < |s| ==>
      var l := kept + s[i..];
      && (Blocks(s[i], touches) ==> CollisionScan(s, i, kept, oiled, touches) == SweepResult(true, l, oiled))
      && (HitsOil(s[i], touches) ==>
            CollisionScan(s, i, kept, oiled, touches) == CollisionScan(s, i + 1, kept, true, touches)
            && l[..|kept|] + l[|kept| + 1..] == kept + s[i + 1..])
      && (!touches(s[i]) ==>
            CollisionScan(s, i, kept, oiled, touches) == CollisionScan(s, i + 1, kept + [s[i]], oiled, touches)
            && l == (kept + [s[i]]) + s[i + 1..])
  {
    if i < |s| {
      assert s[i..] == [s[i]] + s[i + 1..];
      SpliceOut(kept, s[i], s[i + 1..]);
    }
  }

  /** Taking the element that sits between a prefix and a suffix out of a
      list leaves the prefix followed by the suffix. */
  lemma SpliceOut(prefix: seq<Enemy>, x: Enemy, suffix: seq<Enemy>)
    ensures var l := prefix + ([x] + suffix);
      l[..|prefix|] + l[|prefix| + 1..] == prefix + suffix && l == (prefix + [x]) + suffix
  {
    var l := prefix + ([x] + suffix);
    assert l[..|prefix|] == prefix;
    assert l[|prefix| + 1..] == suffix;
  }

  /** ClearOil keeps a sub-multiset and drops only overlapping oil. */
  lemma {:induction false} ClearOilSplit(es: seq<Enemy>, touches: Enemy -> bool)
    ensures multiset(ClearOil(es, touches)) <= multiset(es)
    ensures forall e :: e in multiset(es) - multiset(ClearOil(es, touches)) ==> HitsOil(e, touches)
  {
    if es != [] {
      ClearOilSplit(es[1..], touches);
      assert es == [es[0]] + es[1..];
      var rest := ClearOil(es[1..], touches);
      if HitsOil(es[0], touches) {
        assert ClearOil(es, touches) == rest;
      } else {
        assert ClearOil(es, touches) == [es[0]] + rest;
      }
    }
  }
}
