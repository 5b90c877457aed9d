/**
 * The fur layer balancer: a registry of fur objects, a per-frame pass that
 * estimates each camera's total overdraw, and the query that scales an
 * object's expected layer count down so that the estimated total stays
 * within the overdraw budget.
 *
 * One overdraw unit is one layer covering a camera's whole screen.
 */
module LayerBalancer {
  import opened Overdraw
  import opened RealArith

  /** Mathf.Min on two values. */
  function Min(a: real, b: real): (m: real)
    ensures m <= a && m <= b
    ensures m == a || m == b
  {
    if a <= b then a else b
  }

  /**
   * How much of the screen an object of the given relative height covers:
   * each axis is saturated at one full screen.
   */
  function ScreenOccupancy(relativeHeight: real, aspect: real): (o: real)
    requires aspect != 0.0
    ensures relativeHeight >= 0.0 && aspect > 0.0 ==> 0.0 <= o <= 1.0
    ensures relativeHeight == 0.0 ==> o == 0.0
    ensures aspect > 0.0 && relativeHeight >= 1.0 && relativeHeight >= aspect ==> o == 1.0
  {
    var relativeWidth := relativeHeight / aspect;
    var oh := Min(1.0, relativeHeight);
    var ow := Min(1.0, relativeWidth);
    assert aspect > 0.0 ==> (relativeWidth >= 1.0 <==> relativeHeight >= aspect) && (relativeHeight >= 0.0 ==> relativeWidth >= 0.0) by {
      if aspect > 0.0 { QuotientAgainstOne(relativeHeight, aspect); }
    }
    assert relativeHeight >= 0.0 && aspect > 0.0 ==> 0.0 <= oh * ow <= 1.0 by {
      if relativeHeight >= 0.0 && aspect > 0.0 { MulAtMostOne(oh, ow); }
    }
    oh * ow
  }

  /** The expected layer count of `obj` under `camera`, asked of the scene afresh. */
  function Expected(obj: ObjectId, camera: Camera, scene: Scene, quality: real): (e: real)
    ensures scene.relativeHeight(obj, camera) == 0.0 || scene.furLength(obj) == 0.0 ==> e == 0.0
  {
    ExpectedLayerCount(scene.furLength(obj), camera, scene.relativeHeight(obj, camera), quality)
  }

  /** One registry entry's share of a camera's estimated overdraw. */
  function Contribution(obj: ObjectId, camera: Camera, scene: Scene, quality: real): (c: real)
    requires camera.aspect != 0.0
    ensures scene.relativeHeight(obj, camera) == 0.0 || scene.furLength(obj) == 0.0 ==> c == 0.0
    ensures camera.aspect > 0.0 && scene.relativeHeight(obj, camera) >= 0.0 && Expected(obj, camera, scene, quality) >= 0.0 ==>
              0.0 <= c <= Expected(obj, camera, scene, quality)
  {
    var h := scene.relativeHeight(obj, camera);
    var occupancy := ScreenOccupancy(h, camera.aspect);
    var expected := Expected(obj, camera, scene, quality);
    assert camera.aspect > 0.0 && h >= 0.0 && expected >= 0.0 ==> 0.0 <= occupancy * expected <= expected by {
      if camera.aspect > 0.0 && h >= 0.0 && expected >= 0.0 { MulAtMostOne(expected, occupancy); }
    }
    occupancy * expected
  }

  /** The estimated overdraw of a camera: the sum over the registry, in list order. */
  function EstimatedOverdraw(objects: seq<ObjectId>, camera: Camera, scene: Scene, quality: real): (t: real)
    requires camera.aspect != 0.0
    ensures objects == [] ==> t == 0.0
  {
    if objects == [] then 0.0
    else EstimatedOverdraw(objects[..|objects| - 1], camera, scene, quality)
         + Contribution(objects[|objects| - 1], camera, scene, quality)
  }

  /** The estimate splits over any division of the registry into two parts. */
  lemma {:induction false} EstimatedOverdrawConcat(a: seq<ObjectId>, b: seq<ObjectId>, camera: Camera, scene: Scene, quality: real)
    requires camera.aspect != 0.0
    ensures EstimatedOverdraw(a + b, camera, scene, quality)
         == EstimatedOverdraw(a, camera, scene, quality) + EstimatedOverdraw(b, camera, scene, quality)
    decreases |b|
  {
    if b == [] {
      assert a + b == a;
    } else {
      var n := |b| - 1;
      assert (a + b)[..|a + b| - 1] == a + b[..n];
      assert (a + b)[|a + b| - 1] == b[n];
      EstimatedOverdrawConcat(a, b[..n], camera, scene, quality);
    }
  }

  /** A contribution is occupancy of both axes, each capped at one screen, times the expected layer count. */
  lemma ContributionAsComputed(obj: ObjectId, camera: Camera, scene: Scene, quality: real, occupancy: real, expected: real)
    requires camera.aspect != 0.0
    requires occupancy == Min(1.0, scene.relativeHeight(obj, camera)) * Min(1.0, scene.relativeHeight(obj, camera) / camera.aspect)
    requires expected == ExpectedLayerCount(scene.furLength(obj), camera, scene.relativeHeight(obj, camera), quality)
    ensures occupancy * expected == Contribution(obj, camera, scene, quality)
  {
  }

  /** Extending a prefix of the registry by its next entry adds that entry's contribution. */
  lemma EstimatedOverdrawStep(objects: seq<ObjectId>, i: nat, camera: Camera, scene: Scene, quality: real)
    requires camera.aspect != 0.0 && i < |objects|
    ensures EstimatedOverdraw(objects[..i + 1], camera, scene, quality)
         == EstimatedOverdraw(objects[..i], camera, scene, quality) + Contribution(objects[i], camera, scene, quality)
  {
    assert objects[..i + 1][..i] == objects[..i];
  }

  /** A registry whose every object contributes nothing (say, none is visible) estimates zero overdraw. */
  lemma {:induction false} SilentObjectsEstimateZero(objects: seq<ObjectId>, camera: Camera, scene: Scene, quality: real)
    requires camera.aspect != 0.0
    requires forall o :: o in objects ==> Contribution(o, camera, scene, quality) == 0.0
    ensures EstimatedOverdraw(objects, camera, scene, quality) == 0.0
  {
    if objects != [] {
      var init := objects[..|objects| - 1];
      assert forall o :: o in init ==> o in objects;
      assert objects[|objects| - 1] in objects;
      SilentObjectsEstimateZero(init, camera, scene, quality);
    }
  }

  /** A registration listed twice is counted twice. */
  lemma DuplicateCountsTwice(objects: seq<ObjectId>, obj: ObjectId, camera: Camera, scene: Scene, quality: real)
    requires camera.aspect != 0.0
    ensures EstimatedOverdraw(objects + [obj, obj], camera, scene, quality)
         == EstimatedOverdraw(objects, camera, scene, quality) + 2.0 * Contribution(obj, camera, scene, quality)
  {
    EstimatedOverdrawConcat(objects, [obj, obj], camera, scene, quality);
    assert [obj, obj][..1] == [obj];
    assert [obj][..0] == [];
    assert EstimatedOverdraw([obj], camera, scene, quality) == Contribution(obj, camera, scene, quality);
    assert EstimatedOverdraw([obj, obj], camera, scene, quality) == 2.0 * Contribution(obj, camera, scene, quality);
  }

  /** With a positive aspect and non-negative inputs every contribution, and so the sum, is non-negative. */
  lemma {:induction false} EstimatedOverdrawNonNegative(objects: seq<ObjectId>, camera: Camera, scene: Scene, quality: real)
    requires camera.aspect > 0.0 && camera.pixelHeight >= 0.0 && quality >= 0.0
    requires forall o :: o in objects ==> scene.relativeHeight(o, camera) >= 0.0 && scene.furLength(o) >= 0.0
    ensures EstimatedOverdraw(objects, camera, scene, quality) >= 0.0
  {
    if objects != [] {
      var init, last := objects[..|objects| - 1], objects[|objects| - 1];
      assert forall o :: o in init ==> o in objects;
      EstimatedOverdrawNonNegative(init, camera, scene, quality);
      assert last in objects;
      var h := scene.relativeHeight(last, camera);
      var occ := ScreenOccupancy(h, camera.aspect);
      var e := ExpectedLayerCount(scene.furLength(last), camera, h, quality);
      assert occ >= 0.0 && e >= 0.0;
      MulNonNegative(occ, e);
      assert Contribution(last, camera, scene, quality) == occ * e;
    }
  }

  /**
   * The index of the first occurrence of `x` in `s`, or |s| when there is
   * none (List.IndexOf, with |s| in place of -1).
   */
  function IndexOf(s: seq<ObjectId>, x: ObjectId): (i: nat)
    ensures i <= |s|
    ensures i < |s| ==> s[i] == x
    ensures forall j :: 0 <= j < i ==> s[j] != x
  {
    if s == [] then 0
    else if s[0] == x then 0
    else 1 + IndexOf(s[1..], x)
  }

  /** List.Remove: drop the first occurrence of `x`, if any. */
  function RemoveFirst(s: seq<ObjectId>, x: ObjectId): (r: seq<ObjectId>)
    ensures x !in s ==> r == s
    ensures x in s ==> |r| == |s| - 1 && multiset(r) == multiset(s) - multiset{x}
    ensures x in s ==> exists i :: 0 <= i < |s| && s[i] == x && x !in s[..i] && r == s[..i] + s[i + 1..]
  {
    var i := IndexOf(s, x);
    if i < |s| then
      assert s == s[..i] + [s[i]] + s[i + 1..];
      assert x !in s[..i];
      s[..i] + s[i + 1..]
    else
      s
  }

  /**
   * Unregistering a listed object lowers every camera's estimate by exactly
   * that object's contribution.
   */
  lemma RemoveFirstDropsContribution(objects: seq<ObjectId>, obj: ObjectId, camera: Camera, scene: Scene, quality: real)
    requires camera.aspect != 0.0
    requires obj in objects
    ensures EstimatedOverdraw(objects, camera, scene, quality)
         == EstimatedOverdraw(RemoveFirst(objects, obj), camera, scene, quality) + Contribution(obj, camera, scene, quality)
  {
    var i := IndexOf(objects, obj);
    var a, b := objects[..i], objects[i + 1..];
    assert objects == a + [obj] + b;
    assert RemoveFirst(objects, obj) == a + b;
    EstimatedOverdrawConcat(a + [obj], b, camera, scene, quality);
    EstimatedOverdrawConcat(a, b, camera, scene, quality);
  }

  /**
   * Registering and then unregistering the same object restores the
   * registry exactly when the object was not listed before; otherwise the
   * first occurrence goes and the new one stays at the end, so only the
   * multiset of entries and every camera's estimate are restored.
   */
  lemma RegisterThenUnregister(objects: seq<ObjectId>, obj: ObjectId, camera: Camera, scene: Scene, quality: real)
    requires camera.aspect != 0.0
    ensures obj !in objects ==> RemoveFirst(objects + [obj], obj) == objects
    ensures multiset(RemoveFirst(objects + [obj], obj)) == multiset(objects)
    ensures EstimatedOverdraw(RemoveFirst(objects + [obj], obj), camera, scene, quality)
         == EstimatedOverdraw(objects, camera, scene, quality)
  {
    var s := objects + [obj];
    assert s[..|s| - 1] == objects;
    assert obj in s;
    RemoveFirstDropsContribution(s, obj, camera, scene, quality);
    if obj !in objects {
      assert IndexOf(s, obj) == |objects|;
    }
  }

  /**
   * The balance rate: no scaling when the camera's estimate is not
   * positive, otherwise budget / estimate, never above one. A rate below
   * one scales the estimate down to exactly the budget.
   */
  function BalancedRate(total: real, maxOverdraw: real): (rate: real)
    ensures rate <= 1.0
    ensures total <= 0.0 ==> rate == 1.0
    ensures rate < 1.0 ==> rate * total == maxOverdraw
  {
    var rate := Min(1.0, if total > 0.0 then maxOverdraw / total else 1.0);
    assert rate < 1.0 ==> rate * total == maxOverdraw by {
      if rate < 1.0 { assert total > 0.0 && rate == maxOverdraw / total; }
    }
    rate
  }

  /**
   * The balanced layer count: the expected count scaled by the rate, rounded
   * down. Once throttled, the admitted share of the expected count never
   * exceeds the budget's share of the estimate.
   */
  function BalancedLayerCount(total: real, maxOverdraw: real, expected: real): (n: int)
    ensures total <= 0.0 ==> n == expected.Floor
    ensures 0.0 < total && maxOverdraw < total && expected >= 0.0 ==> n as real * total <= maxOverdraw * expected
  {
    var rate := BalancedRate(total, maxOverdraw);
    var n := (rate * expected).Floor;
    assert 0.0 < total && maxOverdraw < total && expected >= 0.0 ==> n as real * total <= maxOverdraw * expected by {
      if 0.0 < total && maxOverdraw < total && expected >= 0.0 {
        QuotientAgainstOne(maxOverdraw, total);
        assert rate == maxOverdraw / total && rate * total == maxOverdraw;
        MulNonNegative(rate * expected - n as real, total);
        assert (rate * expected - n as real) * total == maxOverdraw * expected - n as real * total;
      }
    }
    n
  }

  /**
   * The rate never exceeds one and is non-negative under a non-negative
   * budget; it is exactly one when nothing needs throttling (the estimate is
   * within budget, or not positive even under a zero budget), and exactly
   * budget / estimate when the estimate exceeds the budget.
   */
  lemma BalancedRateCases(total: real, maxOverdraw: real)
    ensures BalancedRate(total, maxOverdraw) <= 1.0
    ensures maxOverdraw >= 0.0 ==> BalancedRate(total, maxOverdraw) >= 0.0
    ensures total <= 0.0 || total <= maxOverdraw ==> BalancedRate(total, maxOverdraw) == 1.0
    ensures 0.0 < total && maxOverdraw < total ==> BalancedRate(total, maxOverdraw) == maxOverdraw / total < 1.0
  {
    if total > 0.0 {
      QuotientAgainstOne(maxOverdraw, total);
    }
  }

  /** No scale-up: with a non-negative budget and expected count the result lies in [0, floor(expected)]. */
  lemma BalancedNeverScalesUp(total: real, maxOverdraw: real, expected: real)
    requires maxOverdraw >= 0.0 && expected >= 0.0
    ensures 0 <= BalancedLayerCount(total, maxOverdraw, expected) <= expected.Floor
  {
    BalancedRateCases(total, maxOverdraw);
    MulAtMostOne(expected, BalancedRate(total, maxOverdraw));
  }

  /** Unthrottled case: an estimate within budget, or not positive, admits floor(expected). */
  lemma BalancedUnthrottled(total: real, maxOverdraw: real, expected: real)
    requires total <= 0.0 || total <= maxOverdraw
    ensures BalancedLayerCount(total, maxOverdraw, expected) == expected.Floor
  {
    BalancedRateCases(total, maxOverdraw);
  }

  /** Throttled case: a positive estimate above the budget admits floor(budget / estimate * expected). */
  lemma BalancedThrottled(total: real, maxOverdraw: real, expected: real)
    requires 0.0 < total && maxOverdraw < total
    ensures BalancedLayerCount(total, maxOverdraw, expected) == (maxOverdraw / total * expected).Floor
  {
    BalancedRateCases(total, maxOverdraw);
  }

  /**
   * Nothing clamps the result: a negative budget under a positive estimate
   * gives a negative count to any object with a positive expected count.
   */
  lemma NegativeBudgetNegativeCount(total: real, maxOverdraw: real, expected: real)
    requires 0.0 < total && maxOverdraw < 0.0 && expected > 0.0
    ensures BalancedLayerCount(total, maxOverdraw, expected) < 0
  {
    BalancedRateCases(total, maxOverdraw);
    var rate := maxOverdraw / total;
    assert rate * total == maxOverdraw;
    if rate >= 0.0 {
      MulNonNegative(rate, total);
    }
    MulPositive(0.0 - rate, expected);
  }

  /** An object with relative height zero (not visible) is admitted no layers, whatever the totals. */
  lemma ZeroHeightGetsNoLayers(obj: ObjectId, camera: Camera, scene: Scene, quality: real, total: real, maxOverdraw: real)
    requires scene.relativeHeight(obj, camera) == 0.0
    ensures BalancedLayerCount(total, maxOverdraw, Expected(obj, camera, scene, quality)) == 0
  {
    assert Expected(obj, camera, scene, quality) == 0.0;
  }

  /**
   * The map the frame-begin pass builds: one entry per camera in the list,
   * each camera's estimate stored under its identity, a later entry for the
   * same identity replacing an earlier one.
   */
  function FrameEstimates(cameras: seq<Camera>, objects: seq<ObjectId>, scene: Scene, quality: real): (m: map<CameraId, real>)
    requires forall c :: c in cameras ==> c.aspect != 0.0
    ensures forall k :: k in m ==> exists c :: c in cameras && c.id == k
  {
    if cameras == [] then map[]
    else
      var last := cameras[|cameras| - 1];
      FrameEstimates(cameras[..|cameras| - 1], objects, scene, quality)[last.id := EstimatedOverdraw(objects, last, scene, quality)]
  }

  /** After a frame begins, exactly the cameras of that frame have an entry. */
  lemma {:induction false} FrameEstimatesKeys(cameras: seq<Camera>, objects: seq<ObjectId>, scene: Scene, quality: real)
    requires forall c :: c in cameras ==> c.aspect != 0.0
    ensures FrameEstimates(cameras, objects, scene, quality).Keys == set c | c in cameras :: c.id
  {
    if cameras != [] {
      var n := |cameras| - 1;
      var init := cameras[..n];
      assert cameras == init + [cameras[n]];
      FrameEstimatesKeys(init, objects, scene, quality);
      assert (set c | c in cameras :: c.id) == (set c | c in init :: c.id) + {cameras[n].id};
    }
  }

  /**
   * Each camera's entry holds the estimate computed for its last
   * appearance in the frame's camera list.
   */
  lemma {:induction false} FrameEstimatesLookup(cameras: seq<Camera>, i: nat, objects: seq<ObjectId>, scene: Scene, quality: real)
    requires forall c :: c in cameras ==> c.aspect != 0.0
    requires i < |cameras|
    requires forall j :: i < j < |cameras| ==> cameras[j].id != cameras[i].id
    ensures cameras[i].id in FrameEstimates(cameras, objects, scene, quality)
    ensures FrameEstimates(cameras, objects, scene, quality)[cameras[i].id] == EstimatedOverdraw(objects, cameras[i], scene, quality)
  {
    var n := |cameras| - 1;
    if i < n {
      var init := cameras[..n];
      assert cameras[n].id != cameras[i].id;
      assert forall c :: c in init ==> c in cameras;
      assert init[i] == cameras[i];
      FrameEstimatesLookup(init, i, objects, scene, quality);
    }
  }

  /**
   * The balancer's process-wide state: the quality multiplier, the
   * overdraw budget, the registry (a list, so duplicates are possible) and
   * the per-camera estimates of the current frame.
   */
  class FurLayerBalancer {
    var furQuality: real
    var maxOverdraw: real
    var estimatedOverdraw: map<CameraId, real>
    var objects: seq<ObjectId>

    /** Default quality 0.4, default budget 5.0, empty cache, empty registry. */
    constructor ()
      ensures furQuality == 0.4 && maxOverdraw == 5.0
      ensures estimatedOverdraw == map[] && objects == []
    {
      furQuality := 0.4;
      maxOverdraw := 5.0;
      estimatedOverdraw := map[];
      objects := [];
    }

    /**
     * Quality level `level` gives the multiplier 0.2 + 0.1 * level: the
     * default 0.4 is level 2, and each level up adds 0.1.
     */
    static function QualityOfLevel(level: int): (q: real)
      ensures level >= 0 ==> q >= 0.2
      ensures q == 0.4 <==> level == 2
      ensures level < 0 <==> q < 0.2
    {
      0.2 + 0.1 * level as real
    }

    method SetFurQuality(level: int)
      modifies this`furQuality
      ensures furQuality == QualityOfLevel(level)
    {
      furQuality := QualityOfLevel(level);
    }

    /** The budget is stored unchanged; nothing is range-checked. */
    method SetMaxOverdraw(overdraw: real)
      modifies this`maxOverdraw
      ensures maxOverdraw == overdraw
    {
      maxOverdraw := overdraw;
    }

    /** Sums every registry entry's contribution for `camera` and stores the total under its identity. */
    method CalcEstimatedOverdraw(camera: Camera, scene: Scene)
      requires camera.aspect != 0.0
      modifies this`estimatedOverdraw
      ensures estimatedOverdraw == old(estimatedOverdraw)[camera.id := EstimatedOverdraw(objects, camera, scene, furQuality)]
    {
      var overdraw := 0.0;
      var i := 0;
      while i < |objects|
        invariant 0 <= i <= |objects|
        invariant overdraw == EstimatedOverdraw(objects[..i], camera, scene, furQuality)
        invariant estimatedOverdraw == old(estimatedOverdraw)
      {
        var obj := objects[i];
        var relativeHeight := scene.relativeHeight(obj, camera);
        var relativeWidth := relativeHeight / camera.aspect;
        var expectedLayerCount := ExpectedLayerCount(scene.furLength(obj), camera, relativeHeight, furQuality);
        var screenOccupancy := Min(1.0, relativeHeight) * Min(1.0, relativeWidth);
        ContributionAsComputed(obj, camera, scene, furQuality, screenOccupancy, expectedLayerCount);
        overdraw := overdraw + screenOccupancy * expectedLayerCount;
        assert overdraw == EstimatedOverdraw(objects[..i + 1], camera, scene, furQuality) by {
          EstimatedOverdrawStep(objects, i, camera, scene, furQuality);
        }
        i := i + 1;
      }
      assert objects[..i] == objects;
      estimatedOverdraw := estimatedOverdraw[camera.id := overdraw];
    }

    /**
     * Frame begin: the cache is cleared and rebuilt from the cameras of
     * this frame only.
     */
    method OnBeginFrameRendering(cameras: seq<Camera>, scene: Scene)
      requires forall c :: c in cameras ==> c.aspect != 0.0
      modifies this`estimatedOverdraw
      ensures estimatedOverdraw == FrameEstimates(cameras, objects, scene, furQuality)
      ensures estimatedOverdraw.Keys == set c | c in cameras :: c.id
      ensures forall i :: 0 <= i < |cameras| && (forall j :: i < j < |cameras| ==> cameras[j].id != cameras[i].id) ==>
                estimatedOverdraw[cameras[i].id] == EstimatedOverdraw(objects, cameras[i], scene, furQuality)
    {
      estimatedOverdraw := map[];
      var i := 0;
      while i < |cameras|
        invariant 0 <= i <= |cameras|
        invariant estimatedOverdraw == FrameEstimates(cameras[..i], objects, scene, furQuality)
      {
        assert cameras[..i + 1][..i] == cameras[..i];
        CalcEstimatedOverdraw(cameras[i], scene);
        i := i + 1;
      }
      assert cameras[..i] == cameras;
      FrameEstimatesKeys(cameras, objects, scene, furQuality);
      forall i | 0 <= i < |cameras| && (forall j :: i < j < |cameras| ==> cameras[j].id != cameras[i].id)
        ensures estimatedOverdraw[cameras[i].id] == EstimatedOverdraw(objects, cameras[i], scene, furQuality)
      {
        FrameEstimatesLookup(cameras, i, objects, scene, furQuality);
      }
    }

    /**
     * The admitted layer count of `obj` under `camera`: zero for a camera
     * without an estimate this frame (fail-closed), otherwise the expected
     * count, asked afresh, scaled by the balance rate and rounded down.
     */
    function GetBalancedLayerCount(camera: Camera, obj: ObjectId, scene: Scene): (n: int)
      reads this
      ensures camera.id !in estimatedOverdraw ==> n == 0
      ensures camera.id in estimatedOverdraw && maxOverdraw >= 0.0 && Expected(obj, camera, scene, furQuality) >= 0.0 ==>
                0 <= n <= Expected(obj, camera, scene, furQuality).Floor
      ensures camera.id in estimatedOverdraw && (estimatedOverdraw[camera.id] <= 0.0 || estimatedOverdraw[camera.id] <= maxOverdraw) ==>
                n == Expected(obj, camera, scene, furQuality).Floor
      ensures camera.id in estimatedOverdraw && 0.0 < estimatedOverdraw[camera.id] && maxOverdraw < estimatedOverdraw[camera.id] ==>
                n == (maxOverdraw / estimatedOverdraw[camera.id] * Expected(obj, camera, scene, furQuality)).Floor
      ensures camera.id in estimatedOverdraw && 0.0 < estimatedOverdraw[camera.id] && maxOverdraw < 0.0 && Expected(obj, camera, scene, furQuality) > 0.0 ==>
                n < 0
    {
      if camera.id in estimatedOverdraw then
        var total := estimatedOverdraw[camera.id];
        var expected := Expected(obj, camera, scene, furQuality);
        BalancedRateCases(total, maxOverdraw);
        assert maxOverdraw >= 0.0 && expected >= 0.0 ==> 0 <= BalancedLayerCount(total, maxOverdraw, expected) <= expected.Floor by {
          if maxOverdraw >= 0.0 && expected >= 0.0 { BalancedNeverScalesUp(total, maxOverdraw, expected); }
        }
        assert 0.0 < total && maxOverdraw < 0.0 && expected > 0.0 ==> BalancedLayerCount(total, maxOverdraw, expected) < 0 by {
          if 0.0 < total && maxOverdraw < 0.0 && expected > 0.0 { NegativeBudgetNegativeCount(total, maxOverdraw, expected); }
        }
        BalancedLayerCount(total, maxOverdraw, expected)
      else
        0
    }

    /** List.Add: the object is appended, once more if already present. */
    method Register(obj: ObjectId)
      modifies this`objects
      ensures objects == old(objects) + [obj]
    {
      objects := objects + [obj];
    }

    /** List.Remove: the first occurrence goes; an absent object leaves the list unchanged. */
    method Unregister(obj: ObjectId)
      modifies this`objects
      ensures objects == RemoveFirst(old(objects), obj)
    {
      var i := IndexOf(objects, obj);
      if i < |objects| {
        objects := objects[..i] + objects[i + 1..];
      }
    }
  }
}
