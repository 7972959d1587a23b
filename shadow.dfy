/**
 * The shadow tester (castShadow): walk the object list in order, skip the
 * object that was hit, and let the first object whose hit lies in front of
 * the shadow ray's origin decide how much light gets through.
 */
module Shadow {
  import opened Types
  import opened Objects

  /** An object's hit blocks the light when it exists and lies at a positive distance. */
  predicate Occludes(i: Intersect) { i.isIntersecting && i.dist > 0.0 }

  /** No object other than hitObject occludes. */
  predicate Unoccluded(hits: seq<Intersect>, hitObject: nat) {
    forall j :: 0 <= j < |hits| && j != hitObject ==> !Occludes(hits[j])
  }

  /** The first index from k on, other than hitObject, whose hit occludes. */
  function FirstOccluder(hits: seq<Intersect>, hitObject: nat, k: nat): (r: Option<nat>)
    requires k <= |hits|
    decreases |hits| - k
    ensures r.Some? ==> k <= r.value < |hits| && r.value != hitObject && Occludes(hits[r.value])
    ensures r.Some? ==> forall j :: k <= j < r.value && j != hitObject ==> !Occludes(hits[j])
    ensures r.None? ==> forall j :: k <= j < |hits| && j != hitObject ==> !Occludes(hits[j])
  {
    if k == |hits| then None
    else if k != hitObject && Occludes(hits[k]) then Some(k)
    else FirstOccluder(hits, hitObject, k + 1)
  }

  /**
   * The occluder's distance over the light's distance, clamped to 1. When the
   * light sits on the shadow origin the float division gives +infinity, which
   * the clamp turns into 1; that case is written out.
   */
  function ShadowRatio(dist: real, lightDistance: real): real {
    var ratio := if lightDistance == 0.0 then 1.0 else dist / lightDistance;
    Min(1.0, ratio)
  }

  /** The factor castShadow returns for the given per-object hits. */
  function ShadowOf(hits: seq<Intersect>, hitObject: nat, lightDistance: real): real {
    match FirstOccluder(hits, hitObject, 0)
    case None => 1.0
    case Some(j) => 1.0 - ShadowRatio(hits[j].dist, lightDistance)
  }

  /** castShadow(shadowOrigin, lightDir, hitObject) against a scene and its light. */
  function ShadowFactor(ext: Externals, scene: seq<SceneObject>, light: Light,
                        shadowOrigin: Vec3, lightDir: Vec3, hitObject: nat): real
  {
    ShadowOf(Hits(ext, scene, shadowOrigin, lightDir), hitObject,
             ext.length(Sub(light.position, shadowOrigin)))
  }

  /** The scan as main.cpp runs it: intersect lazily and return at the first occluder. */
  method CastShadow(ext: Externals, scene: seq<SceneObject>, light: Light,
                    shadowOrigin: Vec3, lightDir: Vec3, hitObject: nat) returns (s: real)
    ensures s == ShadowFactor(ext, scene, light, shadowOrigin, lightDir, hitObject)
  {
    ghost var hits := Hits(ext, scene, shadowOrigin, lightDir);
    var k := 0;
    while k < |scene|
      invariant 0 <= k <= |scene|
      invariant FirstOccluder(hits, hitObject, k) == FirstOccluder(hits, hitObject, 0)
    {
      if k != hitObject {
        var shadowIntersect := ObjectIntersect(ext, scene[k], shadowOrigin, lightDir);
        HitAt(ext, scene, shadowOrigin, lightDir, k);
        if shadowIntersect.isIntersecting && shadowIntersect.dist > 0.0 {
          var lightDistance := ext.length(Sub(light.position, shadowOrigin));
          var shadowRatio := if lightDistance == 0.0 then 1.0 else shadowIntersect.dist / lightDistance;
          shadowRatio := Min(1.0, shadowRatio);
          return 1.0 - shadowRatio;
        }
      }
      k := k + 1;
    }
    return 1.0;
  }

  /** The factor is exactly 1 (fully lit) if and only if no object but the hit one occludes. */
  lemma FullyLitIffNoOccluder(ext: Externals, scene: seq<SceneObject>, light: Light,
                              shadowOrigin: Vec3, lightDir: Vec3, hitObject: nat)
    ensures ShadowFactor(ext, scene, light, shadowOrigin, lightDir, hitObject) == 1.0 <==>
      Unoccluded(Hits(ext, scene, shadowOrigin, lightDir), hitObject)
  {
    var hits := Hits(ext, scene, shadowOrigin, lightDir);
    FullIffNoOccluder(hits, hitObject, ext.length(Sub(light.position, shadowOrigin)));
    NoOccluderIffUnoccluded(hits, hitObject);
  }

  /** The scan finds nothing exactly when nothing occludes. */
  lemma NoOccluderIffUnoccluded(hits: seq<Intersect>, hitObject: nat)
    ensures FirstOccluder(hits, hitObject, 0).None? <==> Unoccluded(hits, hitObject)
  {
    var first := FirstOccluder(hits, hitObject, 0);
    if first.Some? {
      assert !Occludes(hits[first.value]) ==> !Unoccluded(hits, hitObject);
    }
  }

  /** On the hit list itself: the factor is 1 exactly when the scan finds no occluder. */
  lemma FullIffNoOccluder(hits: seq<Intersect>, hitObject: nat, lightDistance: real)
    ensures ShadowOf(hits, hitObject, lightDistance) == 1.0 <==> FirstOccluder(hits, hitObject, 0).None?
  {
    var first := FirstOccluder(hits, hitObject, 0);
    if first.Some? {
      var d := hits[first.value].dist;
      if 0.0 < lightDistance {
        assert 0.0 < d / lightDistance;
      } else if lightDistance < 0.0 {
        assert d / lightDistance < 0.0;
      }
      assert ShadowRatio(d, lightDistance) != 0.0;
    }
  }

  /**
   * The factor always lies in [0, 1]; once an occluder is found and the light
   * is not at the shadow origin, it lies in [0, 1).
   */
  lemma ShadowFactorInUnitInterval(ext: Externals, scene: seq<SceneObject>, light: Light,
                                   shadowOrigin: Vec3, lightDir: Vec3, hitObject: nat)
    ensures var s := ShadowFactor(ext, scene, light, shadowOrigin, lightDir, hitObject);
      0.0 <= s <= 1.0
    ensures var hits := Hits(ext, scene, shadowOrigin, lightDir);
      FirstOccluder(hits, hitObject, 0).Some? && light.position != shadowOrigin ==>
      0.0 <= ShadowFactor(ext, scene, light, shadowOrigin, lightDir, hitObject) < 1.0
  {
    var hits := Hits(ext, scene, shadowOrigin, lightDir);
    var lightDistance := ext.length(Sub(light.position, shadowOrigin));
    var first := FirstOccluder(hits, hitObject, 0);
    if first.Some? {
      var d := hits[first.value].dist;
      if lightDistance != 0.0 {
        assert 0.0 < d / lightDistance;
      }
      assert 0.0 < ShadowRatio(d, lightDistance) <= 1.0;
    }
  }

  /** Objects appended after an occluder never change which occluder is found first. */
  lemma {:induction false} FirstOccluderIgnoresLaterObjects(hits: seq<Intersect>, more: seq<Intersect>,
                                                            hitObject: nat, k: nat)
    requires k <= |hits|
    requires FirstOccluder(hits, hitObject, k).Some?
    ensures FirstOccluder(hits + more, hitObject, k) == FirstOccluder(hits, hitObject, k)
    decreases |hits| - k
  {
    assert (hits + more)[k] == hits[k];
    if !(k != hitObject && Occludes(hits[k])) {
      FirstOccluderIgnoresLaterObjects(hits, more, hitObject, k + 1);
    }
  }

  /** Only the first occluder in list order decides the factor. */
  lemma OnlyFirstOccluderCounts(hits: seq<Intersect>, more: seq<Intersect>, hitObject: nat, lightDistance: real)
    requires FirstOccluder(hits, hitObject, 0).Some?
    ensures ShadowOf(hits + more, hitObject, lightDistance) == ShadowOf(hits, hitObject, lightDistance)
  {
    FirstOccluderIgnoresLaterObjects(hits, more, hitObject, 0);
    var j := FirstOccluder(hits, hitObject, 0).value;
    assert (hits + more)[j] == hits[j];
  }

  /** Objects pushed after the first occluder of a scene leave castShadow's factor unchanged. */
  lemma LaterObjectsLeaveShadowUnchanged(ext: Externals, scene: seq<SceneObject>, extra: seq<SceneObject>,
                                         light: Light, shadowOrigin: Vec3, lightDir: Vec3, hitObject: nat)
    requires FirstOccluder(Hits(ext, scene, shadowOrigin, lightDir), hitObject, 0).Some?
    ensures ShadowFactor(ext, scene + extra, light, shadowOrigin, lightDir, hitObject) ==
            ShadowFactor(ext, scene, light, shadowOrigin, lightDir, hitObject)
  {
    HitsAppend(ext, scene, extra, shadowOrigin, lightDir);
    OnlyFirstOccluderCounts(Hits(ext, scene, shadowOrigin, lightDir), Hits(ext, extra, shadowOrigin, lightDir),
                            hitObject, ext.length(Sub(light.position, shadowOrigin)));
  }
}
