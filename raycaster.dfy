/**
 * The recursive ray caster (castRay): pick the nearest object the ray hits,
 * fall back to the skybox on a miss or at the recursion limit, and otherwise
 * shade the hit with diffuse and specular light attenuated by castShadow,
 * mixed with the colours of a reflected and a refracted ray.
 */
module RayCaster {
  import opened Types
  import opened Objects
  import opened Shadow
  import Skybox

  /**
   * The globals castRay reads: the collaborators, the object list, the light,
   * the build settings, and the sky colour castRay falls back to, which
   * SkyIsSkybox pins to Skybox::getColor.
   */
  datatype World = World(ext: Externals, scene: seq<SceneObject>, light: Light, settings: Settings,
                         sky: (Vec3, Vec3) -> Color)

  /** The world's sky is the textured skybox of skybox.h. */
  ghost predicate SkyIsSkybox(w: World) {
    forall o: Vec3, d: Vec3 {:trigger Skybox.GetColor(w.ext, o, d)} :: w.sky(o, d) == Skybox.GetColor(w.ext, o, d)
  }

  /**
   * The arguments of one castRay call. The object to skip (currentObj, an
   * Object* in the source) is its index in the object list, or None for nullptr.
   */
  datatype RayCall = RayCall(origin: Vec3, direction: Vec3, recursion: nat, exclude: Option<nat>)

  /** Every call made from render starts at depth 0 and each bounce adds 1, so no call exceeds the limit. */
  predicate Within(w: World, call: RayCall) { call.recursion <= w.settings.maxRecursion }

  // ------------------------------------------------------------ nearest hit

  /** The three variables the selection loop updates: zBuffer, hitObject and intersect. */
  datatype Selection = Selection(zBuffer: real, hitObject: Option<nat>, intersect: Intersect)

  /** The initial depth bound: hits at this distance or farther are never selected. */
  const ZBufferStart: real := 99999.0

  const Unselected: Selection := Selection(ZBufferStart, None, NoHit)

  /** The loop's test: a hit, closer than the current bound, on an object other than the skipped one. */
  predicate Eligible(i: Intersect, zBuffer: real, index: nat, exclude: Option<nat>) {
    i.isIntersecting && i.dist < zBuffer && exclude != Some(index)
  }

  /** The selection after the loop has visited the first k objects. */
  function ScanNearest(hits: seq<Intersect>, exclude: Option<nat>, k: nat): (s: Selection)
    requires k <= |hits|
    ensures s.hitObject.Some? <==> s.intersect.isIntersecting
    ensures s.hitObject.None? ==> s == Unselected
    ensures s.hitObject.Some? ==>
      var h := s.hitObject.value;
      h < k && exclude != Some(h) && s.intersect == hits[h] &&
      s.zBuffer == hits[h].dist && hits[h].dist < ZBufferStart
  {
    if k == 0 then Unselected
    else
      var s := ScanNearest(hits, exclude, k - 1);
      if Eligible(hits[k - 1], s.zBuffer, k - 1, exclude)
      then Selection(hits[k - 1].dist, Some(k - 1), hits[k - 1])
      else s
  }

  /**
   * The final bound is at most the distance of every hit on a non-skipped
   * object, and strictly below the distance of every such hit earlier in
   * the list than the selected one: ties go to the first object.
   */
  lemma {:induction false} ScanNearestSelectsClosest(hits: seq<Intersect>, exclude: Option<nat>, k: nat)
    requires k <= |hits|
    ensures var s := ScanNearest(hits, exclude, k);
      forall j :: 0 <= j < k && exclude != Some(j) && hits[j].isIntersecting ==>
        s.zBuffer <= hits[j].dist &&
        (s.hitObject.Some? && j < s.hitObject.value ==> s.zBuffer < hits[j].dist)
  {
    if k > 0 {
      ScanNearestSelectsClosest(hits, exclude, k - 1);
    }
  }

  /** The selection castRay makes for a call. */
  function Nearest(w: World, call: RayCall): (s: Selection)
    ensures s.hitObject.Some? ==> s.hitObject.value < |w.scene|
  {
    ScanNearest(Hits(w.ext, w.scene, call.origin, call.direction), call.exclude, |w.scene|)
  }

  /** Nothing is selected exactly when every hit on a non-skipped object lies at 99999 or beyond. */
  lemma NothingSelectedIffNoCloseHit(w: World, call: RayCall)
    ensures var hits := Hits(w.ext, w.scene, call.origin, call.direction);
      Nearest(w, call).hitObject.None? <==>
      forall j :: 0 <= j < |w.scene| && call.exclude != Some(j) && hits[j].isIntersecting ==>
        ZBufferStart <= hits[j].dist
  {
    var hits := Hits(w.ext, w.scene, call.origin, call.direction);
    ScanNearestSelectsClosest(hits, call.exclude, |w.scene|);
  }

  /** The selected object is a hit on a non-skipped object that no other such hit beats. */
  lemma SelectedIsClosest(w: World, call: RayCall)
    requires Nearest(w, call).hitObject.Some?
    ensures var hits := Hits(w.ext, w.scene, call.origin, call.direction);
      var h := Nearest(w, call).hitObject.value;
      && call.exclude != Some(h) && hits[h].isIntersecting && Nearest(w, call).intersect == hits[h]
      && (forall j :: 0 <= j < |w.scene| && call.exclude != Some(j) && hits[j].isIntersecting ==>
            hits[h].dist <= hits[j].dist && (j < h ==> hits[h].dist < hits[j].dist))
  {
    var hits := Hits(w.ext, w.scene, call.origin, call.direction);
    ScanNearestSelectsClosest(hits, call.exclude, |w.scene|);
  }

  /** castRay returns the skybox colour when nothing was selected or the depth limit is reached. */
  predicate ReturnsSky(w: World, call: RayCall) {
    !Nearest(w, call).intersect.isIntersecting || call.recursion == w.settings.maxRecursion
  }

  // ---------------------------------------------------------------- shading

  function LightDir(w: World, i: Intersect): Vec3 {
    w.ext.normalize(Sub(w.light.position, i.point))
  }

  function ViewDir(w: World, call: RayCall, i: Intersect): Vec3 {
    w.ext.normalize(Sub(call.origin, i.point))
  }

  /** The mirror direction, computed from the normalised ray origin as main.cpp writes it. */
  function ReflectDir(w: World, call: RayCall, i: Intersect): Vec3 {
    w.ext.reflect(Neg(w.ext.normalize(call.origin)), i.normal)
  }

  /** A colour scaled, left to right, by the light intensity, a lighting term, an albedo and the shadow factor. */
  function Shaded(base: Color, intensity: real, strength: real, albedo: real, shadow: real): Color {
    Times(Times(Times(Times(base, intensity), strength), albedo), shadow)
  }

  /** The diffuse plus specular light at the selected hit h. */
  function DirectLight(w: World, call: RayCall, h: nat, i: Intersect): Color
    requires h < |w.scene|
  {
    var lightDir := LightDir(w, i);
    var shadow := ShadowFactor(w.ext, w.scene, w.light, i.point, lightDir, h);
    var mat := w.scene[h].material;
    var diffuse := Max(0.0, Dot(i.normal, lightDir));
    var spec := w.ext.pow(Max(0.0, Dot(ViewDir(w, call, i), ReflectDir(w, call, i))), mat.specularCoefficient);
    var materialLight := if i.hasColor then i.color else mat.diffuse;
    Plus(Shaded(materialLight, w.light.intensity, diffuse, mat.albedo, shadow),
         Shaded(w.light.color, w.light.intensity, spec, mat.specularAlbedo, shadow))
  }

  /** The final mix: direct light weighted by 1 - reflectivity - transparency, plus the two secondary colours. */
  function Combine(direct: Color, reflected: Color, refracted: Color, mat: Material): Color {
    Plus(Plus(Times(direct, 1.0 - mat.reflectivity - mat.transparency),
              Times(reflected, mat.reflectivity)),
         Times(refracted, mat.transparency))
  }

  /** A point the shadow test finds fully blocked gets no diffuse and no specular light. */
  lemma FullShadowGivesNoDirectLight(w: World, call: RayCall, h: nat, i: Intersect)
    requires h < |w.scene|
    requires ShadowFactor(w.ext, w.scene, w.light, i.point, LightDir(w, i), h) == 0.0
    ensures DirectLight(w, call, h, i) == Black
  {
  }

  /** The mix is a weighted average: when all three colours agree, it returns that colour. */
  lemma CombineOfEqualColors(c: Color, mat: Material)
    ensures Combine(c, c, c, mat) == c
  {
    var r, t := mat.reflectivity, mat.transparency;
    assert c.r * (1.0 - r - t) + c.r * r + c.r * t == c.r;
    assert c.g * (1.0 - r - t) + c.g * r + c.g * t == c.g;
    assert c.b * (1.0 - r - t) + c.b * r + c.b * t == c.b;
  }

  /** A material that neither reflects nor transmits shows its direct light unchanged. */
  lemma OpaqueCombineIsDirect(direct: Color, reflected: Color, refracted: Color, mat: Material)
    requires mat.reflectivity == 0.0 && mat.transparency == 0.0
    ensures Combine(direct, reflected, refracted, mat) == direct
  {
  }

  // ------------------------------------------------------- secondary rays

  /** The reflected ray leaves the hit point pushed off the surface by the bias along the normal. */
  function ReflectOrigin(w: World, i: Intersect): Vec3 {
    Add(i.point, Scale(i.normal, w.settings.bias))
  }

  /** The refracted ray leaves the hit point pushed into the surface by the bias. */
  function RefractOrigin(w: World, i: Intersect): Vec3 {
    Sub(i.point, Scale(i.normal, w.settings.bias))
  }

  function RefractDir(w: World, call: RayCall, i: Intersect, mat: Material): Vec3 {
    w.ext.refract(call.direction, i.normal, mat.refractionIndex)
  }

  /** The reflected ray, cast only when the material's reflectivity is positive. */
  function ReflectionCall(w: World, call: RayCall, h: nat, i: Intersect): (r: Option<RayCall>)
    requires h < |w.scene|
    ensures r.Some? <==> w.scene[h].material.reflectivity > 0.0
    ensures r.Some? ==> r.value.recursion == call.recursion + 1 && r.value.exclude == Some(h)
  {
    if w.scene[h].material.reflectivity > 0.0
    then Some(RayCall(ReflectOrigin(w, i), ReflectDir(w, call, i), call.recursion + 1, Some(h)))
    else None
  }

  /** The refracted ray, cast only when the material's transparency is positive. */
  function RefractionCall(w: World, call: RayCall, h: nat, i: Intersect): (r: Option<RayCall>)
    requires h < |w.scene|
    ensures r.Some? <==> w.scene[h].material.transparency > 0.0
    ensures r.Some? ==> r.value.recursion == call.recursion + 1 && r.value.exclude == Some(h)
  {
    var mat := w.scene[h].material;
    if mat.transparency > 0.0
    then Some(RayCall(RefractOrigin(w, i), RefractDir(w, call, i, mat), call.recursion + 1, Some(h)))
    else None
  }

  /** The colour castRay returns for a call. */
  function Trace(w: World, call: RayCall): Color
    requires Within(w, call)
    decreases w.settings.maxRecursion - call.recursion, 1, 0
  {
    if ReturnsSky(w, call) then w.sky(call.origin, call.direction)
    else
      var s := Nearest(w, call);
      Shade(w, call, s.hitObject.value, s.intersect)
  }

  /** The colour of a hit on object h below the limit: direct light mixed with the two secondary colours. */
  function Shade(w: World, call: RayCall, h: nat, i: Intersect): Color
    requires call.recursion < w.settings.maxRecursion && h < |w.scene|
    decreases w.settings.maxRecursion - call.recursion, 0, 1
  {
    Combine(DirectLight(w, call, h, i),
            SecondaryColor(w, call, ReflectionCall(w, call, h, i)),
            SecondaryColor(w, call, RefractionCall(w, call, h, i)),
            w.scene[h].material)
  }

  /** c is the colour castRay returns for the call. */
  ghost predicate Traced(w: World, call: RayCall, c: Color)
    requires Within(w, call)
  {
    c == Trace(w, call)
  }

  /** The colour of a secondary ray of a call: black when the ray is not cast. */
  function SecondaryColor(w: World, call: RayCall, next: Option<RayCall>): Color
    requires call.recursion < w.settings.maxRecursion
    requires next.Some? ==> next.value.recursion == call.recursion + 1
    decreases w.settings.maxRecursion - call.recursion, 0, 0
  {
    match next
    case None => Black
    case Some(c) => Trace(w, c)
  }

  /**
   * The deepest recursion level the call tree of a call reaches: never below
   * the call's own level and never beyond MAX_RECURSION.
   */
  function Depth(w: World, call: RayCall): (d: nat)
    requires Within(w, call)
    ensures call.recursion <= d <= w.settings.maxRecursion
    ensures ReturnsSky(w, call) ==> d == call.recursion
    decreases w.settings.maxRecursion - call.recursion
  {
    if ReturnsSky(w, call) then call.recursion
    else
      var s := Nearest(w, call);
      var h := s.hitObject.value;
      var a := match ReflectionCall(w, call, h, s.intersect)
        case None => call.recursion
        case Some(c) => Depth(w, c);
      var b := match RefractionCall(w, call, h, s.intersect)
        case None => call.recursion
        case Some(c) => Depth(w, c);
      if a < b then b else a
  }

  /** A secondary ray skips the object it leaves, so it never selects that object again. */
  lemma SecondaryRaySkipsItsObject(w: World, call: RayCall)
    requires Within(w, call) && !ReturnsSky(w, call)
    ensures var s := Nearest(w, call);
      var h := s.hitObject.value;
      && (ReflectionCall(w, call, h, s.intersect).Some? ==>
            Nearest(w, ReflectionCall(w, call, h, s.intersect).value).hitObject != Some(h))
      && (RefractionCall(w, call, h, s.intersect).Some? ==>
            Nearest(w, RefractionCall(w, call, h, s.intersect).value).hitObject != Some(h))
  {
    var s := Nearest(w, call);
    var h := s.hitObject.value;
    var reflection := ReflectionCall(w, call, h, s.intersect);
    var refraction := RefractionCall(w, call, h, s.intersect);
    if reflection.Some? {
      NearestSkipsExcluded(w, reflection.value);
    }
    if refraction.Some? {
      NearestSkipsExcluded(w, refraction.value);
    }
  }

  /** The selection never picks the object the call skips. */
  lemma NearestSkipsExcluded(w: World, call: RayCall)
    ensures call.exclude.Some? ==> Nearest(w, call).hitObject != call.exclude
  {
  }

  /** When no object is hit closer than 99999, or the limit is reached, the ray shows the skybox. */
  lemma SkyWhenNothingHitOrAtLimit(w: World, call: RayCall)
    requires Within(w, call) && SkyIsSkybox(w)
    requires var hits := Hits(w.ext, w.scene, call.origin, call.direction);
      (forall j :: 0 <= j < |w.scene| && call.exclude != Some(j) && hits[j].isIntersecting ==>
         ZBufferStart <= hits[j].dist)
      || call.recursion == w.settings.maxRecursion
    ensures Trace(w, call) == Skybox.GetColor(w.ext, call.origin, call.direction)
    ensures Depth(w, call) == call.recursion
  {
    NothingSelectedIffNoCloseHit(w, call);
  }

  /**
   * A hit on a material with zero reflectivity and zero transparency casts
   * no secondary ray and shows exactly its direct light.
   */
  lemma OpaqueHitIsDirectLight(w: World, call: RayCall)
    requires Within(w, call) && !ReturnsSky(w, call)
    requires var m := w.scene[Nearest(w, call).hitObject.value].material;
      m.reflectivity == 0.0 && m.transparency == 0.0
    ensures var s := Nearest(w, call);
      Trace(w, call) == DirectLight(w, call, s.hitObject.value, s.intersect)
    ensures Depth(w, call) == call.recursion
  {
    var s := Nearest(w, call);
    var h := s.hitObject.value;
    OpaqueCombineIsDirect(DirectLight(w, call, h, s.intersect), Black, Black, w.scene[h].material);
  }

  /** The selection loop at the head of castRay: visit every object and keep the nearest eligible hit. */
  method SelectNearest(w: World, call: RayCall) returns (zBuffer: real, hitObject: Option<nat>, intersect: Intersect)
    ensures Selection(zBuffer, hitObject, intersect) == Nearest(w, call)
  {
    zBuffer := ZBufferStart;
    hitObject := None;
    intersect := NoHit;
    ghost var hits := Hits(w.ext, w.scene, call.origin, call.direction);
    var k := 0;
    while k < |w.scene|
      invariant 0 <= k <= |w.scene|
      invariant Selection(zBuffer, hitObject, intersect) == ScanNearest(hits, call.exclude, k)
    {
      var i := ObjectIntersect(w.ext, w.scene[k], call.origin, call.direction);
      HitAt(w.ext, w.scene, call.origin, call.direction, k);
      assert i == hits[k];
      if Eligible(i, zBuffer, k, call.exclude) {
        zBuffer := i.dist;
        hitObject := Some(k);
        intersect := i;
      }
      k := k + 1;
    }
  }

  /** castRay itself: the selection loop, then either the sky or the shading of the nearest hit. */
  method CastRay(w: World, call: RayCall) returns (color: Color)
    requires Within(w, call)
    ensures Traced(w, call, color)
    decreases w.settings.maxRecursion - call.recursion, 2
  {
    var zBuffer, hitObject, intersect := SelectNearest(w, call);

    if !intersect.isIntersecting || call.recursion == w.settings.maxRecursion {
      assert ReturnsSky(w, call);
      return w.sky(call.origin, call.direction);
    }
    assert !ReturnsSky(w, call);
    color := ShadeHit(w, call, hitObject.value, intersect);
  }

  /**
   * The rest of castRay once an object h was hit below the recursion limit:
   * the direct light, then the recursive reflected and refracted rays,
   * mixed by the material.
   */
  method ShadeHit(w: World, call: RayCall, h: nat, intersect: Intersect) returns (color: Color)
    requires Within(w, call) && call.recursion < w.settings.maxRecursion && h < |w.scene|
    ensures color == Shade(w, call, h, intersect)
    decreases w.settings.maxRecursion - call.recursion, 1
  {
    var direct := DirectLightAt(w, call, h, intersect);
    var reflectedColor := CastReflection(w, call, h, intersect);
    var refractedColor := CastRefraction(w, call, h, intersect);
    color := Combine(direct, reflectedColor, refractedColor, w.scene[h].material);
  }

  /**
   * castRay's local lighting: the light, view and mirror directions, the
   * shadow scan, and the diffuse and specular terms it attenuates.
   */
  method DirectLightAt(w: World, call: RayCall, h: nat, intersect: Intersect) returns (light: Color)
    requires h < |w.scene|
    ensures light == DirectLight(w, call, h, intersect)
  {
    var lightDir := LightDir(w, intersect);
    var viewDir := ViewDir(w, call, intersect);
    var reflectDir := ReflectDir(w, call, intersect);

    var shadowIntensity := CastShadow(w.ext, w.scene, w.light, intersect.point, lightDir, h);

    var diffuseLightIntensity := Max(0.0, Dot(intersect.normal, lightDir));
    var mat := w.scene[h].material;
    var specLightIntensity := w.ext.pow(Max(0.0, Dot(viewDir, reflectDir)), mat.specularCoefficient);

    var materialLight := if intersect.hasColor then intersect.color else mat.diffuse;
    var diffuseLight := Shaded(materialLight, w.light.intensity, diffuseLightIntensity, mat.albedo, shadowIntensity);
    var specularLight := Shaded(w.light.color, w.light.intensity, specLightIntensity, mat.specularAlbedo, shadowIntensity);
    light := Plus(diffuseLight, specularLight);
  }

  /** castRay's reflection step: a reflective material casts the reflected ray one level deeper. */
  method CastReflection(w: World, call: RayCall, h: nat, intersect: Intersect) returns (reflectedColor: Color)
    requires Within(w, call) && call.recursion < w.settings.maxRecursion && h < |w.scene|
    ensures reflectedColor == SecondaryColor(w, call, ReflectionCall(w, call, h, intersect))
    decreases w.settings.maxRecursion - call.recursion, 0
  {
    reflectedColor := Black;
    var reflection := ReflectionCall(w, call, h, intersect);
    if reflection.Some? {
      reflectedColor := CastRay(w, reflection.value);
    }
  }

  /** castRay's refraction step: a transparent material casts the refracted ray one level deeper. */
  method CastRefraction(w: World, call: RayCall, h: nat, intersect: Intersect) returns (refractedColor: Color)
    requires Within(w, call) && call.recursion < w.settings.maxRecursion && h < |w.scene|
    ensures refractedColor == SecondaryColor(w, call, RefractionCall(w, call, h, intersect))
    decreases w.settings.maxRecursion - call.recursion, 0
  {
    refractedColor := Black;
    var refraction := RefractionCall(w, call, h, intersect);
    if refraction.Some? {
      refractedColor := CastRay(w, refraction.value);
    }
  }
}
