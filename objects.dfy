/**
 * The scene objects: cubes that share Cube::rayIntersect and differ only in
 * the texture they paint on each face (the Diamond, Grass, Leaf, Oak and
 * Plank subclasses of main.cpp). The five overrides are one routine here,
 * parameterised by the skin.
 */
module Objects {
  import opened Types

  datatype Skin = Diamond | Grass | Leaf | Oak | Plank

  datatype SceneObject = SceneObject(skin: Skin, box: Box, material: Material)

  /** The branch of a skin's if/else-if chain that a hit point takes. */
  datatype CubeFace = Top | ZSide | XSide | Untextured

  /** Top face first, then the two z faces, then the two x faces; anything else is left alone. */
  function FaceOf(p: Vec3, box: Box): CubeFace {
    if Near(p.y, box.maxBound.y) then Top
    else if Near(p.z, box.maxBound.z) || Near(p.z, box.minBound.z) then ZSide
    else if Near(p.x, box.minBound.x) || Near(p.x, box.maxBound.x) then XSide
    else Untextured
  }

  /** The image each skin samples on a textured face. */
  function TextureKey(skin: Skin, face: CubeFace): string {
    match skin
    case Diamond => "diamond"
    case Grass => if face == Top then "grass" else "grass_side"
    case Leaf => "leaf"
    case Oak => "oak_side"
    case Plank => "plank"
  }

  /** The two in-face distances from the minimum corner handed to the texture lookup. */
  function FaceCoords(p: Vec3, box: Box, face: CubeFace): (real, real) {
    match face
    case Top => (Abs(p.x - box.minBound.x), Abs(p.z - box.minBound.z))
    case ZSide => (Abs(p.x - box.minBound.x), Abs(p.y - box.minBound.y))
    case _ => (Abs(p.z - box.minBound.z), Abs(p.y - box.minBound.y))
  }

  /** A skin's rayIntersect override: the cube's hit, recoloured on textured faces. */
  function ObjectIntersect(ext: Externals, obj: SceneObject, origin: Vec3, direction: Vec3): Intersect {
    var base := ext.cubeIntersect(obj.box, origin, direction);
    var face := FaceOf(base.point, obj.box);
    if face == Untextured then base
    else
      var (u, v) := FaceCoords(base.point, obj.box, face);
      base.(color := ext.texture(u, v, TextureKey(obj.skin, face)), hasColor := true)
  }

  /** What every object of the list reports for one ray, in list order. */
  function Hits(ext: Externals, scene: seq<SceneObject>, origin: Vec3, direction: Vec3): (hits: seq<Intersect>)
    ensures |hits| == |scene|
  {
    if |scene| == 0 then []
    else Hits(ext, scene[..|scene| - 1], origin, direction) + [ObjectIntersect(ext, scene[|scene| - 1], origin, direction)]
  }

  /** Entry k of the hit list is what object k reports. */
  lemma {:induction false} HitAt(ext: Externals, scene: seq<SceneObject>, origin: Vec3, direction: Vec3, k: nat)
    requires k < |scene|
    ensures Hits(ext, scene, origin, direction)[k] == ObjectIntersect(ext, scene[k], origin, direction)
  {
    if k < |scene| - 1 {
      HitAt(ext, scene[..|scene| - 1], origin, direction, k);
    }
  }

  /** The hit list of two object lists in a row is the two hit lists in a row. */
  lemma HitsAppend(ext: Externals, a: seq<SceneObject>, b: seq<SceneObject>, origin: Vec3, direction: Vec3)
    ensures Hits(ext, a + b, origin, direction) == Hits(ext, a, origin, direction) + Hits(ext, b, origin, direction)
  {
    var whole := Hits(ext, a + b, origin, direction);
    var parts := Hits(ext, a, origin, direction) + Hits(ext, b, origin, direction);
    forall k | 0 <= k < |a + b|
      ensures whole[k] == parts[k]
    {
      HitAt(ext, a + b, origin, direction, k);
      if k < |a| {
        HitAt(ext, a, origin, direction, k);
      } else {
        HitAt(ext, b, origin, direction, k - |a|);
      }
    }
  }

  /** A point within Epsilon of the top plane is a top-face hit, whatever side planes it also touches. */
  lemma TopFaceCheckedFirst(p: Vec3, box: Box)
    requires Near(p.y, box.maxBound.y)
    ensures FaceOf(p, box) == Top
  {
  }

  /** Off the top plane, a point near a z plane is a z-face hit even when it is also near an x plane. */
  lemma ZFacesBeforeXFaces(p: Vec3, box: Box)
    requires !Near(p.y, box.maxBound.y)
    requires Near(p.z, box.maxBound.z) || Near(p.z, box.minBound.z)
    ensures FaceOf(p, box) == ZSide
  {
  }

  /** A point is left untextured exactly when it is near none of the five textured planes. */
  lemma UntexturedIffOffTexturedPlanes(p: Vec3, box: Box)
    ensures FaceOf(p, box) == Untextured <==>
      !Near(p.y, box.maxBound.y) &&
      !Near(p.z, box.maxBound.z) && !Near(p.z, box.minBound.z) &&
      !Near(p.x, box.minBound.x) && !Near(p.x, box.maxBound.x)
  {
  }

  /** Grass paints "grass" on top and "grass_side" on the four sides. */
  lemma GrassKeys()
    ensures TextureKey(Grass, Top) == "grass"
    ensures TextureKey(Grass, ZSide) == "grass_side" && TextureKey(Grass, XSide) == "grass_side"
  {
  }

  /** Every skin but Grass samples one image on all of its textured faces. */
  lemma OtherSkinsUseOneImage(skin: Skin, face: CubeFace)
    requires skin != Grass
    ensures TextureKey(skin, face) == TextureKey(skin, Top)
  {
  }

  /**
   * A skin changes only the colour and its flag, and only on the top, z and
   * x faces: a hit on the bottom face alone (or anywhere off the textured
   * planes) is passed on exactly as Cube::rayIntersect produced it.
   */
  lemma SkinRecoloursOnlyTexturedFaces(ext: Externals, obj: SceneObject, origin: Vec3, direction: Vec3)
    ensures var base := ext.cubeIntersect(obj.box, origin, direction);
      var r := ObjectIntersect(ext, obj, origin, direction);
      var face := FaceOf(base.point, obj.box);
      && r.(color := base.color, hasColor := base.hasColor) == base
      && (face == Untextured ==> r == base)
      && (face != Untextured ==>
            r.hasColor && r.color == ext.texture(FaceCoords(base.point, obj.box, face).0,
                                                 FaceCoords(base.point, obj.box, face).1,
                                                 TextureKey(obj.skin, face)))
  {
  }

  /** A hit on the bottom plane that is near no textured plane keeps Cube::rayIntersect's record. */
  lemma BottomFaceUntouched(ext: Externals, obj: SceneObject, origin: Vec3, direction: Vec3)
    requires var p := ext.cubeIntersect(obj.box, origin, direction).point;
      Near(p.y, obj.box.minBound.y) &&
      !Near(p.y, obj.box.maxBound.y) &&
      !Near(p.z, obj.box.maxBound.z) && !Near(p.z, obj.box.minBound.z) &&
      !Near(p.x, obj.box.minBound.x) && !Near(p.x, obj.box.maxBound.x)
    ensures ObjectIntersect(ext, obj, origin, direction) == ext.cubeIntersect(obj.box, origin, direction)
  {
  }
}
