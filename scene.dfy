/**
 * The scene before the first frame: the four materials and eighteen textured
 * cubes setUp builds (a grass floor, a tree, three diamond blocks and a plank
 * house with oak columns), together with the global light and camera that
 * main.cpp initialises outside setUp.
 */
module Scene {
  import opened Types
  import opened Objects
  import opened RayCaster
  import opened Render

  /**
   * The materials as setUp initialises them. Each initialiser gives six
   * values, so the refraction index keeps its zero default.
   */
  const GrassMaterial: Material := Material(Black, 0.85, 0.0, 0.5, 0.0, 0.0, 0.0)
  const WoodMaterial: Material := Material(Black, 0.85, 0.0, 0.5, 0.0, 0.0, 0.0)
  const LeafMaterial: Material := Material(Black, 0.85, 0.0, 0.5, 0.0, 0.0, 0.0)
  const DiamondMaterial: Material := Material(Black, 0.85, 0.4, 2.5, 0.0, 0.0, 0.0)

  /** The global light: at (-10, 10, 20), intensity 1, white. */
  const SceneLight: Light := Light(Vec3(-10.0, 10.0, 20.0), 1.0, Color(255.0, 255.0, 255.0))

  /** The global camera before any key is pressed: at (-3, 2, 10), looking at the origin, y up. */
  const StartCamera: Camera := Camera(Vec3(-3.0, 2.0, 10.0), Zero, Vec3(0.0, 1.0, 0.0))

  function Cube(skin: Skin, minBound: Vec3, maxBound: Vec3, mat: Material): SceneObject {
    SceneObject(skin, Box(minBound, maxBound), mat)
  }

  /** The objects setUp pushes, in order. */
  function SetUpObjects(): seq<SceneObject> {
    [ Cube(Grass, Vec3(-3.0, -0.5, -5.0), Vec3(10.0, 0.5, 5.0), GrassMaterial),
      Cube(Oak, Vec3(-2.0, 0.5, -2.0), Vec3(-1.0, 3.5, -1.0), WoodMaterial),
      Cube(Leaf, Vec3(-3.0, 3.5, -3.0), Vec3(0.0, 4.5, 0.0), LeafMaterial),
      Cube(Leaf, Vec3(-2.0, 4.5, -2.0), Vec3(-1.0, 5.5, -1.0), LeafMaterial),
      Cube(Diamond, Vec3(-2.0, 0.5, 2.0), Vec3(1.0, 1.5, 1.0), DiamondMaterial),
      Cube(Diamond, Vec3(-1.0, 1.5, 2.0), Vec3(0.0, 2.5, 1.0), DiamondMaterial),
      Cube(Diamond, Vec3(-1.0, 0.5, 2.0), Vec3(0.0, 1.5, 3.0), DiamondMaterial),
      Cube(Plank, Vec3(3.0, 0.5, -4.0), Vec3(7.0, 4.5, -3.0), WoodMaterial),
      Cube(Plank, Vec3(2.0, 3.5, -3.0), Vec3(8.0, 4.5, 0.0), WoodMaterial),
      Cube(Plank, Vec3(3.0, 3.5, 0.0), Vec3(7.0, 4.5, 1.0), WoodMaterial),
      Cube(Plank, Vec3(2.0, 0.5, -3.0), Vec3(3.0, 3.5, 0.0), WoodMaterial),
      Cube(Plank, Vec3(7.0, 0.5, -3.0), Vec3(8.0, 3.5, 0.0), WoodMaterial),
      Cube(Oak, Vec3(2.0, 0.5, 0.0), Vec3(3.0, 4.5, 1.0), WoodMaterial),
      Cube(Oak, Vec3(7.0, 0.5, 0.0), Vec3(8.0, 4.5, 1.0), WoodMaterial),
      Cube(Oak, Vec3(2.0, 0.5, -4.0), Vec3(3.0, 4.5, -3.0), WoodMaterial),
      Cube(Oak, Vec3(7.0, 0.5, -4.0), Vec3(8.0, 4.5, -3.0), WoodMaterial),
      Cube(Plank, Vec3(3.0, 0.5, 0.0), Vec3(5.0, 3.5, 1.0), WoodMaterial),
      Cube(Plank, Vec3(6.0, 0.5, 0.0), Vec3(7.0, 3.5, 1.0), WoodMaterial) ]
  }

  /** The global object list. */
  class ObjectList {
    var objects: seq<SceneObject>

    constructor()
      ensures objects == []
    {
      objects := [];
    }

    /** objects.push_back(obj). */
    method PushBack(obj: SceneObject)
      modifies this
      ensures objects == old(objects) + [obj]
    {
      objects := objects + [obj];
    }

    /** setUp(): append the scene's eighteen cubes. */
    method SetUp()
      modifies this
      ensures objects == old(objects) + SetUpObjects()
    {
      var start := objects;
      var pending := SetUpObjects();
      var k := 0;
      while k < |pending|
        invariant 0 <= k <= |pending|
        invariant objects == start + pending[..k]
      {
        PushBack(pending[k]);
        assert pending[..k + 1] == pending[..k] + [pending[k]];
        k := k + 1;
      }
      assert pending[..|pending|] == pending;
    }
  }

  /** No material of the set-up scene reflects or transmits light. */
  lemma SetUpSceneIsOpaque()
    ensures |SetUpObjects()| == 18
    ensures forall k :: 0 <= k < |SetUpObjects()| ==>
      SetUpObjects()[k].material.reflectivity == 0.0 && SetUpObjects()[k].material.transparency == 0.0
  {
  }

  /**
   * In the set-up scene castRay never recurses: every call is answered by
   * the skybox or by the direct light at its nearest hit.
   */
  lemma SetUpSceneNeverBounces(w: World, call: RayCall)
    requires w.scene == SetUpObjects() && Within(w, call) && SkyIsSkybox(w)
    ensures Depth(w, call) == call.recursion
    ensures ReturnsSky(w, call) ==> Trace(w, call) == Skybox.GetColor(w.ext, call.origin, call.direction)
    ensures !ReturnsSky(w, call) ==>
      var s := Nearest(w, call);
      Trace(w, call) == DirectLight(w, call, s.hitObject.value, s.intersect)
  {
    if !ReturnsSky(w, call) {
      SetUpSceneIsOpaque();
      OpaqueHitIsDirectLight(w, call);
    }
  }

  /**
   * The world the first frame renders: the objects setUp pushed, the global
   * light, and the skybox behind everything.
   */
  function SetUpWorld(ext: Externals, settings: Settings): (w: World)
    ensures w.scene == SetUpObjects() && w.light.position == Vec3(-10.0, 10.0, 20.0)
    ensures w.ext == ext && w.settings == settings && SkyIsSkybox(w)
  {
    World(ext, SetUpObjects(), SceneLight, settings, (o, d) => Skybox.GetColor(ext, o, d))
  }

  /**
   * Every pixel of the first frame, seen from the global camera, is either
   * the skybox colour along its primary ray or the direct light at the
   * nearest cube: no primary ray spawns a secondary one.
   */
  lemma FirstFrameNeverBounces(ext: Externals, settings: Settings, x: nat, y: nat)
    requires x < settings.width && y < settings.height
    ensures var w := SetUpWorld(ext, settings);
      var call := PrimaryRay(w, StartCamera, x, y);
      call.origin == Vec3(-3.0, 2.0, 10.0) && Depth(w, call) == 0 &&
      (ReturnsSky(w, call) ==> PixelColor(w, StartCamera, x, y) == Skybox.GetColor(ext, call.origin, call.direction)) &&
      (!ReturnsSky(w, call) ==>
         var s := Nearest(w, call);
         PixelColor(w, StartCamera, x, y) == DirectLight(w, call, s.hitObject.value, s.intersect))
  {
    var w := SetUpWorld(ext, settings);
    SetUpSceneNeverBounces(w, PrimaryRay(w, StartCamera, x, y));
  }
}
