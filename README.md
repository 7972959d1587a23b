# Minecraft-style diorama ray tracer — a Dafny model of its core

The program renders a small voxel scene: a grass floor, a tree, three diamond
blocks and a plank house. It shoots one ray per pixel from a camera. Each ray
picks the nearest cube it hits. The hit is shaded with diffuse and specular
light from one point light, dimmed by a shadow ray. Reflected and refracted
rays are added by recursion up to a fixed depth. Rays that hit nothing, and
rays at the depth limit, take their colour from a textured skybox.

The model covers:

- `castShadow`, `castRay`, the five textured-cube overrides (Diamond, Grass, Leaf, Oak, Plank), `setUp` and `render` from `src/main.cpp`;
- `Skybox::getColor` and `Skybox::loadTexture` from `src/skybox.h`.

Modules, one per file:

| file | module | source |
|---|---|---|
| `types.dfy` | `Types` | the values everything shares: vectors, colours, intersection records, materials, the light, the camera, the build settings, and the collaborators whose code is not modelled (`Externals`) |
| `objects.dfy` | `Objects` | the five `rayIntersect` overrides, as one function parameterised by the skin, and the per-object hit list |
| `shadow.dfy` | `Shadow` | `castShadow`: a specification function (`ShadowFactor`) and the early-return loop proved equal to it (`CastShadow`) |
| `skybox.dfy` | `Skybox` | the slab test, the ordered six-face test and the texel arithmetic of `loadTexture` (truncating casts and `fmod` written out) |
| `raycaster.dfy` | `RayCaster` | `castRay`: the recursive specification `Trace`, and the methods that run its loops and recursion, proved to return `Trace` |
| `render.dfy` | `Render` | `render`: the pixel-to-ray mapping, and the two nested loops drawing onto a `Canvas` whose point list grows |
| `scene.dfy` | `Scene` | `setUp`: the four materials and the eighteen cubes (pushed onto an `ObjectList` class); the global light and camera (main.cpp:23-24), which are initialised outside `setUp`; the world and the first frame they make up |

The main results are these:

- `CastRay` computes `Trace`. The selection loop picks the closest eligible hit, with ties going to the earlier object, and never picks the skipped object (`SelectedIsClosest`, `NearestSkipsExcluded`).
- The shadow factor lies in [0, 1]. It is exactly 1 if and only if no other object occludes, and only the first occluder in list order matters.
- `getColor` never reaches the end of its face chain on a ray that hits the box, for rays with no zero direction component and in exact arithmetic. On such a ray it always reads a texel inside the image.
- `render` draws every pixel once, in row-major order, with the colour `castRay` gives its primary ray.
- The scene built by `setUp` is fully opaque, so every ray's colour is either the skybox or the direct light at its nearest hit.

## Model

| member | source | states |
|---|---|---|
| Types.Near | src/main.cpp:132-147 | the plane test of the skins and the skybox: the absolute difference of a coordinate and a bound is below 0.0001 |
| Objects.FaceOf | src/main.cpp:130-153 | the branch a hit point takes: the top plane first, then either z plane, then either x plane, each within 0.0001; otherwise no branch |
| Objects.TextureKey | src/main.cpp:121-308 | the image a skin samples on a face: "diamond", "grass" on top and "grass_side" elsewhere, "leaf", "oak_side", "plank" |
| Objects.FaceCoords | src/main.cpp:135-149 | the two absolute offsets from minBound passed to loadTexture: (x, z) on top, (x, y) on a z face, (z, y) on an x face |
| Objects.ObjectIntersect | src/main.cpp:127-156 | an override's result: Cube::rayIntersect's record, with colour and hasColor set from the face's texture on a textured face |
| Objects.Hits | src/main.cpp:71-72 | the record each object's rayIntersect gives one ray, in list order, one per object |
| Objects.HitAt | src/main.cpp:71-72 | the k-th entry of the per-ray hit list is exactly object k's own `rayIntersect` result |
| Objects.HitsAppend | src/main.cpp:53-55 | the hit list of two object lists in a row is the two hit lists in a row |
| Objects.TopFaceCheckedFirst | src/main.cpp:130-139 | a hit within 0.0001 of the top plane always takes the top-face branch, whatever side planes it also touches |
| Objects.ZFacesBeforeXFaces | src/main.cpp:140-153 | off the top plane, a hit near a z plane takes the z-face branch even when it is also near an x plane |
| Objects.UntexturedIffOffTexturedPlanes | src/main.cpp:129-155 | a hit is left untextured if and only if it is near none of the five textured planes (top, both z, both x) |
| Objects.GrassKeys | src/main.cpp:170-190 | Grass samples "grass" on its top and "grass_side" on its z and x faces |
| Objects.OtherSkinsUseOneImage | src/main.cpp:121-308 | every skin other than Grass (Diamond, Leaf, Oak, Plank) samples the same image on all of its textured faces |
| Objects.SkinRecoloursOnlyTexturedFaces | src/main.cpp:127-156 | an override changes only colour and hasColor of Cube::rayIntersect's record; off the textured planes it changes nothing, on them it sets hasColor and the texture colour at the face's in-plane distances from the minimum corner |
| Objects.BottomFaceUntouched | src/main.cpp:127-156 | a hit on the bottom face alone keeps Cube::rayIntersect's record unchanged |
| Shadow.Occludes | src/main.cpp:56 | an object's hit blocks the light when it is intersecting at a positive distance |
| Shadow.ShadowRatio | src/main.cpp:57-58 | the occluder's distance over the light's distance, clamped to at most 1; 1 when the light distance is 0 |
| Shadow.ShadowOf | src/main.cpp:53-63 | on a hit list: 1 when the scan finds no occluder, else 1 minus the first occluder's ratio |
| Shadow.ShadowFactor | src/main.cpp:52-64 | castShadow's result: `ShadowOf` on the scene's hits for the shadow ray, with the light distance length(light.position - shadowOrigin) |
| Shadow.FirstOccluder | src/main.cpp:53-56 | the index found is an occluding object other than the hit one, with no occluder before it; None means nothing from there on occludes |
| Shadow.CastShadow | src/main.cpp:52-64 | the early-return scan returns `ShadowFactor`: 1 with no occluder, else 1 minus min(1, occluder distance / light distance) |
| Shadow.FullyLitIffNoOccluder | src/main.cpp:52-64 | the factor is exactly 1 if and only if no object other than the hit one occludes the shadow ray |
| Shadow.NoOccluderIffUnoccluded | src/main.cpp:53-62 | the scan finds no occluder if and only if no object except the hit one has a hit at a positive distance |
| Shadow.FullIffNoOccluder | src/main.cpp:56-63 | on any hit list and any light distance, the factor is 1 exactly when the scan finds no occluder |
| Shadow.ShadowFactorInUnitInterval | src/main.cpp:57-59 | the factor always lies in [0, 1], and in [0, 1) once an occluder exists and the light is away from the shadow origin |
| Shadow.FirstOccluderIgnoresLaterObjects | src/main.cpp:53-59 | objects after an occluder never change which occluder is found first |
| Shadow.OnlyFirstOccluderCounts | src/main.cpp:56-59 | appending objects after the first occluder leaves the factor unchanged: only the first occluder in list order counts |
| Shadow.LaterObjectsLeaveShadowUnchanged | src/main.cpp:53-59 | objects pushed after the first occluder of a scene leave castShadow's factor unchanged |
| Skybox.AxisSlab | src/skybox.h:19-25 | one axis of the slab test: the smaller and larger of (bound - origin) / direction for the axis's two planes |
| Skybox.Slab | src/skybox.h:19-28 | (tNear, tFar): the largest of the three entries and the smallest of the three exits |
| Skybox.Misses | src/skybox.h:30-33 | the miss test: tNear > tFar or tFar < 0 |
| Skybox.HitDistance | src/skybox.h:35 | the distance used: tFar when tNear < 0, else tNear |
| Skybox.HitPoint | src/skybox.h:37 | the point rayOrigin + dist · rayDirection |
| Skybox.OnFace | src/skybox.h:42-70 | each face's plane test: the hit point's coordinate within 0.0001 of that face's bound (x of minBound/maxBound for -x/+x, y for -y/+y, z for -z/+z) |
| Skybox.ClassifyFace | src/skybox.h:42-76 | the face chain in the order -x, +x, -y, +y, -z, +z, each a plane test within 0.0001; None where the chain falls off its end |
| Skybox.FaceRequest | src/skybox.h:45-73 | each face's loadTexture arguments: two absolute offsets from minBound, the face's two spans, and its image key |
| Skybox.Trunc | src/skybox.h:86-87 | static_cast<int>: truncation toward zero |
| Skybox.FMod | src/skybox.h:86-87 | std::fmod: a minus b times the truncated quotient a / b |
| Skybox.TexelCoordinate | src/skybox.h:83-87 | one texel coordinate: the position over the face size, times the image size, wrapped by fmod and truncated |
| Skybox.TexelIndex | src/skybox.h:81-87 | the texel (tx, ty) read from the image named by the key, using getImageSize |
| Skybox.LoadTexture | src/skybox.h:78-92 | Skybox::loadTexture: getPixelColor of the key at the computed texel |
| Skybox.GetColor | src/skybox.h:13-76 | Skybox::getColor: the light blue on a miss, else loadTexture with the request of the face the chain picks at the hit point |
| Skybox.HitFace | src/skybox.h:42-75 | on a ray that hits the box, the face getColor uses is the one its if/else-if chain selects for the hit point |
| Skybox.SlabIsIntersectionOfAxisIntervals | src/skybox.h:19-28 | each axis's entry is at most its exit; tNear is the largest of the three entries and tFar the smallest of the three exits |
| Skybox.AxisSlabSymmetric | src/skybox.h:21-25 | swapping the two planes of an axis gives the same entry/exit interval |
| Skybox.SwappedZBoundsAreHarmless | src/skybox.h:16-28 | the box written with its z bounds swapped gives the same slab test as the correctly ordered box |
| Skybox.MissGivesFallbackColor | src/skybox.h:30-33 | a ray whose slab is empty or lies behind the origin gets the light blue (173, 216, 230) |
| Skybox.HitDistanceIsNonNegative | src/skybox.h:30-35 | on a ray that is not a miss, the distance used is tNear when tNear >= 0 and tFar otherwise, and it is never negative |
| Skybox.AxisEndpointsOnPlanes | src/skybox.h:21-25 | the ray at an axis's entry or exit parameter lies exactly on one of that axis's two planes |
| Skybox.HitDistanceIsAxisEndpoint | src/skybox.h:27-35 | the distance used is an entry or exit parameter of one of the three axes |
| Skybox.ClassifyIsFirstMatch | src/skybox.h:42-75 | the face chosen is a face the point is near, and the point is near no face checked earlier in the chain |
| Skybox.ClassifyFailsIffOffEveryFace | src/skybox.h:42-76 | the chain falls off its end if and only if the point is near none of the six planes |
| Skybox.HitLiesOnFace | src/skybox.h:37-76 | for every ray with no zero direction component, the point at the chosen distance is near one of the six planes, so getColor never falls off the end of its chain |
| Skybox.RayAtEndpointIsOnFace | src/skybox.h:37-76 | the ray at any axis entry or exit parameter reaches a point the face chain classifies |
| Skybox.TopPlaneShowsSky | src/skybox.h:59-63 | a point near y = 70 and near neither x plane is coloured from "skybox_sky" |
| Skybox.BottomPlaneShowsGround | src/skybox.h:53-57 | a point near y = -50 and near neither x plane is coloured from "skybox_ground" |
| Skybox.ExitThroughTopShowsSky | src/skybox.h:13-63 | a ray leaving the box through the top plane, away from the x faces, is coloured by loadTexture on the sky image |
| Skybox.TruncOfNonNegative | src/skybox.h:86-87 | the truncating int cast of a non-negative value is a non-negative integer no larger than it |
| Skybox.FModRange | src/skybox.h:86-87 | fmod(a, b) lies in [0, b) for a >= 0 and b > 0 |
| Skybox.TexelCoordinateInRange | src/skybox.h:83-87 | a texel coordinate computed from a non-negative position on a face of positive size lies in [0, image size) |
| Skybox.TexelInImage | src/skybox.h:78-89 | loadTexture reads a pixel inside the named image whenever its position arguments are non-negative, on a face of positive size |
| Skybox.FaceTexelInImage | src/skybox.h:42-75 | every face's texture request reads inside its image |
| Skybox.SkyTexelInImage | src/skybox.h:13-89 | a ray that hits the box reads a texel inside the chosen face's image |
| RayCaster.Eligible | src/main.cpp:73 | the selection test: an intersecting hit closer than zBuffer on an object other than currentObj |
| RayCaster.ReturnsSky | src/main.cpp:80 | castRay's sky test: no hit selected, or recursion equal to MAX_RECURSION |
| RayCaster.LightDir | src/main.cpp:85 | the normalised direction from the hit point to the light |
| RayCaster.ViewDir | src/main.cpp:86 | the normalised direction from the hit point to the ray origin |
| RayCaster.ReflectDir | src/main.cpp:87 | the mirror direction, reflecting the negated normalised ray origin about the normal, as written |
| RayCaster.Shaded | src/main.cpp:115-116 | one light product: a colour times intensity, lighting term, albedo and shadow factor, left to right |
| RayCaster.DirectLight | src/main.cpp:85-116 | the diffuse plus specular light at the hit, with the hit's texture colour when it has one, else the material's diffuse colour |
| RayCaster.Combine | src/main.cpp:117 | the mix: direct light times (1 - reflectivity - transparency), plus reflected times reflectivity, plus refracted times transparency |
| RayCaster.ReflectOrigin | src/main.cpp:102 | the reflected ray's origin: the hit point plus normal · BIAS |
| RayCaster.RefractOrigin | src/main.cpp:108 | the refracted ray's origin: the hit point minus normal · BIAS |
| RayCaster.RefractDir | src/main.cpp:109 | glm::refract of the ray direction about the normal with the material's refraction index |
| RayCaster.Trace | src/main.cpp:66-119 | castRay's colour: the sky on a miss or at the limit, otherwise `Shade` of the nearest hit |
| RayCaster.Shade | src/main.cpp:85-118 | the colour of a hit below the limit: `Combine` of the direct light and the two secondary colours |
| RayCaster.SecondaryColor | src/main.cpp:100-111 | black when the secondary ray is not cast, else its traced colour |
| RayCaster.ScanNearest | src/main.cpp:67-78 | after k objects the selection is either nothing, or a hit on a non-skipped object before k that is closer than 99999, with zBuffer equal to its distance |
| RayCaster.ScanNearestSelectsClosest | src/main.cpp:71-78 | the final zBuffer is at most every eligible hit's distance, and strictly below the distance of every eligible hit earlier than the selected one (ties go to the first object) |
| RayCaster.Nearest | src/main.cpp:67-78 | the selected object is in the list |
| RayCaster.NothingSelectedIffNoCloseHit | src/main.cpp:67-80 | nothing is selected if and only if every hit on a non-skipped object lies at 99999 or beyond |
| RayCaster.SelectedIsClosest | src/main.cpp:71-78 | the selected object is hit, is not the skipped object, and no eligible hit is closer; earlier objects at the same distance lose |
| RayCaster.FullShadowGivesNoDirectLight | src/main.cpp:90-116 | a fully shadowed hit gets neither diffuse nor specular light |
| RayCaster.CombineOfEqualColors | src/main.cpp:117 | the final mix is a weighted average: equal direct, reflected and refracted colours give back that colour |
| RayCaster.OpaqueCombineIsDirect | src/main.cpp:117 | with zero reflectivity and transparency the mix is the direct light |
| RayCaster.ReflectionCall | src/main.cpp:100-104 | a reflected ray is cast if and only if reflectivity > 0, one level deeper, skipping the object just hit |
| RayCaster.RefractionCall | src/main.cpp:106-111 | a refracted ray is cast if and only if transparency > 0, one level deeper, skipping the object just hit |
| RayCaster.Depth | src/main.cpp:66-111 | the deepest level a call tree reaches lies between the call's own level and MAX_RECURSION, and equals the call's level when it returns the sky |
| RayCaster.SecondaryRaySkipsItsObject | src/main.cpp:103-110 | neither secondary ray can select the object it leaves |
| RayCaster.NearestSkipsExcluded | src/main.cpp:73 | the selection never picks the object the call skips |
| RayCaster.SkyWhenNothingHitOrAtLimit | src/main.cpp:80-82 | with no hit closer than 99999 on a non-skipped object, or at the depth limit, castRay returns Skybox::getColor and recurses no further |
| RayCaster.OpaqueHitIsDirectLight | src/main.cpp:95-117 | a hit on a material with zero reflectivity and transparency casts no secondary ray and shows its direct light |
| RayCaster.SelectNearest | src/main.cpp:67-78 | the selection loop ends with the zBuffer, hitObject and intersect of `Nearest` |
| RayCaster.CastRay | src/main.cpp:66-119 | castRay returns `Trace`: the sky colour on a miss or at the limit, otherwise the shaded hit |
| RayCaster.ShadeHit | src/main.cpp:85-118 | below the limit, the colour of a hit is the direct light mixed with the reflected and refracted colours by the material |
| RayCaster.DirectLightAt | src/main.cpp:85-116 | diffuse plus specular light from the normalised light, view and mirror directions, scaled by the shadow factor |
| RayCaster.CastReflection | src/main.cpp:100-104 | black unless the material reflects, else the colour of the reflected ray |
| RayCaster.CastRefraction | src/main.cpp:106-111 | black unless the material transmits, else the colour of the refracted ray |
| Render.NdcX | src/main.cpp:394 | the pixel column's centre mapped to (2(x + 0.5)) / WIDTH - 1 |
| Render.NdcY | src/main.cpp:395 | the pixel row's centre mapped to -(2(y + 0.5)) / HEIGHT + 1 |
| Render.ScreenX | src/main.cpp:394-397 | the horizontal offset: NdcX times RATIO times tan(fov / 2) |
| Render.ScreenY | src/main.cpp:395-398 | the vertical offset: NdcY times tan(fov / 2) |
| Render.RayThrough | src/main.cpp:401-407 | the normalised sum of the camera direction and the camera's x and y axes scaled by the offsets |
| Render.PixelDirection | src/main.cpp:394-407 | the camera ray through pixel (x, y) |
| Render.PrimaryRay | src/main.cpp:409 | the castRay call of a pixel: from the camera position, at depth 0, skipping nothing |
| Render.PixelColor | src/main.cpp:409 | the traced colour of a pixel's primary ray |
| Render.Row | src/main.cpp:393-412 | the points the inner loop draws for row y, left to right |
| Render.Rows | src/main.cpp:392-413 | the points the outer loop draws for the first n rows, top to bottom |
| Render.Frame | src/main.cpp:390-414 | every point one frame draws: all rows of the window's traced colours |
| Render.ImageShows | src/main.cpp:390-414 | the ghost image `Image(w, camera)`, which gives each in-window pixel the colour of its primary ray, meets `Render`'s requirement `Shows` |
| Render.CameraRay | src/main.cpp:394-407 | the direction built for pixel (x, y) is the normalised camera ray through the pixel centre's screen offsets |
| Render.Render | src/main.cpp:390-414 | one frame appends, row by row from the top and left to right, one point per pixel with the traced colour |
| Render.DrawRow | src/main.cpp:393-412 | one row appends the pixels of row y from left to right |
| Render.ShadePixel | src/main.cpp:394-409 | the colour of pixel (x, y) is castRay of its primary ray at depth 0, skipping no object |
| Render.Canvas.Point | src/main.cpp:411 | drawing a point appends exactly that pixel |
| Render.NdcInOpenUnitInterval | src/main.cpp:394-395 | every pixel centre maps strictly inside (-1, 1) on both axes |
| Render.NdcSymmetric | src/main.cpp:394-395 | mirror columns map to opposite x offsets, and y is x flipped |
| Render.NdcMonotone | src/main.cpp:394-395 | x offsets increase to the right, y offsets decrease downwards |
| Render.FrameLayout | src/main.cpp:392-411 | a frame has width × height points, and point y·width + x is pixel (x, y) with its traced colour |
| Render.RowsLength | src/main.cpp:392-393 | n complete rows hold n·width points |
| Render.RowsPixel | src/main.cpp:392-411 | within n rows, point y·width + x is pixel (x, y) with its colour |
| Render.RowLayout | src/main.cpp:393-411 | a row of n points holds pixel x at position x |
| Scene.Cube | src/main.cpp:124-125 | a skin's constructor: a cube with the given skin, the bounds exactly as passed, and the material |
| Scene.SetUpObjects | src/main.cpp:349-385 | the eighteen cubes setUp pushes, in order, with their skins, bounds and materials |
| Scene.ObjectList.PushBack | src/main.cpp:349 | push_back appends exactly one object |
| Scene.ObjectList.SetUp | src/main.cpp:310-387 | setUp appends the eighteen cubes, in source order, with their bounds, skins and materials |
| Scene.SetUpSceneIsOpaque | src/main.cpp:312-345 | the scene has eighteen objects, none with positive reflectivity or transparency |
| Scene.SetUpSceneNeverBounces | src/main.cpp:310-387 | in the set-up scene castRay never recurses: each ray shows the skybox or the direct light at its nearest hit |
| Scene.SetUpWorld | src/main.cpp:22-23 | the world of the first frame: the set-up objects, the global light `SceneLight` at (-10, 10, 20), and the skybox as its sky |
| Scene.FirstFrameNeverBounces | src/main.cpp:24 | every pixel seen from the global camera `StartCamera` starts its ray at (-3, 2, 10) and shows either the skybox or the direct light at its nearest cube, never a secondary ray |

## Left out

- SDL initialisation, the window, the event loop, camera movement by keys and frame timing (`init`, `main`): these are I/O. `point` is modelled as appending to the `Canvas` point list.
- Cube::rayIntersect, glm::normalize, glm::reflect, glm::refract, glm::length, std::pow, tan, the free `loadTexture` used by the skins, and the image loader's `getImageSize` and `getPixelColor`: their code is not part of this model. They are parameters (`Externals`). `length` is assumed non-negative and positive on non-zero vectors; image sizes are assumed positive.
- Floating point: all scalars are exact reals, so rounding, NaN and the float-to-colour conversion are not modelled.
- Color clamping and the alpha channel: color.h is not part of this model, so colour arithmetic is unclamped real arithmetic on r, g, b.
- globals.h is not part of this model. WIDTH, HEIGHT, RATIO, MAX_RECURSION and BIAS are fields of `Settings`. The global object list and light (main.cpp:22-23) are fields of `World`. The global camera (main.cpp:24) is a separate parameter of `Render`, `DrawRow`, `ShadePixel`, `CameraRay` and `PixelColor`; its fourth constructor argument (a movement speed used only by the event loop) is not modelled.
- Skybox.GetColor: a ray with a zero direction component relies on IEEE infinities in the slab test. Its colour is left to the `skyForAxisRays` parameter.
- Skybox.GetColor: where the face chain could fall off its end (undefined behaviour in C++), the model has no branch. `HitLiesOnFace` proves that path unreachable for exact arithmetic.
- Shadow.ShadowRatio: when the light sits exactly on the shadow origin, the float division gives +infinity and the clamp gives 1. The model writes that case out as 1.
- RayCaster.CastRay: the recursion level is a C++ `short`. It is modelled as a `nat` bounded by `Within` (at most MAX_RECURSION), which every call made from render satisfies.
- RayCaster.World: object identity (an `Object*` in the source) is the object's index in the list. setUp pushes distinct `new` objects, so the two coincide.
- RayCaster.CastRay: the sky colour is the `sky` field of `World`, standing for the static `Skybox::getColor`. `SkyIsSkybox` pins it to `Skybox.GetColor`. CastRay's contract is stated with the field; the lemmas that speak of the skybox assume `SkyIsSkybox`.
- RayCaster.CastRay: the body is split into helper methods (`SelectNearest`, `ShadeHit`, `DirectLightAt`, `CastReflection`, `CastRefraction`). They run the same steps, except that `DirectLightAt` computes the material colour and the diffuse and specular light before the secondary rays are cast, where main.cpp:113-116 computes them after main.cpp:100-111. This changes nothing, because no step has an effect.
- RayCaster.ReflectDir: main.cpp mirrors the normalised ray origin, not the ray direction. The model keeps the code as written.
- The unused `specReflection` local of castRay is not modelled.
- Render.Render: its contract speaks of a ghost image that `Shows` the traced colours. `ImageShows` supplies `Image(w, camera)`, and `FrameLayout` describes the resulting `Frame`.
- Material: material.h is not part of this model. The field order is taken to be diffuse, albedo, specularAlbedo, specularCoefficient, reflectivity, transparency, refractionIndex, the order of `Types.Material`. setUp gives six initialisers, so `refractionIndex` keeps its zero default. `SetUpSceneIsOpaque`, `SetUpSceneNeverBounces` and the statement that the set-up scene is fully opaque depend on this order: with another order the diamond's 2.50 could be its reflectivity.
- Box: cube.h is not part of this model. The skins compare hit points against the cube's minBound and maxBound, which the model takes exactly as passed to the constructor. The Diamond at main.cpp:359 has minBound.z = 2 > maxBound.z = 1; a constructor that reordered the bounds would change its face tests and `FaceCoords`.
- Intersect: intersect.h is not part of this model. A default-constructed record is taken to be "no hit" with zero fields.
