/**
 * Values shared by the ray tracer: vectors, colours, intersection records,
 * materials, the light, the camera, the build-time settings, and the
 * collaborators whose code is not part of this model (the vector library's
 * transcendental helpers, Cube::rayIntersect and the image loader).
 *
 * Scalars are exact reals: floating-point rounding is not modelled.
 */
module Types {

  datatype Option<+T> = None | Some(value: T)

  /** A glm::vec3. */
  datatype Vec3 = Vec3(x: real, y: real, z: real)

  const Zero: Vec3 := Vec3(0.0, 0.0, 0.0)

  function Add(a: Vec3, b: Vec3): Vec3 { Vec3(a.x + b.x, a.y + b.y, a.z + b.z) }

  function Sub(a: Vec3, b: Vec3): Vec3 { Vec3(a.x - b.x, a.y - b.y, a.z - b.z) }

  function Scale(a: Vec3, k: real): Vec3 { Vec3(a.x * k, a.y * k, a.z * k) }

  function Neg(a: Vec3): Vec3 { Vec3(-a.x, -a.y, -a.z) }

  function Dot(a: Vec3, b: Vec3): real { a.x * b.x + a.y * b.y + a.z * b.z }

  function Cross(a: Vec3, b: Vec3): Vec3 {
    Vec3(a.y * b.z - a.z * b.y, a.z * b.x - a.x * b.z, a.x * b.y - a.y * b.x)
  }

  /** glm::min / std::min: the second argument only when it is strictly smaller. */
  function Min(a: real, b: real): real { if b < a then b else a }

  /** glm::max / std::max: the second argument only when it is strictly larger. */
  function Max(a: real, b: real): real { if a < b then b else a }

  function Abs(a: real): real { if a < 0.0 then -a else a }

  /** The tolerance of the plane tests; the skins and the skybox each declare it as 0.0001. */
  const Epsilon: real := 0.0001

  predicate Near(a: real, b: real) { Abs(a - b) < Epsilon }

  /** A colour accumulated during shading (red, green, blue). */
  datatype Color = Color(r: real, g: real, b: real)

  const Black: Color := Color(0.0, 0.0, 0.0)

  function Plus(a: Color, b: Color): Color { Color(a.r + b.r, a.g + b.g, a.b + b.b) }

  function Times(c: Color, k: real): Color { Color(c.r * k, c.g * k, c.b * k) }

  /** The record returned by every rayIntersect. */
  datatype Intersect = Intersect(
    isIntersecting: bool,
    dist: real,
    point: Vec3,
    normal: Vec3,
    color: Color,
    hasColor: bool)

  /** A default-constructed Intersect: no hit. */
  const NoHit: Intersect := Intersect(false, 0.0, Zero, Zero, Black, false)

  datatype Material = Material(
    diffuse: Color,
    albedo: real,
    specularAlbedo: real,
    specularCoefficient: real,
    reflectivity: real,
    transparency: real,
    refractionIndex: real)

  /** The corners of an axis-aligned cube as given to its constructor. */
  datatype Box = Box(minBound: Vec3, maxBound: Vec3)

  datatype Light = Light(position: Vec3, intensity: real, color: Color)

  datatype Camera = Camera(position: Vec3, target: Vec3, up: Vec3)

  /** WIDTH, HEIGHT, RATIO, MAX_RECURSION and BIAS of the build. */
  datatype Settings = Settings(width: nat, height: nat, ratio: real, maxRecursion: nat, bias: real)

  /** glm::length: never negative, and positive on every non-zero vector. */
  type Length = f: Vec3 -> real | forall v :: 0.0 <= f(v) && (v != Zero ==> 0.0 < f(v))
    witness (v: Vec3) => Abs(v.x) + Abs(v.y) + Abs(v.z)

  /** ImageLoader::getImageSize: every loaded image has a positive width and height. */
  type ImageSizes = f: string -> (real, real) | forall key :: 0.0 < f(key).0 && 0.0 < f(key).1
    witness (key: string) => (1.0, 1.0)

  /**
   * The collaborators the core calls but whose code is not modelled; each
   * field stands for the named C++ function.
   */
  datatype Externals = Externals(
    cubeIntersect: (Box, Vec3, Vec3) -> Intersect,   // Cube::rayIntersect(origin, direction)
    texture: (real, real, string) -> Color,          // the free loadTexture(u, v, key) used by the skins
    imageSize: ImageSizes,                           // ImageLoader::getImageSize(key)
    pixel: (string, int, int) -> Color,              // ImageLoader::getPixelColor(key, tx, ty)
    normalize: Vec3 -> Vec3,                         // glm::normalize
    reflect: (Vec3, Vec3) -> Vec3,                   // glm::reflect(incident, normal)
    refract: (Vec3, Vec3, real) -> Vec3,             // glm::refract(incident, normal, eta)
    pow: (real, real) -> real,                       // std::pow
    length: Length,                                  // glm::length
    tan: real -> real,                               // tan
    skyForAxisRays: (Vec3, Vec3) -> Color)           // Skybox::getColor on a ray with a zero direction component
}
