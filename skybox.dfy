/**
 * The skybox sampler (Skybox::getColor and Skybox::loadTexture): a slab test
 * against the box that encloses the scene, a fallback colour on a miss, and
 * an ordered six-way face test that picks the image and the texel to show.
 */
module Skybox {
  import opened Types

  /** The box's corners as skybox.h writes them; the z bounds are deliberately swapped. */
  const MinBound: Vec3 := Vec3(-100.0, -50.0, 100.0)
  const MaxBound: Vec3 := Vec3(100.0, 70.0, -100.0)

  /** The light blue returned when the ray misses the box. */
  const MissColor: Color := Color(173.0, 216.0, 230.0)

  /**
   * The slab test below divides by each direction component; for a zero
   * component the source relies on IEEE infinities, which are not modelled.
   */
  predicate NonAxisParallel(d: Vec3) { d.x != 0.0 && d.y != 0.0 && d.z != 0.0 }

  /** A parameter range along the ray. */
  datatype Interval = Interval(lo: real, hi: real)

  /** One axis of the slab test: the entry and exit parameters of the ray between two planes. */
  function AxisSlab(o: real, d: real, a: real, b: real): Interval
    requires d != 0.0
  {
    var inv := 1.0 / d;
    var t1 := (a - o) * inv;
    var t2 := (b - o) * inv;
    Interval(Min(t1, t2), Max(t1, t2))
  }

  /** (tNear, tFar): the largest per-axis entry and the smallest per-axis exit. */
  function Slab(o: Vec3, d: Vec3, minB: Vec3, maxB: Vec3): Interval
    requires NonAxisParallel(d)
  {
    var sx := AxisSlab(o.x, d.x, minB.x, maxB.x);
    var sy := AxisSlab(o.y, d.y, minB.y, maxB.y);
    var sz := AxisSlab(o.z, d.z, minB.z, maxB.z);
    Interval(Max(Max(sx.lo, sy.lo), sz.lo), Min(Min(sx.hi, sy.hi), sz.hi))
  }

  predicate Misses(o: Vec3, d: Vec3)
    requires NonAxisParallel(d)
  {
    var s := Slab(o, d, MinBound, MaxBound);
    s.lo > s.hi || s.hi < 0.0
  }

  /** The entry distance, or the exit distance when the origin is inside the box. */
  function HitDistance(o: Vec3, d: Vec3): real
    requires NonAxisParallel(d)
  {
    var s := Slab(o, d, MinBound, MaxBound);
    if s.lo < 0.0 then s.hi else s.lo
  }

  function HitPoint(o: Vec3, d: Vec3): Vec3
    requires NonAxisParallel(d)
  {
    Add(o, Scale(d, HitDistance(o, d)))
  }

  /** The six faces, named after the images they show (skybox2, skybox4, ground, sky, skybox1, skybox3). */
  datatype SkyFace = Left | Right | Ground | Sky | Back | Front

  /** The plane test of each face, within Epsilon. */
  predicate OnFace(p: Vec3, f: SkyFace) {
    match f
    case Left => Near(p.x, MinBound.x)
    case Right => Near(p.x, MaxBound.x)
    case Ground => Near(p.y, MinBound.y)
    case Sky => Near(p.y, MaxBound.y)
    case Back => Near(p.z, MinBound.z)
    case Front => Near(p.z, MaxBound.z)
  }

  /** The position of each face's test in the chain. */
  function Rank(f: SkyFace): nat {
    match f
    case Left => 0
    case Right => 1
    case Ground => 2
    case Sky => 3
    case Back => 4
    case Front => 5
  }

  /** The if/else-if chain of getColor; None is the path that falls off the end. */
  function ClassifyFace(p: Vec3): Option<SkyFace> {
    if OnFace(p, Left) then Some(Left)
    else if OnFace(p, Right) then Some(Right)
    else if OnFace(p, Ground) then Some(Ground)
    else if OnFace(p, Sky) then Some(Sky)
    else if OnFace(p, Back) then Some(Back)
    else if OnFace(p, Front) then Some(Front)
    else None
  }

  /** The arguments of one Skybox::loadTexture call. */
  datatype TextureRequest = TextureRequest(x: real, y: real, surfaceWidth: real, surfaceHeight: real, key: string)

  function FaceRequest(f: SkyFace, p: Vec3): TextureRequest {
    var zSpan := Abs(MaxBound.z - MinBound.z);
    var ySpan := Abs(MaxBound.y - MinBound.y);
    var xSpan := Abs(MaxBound.x - MinBound.x);
    match f
    case Left => TextureRequest(Abs(p.z - MinBound.z), Abs(p.y - MinBound.y), zSpan, ySpan, "skybox2")
    case Right => TextureRequest(Abs(p.z - MinBound.z), Abs(p.y - MinBound.y), zSpan, ySpan, "skybox4")
    case Ground => TextureRequest(Abs(p.x - MinBound.x), Abs(p.z - MinBound.z), xSpan, zSpan, "skybox_ground")
    case Sky => TextureRequest(Abs(p.x - MinBound.x), Abs(p.z - MinBound.z), xSpan, zSpan, "skybox_sky")
    case Back => TextureRequest(Abs(p.x - MinBound.x), Abs(p.y - MinBound.y), xSpan, ySpan, "skybox1")
    case Front => TextureRequest(Abs(p.x - MinBound.x), Abs(p.y - MinBound.y), xSpan, ySpan, "skybox3")
  }

  /** static_cast<int> on a float: truncation toward zero. */
  function Trunc(r: real): int
    decreases if r >= 0.0 then 0 else 1
  {
    if r >= 0.0 then r.Floor else -Trunc(-r)
  }

  /** std::fmod: the remainder of truncated division, with the sign of a. */
  function FMod(a: real, b: real): real
    requires b != 0.0
  {
    a - (Trunc(a / b) as real) * b
  }

  /** One texel coordinate: the position normalised by the face size, scaled to the image, wrapped by fmod. */
  function TexelCoordinate(pos: real, surface: real, size: real): int
    requires surface != 0.0 && size != 0.0
  {
    var normalized := pos / surface;
    Trunc(FMod(normalized * size, size))
  }

  /** The texel (tx, ty) loadTexture reads from the image named by the request. */
  function TexelIndex(ext: Externals, req: TextureRequest): (int, int)
    requires req.surfaceWidth != 0.0 && req.surfaceHeight != 0.0
  {
    var tsize := ext.imageSize(req.key);
    (TexelCoordinate(req.x, req.surfaceWidth, tsize.0), TexelCoordinate(req.y, req.surfaceHeight, tsize.1))
  }

  function LoadTexture(ext: Externals, req: TextureRequest): Color
    requires req.surfaceWidth != 0.0 && req.surfaceHeight != 0.0
  {
    var (tx, ty) := TexelIndex(ext, req);
    ext.pixel(req.key, tx, ty)
  }

  /** The face the ray leaves the box through, when it does not miss. */
  function HitFace(o: Vec3, d: Vec3): (f: SkyFace)
    requires NonAxisParallel(d) && !Misses(o, d)
    ensures ClassifyFace(HitPoint(o, d)) == Some(f)
  {
    HitLiesOnFace(o, d);
    ClassifyFace(HitPoint(o, d)).value
  }

  /** Skybox::getColor(rayOrigin, rayDirection). */
  function GetColor(ext: Externals, o: Vec3, d: Vec3): Color {
    if !NonAxisParallel(d) then ext.skyForAxisRays(o, d)
    else if Misses(o, d) then MissColor
    else LoadTexture(ext, FaceRequest(HitFace(o, d), HitPoint(o, d)))
  }

  // ---------------------------------------------------------------- slab test

  /** Per axis the entry is at most the exit; tNear is the largest entry and tFar the smallest exit. */
  lemma SlabIsIntersectionOfAxisIntervals(o: Vec3, d: Vec3, minB: Vec3, maxB: Vec3)
    requires NonAxisParallel(d)
    ensures var sx := AxisSlab(o.x, d.x, minB.x, maxB.x);
      var sy := AxisSlab(o.y, d.y, minB.y, maxB.y);
      var sz := AxisSlab(o.z, d.z, minB.z, maxB.z);
      var s := Slab(o, d, minB, maxB);
      && sx.lo <= sx.hi && sy.lo <= sy.hi && sz.lo <= sz.hi
      && sx.lo <= s.lo && sy.lo <= s.lo && sz.lo <= s.lo
      && (s.lo == sx.lo || s.lo == sy.lo || s.lo == sz.lo)
      && s.hi <= sx.hi && s.hi <= sy.hi && s.hi <= sz.hi
      && (s.hi == sx.hi || s.hi == sy.hi || s.hi == sz.hi)
  {
  }

  /** Which of two planes is called the minimum does not matter to one axis of the slab test. */
  lemma AxisSlabSymmetric(o: real, d: real, a: real, b: real)
    requires d != 0.0
    ensures AxisSlab(o, d, a, b) == AxisSlab(o, d, b, a)
  {
  }

  /** Hence the swapped z bounds of the skybox give the same tNear and tFar as ordered ones. */
  lemma SwappedZBoundsAreHarmless(o: Vec3, d: Vec3)
    requires NonAxisParallel(d)
    ensures Slab(o, d, MinBound, MaxBound) ==
            Slab(o, d, Vec3(MinBound.x, MinBound.y, MaxBound.z), Vec3(MaxBound.x, MaxBound.y, MinBound.z))
  {
    AxisSlabSymmetric(o.z, d.z, MinBound.z, MaxBound.z);
  }

  /** A ray that misses gets exactly the fallback colour. */
  lemma MissGivesFallbackColor(ext: Externals, o: Vec3, d: Vec3)
    requires NonAxisParallel(d) && Misses(o, d)
    ensures GetColor(ext, o, d) == MissColor
  {
  }

  /**
   * On a hit the distance used is tNear when tNear >= 0 and tFar otherwise,
   * and it is never negative.
   */
  lemma HitDistanceIsNonNegative(o: Vec3, d: Vec3)
    requires NonAxisParallel(d) && !Misses(o, d)
    ensures var s := Slab(o, d, MinBound, MaxBound);
      HitDistance(o, d) == (if s.lo >= 0.0 then s.lo else s.hi)
    ensures 0.0 <= HitDistance(o, d)
  {
  }

  /** Both ends of an axis interval put the ray exactly on one of that axis's two planes. */
  lemma AxisEndpointsOnPlanes(o: real, d: real, a: real, b: real, t: real)
    requires d != 0.0
    ensures t == AxisSlab(o, d, a, b).lo || t == AxisSlab(o, d, a, b).hi ==>
      o + d * t == a || o + d * t == b
  {
    var inv := 1.0 / d;
    assert d * inv == 1.0;
    var t1 := (a - o) * inv;
    var t2 := (b - o) * inv;
    assert d * t1 == (a - o) * (d * inv);
    assert d * t2 == (b - o) * (d * inv);
  }

  /** The distance used on a hit is the entry or the exit parameter of one of the three axes. */
  lemma HitDistanceIsAxisEndpoint(o: Vec3, d: Vec3)
    requires NonAxisParallel(d)
    ensures var t := HitDistance(o, d);
      var sx := AxisSlab(o.x, d.x, MinBound.x, MaxBound.x);
      var sy := AxisSlab(o.y, d.y, MinBound.y, MaxBound.y);
      var sz := AxisSlab(o.z, d.z, MinBound.z, MaxBound.z);
      t == sx.lo || t == sx.hi || t == sy.lo || t == sy.hi || t == sz.lo || t == sz.hi
  {
    SlabIsIntersectionOfAxisIntervals(o, d, MinBound, MaxBound);
  }

  // ------------------------------------------------------- face classification

  /** getColor picks the first face, in the order -x, +x, -y, +y, -z, +z, whose plane test passes. */
  lemma ClassifyIsFirstMatch(p: Vec3, f: SkyFace)
    ensures ClassifyFace(p) == Some(f) <==>
      OnFace(p, f) && forall g :: Rank(g) < Rank(f) ==> !OnFace(p, g)
  {
  }

  /** The chain falls off its end exactly when the point is near none of the six planes. */
  lemma ClassifyFailsIffOffEveryFace(p: Vec3)
    ensures ClassifyFace(p).None? <==> forall f :: !OnFace(p, f)
  {
    if ClassifyFace(p).Some? {
      assert OnFace(p, ClassifyFace(p).value);
    }
  }

  /**
   * In exact arithmetic the point the ray reaches at the chosen distance lies
   * on one of the box's six planes (whether or not the ray misses), so
   * getColor never falls off the end of its face chain.
   */
  lemma HitLiesOnFace(o: Vec3, d: Vec3)
    requires NonAxisParallel(d)
    ensures ClassifyFace(HitPoint(o, d)).Some?
  {
    HitDistanceIsAxisEndpoint(o, d);
    RayAtEndpointIsOnFace(o, d, HitDistance(o, d));
  }

  /** The ray evaluated at any axis entry or exit parameter is classified. */
  lemma RayAtEndpointIsOnFace(o: Vec3, d: Vec3, t: real)
    requires NonAxisParallel(d)
    requires var sx := AxisSlab(o.x, d.x, MinBound.x, MaxBound.x);
      var sy := AxisSlab(o.y, d.y, MinBound.y, MaxBound.y);
      var sz := AxisSlab(o.z, d.z, MinBound.z, MaxBound.z);
      t == sx.lo || t == sx.hi || t == sy.lo || t == sy.hi || t == sz.lo || t == sz.hi
    ensures ClassifyFace(Add(o, Scale(d, t))).Some?
  {
    if t == AxisSlab(o.x, d.x, MinBound.x, MaxBound.x).lo || t == AxisSlab(o.x, d.x, MinBound.x, MaxBound.x).hi {
      XEndpointIsOnFace(o, d, t);
    } else if t == AxisSlab(o.y, d.y, MinBound.y, MaxBound.y).lo || t == AxisSlab(o.y, d.y, MinBound.y, MaxBound.y).hi {
      YEndpointIsOnFace(o, d, t);
    } else {
      ZEndpointIsOnFace(o, d, t);
    }
  }

  /** The ray at an entry or exit parameter of the x slab lies near an x plane. */
  lemma XEndpointIsOnFace(o: Vec3, d: Vec3, t: real)
    requires d.x != 0.0
    requires t == AxisSlab(o.x, d.x, MinBound.x, MaxBound.x).lo || t == AxisSlab(o.x, d.x, MinBound.x, MaxBound.x).hi
    ensures ClassifyFace(Add(o, Scale(d, t))).Some?
  {
    var p := Add(o, Scale(d, t));
    assert p.x == o.x + d.x * t;
    AxisEndpointsOnPlanes(o.x, d.x, MinBound.x, MaxBound.x, t);
    PointOnSomePlaneClassifies(p);
  }

  /** The ray at an entry or exit parameter of the y slab lies near a y plane. */
  lemma YEndpointIsOnFace(o: Vec3, d: Vec3, t: real)
    requires d.y != 0.0
    requires t == AxisSlab(o.y, d.y, MinBound.y, MaxBound.y).lo || t == AxisSlab(o.y, d.y, MinBound.y, MaxBound.y).hi
    ensures ClassifyFace(Add(o, Scale(d, t))).Some?
  {
    var p := Add(o, Scale(d, t));
    assert p.y == o.y + d.y * t;
    AxisEndpointsOnPlanes(o.y, d.y, MinBound.y, MaxBound.y, t);
    PointOnSomePlaneClassifies(p);
  }

  /** The ray at an entry or exit parameter of the z slab lies near a z plane. */
  lemma ZEndpointIsOnFace(o: Vec3, d: Vec3, t: real)
    requires d.z != 0.0
    requires t == AxisSlab(o.z, d.z, MinBound.z, MaxBound.z).lo || t == AxisSlab(o.z, d.z, MinBound.z, MaxBound.z).hi
    ensures ClassifyFace(Add(o, Scale(d, t))).Some?
  {
    var p := Add(o, Scale(d, t));
    assert p.z == o.z + d.z * t;
    AxisEndpointsOnPlanes(o.z, d.z, MinBound.z, MaxBound.z, t);
    PointOnSomePlaneClassifies(p);
  }

  /** A point lying near one of the six planes is classified. */
  lemma PointOnSomePlaneClassifies(p: Vec3)
    requires Near(p.x, MinBound.x) || Near(p.x, MaxBound.x) || Near(p.y, MinBound.y) ||
             Near(p.y, MaxBound.y) || Near(p.z, MinBound.z) || Near(p.z, MaxBound.z)
    ensures ClassifyFace(p).Some?
  {
  }

  /** A hit near y = 70 that is on no x face shows the sky image. */
  lemma TopPlaneShowsSky(p: Vec3)
    requires OnFace(p, Sky) && !OnFace(p, Left) && !OnFace(p, Right)
    ensures ClassifyFace(p) == Some(Sky)
    ensures FaceRequest(Sky, p).key == "skybox_sky"
  {
  }

  /** A hit near y = -50 that is on no x face shows the ground image. */
  lemma BottomPlaneShowsGround(p: Vec3)
    requires OnFace(p, Ground) && !OnFace(p, Left) && !OnFace(p, Right)
    ensures ClassifyFace(p) == Some(Ground)
    ensures FaceRequest(Ground, p).key == "skybox_ground"
  {
  }

  /** A ray that leaves the box through the top plane, away from the x faces, is coloured from the sky image. */
  lemma ExitThroughTopShowsSky(ext: Externals, o: Vec3, d: Vec3)
    requires NonAxisParallel(d) && !Misses(o, d)
    requires HitPoint(o, d).y == MaxBound.y
    requires !OnFace(HitPoint(o, d), Left) && !OnFace(HitPoint(o, d), Right)
    ensures GetColor(ext, o, d) == LoadTexture(ext, FaceRequest(Sky, HitPoint(o, d)))
    ensures FaceRequest(Sky, HitPoint(o, d)).key == "skybox_sky"
  {
    TopPlaneShowsSky(HitPoint(o, d));
  }

  // ------------------------------------------------------------- texel index

  /** Truncating a non-negative real gives a non-negative integer no larger than it. */
  lemma TruncOfNonNegative(r: real)
    requires 0.0 <= r
    ensures 0 <= Trunc(r) && Trunc(r) as real <= r
  {
  }

  /** For a >= 0 and b > 0, fmod lies in [0, b). */
  lemma FModRange(a: real, b: real)
    requires 0.0 <= a && 0.0 < b
    ensures 0.0 <= FMod(a, b) < b
  {
    var q := a / b;
    QuotientFacts(a, b);
    assert Trunc(q) == q.Floor;
    FloorBracket(q);
    RemainderBracket(a, b, q.Floor as real, q);
  }

  /** a / b is non-negative and multiplies back to a. */
  lemma QuotientFacts(a: real, b: real)
    requires 0.0 <= a && 0.0 < b
    ensures 0.0 <= a / b && (a / b) * b == a
  {
  }

  lemma FloorBracket(q: real)
    ensures q.Floor as real <= q < q.Floor as real + 1.0
  {
  }

  /** With a == q * b and m <= q < m + 1, the remainder a - m * b lies in [0, b). */
  lemma RemainderBracket(a: real, b: real, m: real, q: real)
    requires m <= q < m + 1.0 && 0.0 < b && q * b == a
    ensures 0.0 <= a - m * b < b
  {
    var f := q - m;
    assert 0.0 <= f < 1.0;
    assert f * b == q * b - m * b;
    assert 0.0 <= f * b;
    assert (1.0 - f) * b == b - f * b;
    assert 0.0 < (1.0 - f) * b;
    assert a - m * b == f * b;
    assert f * b < b;
  }

  /** One coordinate of loadTexture: a non-negative position on a face of positive size lands inside the image. */
  lemma TexelCoordinateInRange(pos: real, surface: real, size: real)
    requires 0.0 <= pos && 0.0 < surface && 0.0 < size
    ensures 0 <= TexelCoordinate(pos, surface, size)
    ensures TexelCoordinate(pos, surface, size) as real < size
  {
    var v := pos / surface * size;
    assert TexelCoordinate(pos, surface, size) == Trunc(FMod(v, size));
    ScaledQuotientNonNegative(pos, surface, size);
    WrappedIndexInRange(v, size);
  }

  lemma ScaledQuotientNonNegative(pos: real, surface: real, size: real)
    requires 0.0 <= pos && 0.0 < surface && 0.0 < size
    ensures 0.0 <= pos / surface * size
  {
    QuotientFacts(pos, surface);
    ProductNonNegative(pos / surface, size);
  }

  /** Truncating fmod(v, size) for v >= 0 gives an index in [0, size). */
  lemma WrappedIndexInRange(v: real, size: real)
    requires 0.0 <= v && 0.0 < size
    ensures 0 <= Trunc(FMod(v, size)) && Trunc(FMod(v, size)) as real < size
  {
    FModRange(v, size);
    TruncOfNonNegative(FMod(v, size));
  }

  lemma ProductNonNegative(x: real, y: real)
    requires 0.0 <= x && 0.0 <= y
    ensures 0.0 <= x * y
  {
  }

  /** For non-negative positions on a face of positive size, the texel lies inside the image. */
  lemma TexelInImage(ext: Externals, req: TextureRequest)
    requires 0.0 <= req.x && 0.0 <= req.y
    requires 0.0 < req.surfaceWidth && 0.0 < req.surfaceHeight
    ensures var (tx, ty) := TexelIndex(ext, req);
      var tsize := ext.imageSize(req.key);
      0 <= tx && tx as real < tsize.0 && 0 <= ty && ty as real < tsize.1
  {
    var tsize := ext.imageSize(req.key);
    TexelCoordinateInRange(req.x, req.surfaceWidth, tsize.0);
    TexelCoordinateInRange(req.y, req.surfaceHeight, tsize.1);
  }

  /** The request names a face of non-zero size and its texel lies inside the named image. */
  predicate ReadsInsideImage(ext: Externals, req: TextureRequest) {
    && req.surfaceWidth != 0.0 && req.surfaceHeight != 0.0
    && var (tx, ty) := TexelIndex(ext, req);
       var tsize := ext.imageSize(req.key);
       0 <= tx && tx as real < tsize.0 && 0 <= ty && ty as real < tsize.1
  }

  /** Whatever point a face is given, its loadTexture call reads inside the face's image. */
  lemma FaceTexelInImage(ext: Externals, f: SkyFace, p: Vec3)
    ensures ReadsInsideImage(ext, FaceRequest(f, p))
  {
    TexelInImage(ext, FaceRequest(f, p));
  }

  /** Every texel the skybox reads lies inside the image it reads from. */
  lemma SkyTexelInImage(ext: Externals, o: Vec3, d: Vec3)
    requires NonAxisParallel(d) && !Misses(o, d)
    ensures ReadsInsideImage(ext, FaceRequest(HitFace(o, d), HitPoint(o, d)))
  {
    FaceTexelInImage(ext, HitFace(o, d), HitPoint(o, d));
  }
}
