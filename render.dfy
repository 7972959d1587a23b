/**
 * The frame loop (render): for every pixel, row by row from the top, map the
 * pixel centre to normalised device coordinates, build the camera ray, trace
 * it with castRay at depth 0 and draw the colour.
 */
module Render {
  import opened Types
  import opened RayCaster

  /** The field of view: 3.1415 / 3 radians. */
  const Fov: real := 3.1415 / 3.0

  /** Horizontal normalised device coordinate of pixel column x: its centre mapped into (-1, 1). */
  function NdcX(x: nat, width: nat): real
    requires x < width
  {
    (2.0 * (x as real + 0.5)) / width as real - 1.0
  }

  /** Vertical normalised device coordinate of pixel row y; row 0 is at the top, so the sign is flipped. */
  function NdcY(y: nat, height: nat): real
    requires y < height
  {
    (-(2.0 * (y as real + 0.5))) / height as real + 1.0
  }

  /** The normalised camera ray for screen-plane offsets (screenX, screenY). */
  function RayThrough(ext: Externals, camera: Camera, screenX: real, screenY: real): Vec3 {
    var cameraDir := ext.normalize(Sub(camera.target, camera.position));
    var cameraX := ext.normalize(Cross(cameraDir, camera.up));
    var cameraY := ext.normalize(Cross(cameraX, cameraDir));
    ext.normalize(Add(Add(cameraDir, Scale(cameraX, screenX)), Scale(cameraY, screenY)))
  }

  /** The horizontal screen-plane offset of pixel column x: its NDC scaled by the aspect ratio and tan(fov / 2). */
  function ScreenX(w: World, x: nat): real
    requires x < w.settings.width
  {
    NdcX(x, w.settings.width) * w.settings.ratio * w.ext.tan(Fov / 2.0)
  }

  /** The vertical screen-plane offset of pixel row y: its NDC scaled by tan(fov / 2). */
  function ScreenY(w: World, y: nat): real
    requires y < w.settings.height
  {
    NdcY(y, w.settings.height) * w.ext.tan(Fov / 2.0)
  }

  /** The camera ray through pixel (x, y). */
  function PixelDirection(w: World, camera: Camera, x: nat, y: nat): Vec3
    requires x < w.settings.width && y < w.settings.height
  {
    RayThrough(w.ext, camera, ScreenX(w, x), ScreenY(w, y))
  }

  /** The castRay call for pixel (x, y): from the camera, at depth 0, skipping no object. */
  function PrimaryRay(w: World, camera: Camera, x: nat, y: nat): RayCall
    requires x < w.settings.width && y < w.settings.height
  {
    RayCall(camera.position, PixelDirection(w, camera, x, y), 0, None)
  }

  /** The colour of pixel (x, y). */
  function PixelColor(w: World, camera: Camera, x: nat, y: nat): Color
    requires x < w.settings.width && y < w.settings.height
  {
    Trace(w, PrimaryRay(w, camera, x, y))
  }

  /** The colour of every pixel of the window (black outside it, where nothing is drawn). */
  function Image(w: World, camera: Camera): (nat, nat) -> Color {
    (x: nat, y: nat) =>
      if x < w.settings.width && y < w.settings.height then PixelColor(w, camera, x, y) else Black
  }

  /** image holds, at every pixel of the window, the colour castRay gives that pixel. */
  ghost predicate Shows(w: World, camera: Camera, image: (nat, nat) -> Color) {
    forall x: nat, y: nat {:trigger PixelColor(w, camera, x, y)} ::
      x < w.settings.width && y < w.settings.height ==> image(x, y) == PixelColor(w, camera, x, y)
  }

  /** The window's own image shows the traced colours. */
  lemma ImageShows(w: World, camera: Camera)
    ensures Shows(w, camera, Image(w, camera))
  {
  }

  /** One point(glm::vec2(x, y), color) call. */
  datatype Pixel = Pixel(x: nat, y: nat, color: Color)

  /** The first n points drawn in row y, left to right. */
  function Row(image: (nat, nat) -> Color, y: nat, n: nat): seq<Pixel> {
    if n == 0 then []
    else Row(image, y, n - 1) + [Pixel(n - 1, y, image(n - 1, y))]
  }

  /** The points drawn by the first n complete rows of the given width, top to bottom. */
  function Rows(image: (nat, nat) -> Color, width: nat, n: nat): seq<Pixel> {
    if n == 0 then []
    else Rows(image, width, n - 1) + Row(image, n - 1, width)
  }

  /** Every point one frame draws, in drawing order. */
  function Frame(w: World, camera: Camera): seq<Pixel> {
    Rows(Image(w, camera), w.settings.width, w.settings.height)
  }

  /** The position of pixel (x, y) in row-major drawing order. */
  function PixelIndex(x: nat, y: nat, width: nat): nat {
    y * width + x
  }

  /** The window: the sequence of points drawn so far. */
  class Canvas {
    var drawn: seq<Pixel>

    constructor()
      ensures drawn == []
    {
      drawn := [];
    }

    /** point(position, color): draw one pixel. */
    method Point(x: nat, y: nat, color: Color)
      modifies this
      ensures drawn == old(drawn) + [Pixel(x, y, color)]
    {
      drawn := drawn + [Pixel(x, y, color)];
    }
  }

  /** The body of render's inner loop up to castRay: the camera ray through pixel (x, y). */
  method CameraRay(w: World, camera: Camera, x: nat, y: nat) returns (rayDirection: Vec3)
    requires x < w.settings.width && y < w.settings.height
    ensures rayDirection == PixelDirection(w, camera, x, y)
  {
    var fov := Fov;
    var screenX := (2.0 * (x as real + 0.5)) / w.settings.width as real - 1.0;
    var screenY := (-(2.0 * (y as real + 0.5))) / w.settings.height as real + 1.0;
    assert screenX == NdcX(x, w.settings.width);
    assert screenY == NdcY(y, w.settings.height);
    screenX := screenX * w.settings.ratio;
    screenX := screenX * w.ext.tan(fov / 2.0);
    screenY := screenY * w.ext.tan(fov / 2.0);
    assert screenX == ScreenX(w, x);
    assert screenY == ScreenY(w, y);

    var cameraDir := w.ext.normalize(Sub(camera.target, camera.position));
    var cameraX := w.ext.normalize(Cross(cameraDir, camera.up));
    var cameraY := w.ext.normalize(Cross(cameraX, cameraDir));
    rayDirection := w.ext.normalize(Add(Add(cameraDir, Scale(cameraX, screenX)), Scale(cameraY, screenY)));
    assert rayDirection == RayThrough(w.ext, camera, screenX, screenY);
  }

  /**
   * render(): one frame, drawn row by row onto the canvas. The ghost image
   * names the colours the frame is made of; Image(w, camera) is one (see
   * ImageShows), and then the points drawn are Frame(w, camera).
   */
  method Render(w: World, camera: Camera, canvas: Canvas, ghost image: (nat, nat) -> Color)
    requires Shows(w, camera, image)
    modifies canvas
    ensures canvas.drawn == old(canvas.drawn) + Rows(image, w.settings.width, w.settings.height)
  {
    var y := 0;
    while y < w.settings.height
      invariant 0 <= y <= w.settings.height
      invariant canvas.drawn == old(canvas.drawn) + Rows(image, w.settings.width, y)
    {
      DrawRow(w, camera, canvas, y, image);
      AppendAssociative(old(canvas.drawn), Rows(image, w.settings.width, y), Row(image, y, w.settings.width));
      y := y + 1;
    }
  }

  /** One pass of render's inner loop: the pixels of row y, left to right. */
  method DrawRow(w: World, camera: Camera, canvas: Canvas, y: nat, ghost image: (nat, nat) -> Color)
    requires y < w.settings.height && Shows(w, camera, image)
    modifies canvas
    ensures canvas.drawn == old(canvas.drawn) + Row(image, y, w.settings.width)
  {
    var x := 0;
    while x < w.settings.width
      invariant 0 <= x <= w.settings.width
      invariant canvas.drawn == old(canvas.drawn) + Row(image, y, x)
    {
      var pixelColor := ShadePixel(w, camera, x, y, image);
      canvas.Point(x, y, pixelColor);
      AppendAssociative(old(canvas.drawn), Row(image, y, x), [Pixel(x, y, pixelColor)]);
      x := x + 1;
    }
  }

  /** The body of render's inner loop before point: build the camera ray and cast it at depth 0. */
  method ShadePixel(w: World, camera: Camera, x: nat, y: nat, ghost image: (nat, nat) -> Color) returns (pixelColor: Color)
    requires x < w.settings.width && y < w.settings.height && Shows(w, camera, image)
    ensures pixelColor == image(x, y)
  {
    var rayDirection := CameraRay(w, camera, x, y);
    ghost var primary := RayCall(camera.position, rayDirection, 0, None);
    assert primary == PrimaryRay(w, camera, x, y);
    pixelColor := CastRay(w, RayCall(camera.position, rayDirection, 0, None));
    assert pixelColor == PixelColor(w, camera, x, y);
  }

  lemma AppendAssociative<T>(a: seq<T>, b: seq<T>, c: seq<T>)
    ensures a + (b + c) == a + b + c
  {
  }

  /** Every pixel centre maps strictly inside (-1, 1) on both axes. */
  lemma NdcInOpenUnitInterval(x: nat, y: nat, width: nat, height: nat)
    requires x < width && y < height
    ensures -1.0 < NdcX(x, width) < 1.0
    ensures -1.0 < NdcY(y, height) < 1.0
  {
    CentreFraction(x, width);
    CentreFraction(y, height);
    NegatedQuotient(2.0 * (y as real + 0.5), height as real);
  }

  lemma NegatedQuotient(a: real, b: real)
    requires b != 0.0
    ensures (-a) / b == -(a / b)
  {
  }

  /** For a pixel centre c = i + 0.5 with i < n, the fraction 2c / n lies strictly between 0 and 2. */
  lemma CentreFraction(i: nat, n: nat)
    requires i < n
    ensures 0.0 < (2.0 * (i as real + 0.5)) / n as real < 2.0
  {
    QuotientBetween(2.0 * (i as real + 0.5), n as real);
  }

  lemma QuotientBetween(c: real, n: real)
    requires 0.0 < c < 2.0 * n
    ensures 0.0 < c / n < 2.0
  {
    var q := c / n;
    assert q * n == c;
    assert (2.0 - q) * n == 2.0 * n - c;
    PositiveFactor(2.0 - q, n);
    PositiveQuotient(c, n);
  }

  lemma PositiveFactor(a: real, b: real)
    requires 0.0 < b && 0.0 < a * b
    ensures 0.0 < a
  {
  }

  lemma PositiveQuotient(a: real, b: real)
    requires 0.0 < a && 0.0 < b
    ensures 0.0 < a / b
  {
  }

  /** Mirrored columns get opposite coordinates, and the vertical axis is the horizontal mapping flipped. */
  lemma NdcSymmetric(x: nat, width: nat)
    requires x < width
    ensures NdcX(width - 1 - x, width) == -NdcX(x, width)
    ensures NdcY(x, width) == -NdcX(x, width)
  {
    var n := width as real;
    var a := 2.0 * (x as real + 0.5);
    var b := 2.0 * ((width - 1 - x) as real + 0.5);
    assert a + b == 2.0 * n;
    assert a / n + b / n == (a + b) / n;
    assert (a + b) / n == 2.0;
  }

  /** Further right means a larger horizontal coordinate; further down a smaller vertical one. */
  lemma NdcMonotone(i: nat, j: nat, n: nat)
    requires i < j < n
    ensures NdcX(i, n) < NdcX(j, n)
    ensures NdcY(j, n) < NdcY(i, n)
  {
    var ci := 2.0 * (i as real + 0.5);
    var cj := 2.0 * (j as real + 0.5);
    assert cj / n as real - ci / n as real == (cj - ci) / n as real;
    assert 0.0 < (cj - ci) / n as real;
  }

  /**
   * A frame draws width * height points, and the point at row-major index
   * y * width + x is pixel (x, y) with the colour castRay gives it: every
   * pixel is drawn exactly once.
   */
  lemma FrameLayout(w: World, camera: Camera)
    ensures |Frame(w, camera)| == w.settings.width * w.settings.height
    ensures forall x: nat, y: nat {:trigger PixelIndex(x, y, w.settings.width)} ::
      x < w.settings.width && y < w.settings.height ==>
        && PixelIndex(x, y, w.settings.width) < |Frame(w, camera)|
        && Frame(w, camera)[PixelIndex(x, y, w.settings.width)] == Pixel(x, y, PixelColor(w, camera, x, y))
  {
    var image := Image(w, camera);
    RowsLength(image, w.settings.width, w.settings.height);
    forall x: nat, y: nat | x < w.settings.width && y < w.settings.height
      ensures PixelIndex(x, y, w.settings.width) < |Frame(w, camera)|
      ensures Frame(w, camera)[PixelIndex(x, y, w.settings.width)] == Pixel(x, y, PixelColor(w, camera, x, y))
    {
      RowsPixel(image, w.settings.width, w.settings.height, x, y);
      assert image(x, y) == PixelColor(w, camera, x, y);
    }
  }

  lemma {:induction false} RowsLength(image: (nat, nat) -> Color, width: nat, n: nat)
    ensures |Rows(image, width, n)| == n * width
  {
    if n > 0 {
      RowsLength(image, width, n - 1);
      RowLayout(image, n - 1, width);
      assert (n - 1) * width + width == n * width;
    }
  }

  lemma {:induction false} RowsPixel(image: (nat, nat) -> Color, width: nat, n: nat, x: nat, y: nat)
    requires x < width && y < n
    ensures PixelIndex(x, y, width) < |Rows(image, width, n)|
    ensures Rows(image, width, n)[PixelIndex(x, y, width)] == Pixel(x, y, image(x, y))
  {
    if y < n - 1 {
      RowsPixel(image, width, n - 1, x, y);
      EarlierRowPixel(image, width, n, x, y);
    } else {
      LastRowPixel(image, width, n, x);
    }
  }

  /** Appending row n - 1 leaves the pixels of the earlier rows where they were. */
  lemma EarlierRowPixel(image: (nat, nat) -> Color, width: nat, n: nat, x: nat, y: nat)
    requires 0 < n && x < width && y < n - 1
    requires PixelIndex(x, y, width) < |Rows(image, width, n - 1)|
    requires Rows(image, width, n - 1)[PixelIndex(x, y, width)] == Pixel(x, y, image(x, y))
    ensures PixelIndex(x, y, width) < |Rows(image, width, n)|
    ensures Rows(image, width, n)[PixelIndex(x, y, width)] == Pixel(x, y, image(x, y))
  {
    AppendKeepsPrefix(Rows(image, width, n - 1), Row(image, n - 1, width), PixelIndex(x, y, width));
  }

  /** Pixel (x, n - 1) sits x places after the end of the first n - 1 rows. */
  lemma LastRowPixel(image: (nat, nat) -> Color, width: nat, n: nat, x: nat)
    requires 0 < n && x < width
    ensures PixelIndex(x, n - 1, width) < |Rows(image, width, n)|
    ensures Rows(image, width, n)[PixelIndex(x, n - 1, width)] == Pixel(x, n - 1, image(x, n - 1))
  {
    RowsLength(image, width, n - 1);
    RowLayout(image, n - 1, width);
    AppendIndexesSuffix(Rows(image, width, n - 1), Row(image, n - 1, width), x);
    assert PixelIndex(x, n - 1, width) == |Rows(image, width, n - 1)| + x;
  }

  lemma AppendKeepsPrefix<T>(a: seq<T>, b: seq<T>, k: nat)
    requires k < |a|
    ensures (a + b)[k] == a[k]
  {
  }

  lemma AppendIndexesSuffix<T>(a: seq<T>, b: seq<T>, k: nat)
    requires k < |b|
    ensures |a| + k < |a + b| && (a + b)[|a| + k] == b[k]
  {
  }

  /** Row y drawn up to column n holds pixels (0, y) .. (n - 1, y) in order. */
  lemma {:induction false} RowLayout(image: (nat, nat) -> Color, y: nat, n: nat)
    ensures |Row(image, y, n)| == n
    ensures forall x :: 0 <= x < n ==> Row(image, y, n)[x] == Pixel(x, y, image(x, y))
  {
    if n > 0 {
      RowLayout(image, y, n - 1);
    }
  }
}
