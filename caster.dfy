// The ray caster's control logic (caster.cpp): which shape a ray sees
// first, whether a light is in shadow, how the lights and the ambient term
// add up, and how the image buffer is filled. The floating-point geometry
// it calls (intersection, normalisation, Phong shading, the primary ray) is
// given as uninterpreted functions.

module Casting {
  import opened Common
  import opened Materials
  import opened SceneObjects
  import opened Hits
  import opened Tokens
  import opened SceneReader
  import opened Images

  /** A ray: start point and direction. */
  datatype Ray = Ray(start: Vec3, direction: Vec3)

  /** The pixel step of the caster: never set, a finite quotient, or the
      infinity or NaN of a float division by zero pixels. */
  datatype PixelStep = Unset | Finite(size: real) | NonFinite

  /** The geometry the caster calls and this model does not define. */
  datatype Geometry = Geometry(
    // Shape::intersects(start, direction, hit): the hit it reports, if any.
    intersects: (Shape, Vec3, Vec3) -> Option<HitInfo>,
    // glm::normalize.
    normalize: Vec3 -> Vec3,
    // local_illumination(V, N, L, light colour, material).
    illumination: (Vec3, Vec3, Vec3, Vec3, Material) -> Vec3,
    // set_ray(x, y) for the camera, its frame and the pixel steps.
    primaryRay: (Camera, PixelStep, PixelStep, int, int) -> Ray)

  /** Everything the colour of a pixel depends on, besides the geometry. */
  datatype Settings = Settings(
    shapes: seq<Shape>, lights: seq<Light>, camera: Camera,
    pixelWidth: PixelStep, pixelHeight: PixelStep,
    background: Vec3, shadowing: bool, ambientLight: Vec3)

  /** get_first_hit ignores hits at this distance or beyond. */
  const Cutoff: real := 100000.0

  /** hits_something ignores hits this close to the ray's start. */
  const ShadowEpsilon: real := 0.001

  const Background: Vec3 := Vec3(0.7, 0.6, 0.4)

  /** The clip extent divided by a pixel count, as a float division. */
  function PixelStepOf(extent: real, n: int): (s: PixelStep)
    ensures n != 0 <==> s.Finite?
    ensures n != 0 ==> s.size * (n as real) == extent
  {
    if n == 0 then NonFinite else Finite(extent / n as real)
  }

  // ---------------------------------------------------------------------
  // Shadows (hits_something)

  function HitOf(g: Geometry, shapes: seq<Shape>, i: nat, start: Vec3, dir: Vec3): Option<HitInfo>
    requires i < |shapes|
  {
    g.intersects(shapes[i], start, dir)
  }

  /** Shape `i` reports a hit that lies ahead of the start along the ray. */
  predicate Blocks(g: Geometry, shapes: seq<Shape>, i: nat, start: Vec3, dir: Vec3)
    requires i < |shapes|
  {
    var h := HitOf(g, shapes, i, start, dir);
    h.Some? && Dot(Sub(h.value.position, start), dir) > ShadowEpsilon
  }

  predicate Shadowed(g: Geometry, shapes: seq<Shape>, start: Vec3, dir: Vec3)
  {
    exists i :: 0 <= i < |shapes| && Blocks(g, shapes, i, start, dir)
  }

  // ---------------------------------------------------------------------
  // The nearest hit (get_first_hit)

  /** A kept hit and the index of the shape that reported it. */
  datatype Nearest = Nearest(index: nat, hit: HitInfo)

  /** A hit get_first_hit may keep: reported and nearer than the cutoff. */
  predicate Candidate(g: Geometry, shapes: seq<Shape>, i: nat, start: Vec3, dir: Vec3)
    requires i < |shapes|
  {
    var h := HitOf(g, shapes, i, start, dir);
    h.Some? && h.value.t < Cutoff
  }

  /** The hit kept after scanning the first `n` shapes: a hit replaces the
      kept one only when strictly nearer. */
  function Closest(g: Geometry, shapes: seq<Shape>, start: Vec3, dir: Vec3, n: nat): Option<Nearest>
    requires n <= |shapes|
    decreases n
  {
    if n == 0 then None
    else
      var best := Closest(g, shapes, start, dir, n - 1);
      var bound := if best.Some? then best.value.hit.t else Cutoff;
      var h := HitOf(g, shapes, n - 1, start, dir);
      if h.Some? && h.value.t < bound then Some(Nearest(n - 1, h.value)) else best
  }

  function FirstHit(g: Geometry, shapes: seq<Shape>, start: Vec3, dir: Vec3): Option<Nearest>
  {
    Closest(g, shapes, start, dir, |shapes|)
  }

  /** No hit is kept exactly when no shape reports a hit nearer than the cutoff. */
  lemma {:induction false} ClosestNoneIff(g: Geometry, shapes: seq<Shape>, start: Vec3, dir: Vec3, n: nat)
    requires n <= |shapes|
    ensures Closest(g, shapes, start, dir, n).None?
        <==> forall i :: 0 <= i < n ==> !Candidate(g, shapes, i, start, dir)
    decreases n
  {
    if n > 0 {
      ClosestNoneIff(g, shapes, start, dir, n - 1);
      assert Closest(g, shapes, start, dir, n).None?
        <==> Closest(g, shapes, start, dir, n - 1).None? && !Candidate(g, shapes, n - 1, start, dir);
    }
  }

  lemma {:induction false} ClosestBelowCutoff(g: Geometry, shapes: seq<Shape>, start: Vec3, dir: Vec3, n: nat)
    requires n <= |shapes|
    ensures Closest(g, shapes, start, dir, n).Some? ==> Closest(g, shapes, start, dir, n).value.hit.t < Cutoff
    decreases n
  {
    if n > 0 {
      ClosestBelowCutoff(g, shapes, start, dir, n - 1);
    }
  }

  /** The kept hit is one a shape reported, its distance is the least of all
      candidates, and every earlier shape's hit is strictly farther: on equal
      distances the first shape in the scene wins. */
  lemma {:induction false} ClosestIsEarliestMinimum(g: Geometry, shapes: seq<Shape>, start: Vec3, dir: Vec3, n: nat)
    requires n <= |shapes|
    requires Closest(g, shapes, start, dir, n).Some?
    ensures var nr := Closest(g, shapes, start, dir, n).value;
      nr.index < n &&
      Candidate(g, shapes, nr.index, start, dir) &&
      HitOf(g, shapes, nr.index, start, dir) == Some(nr.hit) &&
      (forall j :: 0 <= j < n && Candidate(g, shapes, j, start, dir) ==>
         nr.hit.t <= HitOf(g, shapes, j, start, dir).value.t) &&
      (forall j :: 0 <= j < nr.index && Candidate(g, shapes, j, start, dir) ==>
         nr.hit.t < HitOf(g, shapes, j, start, dir).value.t)
    decreases n
  {
    var best := Closest(g, shapes, start, dir, n - 1);
    if best.Some? {
      ClosestIsEarliestMinimum(g, shapes, start, dir, n - 1);
    } else {
      ClosestNoneIff(g, shapes, start, dir, n - 1);
    }
  }

  // ---------------------------------------------------------------------
  // Shading (glossy_color, ray_color)

  function LightDirection(g: Geometry, hit: HitInfo, light: Light): Vec3
  {
    g.normalize(Sub(light.position, hit.position))
  }

  predicate LightBlocked(g: Geometry, shapes: seq<Shape>, hit: HitInfo, light: Light)
  {
    Shadowed(g, shapes, hit.position, LightDirection(g, hit, light))
  }

  /** One light's Phong term, seen from the reverse of the ray direction. */
  function Contribution(g: Geometry, dir: Vec3, hit: HitInfo, mat: Material, light: Light): Vec3
  {
    g.illumination(Neg(dir), hit.normal, LightDirection(g, hit, light), light.color, mat)
  }

  /** The light loop of glossy_color over `lights`. */
  function LightSum(g: Geometry, shapes: seq<Shape>, shadowing: bool, dir: Vec3, hit: HitInfo,
                    mat: Material, lights: seq<Light>): Vec3
    decreases |lights|
  {
    if |lights| == 0 then Zero3
    else
      var rest := LightSum(g, shapes, shadowing, dir, hit, mat, lights[..|lights| - 1]);
      var light := lights[|lights| - 1];
      if shadowing && LightBlocked(g, shapes, hit, light) then rest
      else Add(rest, Contribution(g, dir, hit, mat, light))
  }

  /** The lights that reach the hit point. */
  function Unblocked(g: Geometry, shapes: seq<Shape>, hit: HitInfo, lights: seq<Light>): (r: seq<Light>)
    ensures forall l :: l in r <==> l in lights && !LightBlocked(g, shapes, hit, l)
    decreases |lights|
  {
    if |lights| == 0 then []
    else
      var rest := Unblocked(g, shapes, hit, lights[..|lights| - 1]);
      var light := lights[|lights| - 1];
      assert forall l :: l in lights <==> l in lights[..|lights| - 1] || l == light;
      if LightBlocked(g, shapes, hit, light) then rest else rest + [light]
  }

  /** With shadowing on, the light loop adds exactly the lights that reach the
      hit point: a blocked light contributes nothing. */
  lemma {:induction false} ShadowingSkipsBlocked(g: Geometry, shapes: seq<Shape>, dir: Vec3, hit: HitInfo,
                                                  mat: Material, lights: seq<Light>)
    ensures LightSum(g, shapes, true, dir, hit, mat, lights)
         == LightSum(g, shapes, false, dir, hit, mat, Unblocked(g, shapes, hit, lights))
    decreases |lights|
  {
    if |lights| > 0 {
      var prefix := lights[..|lights| - 1];
      var light := lights[|lights| - 1];
      ShadowingSkipsBlocked(g, shapes, dir, hit, mat, prefix);
      var u := Unblocked(g, shapes, hit, prefix);
      if !LightBlocked(g, shapes, hit, light) {
        assert (u + [light])[..|u + [light]| - 1] == u;
      }
    }
  }

  /** When every light is blocked, only the ambient term is left. */
  lemma AllBlockedLeavesNoLight(g: Geometry, shapes: seq<Shape>, dir: Vec3, hit: HitInfo,
                                mat: Material, lights: seq<Light>)
    requires forall l :: l in lights ==> LightBlocked(g, shapes, hit, l)
    ensures LightSum(g, shapes, true, dir, hit, mat, lights) == Zero3
  {
    ShadowingSkipsBlocked(g, shapes, dir, hit, mat, lights);
    NoneUnblocked(g, shapes, hit, lights);
  }

  lemma {:induction false} NoneUnblocked(g: Geometry, shapes: seq<Shape>, hit: HitInfo, lights: seq<Light>)
    requires forall l :: l in lights ==> LightBlocked(g, shapes, hit, l)
    ensures Unblocked(g, shapes, hit, lights) == []
    decreases |lights|
  {
    if |lights| > 0 {
      var prefix := lights[..|lights| - 1];
      assert forall l :: l in prefix ==> l in lights;
      NoneUnblocked(g, shapes, hit, prefix);
      assert lights[|lights| - 1] in lights;
    }
  }

  /** glossy_color: the background without a material, otherwise the light
      loop plus the ambient term, added once. */
  function Glossy(g: Geometry, s: Settings, dir: Vec3, hit: HitInfo): Vec3
  {
    match hit.material
    case None => s.background
    case Some(mat) =>
      Add(LightSum(g, s.shapes, s.shadowing, dir, hit, mat, s.lights), Mul(mat.ambient, s.ambientLight))
  }

  /** ray_color of pixel (x, y). */
  function RayColorOf(g: Geometry, s: Settings, x: int, y: int): Vec3
  {
    var ray := g.primaryRay(s.camera, s.pixelWidth, s.pixelHeight, x, y);
    match FirstHit(g, s.shapes, ray.start, ray.direction)
    case None => s.background
    case Some(nr) => Glossy(g, s, ray.direction, nr.hit)
  }

  /** A pixel is the background when its ray meets no shape before the
      cutoff, or meets first a hit without material. */
  lemma BackgroundWhenNothingLit(g: Geometry, s: Settings, x: int, y: int)
    ensures var ray := g.primaryRay(s.camera, s.pixelWidth, s.pixelHeight, x, y);
      (forall i :: 0 <= i < |s.shapes| ==> !Candidate(g, s.shapes, i, ray.start, ray.direction))
      ==> RayColorOf(g, s, x, y) == s.background
    ensures var ray := g.primaryRay(s.camera, s.pixelWidth, s.pixelHeight, x, y);
      var first := FirstHit(g, s.shapes, ray.start, ray.direction);
      first.Some? && first.value.hit.material.None? ==> RayColorOf(g, s, x, y) == s.background
  {
    var ray := g.primaryRay(s.camera, s.pixelWidth, s.pixelHeight, x, y);
    ClosestNoneIff(g, s.shapes, ray.start, ray.direction, |s.shapes|);
  }

  // ---------------------------------------------------------------------
  // The image buffer (render)

  /** A colour channel as a byte: channel*255 truncated toward zero, then
      clamped to 0..255. */
  function ChannelByte(v: real): Byte
  {
    Clamp(TruncTowardZero(v * 255.0), 0, 255)
  }

  /** Channels at or below 0 become 0, at or above 1 become 255, and in
      between the byte is the whole part of channel*255. */
  lemma ChannelByteScale(v: real)
    ensures v <= 0.0 ==> ChannelByte(v) == 0
    ensures v >= 1.0 ==> ChannelByte(v) == 255
    ensures 0.0 <= v < 1.0 ==> ChannelByte(v) as real <= v * 255.0 < ChannelByte(v) as real + 1.0
  {
  }

  function PixelBytes(c: Vec3): (r: seq<Byte>)
    ensures |r| == 3
  {
    [ChannelByte(c.x), ChannelByte(c.y), ChannelByte(c.z)]
  }

  /** Row y of the rendered image, pixel by pixel. */
  function RenderedRow(g: Geometry, s: Settings, width: nat, y: nat): (r: seq<seq<Byte>>)
    ensures |r| == width
  {
    seq(width, x requires 0 <= x < width => PixelBytes(RayColorOf(g, s, x, y)))
  }

  function RenderedRows(g: Geometry, s: Settings, width: nat, height: nat): (r: seq<seq<Byte>>)
    ensures |r| == height
  {
    seq(height, y requires 0 <= y < height => Concat(RenderedRow(g, s, width, y)))
  }

  /** The bytes render writes: rows in order, three bytes per pixel. */
  function Frame(g: Geometry, s: Settings, width: nat, height: nat): seq<Byte>
  {
    Concat(RenderedRows(g, s, width, height))
  }

  lemma Area(w: nat, h: nat)
    ensures w * h * 3 == h * (w * 3) == (w * 3) * h
  {
  }

  lemma RowStep(y: nat, h: nat, size: nat)
    requires y < h
    ensures y * size + size == (y + 1) * size <= h * size
  {
    MulLe(y + 1, h, size);
  }

  lemma RowOffset(y: nat, w: nat, x: nat, c: nat)
    ensures 3 * (y * w + x) + c == y * (w * 3) + (x * 3 + c)
  {
  }

  /** Rows of `w` three-byte cells: channel c of cell (x, y) is at 3*(y*w + x) + c. */
  lemma GridAt(rows: seq<seq<Byte>>, row: seq<seq<Byte>>, w: nat, x: nat, y: nat, c: nat)
    requires forall i :: 0 <= i < |rows| ==> |rows[i]| == w * 3
    requires |row| == w && forall i :: 0 <= i < w ==> |row[i]| == 3
    requires y < |rows| && rows[y] == Concat(row) && x < w && c < 3
    ensures |Concat(rows)| == w * |rows| * 3
    ensures 3 * (y * w + x) + c < |Concat(rows)|
    ensures Concat(rows)[3 * (y * w + x) + c] == row[x][c]
  {
    MulLe(x + 1, w, 3);
    ConcatAt(rows, w * 3, y, x * 3 + c);
    ConcatAt(row, 3, x, c);
    RowOffset(y, w, x, c);
    Area(w, |rows|);
  }

  /** The frame holds width*height*3 bytes; channel c of pixel (x, y) is at
      3*(y*width + x) + c and is that channel of the pixel's ray colour. */
  lemma FramePixel(g: Geometry, s: Settings, width: nat, height: nat, x: nat, y: nat, c: nat)
    requires x < width && y < height && c < 3
    ensures |Frame(g, s, width, height)| == width * height * 3
    ensures 3 * (y * width + x) + c < |Frame(g, s, width, height)|
    ensures Frame(g, s, width, height)[3 * (y * width + x) + c]
         == PixelBytes(RayColorOf(g, s, x, y))[c]
  {
    var rows := RenderedRows(g, s, width, height);
    forall i | 0 <= i < |rows|
      ensures |rows[i]| == width * 3
    {
      ConcatLength(RenderedRow(g, s, width, i), 3);
    }
    GridAt(rows, RenderedRow(g, s, width, y), width, x, y, c);
  }

  /** The sum of the light colours times the ambient fraction, as read_scene
      accumulates it. */
  function AmbientSum(lights: seq<Light>, fraction: real): Vec3
    decreases |lights|
  {
    if |lights| == 0 then Zero3
    else Add(AmbientSum(lights[..|lights| - 1], fraction), Scale(lights[|lights| - 1].color, fraction))
  }

  function ColorSum(lights: seq<Light>): Vec3
    decreases |lights|
  {
    if |lights| == 0 then Zero3 else Add(ColorSum(lights[..|lights| - 1]), lights[|lights| - 1].color)
  }

  /** The ambient light is the fraction of the total light colour. */
  lemma {:induction false} AmbientSumScales(lights: seq<Light>, fraction: real)
    ensures AmbientSum(lights, fraction) == Scale(ColorSum(lights), fraction)
    decreases |lights|
  {
    if |lights| > 0 {
      var prefix := lights[..|lights| - 1];
      AmbientSumScales(prefix, fraction);
      ScaleAdd(ColorSum(prefix), lights[|lights| - 1].color, fraction);
    }
  }

  // ---------------------------------------------------------------------
  // The caster

  class Caster {
    const geometry: Geometry
    /** The image buffer, three bytes per pixel; empty before the first allocation. */
    var pixels: array<Byte>
    var width: nat
    var height: nat
    var pixelWidth: PixelStep
    var pixelHeight: PixelStep
    var background: Vec3
    var shadowing: bool
    var shapes: seq<Shape>
    var lights: seq<Light>
    var camera: Camera
    var ambientLight: Vec3

    ghost predicate Valid()
      reads this
    {
      pixels.Length == width * height * 3
    }

    function CurrentSettings(): Settings
      reads this
    {
      Settings(shapes, lights, camera, pixelWidth, pixelHeight, background, shadowing, ambientLight)
    }

    /** A caster for a width-by-height image, with the default camera, no
        scene, shadows on and a sand-coloured background. The ambient light,
        which the source leaves unset until a scene is read, is zero. */
    constructor (geometry: Geometry, width: nat, height: nat)
      ensures Valid() && fresh(pixels)
      ensures this.geometry == geometry
      ensures this.width == width && this.height == height
      ensures camera == DefaultCamera && shapes == [] && lights == []
      ensures background == Background && shadowing && ambientLight == Zero3
      ensures width != 0 || height != 0 ==>
        pixelWidth == PixelStepOf(2.0, width) && pixelHeight == PixelStepOf(2.0, height)
      ensures width == 0 && height == 0 ==> pixelWidth == Unset && pixelHeight == Unset
    {
      this.geometry := geometry;
      this.pixels := new Byte[0];
      this.width := 0;
      this.height := 0;
      this.pixelWidth := Unset;
      this.pixelHeight := Unset;
      this.camera := DefaultCamera;
      this.shapes := [];
      this.lights := [];
      this.ambientLight := Zero3;
      new;
      UpdateImageDimensions(width, height);
      background := Background;
      shadowing := true;
    }

    /** allocate_image: a new buffer of width*height*3 bytes. */
    method AllocateImage(width: nat, height: nat)
      modifies this
      ensures Valid() && fresh(pixels)
      ensures this.width == width && this.height == height
      ensures CurrentSettings() == old(CurrentSettings())
    {
      pixels := new Byte[width * height * 3];
      this.width := width;
      this.height := height;
    }

    /** update_image_dimensions: a new buffer and new pixel steps, only when
        the size changes. */
    method UpdateImageDimensions(width: nat, height: nat)
      requires Valid()
      modifies this
      ensures Valid()
      ensures this.width == width && this.height == height
      ensures shapes == old(shapes) && lights == old(lights) && camera == old(camera)
      ensures background == old(background) && shadowing == old(shadowing)
      ensures ambientLight == old(ambientLight)
      ensures width != old(this.width) || height != old(this.height) ==>
        fresh(pixels) &&
        pixelWidth == PixelStepOf(camera.clipRight - camera.clipLeft, width) &&
        pixelHeight == PixelStepOf(camera.clipTop - camera.clipBottom, height)
      ensures width == old(this.width) && height == old(this.height) ==>
        pixels == old(pixels) && pixelWidth == old(pixelWidth) && pixelHeight == old(pixelHeight)
    {
      if width != this.width || height != this.height {
        AllocateImage(width, height);
        pixelWidth := PixelStepOf(camera.clipRight - camera.clipLeft, width);
        pixelHeight := PixelStepOf(camera.clipTop - camera.clipBottom, height);
      }
    }

    method ToggleShadowing()
      modifies this
      ensures shadowing == !old(shadowing)
      ensures CurrentSettings() == old(CurrentSettings()).(shadowing := shadowing)
      ensures pixels == old(pixels) && width == old(width) && height == old(height)
    {
      shadowing := !shadowing;
    }

    /** hits_something: whether some shape blocks the ray just past its start. */
    method HitsSomething(start: Vec3, dir: Vec3) returns (blocked: bool)
      ensures blocked <==> Shadowed(geometry, shapes, start, dir)
    {
      var i := 0;
      while i < |shapes|
        invariant 0 <= i <= |shapes|
        invariant forall j :: 0 <= j < i ==> !Blocks(geometry, shapes, j, start, dir)
      {
        var h := geometry.intersects(shapes[i], start, dir);
        if h.Some? {
          var t := Dot(Sub(h.value.position, start), dir);
          if t > ShadowEpsilon {
            assert Blocks(geometry, shapes, i, start, dir);
            return true;
          }
        }
        i := i + 1;
      }
      return false;
    }

    /** get_first_hit: the nearest hit below the cutoff, stored in `hit`;
        `hit` is left as it was when there is none. */
    method GetFirstHit(start: Vec3, dir: Vec3, hit: Hit) returns (found: bool)
      modifies hit
      ensures var first := FirstHit(geometry, shapes, start, dir);
        found == first.Some? &&
        (found ==> hit.Value() == first.value.hit) &&
        (!found ==> hit.Value() == old(hit.Value()))
    {
      var t := Cutoff;
      found := false;
      var i := 0;
      while i < |shapes|
        invariant 0 <= i <= |shapes|
        invariant var kept := Closest(geometry, shapes, start, dir, i);
          found == kept.Some? &&
          (found ==> t == kept.value.hit.t && hit.Value() == kept.value.hit) &&
          (!found ==> t == Cutoff && hit.Value() == old(hit.Value()))
      {
        var current := geometry.intersects(shapes[i], start, dir);
        if current.Some? && current.value.t < t {
          var h := current.value;
          t := h.t;
          hit.Set(h.position, h.material, h.normal, h.t);
          found := true;
        }
        i := i + 1;
      }
    }

    /** glossy_color for the hit the ray `dir` found. */
    method GlossyColor(start: Vec3, dir: Vec3, hit: HitInfo) returns (color: Vec3)
      ensures color == Glossy(geometry, CurrentSettings(), dir, hit)
    {
      if hit.material.None? {
        return background;
      }
      var mat := hit.material.value;
      color := Zero3;
      var i := 0;
      while i < |lights|
        invariant 0 <= i <= |lights|
        invariant color == LightSum(geometry, shapes, shadowing, dir, hit, mat, lights[..i])
      {
        assert lights[..i + 1][..i] == lights[..i];
        var light := lights[i];
        var towardLight := geometry.normalize(Sub(light.position, hit.position));
        var blocked := false;
        if shadowing {
          blocked := HitsSomething(hit.position, towardLight);
        }
        if !blocked {
          color := Add(color, geometry.illumination(Neg(dir), hit.normal,
            geometry.normalize(Sub(light.position, hit.position)), light.color, mat));
        }
        i := i + 1;
      }
      assert lights[..i] == lights;
      color := Add(color, Mul(mat.ambient, ambientLight));
    }

    /** ray_color: the colour seen through pixel (x, y). */
    method RayColor(x: int, y: int) returns (color: Vec3)
      ensures color == RayColorOf(geometry, CurrentSettings(), x, y)
    {
      var ray := geometry.primaryRay(camera, pixelWidth, pixelHeight, x, y);
      var hit := new Hit();
      var found := GetFirstHit(ray.start, ray.direction, hit);
      if found {
        color := GlossyColor(ray.start, ray.direction, hit.Value());
      } else {
        color := background;
      }
    }

    /** render: every pixel's colour, row by row, into the buffer, and an
        image of the buffer. */
    method Render() returns (image: Image)
      requires Valid()
      modifies pixels
      ensures pixels[..] == Frame(geometry, CurrentSettings(), width, height)
      ensures image == Image(pixels[..], width, height, 3, "Ray cast image")
    {
      ghost var rows := RenderedRows(geometry, CurrentSettings(), width, height);
      ghost var rowBytes := width * 3;
      Area(width, height);
      var p := 0;
      var y := 0;
      while y < height
        invariant 0 <= y <= height
        invariant p == RowStart(y, rowBytes) <= pixels.Length
        invariant pixels[..p] == Concat(rows[..y])
      {
        RowWithin(y + 1, rowBytes, height);
        p := FillRow(y, p);
        ConcatSnoc(rows, y);
        y := y + 1;
      }
      AllRows(rowBytes, height);
      assert rows[..height] == rows;
      assert pixels[..] == pixels[..p];
      image := Image(pixels[..], width, height, 3, "Ray cast image");
    }

    /** The inner loop of render: row y written from byte `p` on. */
    method FillRow(y: nat, p: nat) returns (next: nat)
      requires p + width * 3 <= pixels.Length
      modifies pixels
      ensures next == p + width * 3
      ensures pixels[..p] == old(pixels[..p])
      ensures pixels[..next] == old(pixels[..p]) + Concat(RenderedRow(geometry, CurrentSettings(), width, y))
    {
      ghost var before := pixels[..p];
      next := p;
      var x := 0;
      while x < width
        invariant 0 <= x <= width
        invariant next == p + x * 3
        invariant pixels[..p] == before
        invariant pixels[p..next] == Concat(RenderedRow(geometry, CurrentSettings(), width, y)[..x])
      {
        PaintPixel(x, y, p, next);
        next := next + 3;
        x := x + 1;
      }
      assert RenderedRow(geometry, CurrentSettings(), width, y)[..width] == RenderedRow(geometry, CurrentSettings(), width, y);
      assert pixels[..next] == pixels[..p] + pixels[p..next];
    }

    /** One pass of the inner loop: pixel (x, y)'s colour as three bytes at
        `at`, after the pixels before it in the row. */
    method PaintPixel(x: nat, y: nat, start: nat, at: nat)
      requires x < width && start <= at && at + 3 <= pixels.Length
      requires pixels[start..at] == Concat(RenderedRow(geometry, CurrentSettings(), width, y)[..x])
      modifies pixels
      ensures pixels[..start] == old(pixels[..start])
      ensures pixels[start..at + 3] == Concat(RenderedRow(geometry, CurrentSettings(), width, y)[..x + 1])
    {
      var color := RayColor(x, y);
      var bytes := PixelBytes(color);
      ConcatSnoc(RenderedRow(geometry, CurrentSettings(), width, y), x);
      PutPixel(start, at, bytes);
    }

    /** The three channel bytes of one pixel, stored at `at`. */
    method PutPixel(start: nat, at: nat, bytes: seq<Byte>)
      requires |bytes| == 3 && start <= at && at + 3 <= pixels.Length
      modifies pixels
      ensures pixels[..start] == old(pixels[..start])
      ensures pixels[start..at + 3] == old(pixels[start..at]) + bytes
    {
      ghost var written := pixels[start..at];
      pixels[at] := bytes[0];
      pixels[at + 1] := bytes[1];
      pixels[at + 2] := bytes[2];
      assert pixels[start..at] == written;
    }

    /** read_scene: the scene file's shapes, lights and camera, and the
        ambient light they give. On a malformed file the source prints the
        error and exits; here the error is returned and nothing changes. */
    method ReadScene(tk: Tokenizer) returns (outcome: Outcome)
      requires tk.Valid()
      modifies this, tk
      ensures var r := SceneLoop(tk.input, tk.convert, old(tk.State()), [], Scene(old(shapes), old(lights), old(camera)));
        match r
        case Failure(e) =>
          outcome == Fail(e) && shapes == old(shapes) && lights == old(lights) &&
          camera == old(camera) && ambientLight == old(ambientLight)
        case Success(scene) =>
          outcome == Pass && shapes == scene.shapes && lights == scene.lights &&
          camera == scene.camera && ambientLight == AmbientSum(scene.lights, scene.camera.ambientFraction)
      ensures pixels == old(pixels) && width == old(width) && height == old(height)
      ensures pixelWidth == old(pixelWidth) && pixelHeight == old(pixelHeight)
      ensures background == old(background) && shadowing == old(shadowing)
    {
      var r := SceneReader.ReadScene(tk, Scene(shapes, lights, camera));
      if r.Failure? {
        return Fail(r.error);
      }
      shapes, lights, camera := r.value.shapes, r.value.lights, r.value.camera;
      ambientLight := Zero3;
      var i := 0;
      while i < |lights|
        invariant 0 <= i <= |lights|
        invariant ambientLight == AmbientSum(lights[..i], camera.ambientFraction)
        invariant shapes == r.value.shapes && lights == r.value.lights && camera == r.value.camera
        invariant pixels == old(pixels) && width == old(width) && height == old(height)
        invariant pixelWidth == old(pixelWidth) && pixelHeight == old(pixelHeight)
        invariant background == old(background) && shadowing == old(shadowing)
      {
        assert lights[..i + 1][..i] == lights[..i];
        ambientLight := Add(ambientLight, Scale(lights[i].color, camera.ambientFraction));
        i := i + 1;
      }
      assert lights[..i] == lights;
      outcome := Pass;
    }
  }
}
