// The scene-file reader (scene_reader.cpp): "begin <kind> ... end <kind>"
// blocks of keyword/value pairs filling materials, the camera, lights and shapes.

module SceneReader {
  import opened Common
  import opened Materials
  import opened SceneObjects
  import opened Tokens

  datatype Kind = MaterialKind | CameraKind | LightKind | TriangleKind | SphereKind | CylinderKind

  function KindName(k: Kind): string
  {
    match k
    case MaterialKind => "material"
    case CameraKind => "camera"
    case LightKind => "light"
    case TriangleKind => "triangle"
    case SphereKind => "sphere"
    case CylinderKind => "cylinder"
  }

  /** The kinds read_scene dispatches on; any other word after "begin" is ignored. */
  function KindOf(word: string): (k: Option<Kind>)
    ensures k.Some? ==> KindName(k.value) == word
    ensures k.None? ==> forall kind: Kind :: KindName(kind) != word
  {
    if word == "material" then Some(MaterialKind)
    else if word == "camera" then Some(CameraKind)
    else if word == "light" then Some(LightKind)
    else if word == "triangle" then Some(TriangleKind)
    else if word == "sphere" then Some(SphereKind)
    else if word == "cylinder" then Some(CylinderKind)
    else None
  }

  /** The object a block is filling in. */
  datatype Block =
    | MaterialBlock(material: Material)
    | CameraBlock(camera: Camera)
    | LightBlock(light: Light)
    | ShapeBlock(shape: Shape)

  function BlockKind(b: Block): Kind
  {
    match b
    case MaterialBlock(_) => MaterialKind
    case CameraBlock(_) => CameraKind
    case LightBlock(_) => LightKind
    case ShapeBlock(s) =>
      match s
      case Triangle(_, _, _, _, _) => TriangleKind
      case Sphere(_, _, _, _) => SphereKind
      case Cylinder(_, _, _, _, _) => CylinderKind
  }

  /** The values each reader starts from before any keyword is read. */
  function DefaultBlock(k: Kind): (b: Block)
    ensures BlockKind(b) == k
  {
    match k
    case MaterialKind => MaterialBlock(DefaultMaterial)
    case CameraKind => CameraBlock(DefaultCamera)
    case LightKind => LightBlock(DefaultLight)
    case TriangleKind =>
      ShapeBlock(Triangle(Zero3, Vec3(1.0, 0.0, 0.0), Vec3(0.0, 2.0, 0.0), DefaultMaterial, "NO NAME"))
    case SphereKind => ShapeBlock(Sphere(Zero3, 1.0, DefaultMaterial, "NO NAME"))
    case CylinderKind => ShapeBlock(Cylinder(Zero3, 1.0, 2.0, DefaultMaterial, "NO NAME"))
  }

  /** What a keyword is followed by. */
  datatype Arg =
    | Unknown        // not a keyword of this block: skipped, nothing more is read
    | VecArg         // three numbers
    | NumArg         // one number
    | NameArg        // one token, the name
    | MaterialArg    // one token, the name of a material read earlier
    | ClipArg        // five numbers: left, right, bottom, top, near

  /** The keyword tables of the six block readers. */
  function ArgOf(k: Kind, keyword: string): Arg
  {
    match k
    case MaterialKind =>
      if keyword in {"ambient", "diffuse", "specular"} then VecArg
      else if keyword == "shininess" then NumArg
      else if keyword == "name" then NameArg
      else Unknown
    case CameraKind =>
      if keyword in {"eye", "lookat", "vup"} then VecArg
      else if keyword == "clip" then ClipArg
      else if keyword == "ambient_fraction" then NumArg
      else Unknown
    case LightKind =>
      if keyword in {"position", "color"} then VecArg
      else if keyword == "name" then NameArg
      else Unknown
    case TriangleKind =>
      if keyword in {"a", "b", "c"} then VecArg
      else if keyword == "material" then MaterialArg
      else if keyword == "name" then NameArg
      else Unknown
    case SphereKind =>
      if keyword == "center" then VecArg
      else if keyword == "radius" then NumArg
      else if keyword == "name" then NameArg
      else if keyword == "material" then MaterialArg
      else Unknown
    case CylinderKind =>
      if keyword == "center" then VecArg
      else if keyword in {"radius", "height"} then NumArg
      else if keyword == "name" then NameArg
      else if keyword == "material" then MaterialArg
      else Unknown
  }

  /** The value of the field a keyword names. */
  datatype FieldValue =
    | VecValue(v: Vec3)
    | NumValue(x: real)
    | NameValue(s: string)
    | MaterialValue(m: Material)
    | ClipValue(clip: seq<real>)
    | NoField        // the word names no field of this block

  /** The argument that fills a field holding `v`. */
  function ArgFor(v: FieldValue): Arg
  {
    match v
    case VecValue(_) => VecArg
    case NumValue(_) => NumArg
    case NameValue(_) => NameArg
    case MaterialValue(_) => MaterialArg
    case ClipValue(_) => ClipArg
    case NoField => Unknown
  }

  /** The field of `b` that `keyword` sets; the keyword tables name exactly
      these fields, and a field holds what its keyword reads. */
  function FieldOf(b: Block, keyword: string): (r: FieldValue)
    ensures ArgFor(r) == ArgOf(BlockKind(b), keyword)
  {
    match b
    case MaterialBlock(m) =>
      if keyword == "ambient" then VecValue(m.ambient)
      else if keyword == "diffuse" then VecValue(m.diffuse)
      else if keyword == "specular" then VecValue(m.specular)
      else if keyword == "shininess" then NumValue(m.shininess)
      else if keyword == "name" then NameValue(m.name)
      else NoField
    case CameraBlock(c) =>
      if keyword == "eye" then VecValue(c.eye)
      else if keyword == "lookat" then VecValue(c.lookat)
      else if keyword == "vup" then VecValue(c.up)
      else if keyword == "clip" then
        ClipValue([c.clipLeft, c.clipRight, c.clipBottom, c.clipTop, c.clipNear])
      else if keyword == "ambient_fraction" then NumValue(c.ambientFraction)
      else NoField
    case LightBlock(l) =>
      if keyword == "position" then VecValue(l.position)
      else if keyword == "color" then VecValue(l.color)
      else if keyword == "name" then NameValue(l.name)
      else NoField
    case ShapeBlock(s) =>
      match s
      case Triangle(p, q, t, m, n) =>
        if keyword == "a" then VecValue(p)
        else if keyword == "b" then VecValue(q)
        else if keyword == "c" then VecValue(t)
        else if keyword == "material" then MaterialValue(m)
        else if keyword == "name" then NameValue(n)
        else NoField
      case Sphere(center, radius, m, n) =>
        if keyword == "center" then VecValue(center)
        else if keyword == "radius" then NumValue(radius)
        else if keyword == "name" then NameValue(n)
        else if keyword == "material" then MaterialValue(m)
        else NoField
      case Cylinder(center, radius, height, m, n) =>
        if keyword == "center" then VecValue(center)
        else if keyword == "radius" then NumValue(radius)
        else if keyword == "height" then NumValue(height)
        else if keyword == "name" then NameValue(n)
        else if keyword == "material" then MaterialValue(m)
        else NoField
  }

  // Every field of every object is named by a keyword of its block, so a
  // block is fixed by the values of its keywords' fields (SameMaterial,
  // SameCamera, SameLight, SameTriangle, SameSphere, SameCylinder).

  /** A material is fixed by its three colours, its shininess and its name. */
  lemma SameMaterial(b1: Block, b2: Block)
    requires b1.MaterialBlock? && b2.MaterialBlock?
    requires FieldOf(b1, "ambient") == FieldOf(b2, "ambient")
    requires FieldOf(b1, "diffuse") == FieldOf(b2, "diffuse")
    requires FieldOf(b1, "specular") == FieldOf(b2, "specular")
    requires FieldOf(b1, "shininess") == FieldOf(b2, "shininess")
    requires FieldOf(b1, "name") == FieldOf(b2, "name")
    ensures b1 == b2
  {
  }

  /** A camera is fixed by its three vectors, its five clipping values and its
      ambient fraction. */
  lemma SameCamera(b1: Block, b2: Block)
    requires b1.CameraBlock? && b2.CameraBlock?
    requires FieldOf(b1, "eye") == FieldOf(b2, "eye")
    requires FieldOf(b1, "lookat") == FieldOf(b2, "lookat")
    requires FieldOf(b1, "vup") == FieldOf(b2, "vup")
    requires FieldOf(b1, "clip") == FieldOf(b2, "clip")
    requires FieldOf(b1, "ambient_fraction") == FieldOf(b2, "ambient_fraction")
    ensures b1 == b2
  {
    var clip1, clip2 := FieldOf(b1, "clip").clip, FieldOf(b2, "clip").clip;
    assert clip1[0] == clip2[0] && clip1[1] == clip2[1] && clip1[2] == clip2[2];
    assert clip1[3] == clip2[3] && clip1[4] == clip2[4];
  }

  /** A light is fixed by its position, colour and name. */
  lemma SameLight(b1: Block, b2: Block)
    requires b1.LightBlock? && b2.LightBlock?
    requires FieldOf(b1, "position") == FieldOf(b2, "position")
    requires FieldOf(b1, "color") == FieldOf(b2, "color")
    requires FieldOf(b1, "name") == FieldOf(b2, "name")
    ensures b1 == b2
  {
  }

  /** A triangle is fixed by its corners, its material and its name. */
  lemma SameTriangle(b1: Block, b2: Block)
    requires b1.ShapeBlock? && b1.shape.Triangle? && b2.ShapeBlock? && b2.shape.Triangle?
    requires FieldOf(b1, "a") == FieldOf(b2, "a") && FieldOf(b1, "b") == FieldOf(b2, "b")
    requires FieldOf(b1, "c") == FieldOf(b2, "c")
    requires FieldOf(b1, "material") == FieldOf(b2, "material")
    requires FieldOf(b1, "name") == FieldOf(b2, "name")
    ensures b1 == b2
  {
  }

  /** A sphere is fixed by its centre, radius, material and name. */
  lemma SameSphere(b1: Block, b2: Block)
    requires b1.ShapeBlock? && b1.shape.Sphere? && b2.ShapeBlock? && b2.shape.Sphere?
    requires FieldOf(b1, "center") == FieldOf(b2, "center")
    requires FieldOf(b1, "radius") == FieldOf(b2, "radius")
    requires FieldOf(b1, "material") == FieldOf(b2, "material")
    requires FieldOf(b1, "name") == FieldOf(b2, "name")
    ensures b1 == b2
  {
  }

  /** A cylinder is fixed by its centre, radius, height, material and name. */
  lemma SameCylinder(b1: Block, b2: Block)
    requires b1.ShapeBlock? && b1.shape.Cylinder? && b2.ShapeBlock? && b2.shape.Cylinder?
    requires FieldOf(b1, "center") == FieldOf(b2, "center")
    requires FieldOf(b1, "radius") == FieldOf(b2, "radius")
    requires FieldOf(b1, "height") == FieldOf(b2, "height")
    requires FieldOf(b1, "material") == FieldOf(b2, "material")
    requires FieldOf(b1, "name") == FieldOf(b2, "name")
    ensures b1 == b2
  {
  }

  /** A three-number keyword stores its vector in its own field; no other
      field changes. */
  function SetVec(b: Block, keyword: string, v: Vec3): (r: Block)
    ensures BlockKind(r) == BlockKind(b)
    ensures ArgOf(BlockKind(b), keyword) == VecArg ==> FieldOf(r, keyword) == VecValue(v)
    ensures ArgOf(BlockKind(b), keyword) != VecArg ==> r == b
    ensures forall f :: f != keyword ==> FieldOf(r, f) == FieldOf(b, f)
  {
    match b
    case MaterialBlock(m) =>
      if keyword == "ambient" then MaterialBlock(m.(ambient := v))
      else if keyword == "diffuse" then MaterialBlock(m.(diffuse := v))
      else if keyword == "specular" then MaterialBlock(m.(specular := v))
      else b
    case CameraBlock(c) =>
      if keyword == "eye" then CameraBlock(c.(eye := v))
      else if keyword == "lookat" then CameraBlock(c.(lookat := v))
      else if keyword == "vup" then CameraBlock(c.(up := v))
      else b
    case LightBlock(l) =>
      if keyword == "position" then LightBlock(l.(position := v))
      else if keyword == "color" then LightBlock(l.(color := v))
      else b
    case ShapeBlock(s) =>
      match s
      case Triangle(p, q, t, m, n) =>
        if keyword == "a" then ShapeBlock(Triangle(v, q, t, m, n))
        else if keyword == "b" then ShapeBlock(Triangle(p, v, t, m, n))
        else if keyword == "c" then ShapeBlock(Triangle(p, q, v, m, n))
        else b
      case Sphere(_, radius, m, n) =>
        if keyword == "center" then ShapeBlock(Sphere(v, radius, m, n)) else b
      case Cylinder(_, radius, height, m, n) =>
        if keyword == "center" then ShapeBlock(Cylinder(v, radius, height, m, n)) else b
  }

  /** A one-number keyword stores its number in its own field; no other
      field changes. */
  function SetNum(b: Block, keyword: string, x: real): (r: Block)
    ensures BlockKind(r) == BlockKind(b)
    ensures ArgOf(BlockKind(b), keyword) == NumArg ==> FieldOf(r, keyword) == NumValue(x)
    ensures ArgOf(BlockKind(b), keyword) != NumArg ==> r == b
    ensures forall f :: f != keyword ==> FieldOf(r, f) == FieldOf(b, f)
  {
    match b
    case MaterialBlock(m) =>
      if keyword == "shininess" then MaterialBlock(m.(shininess := x)) else b
    case CameraBlock(c) =>
      if keyword == "ambient_fraction" then CameraBlock(c.(ambientFraction := x)) else b
    case LightBlock(_) => b
    case ShapeBlock(s) =>
      match s
      case Triangle(_, _, _, _, _) => b
      case Sphere(center, _, m, n) =>
        if keyword == "radius" then ShapeBlock(Sphere(center, x, m, n)) else b
      case Cylinder(center, radius, height, m, n) =>
        if keyword == "radius" then ShapeBlock(Cylinder(center, x, height, m, n))
        else if keyword == "height" then ShapeBlock(Cylinder(center, radius, x, m, n))
        else b
  }

  /** "name" stores the name; no other field changes. */
  function SetName(b: Block, name: string): (r: Block)
    ensures BlockKind(r) == BlockKind(b)
    ensures ArgOf(BlockKind(b), "name") == NameArg ==> FieldOf(r, "name") == NameValue(name)
    ensures ArgOf(BlockKind(b), "name") != NameArg ==> r == b
    ensures forall f :: f != "name" ==> FieldOf(r, f) == FieldOf(b, f)
  {
    match b
    case MaterialBlock(m) => MaterialBlock(m.(name := name))
    case CameraBlock(_) => b
    case LightBlock(l) => LightBlock(l.(name := name))
    case ShapeBlock(s) => ShapeBlock(s.(name := name))
  }

  /** "material" stores the material found; no other field changes. */
  function SetMaterial(b: Block, m: Material): (r: Block)
    ensures BlockKind(r) == BlockKind(b)
    ensures ArgOf(BlockKind(b), "material") == MaterialArg ==> FieldOf(r, "material") == MaterialValue(m)
    ensures ArgOf(BlockKind(b), "material") != MaterialArg ==> r == b
    ensures forall f :: f != "material" ==> FieldOf(r, f) == FieldOf(b, f)
  {
    match b
    case ShapeBlock(s) => ShapeBlock(s.(material := m))
    case _ => b
  }

  /** "clip" stores the five clipping values in order; no other field changes. */
  function SetClip(b: Block, clip: seq<real>): (r: Block)
    requires |clip| == 5
    ensures BlockKind(r) == BlockKind(b)
    ensures ArgOf(BlockKind(b), "clip") == ClipArg ==> FieldOf(r, "clip") == ClipValue(clip)
    ensures ArgOf(BlockKind(b), "clip") != ClipArg ==> r == b
    ensures forall f :: f != "clip" ==> FieldOf(r, f) == FieldOf(b, f)
  {
    match b
    case CameraBlock(c) =>
      CameraBlock(c.(clipLeft := clip[0], clipRight := clip[1], clipBottom := clip[2],
                     clipTop := clip[3], clipNear := clip[4]))
    case _ => b
  }

  /** The first material of the list with the given name; an error when none has it. */
  function FindNamedMaterial(name: string, materials: seq<Material>): (r: Result<Material>)
    ensures r.Failure? <==> forall i :: 0 <= i < |materials| ==> materials[i].name != name
    ensures r.Failure? ==> r.error == UnknownMaterial(name)
    ensures r.Success? ==> r.value.name == name && r.value in materials
    decreases |materials|
  {
    if materials == [] then Failure(UnknownMaterial(name))
    else if materials[0].name == name then Success(materials[0])
    else FindNamedMaterial(name, materials[1..])
  }

  /** When several materials share a name, the earliest one is found. */
  lemma {:induction false} FindNamedMaterialFirst(name: string, materials: seq<Material>, i: nat)
    requires i < |materials| && materials[i].name == name
    requires forall j :: 0 <= j < i ==> materials[j].name != name
    ensures FindNamedMaterial(name, materials) == Success(materials[i])
    decreases i
  {
    if i > 0 {
      FindNamedMaterialFirst(name, materials[1..], i - 1);
    }
  }

  /** `n` numbers read one after the other. */
  function Numbers(input: Input, convert: string -> Option<real>, c: Cursor, n: nat): (r: Result<(seq<real>, Cursor)>)
    requires ValidCursor(input, c)
    ensures r.Success? ==> |r.value.0| == n && ValidCursor(input, r.value.1) && r.value.1.pos >= c.pos
    decreases n
  {
    if n == 0 then Success(([], c))
    else
      match Numbers(input, convert, c, n - 1)
      case Failure(e) => Failure(e)
      case Success((xs, c1)) =>
        match NextNumberSpec(input, convert, c1)
        case Failure(e) => Failure(e)
        case Success((x, c2)) => Success((xs + [x], c2))
  }

  function ReadVec3Spec(input: Input, convert: string -> Option<real>, c: Cursor): (r: Result<(Vec3, Cursor)>)
    requires ValidCursor(input, c)
    ensures r.Success? ==> ValidCursor(input, r.value.1) && r.value.1.pos >= c.pos
  {
    match Numbers(input, convert, c, 3)
    case Failure(e) => Failure(e)
    case Success((xs, c')) => Success((Vec3(xs[0], xs[1], xs[2]), c'))
  }

  /** What one turn of a block's keyword loop does. */
  datatype Step =
    | Finished(block: Block, after: Cursor)   // "end" was read
    | Continue(block: Block, after: Cursor)   // a keyword and its argument, or an unknown word, were read
    | Stopped(error: Error)                   // an argument could not be read

  /** One turn of the keyword loop: read a word; "end" finishes the block, a
      keyword reads its argument and sets its field, any other word is skipped. */
  function KeywordStep(input: Input, convert: string -> Option<real>, materials: seq<Material>,
                       c: Cursor, b: Block): (s: Step)
    requires ValidCursor(input, c)
    ensures !s.Stopped? ==> ValidCursor(input, s.after) && BlockKind(s.block) == BlockKind(b)
    ensures !s.Stopped? && c.pos < |input.tokens| ==> s.after.pos > c.pos
    ensures s.Finished? ==> NextStringSpec(input, c).0 == "end" && s.block == b
    ensures s.Continue? && ArgOf(BlockKind(b), NextStringSpec(input, c).0) == Unknown ==> s.block == b
    ensures s.Continue? ==>
      forall f :: f != NextStringSpec(input, c).0 ==> FieldOf(s.block, f) == FieldOf(b, f)
  {
    var (token, c1) := NextStringSpec(input, c);
    if token == "end" then Finished(b, c1)
    else
      match ArgOf(BlockKind(b), token)
      case Unknown => Continue(b, c1)
      case VecArg =>
        (match ReadVec3Spec(input, convert, c1)
         case Failure(e) => Stopped(e)
         case Success((v, c2)) => Continue(SetVec(b, token, v), c2))
      case NumArg =>
        (match NextNumberSpec(input, convert, c1)
         case Failure(e) => Stopped(e)
         case Success((x, c2)) => Continue(SetNum(b, token, x), c2))
      case NameArg =>
        var (name, c2) := NextStringSpec(input, c1);
        Continue(SetName(b, name), c2)
      case MaterialArg =>
        var (name, c2) := NextStringSpec(input, c1);
        (match FindNamedMaterial(name, materials)
         case Failure(e) => Stopped(e)
         case Success(m) => Continue(SetMaterial(b, m), c2))
      case ClipArg =>
        (match Numbers(input, convert, c1, 5)
         case Failure(e) => Stopped(e)
         case Success((xs, c2)) => Continue(SetClip(b, xs), c2))
  }

  /** A keyword stores what it reads in its own field: three numbers, one
      number, the next word as the name, the material of that name, or the
      five clipping values. */
  lemma KeywordSetsItsField(input: Input, convert: string -> Option<real>, materials: seq<Material>,
                            c: Cursor, b: Block)
    requires ValidCursor(input, c) && KeywordStep(input, convert, materials, c, b).Continue?
    ensures var token := NextStringSpec(input, c).0;
      var c1 := NextStringSpec(input, c).1;
      var b' := KeywordStep(input, convert, materials, c, b).block;
      match ArgOf(BlockKind(b), token)
      case Unknown => b' == b
      case VecArg =>
        ReadVec3Spec(input, convert, c1).Success? &&
        FieldOf(b', token) == VecValue(ReadVec3Spec(input, convert, c1).value.0)
      case NumArg =>
        NextNumberSpec(input, convert, c1).Success? &&
        FieldOf(b', token) == NumValue(NextNumberSpec(input, convert, c1).value.0)
      case NameArg =>
        FieldOf(b', token) == NameValue(NextStringSpec(input, c1).0)
      case MaterialArg =>
        FindNamedMaterial(NextStringSpec(input, c1).0, materials).Success? &&
        FieldOf(b', token) == MaterialValue(FindNamedMaterial(NextStringSpec(input, c1).0, materials).value)
      case ClipArg =>
        Numbers(input, convert, c1, 5).Success? &&
        FieldOf(b', token) == ClipValue(Numbers(input, convert, c1, 5).value.0)
  {
  }

  /** The keyword loop of a block up to and including its "end". Reaching the
      end of input inside a block is an error (BlockBodyAsWritten is the loop
      as the source writes it). */
  function BlockBody(input: Input, convert: string -> Option<real>, materials: seq<Material>,
                     c: Cursor, b: Block): (r: Result<(Block, Cursor)>)
    requires ValidCursor(input, c)
    ensures r.Success? ==> ValidCursor(input, r.value.1) && BlockKind(r.value.0) == BlockKind(b)
    ensures r.Success? ==> r.value.1.pos > c.pos
    decreases |input.tokens| - c.pos
  {
    if c.pos == |input.tokens| then Failure(UnterminatedBlock(KindName(BlockKind(b))))
    else
      match KeywordStep(input, convert, materials, c, b)
      case Finished(b', c') => Success((b', c'))
      case Stopped(e) => Failure(e)
      case Continue(b', c') => BlockBody(input, convert, materials, c', b')
  }

  /** A whole block after "begin <kind>": keywords, "end", then the kind again. */
  function ReadBlockSpec(input: Input, convert: string -> Option<real>, materials: seq<Material>,
                         c: Cursor, k: Kind): (r: Result<(Block, Cursor)>)
    requires ValidCursor(input, c)
    ensures r.Success? ==> ValidCursor(input, r.value.1) && BlockKind(r.value.0) == k
    ensures r.Success? ==> r.value.1.pos > c.pos
  {
    match BlockBody(input, convert, materials, c, DefaultBlock(k))
    case Failure(e) => Failure(e)
    case Success((b, c1)) =>
      match MatchSpec(input, c1, KindName(k))
      case Failure(e) => Failure(e)
      case Success(c2) => Success((b, c2))
  }

  /** Where a finished block goes: materials and lights and shapes are appended,
      a camera replaces the one before. */
  function AddBlock(scene: Scene, materials: seq<Material>, b: Block): (Scene, seq<Material>)
  {
    match b
    case MaterialBlock(m) => (scene, materials + [m])
    case CameraBlock(cam) => (scene.(camera := cam), materials)
    case LightBlock(l) => (scene.(lights := scene.lights + [l]), materials)
    case ShapeBlock(s) => (scene.(shapes := scene.shapes + [s]), materials)
  }

  /** The top-level loop of read_scene from a given cursor. */
  function SceneLoop(input: Input, convert: string -> Option<real>, c: Cursor,
                     materials: seq<Material>, scene: Scene): Result<Scene>
    requires ValidCursor(input, c)
    decreases |input.tokens| - c.pos, if c.eof then 0 else 1
  {
    if c.eof then Success(scene)
    else
      var (token, c1) := NextStringSpec(input, c);
      if c1.eof then Success(scene)
      else if token != "begin" then Failure(ExpectedBegin(token))
      else
        var (word, c2) := NextStringSpec(input, c1);
        match KindOf(word)
        case None => SceneLoop(input, convert, c2, materials, scene)
        case Some(k) =>
          match ReadBlockSpec(input, convert, materials, c2, k)
          case Failure(e) => Failure(e)
          case Success((b, c3)) =>
            var (scene', materials') := AddBlock(scene, materials, b);
            SceneLoop(input, convert, c3, materials', scene')
  }

  /** Reading a file from its start into `scene`, with no materials known yet. */
  function ReadSceneSpec(input: Input, convert: string -> Option<real>, scene: Scene): Result<Scene>
  {
    SceneLoop(input, convert, Cursor(0, false), [], scene)
  }

  // ---------------------------------------------------------------------
  // The reader's methods, each proved against the functions above.

  method ReadVec3(tk: Tokenizer) returns (r: Result<Vec3>)
    requires tk.Valid()
    modifies tk
    ensures tk.Valid()
    ensures Follows(r, ReadVec3Spec(tk.input, tk.convert, old(tk.State())), tk.State())
  {
    ghost var c0 := tk.State();
    var x := tk.NextNumber();
    if x.Failure? { return Failure(x.error); }
    var y := tk.NextNumber();
    if y.Failure? { return Failure(y.error); }
    var z := tk.NextNumber();
    if z.Failure? { return Failure(z.error); }
    r := Success(Vec3(x.value, y.value, z.value));
  }

  method ReadClip(tk: Tokenizer) returns (r: Result<seq<real>>)
    requires tk.Valid()
    modifies tk
    ensures tk.Valid()
    ensures Follows(r, Numbers(tk.input, tk.convert, old(tk.State()), 5), tk.State())
  {
    ghost var c0 := tk.State();
    var left := tk.NextNumber();
    if left.Failure? { return Failure(left.error); }
    assert Numbers(tk.input, tk.convert, c0, 1) == Success(([] + [left.value], tk.State()));
    var right := tk.NextNumber();
    if right.Failure? { return Failure(right.error); }
    assert Numbers(tk.input, tk.convert, c0, 2) == Success(([] + [left.value] + [right.value], tk.State()));
    var bottom := tk.NextNumber();
    if bottom.Failure? { return Failure(bottom.error); }
    assert Numbers(tk.input, tk.convert, c0, 3)
        == Success(([] + [left.value] + [right.value] + [bottom.value], tk.State()));
    var top := tk.NextNumber();
    if top.Failure? { return Failure(top.error); }
    assert Numbers(tk.input, tk.convert, c0, 4)
        == Success(([] + [left.value] + [right.value] + [bottom.value] + [top.value], tk.State()));
    var near := tk.NextNumber();
    if near.Failure? { return Failure(near.error); }
    r := Success([left.value, right.value, bottom.value, top.value, near.value]);
    assert [] + [left.value] + [right.value] + [bottom.value] + [top.value] + [near.value] == r.value;
  }

  /** The closing check of a block. */
  method Match(expected: string, tk: Tokenizer) returns (o: Outcome)
    requires tk.Valid()
    modifies tk
    ensures tk.Valid()
    ensures MatchSpec(tk.input, old(tk.State()), expected).Success? ==>
      o == Pass && tk.State() == MatchSpec(tk.input, old(tk.State()), expected).value
    ensures MatchSpec(tk.input, old(tk.State()), expected).Failure? ==>
      o == Fail(MatchSpec(tk.input, old(tk.State()), expected).error)
  {
    o := tk.Match(expected);
  }

  /** One of read_material, read_camera, read_light, read_triangle, read_sphere,
      read_cylinder, after "begin <kind>" has been read. */
  method ReadBlock(tk: Tokenizer, k: Kind, materials: seq<Material>) returns (r: Result<Block>)
    requires tk.Valid()
    modifies tk
    ensures tk.Valid()
    ensures Follows(r, ReadBlockSpec(tk.input, tk.convert, materials, old(tk.State()), k), tk.State())
  {
    ghost var c0 := tk.State();
    var b := DefaultBlock(k);
    while true
      invariant tk.Valid()
      invariant BlockBody(tk.input, tk.convert, materials, tk.State(), b)
             == BlockBody(tk.input, tk.convert, materials, c0, DefaultBlock(k))
      invariant BlockKind(b) == k
      decreases |tk.input.tokens| - tk.pos
    {
      if tk.Exhausted() {
        return Failure(UnterminatedBlock(KindName(k)));
      }
      ghost var c := tk.State();
      var token := tk.NextString();
      if token == "end" {
        break;
      }
      var next := ReadArgument(tk, materials, b, token, c);
      if next.Failure? {
        return Failure(next.error);
      }
      b := next.value;
    }
    var o := Match(KindName(k), tk);
    if o.Fail? {
      return Failure(o.error);
    }
    r := Success(b);
  }

  /** The argument of keyword `token` of a block, just read at `c`, stored in
      its field; a word that is not a keyword of the block is skipped. */
  method ReadArgument(tk: Tokenizer, materials: seq<Material>, b: Block, token: string,
                      ghost c: Cursor) returns (r: Result<Block>)
    requires tk.Valid() && ValidCursor(tk.input, c) && c.pos < |tk.input.tokens|
    requires NextStringSpec(tk.input, c) == (token, tk.State()) && token != "end"
    modifies tk
    ensures tk.Valid()
    ensures var s := KeywordStep(tk.input, tk.convert, materials, c, b);
      match r
      case Failure(e) => s == Stopped(e)
      case Success(b') => s == Continue(b', tk.State())
  {
    match ArgOf(BlockKind(b), token)
    case Unknown =>
      r := Success(b);
    case VecArg =>
      var v := ReadVec3(tk);
      if v.Failure? { return Failure(v.error); }
      r := Success(SetVec(b, token, v.value));
    case NumArg =>
      var x := tk.NextNumber();
      if x.Failure? { return Failure(x.error); }
      r := Success(SetNum(b, token, x.value));
    case NameArg =>
      var name := tk.NextString();
      r := Success(SetName(b, name));
    case MaterialArg =>
      var name := tk.NextString();
      var m := FindNamedMaterial(name, materials);
      if m.Failure? { return Failure(m.error); }
      r := Success(SetMaterial(b, m.value));
    case ClipArg =>
      var clip := ReadClip(tk);
      if clip.Failure? { return Failure(clip.error); }
      r := Success(SetClip(b, clip.value));
  }

  /** read_scene: blocks are read until the end of the file; objects are added
      to `scene` in file order. */
  method ReadScene(tk: Tokenizer, scene: Scene) returns (r: Result<Scene>)
    requires tk.Valid()
    modifies tk
    ensures r == SceneLoop(tk.input, tk.convert, old(tk.State()), [], scene)
  {
    ghost var c0 := tk.State();
    var materials: seq<Material> := [];
    var current := scene;
    while !tk.Eof()
      invariant tk.Valid()
      invariant SceneLoop(tk.input, tk.convert, tk.State(), materials, current)
             == SceneLoop(tk.input, tk.convert, c0, [], scene)
      decreases |tk.input.tokens| - tk.pos, if tk.atEof then 0 else 1
    {
      var token := tk.NextString();
      if tk.Eof() {
        break;
      }
      if token == "begin" {
        var word := tk.NextString();
        match KindOf(word)
        case None =>
        case Some(k) =>
          var block := ReadBlock(tk, k, materials);
          if block.Failure? {
            return Failure(block.error);
          }
          var next := AddBlock(current, materials, block.value);
          current, materials := next.0, next.1;
      } else {
        return Failure(ExpectedBegin(token));
      }
    }
    r := Success(current);
  }
}

module SceneReaderProperties {
  import opened Common
  import opened Materials
  import opened SceneObjects
  import opened Tokens
  import opened SceneReader

  /** The cursor after a read that stopped at position `p`. */
  function After(input: Input, p: nat): (c: Cursor)
    requires 0 < p <= |input.tokens|
    ensures ValidCursor(input, c)
  {
    Cursor(p, p == |input.tokens| && !input.trailingSpace)
  }

  /** A word is read as its lower-case form, leaving the cursor just after it. */
  lemma NextAt(input: Input, c: Cursor)
    requires ValidCursor(input, c) && c.pos < |input.tokens|
    ensures NextStringSpec(input, c) == (Downcase(input.tokens[c.pos]), After(input, c.pos + 1))
  {
  }

  /** Only the position matters to the keyword loop, not the end-of-file flag. */
  predicate NotKeyword(k: Kind, token: string)
  {
    Downcase(token) != "end" && ArgOf(k, Downcase(token)) == Unknown
  }

  /** Words that are not keywords of the block are skipped one token each:
      nothing after them is consumed as an argument and the block is unchanged. */
  lemma {:induction false} UnknownWordsSkipped(input: Input, convert: string -> Option<real>,
      materials: seq<Material>, c: Cursor, b: Block, n: nat)
    requires ValidCursor(input, c) && 0 < n && c.pos + n <= |input.tokens|
    requires forall i {:trigger NotKeyword(BlockKind(b), input.tokens[i])} ::
      c.pos <= i < c.pos + n ==> NotKeyword(BlockKind(b), input.tokens[i])
    ensures BlockBody(input, convert, materials, c, b)
         == BlockBody(input, convert, materials, After(input, c.pos + n), b)
    decreases n
  {
    var c1 := After(input, c.pos + 1);
    SkipStep(input, convert, materials, c, b);
    if n > 1 {
      UnknownWordsSkipped(input, convert, materials, c1, b, n - 1);
      assert After(input, c1.pos + (n - 1)) == After(input, c.pos + n);
    } else {
      assert c1 == After(input, c.pos + n);
    }
  }

  /** One word that is not a keyword of the block is skipped on its own. */
  lemma SkipStep(input: Input, convert: string -> Option<real>,
      materials: seq<Material>, c: Cursor, b: Block)
    requires ValidCursor(input, c) && c.pos < |input.tokens|
    requires NotKeyword(BlockKind(b), input.tokens[c.pos])
    ensures BlockBody(input, convert, materials, c, b)
         == BlockBody(input, convert, materials, After(input, c.pos + 1), b)
  {
    NextAt(input, c);
    assert KeywordStep(input, convert, materials, c, b) == Continue(b, After(input, c.pos + 1));
  }

  /** A block whose body holds no keyword of its kind yields the values the
      reader starts from, and ends just after the closing kind. */
  lemma UnknownOnlyBlockKeepsDefaults(input: Input, convert: string -> Option<real>,
      materials: seq<Material>, c: Cursor, k: Kind, n: nat)
    requires ValidCursor(input, c) && c.pos + n + 2 <= |input.tokens|
    requires forall i {:trigger NotKeyword(k, input.tokens[i])} ::
      c.pos <= i < c.pos + n ==> NotKeyword(k, input.tokens[i])
    requires Downcase(input.tokens[c.pos + n]) == "end"
    requires Downcase(input.tokens[c.pos + n + 1]) == KindName(k)
    ensures ReadBlockSpec(input, convert, materials, c, k)
         == Success((DefaultBlock(k), After(input, c.pos + n + 2)))
  {
    var body := BlockBody(input, convert, materials, c, DefaultBlock(k));
    var closing := After(input, c.pos + n + 1);
    if n > 0 {
      var atEnd := After(input, c.pos + n);
      UnknownWordsSkipped(input, convert, materials, c, DefaultBlock(k), n);
      EndStep(input, convert, materials, atEnd, DefaultBlock(k));
      assert After(input, atEnd.pos + 1) == closing;
    } else {
      EndStep(input, convert, materials, c, DefaultBlock(k));
      assert After(input, c.pos + 1) == closing;
    }
    assert body == Success((DefaultBlock(k), closing));
    NextAt(input, closing);
    assert After(input, closing.pos + 1) == After(input, c.pos + n + 2);
    assert MatchSpec(input, closing, KindName(k)) == Success(After(input, c.pos + n + 2));
  }

  /** "end" finishes the block as it stands. */
  lemma EndStep(input: Input, convert: string -> Option<real>,
      materials: seq<Material>, c: Cursor, b: Block)
    requires ValidCursor(input, c) && c.pos < |input.tokens|
    requires Downcase(input.tokens[c.pos]) == "end"
    ensures BlockBody(input, convert, materials, c, b) == Success((b, After(input, c.pos + 1)))
  {
    NextAt(input, c);
  }

  /** A field whose keyword is not among the words the keyword loop reads keeps
      the value it had when the loop started. */
  lemma {:induction false} BodyKeepsUnnamedFields(input: Input, convert: string -> Option<real>,
      materials: seq<Material>, c: Cursor, b: Block, f: string)
    requires ValidCursor(input, c)
    requires BlockBody(input, convert, materials, c, b).Success?
    requires forall i :: c.pos <= i < BlockBody(input, convert, materials, c, b).value.1.pos ==>
      Downcase(input.tokens[i]) != f
    ensures FieldOf(BlockBody(input, convert, materials, c, b).value.0, f) == FieldOf(b, f)
    decreases |input.tokens| - c.pos
  {
    NextAt(input, c);
    match KeywordStep(input, convert, materials, c, b)
    case Finished(_, _) =>
    case Continue(b', c') =>
      assert Downcase(input.tokens[c.pos]) != f;
      BodyKeepsUnnamedFields(input, convert, materials, c', b', f);
  }

  /** A block keeps the reader's starting value in every field whose keyword
      does not occur in its body. */
  lemma BlockKeepsUnnamedDefaults(input: Input, convert: string -> Option<real>,
      materials: seq<Material>, c: Cursor, k: Kind, f: string)
    requires ValidCursor(input, c)
    requires ReadBlockSpec(input, convert, materials, c, k).Success?
    requires forall i :: c.pos <= i < ReadBlockSpec(input, convert, materials, c, k).value.1.pos - 1 ==>
      Downcase(input.tokens[i]) != f
    ensures FieldOf(ReadBlockSpec(input, convert, materials, c, k).value.0, f) == FieldOf(DefaultBlock(k), f)
  {
    var body := BlockBody(input, convert, materials, c, DefaultBlock(k));
    var closing := body.value.1;
    assert closing.pos < |input.tokens|;
    NextAt(input, closing);
    BodyKeepsUnnamedFields(input, convert, materials, c, DefaultBlock(k), f);
  }

  /** A one-number keyword whose number converts stores it and goes on. */
  lemma NumKeywordStep(input: Input, convert: string -> Option<real>, materials: seq<Material>,
      c: Cursor, b: Block, x: real, c2: Cursor)
    requires ValidCursor(input, c) && c.pos < |input.tokens|
    requires ArgOf(BlockKind(b), Downcase(input.tokens[c.pos])) == NumArg
    requires NextNumberSpec(input, convert, After(input, c.pos + 1)) == Success((x, c2))
    ensures BlockBody(input, convert, materials, c, b)
         == BlockBody(input, convert, materials, c2, SetNum(b, Downcase(input.tokens[c.pos]), x))
  {
    NextAt(input, c);
    assert ArgOf(BlockKind(b), "end") == Unknown;
  }

  /** A keyword loop that finishes just before the block's own kind word
      completes the block. */
  lemma ClosedBlock(input: Input, convert: string -> Option<real>, materials: seq<Material>,
      c: Cursor, k: Kind, b: Block, closing: Cursor)
    requires ValidCursor(input, c) && ValidCursor(input, closing) && closing.pos < |input.tokens|
    requires BlockBody(input, convert, materials, c, DefaultBlock(k)) == Success((b, closing))
    requires Downcase(input.tokens[closing.pos]) == KindName(k)
    ensures ReadBlockSpec(input, convert, materials, c, k) == Success((b, After(input, closing.pos + 1)))
  {
    NextAt(input, closing);
  }

  /** "begin sphere radius 2 end sphere" is the default sphere with radius 2. */
  lemma RadiusOnlySphere(convert: string -> Option<real>)
    requires convert("2") == Some(2.0)
    ensures ReadBlockSpec(Input(["radius", "2", "end", "sphere"], false), convert, [],
                          Cursor(0, false), SphereKind)
         == Success((ShapeBlock(Sphere(Zero3, 2.0, DefaultMaterial, "NO NAME")), Cursor(4, true)))
  {
    var input := Input(["radius", "2", "end", "sphere"], false);
    var b1 := ShapeBlock(Sphere(Zero3, 2.0, DefaultMaterial, "NO NAME"));
    DowncaseKeepsLowerCase("radius");
    DowncaseKeepsLowerCase("end");
    DowncaseKeepsLowerCase("sphere");
    assert NextNumberSpec(input, convert, Cursor(1, false)) == Success((2.0, Cursor(2, false)));
    NumKeywordStep(input, convert, [], Cursor(0, false), DefaultBlock(SphereKind), 2.0, Cursor(2, false));
    EndStep(input, convert, [], Cursor(2, false), b1);
    ClosedBlock(input, convert, [], Cursor(0, false), SphereKind, b1, Cursor(3, false));
  }

  /** "begin cylinder radius 3 end cylinder" keeps the default height 2. */
  lemma RadiusOnlyCylinder(convert: string -> Option<real>)
    requires convert("3") == Some(3.0)
    ensures ReadBlockSpec(Input(["radius", "3", "end", "cylinder"], false), convert, [],
                          Cursor(0, false), CylinderKind)
         == Success((ShapeBlock(Cylinder(Zero3, 3.0, 2.0, DefaultMaterial, "NO NAME")), Cursor(4, true)))
  {
    var input := Input(["radius", "3", "end", "cylinder"], false);
    var b1 := ShapeBlock(Cylinder(Zero3, 3.0, 2.0, DefaultMaterial, "NO NAME"));
    DowncaseKeepsLowerCase("radius");
    DowncaseKeepsLowerCase("end");
    DowncaseKeepsLowerCase("cylinder");
    assert NextNumberSpec(input, convert, Cursor(1, false)) == Success((3.0, Cursor(2, false)));
    NumKeywordStep(input, convert, [], Cursor(0, false), DefaultBlock(CylinderKind), 3.0, Cursor(2, false));
    EndStep(input, convert, [], Cursor(2, false), b1);
    ClosedBlock(input, convert, [], Cursor(0, false), CylinderKind, b1, Cursor(3, false));
  }

  /** After the keyword loop, the block is accepted exactly when the next word
      is its own kind; otherwise the reader fails naming both words. */
  lemma ClosingKindMustMatch(input: Input, convert: string -> Option<real>,
      materials: seq<Material>, c: Cursor, k: Kind, b: Block, c1: Cursor)
    requires ValidCursor(input, c)
    requires BlockBody(input, convert, materials, c, DefaultBlock(k)) == Success((b, c1))
    ensures ReadBlockSpec(input, convert, materials, c, k).Success?
        <==> NextStringSpec(input, c1).0 == KindName(k)
    ensures NextStringSpec(input, c1).0 != KindName(k) ==>
      ReadBlockSpec(input, convert, materials, c, k)
        == Failure(MatchFailed(KindName(k), NextStringSpec(input, c1).0))
  {
  }

  /** At the top level any word other than "begin" is an error, unless it is
      the last word and the file ends right after it, where read_scene stops. */
  lemma SceneLoopExpectsBegin(input: Input, convert: string -> Option<real>, c: Cursor,
      materials: seq<Material>, scene: Scene)
    requires ValidCursor(input, c) && !c.eof && c.pos < |input.tokens|
    requires c.pos + 1 < |input.tokens| || input.trailingSpace
    ensures Downcase(input.tokens[c.pos]) != "begin" ==>
      SceneLoop(input, convert, c, materials, scene)
        == Failure(ExpectedBegin(Downcase(input.tokens[c.pos])))
  {
    NextAt(input, c);
  }

  /** A last word with no whitespace after it ends read_scene, whatever it
      is: the scene read so far is the result. */
  lemma SceneLoopDropsFinalWord(input: Input, convert: string -> Option<real>, c: Cursor,
      materials: seq<Material>, scene: Scene)
    requires ValidCursor(input, c) && c.pos + 1 == |input.tokens| && !input.trailingSpace
    ensures SceneLoop(input, convert, c, materials, scene) == Success(scene)
  {
    if !c.eof {
      NextAt(input, c);
    }
  }

  /** One step of read_scene after "begin": an unknown kind is skipped, and a
      block that reads correctly is added to the scene before the rest of the
      file is read. */
  lemma SceneLoopStep(input: Input, convert: string -> Option<real>, c: Cursor,
      materials: seq<Material>, scene: Scene)
    requires ValidCursor(input, c) && !c.eof && c.pos + 1 < |input.tokens|
    ensures Downcase(input.tokens[c.pos]) == "begin" &&
            KindOf(Downcase(input.tokens[c.pos + 1])).None? ==>
      SceneLoop(input, convert, c, materials, scene)
        == SceneLoop(input, convert, After(input, c.pos + 2), materials, scene)
    ensures forall k: Kind, b: Block, c3: Cursor ::
      Downcase(input.tokens[c.pos]) == "begin" &&
      KindOf(Downcase(input.tokens[c.pos + 1])) == Some(k) &&
      ReadBlockSpec(input, convert, materials, After(input, c.pos + 2), k) == Success((b, c3)) ==>
        SceneLoop(input, convert, c, materials, scene)
          == SceneLoop(input, convert, c3, AddBlock(scene, materials, b).1, AddBlock(scene, materials, b).0)
  {
    NextAt(input, c);
    NextAt(input, After(input, c.pos + 1));
  }

  /** Reading never removes or reorders what the scene already held: the
      shapes and lights before are a prefix of those after. */
  lemma {:induction false} SceneLoopOnlyAppends(input: Input, convert: string -> Option<real>,
      c: Cursor, materials: seq<Material>, scene: Scene)
    requires ValidCursor(input, c)
    ensures SceneLoop(input, convert, c, materials, scene).Success? ==>
      scene.shapes <= SceneLoop(input, convert, c, materials, scene).value.shapes &&
      scene.lights <= SceneLoop(input, convert, c, materials, scene).value.lights
    decreases |input.tokens| - c.pos, if c.eof then 0 else 1
  {
    var r := SceneLoop(input, convert, c, materials, scene);
    if c.eof {
      assert r == Success(scene);
    } else {
      var (token, c1) := NextStringSpec(input, c);
      if c1.eof || token != "begin" {
        assert r == Success(scene) || r.Failure?;
      } else {
        var (word, c2) := NextStringSpec(input, c1);
        match KindOf(word)
        case None =>
          SceneLoopOnlyAppends(input, convert, c2, materials, scene);
          assert r == SceneLoop(input, convert, c2, materials, scene);
        case Some(k) =>
          var block := ReadBlockSpec(input, convert, materials, c2, k);
          if block.Failure? {
            assert r.Failure?;
          } else {
            var next := AddBlock(scene, materials, block.value.0);
            assert scene.shapes <= next.0.shapes && scene.lights <= next.0.lights;
            SceneLoopOnlyAppends(input, convert, block.value.1, next.1, next.0);
            assert r == SceneLoop(input, convert, block.value.1, next.1, next.0);
          }
      }
    }
  }

  // ---------------------------------------------------------------------
  // The keyword loop as the source writes it.

  /** `while ((token = next_string()) != "end") { ... }` with no exit at the end
      of input. `fuel` bounds how many iterations are looked at; None means the
      loop has not left within that many. */
  function BlockBodyAsWritten(input: Input, convert: string -> Option<real>,
      materials: seq<Material>, c: Cursor, b: Block, fuel: nat): Option<Result<(Block, Cursor)>>
    requires ValidCursor(input, c)
    decreases fuel
  {
    if fuel == 0 then None
    else
      match KeywordStep(input, convert, materials, c, b)
      case Finished(b', c') => Some(Success((b', c')))
      case Stopped(e) => Some(Failure(e))
      case Continue(b', c') => BlockBodyAsWritten(input, convert, materials, c', b', fuel - 1)
  }

  /** Once the input is used up inside a block, the loop as written reads the
      empty string forever: no number of iterations reaches "end". */
  lemma {:induction false} AsWrittenNeverLeavesAtEndOfInput(input: Input, convert: string -> Option<real>,
      materials: seq<Material>, c: Cursor, b: Block, fuel: nat)
    requires ValidCursor(input, c) && c.pos == |input.tokens|
    ensures BlockBodyAsWritten(input, convert, materials, c, b, fuel) == None
    decreases fuel
  {
    if fuel > 0 {
      assert NextStringSpec(input, c) == ("", Cursor(c.pos, true));
      assert KeywordStep(input, convert, materials, c, b) == Continue(b, Cursor(c.pos, true));
      AsWrittenNeverLeavesAtEndOfInput(input, convert, materials, Cursor(c.pos, true), b, fuel - 1);
    }
  }

  /** The file "begin sphere": the loop as written never finishes, while the
      reader of this model reports the unterminated block. */
  lemma UnclosedSphereExample(convert: string -> Option<real>, fuel: nat)
    ensures BlockBodyAsWritten(Input(["begin", "sphere"], true), convert, [],
                               Cursor(2, false), DefaultBlock(SphereKind), fuel) == None
    ensures ReadSceneSpec(Input(["begin", "sphere"], true), convert, Scene([], [], DefaultCamera))
         == Failure(UnterminatedBlock("sphere"))
  {
    var input := Input(["begin", "sphere"], true);
    AsWrittenNeverLeavesAtEndOfInput(input, convert, [], Cursor(2, false), DefaultBlock(SphereKind), fuel);
    DowncaseKeepsLowerCase("begin");
    DowncaseKeepsLowerCase("sphere");
  }

  /** A block whose remaining input holds no "end" is an error in the corrected
      loop, whatever the input: the reader always stops. */
  lemma {:induction false} UnclosedBlockFails(input: Input, convert: string -> Option<real>,
      materials: seq<Material>, c: Cursor, b: Block)
    requires ValidCursor(input, c)
    requires forall i :: c.pos <= i < |input.tokens| ==> Downcase(input.tokens[i]) != "end"
    ensures BlockBody(input, convert, materials, c, b).Failure?
    decreases |input.tokens| - c.pos
  {
    if c.pos < |input.tokens| {
      assert NextStringSpec(input, c).0 == Downcase(input.tokens[c.pos]);
      var step := KeywordStep(input, convert, materials, c, b);
      if step.Continue? {
        UnclosedBlockFails(input, convert, materials, step.after, step.block);
      }
    }
  }

  /** Whenever the loop as written does leave, the corrected loop gives the same
      block and position, or the same error. */
  lemma {:induction false} BlockBodyAgreesWithAsWritten(input: Input, convert: string -> Option<real>,
      materials: seq<Material>, c: Cursor, b: Block, fuel: nat)
    requires ValidCursor(input, c)
    requires BlockBodyAsWritten(input, convert, materials, c, b, fuel).Some?
    ensures BlockBody(input, convert, materials, c, b)
         == BlockBodyAsWritten(input, convert, materials, c, b, fuel).value
    decreases fuel
  {
    if c.pos == |input.tokens| {
      AsWrittenNeverLeavesAtEndOfInput(input, convert, materials, c, b, fuel);
    } else {
      match KeywordStep(input, convert, materials, c, b)
      case Finished(_, _) =>
      case Stopped(_) =>
      case Continue(b', c') =>
        BlockBodyAgreesWithAsWritten(input, convert, materials, c', b', fuel - 1);
    }
  }
}
