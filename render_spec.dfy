/** The per-frame behaviour of GeometryRender (geometryrender.cpp) as pure
    functions: the compare-and-copy of material and projection parameters, the
    order in which one call of display uploads to the GPU, the model-matrix
    gestures, the rigid camera steps and the wrapping of yaw and pitch. The
    renderer class in module Render is proved against these. */
module RenderSpec {
  import opened Vectors
  import opened Scenery
  import opened Effects
  import opened MeshSpec
  import opened Mesh

  /** The four material parameters that handleMaterial compares and copies. */
  datatype Material = Material(ambient: Vec3, diffuse: Vec3, specular: Vec3, shininess: real)

  /** The material a freshly constructed model starts with. */
  const DefaultMaterial: Material := Material(Vec3(0.6, 0.6, 0.6), Vec3(0.5, 0.5, 0.5), Vec3(0.5, 0.5, 0.5), 5.0)

  /** The five projection parameters that handleProjection compares and copies. */
  datatype Projection = Projection(fov: real, farplane: real, top: real, obliqueAngleRad: real, obliqueScale: real)

  function ProjectionOf(c: Camera): Projection {
    Projection(c.fov, c.farplane, c.top, c.obliqueAngleRad, c.obliqueScale)
  }

  /** The camera once handleProjection has copied the window's parameters into
      it: the projection is the window's and the view is untouched. */
  function WithProjection(c: Camera, p: Projection): (r: Camera)
    ensures ProjectionOf(r) == p
    ensures r.eye == c.eye && r.center == c.center && r.up == c.up
    ensures r.pitch == c.pitch && r.yaw == c.yaw
  {
    c.(fov := p.fov, farplane := p.farplane, top := p.top,
       obliqueAngleRad := p.obliqueAngleRad, obliqueScale := p.obliqueScale)
  }

  /** Copying parameters the camera already has changes nothing. */
  lemma WithOwnProjection(c: Camera)
    ensures WithProjection(c, ProjectionOf(c)) == c
  {
  }

  // ---------------------------------------------------------------------------
  // Model-matrix gestures

  /** The operations that post-multiply the model matrix: the arrow and I/J/K/L
      keys, and the slow spin of the globe. */
  datatype Gesture =
    | RotateUp | RotateDown | RotateRight | RotateLeft
    | TranslateUp | TranslateDown | TranslateRight | TranslateLeft
    | RotateEarth

  /** The model matrix after a gesture: a translation by half a unit along an
      axis, a rotation by 10 degrees, or 0.4 degrees about the y axis for the
      globe. Angles are kept in degrees. */
  function Transformed(m: Transform, g: Gesture): (r: Transform)
    ensures !r.Identity? && !r.Scaled? && r.base == m
    ensures r.Translated? <==> g.TranslateUp? || g.TranslateDown? || g.TranslateRight? || g.TranslateLeft?
  {
    match g
    case RotateUp => Rotated(m, 10.0, Vec3(1.0, 0.0, 0.0))
    case RotateDown => Rotated(m, 10.0, Vec3(-1.0, 0.0, 0.0))
    case RotateRight => Rotated(m, 10.0, Vec3(0.0, -1.0, 0.0))
    case RotateLeft => Rotated(m, 10.0, Vec3(0.0, 1.0, 0.0))
    case TranslateUp => Translated(m, Vec3(0.0, 0.5, 0.0))
    case TranslateDown => Translated(m, Vec3(0.0, -0.5, 0.0))
    case TranslateRight => Translated(m, Vec3(0.5, 0.0, 0.0))
    case TranslateLeft => Translated(m, Vec3(-0.5, 0.0, 0.0))
    case RotateEarth => Rotated(m, 0.4, Vec3(0.0, 1.0, 0.0))
  }

  /** The key that undoes a keyboard gesture. */
  function Reverse(g: Gesture): (r: Gesture)
    requires g != RotateEarth
  {
    match g
    case RotateUp => RotateDown
    case RotateDown => RotateUp
    case RotateRight => RotateLeft
    case RotateLeft => RotateRight
    case TranslateUp => TranslateDown
    case TranslateDown => TranslateUp
    case TranslateRight => TranslateLeft
    case TranslateLeft => TranslateRight
  }

  /** Opposite keys apply opposite steps: the same translation negated, or the
      same angle about the negated axis. */
  lemma ReverseUndoes(m: Transform, g: Gesture)
    requires g != RotateEarth
    ensures Reverse(Reverse(g)) == g
    ensures var a, b := Transformed(m, g), Transformed(m, Reverse(g));
            (a.Translated? ==> b.Translated? && b.offset == Neg(a.offset)) &&
            (a.Rotated? ==> b.Rotated? && b.degrees == a.degrees && b.axis == Neg(a.axis))
  {
    match g
    case RotateUp =>
    case RotateDown =>
    case RotateRight =>
    case RotateLeft =>
    case TranslateUp =>
    case TranslateDown =>
    case TranslateRight =>
    case TranslateLeft =>
  }

  // ---------------------------------------------------------------------------
  // Camera steps

  /** MOVE_CAMERA_UNIT */
  const MoveCameraUnit: real := 0.05

  datatype Move = MoveDown | MoveUp | MoveRight | MoveLeft | MoveForwards | MoveBackwards

  /** The displacement of one moveCamera* step: along the up vector, along the
      normalised right vector (center - eye) x up, or along the normalised
      viewing direction. `normalize` stands for glm::normalize. */
  function Movement(c: Camera, m: Move, normalize: Vec3 -> Vec3): Vec3 {
    var right := normalize(Cross(Sub(c.center, c.eye), c.up));
    var forward := normalize(Sub(c.center, c.eye));
    match m
    case MoveDown => Scale(c.up, -MoveCameraUnit)
    case MoveUp => Scale(c.up, MoveCameraUnit)
    case MoveRight => Scale(right, MoveCameraUnit)
    case MoveLeft => Scale(Neg(right), MoveCameraUnit)
    case MoveForwards => Scale(forward, MoveCameraUnit)
    case MoveBackwards => Scale(Neg(forward), MoveCameraUnit)
  }

  /** Eye and center moved by the same vector: the camera keeps its viewing
      direction, orientation and projection. */
  function Shifted(c: Camera, movement: Vec3): (r: Camera)
    ensures Sub(r.eye, c.eye) == movement && Sub(r.center, c.center) == movement
    ensures Sub(r.center, r.eye) == Sub(c.center, c.eye)
    ensures r.up == c.up && r.pitch == c.pitch && r.yaw == c.yaw
    ensures ProjectionOf(r) == ProjectionOf(c)
  {
    c.(eye := Add(c.eye, movement), center := Add(c.center, movement))
  }

  function Back(m: Move): Move {
    match m
    case MoveDown => MoveUp
    case MoveUp => MoveDown
    case MoveRight => MoveLeft
    case MoveLeft => MoveRight
    case MoveForwards => MoveBackwards
    case MoveBackwards => MoveForwards
  }

  /** A step followed by the opposite step returns the camera to where it was:
      the first step keeps center - eye and up, so the second step computes the
      same direction and moves back along it. */
  lemma {:induction false} StepBack(c: Camera, m: Move, normalize: Vec3 -> Vec3)
    ensures var s := Shifted(c, Movement(c, m, normalize));
            Shifted(s, Movement(s, Back(m), normalize)) == c
  {
    var s := Shifted(c, Movement(c, m, normalize));
    assert Sub(s.center, s.eye) == Sub(c.center, c.eye) && s.up == c.up;
    var v := Movement(c, m, normalize);
    assert Movement(s, Back(m), normalize) == Neg(v);
  }

  // ---------------------------------------------------------------------------
  // Mouse look

  /** glm::mod(angle, 360): angle - 360 * floor(angle / 360), in [0, 360) and
      a whole number of turns away from the angle. */
  function Wrapped(angle: real): (r: real)
    ensures 0.0 <= r < 360.0
    ensures 0.0 <= angle < 360.0 ==> r == angle
    ensures ((angle - r) / 360.0).Floor as real == (angle - r) / 360.0
  {
    angle - 360.0 * (angle / 360.0).Floor as real
  }

  /** Whole turns do not change the wrapped angle. */
  lemma {:induction false} WrappedTurns(angle: real, turns: int)
    ensures Wrapped(angle + 360.0 * turns as real) == Wrapped(angle)
  {
    var q := angle / 360.0;
    assert (angle + 360.0 * turns as real) / 360.0 == q + turns as real;
    assert (q + turns as real).Floor == q.Floor + turns;
  }

  /** calculateCameraDirection with its unit front vector given: center one unit
      in front of the eye, up perpendicular to front within the vertical plane. */
  function Aimed(c: Camera, front: Vec3): (r: Camera)
    ensures r.eye == c.eye && Sub(r.center, r.eye) == front
    ensures r.up == Cross(Cross(front, Vec3(0.0, 1.0, 0.0)), front)
    ensures r.pitch == c.pitch && r.yaw == c.yaw && ProjectionOf(r) == ProjectionOf(c)
  {
    c.(center := Add(c.eye, front), up := Cross(Cross(front, Vec3(0.0, 1.0, 0.0)), front))
  }

  datatype Turn = TurnUp | TurnDown | TurnLeft | TurnRight

  /** rotateCamera*: pitch down or up, yaw left or right by the mouse delta,
      wrapped into [0, 360), then re-aimed. `front` stands for the normalised
      direction that cos and sin give for a yaw and a pitch. */
  function Turned(c: Camera, t: Turn, delta: real, front: (real, real) -> Vec3): (r: Camera)
    ensures t in {TurnUp, TurnDown} ==> r.yaw == c.yaw && 0.0 <= r.pitch < 360.0
    ensures t in {TurnLeft, TurnRight} ==> r.pitch == c.pitch && 0.0 <= r.yaw < 360.0
    ensures r.eye == c.eye && Sub(r.center, r.eye) == front(r.yaw, r.pitch)
    ensures ProjectionOf(r) == ProjectionOf(c)
  {
    var pitch := match t
      case TurnUp => Wrapped(c.pitch - delta)
      case TurnDown => Wrapped(c.pitch + delta)
      case _ => c.pitch;
    var yaw := match t
      case TurnLeft => Wrapped(c.yaw + delta)
      case TurnRight => Wrapped(c.yaw - delta)
      case _ => c.yaw;
    Aimed(c.(pitch := pitch, yaw := yaw), front(yaw, pitch))
  }

  /** Turning up and then down by the same delta (or left and then right)
      returns to the wrapped pitch (yaw) and aims the camera there again. */
  lemma {:induction false} TurnBack(c: Camera, delta: real, front: (real, real) -> Vec3)
    ensures Turned(Turned(c, TurnUp, delta, front), TurnDown, delta, front).pitch == Wrapped(c.pitch)
    ensures Turned(Turned(c, TurnLeft, delta, front), TurnRight, delta, front).yaw == Wrapped(c.yaw)
  {
    var p := Wrapped(c.pitch - delta);
    var k := ((c.pitch - delta - p) / 360.0).Floor;
    assert p + delta == c.pitch + 360.0 * (-k) as real;
    WrappedTurns(c.pitch, -k);
    var y := Wrapped(c.yaw + delta);
    var j := ((c.yaw + delta - y) / 360.0).Floor;
    assert y - delta == c.yaw + 360.0 * (-j) as real;
    WrappedTurns(c.yaw, -j);
  }

  // ---------------------------------------------------------------------------
  // One frame

  /** The view side of the renderer that initialize sets up: the three frame
      flags, the camera, the window's projection parameters, the lights and the
      window's copies of them. */
  datatype ViewSetup = ViewSetup(firstRun: bool, viewChanged: bool, modelChanged: bool, camera: Camera,
                                 projection: Projection, world: Scene, lights: Scene)

  /** After initialize: a first run is due, nothing else is pending, and camera,
      projection parameters and lights are the defaults, copied into the window. */
  const InitialView: ViewSetup :=
    ViewSetup(true, false, false, DefaultCamera, ProjectionOf(DefaultCamera), DefaultScene, DefaultScene)

  /** What one call of display reads and writes: the renderer's flags, camera,
      lights and window copies, and the model's material, names, texture switch,
      model matrix and index count. */
  datatype Frame = Frame(
    firstRun: bool, viewChanged: bool, modelChanged: bool,
    camera: Camera, world: Scene, projMode: int, projection: Projection,
    windowMaterial: Material, objectMaterial: Material,
    objFileName: string, textureShow: bool, textureFileName: string,
    modelMat: Transform, indexCount: nat)

  /** The default textured globe spins a little every frame. */
  predicate ShowsEarth(f: Frame): (r: bool)
    ensures r ==> f.textureShow && f.objFileName == "sphere_large.obj"
    ensures f.objFileName == "sphere.obj" || f.textureFileName != "erf.jpg" ==> !r
  {
    f.objFileName == "sphere_large.obj" && f.textureShow && f.textureFileName == "erf.jpg"
  }

  /** Whether the model matrix changed since the last upload, counting the spin
      of this frame. */
  predicate ModelMoved(f: Frame) {
    f.modelChanged || ShowsEarth(f)
  }

  predicate MaterialEdited(f: Frame) {
    f.objectMaterial != f.windowMaterial
  }

  /** The first-run block: projection, view, lights, model with material. */
  function OpeningEvents(f: Frame): seq<Event> {
    if f.firstRun then [SentProj(f.camera, f.projMode), SentView(f.camera), SentScene(f.world), SentModel(true)] else []
  }

  /** The model upload after handleMaterial: with the material when the window
      edited it, else the model alone when it moved. */
  function ModelEvents(f: Frame): seq<Event> {
    if MaterialEdited(f) then [SentModel(true)] else if ModelMoved(f) then [SentModel(false)] else []
  }

  /** The texture switch, the view when it changed, the projection when the
      window edited it, and the draw. */
  function ClosingEvents(f: Frame): seq<Event> {
    [SetUseTexture(f.textureShow)]
    + (if f.viewChanged then [SentView(f.camera)] else [])
    + (if ProjectionOf(f.camera) != f.projection then [SentProj(WithProjection(f.camera, f.projection), f.projMode)] else [])
    + [Drew(f.indexCount)]
  }

  lemma AppendClosing(s: seq<Event>, f: Frame)
    ensures s + ClosingEvents(f) ==
      s + [SetUseTexture(f.textureShow)]
      + (if f.viewChanged then [SentView(f.camera)] else [])
      + (if ProjectionOf(f.camera) != f.projection then [SentProj(WithProjection(f.camera, f.projection), f.projMode)] else [])
      + [Drew(f.indexCount)]
  {
  }

  /** The uploads of one call of display, in order. */
  function DisplayEvents(f: Frame): (r: seq<Event>)
    ensures |r| >= 2 && r[|r| - 1] == Drew(f.indexCount)
  {
    OpeningEvents(f) + ModelEvents(f) + ClosingEvents(f)
  }

  lemma AppendDisplay(s: seq<Event>, f: Frame)
    ensures s + DisplayEvents(f) == s + OpeningEvents(f) + ModelEvents(f) + ClosingEvents(f)
  {
  }

  /** The state display leaves: every flag cleared, material and projection in
      step with the window, the globe turned when it is shown. */
  function AfterDisplay(f: Frame): (r: Frame)
    ensures !r.firstRun && !r.viewChanged && !r.modelChanged
    ensures r.objectMaterial == r.windowMaterial == f.windowMaterial
    ensures ProjectionOf(r.camera) == r.projection == f.projection
    ensures r.modelMat == if ShowsEarth(f) then Transformed(f.modelMat, RotateEarth) else f.modelMat
  {
    f.(firstRun := false, viewChanged := false, modelChanged := false,
       camera := WithProjection(f.camera, f.projection),
       objectMaterial := f.windowMaterial,
       modelMat := if ShowsEarth(f) then Transformed(f.modelMat, RotateEarth) else f.modelMat)
  }

  /** On the first run the frame opens with projection, view, lights and model
      with material, in that order; on any other run the lights are not sent. */
  lemma {:induction false} FirstFrameOrder(f: Frame)
    ensures f.firstRun ==>
      DisplayEvents(f)[..4] == [SentProj(f.camera, f.projMode), SentView(f.camera), SentScene(f.world), SentModel(true)]
    ensures !f.firstRun ==> SentScene(f.world) !in DisplayEvents(f)
  {
    var tail := ModelEvents(f) + ClosingEvents(f);
    assert DisplayEvents(f) == OpeningEvents(f) + tail;
    assert SentScene(f.world) !in tail;
  }

  /** The model matrix is uploaded once by the first-run block and at most once
      more: exactly when the material was edited or the model moved. */
  lemma {:induction false} ModelUploadsPerFrame(f: Frame)
    ensures ModelUploads(DisplayEvents(f)) ==
      (if f.firstRun then 1 else 0) + (if MaterialEdited(f) || ModelMoved(f) then 1 else 0)
  {
    ModelUploadsAppend(OpeningEvents(f) + ModelEvents(f), ClosingEvents(f));
    ModelUploadsAppend(OpeningEvents(f), ModelEvents(f));
    assert SentModel(true) !in ClosingEvents(f) && SentModel(false) !in ClosingEvents(f);
    if f.firstRun {
      var head := [SentProj(f.camera, f.projMode), SentView(f.camera), SentScene(f.world)];
      assert OpeningEvents(f) == head + [SentModel(true)];
      ModelUploadsAppend(head, [SentModel(true)]);
      assert SentModel(true) !in head && SentModel(false) !in head;
    }
  }

  /** On a first frame whose material the window edited, the first-run upload
      goes out while the object still holds its old material; handleMaterial
      then copies the edit and uploads again, so the second upload is the one
      that carries the edited material. */
  lemma FirstRunEditedMaterial(f: Frame)
    requires f.firstRun && MaterialEdited(f)
    ensures DisplayEvents(f)[3] == SentModel(true) && f.objectMaterial != f.windowMaterial
    ensures DisplayEvents(f)[4] == SentModel(true) && AfterDisplay(f).objectMaterial == f.windowMaterial
  {
    assert DisplayEvents(f)[..5] == OpeningEvents(f) + ModelEvents(f);
  }

  /** The model alone, without material, is sent exactly when the model moved
      and the material was not edited. */
  lemma {:induction false} ModelWithoutMaterial(f: Frame)
    ensures SentModel(false) in DisplayEvents(f) <==> ModelMoved(f) && !MaterialEdited(f)
  {
    assert SentModel(false) !in OpeningEvents(f) && SentModel(false) !in ClosingEvents(f);
  }

  /** Outside the first run the view is sent exactly when it changed, and the
      projection exactly when the window edited one of its parameters. */
  lemma {:induction false} ViewAndProjectionSent(f: Frame)
    requires !f.firstRun
    ensures SentView(f.camera) in DisplayEvents(f) <==> f.viewChanged
    ensures SentProj(WithProjection(f.camera, f.projection), f.projMode) in DisplayEvents(f)
            <==> ProjectionOf(f.camera) != f.projection
  {
    assert DisplayEvents(f) == ModelEvents(f) + ClosingEvents(f);
    assert SentView(f.camera) !in ModelEvents(f);
  }

  /** Once the flags are cleared and the copies agree, a frame that does not
      show the globe only sets the texture switch and draws. */
  lemma {:induction false} SettledFrame(f: Frame)
    requires !ShowsEarth(f)
    ensures DisplayEvents(AfterDisplay(f)) == [SetUseTexture(f.textureShow), Drew(f.indexCount)]
  {
    var g := AfterDisplay(f);
    assert !ShowsEarth(g) && !MaterialEdited(g) && ProjectionOf(g.camera) == g.projection;
  }
}
