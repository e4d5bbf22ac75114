/** Keyboard input (glfwcallbackmanager.h): the key callback that turns GLFW key
    events into model-matrix gestures, an object reload, and the held-key flags
    the frame loop reads to move the camera. */
module Input {
  import opened Scenery
  import opened Effects
  import opened MeshSpec
  import opened Mesh
  import opened RenderSpec
  import opened Render

  // GLFW key actions.
  const Release: int := 0
  const Press: int := 1
  const Repeat: int := 2

  // GLFW key codes of the keys the callback handles.
  const KeySpace: int := 32
  const KeyA: int := 65
  const KeyD: int := 68
  const KeyE: int := 69
  const KeyI: int := 73
  const KeyJ: int := 74
  const KeyK: int := 75
  const KeyL: int := 76
  const KeyO: int := 79
  const KeyQ: int := 81
  const KeyS: int := 83
  const KeyW: int := 87
  const KeyRight: int := 262
  const KeyLeft: int := 263
  const KeyDown: int := 264
  const KeyUp: int := 265
  const KeyLeftShift: int := 340
  const KeyLeftControl: int := 341

  /** The window's key flags: flying and ducking (move up and down), the four
      WASD movements, and whether the mouse rotates the camera. */
  datatype KeyFlags = KeyFlags(flying: bool, ducking: bool, forward: bool, backward: bool,
                               right: bool, left: bool, rotating: bool)

  /** What a key event asks of the renderer besides the flags. */
  datatype Command = NoCommand | Apply(gesture: Gesture) | ReloadObject

  datatype KeyOutcome = KeyOutcome(flags: KeyFlags, command: Command)

  /** The model-matrix keys act on a press and on auto-repeat. */
  predicate Acts(action: int) {
    action == Press || action == Repeat
  }

  /** A held key's flag: set when one of its keys is pressed, cleared when it is
      released, kept otherwise. */
  function Held(was: bool, hit: bool, action: int): (r: bool)
    ensures !hit || (action != Press && action != Release) ==> r == was
    ensures hit && action == Press ==> r
    ensures hit && action == Release ==> !r
  {
    if hit && action == Press then true
    else if hit && action == Release then false
    else was
  }

  /** The gesture or reload a key event triggers. The callback tests each key in
      turn; no two tests can hold for the same key, so a chain of alternatives
      says the same. */
  function KeyCommand(key: int, action: int): (r: Command)
    ensures r.Apply? ==> Acts(action) && r.gesture != RotateEarth && key == GestureKey(r.gesture)
    ensures r == ReloadObject <==> key == KeyO && action == Press
    ensures action == Release ==> r == NoCommand
  {
    if key == KeyUp && Acts(action) then Apply(RotateUp)
    else if key == KeyDown && Acts(action) then Apply(RotateDown)
    else if key == KeyRight && Acts(action) then Apply(RotateRight)
    else if key == KeyLeft && Acts(action) then Apply(RotateLeft)
    else if key == KeyI && Acts(action) then Apply(TranslateUp)
    else if key == KeyK && Acts(action) then Apply(TranslateDown)
    else if key == KeyJ && Acts(action) then Apply(TranslateLeft)
    else if key == KeyL && Acts(action) then Apply(TranslateRight)
    else if key == KeyO && action == Press then ReloadObject
    else NoCommand
  }

  /** The whole effect of one key event on the flags and the command issued. */
  function KeyStep(f: KeyFlags, key: int, action: int): (r: KeyOutcome)
    ensures r.command == KeyCommand(key, action)
    ensures action == Repeat || !FlagKey(key) ==> r.flags == f
    ensures r.flags.rotating != f.rotating <==> key == KeySpace && action == Press
  {
    KeyOutcome(
      KeyFlags(
        flying := Held(f.flying, key == KeyLeftShift || key == KeyE, action),
        ducking := Held(f.ducking, key == KeyLeftControl || key == KeyQ, action),
        forward := Held(f.forward, key == KeyW, action),
        backward := Held(f.backward, key == KeyS, action),
        right := Held(f.right, key == KeyD, action),
        left := Held(f.left, key == KeyA, action),
        rotating := if key == KeySpace && action == Press then !f.rotating else f.rotating),
      KeyCommand(key, action))
  }

  /** The keys whose events touch a flag. */
  predicate FlagKey(key: int) {
    key == KeyLeftShift || key == KeyE || key == KeyLeftControl || key == KeyQ ||
    key == KeyW || key == KeyS || key == KeyD || key == KeyA || key == KeySpace
  }

  /** The key that issues a gesture. */
  function GestureKey(g: Gesture): int
    requires g != RotateEarth
  {
    match g
    case RotateUp => KeyUp
    case RotateDown => KeyDown
    case RotateRight => KeyRight
    case RotateLeft => KeyLeft
    case TranslateUp => KeyI
    case TranslateDown => KeyK
    case TranslateLeft => KeyJ
    case TranslateRight => KeyL
  }

  // ---------------------------------------------------------------------------
  // Properties of one key event

  /** A gesture is issued exactly for its own key, pressed or repeating; the
      globe's spin never comes from the keyboard. */
  lemma GestureOnPressOrRepeat(key: int, action: int, g: Gesture)
    ensures KeyCommand(key, action) == Apply(g) <==> g != RotateEarth && key == GestureKey(g) && Acts(action)
  {
  }

  /** A release never issues a command. */
  lemma ReleaseIssuesNothing(key: int)
    ensures KeyCommand(key, Release) == NoCommand
  {
  }

  /** O reloads the object on a press only, never on repeat or release. */
  lemma ReloadOnPressOnly(key: int, action: int)
    ensures KeyCommand(key, action) == ReloadObject <==> key == KeyO && action == Press
  {
  }

  /** Left Control and Q hold the ducking flag, left Shift and E the flying flag,
      and W, S, D, A the four movements: pressed sets the flag, released clears it. */
  lemma HeldFlags(f: KeyFlags, key: int, action: int)
    requires action == Press || action == Release
    ensures var r := KeyStep(f, key, action).flags;
      && ((key == KeyLeftControl || key == KeyQ) ==> r.ducking == (action == Press))
      && ((key == KeyLeftShift || key == KeyE) ==> r.flying == (action == Press))
      && (key == KeyW ==> r.forward == (action == Press))
      && (key == KeyS ==> r.backward == (action == Press))
      && (key == KeyD ==> r.right == (action == Press))
      && (key == KeyA ==> r.left == (action == Press))
  {
  }

  /** Auto-repeat leaves every flag as it was. */
  lemma RepeatKeepsFlags(f: KeyFlags, key: int)
    ensures KeyStep(f, key, Repeat).flags == f
  {
  }

  /** Keys that have no flag leave all flags as they were. */
  lemma OtherKeysKeepFlags(f: KeyFlags, key: int, action: int)
    requires !FlagKey(key)
    ensures KeyStep(f, key, action).flags == f
  {
  }

  /** Control and Q change only the ducking flag, Shift and E only the flying flag. */
  lemma ModifierOnlyOwnFlag(f: KeyFlags, action: int)
    ensures KeyStep(f, KeyLeftControl, action).flags == f.(ducking := Held(f.ducking, true, action))
    ensures KeyStep(f, KeyQ, action).flags == f.(ducking := Held(f.ducking, true, action))
    ensures KeyStep(f, KeyLeftShift, action).flags == f.(flying := Held(f.flying, true, action))
    ensures KeyStep(f, KeyE, action).flags == f.(flying := Held(f.flying, true, action))
  {
  }

  /** A movement key changes its own flag and no other. */
  lemma OnlyOwnFlag(f: KeyFlags, action: int)
    ensures KeyStep(f, KeyW, action).flags == f.(forward := Held(f.forward, true, action))
    ensures KeyStep(f, KeyS, action).flags == f.(backward := Held(f.backward, true, action))
    ensures KeyStep(f, KeyD, action).flags == f.(right := Held(f.right, true, action))
    ensures KeyStep(f, KeyA, action).flags == f.(left := Held(f.left, true, action))
  {
  }

  /** Space toggles mouse rotation on a press; two presses restore it. */
  lemma SpaceToggles(f: KeyFlags)
    ensures KeyStep(f, KeySpace, Press).flags == f.(rotating := !f.rotating)
    ensures KeyStep(KeyStep(f, KeySpace, Press).flags, KeySpace, Press).flags == f
  {
  }

  /** With no key held, pressing and releasing any key other than Space
      leaves the flags as they were. */
  lemma PressThenRelease(f: KeyFlags, key: int)
    requires key != KeySpace
    requires !f.flying && !f.ducking && !f.forward && !f.backward && !f.right && !f.left
    ensures KeyStep(KeyStep(f, key, Press).flags, key, Release).flags == f
  {
  }

  // ---------------------------------------------------------------------------
  // The callback

  /** The window's key flags. */
  function FlagsOf(w: GeometryRender): KeyFlags
    reads w`flying, w`ducking, w`movingCameraForward, w`movingCameraBackward,
          w`movingCameraRight, w`movingCameraLeft, w`rotating
  {
    KeyFlags(w.flying, w.ducking, w.movingCameraForward, w.movingCameraBackward,
             w.movingCameraRight, w.movingCameraLeft, w.rotating)
  }

  /** The bridge from GLFW's C callbacks to the window object. */
  class CallbackManager {
    var app: GeometryRender?

    constructor(app: GeometryRender?)
      ensures this.app == app
    {
      this.app := app;
    }

    /** The registered window, if any. */
    ghost function Window(): set<GeometryRender>
      reads this`app
    {
      if app != null then {app} else {}
    }

    /** The registered window's model, if any. */
    ghost function WindowModel(): set<Model>
      reads this`app
    {
      if app != null then {app.model} else {}
    }

    /** The registered window's upload log, if any. */
    ghost function WindowLog(): set<Log>
      reads this`app
    {
      if app != null then {app.model.log} else {}
    }

    /** key_callback: with a window registered, each key test in turn; without
        one the event is dropped (the frame says nothing else may change). */
    method KeyCallback(key: int, action: int)
      requires app != null && KeyCommand(key, action) == ReloadObject ==>
                 LoadBuilds(app.disk, app.objFilePath, app.objFileName, app.model.objFileName)
      modifies Window()`firstRun, Window()`camera, Window()`modelChanged, Window()`flying, Window()`ducking,
               Window()`movingCameraForward, Window()`movingCameraBackward, Window()`movingCameraRight,
               Window()`movingCameraLeft, Window()`rotating
      modifies WindowModel()`latestObj, WindowModel()`objFilePath, WindowModel()`vertices,
               WindowModel()`indices, WindowModel()`normals, WindowModel()`texCoords, WindowModel()`objFileName,
               WindowModel()`reader, WindowModel()`modelMat, WindowModel()`textureFilePath, WindowLog()
      ensures app != null ==> FlagsOf(app) == KeyStep(old(FlagsOf(app)), key, action).flags
      ensures app != null && KeyCommand(key, action).Apply? ==>
                app.model.modelMat == Transformed(old(app.model.modelMat), KeyCommand(key, action).gesture) &&
                app.modelChanged
      ensures app != null && KeyCommand(key, action) == ReloadObject ==>
                && app.firstRun && app.camera == DefaultCamera
                && app.model.latestObj == old(app.model.objFileName) && app.model.Valid()
                && Loaded(app.disk, old(app.objFilePath), old(app.model.objFileName), app.model.textureFileName,
                          app.sphereMap,
                          LoadState(old(app.objFileName), EmptyMesh, old(app.model.modelMat),
                                    old(app.model.textureFilePath), old(app.model.log.events)),
                          app.model.LoadView())
      ensures app != null && KeyCommand(key, action) == NoCommand ==>
                unchanged(app.model) && unchanged(app.model.log) &&
                app.modelChanged == old(app.modelChanged) && app.firstRun == old(app.firstRun) &&
                app.camera == old(app.camera)
      ensures app != null && KeyCommand(key, action) != ReloadObject ==>
                unchanged(app`firstRun, app`camera, app.model`latestObj, app.model`objFilePath, app.model`vertices,
                          app.model`indices, app.model`normals, app.model`texCoords, app.model`objFileName,
                          app.model`reader, app.model`textureFilePath, app.model.log)
    {
      if app != null {
        var r := app;
        ghost var before := FlagsOf(r);
        ModelKeys(r, key, action);
        HeldKeys(r, key, action);
        FlagsStep(before, key, action, FlagsOf(r));
      }
    }
  }

  /** The arrow, I/J/K/L and O tests of key_callback. */
  method ModelKeys(r: GeometryRender, key: int, action: int)
    requires KeyCommand(key, action) == ReloadObject ==>
               LoadBuilds(r.disk, r.objFilePath, r.objFileName, r.model.objFileName)
    modifies r`firstRun, r`camera, r`modelChanged, r.model`latestObj, r.model`objFilePath,
             r.model`vertices, r.model`indices, r.model`normals, r.model`texCoords, r.model`objFileName,
             r.model`reader, r.model`modelMat, r.model`textureFilePath, r.model.log
    ensures KeyCommand(key, action).Apply? ==>
              r.model.modelMat == Transformed(old(r.model.modelMat), KeyCommand(key, action).gesture) &&
              r.modelChanged
    ensures KeyCommand(key, action) == ReloadObject ==>
              && r.firstRun && r.camera == DefaultCamera
              && r.model.latestObj == old(r.model.objFileName) && r.model.Valid()
              && Loaded(r.disk, r.objFilePath, old(r.model.objFileName), r.model.textureFileName, r.sphereMap,
                        LoadState(r.objFileName, EmptyMesh, old(r.model.modelMat), old(r.model.textureFilePath),
                                  old(r.model.log.events)),
                        r.model.LoadView())
    ensures KeyCommand(key, action) == NoCommand ==>
              unchanged(r, r.model, r.model.log)
    ensures KeyCommand(key, action) != ReloadObject ==>
              unchanged(r`firstRun, r`camera, r.model`latestObj, r.model`objFilePath, r.model`vertices,
                        r.model`indices, r.model`normals, r.model`texCoords, r.model`objFileName,
                        r.model`reader, r.model`textureFilePath, r.model.log)
  {
    GestureKeys(r, key, action);
    if key == KeyO && action == Press {
      r.ChangeObject();
    }
  }

  /** The arrow and I/K/J/L tests of key_callback. */
  method GestureKeys(r: GeometryRender, key: int, action: int)
    modifies r.model`modelMat, r`modelChanged
    ensures KeyCommand(key, action).Apply? ==>
              r.model.modelMat == Transformed(old(r.model.modelMat), KeyCommand(key, action).gesture) &&
              r.modelChanged
    ensures !KeyCommand(key, action).Apply? ==> unchanged(r.model`modelMat, r`modelChanged)
  {
    RotateKeys(r, key, action);
    TranslateKeys(r, key, action);
  }

  /** The arrow-key tests: each arrow rotates the model on a press or repeat. */
  method RotateKeys(r: GeometryRender, key: int, action: int)
    modifies r.model`modelMat, r`modelChanged
    ensures key == KeyUp && Acts(action) ==>
              r.model.modelMat == Transformed(old(r.model.modelMat), RotateUp) && r.modelChanged
    ensures key == KeyDown && Acts(action) ==>
              r.model.modelMat == Transformed(old(r.model.modelMat), RotateDown) && r.modelChanged
    ensures key == KeyRight && Acts(action) ==>
              r.model.modelMat == Transformed(old(r.model.modelMat), RotateRight) && r.modelChanged
    ensures key == KeyLeft && Acts(action) ==>
              r.model.modelMat == Transformed(old(r.model.modelMat), RotateLeft) && r.modelChanged
    ensures !((key == KeyUp || key == KeyDown || key == KeyRight || key == KeyLeft) && Acts(action)) ==>
              unchanged(r.model`modelMat, r`modelChanged)
  {
    if key == KeyUp && (action == Press || action == Repeat) {
      r.RotateUp();
    }
    if key == KeyDown && (action == Press || action == Repeat) {
      r.RotateDown();
    }
    if key == KeyRight && (action == Press || action == Repeat) {
      r.RotateRight();
    }
    if key == KeyLeft && (action == Press || action == Repeat) {
      r.RotateLeft();
    }
  }

  /** The I/K/J/L tests: each moves the model on a press or repeat. */
  method TranslateKeys(r: GeometryRender, key: int, action: int)
    modifies r.model`modelMat, r`modelChanged
    ensures key == KeyI && Acts(action) ==>
              r.model.modelMat == Transformed(old(r.model.modelMat), TranslateUp) && r.modelChanged
    ensures key == KeyK && Acts(action) ==>
              r.model.modelMat == Transformed(old(r.model.modelMat), TranslateDown) && r.modelChanged
    ensures key == KeyJ && Acts(action) ==>
              r.model.modelMat == Transformed(old(r.model.modelMat), TranslateLeft) && r.modelChanged
    ensures key == KeyL && Acts(action) ==>
              r.model.modelMat == Transformed(old(r.model.modelMat), TranslateRight) && r.modelChanged
    ensures !((key == KeyI || key == KeyK || key == KeyJ || key == KeyL) && Acts(action)) ==>
              unchanged(r.model`modelMat, r`modelChanged)
  {
    if key == KeyI && (action == Press || action == Repeat) {
      r.TranslateUp();
    }
    if key == KeyK && (action == Press || action == Repeat) {
      r.TranslateDown();
    }
    if key == KeyJ && (action == Press || action == Repeat) {
      r.TranslateLeft();
    }
    if key == KeyL && (action == Press || action == Repeat) {
      r.TranslateRight();
    }
  }

  /** The held-key and Space tests of key_callback. */
  method HeldKeys(r: GeometryRender, key: int, action: int)
    modifies r`flying, r`ducking, r`movingCameraForward, r`movingCameraBackward,
             r`movingCameraRight, r`movingCameraLeft, r`rotating
    ensures r.ducking == Held(old(r.ducking), key == KeyLeftControl || key == KeyQ, action)
    ensures r.flying == Held(old(r.flying), key == KeyLeftShift || key == KeyE, action)
    ensures r.movingCameraRight == Held(old(r.movingCameraRight), key == KeyD, action)
    ensures r.movingCameraLeft == Held(old(r.movingCameraLeft), key == KeyA, action)
    ensures r.movingCameraBackward == Held(old(r.movingCameraBackward), key == KeyS, action)
    ensures r.movingCameraForward == Held(old(r.movingCameraForward), key == KeyW, action)
    ensures r.rotating == if key == KeySpace && action == Press then !old(r.rotating) else old(r.rotating)
    ensures unchanged(r.model, r.model.log) && r.firstRun == old(r.firstRun) && r.camera == old(r.camera)
  {
    ModifierKeys(r, key, action);
    SideKeys(r, key, action);
    LengthKeys(r, key, action);
    if key == KeySpace && action == Press {
      r.rotating := !r.rotating;
    }
  }

  /** Flags that changed as each held key and Space dictate are KeyStep's flags. */
  lemma FlagsStep(f: KeyFlags, key: int, action: int, g: KeyFlags)
    requires g.ducking == Held(f.ducking, key == KeyLeftControl || key == KeyQ, action)
    requires g.flying == Held(f.flying, key == KeyLeftShift || key == KeyE, action)
    requires g.right == Held(f.right, key == KeyD, action)
    requires g.left == Held(f.left, key == KeyA, action)
    requires g.backward == Held(f.backward, key == KeyS, action)
    requires g.forward == Held(f.forward, key == KeyW, action)
    requires g.rotating == if key == KeySpace && action == Press then !f.rotating else f.rotating
    ensures g == KeyStep(f, key, action).flags
  {
  }

  /** Left Control or Q holds ducking, left Shift or E holds flying. */
  method ModifierKeys(r: GeometryRender, key: int, action: int)
    modifies r`ducking, r`flying
    ensures r.ducking == Held(old(r.ducking), key == KeyLeftControl || key == KeyQ, action)
    ensures r.flying == Held(old(r.flying), key == KeyLeftShift || key == KeyE, action)
  {
    if (key == KeyLeftControl || key == KeyQ) && action == Press {
      r.ducking := true;
    }
    if (key == KeyLeftControl || key == KeyQ) && action == Release {
      r.ducking := false;
    }
    if (key == KeyLeftShift || key == KeyE) && action == Press {
      r.flying := true;
    }
    if (key == KeyLeftShift || key == KeyE) && action == Release {
      r.flying := false;
    }
  }

  /** D and A hold the sideways movements. */
  method SideKeys(r: GeometryRender, key: int, action: int)
    modifies r`movingCameraRight, r`movingCameraLeft
    ensures r.movingCameraRight == Held(old(r.movingCameraRight), key == KeyD, action)
    ensures r.movingCameraLeft == Held(old(r.movingCameraLeft), key == KeyA, action)
  {
    if key == KeyD && action == Press {
      r.movingCameraRight := true;
    }
    if key == KeyD && action == Release {
      r.movingCameraRight := false;
    }
    if key == KeyA && action == Press {
      r.movingCameraLeft := true;
    }
    if key == KeyA && action == Release {
      r.movingCameraLeft := false;
    }
  }

  /** S and W hold the backward and forward movements. */
  method LengthKeys(r: GeometryRender, key: int, action: int)
    modifies r`movingCameraBackward, r`movingCameraForward
    ensures r.movingCameraBackward == Held(old(r.movingCameraBackward), key == KeyS, action)
    ensures r.movingCameraForward == Held(old(r.movingCameraForward), key == KeyW, action)
  {
    if key == KeyS && action == Press {
      r.movingCameraBackward := true;
    }
    if key == KeyS && action == Release {
      r.movingCameraBackward := false;
    }
    if key == KeyW && action == Press {
      r.movingCameraForward := true;
    }
    if key == KeyW && action == Release {
      r.movingCameraForward := false;
    }
  }
}
