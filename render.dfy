/** GeometryRender (geometryrender.cpp): the window's editable copies of the
    object, material, light and projection settings, the camera and lights it
    owns, the loaded model, and the three flags that decide what display
    uploads. Each method is proved against the pure functions of RenderSpec. */
module Render {
  import opened Vectors
  import opened Scenery
  import opened Effects
  import opened MeshSpec
  import opened Mesh
  import opened RenderSpec

  class GeometryRender {
    var firstRun: bool
    var viewChanged: bool
    var modelChanged: bool
    const model: Model
    var camera: Camera
    var world: Scene

    // The window's copies, edited through the GUI.
    var objFileName: string
    var objFilePath: string
    var textureFileName: string
    var textureFilePath: string
    var fov: real
    var farplane: real
    var top: real
    var obliqueScale: real
    var obliqueAngleRad: real
    var lightPos: Vec3
    var lightColor: Vec3
    var ambientColor: Vec3
    var materialAmbient: Vec3
    var materialDiffuse: Vec3
    var materialSpecular: Vec3
    var materialShininess: real
    var projMode: int

    // Smooth-movement flags, set and cleared by the keyboard.
    var flying: bool
    var ducking: bool
    var movingCameraForward: bool
    var movingCameraBackward: bool
    var movingCameraRight: bool
    var movingCameraLeft: bool
    var rotating: bool

    // What lies outside the model: the OBJ files on disk with their parse
    // results, the sphere texture mapping, glm::normalize, and the normalised
    // viewing direction for a yaw and a pitch.
    const disk: map<string, ObjData>
    const sphereMap: Vec3 -> Vec2
    const normalize: Vec3 -> Vec3
    const front: (real, real) -> Vec3

    function WindowMaterial(): Material
      reads this`materialAmbient, this`materialDiffuse, this`materialSpecular, this`materialShininess
    {
      Material(materialAmbient, materialDiffuse, materialSpecular, materialShininess)
    }

    function ObjectMaterial(): Material
      reads model`materialAmbient, model`materialDiffuse, model`materialSpecular, model`materialShininess
    {
      Material(model.materialAmbient, model.materialDiffuse, model.materialSpecular, model.materialShininess)
    }

    function WindowProjection(): Projection
      reads this`fov, this`farplane, this`top, this`obliqueAngleRad, this`obliqueScale
    {
      Projection(fov, farplane, top, obliqueAngleRad, obliqueScale)
    }

    /** Everything one call of display reads or writes. */
    ghost function Frame(): Frame
      reads this`firstRun, this`viewChanged, this`modelChanged, this`camera, this`world, this`projMode,
            this`fov, this`farplane, this`top, this`obliqueAngleRad, this`obliqueScale,
            this`materialAmbient, this`materialDiffuse, this`materialSpecular, this`materialShininess,
            model`materialAmbient, model`materialDiffuse, model`materialSpecular, model`materialShininess,
            model`objFileName, model`textureShow, model`textureFileName, model`modelMat, model`indices
    {
      RenderSpec.Frame(firstRun, viewChanged, modelChanged, camera, world, projMode, WindowProjection(),
                       WindowMaterial(), ObjectMaterial(), model.objFileName, model.textureShow,
                       model.textureFileName, model.modelMat, model.GetIndices())
    }

    /** The OpenGLWindow constructor with the renderer's members: oblique
        scale 1 and angle 45, perspective mode, a default camera, scene and
        model, and the movement flags that start clears before the first
        frame. */
    constructor(disk: map<string, ObjData>, sphereMap: Vec3 -> Vec2, normalize: Vec3 -> Vec3,
                front: (real, real) -> Vec3)
      ensures this.disk == disk && this.sphereMap == sphereMap && this.normalize == normalize && this.front == front
      ensures obliqueScale == 1.0 && obliqueAngleRad == 45.0 && projMode == 0
      ensures !flying && !ducking && !movingCameraForward && !movingCameraBackward
      ensures !movingCameraRight && !movingCameraLeft && !rotating
      ensures fresh(model) && fresh(model.log) && model.log.events == []
    {
      this.disk := disk;
      this.sphereMap := sphereMap;
      this.normalize := normalize;
      this.front := front;
      obliqueScale, obliqueAngleRad, projMode := 1.0, 45.0, 0;
      flying, ducking, rotating := false, false, false;
      movingCameraForward, movingCameraBackward, movingCameraRight, movingCameraLeft := false, false, false, false;
      firstRun, viewChanged, modelChanged := false, false, false;
      objFileName, objFilePath, textureFileName, textureFilePath := "", "", "", "";
      camera, world := DefaultCamera, DefaultScene;
      fov, farplane, top := 0.0, 0.0, 0.0;
      lightPos, lightColor, ambientColor := Zero, Zero, Zero;
      materialAmbient, materialDiffuse, materialSpecular, materialShininess := Zero, Zero, Zero, 0.0;
      var log := new Log();
      model := new Model(log);
    }

    /** initialize: set the flags for a first run, take a fresh camera and
        copy its projection parameters, upload the projection, take fresh
        lights and a fresh model and copy their settings, and load the
        default object. */
    method Initialize()
      requires Builds(Parse(disk, ObjectPath("OBJs/", "sphere_large.obj")))
      modifies this`firstRun, this`viewChanged, this`modelChanged, this`camera, this`world,
               this`fov, this`farplane, this`top, this`obliqueAngleRad, this`obliqueScale,
               this`lightPos, this`lightColor, this`ambientColor,
               this`objFileName, this`textureFileName, this`materialAmbient, this`materialDiffuse,
               this`materialSpecular, this`materialShininess,
               model`objFileName, model`objFilePath, model`latestObj, model`modelMat, model`textureFileName,
               model`textureFilePath, model`textureShow, model`materialAmbient, model`materialDiffuse,
               model`materialSpecular, model`materialShininess, model`vertices, model`normals, model`indices,
               model`texCoords, model`reader, model.log
      ensures Setup() == InitialView
      ensures WindowMaterial() == ObjectMaterial() == DefaultMaterial
      ensures objFileName == "sphere_large.obj" && textureFileName == "erf.jpg"
      ensures model.textureFileName == "erf.jpg" && !model.textureShow
      ensures model.Valid() && model.objFilePath == "OBJs/" && model.latestObj == "sphere_large.obj"
      ensures Loaded(disk, "OBJs/", "sphere_large.obj", "erf.jpg", sphereMap,
                     LoadState("sphere_large.obj", EmptyMesh, Identity, "",
                               old(model.log.events) + [SentProj(DefaultCamera, projMode)]),
                     model.LoadView())
    {
      SetUpView();
      LoadDefaultObject();
    }

    /** The part of the renderer initialize sets up before it loads the model. */
    function Setup(): ViewSetup
      reads this`firstRun, this`viewChanged, this`modelChanged, this`camera, this`world,
            this`fov, this`farplane, this`top, this`obliqueAngleRad, this`obliqueScale,
            this`lightPos, this`lightColor, this`ambientColor
    {
      ViewSetup(firstRun, viewChanged, modelChanged, camera, WindowProjection(), world,
                Scene(lightPos, lightColor, ambientColor))
    }

    /** The first half of initialize: the camera and the lights. */
    method SetUpView()
      modifies this`firstRun, this`viewChanged, this`modelChanged, this`camera, this`world,
               this`fov, this`farplane, this`top, this`obliqueAngleRad, this`obliqueScale,
               this`lightPos, this`lightColor, this`ambientColor, model.log
      ensures Setup() == InitialView
      ensures model.log.events == old(model.log.events) + [SentProj(DefaultCamera, projMode)]
    {
      SetUpCamera();
      SetUpLights();
    }

    /** The end of initialize: a fresh model whose settings the window copies,
        then the load of its default object. */
    method LoadDefaultObject()
      requires Builds(Parse(disk, ObjectPath("OBJs/", "sphere_large.obj")))
      modifies this`objFileName, this`textureFileName, this`materialAmbient, this`materialDiffuse,
               this`materialSpecular, this`materialShininess,
               model`objFileName, model`objFilePath, model`latestObj, model`modelMat, model`textureFileName,
               model`textureFilePath, model`textureShow, model`materialAmbient, model`materialDiffuse,
               model`materialSpecular, model`materialShininess, model`vertices, model`normals, model`indices,
               model`texCoords, model`reader, model.log
      ensures Setup() == old(Setup())
      ensures WindowMaterial() == ObjectMaterial() == DefaultMaterial
      ensures objFileName == "sphere_large.obj" && textureFileName == "erf.jpg"
      ensures model.textureFileName == "erf.jpg" && !model.textureShow
      ensures model.Valid() && model.objFilePath == "OBJs/" && model.latestObj == "sphere_large.obj"
      ensures Loaded(disk, "OBJs/", "sphere_large.obj", "erf.jpg", sphereMap,
                     LoadState("sphere_large.obj", EmptyMesh, Identity, "", old(model.log.events)),
                     model.LoadView())
    {
      model.Reset();
      CopyObjectSettings();
      model.LoadGeometry(disk, sphereMap);
    }

    /** The start of initialize: first-run flags, the default camera with its
        projection parameters copied, and the projection upload. */
    method SetUpCamera()
      modifies this`firstRun, this`viewChanged, this`modelChanged, this`camera,
               this`fov, this`farplane, this`top, this`obliqueAngleRad, this`obliqueScale, model.log
      ensures firstRun && !viewChanged && !modelChanged
      ensures camera == DefaultCamera && WindowProjection() == ProjectionOf(DefaultCamera)
      ensures model.log.events == old(model.log.events) + [SentProj(DefaultCamera, projMode)]
    {
      var c := DefaultCamera;
      firstRun, viewChanged, modelChanged := true, false, false;
      camera := c;
      fov, farplane, top, obliqueAngleRad, obliqueScale := c.fov, c.farplane, c.top, c.obliqueAngleRad, c.obliqueScale;
      model.log.events := model.log.events + [SentProj(c, projMode)];
    }

    /** The default lights of initialize, copied into the window's fields. */
    method SetUpLights()
      modifies this`world, this`lightPos, this`lightColor, this`ambientColor
      ensures world == DefaultScene && !LightIsChanged()
    {
      world := DefaultScene;
      lightPos, lightColor, ambientColor := world.lightPos, world.lightColor, world.ambientColor;
    }

    /** The copies initialize makes of the fresh model's file names and
        material, before it loads the object. */
    method CopyObjectSettings()
      modifies this`objFileName, this`textureFileName,
               this`materialAmbient, this`materialDiffuse, this`materialSpecular, this`materialShininess
      ensures objFileName == model.objFileName && textureFileName == model.textureFileName
      ensures WindowMaterial() == ObjectMaterial() && Setup() == old(Setup())
    {
      ghost var view := Setup();
      objFileName, textureFileName := model.objFileName, model.textureFileName;
      materialDiffuse, materialSpecular := model.materialDiffuse, model.materialSpecular;
      materialAmbient, materialShininess := model.materialAmbient, model.materialShininess;
      assert Setup() == view;
    }

    /** handleMaterial: copy every material parameter the window changed into
        the model, and upload model and material when any differed. */
    method HandleMaterial() returns (updateModel: bool)
      modifies model`materialAmbient, model`materialDiffuse, model`materialSpecular, model`materialShininess,
               model.log
      ensures updateModel <==> old(ObjectMaterial()) != WindowMaterial()
      ensures ObjectMaterial() == WindowMaterial()
      ensures model.log.events == old(model.log.events) + if updateModel then [SentModel(true)] else []
    {
      updateModel := false;
      if model.materialDiffuse != materialDiffuse {
        updateModel := true;
        model.materialDiffuse := materialDiffuse;
      }
      if model.materialAmbient != materialAmbient {
        updateModel := true;
        model.materialAmbient := materialAmbient;
      }
      if model.materialSpecular != materialSpecular {
        updateModel := true;
        model.materialSpecular := materialSpecular;
      }
      if model.materialShininess != materialShininess {
        updateModel := true;
        model.materialShininess := materialShininess;
      }
      if updateModel {
        model.SendModel(true);
      }
    }

    /** lightIsChanged: whether the window's light settings differ from the
        scene's. */
    function LightIsChanged(): (r: bool)
      reads this`lightPos, this`lightColor, this`ambientColor, this`world
      ensures r <==> Scene(lightPos, lightColor, ambientColor) != world
    {
      lightColor != world.lightColor || lightPos != world.lightPos || ambientColor != world.ambientColor
    }

    /** handleProjection: copy every projection parameter the window changed
        into the camera, and upload the projection when any differed. */
    method HandleProjection()
      modifies this`camera, model.log
      ensures camera == WithProjection(old(camera), WindowProjection())
      ensures model.log.events == old(model.log.events) +
        if ProjectionOf(old(camera)) != WindowProjection() then [SentProj(camera, projMode)] else []
    {
      var updateCamera := false;
      if camera.fov != fov {
        camera := camera.(fov := fov);
        updateCamera := true;
      }
      if camera.farplane != farplane {
        camera := camera.(farplane := farplane);
        updateCamera := true;
      }
      if camera.top != top {
        camera := camera.(top := top);
        updateCamera := true;
      }
      if camera.obliqueAngleRad != obliqueAngleRad {
        camera := camera.(obliqueAngleRad := obliqueAngleRad);
        updateCamera := true;
      }
      if camera.obliqueScale != obliqueScale {
        camera := camera.(obliqueScale := obliqueScale);
        updateCamera := true;
      }
      if updateCamera {
        model.log.events := model.log.events + [SentProj(camera, projMode)];
      }
    }

    /** display: the globe's spin and the first-run uploads, then the model
        upload, then the texture switch, view, projection and draw. */
    method Display()
      modifies this`firstRun, this`viewChanged, this`modelChanged, this`camera,
               model`materialAmbient, model`materialDiffuse, model`materialSpecular, model`materialShininess,
               model`modelMat, model.log
      ensures Frame() == AfterDisplay(old(Frame()))
      ensures model.log.events == old(model.log.events) + DisplayEvents(old(Frame()))
    {
      ghost var f, events := Frame(), model.log.events;
      OpenFrame();
      ghost var moved := model.modelMat;
      SyncModel();
      assert model.modelMat == moved;
      CloseFrame();
      AppendDisplay(events, f);
      assert model.modelMat == moved;
    }

    /** The start of display: spin the shown globe, and on the first run
        upload projection, view, lights and model with material. */
    method OpenFrame()
      modifies this`firstRun, this`modelChanged, model`modelMat, model.log
      ensures !firstRun && modelChanged == ModelMoved(old(Frame()))
      ensures model.modelMat == AfterDisplay(old(Frame())).modelMat
      ensures model.log.events == old(model.log.events) + OpeningEvents(old(Frame()))
    {
      if model.objFileName == "sphere_large.obj" && model.textureShow && model.textureFileName == "erf.jpg" {
        RotateEarth();
      }
      if firstRun {
        firstRun := false;
        model.log.events := model.log.events + [SentProj(camera, projMode), SentView(camera), SentScene(world)];
        model.SendModel(true);
      }
    }

    /** The middle of display: sync the material, and upload the model alone
        when it changed and the material upload did not already carry it. */
    method SyncModel()
      modifies this`modelChanged, model`materialAmbient, model`materialDiffuse, model`materialSpecular,
               model`materialShininess, model.log
      ensures !modelChanged && ObjectMaterial() == WindowMaterial()
      ensures model.log.events == old(model.log.events) +
        if old(ObjectMaterial()) != WindowMaterial() then [SentModel(true)]
        else if old(modelChanged) then [SentModel(false)] else []
    {
      var hasSentMaterial := HandleMaterial();
      if modelChanged {
        modelChanged := false;
        if !hasSentMaterial {
          model.SendModel(false);
        }
      }
    }

    /** The end of display: the texture switch, the view when it changed, the
        projection sync and the draw call. */
    method CloseFrame()
      modifies this`viewChanged, this`camera, model.log
      ensures !viewChanged && camera == AfterDisplay(old(Frame())).camera
      ensures model.log.events == old(model.log.events) + ClosingEvents(old(Frame()))
    {
      ghost var f := Frame();
      ghost var events := model.log.events;
      model.log.events := model.log.events + [SetUseTexture(model.textureShow)];
      if viewChanged {
        model.log.events := model.log.events + [SentView(camera)];
        viewChanged := false;
      }
      ghost var viewed := model.log.events;
      HandleProjection();
      model.log.events := model.log.events + [Drew(model.GetIndices())];
      AppendClosing(events, f);
    }

    /** translateUp, translateDown, translateRight, translateLeft, rotateUp,
        rotateDown, rotateRight, rotateLeft: post-multiply the model matrix and
        mark the model as changed for the next frame. */
    method TranslateUp()
      modifies model`modelMat, this`modelChanged
      ensures model.modelMat == Transformed(old(model.modelMat), Gesture.TranslateUp) && modelChanged
    {
      model.modelMat := Translated(model.modelMat, Vec3(0.0, 0.5, 0.0));
      modelChanged := true;
    }

    method TranslateDown()
      modifies model`modelMat, this`modelChanged
      ensures model.modelMat == Transformed(old(model.modelMat), Gesture.TranslateDown) && modelChanged
    {
      model.modelMat := Translated(model.modelMat, Vec3(0.0, -0.5, 0.0));
      modelChanged := true;
    }

    method TranslateRight()
      modifies model`modelMat, this`modelChanged
      ensures model.modelMat == Transformed(old(model.modelMat), Gesture.TranslateRight) && modelChanged
    {
      model.modelMat := Translated(model.modelMat, Vec3(0.5, 0.0, 0.0));
      modelChanged := true;
    }

    method TranslateLeft()
      modifies model`modelMat, this`modelChanged
      ensures model.modelMat == Transformed(old(model.modelMat), Gesture.TranslateLeft) && modelChanged
    {
      model.modelMat := Translated(model.modelMat, Vec3(-0.5, 0.0, 0.0));
      modelChanged := true;
    }

    method RotateUp()
      modifies model`modelMat, this`modelChanged
      ensures model.modelMat == Transformed(old(model.modelMat), Gesture.RotateUp) && modelChanged
    {
      model.modelMat := Rotated(model.modelMat, 10.0, Vec3(1.0, 0.0, 0.0));
      modelChanged := true;
    }

    method RotateDown()
      modifies model`modelMat, this`modelChanged
      ensures model.modelMat == Transformed(old(model.modelMat), Gesture.RotateDown) && modelChanged
    {
      model.modelMat := Rotated(model.modelMat, 10.0, Vec3(-1.0, 0.0, 0.0));
      modelChanged := true;
    }

    method RotateRight()
      modifies model`modelMat, this`modelChanged
      ensures model.modelMat == Transformed(old(model.modelMat), Gesture.RotateRight) && modelChanged
    {
      model.modelMat := Rotated(model.modelMat, 10.0, Vec3(0.0, -1.0, 0.0));
      modelChanged := true;
    }

    method RotateLeft()
      modifies model`modelMat, this`modelChanged
      ensures model.modelMat == Transformed(old(model.modelMat), Gesture.RotateLeft) && modelChanged
    {
      model.modelMat := Rotated(model.modelMat, 10.0, Vec3(0.0, 1.0, 0.0));
      modelChanged := true;
    }

    /** rotateEarth: the per-frame spin of the globe. */
    method RotateEarth()
      modifies model`modelMat, this`modelChanged
      ensures model.modelMat == Transformed(old(model.modelMat), Gesture.RotateEarth) && modelChanged
    {
      model.modelMat := Rotated(model.modelMat, 0.4, Vec3(0.0, 1.0, 0.0));
      modelChanged := true;
    }

    /** moveCameraDown, moveCameraUp, moveCameraRight, moveCameraLeft,
        moveCameraForwards, moveCameraBackwards: add one step to eye and center
        and mark the view as changed. */
    method MoveCameraDown()
      modifies this`camera, this`viewChanged
      ensures camera == Shifted(old(camera), Movement(old(camera), MoveDown, normalize)) && viewChanged
    {
      var movement := Scale(camera.up, -MoveCameraUnit);
      camera := camera.(eye := Add(camera.eye, movement), center := Add(camera.center, movement));
      viewChanged := true;
    }

    method MoveCameraUp()
      modifies this`camera, this`viewChanged
      ensures camera == Shifted(old(camera), Movement(old(camera), MoveUp, normalize)) && viewChanged
    {
      var movement := Scale(camera.up, MoveCameraUnit);
      camera := camera.(eye := Add(camera.eye, movement), center := Add(camera.center, movement));
      viewChanged := true;
    }

    method MoveCameraRight()
      modifies this`camera, this`viewChanged
      ensures camera == Shifted(old(camera), Movement(old(camera), MoveRight, normalize)) && viewChanged
    {
      var right := normalize(Cross(Sub(camera.center, camera.eye), camera.up));
      var movement := Scale(right, MoveCameraUnit);
      camera := camera.(eye := Add(camera.eye, movement), center := Add(camera.center, movement));
      viewChanged := true;
    }

    method MoveCameraLeft()
      modifies this`camera, this`viewChanged
      ensures camera == Shifted(old(camera), Movement(old(camera), MoveLeft, normalize)) && viewChanged
    {
      var right := normalize(Cross(Sub(camera.center, camera.eye), camera.up));
      var movement := Scale(Neg(right), MoveCameraUnit);
      camera := camera.(eye := Add(camera.eye, movement), center := Add(camera.center, movement));
      viewChanged := true;
    }

    method MoveCameraForwards()
      modifies this`camera, this`viewChanged
      ensures camera == Shifted(old(camera), Movement(old(camera), MoveForwards, normalize)) && viewChanged
    {
      var forward := normalize(Sub(camera.center, camera.eye));
      var movement := Scale(forward, MoveCameraUnit);
      camera := camera.(eye := Add(camera.eye, movement), center := Add(camera.center, movement));
      viewChanged := true;
    }

    method MoveCameraBackwards()
      modifies this`camera, this`viewChanged
      ensures camera == Shifted(old(camera), Movement(old(camera), MoveBackwards, normalize)) && viewChanged
    {
      var forward := normalize(Sub(camera.center, camera.eye));
      var movement := Scale(Neg(forward), MoveCameraUnit);
      camera := camera.(eye := Add(camera.eye, movement), center := Add(camera.center, movement));
      viewChanged := true;
    }

    /** rotateCameraUp, rotateCameraDown, rotateCameraLeft, rotateCameraRight:
        adjust pitch or yaw by the mouse delta, wrap it with glm::mod into
        [0, 360), re-aim the camera and mark the view as changed. */
    method RotateCameraUp(dy: real)
      modifies this`camera, this`viewChanged
      ensures camera == Turned(old(camera), TurnUp, dy, front) && viewChanged
    {
      camera := camera.(pitch := camera.pitch - dy);
      camera := camera.(pitch := Wrapped(camera.pitch));
      CalculateCameraDirection();
      viewChanged := true;
    }

    method RotateCameraDown(dy: real)
      modifies this`camera, this`viewChanged
      ensures camera == Turned(old(camera), TurnDown, dy, front) && viewChanged
    {
      camera := camera.(pitch := camera.pitch + dy);
      camera := camera.(pitch := Wrapped(camera.pitch));
      CalculateCameraDirection();
      viewChanged := true;
    }

    method RotateCameraLeft(dx: real)
      modifies this`camera, this`viewChanged
      ensures camera == Turned(old(camera), TurnLeft, dx, front) && viewChanged
    {
      camera := camera.(yaw := camera.yaw + dx);
      camera := camera.(yaw := Wrapped(camera.yaw));
      CalculateCameraDirection();
      viewChanged := true;
    }

    method RotateCameraRight(dx: real)
      modifies this`camera, this`viewChanged
      ensures camera == Turned(old(camera), TurnRight, dx, front) && viewChanged
    {
      camera := camera.(yaw := camera.yaw - dx);
      camera := camera.(yaw := Wrapped(camera.yaw));
      CalculateCameraDirection();
      viewChanged := true;
    }

    /** calculateCameraDirection, with the trigonometry and normalisation of
        the front vector given by `front`. */
    method CalculateCameraDirection()
      modifies this`camera, this`viewChanged
      ensures camera == Aimed(old(camera), front(old(camera).yaw, old(camera).pitch)) && viewChanged
    {
      var f := front(camera.yaw, camera.pitch);
      camera := camera.(center := Add(camera.eye, f), up := Cross(Cross(f, Vec3(0.0, 1.0, 0.0)), f));
      viewChanged := true;
    }

    /** changeObject: remember the current object as the fallback, take the
        window's object, reload it, and reset the camera; the next frame runs
        the first-run uploads again. The fallback, looked up in the new
        directory, is read only when the chosen object fails checkOBJ. */
    method ChangeObject()
      requires LoadBuilds(disk, objFilePath, objFileName, model.objFileName)
      modifies this`firstRun, this`camera, model`latestObj, model`objFilePath,
               model`vertices, model`indices, model`normals, model`texCoords, model`objFileName,
               model`reader, model`modelMat, model`textureFilePath, model.log
      ensures firstRun && camera == DefaultCamera
      ensures model.latestObj == old(model.objFileName) && model.objFilePath == objFilePath
      ensures model.Valid()
      ensures Loaded(disk, objFilePath, old(model.objFileName), model.textureFileName, sphereMap,
                     LoadState(objFileName, EmptyMesh, old(model.modelMat), old(model.textureFilePath),
                               old(model.log.events)),
                     model.LoadView())
    {
      firstRun := true;
      ReloadChosen();
      camera := DefaultCamera;
    }

    /** The model half of changeObject: the current object becomes the
        fallback, and the window's directory and object are loaded. */
    method ReloadChosen()
      requires LoadBuilds(disk, objFilePath, objFileName, model.objFileName)
      modifies model`latestObj, model`objFilePath, model`vertices, model`indices, model`normals,
               model`texCoords, model`objFileName, model`reader, model`modelMat, model`textureFilePath, model.log
      ensures model.latestObj == old(model.objFileName) && model.objFilePath == objFilePath
      ensures model.Valid()
      ensures Loaded(disk, objFilePath, old(model.objFileName), model.textureFileName, sphereMap,
                     LoadState(objFileName, EmptyMesh, old(model.modelMat), old(model.textureFilePath),
                               old(model.log.events)),
                     model.LoadView())
    {
      ghost var path, name, latest := objFilePath, objFileName, model.objFileName;
      model.latestObj := model.objFileName;
      model.objFilePath := objFilePath;
      model.objFileName := objFileName;
      assert model.LoadView().(mesh := EmptyMesh)
        == LoadState(objFileName, EmptyMesh, old(model.modelMat), old(model.textureFilePath), old(model.log.events));
      assert model.objFilePath == path && model.objFileName == name && model.latestObj == latest;
      model.ChangeObject(disk, sphereMap);
    }

    /** changeTexture: take the window's texture and reload the object; only
        the texture coordinates are cleared first. */
    method ChangeTexture()
      requires model.Valid() && LoadBuilds(disk, model.objFilePath, model.objFileName, model.latestObj)
      modifies model`textureFileName, model`vertices, model`indices, model`normals, model`texCoords,
               model`objFileName, model`reader, model`modelMat, model`textureFilePath, model.log
      ensures model.textureFileName == textureFileName && model.Valid()
      ensures Loaded(disk, model.objFilePath, model.latestObj, textureFileName, sphereMap,
                     LoadState(old(model.objFileName), old(model.Mesh()).(texCoords := []), old(model.modelMat),
                               textureFilePath, old(model.log.events)),
                     model.LoadView())
    {
      model.textureFilePath := textureFilePath;
      model.textureFileName := textureFileName;
      model.ChangeTextures(disk, sphereMap);
    }
  }
}
