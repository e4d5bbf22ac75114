/** The camera and light records that the renderer compares, copies and uploads.
    Their matrix computations (look-at, perspective, orthographic with oblique
    shear) are not part of this model; only the parameters are. */
module Scenery {
  import opened Vectors

  /** Camera state: view parameters and the scalar projection parameters. Angles
      are in degrees except obliqueAngleRad. */
  datatype Camera = Camera(
    eye: Vec3, center: Vec3, up: Vec3,
    pitch: real, yaw: real,
    fov: real, farplane: real, top: real,
    obliqueScale: real, obliqueAngleRad: real)

  /** glm::radians(45.0f), written as a decimal. */
  const QuarterTurnRad: real := 0.7853981633974483

  /** The values Camera::init assigns. */
  const DefaultCamera: Camera := Camera(
    Vec3(0.0, 0.0, 2.0), Vec3(0.0, 0.0, 1.0), Vec3(0.0, 1.0, 0.0),
    0.0, -90.0,
    60.0, 500.0, 1.0,
    0.0, QuarterTurnRad)

  /** Camera::init stands the camera two units out on +z, looking one unit
      towards the origin, with +y up and square to the line of sight; yaw -90
      and pitch 0 are the angles of that same direction; a 60 degree field of
      view, far plane 500 and top 1; oblique scale 0 and angle 45 degrees. */
  lemma DefaultCameraFacesModel()
    ensures var c := DefaultCamera;
      && Sub(c.center, c.eye) == Vec3(0.0, 0.0, -1.0) && c.eye == Vec3(0.0, 0.0, 2.0)
      && Dot(c.up, Sub(c.center, c.eye)) == 0.0 && c.up == Vec3(0.0, 1.0, 0.0)
      && c.yaw == -90.0 && c.pitch == 0.0
      && c.fov == 60.0 && c.farplane == 500.0 && c.top == 1.0
      && c.obliqueScale == 0.0 && 0.785 < c.obliqueAngleRad < 0.786
  {
  }

  /** Light state: position, colour and ambient colour. */
  datatype Scene = Scene(lightPos: Vec3, lightColor: Vec3, ambientColor: Vec3)

  /** The values the Scene constructor assigns. */
  const DefaultScene: Scene := Scene(Vec3(10.0, 10.0, 10.0), Vec3(1.0, 1.0, 1.0), Vec3(0.2, 0.2, 0.2))

  /** The Scene constructor puts a white light on the diagonal, ten units out on
      every axis, over a dim grey ambient term of 0.2. */
  lemma DefaultSceneLight()
    ensures var s := DefaultScene;
      && s.lightPos.x == s.lightPos.y == s.lightPos.z == 10.0
      && s.lightColor == Vec3(1.0, 1.0, 1.0)
      && s.ambientColor.x == s.ambientColor.y == s.ambientColor.z == 0.2
  {
  }
}
