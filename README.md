# 3dstudio viewer core in Dafny

This project models the core of 3dstudio, a small OpenGL viewer for OBJ models,
and proves properties of that model. It covers three parts of the viewer:

- **The loaded model (`Model`).** It parses an OBJ file and builds the vertex list
  and its bounding-box scale. It then builds the index list of the first shape,
  the per-vertex normals and the texture coordinates. When a file has no vertices
  or no shapes, it falls back to the last object that loaded.
- **The renderer (`GeometryRender`).** It holds the window's editable copies of the
  material and projection parameters, the camera and lights, and three flags:
  `firstRun`, `viewChanged` and `modelChanged`. Those flags decide what one call of
  `display` uploads to the GPU. The renderer also covers the model-matrix
  gestures, the camera steps, mouse look, and object and texture changes.
- **The keyboard callback.** It turns GLFW key events into gestures, an object
  reload, and the held-key flags that the frame loop reads.

The modules follow the program's structure:

| module | file | contents |
|---|---|---|
| `Vectors` | vectors.dfy | `glm::vec3`/`vec2` on reals, dot and cross product |
| `Scenery` | scenery.dfy | camera and light records with the values `Camera::init` and `Scene()` assign |
| `Effects` | effects.dfy | the GPU uploads and console reports as a ghost, append-only event log |
| `MeshSpec` | mesh_spec.dfy | reference functions for what `Model.cpp` builds from a parse, with their lemmas |
| `Mesh` | mesh.dfy | class `Model`, whose loops and load sequence are proved against `MeshSpec` |
| `RenderSpec` | render_spec.dfy | one frame, the gestures, camera steps and angle wrapping as pure functions |
| `Render` | render.dfy | class `GeometryRender`, proved against `RenderSpec` |
| `Input` | input.dfy | `key_callback` as the pure transition `KeyStep`, and class `CallbackManager` proved against it |

Several things lie outside the model, and each becomes a parameter:
- The file system is a map from path to the parser's result.
- The sphere texture mapping is the function `sphereMap`.
- `glm::normalize` is the function `normalize`.
- The trigonometry of `calculateCameraDirection` is the function `front`.

Reals stand in for `float`. The model matrix is kept as the sequence of `glm`
calls that built it (`Transform`), not as a matrix.

`Loaded` is the central statement about loading. It relates the model state
before a load to the state after it. A good requested file is built onto the
current mesh, under its own name unless the parser reported an error.
Otherwise, after `checkOBJ`'s complaint, the last object is loaded onto an
emptied mesh. `loadGeometry`, `checkOBJ`, `changeObject`, `changeTextures` and
the renderer's `initialize`, `changeObject`, `changeTexture` and the O key all
state their outcome through it.

Files are read from `ObjectPath(directory, name)`, which puts a '/' between a
directory and a name when the directory lacks one. The source concatenates the
two as they are; see "Findings" below.

## Model

| member | source | states |
|---|---|---|
| Vectors.CrossPerpendicular | Model.cpp:231-233 | the cross product of two edges is square to both of them |
| Scenery.DefaultCameraFacesModel | Camera.cpp:45-59 | the initial camera stands at (0, 0, 2) looking one unit along -z with +y up, square to the line of sight; yaw -90, pitch 0, field of view 60, far plane 500, top 1, oblique scale 0 and angle 45 degrees |
| Scenery.DefaultSceneLight | Scene.cpp:23-36 | the initial light is white and sits ten units out on every axis, over an ambient grey of 0.2 |
| Vectors.CrossDegenerate | Model.cpp:231-233 | the cross product of two edges vanishes when one edge is zero or both are equal, so a face with a repeated corner has no normal |
| MeshSpec.VerticesOf | Model.cpp:161-177 | one vertex per complete coordinate triple: the vertex count is the coordinate count divided by three |
| MeshSpec.Widen | Model.cpp:166-173 | the widened bounds contain the new vertex and the old bounds on every axis |
| MeshSpec.Bounds | Model.cpp:155-177 | no vertices leave the start bounds (lowest float as maximum, largest as minimum); after at least one vertex each minimum is at most its maximum |
| MeshSpec.BoundsAppend | Model.cpp:166-173 | taking one more vertex into the six running bounds widens them by exactly that vertex |
| MeshSpec.RunningStep | Model.cpp:166-173 | on each axis the running maximum (minimum) after a vertex is std::max (std::min) of the previous one and the vertex's coordinate |
| MeshSpec.RunningBounds | Model.cpp:161-177 | every vertex lies between the running minimum and maximum on every axis |
| MeshSpec.VertexStep | Model.cpp:161-177 | one iteration of insertVertices reads an in-range triple, appends it as the next vertex and widens the bounds by it |
| MeshSpec.MaxAttained | Model.cpp:155-173 | over single-precision vertices the running maximum is the coordinate of some vertex (the lowest-float start never survives) |
| MeshSpec.MinAttained | Model.cpp:155-173 | over single-precision vertices the running minimum is the coordinate of some vertex |
| MeshSpec.BoxSize | Model.cpp:179-184 | for a loadable parse the largest side of the box is not zero, so the scale does not divide by zero |
| MeshSpec.BoxScale | Model.cpp:179-186 | the vector (f, f, f) with f = 1 / largest side is the model scale of the parse |
| MeshSpec.ScaleInverts | Model.cpp:183-186 | the scale is the same on all three axes and times the largest side gives 1 |
| MeshSpec.ExtentNonNegative | Model.cpp:179-181 | every side of the box of a non-empty vertex list is non-negative |
| MeshSpec.DegenerateIffAllEqual | Model.cpp:179-184 | the largest side is zero exactly when all vertices coincide |
| MeshSpec.SameCoordinate | Model.cpp:166-173 | when all vertices coincide, running maximum, minimum and the coordinate agree |
| MeshSpec.LoadableScale | Model.cpp:183-184 | a loadable parse has a box whose largest side is not zero |
| MeshSpec.MaxExtentPositive | Model.cpp:179-184 | the largest side of a loadable parse's box is positive |
| MeshSpec.ModelScaleInverts | Model.cpp:155-186 | the model scale of a loadable parse is the same positive factor on all three axes |
| MeshSpec.BoundingScaleInverts | Model.cpp:179-186 | for a box with a positive largest side, the bounding scale is the same positive factor on all three axes and that factor times the largest side is 1 |
| MeshSpec.ScaledIntoUnitBox | Model.cpp:179-186 | after scaling, every vertex lies within one unit of the box's lower corner on every axis |
| MeshSpec.AsUnsigned | Model.cpp:214-221 | the cast lands below 2^32, differs from the index by a multiple of 2^32, and keeps indices that already fit |
| MeshSpec.IndicesOf | Model.cpp:214-221 | three indices per face of the first shape, in face order |
| MeshSpec.IndicesOfAt | Model.cpp:214-221 | index j of the list is vertex index j of the shape cast to a 32-bit unsigned |
| MeshSpec.IndicesJoin | Model.cpp:214-221 | indices appended to an existing list stay in range of the grown vertex list |
| MeshSpec.ShapeIndicesInRange | Model.cpp:214-221 | the indices of a well-formed first shape name parsed vertices |
| MeshSpec.Resize | Model.cpp:226 | the normals are resized to exactly the vertex count |
| MeshSpec.AccumulatedNormals | Model.cpp:224-247 | there is one accumulated normal per vertex |
| MeshSpec.AccumulateFace | Model.cpp:228-240 | adding face f's normal to its three corners extends every vertex's sum from f to f + 1 faces, also for a degenerate face |
| MeshSpec.FaceNormalPerpendicular | Model.cpp:231-233 | a face normal is square to both edges from the face's first corner |
| MeshSpec.DegenerateFace | Model.cpp:231-233 | a face with a repeated corner has a zero face normal |
| MeshSpec.UntouchedVertex | Model.cpp:228-240 | a vertex that no triangle references keeps a zero normal sum |
| MeshSpec.SingleTriangle | Model.cpp:228-240 | with one triangle, its corners get its unnormalised normal and every other vertex gets none |
| MeshSpec.InvertH | Model.cpp:272-274 | the horizontal coordinate is mirrored (old + new = 1) and the vertical one kept |
| MeshSpec.InvertHInvolution | Model.cpp:272-274 | mirroring twice restores the coordinate |
| MeshSpec.RawTexCoord | Model.cpp:362-370 | "sphere_large.obj" and "sphere.obj" get the sphere mapping of the vertex; every other file gets the vertex's x and y |
| MeshSpec.TexCoordsFor | Model.cpp:362-370 | one texture coordinate is generated per vertex |
| MeshSpec.InvertAll | Model.cpp:372-374 | the inversion pass keeps the number of coordinates |
| MeshSpec.LoadedMesh | Model.cpp:329-374 | a load keeps the mesh invariant (index triples naming existing vertices, one normal per vertex) and grows vertices by the triples, indices by three per face, texture coordinates by the vertex count |
| MeshSpec.FreshLoad | Model.cpp:361-374 | loading into an empty mesh makes vertex i the i-th coordinate triple, and for a non-sphere file its texture coordinate (1 - x, y) |
| Mesh.JoinedAsWritten | Model.cpp:123 | the parser's path is the directory followed directly by the file name, with nothing between |
| Mesh.ObjectPathInDirectory | Model.cpp:123 | the path read starts with the directory and ends with the name, and a non-empty directory is separated from the name by '/' |
| Mesh.SeparatedDirectoryAsWritten | Model.cpp:78 | a directory that already ends in '/', such as the default "OBJs/", is joined exactly as the source joins it |
| Mesh.GuiDirectoryAsWritten | openglwindow.cpp:270-271 | with the GUI's "./OBJs" the parser is asked for "./OBJscube.obj", and with the objects stored under "./OBJs/" neither the requested file nor the fallback is found |
| Mesh.EmptyFileOnDisk | Model.cpp:278-286 | a disk may hold an object that parses without error to no vertices: requesting it still meets the load requirement, and takes checkOBJ's first fallback branch to the last object |
| Mesh.RequestedWithoutFallback | Model.cpp:278-297 | a good requested file is loaded although the last object is missing from its directory and another file there could not be built |
| Mesh.GuiDirectorySeparated | openglwindow.cpp:270-271 | with the separator, "./OBJs/cube.obj" and the fallback "./OBJs/sphere_large.obj" are both found on the same disk |
| Mesh.TexturePathAfter | Model.cpp:29-31 | an empty texture directory stays empty; a non-empty one gets one '/' appended |
| Mesh.SourceOf | Model.cpp:278-297 | whenever the requested file or the last object passes checkOBJ, the parse that gets built passes it, is one of the two, and can be scaled when the load builds |
| Mesh.NameAfterLoad | Model.cpp:318-324 | the model ends up naming the requested file or the last object, and the requested one whenever it parsed without error and has vertices and shapes |
| Mesh.ReloadedMesh | Model.cpp:315-332 | whether the requested file or the fallback is built, the mesh invariant holds afterwards |
| Mesh.Complaint | Model.cpp:278-295 | checkOBJ reports missing vertices exactly when no coordinates were read, and missing indices otherwise |
| Mesh.RequestedParts | Model.cpp:315-332 | a good requested file is the one built, under its own name unless the parser reported an error, onto the current mesh |
| Mesh.RequestedLog | Model.cpp:315-429 | loading a good requested file logs no complaint, then the texture, the buffers, the model matrix and a report naming the file unless the parser reported an error |
| Mesh.LoadLogNonEmpty | Model.cpp:335-429 | every load logs at least the texture, the buffers, the model matrix and the report |
| Mesh.LoadOutcome | Model.cpp:315-429 | after any load the mesh invariant holds, the model names the requested file or the last object, the model matrix scales the identity by a positive factor, the texture directory has its separator, and the log has grown |
| Mesh.RequestedLoaded | Model.cpp:315-429 | building a good requested file onto the current mesh, with its uploads and report, is the load outcome |
| Mesh.Fallback | Model.cpp:279-294 | checkOBJ's hand-over: the last object's name, an emptied mesh, the complaint logged, all else kept |
| Mesh.FallbackLoaded | Model.cpp:278-297 | loading the last object after the complaint is the load outcome of the file that was not good |
| Mesh.Model.constructor | Model.cpp:74-98 | default object "sphere_large.obj" under "OBJs/", default material 0.6/0.5/0.5/5, texture "erf.jpg" hidden, no mesh |
| Mesh.Model.Reset | geometryrender.cpp:112 | assigning a fresh Model resets every setting to the defaults and empties the mesh |
| Mesh.Model.ResetFiles | Model.cpp:77-97 | the default file names, texture settings and identity model matrix |
| Mesh.Model.ResetMaterial | Model.cpp:81-93 | the default material |
| Mesh.Model.InsertVertices | Model.cpp:154-187 | every coordinate triple is appended as a vertex, and the returned scale is one over the largest side of the bounding box on every axis |
| Mesh.Model.InsertIndices | Model.cpp:198-222 | the first shape's indices, three per face and cast to unsigned, are appended |
| Mesh.Model.InsertNormals | Model.cpp:224-247 | each vertex's normal is its resized starting value plus the normals of all faces referencing it |
| Mesh.Model.HandleTextures | Model.cpp:25-67 | the directory gets its separator and the image at directory + name is uploaded |
| Mesh.Model.AppendTexCoords | Model.cpp:362-370 | one coordinate per vertex is appended: the sphere mapping for the two sphere assets, else (x, y) |
| Mesh.Model.InvertTexCoords | Model.cpp:372-374 | every coordinate, old and new, is mirrored horizontally |
| Mesh.Model.CheckObj | Model.cpp:278-297 | returns true exactly when the parse has vertices and shapes, and then changes nothing; otherwise the last object is loaded in its place |
| Mesh.Model.LoadGeometry | Model.cpp:315-429 | the model afterwards is the load outcome of its state before, and the mesh invariant holds |
| Mesh.Model.BuildGeometry | Model.cpp:329-332 | vertices and indices are appended, the normals accumulated, and the model matrix is the bounding scale |
| Mesh.Model.BuildMesh | Model.cpp:329-428 | the mesh becomes the loaded mesh, with texture, buffers, model matrix and report uploaded in that order |
| Mesh.Model.ChangeObject | Model.cpp:249-256 | the load outcome of the current file onto an emptied mesh |
| Mesh.Model.ChangeTextures | Model.cpp:258-261 | the load outcome with only the texture coordinates cleared: vertices, indices and normals are appended to |
| Mesh.Model.GetIndices | Model.cpp:431-433 | the index count as a 32-bit unsigned: below 2^32 and equal to the count when the count fits |
| Mesh.Model.SendModel | Model.cpp:435-443 | one model upload, with the material exactly when asked |
| RenderSpec.WithProjection | geometryrender.cpp:250-278 | after the copy the camera's five projection parameters are the window's and its view is untouched |
| RenderSpec.WithOwnProjection | geometryrender.cpp:250-278 | copying the parameters the camera already has changes nothing |
| RenderSpec.Transformed | geometryrender.cpp:362-452 | every gesture post-multiplies the model matrix; exactly the four translate gestures translate |
| RenderSpec.ReverseUndoes | geometryrender.cpp:362-442 | opposite keys apply the negated translation, or the same angle about the negated axis |
| RenderSpec.Shifted | geometryrender.cpp:459-528 | eye and center move by the same vector, so viewing direction, up, angles and projection are kept |
| RenderSpec.StepBack | geometryrender.cpp:459-528 | a camera step followed by the opposite step returns the camera to where it was |
| RenderSpec.Wrapped | geometryrender.cpp:538-588 | glm::mod by 360 lands in [0, 360), keeps angles already there, and differs from the angle by whole turns |
| RenderSpec.WrappedTurns | geometryrender.cpp:538-588 | whole turns do not change the wrapped angle |
| RenderSpec.Aimed | geometryrender.cpp:596-606 | the center is the eye plus the front vector and up is (front x world-up) x front |
| RenderSpec.Turned | geometryrender.cpp:538-588 | pitch turns change only the pitch and yaw turns only the yaw, into [0, 360), and the camera is re-aimed along the new angles |
| RenderSpec.TurnBack | geometryrender.cpp:538-588 | turning up then down (left then right) by the same delta returns to the wrapped pitch (yaw) |
| RenderSpec.ShowsEarth | geometryrender.cpp:298-299 | the globe spins only for "sphere_large.obj" with the texture shown; never for "sphere.obj", and never unless the texture is "erf.jpg" |
| RenderSpec.DisplayEvents | geometryrender.cpp:295-354 | every frame ends with the draw of the model's index count |
| RenderSpec.AfterDisplay | geometryrender.cpp:295-354 | after a frame all three flags are cleared, material and projection agree with the window's, and the globe has turned only when shown |
| RenderSpec.FirstFrameOrder | geometryrender.cpp:304-311 | a first run opens with projection, view, lights and model with material, in that order; other frames never send the lights |
| RenderSpec.ModelUploadsPerFrame | geometryrender.cpp:304-320 | a frame uploads the model once for a first run plus once exactly when the material was edited or the model moved; so a first-run frame in which the model moved uploads it twice, as the code does |
| RenderSpec.FirstRunEditedMaterial | geometryrender.cpp:304-320 | on a first frame with an edited material the first upload goes out while the object still has its old material, and the second one follows the copy of the edit |
| RenderSpec.ModelWithoutMaterial | geometryrender.cpp:313-320 | the model alone is sent exactly when it moved and the material was not edited |
| RenderSpec.ViewAndProjectionSent | geometryrender.cpp:333-338 | outside a first run the view is sent exactly when it changed, and the projection exactly when a parameter differed |
| RenderSpec.SettledFrame | geometryrender.cpp:295-354 | the frame after one that settled everything, without the globe, only sets the texture switch and draws |
| Render.GeometryRender.constructor | openglwindow.cpp:36-37 | oblique scale 1 and angle 45, perspective mode, all movement flags clear, a fresh model with an empty log |
| Render.GeometryRender.Initialize | geometryrender.cpp:46-130 | first run due with no other flag, default camera and lights copied into the window, one projection upload, the fresh model's names and default material copied, its texture "erf.jpg" hidden, "sphere_large.obj" as fallback, and the default object loaded from "OBJs/"; projMode, the movement flags and the window's directories are not written |
| Render.GeometryRender.SetUpView | geometryrender.cpp:50-126 | the flags, camera, projection copies and lights are the initial ones, and the projection is uploaded once |
| Render.GeometryRender.LoadDefaultObject | geometryrender.cpp:112-129 | a fresh model, with texture "erf.jpg" hidden and material 0.6/0.5/0.5/5, whose names and material the window copies, then the load outcome of "sphere_large.obj"; flags, camera, projection parameters and lights are left as they were |
| Render.GeometryRender.SetUpCamera | geometryrender.cpp:50-101 | first run set, other flags clear, default camera whose five projection parameters the window copies, one projection upload |
| Render.GeometryRender.SetUpLights | geometryrender.cpp:108-126 | default lights, and the window's light copies agree with them |
| Render.GeometryRender.CopyObjectSettings | geometryrender.cpp:115-121 | the window's object name, texture name and material equal the model's; flags, camera, projection parameters and lights are left as they were |
| Render.GeometryRender.HandleMaterial | geometryrender.cpp:217-240 | returns true exactly when one of the four material parameters differed; afterwards all four agree; model and material are sent exactly when it returns true |
| Render.GeometryRender.LightIsChanged | geometryrender.cpp:242-248 | true exactly when the window's lights differ from the scene's |
| Render.GeometryRender.HandleProjection | geometryrender.cpp:250-278 | afterwards the camera's five parameters are the window's; the projection is sent exactly when one differed |
| Render.GeometryRender.Display | geometryrender.cpp:295-354 | the state afterwards is AfterDisplay of the frame before, and the uploads are exactly DisplayEvents of it |
| Render.GeometryRender.OpenFrame | geometryrender.cpp:298-311 | the globe turns when shown, firstRun is cleared, and the first-run uploads happen in order |
| Render.GeometryRender.SyncModel | geometryrender.cpp:313-320 | modelChanged is cleared, the material synced, and the model sent alone only when it changed and the material was not sent |
| Render.GeometryRender.CloseFrame | geometryrender.cpp:323-340 | viewChanged is cleared, the view sent exactly when it was set, the projection synced, then the draw |
| Render.GeometryRender.TranslateUp | geometryrender.cpp:362-365 | the model matrix is translated up half a unit and modelChanged is set |
| Render.GeometryRender.TranslateDown | geometryrender.cpp:373-376 | the model matrix is translated down half a unit and modelChanged is set |
| Render.GeometryRender.TranslateRight | geometryrender.cpp:384-387 | the model matrix is translated right half a unit and modelChanged is set |
| Render.GeometryRender.TranslateLeft | geometryrender.cpp:395-398 | the model matrix is translated left half a unit and modelChanged is set |
| Render.GeometryRender.RotateUp | geometryrender.cpp:406-409 | the model matrix is rotated 10 degrees about x and modelChanged is set |
| Render.GeometryRender.RotateDown | geometryrender.cpp:417-420 | the model matrix is rotated 10 degrees about -x and modelChanged is set |
| Render.GeometryRender.RotateRight | geometryrender.cpp:428-431 | the model matrix is rotated 10 degrees about -y and modelChanged is set |
| Render.GeometryRender.RotateLeft | geometryrender.cpp:439-442 | the model matrix is rotated 10 degrees about y and modelChanged is set |
| Render.GeometryRender.RotateEarth | geometryrender.cpp:449-452 | the model matrix is rotated 0.4 degrees about y and modelChanged is set |
| Render.GeometryRender.MoveCameraDown | geometryrender.cpp:459-464 | eye and center move by the same step down the up vector; viewChanged is set |
| Render.GeometryRender.MoveCameraUp | geometryrender.cpp:471-476 | eye and center move by the same step along the up vector; viewChanged is set |
| Render.GeometryRender.MoveCameraRight | geometryrender.cpp:483-489 | eye and center move by the same step along the normalised right vector; viewChanged is set |
| Render.GeometryRender.MoveCameraLeft | geometryrender.cpp:496-502 | eye and center move by the same step against the right vector; viewChanged is set |
| Render.GeometryRender.MoveCameraForwards | geometryrender.cpp:509-515 | eye and center move by the same step along the viewing direction; viewChanged is set |
| Render.GeometryRender.MoveCameraBackwards | geometryrender.cpp:522-528 | eye and center move by the same step against the viewing direction; viewChanged is set |
| Render.GeometryRender.RotateCameraUp | geometryrender.cpp:538-543 | pitch minus dy wrapped into [0, 360), camera re-aimed, viewChanged set |
| Render.GeometryRender.RotateCameraDown | geometryrender.cpp:553-558 | pitch plus dy wrapped into [0, 360), camera re-aimed, viewChanged set |
| Render.GeometryRender.RotateCameraLeft | geometryrender.cpp:568-573 | yaw plus dx wrapped into [0, 360), camera re-aimed, viewChanged set |
| Render.GeometryRender.RotateCameraRight | geometryrender.cpp:583-588 | yaw minus dx wrapped into [0, 360), camera re-aimed, viewChanged set |
| Render.GeometryRender.CalculateCameraDirection | geometryrender.cpp:596-606 | the camera is aimed along the front vector of its yaw and pitch; viewChanged is set |
| Render.GeometryRender.ChangeObject | geometryrender.cpp:142-152 | firstRun set, the camera reset, the previous object kept as fallback, the window's directory taken, and the window's object loaded onto an empty mesh |
| Render.GeometryRender.ReloadChosen | geometryrender.cpp:146-150 | the previous object becomes the fallback, the window's directory is taken, and the window's object is loaded onto an empty mesh |
| Render.GeometryRender.ChangeTexture | geometryrender.cpp:163-168 | the window's texture is taken and the object reloaded with only the texture coordinates cleared |
| Input.Held | glfwcallbackmanager.h:96-134 | a press of one of the flag's keys sets it, a release clears it, and anything else keeps it |
| Input.KeyCommand | glfwcallbackmanager.h:69-94 | a gesture comes only from its own key on a press or repeat and is never the globe's spin; the reload comes exactly from a press of O; a release commands nothing |
| Input.KeyStep | glfwcallbackmanager.h:66-142 | the command is KeyCommand's; a repeat, or a key without a flag, leaves the flags as they were; rotation flips exactly on a press of Space |
| Input.GestureOnPressOrRepeat | glfwcallbackmanager.h:69-91 | a gesture is issued exactly for its own key on a press or a repeat, and the globe's spin never comes from a key |
| Input.ReleaseIssuesNothing | glfwcallbackmanager.h:69-94 | a release issues no gesture and no reload |
| Input.ReloadOnPressOnly | glfwcallbackmanager.h:93-94 | the object is reloaded exactly on a press of O |
| Input.HeldFlags | glfwcallbackmanager.h:96-134 | Ctrl/Q hold ducking, Shift/E flying, W/S/D/A the movements: a press sets the flag and a release clears it |
| Input.RepeatKeepsFlags | glfwcallbackmanager.h:96-140 | a repeat leaves every flag as it was |
| Input.OtherKeysKeepFlags | glfwcallbackmanager.h:96-140 | keys without a flag leave all flags as they were |
| Input.OnlyOwnFlag | glfwcallbackmanager.h:112-134 | a movement key changes its own flag and no other |
| Input.ModifierOnlyOwnFlag | glfwcallbackmanager.h:96-110 | Ctrl and Q change only ducking, Shift and E only flying |
| Input.SpaceToggles | glfwcallbackmanager.h:136-140 | a press of Space toggles rotation, and two presses restore it |
| Input.PressThenRelease | glfwcallbackmanager.h:96-134 | with nothing held, pressing and releasing a key other than Space leaves the flags as they were |
| Input.CallbackManager.constructor | glfwcallbackmanager.h:154-156 | the manager holds the registered window |
| Input.CallbackManager.KeyCallback | glfwcallbackmanager.h:66-142 | with a window, its flags become KeyStep's; a gesture transforms the model matrix and sets modelChanged; O reloads as the renderer's changeObject; every key but O leaves firstRun, the camera, the object, mesh, texture directory and log alone; no key touches viewChanged, the lights or the window's GUI copies; without a window nothing changes |
| Input.ModelKeys | glfwcallbackmanager.h:69-94 | the gesture or reload that KeyCommand names is carried out; without a reload firstRun, the camera, the object, mesh, texture directory and log are kept; nothing changes when it names none |
| Input.GestureKeys | glfwcallbackmanager.h:69-91 | the gesture KeyCommand names is applied, else the model matrix and modelChanged are kept |
| Input.RotateKeys | glfwcallbackmanager.h:69-79 | each arrow key rotates the model on a press or repeat; other events keep it |
| Input.TranslateKeys | glfwcallbackmanager.h:81-91 | each of I/K/J/L translates the model on a press or repeat; other events keep it |
| Input.HeldKeys | glfwcallbackmanager.h:96-140 | each held-key flag follows Held and Space toggles rotation on a press |
| Input.ModifierKeys | glfwcallbackmanager.h:96-110 | Ctrl/Q set ducking on a press and clear it on a release; Shift/E likewise for flying |
| Input.SideKeys | glfwcallbackmanager.h:112-122 | D and A set their movement on a press and clear it on a release |
| Input.LengthKeys | glfwcallbackmanager.h:124-134 | S and W set their movement on a press and clear it on a release |

## Left out

- GPU work (shader programs, vertex arrays, buffers, uniform locations, `glGetError`, `debugShader`) is not modelled. The uploads the core depends on appear as events in the ghost log.
- Parsing is not modelled: tinyobjloader's parse of a path is looked up in a map from path to result, and a missing file parses to nothing with an error. Console messages other than the checkOBJ complaints and the load report are dropped.
- Image loading with stb_image is not modelled: the texture upload is one event naming the image path.
- The sphere texture mapping (`calculateSphereTexCoord`), `glm::normalize` and the cos/sin front vector are not modelled. They are function parameters, because their trigonometry is floating point.
- Rounding is not modelled: reals stand in for `float`. Coordinates are bounded by the largest float so that the lowest-float start of the bounding box behaves as in the source.
- The camera's view and projection matrices and the scene uniforms are not modelled; only their parameters are compared, copied and recorded as uploaded.
- The model matrix is not computed: it is kept as the sequence of scale, translate and rotate calls.
- Mesh.Model.LoadGeometry: requires that the load ends and builds something: the requested file has vertices and shapes, or else the last object under the current directory has them. When neither has, `checkOBJ` and `changeObject` call each other without end, which the model leaves out because it must terminate. The file that gets built must also be one that can be scaled (see the Mesh.Model.InsertVertices line). The same precondition is on CheckObj, ChangeObject and ChangeTextures and on the load functions of Mesh; the file not read and the rest of the disk are unconstrained.
- Render.GeometryRender.ChangeObject: requires the same of the window's object, with the previous object as fallback, in the window's directory.
- Mesh.Model.InsertVertices: needs, like MeshSpec.ModelScale, that a file that gets built has two distinct vertices, and coordinates within the float range. For a file with vertices and shapes whose vertices all coincide, or that has a single vertex, Model.cpp:183-184 computes `1.0f / 0.0f` and scales the model by +inf, which reals cannot represent. Files that fail checkOBJ, and files the load does not build, are unconstrained.
- Mesh.Model.LoadGeometry: the second `OBJLoaderInit()` after a parser error discards its result. The model keeps the first parse and only takes the last object's name, as the code does.
- Mesh.Model.InsertNormals: the `glm::normalize` calls discard their results, so the normals are plain sums. The final normalising loop changes nothing and has no counterpart.
- MeshSpec.LoadedMesh: states lengths and the mesh invariant. Pointwise contents are stated by IndicesOfAt, AccumulateFace and FreshLoad instead of on the function itself.
- Mesh.Model.Reset: `object = Model(program, vao)` assigns a new value. The model resets the same object in place; the program and vertex-array handles are not modelled. `modelMat` is left unset by both Model constructors; the model starts it as the identity.
- Render.GeometryRender.constructor: it gives definite values to fields the C++ constructor leaves unset until `initialize` runs. The movement flags are cleared here, as `start` does before the first frame.
- `initialize` is not modelled as called from `main`, and `start` is not modelled: the frame loop, the ImGui controls and the mouse and resize callbacks are outside the model. The `display` that the frame loop calls is modelled.
- `lightIsChanged` is never called in the source; it is modelled but no frame uses it.
- `setTxtShow` and `getTxtShow` are not modelled; the texture switch is a plain field.
- Input.CallbackManager.KeyCallback: the `glfwSetCursorPos` call on Space is not modelled, and neither are the unused scancode, mods and window arguments. The callback's `app` is an `OpenGLWindow*` whose virtual methods the renderer implements, so the model types it as `GeometryRender?`.
- Input.CallbackManager.KeyCallback: reloading on O requires what Render.GeometryRender.ChangeObject requires.
- The error and resize callbacks are not modelled.

## Findings

| source | as written | input that shows it | evidently intended | confidence | as-written member | corrected member |
|---|---|---|---|---|---|---|
| openglwindow.cpp:270-271 | the GUI sets the object directory to "./OBJs", and Model.cpp:123 parses directory + name with no separator (the file dialog's `GetCurrentPath()` at openglwindow.cpp:307 has no trailing separator either) | the Cube button: the parser is asked for "./OBJscube.obj"; with the objects under "./OBJs/", neither it nor the fallback "./OBJssphere_large.obj" has vertices, so checkOBJ and changeObject call each other without end | a '/' between directory and name, as the default "OBJs/" (Model.cpp:78) has and as handleTextures adds to the texture directory (Model.cpp:29-30); proved of the corrected path by Mesh.ObjectPathInDirectory and Mesh.GuiDirectorySeparated | not executed | Mesh.GuiDirectoryAsWritten | Mesh.ObjectPath |
