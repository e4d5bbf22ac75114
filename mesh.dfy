/** The loaded model (Model.cpp): the mesh arrays built from the parsed OBJ file,
    its model matrix, material and texture settings, and the load sequence
    loadGeometry / checkOBJ / changeObject with its fallback to the last object
    that loaded. The file system is a map from path to parse result; GL uploads
    and console messages go to the shared event log. */
module Mesh {
  import opened Vectors
  import opened MeshSpec
  import opened Effects

  /** The model matrix as the sequence of glm calls that built it. */
  datatype Transform =
    | Identity
    | Scaled(base: Transform, factor: Vec3)
    | Translated(base: Transform, offset: Vec3)
    | Rotated(base: Transform, degrees: real, axis: Vec3)


  /** The path OBJLoaderInit hands the parser, as written: directory and file
      name run together with nothing between them. */
  function JoinedAsWritten(dir: string, name: string): (r: string)
    ensures |r| == |dir| + |name| && r[..|dir|] == dir && r[|dir|..] == name
  {
    dir + name
  }

  /** The path of file `name` in directory `dir`: a separator goes between a
      non-empty directory that lacks one and the name, as handleTextures does
      for the texture directory. The load uses this path. */
  function ObjectPath(dir: string, name: string): string {
    if dir == "" || dir[|dir| - 1] == '/' then dir + name else dir + "/" + name
  }

  /** The path starts with the directory, ends with the name, and a non-empty
      directory is separated from the name by '/'. */
  lemma ObjectPathInDirectory(dir: string, name: string)
    ensures var r := ObjectPath(dir, name);
      && |dir| + |name| <= |r| <= |dir| + |name| + 1
      && r[..|dir|] == dir && r[|r| - |name|..] == name
      && (dir != "" ==> r[|r| - |name| - 1] == '/')
  {
    if dir != "" && dir[|dir| - 1] != '/' {
      var r := dir + "/" + name;
      assert r[..|dir|] == dir && r[|r| - |name|..] == name;
    } else {
      var r := dir + name;
      assert r[..|dir|] == dir && r[|r| - |name|..] == name;
      if dir != "" {
        assert r[|r| - |name| - 1] == dir[|dir| - 1];
      }
    }
  }

  /** A directory that already ends in '/', such as the default "OBJs/", is
      joined exactly as written. */
  lemma SeparatedDirectoryAsWritten(dir: string, name: string)
    requires dir != "" && dir[|dir| - 1] == '/'
    ensures ObjectPath(dir, name) == JoinedAsWritten(dir, name)
  {
  }

  /** A small good triangle. */
  const Triangle: ObjData := ObjData([0.0, 0.0, 0.0, 1.0, 0.0, 0.0, 0.0, 1.0, 0.0], [Shape([3], [0, 1, 2])], false)

  /** The objects under "./OBJs/", the directory the window's GUI selects. */
  const GuiDisk: map<string, ObjData> := map["./OBJs/cube.obj" := Triangle, "./OBJs/sphere_large.obj" := Triangle]

  /** As written, the GUI's directory "./OBJs" has no separator, so the parser
      is asked for "./OBJscube.obj": neither the requested object nor the
      fallback is found, and checkOBJ and changeObject would call each other
      without end. */
  lemma GuiDirectoryAsWritten()
    ensures JoinedAsWritten("./OBJs", "cube.obj") == "./OBJscube.obj"
    ensures !Good(Parse(GuiDisk, JoinedAsWritten("./OBJs", "cube.obj")))
    ensures !Good(Parse(GuiDisk, JoinedAsWritten("./OBJs", "sphere_large.obj")))
  {
    assert JoinedAsWritten("./OBJs", "cube.obj") !in GuiDisk by {
      assert |JoinedAsWritten("./OBJs", "cube.obj")| == 14;
    }
    assert JoinedAsWritten("./OBJs", "sphere_large.obj") !in GuiDisk by {
      assert |JoinedAsWritten("./OBJs", "sphere_large.obj")| == 22;
    }
  }

  /** With the separator, both the requested object and the fallback are found
      on the same disk. */
  lemma GuiDirectorySeparated()
    ensures ObjectPath("./OBJs", "cube.obj") == "./OBJs/cube.obj"
    ensures Good(Parse(GuiDisk, ObjectPath("./OBJs", "cube.obj")))
    ensures Good(Parse(GuiDisk, ObjectPath("./OBJs", "sphere_large.obj")))
  {
    assert ObjectPath("./OBJs", "sphere_large.obj") == "./OBJs/sphere_large.obj";
  }

  /** The small triangle can be built: its three vertices are not all equal. */
  lemma TriangleLoadable()
    ensures Good(Triangle) && Loadable(Triangle)
  {
    assert VerticesOf(Triangle.coords)[1] != VerticesOf(Triangle.coords)[0];
  }

  /** The default directory holding an empty file beside the default object. */
  const EmptyDisk: map<string, ObjData> :=
    map[ObjectPath("OBJs/", "empty.obj") := ObjData([], [], false), ObjectPath("OBJs/", "sphere_large.obj") := Triangle]

  /** A disk may hold files that parse without error to nothing: requesting an
      empty one takes checkOBJ's first fallback branch, and the load still
      ends with the last object. */
  lemma EmptyFileOnDisk()
    ensures LoadBuilds(EmptyDisk, "OBJs/", "empty.obj", "sphere_large.obj")
    ensures var d := Parse(EmptyDisk, ObjectPath("OBJs/", "empty.obj")); !d.error && |d.coords| == 0
  {
    TriangleLoadable();
    ObjectPathInDirectory("OBJs/", "empty.obj");
    ObjectPathInDirectory("OBJs/", "sphere_large.obj");
  }

  /** A single vertex with one shape passes checkOBJ but cannot be scaled. */
  const Point: ObjData := ObjData([1.0, 2.0, 3.0], [Shape([3], [0, 0, 0])], false)

  /** A directory picked in the file dialog, holding a good object, an object
      that cannot be scaled, and not the last object. */
  const DialogDisk: map<string, ObjData> := map["/home/u/models/foo.obj" := Triangle, "/home/u/models/point.obj" := Point]

  /** A good requested file is built without the last object being read: the
      load succeeds although the last object is missing from the directory and
      another file there could not be built. */
  lemma RequestedWithoutFallback()
    ensures LoadBuilds(DialogDisk, "/home/u/models", "foo.obj", "sphere_large.obj")
    ensures !Good(Parse(DialogDisk, ObjectPath("/home/u/models", "sphere_large.obj")))
    ensures Good(Point) && !Loadable(Point)
  {
    TriangleLoadable();
    assert ObjectPath("/home/u/models", "foo.obj") == "/home/u/models/foo.obj";
    var missing := ObjectPath("/home/u/models", "sphere_large.obj");
    assert missing !in DialogDisk by {
      assert |missing| == 31;
    }
    assert VerticesOf(Point.coords) == [Vec3(1.0, 2.0, 3.0)];
  }

  /** The termination measure of the load recursion: a good parse does not recurse. */
  function Rank(d: ObjData): nat {
    if Good(d) then 0 else 1
  }

  /** A parse that passes checkOBJ and whose mesh can be scaled. */
  predicate Builds(d: ObjData) {
    Good(d) && Loadable(d)
  }

  /** checkOBJ and changeObject stop calling each other: the requested file or
      the last object passes checkOBJ. */
  predicate LoadEnds(files: map<string, ObjData>, path: string, name: string, latest: string) {
    Good(Parse(files, ObjectPath(path, name))) || Good(Parse(files, ObjectPath(path, latest)))
  }

  /** Loading `name` ends and builds something: the requested file if it passes
      checkOBJ, otherwise the last object. The other file and the rest of the
      disk are not read. */
  predicate LoadBuilds(files: map<string, ObjData>, path: string, name: string, latest: string) {
    var d := Parse(files, ObjectPath(path, name));
    if Good(d) then Loadable(d) else Builds(Parse(files, ObjectPath(path, latest)))
  }

  /** The texture directory after handleTextures: a separator is appended to any
      non-empty directory, every time. */
  function TexturePathAfter(path: string): (r: string)
    ensures path == "" ==> r == ""
    ensures path != "" ==> |r| == |path| + 1 && r[..|path|] == path && r[|path|] == '/'
  {
    if path != "" then path + "/" else path
  }

  /** The parse that ends up loaded when `name` is requested: the file itself if
      it has vertices and shapes, otherwise the last object that loaded. */
  function SourceOf(files: map<string, ObjData>, path: string, name: string, latest: string): (d: ObjData)
    requires LoadEnds(files, path, name, latest)
    ensures Good(d) && (LoadBuilds(files, path, name, latest) ==> Loadable(d))
    ensures d == Parse(files, ObjectPath(path, name)) || d == Parse(files, ObjectPath(path, latest))
  {
    var d := Parse(files, ObjectPath(path, name));
    if Good(d) then d else Parse(files, ObjectPath(path, latest))
  }

  /** The file name the model holds afterwards: the requested one only if it
      parsed without error and passed checkOBJ. */
  function NameAfterLoad(files: map<string, ObjData>, path: string, name: string, latest: string): (r: string)
    ensures r == name || r == latest
    ensures r == name <== Good(Parse(files, ObjectPath(path, name))) && !Parse(files, ObjectPath(path, name)).error
  {
    var d := Parse(files, ObjectPath(path, name));
    if Good(d) && !d.error then name else latest
  }

  /** The mesh after loading `name` into `m`: appended to `m` when the file is
      good; otherwise the mesh is cleared and the last object loaded instead. */
  function ReloadedMesh(m: MeshData, files: map<string, ObjData>, path: string, name: string, latest: string,
                        sphereMap: Vec3 -> Vec2): (r: MeshData)
    requires MeshValid(m) && LoadBuilds(files, path, name, latest)
    ensures MeshValid(r)
  {
    var d := Parse(files, ObjectPath(path, name));
    if Good(d) then LoadedMesh(m, d, NameAfterLoad(files, path, name, latest), sphereMap)
    else LoadedMesh(EmptyMesh, Parse(files, ObjectPath(path, latest)), latest, sphereMap)
  }

  /** checkOBJ's complaint about a parse that is not good. */
  function Complaint(d: ObjData, latest: string): (e: Event)
    ensures e == NoVerticesRead(latest) || e == NoIndicesRead(latest)
    ensures e == NoVerticesRead(latest) <==> |d.coords| == 0
  {
    if |d.coords| == 0 then NoVerticesRead(latest) else NoIndicesRead(latest)
  }

  /** The messages and uploads of one load: checkOBJ's complaint if the file was
      not good, then the texture, the buffers, the model matrix and the report. */
  function LoadLog(files: map<string, ObjData>, path: string, name: string, latest: string,
                   texture: string, m: MeshData): (r: seq<Event>)
    requires LoadEnds(files, path, name, latest)
  {
    var d := Parse(files, ObjectPath(path, name));
    (if Good(d) then [] else [Complaint(d, latest)])
    + [UploadedTexture(texture), UploadedMesh(|m.vertices|, |m.indices|), SentModel(false),
       LoadReport(NameAfterLoad(files, path, name, latest), !SourceOf(files, path, name, latest).error)]
  }

  /** The part of the model a load reads and writes: the requested file name, the
      mesh, the model matrix, the texture directory and the event log. */
  datatype LoadState = LoadState(objFileName: string, mesh: MeshData, modelMat: Transform,
                                 textureFilePath: string, events: seq<Event>)

  /** What loadGeometry makes of `before`: the file named in `before` is loaded
      onto its mesh, or, when it is not good, the last object is loaded onto an
      empty mesh instead. */
  function LoadResult(files: map<string, ObjData>, path: string, latest: string, textureFileName: string,
                      sphereMap: Vec3 -> Vec2, before: LoadState): LoadState
    requires MeshValid(before.mesh) && LoadBuilds(files, path, before.objFileName, latest)
  {
    var name := before.objFileName;
    var mesh := ReloadedMesh(before.mesh, files, path, name, latest, sphereMap);
    var texturePath := TexturePathAfter(before.textureFilePath);
    LoadState(NameAfterLoad(files, path, name, latest), mesh,
              Scaled(Identity, ModelScale(SourceOf(files, path, name, latest))), texturePath,
              before.events + LoadLog(files, path, name, latest, texturePath + textureFileName, mesh))
  }

  /** `after` is the outcome of loading from `before`. */
  ghost predicate Loaded(files: map<string, ObjData>, path: string, latest: string, textureFileName: string,
                         sphereMap: Vec3 -> Vec2, before: LoadState, after: LoadState)
    requires MeshValid(before.mesh) && LoadBuilds(files, path, before.objFileName, latest)
  {
    after == LoadResult(files, path, latest, textureFileName, sphereMap, before)
  }

  /** Every load leaves a well-formed mesh under the requested name or the last
      object's, a model matrix that scales the identity by a positive factor,
      the texture directory with its separator, and the log extended. */
  lemma LoadOutcome(files: map<string, ObjData>, path: string, latest: string, textureFileName: string,
                    sphereMap: Vec3 -> Vec2, before: LoadState, after: LoadState)
    requires MeshValid(before.mesh) && LoadBuilds(files, path, before.objFileName, latest)
    requires Loaded(files, path, latest, textureFileName, sphereMap, before, after)
    ensures MeshValid(after.mesh)
    ensures after.objFileName == before.objFileName || after.objFileName == latest
    ensures after.modelMat.Scaled? && after.modelMat.base == Identity && after.modelMat.factor.x > 0.0
    ensures after.textureFilePath == TexturePathAfter(before.textureFilePath)
    ensures before.events < after.events
  {
    var name := before.objFileName;
    var m := ReloadedMesh(before.mesh, files, path, name, latest, sphereMap);
    var texture := TexturePathAfter(before.textureFilePath) + textureFileName;
    LoadResultFields(files, path, latest, textureFileName, sphereMap, before);
    LoadLogNonEmpty(files, path, name, latest, texture, m);
    ModelScaleInverts(SourceOf(files, path, name, latest));
    assert after.events[..|before.events|] == before.events;
  }

  /** The fields of LoadResult, one by one. */
  lemma LoadResultFields(files: map<string, ObjData>, path: string, latest: string, textureFileName: string,
                         sphereMap: Vec3 -> Vec2, before: LoadState)
    requires MeshValid(before.mesh) && LoadBuilds(files, path, before.objFileName, latest)
    ensures var r, name := LoadResult(files, path, latest, textureFileName, sphereMap, before), before.objFileName;
      && r.objFileName == NameAfterLoad(files, path, name, latest)
      && r.mesh == ReloadedMesh(before.mesh, files, path, name, latest, sphereMap)
      && r.modelMat == Scaled(Identity, ModelScale(SourceOf(files, path, name, latest)))
      && r.textureFilePath == TexturePathAfter(before.textureFilePath)
      && r.events == before.events + LoadLog(files, path, name, latest, r.textureFilePath + textureFileName, r.mesh)
  {
  }

  lemma LoadLogNonEmpty(files: map<string, ObjData>, path: string, name: string, latest: string,
                        texture: string, m: MeshData)
    requires LoadEnds(files, path, name, latest)
    ensures |LoadLog(files, path, name, latest, texture, m)| >= 4
  {
  }

  /** A good requested file is built onto the current mesh, under its own name
      unless the parser reported an error. */
  lemma RequestedLoaded(files: map<string, ObjData>, path: string, latest: string, textureFileName: string,
                        sphereMap: Vec3 -> Vec2, before: LoadState, d: ObjData, name: string, after: LoadState)
    requires MeshValid(before.mesh) && d == Parse(files, ObjectPath(path, before.objFileName)) && Builds(d)
    requires name == if d.error then latest else before.objFileName
    requires after.objFileName == name
    requires after.mesh == LoadedMesh(before.mesh, d, name, sphereMap)
    requires after.modelMat == Scaled(Identity, ModelScale(d))
    requires after.textureFilePath == TexturePathAfter(before.textureFilePath)
    requires after.events == before.events + [UploadedTexture(after.textureFilePath + textureFileName),
      UploadedMesh(|after.mesh.vertices|, |after.mesh.indices|), SentModel(false), LoadReport(name, !d.error)]
    ensures Loaded(files, path, latest, textureFileName, sphereMap, before, after)
  {
    var requested, r := before.objFileName, LoadResult(files, path, latest, textureFileName, sphereMap, before);
    LoadResultFields(files, path, latest, textureFileName, sphereMap, before);
    assert after.objFileName == r.objFileName && after.mesh == r.mesh && after.modelMat == r.modelMat by {
      RequestedParts(files, path, requested, latest, before.mesh, sphereMap);
    }
    assert after.events == r.events by {
      RequestedLog(files, path, requested, latest, after.textureFilePath + textureFileName, after.mesh);
    }
  }

  /** Loading a good requested file reads that file, keeps its name unless the
      parser reported an error, and builds it onto the current mesh. */
  lemma RequestedParts(files: map<string, ObjData>, path: string, name: string, latest: string, m: MeshData,
                       sphereMap: Vec3 -> Vec2)
    requires MeshValid(m) && Builds(Parse(files, ObjectPath(path, name)))
    ensures var d := Parse(files, ObjectPath(path, name));
      && SourceOf(files, path, name, latest) == d
      && NameAfterLoad(files, path, name, latest) == (if d.error then latest else name)
      && ReloadedMesh(m, files, path, name, latest, sphereMap)
         == LoadedMesh(m, d, if d.error then latest else name, sphereMap)
  {
  }

  /** The log of loading a good requested file: no complaint, and the report
      names the file unless the parser reported an error. */
  lemma RequestedLog(files: map<string, ObjData>, path: string, name: string, latest: string,
                     texture: string, m: MeshData)
    requires Good(Parse(files, ObjectPath(path, name)))
    ensures var d := Parse(files, ObjectPath(path, name));
      LoadLog(files, path, name, latest, texture, m)
      == [UploadedTexture(texture), UploadedMesh(|m.vertices|, |m.indices|), SentModel(false),
          LoadReport(if d.error then latest else name, !d.error)]
  {
  }

  /** The state checkOBJ hands to changeObject for a parse `d` that is not good:
      the last object's name, an empty mesh, and the complaint logged. */
  function Fallback(s: LoadState, d: ObjData, latest: string): (r: LoadState)
    ensures r.objFileName == latest && r.mesh == EmptyMesh
    ensures r.modelMat == s.modelMat && r.textureFilePath == s.textureFilePath
    ensures r.events == s.events + [Complaint(d, latest)]
  {
    s.(objFileName := latest, mesh := EmptyMesh, events := s.events + [Complaint(d, latest)])
  }

  /** A requested file that is not good is replaced, after checkOBJ's complaint,
      by the last object loaded onto an empty mesh. */
  lemma FallbackLoaded(files: map<string, ObjData>, path: string, latest: string, textureFileName: string,
                       sphereMap: Vec3 -> Vec2, before: LoadState, checked: LoadState, d: ObjData, after: LoadState)
    requires MeshValid(before.mesh) && Builds(Parse(files, ObjectPath(path, latest)))
    requires d == Parse(files, ObjectPath(path, before.objFileName)) && !Good(d)
    requires Fallback(checked, d, latest) == Fallback(before, d, latest)
    requires Loaded(files, path, latest, textureFileName, sphereMap, Fallback(checked, d, latest), after)
    ensures Loaded(files, path, latest, textureFileName, sphereMap, before, after)
  {
    var requested, fallback := before.objFileName, Fallback(before, d, latest);
    assert SourceOf(files, path, latest, latest) == SourceOf(files, path, requested, latest);
    assert NameAfterLoad(files, path, latest, latest) == latest == NameAfterLoad(files, path, requested, latest);
    assert ReloadedMesh(EmptyMesh, files, path, latest, latest, sphereMap)
      == ReloadedMesh(before.mesh, files, path, requested, latest, sphereMap);
    var texture := TexturePathAfter(before.textureFilePath) + textureFileName;
    var mesh := ReloadedMesh(EmptyMesh, files, path, latest, latest, sphereMap);
    assert fallback.events + LoadLog(files, path, latest, latest, texture, mesh)
      == before.events + LoadLog(files, path, requested, latest, texture, mesh);
  }

  class Model {
    var objFileName: string
    var objFilePath: string
    var latestObj: string
    var modelMat: Transform
    var textureFileName: string
    var textureFilePath: string
    var textureShow: bool
    var materialAmbient: Vec3
    var materialDiffuse: Vec3
    var materialSpecular: Vec3
    var materialShininess: real
    var vertices: seq<Vec3>
    var normals: seq<Vec3>
    var indices: seq<nat>
    var texCoords: seq<Vec2>
    var reader: ObjData
    const log: Log

    ghost function Mesh(): MeshData
      reads this`vertices, this`indices, this`normals, this`texCoords
    {
      MeshData(vertices, indices, normals, texCoords)
    }

    ghost predicate Valid()
      reads this`vertices, this`indices, this`normals, this`texCoords
    {
      MeshValid(Mesh())
    }

    ghost function LoadView(): LoadState
      reads this`objFileName, this`vertices, this`indices, this`normals, this`texCoords, this`modelMat,
            this`textureFilePath, log`events
    {
      LoadState(objFileName, Mesh(), modelMat, textureFilePath, log.events)
    }

    /** Model(program, vao): the default object, material and texture. */
    constructor(log: Log)
      ensures this.log == log && Valid() && Mesh() == EmptyMesh
      ensures objFileName == "sphere_large.obj" && objFilePath == "OBJs/" && latestObj == "sphere_large.obj"
      ensures materialAmbient == Vec3(0.6, 0.6, 0.6) && materialDiffuse == Vec3(0.5, 0.5, 0.5)
      ensures materialSpecular == Vec3(0.5, 0.5, 0.5) && materialShininess == 5.0
      ensures textureFileName == "erf.jpg" && textureFilePath == "" && !textureShow
      ensures modelMat == Identity
    {
      this.log := log;
      objFileName := "sphere_large.obj";
      objFilePath := "OBJs/";
      latestObj := "sphere_large.obj";
      materialAmbient := Vec3(0.6, 0.6, 0.6);
      materialDiffuse := Vec3(0.5, 0.5, 0.5);
      materialSpecular := Vec3(0.5, 0.5, 0.5);
      materialShininess := 5.0;
      textureFileName := "erf.jpg";
      textureFilePath := "";
      textureShow := false;
      modelMat := Identity;
      vertices, normals, indices, texCoords := [], [], [], [];
      reader := ObjData([], [], true);
    }

    /** The assignment of a newly constructed Model(program, vao) over this
        one, as initialize does: every setting back to its default, no mesh. */
    method Reset()
      modifies this`objFileName, this`objFilePath, this`latestObj, this`modelMat, this`textureFileName,
               this`textureFilePath, this`textureShow, this`materialAmbient, this`materialDiffuse,
               this`materialSpecular, this`materialShininess, this`vertices, this`normals, this`indices,
               this`texCoords, this`reader
      ensures Valid() && Mesh() == EmptyMesh
      ensures objFileName == "sphere_large.obj" && objFilePath == "OBJs/" && latestObj == "sphere_large.obj"
      ensures materialAmbient == Vec3(0.6, 0.6, 0.6) && materialDiffuse == Vec3(0.5, 0.5, 0.5)
      ensures materialSpecular == Vec3(0.5, 0.5, 0.5) && materialShininess == 5.0
      ensures textureFileName == "erf.jpg" && textureFilePath == "" && !textureShow
      ensures modelMat == Identity
    {
      ResetFiles();
      ResetMaterial();
      vertices, normals, indices, texCoords := [], [], [], [];
      reader := ObjData([], [], true);
    }

    /** The default file names, texture settings and transform of Model(program, vao). */
    method ResetFiles()
      modifies this`objFileName, this`objFilePath, this`latestObj, this`modelMat, this`textureFileName,
               this`textureFilePath, this`textureShow
      ensures objFileName == "sphere_large.obj" && objFilePath == "OBJs/" && latestObj == "sphere_large.obj"
      ensures textureFileName == "erf.jpg" && textureFilePath == "" && !textureShow
      ensures modelMat == Identity
    {
      objFileName := "sphere_large.obj";
      objFilePath := "OBJs/";
      latestObj := "sphere_large.obj";
      textureFileName := "erf.jpg";
      textureFilePath := "";
      textureShow := false;
      modelMat := Identity;
    }

    /** The default material of Model(program, vao). */
    method ResetMaterial()
      modifies this`materialAmbient, this`materialDiffuse, this`materialSpecular, this`materialShininess
      ensures materialAmbient == Vec3(0.6, 0.6, 0.6) && materialDiffuse == Vec3(0.5, 0.5, 0.5)
      ensures materialSpecular == Vec3(0.5, 0.5, 0.5) && materialShininess == 5.0
    {
      materialAmbient := Vec3(0.6, 0.6, 0.6);
      materialDiffuse := Vec3(0.5, 0.5, 0.5);
      materialSpecular := Vec3(0.5, 0.5, 0.5);
      materialShininess := 5.0;
    }

    /** insertVertices: append every coordinate triple as a vertex while keeping
        the bounding box, and return one over its largest side on every axis. */
    method InsertVertices() returns (scale: Vec3)
      requires Loadable(reader)
      modifies this`vertices
      ensures vertices == old(vertices) + VerticesOf(reader.coords)
      ensures scale == ModelScale(reader)
    {
      var xMax, xMin := -FloatMax, FloatMax;
      var yMax, yMin := -FloatMax, FloatMax;
      var zMax, zMin := -FloatMax, FloatMax;
      var coords := reader.coords;
      ghost var added := VerticesOf(coords);
      var v := 0;
      while v < |coords| / 3
        invariant 0 <= v <= |coords| / 3
        invariant vertices == old(vertices) + added[..v]
        invariant Box(xMax, xMin, yMax, yMin, zMax, zMin) == Bounds(added[..v])
      {
        VertexStep(coords, v);
        var vx, vy, vz := coords[3 * v], coords[3 * v + 1], coords[3 * v + 2];
        xMax, xMin := StdMax(xMax, vx), StdMin(xMin, vx);
        yMax, yMin := StdMax(yMax, vy), StdMin(yMin, vy);
        zMax, zMin := StdMax(zMax, vz), StdMin(zMin, vz);
        vertices := vertices + [Vec3(vx, vy, vz)];
        v := v + 1;
      }
      assert added[..v] == added;
      ghost var box := Box(xMax, xMin, yMax, yMin, zMax, zMin);
      BoxSize(reader, box);
      var sizeX, sizeY, sizeZ := xMax - xMin, yMax - yMin, zMax - zMin;
      var scalar := StdMax(sizeX, StdMax(sizeY, sizeZ));
      assert scalar == Size(box);
      var scaleFactor := 1.0 / scalar;
      BoxScale(reader, box, scalar, scaleFactor);
      scale := Vec3(scaleFactor, scaleFactor, scaleFactor);
    }

    /** insertIndices: append three indices per face of the first shape, each cast
        to unsigned. */
    method InsertIndices()
      requires |reader.shapes| > 0 && 3 * FaceCount(reader.shapes[0]) <= |reader.shapes[0].vertexIndices|
      modifies this`indices
      ensures indices == old(indices) + IndicesOf(reader.shapes[0].vertexIndices, FaceCount(reader.shapes[0]))
    {
      var shape := reader.shapes[0];
      var ids := shape.vertexIndices;
      var v := 0;
      while v < |shape.numFaceVertices|
        invariant 0 <= v <= FaceCount(shape)
        invariant indices == old(indices) + IndicesOf(ids, v)
      {
        indices := indices + [AsUnsigned(ids[3 * v])];
        indices := indices + [AsUnsigned(ids[3 * v + 1])];
        indices := indices + [AsUnsigned(ids[3 * v + 2])];
        v := v + 1;
      }
    }

    /** insertNormals: resize the normals to the vertex count, then add every
        face's normal to each of its three corners. */
    method InsertNormals()
      requires |indices| % 3 == 0 && IndicesIn(indices, |vertices|)
      modifies this`normals
      ensures normals == AccumulatedNormals(Resize(old(normals), |vertices|), vertices, indices)
    {
      var vs, idx := vertices, indices;
      ghost var base := Resize(normals, |vs|);
      var n := Resize(normals, |vs|);
      var i := 0;
      ghost var f := 0;
      while i < |idx|
        invariant 0 <= i <= |idx| && i == 3 * f
        invariant Accumulated(n, base, vs, idx, f)
      {
        var vector1 := Sub(vs[idx[i + 1]], vs[idx[i]]);
        var vector2 := Sub(vs[idx[i + 2]], vs[idx[i]]);
        var faceNormal := Cross(vector1, vector2);
        AccumulateFace(n, base, vs, idx, f);
        n := Bump(n, idx[i], faceNormal);
        n := Bump(n, idx[i + 1], faceNormal);
        n := Bump(n, idx[i + 2], faceNormal);
        i, f := i + 3, f + 1;
      }
      assert f == |idx| / 3;
      normals := n;
    }

    /** handleTextures: add a separator to a non-empty texture directory and
        upload the image it names. */
    method HandleTextures()
      modifies this`textureFilePath, log
      ensures textureFilePath == TexturePathAfter(old(textureFilePath))
      ensures log.events == old(log.events) + [UploadedTexture(textureFilePath + textureFileName)]
    {
      if |textureFilePath| != 0 {
        textureFilePath := textureFilePath + "/";
      }
      log.events := log.events + [UploadedTexture(textureFilePath + textureFileName)];
    }

    /** The texture-coordinate loops of loadGeometry: one coordinate per vertex. */
    method AppendTexCoords(name: string, sphereMap: Vec3 -> Vec2)
      modifies this`texCoords
      ensures texCoords == old(texCoords) + TexCoordsFor(vertices, name, sphereMap)
    {
      ghost var generated := TexCoordsFor(vertices, name, sphereMap);
      if name == "sphere_large.obj" || name == "sphere.obj" {
        var i := 0;
        while i < |vertices|
          invariant 0 <= i <= |vertices|
          invariant texCoords == old(texCoords) + generated[..i]
        {
          assert generated[..i + 1] == generated[..i] + [sphereMap(vertices[i])];
          texCoords := texCoords + [sphereMap(vertices[i])];
          i := i + 1;
        }
      } else {
        var i := 0;
        while i < |vertices|
          invariant 0 <= i <= |vertices|
          invariant texCoords == old(texCoords) + generated[..i]
        {
          assert generated[..i + 1] == generated[..i] + [Vec2(vertices[i].x, vertices[i].y)];
          texCoords := texCoords + [Vec2(vertices[i].x, vertices[i].y)];
          i := i + 1;
        }
      }
      assert generated[..|vertices|] == generated;
    }

    /** The inversion loop of loadGeometry: every texture coordinate, old and new,
        is mirrored horizontally. */
    method InvertTexCoords()
      modifies this`texCoords
      ensures texCoords == InvertAll(old(texCoords))
    {
      var i := 0;
      while i < |texCoords|
        invariant 0 <= i <= |texCoords| == |old(texCoords)|
        invariant forall j :: 0 <= j < i ==> texCoords[j] == InvertH(old(texCoords)[j])
        invariant forall j :: i <= j < |texCoords| ==> texCoords[j] == old(texCoords)[j]
      {
        texCoords := texCoords[i := InvertH(texCoords[i])];
        i := i + 1;
      }
    }

    /** checkOBJ: a parse without vertices, or without shapes, is reported and
        replaced by the last object that loaded. */
    method CheckObj(files: map<string, ObjData>, sphereMap: Vec3 -> Vec2) returns (ok: bool)
      requires Good(reader) || Builds(Parse(files, ObjectPath(objFilePath, latestObj)))
      modifies this`vertices, this`indices, this`normals, this`texCoords, this`objFileName,
               this`reader, this`modelMat, this`textureFilePath, log
      decreases Rank(reader), 0
      ensures ok == Good(old(reader))
      ensures ok ==> unchanged(this) && log.events == old(log.events)
      ensures !ok ==> Valid() && Loaded(files, objFilePath, latestObj, textureFileName, sphereMap,
                                        Fallback(old(LoadView()), old(reader), latestObj), LoadView())
    {
      if |reader.coords| == 0 {
        log.events := log.events + [NoVerticesRead(latestObj)];
        objFileName := latestObj;
        ChangeObject(files, sphereMap);
        return false;
      }
      if |reader.shapes| == 0 {
        log.events := log.events + [NoIndicesRead(latestObj)];
        objFileName := latestObj;
        ChangeObject(files, sphereMap);
        return false;
      }
      return true;
    }

    /** loadGeometry: parse the current file (falling back to the last object's
        name on a parser error), check it, then build and upload the mesh. */
    method LoadGeometry(files: map<string, ObjData>, sphereMap: Vec3 -> Vec2)
      requires Valid() && LoadBuilds(files, objFilePath, objFileName, latestObj)
      modifies this`vertices, this`indices, this`normals, this`texCoords, this`objFileName,
               this`reader, this`modelMat, this`textureFilePath, log
      decreases Rank(Parse(files, ObjectPath(objFilePath, objFileName))), 1
      ensures Valid() && Loaded(files, objFilePath, latestObj, textureFileName, sphereMap, old(LoadView()), LoadView())
    {
      ghost var before := LoadState(objFileName, Mesh(), modelMat, textureFilePath, log.events);
      var loadError := false;
      reader := Parse(files, ObjectPath(objFilePath, objFileName));
      if reader.error {
        loadError := true;
        objFileName := latestObj;
      }
      ghost var checking, d := LoadView(), reader;
      var ok := CheckObj(files, sphereMap);
      if !ok {
        FallbackLoaded(files, objFilePath, latestObj, textureFileName, sphereMap, before, checking, d,
                       LoadState(objFileName, Mesh(), modelMat, textureFilePath, log.events));
        return;
      }
      BuildMesh(sphereMap, loadError);
      RequestedLoaded(files, objFilePath, latestObj, textureFileName, sphereMap, before, reader, objFileName,
                      LoadState(objFileName, Mesh(), modelMat, textureFilePath, log.events));
    }

    /** The geometry half of loadGeometry: append the vertices, set the model
        matrix to the bounding scale, append the indices and accumulate the normals. */
    method BuildGeometry()
      requires Valid() && Good(reader) && Loadable(reader)
      modifies this`vertices, this`indices, this`normals, this`modelMat
      ensures vertices == old(vertices) + VerticesOf(reader.coords)
      ensures indices == old(indices) + IndicesOf(reader.shapes[0].vertexIndices, FaceCount(reader.shapes[0]))
      ensures |indices| % 3 == 0 && IndicesIn(indices, |vertices|)
      ensures normals == AccumulatedNormals(Resize(old(normals), |vertices|), vertices, indices)
      ensures modelMat == Scaled(Identity, ModelScale(reader))
    {
      ghost var d, m := reader, Mesh();
      ghost var shape := d.shapes[0];
      ShapeIndicesInRange(shape, |d.coords| / 3);
      var boundaries := InsertVertices();
      assert reader == d && indices == m.indices;
      modelMat := Scaled(Identity, boundaries);
      InsertIndices();
      assert reader == d && vertices == m.vertices + VerticesOf(d.coords);
      IndicesJoin(m.indices, |m.vertices|, IndicesOf(shape.vertexIndices, FaceCount(shape)), |d.coords| / 3, |vertices|);
      WholeTriangles(|m.indices|, FaceCount(shape));
      InsertNormals();
    }

    /** Build the mesh of the good parse in `reader` onto the current arrays. */
    method BuildMesh(sphereMap: Vec3 -> Vec2, loadError: bool)
      requires Valid() && Good(reader) && Loadable(reader)
      modifies this`vertices, this`indices, this`normals, this`texCoords, this`modelMat, this`textureFilePath, log
      ensures Mesh() == LoadedMesh(old(Mesh()), reader, objFileName, sphereMap)
      ensures modelMat == Scaled(Identity, ModelScale(reader))
      ensures textureFilePath == TexturePathAfter(old(textureFilePath))
      ensures log.events == old(log.events) + [UploadedTexture(textureFilePath + textureFileName),
        UploadedMesh(|vertices|, |indices|), SentModel(false), LoadReport(objFileName, !loadError)]
    {
      ghost var d, m := reader, Mesh();
      BuildGeometry();
      ghost var g, mat := Mesh(), modelMat;
      HandleTextures();
      ghost var path, events := textureFilePath, log.events;
      AppendTexCoords(objFileName, sphereMap);
      InvertTexCoords();
      assert texCoords == InvertAll(m.texCoords + TexCoordsFor(g.vertices, objFileName, sphereMap));
      assert Mesh() == g.(texCoords := texCoords) == LoadedMesh(m, d, objFileName, sphereMap);
      assert reader == d && modelMat == mat && textureFilePath == path && log.events == events;
      log.events := log.events + [UploadedMesh(|vertices|, |indices|), SentModel(false), LoadReport(objFileName, !loadError)];
    }

    /** changeObject: clear all four arrays and load the current file. */
    method ChangeObject(files: map<string, ObjData>, sphereMap: Vec3 -> Vec2)
      requires LoadBuilds(files, objFilePath, objFileName, latestObj)
      modifies this`vertices, this`indices, this`normals, this`texCoords, this`objFileName,
               this`reader, this`modelMat, this`textureFilePath, log
      decreases Rank(Parse(files, ObjectPath(objFilePath, objFileName))), 2
      ensures Valid()
      ensures Loaded(files, objFilePath, latestObj, textureFileName, sphereMap,
                     old(LoadView()).(mesh := EmptyMesh), LoadView())
    {
      ghost var before := LoadState(objFileName, EmptyMesh, modelMat, textureFilePath, log.events);
      vertices, indices, normals, texCoords := [], [], [], [];
      assert LoadView() == before;
      LoadGeometry(files, sphereMap);
    }

    /** changeTextures: clear only the texture coordinates and load the current
        file again; vertices, indices and normals are kept and appended to. */
    method ChangeTextures(files: map<string, ObjData>, sphereMap: Vec3 -> Vec2)
      requires Valid() && LoadBuilds(files, objFilePath, objFileName, latestObj)
      modifies this`vertices, this`indices, this`normals, this`texCoords, this`objFileName,
               this`reader, this`modelMat, this`textureFilePath, log
      ensures Valid()
      ensures Loaded(files, objFilePath, latestObj, textureFileName, sphereMap,
                     old(LoadView()).(mesh := old(Mesh()).(texCoords := [])), LoadView())
    {
      ghost var before := LoadState(objFileName, Mesh().(texCoords := []), modelMat, textureFilePath, log.events);
      texCoords := [];
      assert LoadView() == before;
      LoadGeometry(files, sphereMap);
    }

    /** getIndices: the index count cast to a 32-bit unsigned. */
    function GetIndices(): (n: nat)
      reads this`indices
      ensures n < 0x1_0000_0000
      ensures |indices| < 0x1_0000_0000 ==> n == |indices|
    {
      |indices| % 0x1_0000_0000
    }

    /** sendModel: upload the model matrix, and the material when it changed. */
    method SendModel(materialChanged: bool)
      modifies log
      ensures log.events == old(log.events) + [SentModel(materialChanged)]
    {
      log.events := log.events + [SentModel(materialChanged)];
    }
  }
}
