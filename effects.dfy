/** The observable effects of the viewer: uniform, buffer and texture uploads to
    the GPU and the load reports printed on the console. The model records them,
    in order, as a ghost event log instead of performing them. */
module Effects {
  import opened Scenery

  datatype Event =
    | SentProj(camera: Camera, projMode: int)        // Camera::sendProj
    | SentView(camera: Camera)                       // Camera::sendView
    | SentScene(scene: Scene)                        // Scene::sendScene
    | SentModel(materialToo: bool)                   // Model::sendModel, or the model-matrix upload of a load
    | UploadedTexture(path: string)                  // Model::handleTextures
    | UploadedMesh(vertexCount: nat, indexCount: nat) // vertex, normal, texcoord and index buffers
    | SetUseTexture(show: bool)                      // the "useTexture" uniform of a frame
    | Drew(indexCount: nat)                          // glDrawElements
    | NoVerticesRead(fallback: string)               // checkOBJ's first message
    | NoIndicesRead(fallback: string)                // checkOBJ's second message
    | LoadReport(name: string, ok: bool)             // the closing message of loadGeometry

  /** The GL context and console, seen as an append-only record of events. */
  class Log {
    ghost var events: seq<Event>

    constructor()
      ensures events == []
    {
      events := [];
    }
  }

  /** How many times `e` occurs in `s`. */
  function Occurrences(s: seq<Event>, e: Event): (n: nat)
    ensures n <= |s|
    ensures n == 0 <==> e !in s
  {
    if s == [] then 0
    else Occurrences(s[..|s| - 1], e) + (if s[|s| - 1] == e then 1 else 0)
  }

  lemma {:induction false} OccurrencesAppend(s: seq<Event>, t: seq<Event>, e: Event)
    ensures Occurrences(s + t, e) == Occurrences(s, e) + Occurrences(t, e)
    decreases |t|
  {
    if t == [] {
      assert s + t == s;
    } else {
      assert (s + t)[..|s + t| - 1] == s + t[..|t| - 1];
      OccurrencesAppend(s, t[..|t| - 1], e);
    }
  }

  /** Uploads of the model matrix, with or without the material. */
  function ModelUploads(s: seq<Event>): nat {
    Occurrences(s, SentModel(true)) + Occurrences(s, SentModel(false))
  }

  lemma ModelUploadsAppend(s: seq<Event>, t: seq<Event>)
    ensures ModelUploads(s + t) == ModelUploads(s) + ModelUploads(t)
  {
    OccurrencesAppend(s, t, SentModel(true));
    OccurrencesAppend(s, t, SentModel(false));
  }
}
