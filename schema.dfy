/**
 * The shared records of the engine: artifacts, the artifact manager's
 * calls (kept as logs, because their code is not part of this model),
 * events, tasks and messages.
 */
module Schema {
  import opened Common

  /** The document kinds that occur at the call sites of the core. */
  datatype ArtifactType = RawRequirement | Prd | SystemDesign | Design | Code

  /** The three action kinds the driver's type->action table names. */
  datatype ActionType = AddRequirement | WritePrd | WriteDesign

  /**
   * A parsed section map: section name -> the text `f'{value}'` renders
   * for that section's value.
   */
  type Sections = map<string, string>

  /** A versioned document: committed content plus staged revisions. */
  class Artifact {
    const kind: ArtifactType
    const name: string
    const path: string
    var subType: Option<string>
    var content: string
    /** Staged revisions, oldest first; only ever appended to by the core. */
    var pendingContent: seq<string>
    /** The last merged section map (`artifact.instruct_content`). */
    var instructContent: Option<Sections>

    constructor (kind: ArtifactType, name: string, path: string)
      ensures this.kind == kind && this.name == name && this.path == path
      ensures subType == None && content == "" && pendingContent == [] && instructContent == None
    {
      this.kind := kind;
      this.name := name;
      this.path := path;
      subType := None;
      content := "";
      pendingContent := [];
      instructContent := None;
    }
  }

  /** One `upstream.add_watch(downstream, kind)` call. */
  datatype Watch = Watch(upstream: Artifact, downstream: Artifact, kind: string)

  /**
   * The artifact manager as the core sees it: `create_artifact` hands out
   * a new artifact and `add_watch` registers an edge. Both are recorded in
   * logs so that the core's use of them can be stated.
   */
  class ArtifactMgr {
    var created: seq<Artifact>
    var watches: seq<Watch>

    constructor ()
      ensures created == [] && watches == []
    {
      created := [];
      watches := [];
    }

    method CreateArtifact(kind: ArtifactType, name: string, path: string) returns (a: Artifact)
      modifies this
      ensures fresh(a)
      ensures a.kind == kind && a.name == name && a.path == path
      ensures a.subType == None && a.content == "" && a.pendingContent == [] && a.instructContent == None
      ensures created == old(created) + [a] && watches == old(watches)
    {
      a := new Artifact(kind, name, path);
      created := created + [a];
    }

    method AddWatch(upstream: Artifact, downstream: Artifact, kind: string)
      modifies this
      ensures watches == old(watches) + [Watch(upstream, downstream, kind)]
      ensures created == old(created)
    {
      watches := watches + [Watch(upstream, downstream, kind)];
    }
  }

  /** Notification that an artifact was committed. */
  datatype Event = Event(artifact: Artifact)

  /** A unit of work on one artifact, with an optional free-text instruction. */
  datatype Task = Task(artifact: Artifact, description: Option<string>)

  /** A message published to the environment. */
  datatype Message = Message(content: string, causeBy: ActionType)
}
