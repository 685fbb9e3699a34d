/**
 * The plain records exchanged by the layers: the JSON shapes of the BCF entities (what
 * `toJSON` returns and `fromJSON` accepts) and what the worker receives. An optional
 * property (`?:` or `.optional()`) is an `Option`; `None` stands for a missing key.
 */
module Core {
  import opened Wrappers

  /** A `THREE.Vector3Tuple`: x, y, z are the entries at indices 0, 1, 2. */
  datatype Vec3 = Vec3(x: real, y: real, z: real)

  /** A reference to one IFC element. */
  datatype Component = Component(uuid: string, ifcGuid: Option<string>, originatingSystem: Option<string>, authoringToolId: Option<string>)

  datatype ViewSetupHints = ViewSetupHints(spacesVisible: bool, spaceBoundariesVisible: bool, openingsVisible: bool)

  /** Default visibility, the view-setup hints and the exception list. */
  datatype Visibility = Visibility(uuid: string, components: seq<Component>, defaultVisibility: bool, viewSetupHints: ViewSetupHints)

  datatype Selection = Selection(uuid: string, components: seq<Component>)

  /** An ARGB colour applied to a list of components. */
  datatype Coloring = Coloring(uuid: string, color: string, components: seq<Component>)

  /** One visualisation state of a viewpoint. */
  datatype Components = Components(uuid: string, selection: seq<Selection>, visibility: Visibility, coloring: seq<Coloring>)

  /** A viewpoint with its derived file names and its base64 data-URL snapshot. */
  datatype Viewpoint = Viewpoint(uuid: string, viewpoint: string, snapshot: string, snapshotImage: string, index: int)

  datatype Comment = Comment(uuid: string, date: string, author: string, comment: Option<string>,
                             viewpoint: Option<string>, modifiedDate: Option<string>, modifiedAuthor: Option<string>)
}

/** The records the worker receives with a build request. */
module Worker {
  import opened Wrappers
  import opened Core

  /** The request header: which IFC file the topics belong to. */
  datatype Header = Header(ifcProject: Option<string>, ifcSpatialStructureElement: Option<string>, isExternal: Option<bool>,
                           fileName: Option<string>, date: Option<string>, reference: Option<string>)

  /**
   * A topic as the worker receives it, camera already in BCF space. The same record is the
   * builders' parameter object once the assembler has overridden `index` and added `header`;
   * `header` is absent on a topic as stored, and `screenshot` only exists on older topic shapes.
   */
  datatype TopicFolder = TopicFolder(
    uuid: string,
    title: string,
    description: Option<string>,
    index: int,
    creationDate: string,
    creationAuthor: string,
    modifiedDate: string,
    modifiedAuthor: string,
    topicType: string,
    topicStatus: string,
    dueDate: Option<string>,
    assignedTo: Option<string>,
    comments: Option<seq<Comment>>,
    viewpoints: seq<Viewpoint>,
    components: seq<Components>,
    cameraViewPoint: Vec3,
    cameraDirection: Vec3,
    cameraUpVector: Vec3,
    fieldOfView: real,
    aspectRatio: real,
    screenshot: Option<string>,
    header: Option<Header>)

  /** The `begin` message: the topics to export and the header shared by all of them. */
  datatype Request = Request(topics: seq<TopicFolder>, header: Header)

  /** The oldest topic shape: text, a screenshot and the three camera vectors; field of view and aspect ratio may be missing. */
  datatype WorkerTopic = WorkerTopic(title: string, description: string, screenshot: string,
                                     cameraViewPoint: Vec3, cameraDirection: Vec3, cameraUpVector: Vec3,
                                     fieldOfView: Option<real>, aspectRatio: Option<real>)
}
