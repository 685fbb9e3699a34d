# three-bcf export pipeline, modelled in Dafny

This project models the BCF export pipeline of three-bcf. The pipeline turns in-memory issue
records ("topics") into the files of a BCF-XML 3.0 archive (buildingSMART BCF-XML 3.0, sections
"BCF file structure", "Topic folder structure inside a BCFzip archive", "Markup (.bcf) file" and
"Visualization information (.bcfv) file"). It has five parts:

- **XML document builders.** These cover the version document (`bcf.version`), the markup
  documents (`markup.bcf`: `MarkupFactory`, `MarkupFactory_XML`, `Markup_XML`) and the
  visualisation documents (`.bcfv`: `ViewpointFactory_XML`, `Viewpoint_XML`).
  - Each is a total function from its record to an element tree (`Xml.Element`).
  - The tree has a name, ordered attributes, ordered children and text.
  - Each builder's contract reads back element order, defaults for missing fields, skipped
    components, and the GUIDs and file names it writes.
- **Archive assemblers.** These are `createZipAsync` and its two older variants (`three-bcf/zip.ts`,
  `worker/zip.ts`).
  - A JSZip object is the class `Archive.Zip`, which holds the ordered entry list; `file` on a
    path already present replaces that entry in place.
  - The calls an assembler makes form a ghost log, and its replay (`Archive.Replay`) equals the
    entry list after every iteration.
  - Each assembler is a method with a `for` loop over the topics.
  - It is proved against `Assembly.Run`, a specification of "run the per-topic steps in order,
    stop at the first failure".
  - The properties are:
    - the version entry comes first;
    - each topic's folder is named as the source names it;
    - only the first viewpoint is written;
    - failure is all-or-nothing.
- **Domain classes** (`src/three/*`: `Component`, `ViewSetupHints`, `Selection`, `Visibility`,
  `Coloring`, `Components`, `Viewpoint`, `TopicComment_Three`, `Topic_Three`).
  - They are Dafny classes whose fields the methods update in place.
  - Their `toJSON` is a function with a `reads` clause.
  - Their update-by-key and remove-by-key operations return `Result` with the "not found" error.
  - Their `fromJSON`/`toJSON` round trips are lemmas.
- **Topic-list reducers** of the example Redux slice (`createTopic`, `updateTopic`,
  `updateTopicIndex`, `removeTopic`, `selectTopic`, `deselectTopic`, `createBCF`).
  - The class `BcfSlice.BcfState` holds the slice's state.
  - Immer drafts give value semantics, so a reducer that throws leaves the state unchanged.
  - The invariant is `topics[i].index == i` with distinct uuids.
- **Small helpers:**
  - `dataURLtoBlob`, which splits a data URL (RFC 2397, section 3) and fills a byte array in a
    downward loop;
  - the camera axis remap `[x, y, z] -> [x, -z, y]` of `convertTopicCameraStateToBCFState`;
  - the zod schemas of topics and comments (`src/core/topic.ts`) as validity predicates.

Collaborators whose code is not part of this model are parameters of the functions that call
them:
- the worker schema's `parse`, a validity predicate;
- `atob`;
- vector normalisation;
- `generateUUID`, as a supply of fresh strings indexed by call number;
- `new Date()`, as a date string;
- the viewer queries (screenshot, selection, visibility, component state);
- the `BCF.THREE.Topic` class used by `createTopic` and `removeTopic`.

Modules follow the source files:

| module | source |
|---|---|
| `Xml`, `BcfXml`, `Records` (`Core`, `Worker`), `Wrappers`, `Lists`, `Sorting` | shared helpers |
| `BcfVersion`, `MarkupFactory`, `MarkupXml`, `CoreMarkup`, `ViewpointFactory`, `CoreViewpoint` | the XML builders |
| `Archive`, `Assembly`, `CreateZip`, `ThreeBcfZip`, `WorkerZip` | the archive and its assemblers |
| `ThreeComponent`, `ThreeViewSetupHints`, `ThreeSelection`, `ThreeVisibility`, `ThreeColoring`, `ThreeComponents`, `ThreeViewpoint`, `ThreeTopic` | `src/three/*` |
| `SliceComponents`, `SliceTopics`, `BcfSlice` | `example/react/state/bcfSlice.ts` |
| `Camera`, `DataUrl`, `Schema` | `BCFViewer.ts`, `src/worker/utils.ts`, `src/core/topic.ts` |

## Model

| member | source | states |
|---|---|---|
| Xml.Standalone | src/three-bcf/root/bcf.version.ts:24 | every document is declared as XML 1.0, UTF-8, standalone, around the given root |
| BcfVersion.Create | src/three-bcf/root/bcf.version.ts:23-31 | the version document is a childless `Version` root with exactly three attributes: the XML-Schema-instance namespace, `VersionId` 3.0 and the version.xsd location |
| BcfXml.MarkupRoot | src/three-bcf/bcf/MarkupFactory.ts:43-47 | a `Markup` root carries the given children, the instance namespace and the markup.xsd location |
| BcfXml.RequestHeaderElement | src/three-bcf/bcf/MarkupFactory.ts:49-64 | the `File` entry reads back the request header's project, `IsExternal` as `true`/`false` (default `true`), file name and date, each missing one as `''` |
| BcfXml.TopicFieldElements | src/three-bcf/bcf/MarkupFactory.ts:72-106 | a topic record yields exactly thirteen scalar field elements |
| BcfXml.TopicFieldNames | src/three-bcf/bcf/MarkupFactory.ts:72-106 | the scalar fields come in BCF order, `ReferenceLinks` to `RelatedTopics` |
| BcfXml.TopicFieldTexts | src/three-bcf/bcf/MarkupFactory.ts:74-106 | each field text is the record's value; `ModifiedAuthor` holds the modification date; missing assignee, description or due date give `''`; the link lists are empty |
| BcfXml.ModifiedAuthorHoldsDate | src/three-bcf/bcf/MarkupFactory.ts:91-92 | as written, `ModifiedAuthor` names the record's modifying author exactly when that author equals the modification date |
| BcfXml.IntendedModifiedAuthor | src/three-bcf/bcf/MarkupFactory.ts:88-93 | with the author written in its place, `ModifiedDate` and `ModifiedAuthor` read back the record's date and author, in BCF order, and every other field is as the source writes it |
| BcfXml.TopicElement | src/three-bcf/bcf/MarkupFactory.ts:66-71 | a `Topic` element reads back its Guid, type and status and holds the fields, then `Comments`, then `Viewpoints` |
| BcfXml.TopicElementChildren | src/three-bcf/bcf/MarkupFactory.ts:66-145 | a topic built from the thirteen fields lists all its children in BCF order |
| BcfXml.PerspectiveCameraReadBack | src/three-bcf/topic/viewpoint.ts:110-127 | the camera's children are view point, direction, up vector, field of view, aspect ratio, and each vector reads back with X, Y, Z as its entries 0, 1, 2 |
| MarkupFactory.CommentElement | src/three-bcf/bcf/MarkupFactory.ts:115-127 | a comment is written with its Guid, date, author, text (`''` when missing) and a reference to the given viewpoint Guid |
| MarkupFactory.CommentElements | src/three-bcf/bcf/MarkupFactory.ts:113-129 | one `Comment` element per comment, in the list's order |
| MarkupFactory.Markup | src/three-bcf/bcf/MarkupFactory.ts:40-149 | the markup succeeds exactly when a header and at least one viewpoint exist; a missing header fails reading `ifcProject`, a missing viewpoint fails reading `uuid`; on success the header is written from the request header |
| MarkupFactory.MarkupTopicAttributes | src/three-bcf/bcf/MarkupFactory.ts:66-71 | the written `Topic` carries the topic's uuid, type and status |
| MarkupFactory.MarkupTopic | src/three-bcf/bcf/MarkupFactory.ts:66-145 | the topic's children: the fields in BCF order, one comment per comment in order (none when the list is missing), and the first viewpoint as the only `ViewPoint`, with its own index or 0 |
| MarkupFactory.CommentsReferenceListedViewpoint | src/three-bcf/bcf/MarkupFactory.ts:110-133 | every written comment points at the viewpoint the `Viewpoints` element lists |
| MarkupFactory.WriteComments | src/three-bcf/bcf/MarkupFactory.ts:113-129 | the `forEach` over the comments produces `CommentElements` |
| MarkupFactory.Create | src/three-bcf/bcf/MarkupFactory.ts:40-149 | the builder's statements produce `Markup`, including its two failures |
| CoreMarkup.CoreHeader | src/core/xml/bcf/topic/markup.ts:47-58 | the fixed header names project `16ptFjkWnCdh4kqFvB0NRX`, external, file `0001` and its fixed date |
| CoreMarkup.CoreTopicChildren | src/core/xml/bcf/topic/markup.ts:64-109 | the topic's fourteen children come in this builder's order, which has no `DueDate` |
| CoreMarkup.CoreTopicTexts | src/core/xml/bcf/topic/markup.ts:66-89 | `Title` and `Description` hold the topic's texts, `Index` is always `1`, and the creation and modification dates and author are the fixed ones |
| CoreMarkup.CoreTopicPlaceholders | src/core/xml/bcf/topic/markup.ts:64-96 | `ReferenceLinks`, `Labels`, `AssignedTo`, `DocumentReferences`, `RelatedTopics` and `Comments` are empty: no attributes, children or text |
| CoreMarkup.CoreTopicViewPointIndex | src/core/xml/bcf/topic/markup.ts:97-109 | `Viewpoints` lists exactly one `ViewPoint`, whose children are `Viewpoint`, `Snapshot` and `Index`, the index always `0` |
| CoreMarkup.Create | src/core/xml/bcf/topic/markup.ts:40-114 | the document holds the fixed header and a `Topic` with the drawn topic Guid, `TopicType` `Error`, `TopicStatus` `Open`, and the children `CoreTopicChildren` describes for the topic's title and description |
| CoreMarkup.DependsOnTitleAndDescription | src/core/xml/bcf/topic/markup.ts:59-110 | for the same Guids, two topics give the same document exactly when their titles and descriptions agree |
| CoreMarkup.ListsViewpointFiles | src/core/xml/bcf/topic/markup.ts:97-109 | the listed `ViewPoint` names `<viewpointGuid>.bcfv` and `<viewpointGuid>.png` |
| MarkupXml.Create | src/three-bcf/topic/markup.ts:40-121 | the markup succeeds exactly when the parameters carry a header; otherwise reading `ifcProject` fails; the header is written from the request header |
| MarkupXml.TopicAttributes | src/three-bcf/topic/markup.ts:62-66 | the `Topic` carries the drawn topic Guid and the record's type and status |
| MarkupXml.TopicChildren | src/three-bcf/topic/markup.ts:67-117 | the fields in BCF order, an empty `Comments`, and one `ViewPoint` named from the viewpoint Guid with the topic's position as index |
| MarkupXml.AgreesWithMarkupFactory | src/three-bcf/topic/markup.ts:47-101 | whenever the worker's markup builder succeeds, this one does too and writes the same header and the same scalar fields, and with the topic's own uuid the same Guid, type and status |
| ViewpointFactory.OptionalText | src/three-bcf/topic/viewpoint.ts:54-56 | a child is written exactly when the optional text is truthy (present and not empty) |
| ViewpointFactory.ComponentElement | src/three-bcf/topic/viewpoint.ts:52-56 | a component reads back its IFC Guid; its `OriginatingSystem` and `AuthoringToolId` children are present exactly when those texts are truthy and hold the component's own texts |
| ViewpointFactory.ComponentElements | src/three-bcf/topic/viewpoint.ts:46-57 | no more elements than components |
| ViewpointFactory.KeptGuids | src/three-bcf/topic/viewpoint.ts:49-50 | the kept Guids are all non-empty and include every truthy IFC Guid of the list |
| ViewpointFactory.ComponentElementsReadBack | src/three-bcf/topic/viewpoint.ts:46-57 | reading the written components back gives exactly the non-empty IFC Guids in order: nothing without a Guid is written, nothing with one is dropped |
| ViewpointFactory.WriteComponentList | src/three-bcf/topic/viewpoint.ts:46-57 | the `forEach` with its early `return` produces `ComponentElements` |
| ViewpointFactory.VisibilityElement | src/three-bcf/topic/viewpoint.ts:67-84 | `Visibility` holds the hints then the exceptions, and the exceptions are the visibility's component elements |
| ViewpointFactory.VisibilityReadBack | src/three-bcf/topic/viewpoint.ts:68-74 | `DefaultVisibility` and the three hint attributes read back as the record's flags in `true`/`false` text |
| ViewpointFactory.ColoringElement | src/three-bcf/topic/viewpoint.ts:87-105 | `Coloring/Color` reads back the colour and holds the coloured components' elements |
| ViewpointFactory.SelectionElements | src/three-bcf/topic/viewpoint.ts:42-58 | one `Selection` element per selection |
| ViewpointFactory.ColoringElements | src/three-bcf/topic/viewpoint.ts:87-106 | one `Coloring` element per colouring |
| ViewpointFactory.SelectionElementsAt | src/three-bcf/topic/viewpoint.ts:42-58 | the k-th selection element is written from the k-th selection |
| ViewpointFactory.ColoringElementsAt | src/three-bcf/topic/viewpoint.ts:87-106 | the k-th colouring element is written from the k-th colouring |
| ViewpointFactory.ComponentsElements | src/three-bcf/topic/viewpoint.ts:37-107 | one `Components` element per component state |
| ViewpointFactory.ComponentsElementsAt | src/three-bcf/topic/viewpoint.ts:37-107 | the k-th `Components` element is written from the k-th component state |
| ViewpointFactory.VisualizationRoot | src/three-bcf/topic/viewpoint.ts:26-33 | the root carries exactly three attributes, reading back the XML-Schema-instance namespace, its Guid and the visinfo.xsd location, and holds the given children |
| ViewpointFactory.VisualizationInfo | src/three-bcf/topic/viewpoint.ts:25-33 | the `.bcfv` root carries the given Guid, or `''` when none is passed |
| ViewpointFactory.RootChildNames | src/three-bcf/topic/viewpoint.ts:37-130 | the root lists one `Components` per component state, then `PerspectiveCamera`, then `Bitmaps` last |
| ViewpointFactory.RootChildren | src/three-bcf/topic/viewpoint.ts:37-130 | the root's children are the component states' elements in order, the topic's camera and an empty `Bitmaps` |
| ViewpointFactory.ComponentsChildren | src/three-bcf/topic/viewpoint.ts:39-106 | inside `Components`: every selection, then exactly one visibility, then every colouring |
| ViewpointFactory.WriteSelections | src/three-bcf/topic/viewpoint.ts:42-58 | the selection loop produces `SelectionElements` |
| ViewpointFactory.WriteColorings | src/three-bcf/topic/viewpoint.ts:87-106 | the colouring loop produces `ColoringElements` |
| ViewpointFactory.WriteComponents | src/three-bcf/topic/viewpoint.ts:38-106 | one iteration of the outer loop writes selections, visibility and colourings in that order |
| ViewpointFactory.WriteAllComponents | src/three-bcf/topic/viewpoint.ts:37-107 | the outer `forEach` produces `ComponentsElements` |
| ViewpointFactory.Create | src/three-bcf/topic/viewpoint.ts:25-136 | the builder's statements produce `VisualizationInfo` |
| CoreViewpoint.NumberText | src/core/xml/bcf/topic/viewpoint.ts:75-76 | a number interpolates as itself; a missing one as `undefined` |
| CoreViewpoint.VisualizationInfo | src/core/xml/bcf/topic/viewpoint.ts:25-84 | the document carries the viewpoint Guid and lists `Components`, `PerspectiveCamera`, `Bitmaps`; the components block is fixed and `Bitmaps` empty |
| CoreViewpoint.FixedComponentsShape | src/core/xml/bcf/topic/viewpoint.ts:35-56 | the fixed block lists an empty selection, the visibility, then one colouring |
| CoreViewpoint.FixedVisibility | src/core/xml/bcf/topic/viewpoint.ts:41-48 | everything visible, the three hints off, no exceptions |
| CoreViewpoint.FixedColoring | src/core/xml/bcf/topic/viewpoint.ts:51-56 | colour `FF00FF00` on the single component `1Ryb8XgUj3gebyYvJGdU2O` |
| CoreViewpoint.CameraFromParameters | src/core/xml/bcf/topic/viewpoint.ts:59-76 | each camera vector reads back as given; field of view and aspect ratio are the given numbers or `undefined` |
| CoreViewpoint.Create | src/core/xml/bcf/topic/viewpoint.ts:25-85 | the builder's statements produce `VisualizationInfo` |
| DataUrl.Split | src/worker/utils.ts:8 | splitting on `,` gives at least one piece and no piece holds a comma |
| DataUrl.JoinSplit | src/worker/utils.ts:8 | rejoining the pieces with commas gives the URL back |
| DataUrl.SplitJoin | src/worker/utils.ts:8 | splitting comma-free pieces joined by commas gives the pieces back |
| DataUrl.CloseAt | src/worker/utils.ts:10 | the lazy `(.*?);` stops at the first `;` reached without a line terminator, and finds none exactly when no such `;` exists |
| DataUrl.MatchFromSound | src/worker/utils.ts:10 | the capture is the text after a `:` up to the next `;` without line terminators; no capture exactly when no `:` is followed by such a text |
| DataUrl.Bytes | src/worker/utils.ts:12-17 | one byte per character of the decoded string, its code modulo 256 |
| DataUrl.ToBlob | src/worker/utils.ts:7-20 | no media-type match fails reading `[1]` on the null match (`NullRead`); otherwise the blob exists exactly when `atob` accepts the payload (a rejected payload fails as `InvalidBase64`) and carries the matched media type and the payload's bytes |
| DataUrl.PayloadIsSecondPiece | src/worker/utils.ts:8-11 | `atob` receives the text between the first and second comma |
| DataUrl.DataUrlToBlob | src/worker/utils.ts:7-20 | the `while (n--)` loop filling the array from the end yields `ToBlob` |
| Schema.UuidHasNoSeparator | src/core/zod.ts:13 | a text that passes the UUID check holds neither `/` nor `,` |
| Schema.UuidTextIsUuid | src/core/zod.ts:13 | any 16 bytes written in the 8-4-4-4-12 hexadecimal form pass the UUID check |
| Schema.ParseComment | src/core/topic.ts:12-37 | a comment parses exactly when the comment schema accepts it, and the parsed comment's UUID fields are UUIDs |
| Schema.CommentJsonFields | src/core/topic.ts:12-37 | a comment's JSON holds uuid, date and author, and each optional key exactly when its field is present |
| Schema.CommentRoundTrip | src/core/topic.ts:12-37 | every valid comment written as JSON passes the schema and parses back to itself |
| Schema.SchemaAllowsBareComment | src/core/topic.ts:5-12 | the schema accepts a comment with neither text nor viewpoint, although the comment's documentation requires one of them |
| Schema.ParseComments | src/core/topic.ts:132 | a comment array parses element by element, in order |
| Schema.CommentsJson | src/core/topic.ts:132 | one JSON item per comment, in order |
| Schema.ParseTopic | src/core/topic.ts:56-133 | a topic parses exactly when the topic schema accepts it |
| Schema.ParsedTopicValid | src/core/zod.ts:13 | a parsed topic's UUID fields, its comments' included, are UUIDs |
| Schema.TopicIdentityFields | src/core/topic.ts:56-102 | a topic's JSON holds its uuid, title, index, type and status, and no description or comments among the required keys |
| Schema.TopicAuthoringFields | src/core/topic.ts:75-128 | a topic's JSON holds its creation and modification fields; due date and assignee are always present, `null` when missing |
| Schema.TopicOptionalFields | src/core/topic.ts:64-132 | the description reads back as given, the comments appear exactly when present, and every required key is kept |
| Schema.TopicRoundTrip | src/core/topic.ts:56-133 | every valid topic written as JSON passes the schema and parses back to itself |
| Lists.FirstIndex | src/worker/utils.ts:8 | the search `split(',')` makes for its first separator: -1 exactly when the text holds no comma, otherwise the position of the first one, with none before it |
| Lists.KeyIndex | src/three/Selection.ts:24-25 | `findIndex` by key returns -1 exactly when no element has the key, otherwise the first position holding it |
| Lists.ReplaceKeyed | src/three/Selection.ts:23-27 | the update throws the "not found" error exactly when no element has the key; otherwise only the first keyed element is replaced and the length is kept |
| Lists.RemoveKeyed | src/three/Selection.ts:29-33 | the removal throws exactly when no element has the key; otherwise exactly one element, the first keyed one, leaves, and the rest keep their order: those before it in place, those after it one position down, as `splice(i, 1)` leaves them |
| Lists.AppendThenRemove | src/three/Selection.ts:19-33 | removing by the key of a just-appended component with a fresh key gives back the list before the append |
| Lists.ReplaceIdempotent | src/three/Selection.ts:23-27 | repeating the same update changes nothing more |
| Lists.Filter | example/react/state/bcfSlice.ts:123-125 | the filter keeps no more elements than it is given |
| Lists.FilterMembers | example/react/state/bcfSlice.ts:123-125 | the filter keeps exactly the elements that satisfy the predicate |
| Lists.FilterAll | example/react/state/bcfSlice.ts:123-125 | a list whose every element passes filters to itself |
| Lists.FilterNone | example/react/state/bcfSlice.ts:123-125 | a list none of whose elements pass filters to the empty list |
| Lists.FilterSatisfies | example/react/state/bcfSlice.ts:123-125 | every kept element satisfies the predicate |
| Sorting.InsertBySorted | example/react/state/bcfSlice.ts:199 | inserting adds exactly the element and keeps a sorted list sorted |
| Sorting.SortBySorted | example/react/state/bcfSlice.ts:199 | sorting by index permutes the list into index order |
| Sorting.SortedUnique | example/react/state/bcfSlice.ts:199 | a sorted list with the same elements as a list indexed `k, k+1, ...` is that list |
| Sorting.SortByKeyed | example/react/state/bcfSlice.ts:199 | any permutation of a list indexed `0, 1, ...` sorts back to that list |
| ThreeComponent.Initial | src/three/Component.ts:16-21 | a new component holds the generated uuid and all three descriptive fields |
| ThreeComponent.Revive | src/three/Component.ts:41-43 | `fromJSON` on a new component keeps the JSON's uuid and leaves every field present |
| ThreeComponent.ReviveIgnoresGenerated | src/three/Component.ts:41-43 | the revived component does not depend on the uuid generated before `fromJSON` overwrote it |
| ThreeComponent.PatchKeeps | src/three/Component.ts:23-27 | `set` overwrites exactly the fields given non-null and keeps the uuid and every other field |
| ThreeComponent.ReviveRoundTrip | src/three/Component.ts:41-52 | `fromJSON` then `toJSON` gives the JSON back exactly when all its fields are present |
| ThreeComponent.ReviveAll | src/three/Selection.ts:37-41 | the revived list has one component per JSON component, each revived |
| ThreeComponent.ReviveAllRoundTrip | src/three/Selection.ts:37-47 | a list survives the round trip exactly when each of its components carries all fields |
| ThreeComponent.Component.ToJson | src/three/Component.ts:45-52 | `toJSON` returns the four stored fields, all present |
| ThreeComponent.Component.constructor | src/three/Component.ts:16-21 | the new object reads as `Initial` of the generated uuid |
| ThreeComponent.Component.Set | src/three/Component.ts:23-27 | the state becomes the patch of the old state by the non-null arguments |
| ThreeComponent.Component.SetIfcGuid | src/three/Component.ts:29-31 | only the IFC Guid changes |
| ThreeComponent.Component.SetOriginatingSystem | src/three/Component.ts:33-35 | only the originating system changes |
| ThreeComponent.Component.SetAuthoringToolId | src/three/Component.ts:37-39 | only the authoring tool id changes |
| ThreeComponent.Component.FromJson | src/three/Component.ts:41-43 | the uuid and every field present in the JSON are copied onto the old state |
| ThreeViewSetupHints.ViewSetupHints.ToJson | src/three/ViewSetupHints.ts:20-26 | `toJSON` returns the three stored flags |
| ThreeViewSetupHints.ViewSetupHints.constructor | src/three/ViewSetupHints.ts:10-14 | a new object shows spaces, space boundaries and openings |
| ThreeViewSetupHints.ViewSetupHints.FromJson | src/three/ViewSetupHints.ts:16-18 | after `fromJSON`, `toJSON` gives the input back |
| ThreeSelection.Revive | src/three/Selection.ts:35-42 | `fromJSON` keeps the uuid and revives every component |
| ThreeSelection.ReviveRoundTrip | src/three/Selection.ts:35-49 | the round trip reproduces the input exactly when each component carries all fields |
| ThreeSelection.Selection.ToJson | src/three/Selection.ts:44-49 | `toJSON` returns the uuid and the components as held |
| ThreeSelection.Selection.constructor | src/three/Selection.ts:14-17 | a new selection has the generated uuid and no components |
| ThreeSelection.Selection.AddComponent | src/three/Selection.ts:19-21 | the component goes last and nothing else changes |
| ThreeSelection.Selection.UpdateComponent | src/three/Selection.ts:23-27 | the first component with the same IFC Guid is replaced, or the call throws "Component not found" and changes nothing |
| ThreeSelection.Selection.RemoveComponent | src/three/Selection.ts:29-33 | the first component with the IFC Guid is removed, or the call throws and changes nothing |
| ThreeSelection.Selection.FromJson | src/three/Selection.ts:35-42 | the state becomes `Revive` of the JSON |
| ThreeVisibility.Initial | src/three/Visibility.ts:15-20 | a new visibility has no exceptions, is visible by default and has all hints on |
| ThreeVisibility.Revive | src/three/Visibility.ts:38-48 | `fromJSON` revives the exceptions and copies the uuid, the default and the hints |
| ThreeVisibility.ReviveRoundTrip | src/three/Visibility.ts:38-57 | the round trip reproduces the input exactly when each exception carries all fields |
| ThreeVisibility.Visibility.ToJson | src/three/Visibility.ts:50-57 | `toJSON` returns the four fields, the hints through their own `toJSON` |
| ThreeVisibility.Visibility.constructor | src/three/Visibility.ts:15-20 | the new object reads as `Initial` and owns a fresh hints object |
| ThreeVisibility.Visibility.AddComponent | src/three/Visibility.ts:22-24 | the exception goes last and nothing else changes |
| ThreeVisibility.Visibility.UpdateComponent | src/three/Visibility.ts:26-30 | the first exception with the same IFC Guid is replaced, or the call throws and changes nothing |
| ThreeVisibility.Visibility.RemoveComponent | src/three/Visibility.ts:32-36 | the first exception with the IFC Guid is removed, or the call throws and changes nothing |
| ThreeVisibility.Visibility.FromJson | src/three/Visibility.ts:38-48 | the state becomes `Revive` of the JSON, with a fresh hints object |
| ThreeColoring.ChannelsAreArgb | src/three/Coloring.ts:17 | three or four channel bytes in hex form a colour the pattern accepts |
| ThreeColoring.Validated | src/three/Coloring.ts:45-50 | the colour is accepted exactly when it has six or eight hex digits, otherwise "Invalid color format" |
| ThreeColoring.SetColorKeepsValid | src/three/Coloring.ts:25-50 | a stored colour that is empty or valid stays so under `setColor` |
| ThreeColoring.Revive | src/three/Coloring.ts:68-76 | `fromJSON` copies the colour without the pattern check and revives the components |
| ThreeColoring.ReviveRoundTrip | src/three/Coloring.ts:68-84 | the round trip reproduces the input, invalid colours included, exactly when each component carries all fields |
| ThreeColoring.Coloring.ToJson | src/three/Coloring.ts:78-84 | `toJSON` returns the uuid, colour and components as held |
| ThreeColoring.Coloring.constructor | src/three/Coloring.ts:25-29 | a new colouring has the generated uuid, no colour and no components |
| ThreeColoring.Coloring.SetColor | src/three/Coloring.ts:45-50 | a valid colour is stored; an invalid one throws and changes nothing |
| ThreeColoring.Coloring.AddComponent | src/three/Coloring.ts:52-54 | the component goes last and nothing else changes |
| ThreeColoring.Coloring.UpdateComponent | src/three/Coloring.ts:56-60 | the first component with the same IFC Guid is replaced, or the call throws and changes nothing |
| ThreeColoring.Coloring.RemoveComponent | src/three/Coloring.ts:62-66 | the first component with the IFC Guid is removed, or the call throws and changes nothing |
| ThreeColoring.Coloring.FromJson | src/three/Coloring.ts:68-76 | the state becomes `Revive` of the JSON |
| ThreeComponents.ReviveSelections | src/three/Components.ts:38-42 | one revived selection per JSON selection, in order |
| ThreeComponents.ReviveColorings | src/three/Components.ts:45-49 | one revived colouring per JSON colouring, in order |
| ThreeComponents.Revive | src/three/Components.ts:36-50 | `fromJSON` keeps the uuid and revives the selections, the visibility and the colourings |
| ThreeComponents.ReviveRoundTrip | src/three/Components.ts:27-50 | the round trip reproduces the input exactly when every nested component carries all fields |
| ThreeComponents.Components.ToJson | src/three/Components.ts:27-34 | `toJSON` returns the uuid, selections, visibility and colourings as held |
| ThreeComponents.Components.constructor | src/three/Components.ts:20-25 | a new object has no selections or colourings and a new default visibility |
| ThreeComponents.Components.FromJson | src/three/Components.ts:36-50 | the state becomes `Revive` of the JSON |
| ThreeComponents.Components.AddColoring | src/three/Components.ts:52-54 | the colouring goes last and nothing else changes |
| ThreeComponents.Components.UpdateColoring | src/three/Components.ts:56-60 | the first colouring with the same uuid is replaced, or the call throws "Coloring not found" and changes nothing |
| ThreeComponents.Components.RemoveColoring | src/three/Components.ts:62-66 | the first colouring with the argument's uuid is removed, or the call throws and changes nothing |
| ThreeComponents.Components.AddSelection | src/three/Components.ts:68-70 | the selection goes last and nothing else changes |
| ThreeComponents.Components.UpdateSelection | src/three/Components.ts:72-76 | the first selection with the same uuid is replaced, or the call throws "Selection not found" and changes nothing |
| ThreeComponents.Components.RemoveSelection | src/three/Components.ts:78-82 | the first selection with the uuid is removed, or the call throws and changes nothing |
| ThreeComponents.Components.AddVisibility | src/three/Components.ts:84-86 | only the visibility changes, to the one given |
| ThreeComponents.Components.UpdateVisibility | src/three/Components.ts:88-90 | only the visibility changes, to the one given |
| ThreeComponents.Components.RemoveVisibility | src/three/Components.ts:92-94 | only the visibility changes, back to a new default one |
| ThreeViewpoint.Initial | src/three/Viewpoint.ts:14-20 | a new viewpoint's file names are `<uuid>.bcfv` and `<uuid>.png`, its image the one given or `''`, its index 0 |
| ThreeViewpoint.DerivedNamesDiffer | src/three/Viewpoint.ts:16-17 | the two derived file names of a viewpoint differ |
| ThreeViewpoint.Viewpoint.ToJson | src/three/Viewpoint.ts:30-38 | `toJSON` returns the five stored fields |
| ThreeViewpoint.Viewpoint.constructor | src/three/Viewpoint.ts:14-20 | the new object reads as `Initial` |
| ThreeViewpoint.Viewpoint.SetSnapshotImage | src/three/Viewpoint.ts:22-24 | only the image changes, so derived names stay derived |
| ThreeViewpoint.Viewpoint.FromJson | src/three/Viewpoint.ts:26-28 | after `fromJSON`, `toJSON` gives the input back; names are not re-derived |
| ThreeViewpoint.AssignComment | src/three/Viewpoint.ts:68-70 | the required fields are copied and each optional field only when the JSON carries it |
| ThreeViewpoint.CommentJson | src/three/Viewpoint.ts:72-83 | a comment's JSON is its stored fields except that `viewpoint` is the comment's own uuid |
| ThreeViewpoint.CommentJsonPassesSchema | src/three/Viewpoint.ts:78-79 | once the uuid is a UUID, the comment's JSON passes the comment schema whatever viewpoint it stores |
| ThreeViewpoint.CommentRoundTrip | src/three/Viewpoint.ts:68-83 | `fromJSON` of a comment's own JSON gives it back exactly when its viewpoint already was its uuid |
| ThreeViewpoint.StoredViewpointFailsSchema | src/three/Viewpoint.ts:56-66 | a new comment's stored viewpoint `''` would fail the schema if written as stored |
| ThreeViewpoint.TopicComment.ToJson | src/three/Viewpoint.ts:72-83 | `toJSON` is `CommentJson` of the stored fields |
| ThreeViewpoint.TopicComment.constructor | src/three/Viewpoint.ts:56-66 | a new comment has an empty author, the given text and viewpoint or `''`, and empty modification fields |
| ThreeViewpoint.TopicComment.FromJson | src/three/Viewpoint.ts:68-70 | the state becomes `AssignComment` of the old state and the JSON |
| ThreeTopic.Check | src/three/topic.ts:183-199 | the checks pass exactly when all eight checked fields are non-null; otherwise the first null one in source order is reported with the source's message, including "position is null" for the target and "index is null" for the creation date |
| ThreeTopic.Lift | src/three/topic.ts:112-128 | a record with every field present passes the checks |
| ThreeTopic.Get | src/three/topic.ts:112-129 | `get` succeeds exactly when the description is non-null and then returns the stored fields; otherwise it throws "description is null" |
| ThreeTopic.AfterSet | src/three/topic.ts:103-106 | `set` throws exactly when the checks fail, with their message, and then changes nothing |
| ThreeTopic.SetThenGet | src/three/topic.ts:103-129 | after a successful `set`, `get` succeeds and returns every value set |
| ThreeTopic.AfterFromJson | src/three/topic.ts:161-178 | `fromJSON` throws "json is null", then "uuid is null", then as the checks; on success it keeps the screenshot, creation date and creation author |
| ThreeTopic.FromOwnJson | src/three/topic.ts:139-178 | reading a valid topic's own JSON back changes nothing |
| ThreeTopic.ValidThroughout | src/three/topic.ts:86-178 | successful `set` and `fromJSON` keep the topic readable by `get` |
| ThreeTopic.Topic.constructor | src/three/topic.ts:86-98 | a new topic holds the generated uuid, index 0, the default vectors and empty texts, and is readable |
| ThreeTopic.Topic.Set | src/three/topic.ts:103-106 | the state follows `AfterSet`: assigned on success, unchanged when the checks throw |
| ThreeTopic.Topic.SetScreenshot | src/three/topic.ts:131-134 | only the screenshot changes |
| ThreeTopic.Topic.ToJson | src/three/topic.ts:139-156 | `toJSON` returns what `get` returns, the same record or the same exception |
| ThreeTopic.Topic.FromJson | src/three/topic.ts:161-178 | the state follows `AfterFromJson`: updated on success, unchanged when it throws |
| SliceComponents.HighlightIsArgb | example/react/state/bcfSlice.ts:95 | the colour `FF00FF00` passes `setColor`'s check, so that call never throws |
| SliceComponents.ExceptionsMembers | example/react/state/bcfSlice.ts:123-125 | an object is an exception exactly when it is visible by default and not visible now |
| SliceComponents.ExceptionsExtremes | example/react/state/bcfSlice.ts:123-125 | with nothing hidden there are no exceptions; with nothing visible every default object is one |
| SliceComponents.NewComponentFields | example/react/state/bcfSlice.ts:103-110 | a new component carries the object's IFC Guid, originating system and authoring tool id where it has them, `''` elsewhere, and the uuid it drew |
| SliceComponents.MadeKnown | example/react/state/bcfSlice.ts:100-114 | one component per id with a state, in order, the j-th drawing the j-th uuid and carrying that id's state; ids without a state are skipped |
| SliceComponents.BuiltFails | example/react/state/bcfSlice.ts:123-129 | the build throws exactly when there are exceptions and no component states, as indexing the missing map does |
| SliceComponents.BuiltOk | example/react/state/bcfSlice.ts:84-140 | a build that does not throw yields one selection, one visibility and one colouring with the uuids drawn in creation order |
| SliceComponents.BuiltShape | example/react/state/bcfSlice.ts:84-140 | the selection and the colouring hold the same components, one per selected object with a state; the colour is valid; the visibility holds one component per exception with a state |
| SliceComponents.MakeComponent | example/react/state/bcfSlice.ts:103-110 | a fresh component holding `NewComponent` of the drawn uuid and the state |
| SliceComponents.PushBoth | example/react/state/bcfSlice.ts:112-113 | the same new component goes last in both the selection and the colouring, nothing else changes |
| SliceComponents.SelectKnown | example/react/state/bcfSlice.ts:99-115 | after the selection loop both lists hold exactly the components `Made` for the selected objects |
| SliceComponents.HideKnown | example/react/state/bcfSlice.ts:127-138 | after the exceptions loop the visibility holds exactly the components `Made` for the exceptions |
| SliceComponents.SelectionAndColoring | example/react/state/bcfSlice.ts:89-115 | a fresh selection and a fresh green colouring drawing uuids 2 and 3, holding the chosen components |
| SliceComponents.NewVisibility | example/react/state/bcfSlice.ts:119-138 | a fresh visibility, visible by default with all hints on, holding the hidden objects' components |
| SliceComponents.Build | example/react/state/bcfSlice.ts:84-140 | the statements of `createTopic`'s component part produce `Built` |
| SliceTopics.ShiftOthers | example/react/state/bcfSlice.ts:188-196 | every topic with another uuid is shifted: indices in `[newIndex, oldIndex)` up by one, in `(oldIndex, newIndex]` down by one; the moved topic is skipped |
| SliceTopics.Reorder | example/react/state/bcfSlice.ts:177-200 | reading a missing topic at `oldIndex` throws; otherwise the result is the shifted list sorted by index |
| SliceTopics.MovedShape | example/react/state/bcfSlice.ts:171-176 | the intended move keeps the list indexed, puts the moved topic at `newIndex` and keeps the others, apart from their indices, in their order |
| SliceTopics.ShiftedIsMoved | example/react/state/bcfSlice.ts:184-196 | on an indexed list with distinct uuids the shifted list holds exactly the topics of the intended move |
| SliceTopics.ReorderMoves | example/react/state/bcfSlice.ts:177-200 | on an indexed list with distinct uuids `updateTopicIndex` performs the intended move, keeps the list indexed, and changes nothing when the two indices agree |
| SliceTopics.MovedDistinct | example/react/state/bcfSlice.ts:177-200 | a move keeps the uuids distinct |
| SliceTopics.SpliceStart | example/react/state/bcfSlice.ts:209 | `splice` starts within the list: a negative index counts from the end, one past the end removes nothing |
| SliceTopics.Splice | example/react/state/bcfSlice.ts:209 | `splice(index, 1)` removes the element at its start position, or nothing when that is the end |
| SliceTopics.RewriteFromKeepsPrefix | example/react/state/bcfSlice.ts:211-217 | a loop that completes keeps the length and never touches the topics before its start |
| SliceTopics.RewriteFromFaithful | example/react/state/bcfSlice.ts:211-217 | with a round trip that gives back what it reads, the loop only lowers the indices from its start on |
| SliceTopics.Remove | example/react/state/bcfSlice.ts:201-206 | the intended removal: one topic shorter, earlier topics kept, later ones with their index lowered by one |
| SliceTopics.RemoveIndexed | example/react/state/bcfSlice.ts:201-206 | the intended removal keeps the list indexed |
| SliceTopics.RemoveKeepsEarlier | example/react/state/bcfSlice.ts:207-218 | whatever the round trip does, a completed removal is one shorter and keeps the topics before the removed one |
| SliceTopics.RemoveAsWrittenIsRemove | example/react/state/bcfSlice.ts:207-218 | with a faithful round trip `removeTopic` as written is the intended removal and keeps the list indexed |
| SliceTopics.RemoveDistinct | example/react/state/bcfSlice.ts:207-218 | the removal keeps the uuids distinct |
| BcfSlice.TouchedSets | example/react/state/bcfSlice.ts:160-169 | an edit sets the key to the value and the modified date to the date; every other key, the uuid, the index and the camera are unchanged |
| BcfSlice.CreatedKeepsValid | example/react/state/bcfSlice.ts:76-77 | a created topic with a new uuid is appended last with the old length as index, earlier topics are untouched, the list stays valid and the selection points at the new topic |
| BcfSlice.UpdatedByUuidEditsSelected | example/react/state/bcfSlice.ts:153-170 | the intended update fails exactly when nothing is selected or no topic has the selected uuid; otherwise it edits that topic, leaves every other one alone, keeps the length and keeps the list valid |
| BcfSlice.UpdateAgreesWhenCoherent | example/react/state/bcfSlice.ts:153-170 | while the selection is coherent, the update as written is the intended one and keeps the slice valid and coherent |
| BcfSlice.ReorderKeepsValid | example/react/state/bcfSlice.ts:177-200 | reordering a valid list performs the intended move, keeps the selection as it was and keeps the list valid |
| BcfSlice.RemovedKeepsValid | example/react/state/bcfSlice.ts:207-218 | with a faithful round trip, removing from a valid list is the intended removal and keeps the list valid |
| BcfSlice.SelectedCoherent | example/react/state/bcfSlice.ts:224-234 | selecting or deselecting always leaves a coherent selection, and a topic is selected exactly when one sits at the position |
| BcfSlice.StaleSelectionEditsOtherTopic | example/react/state/bcfSlice.ts:156-164 | after a valid reorder the selection is stale, and the update as written edits another topic than the selected one, while the intended update edits the selected one |
| BcfSlice.ToWorker | example/react/state/bcfSlice.ts:313-359 | each worker topic copies the stored fields, carries the camera converted to BCF axes, and has no screenshot and no header of its own |
| BcfSlice.ExportShape | example/react/state/bcfSlice.ts:312-373 | the export succeeds exactly when every topic has every key; a missing list makes it fail as `JSON.parse` does; on success one worker topic per stored topic, in order, with the constant header |
| BcfSlice.ExportKeepsOrder | example/react/state/bcfSlice.ts:313-360 | a valid list exports to worker topics indexed by position with distinct uuids |
| BcfSlice.BcfState.constructor | example/react/state/bcfSlice.ts:25-29 | the initial state has no topics, nothing selected, and is valid and coherent |
| BcfSlice.BcfState.CreateTopic | example/react/state/bcfSlice.ts:49-147 | when the component build throws nothing changes; otherwise the attached topic is appended with the next index and selected |
| BcfSlice.BcfState.UpdateTopic | example/react/state/bcfSlice.ts:153-170 | the state follows `Updated`: edited on success, unchanged when the reducer throws |
| BcfSlice.BcfState.UpdateTopicIndex | example/react/state/bcfSlice.ts:177-200 | the state follows `Reordered`: the loop shifts the other topics and the list is sorted, or nothing changes when the topic is missing |
| BcfSlice.BcfState.RemoveTopic | example/react/state/bcfSlice.ts:207-218 | the state follows `Removed`: splice then the rewriting loop, or nothing changes when the round trip throws |
| BcfSlice.BcfState.SelectTopic | example/react/state/bcfSlice.ts:224-227 | the selection becomes the topic at the position, or `null` where there is none |
| BcfSlice.BcfState.DeselectTopic | example/react/state/bcfSlice.ts:232-234 | the selection becomes `null` and the list is unchanged |
| Camera.ToBcfAxes | example/viewer/BCFViewer.ts:64-68 | the remap `[x, y, z] -> [x, -z, y]` loses nothing: `FromBcfAxes` undoes it |
| Camera.ToBcfAxesOnto | example/viewer/BCFViewer.ts:64-68 | every BCF vector is the remap of some three.js vector |
| Camera.Convert | example/viewer/BCFViewer.ts:54-71 | direction and position come back unchanged through `FromBcfAxes`, and the up vector is the remapped normalised offset from position to target |
| Camera.ConvertIgnoresLens | example/viewer/BCFViewer.ts:54-71 | field of view and aspect ratio play no part in the conversion |
| Camera.ConvertKeepsPose | example/viewer/BCFViewer.ts:64-66 | two cameras that convert alike agree on position and direction |
| Camera.UpFromOffset | example/viewer/BCFViewer.ts:57-62 | the up vector depends on the target only through its offset from the position |
| Archive.PathsAppend | src/three-bcf/zip/createZipAsync.ts:21 | appending an entry appends its path |
| Archive.LookupPaths | src/three-bcf/zip/createZipAsync.ts:21 | a path reads back something exactly when an entry is stored under it |
| Archive.PutPaths | src/three-bcf/zip/createZipAsync.ts:42-51 | `file` keeps the order of the stored paths and appends a path only when it is new |
| Archive.PutLookup | src/three-bcf/zip/createZipAsync.ts:42-51 | after `file`, the path reads back the new content and every other path reads back as before |
| Archive.LookupAppend | src/three-bcf/zip/createZipAsync.ts:21 | an entry appended last is read back only under a path no earlier entry holds |
| Archive.AddFolderLookup | src/three-bcf/zip/createZipAsync.ts:36 | `folder` makes its name read back as a directory when nothing was stored there, and changes nothing else |
| Archive.Zip.constructor | src/three-bcf/zip/createZipAsync.ts:20 | a new archive holds no entries |
| Archive.Zip.File | src/three-bcf/zip/createZipAsync.ts:21 | the entries become `Put` of the old entries |
| Archive.Zip.Folder | src/three-bcf/zip/createZipAsync.ts:36-37 | the sub-folder writes under `name/`, and the entries become `AddFolder` of the old ones |
| Archive.ReplayStored | src/three-bcf/zip/createZipAsync.ts:20-52 | after any sequence of calls, each path reads back the content of the last `file` call on it, or a directory when only `folder` named it |
| Archive.ReplayDistinct | src/three-bcf/zip/createZipAsync.ts:20-52 | however the calls repeat paths, the archive never holds two entries under one path |
| Archive.ReplayKeepsFirst | src/three-bcf/zip/createZipAsync.ts:21 | the first file written stays the first entry as long as no later call writes its path |
| Archive.LaterFoldersUntouched | src/three-bcf/zip/createZipAsync.ts:36-51 | when no later topic shares topic i's folder and folder names hold no `/`, what is stored inside topic i's folder is what topic i's own calls left |
| Archive.HeadStaysFirst | src/three-bcf/zip/createZipAsync.ts:21 | the version file written before the loop stays the archive's first entry |
| Assembly.ErrorPersists | src/three-bcf/zip/createZipAsync.ts:23-52 | once a prefix of the topics fails, the whole build fails with the same error |
| Assembly.RunOk | src/three-bcf/zip/createZipAsync.ts:21-52 | the calls succeed exactly when every iteration does, and then start with the version file |
| Assembly.FirstFailureDecides | src/three-bcf/zip/createZipAsync.ts:23-52 | the first iteration that throws decides the error |
| Assembly.RunBlock | src/three-bcf/zip/createZipAsync.ts:23-52 | with four calls per iteration, topic k's calls are the four from position 1 + 4k |
| CreateZip.Params | src/three-bcf/zip/createZipAsync.ts:30-34 | the builders' parameters are the topic with its position as index and the request's header |
| CreateZip.CurrentMarkupNeedsViewpoint | src/three-bcf/bcf/MarkupFactory.ts:110-133 | the markup builder this assembler uses fails on a topic without a viewpoint |
| CreateZip.TopicWritesOk | src/three-bcf/zip/createZipAsync.ts:24-51 | an iteration succeeds exactly when the topic passes the schema, its snapshot decodes and its markup builds, and then makes four calls inside the folder named by the topic's uuid |
| CreateZip.CurrentTopicOk | src/three-bcf/zip/createZipAsync.ts:24-51 | with the source's builders a topic gets through exactly when it passes the schema, has a viewpoint and that snapshot decodes; with no viewpoint the markup builder fails reading `uuid` |
| CreateZip.WritesOk | src/three-bcf/zip/createZipAsync.ts:19-52 | the build succeeds exactly when every topic gets through, and its calls start with the version file |
| CreateZip.FirstFailure | src/three-bcf/zip/createZipAsync.ts:23-52 | the first topic that does not get through decides the error the build reports |
| CreateZip.WritesInFolders | src/three-bcf/zip/createZipAsync.ts:36-51 | every iteration makes four calls, all inside the topic's uuid folder |
| CreateZip.TopicFiles | src/three-bcf/zip/createZipAsync.ts:36-51 | topic k's calls: its folder, the decoded snapshot and the `.bcfv` document under the names its first viewpoint carries, the `.bcfv` with the viewpoint's uuid as Guid, then the markup |
| CreateZip.VersionEntryFirst | src/three-bcf/zip/createZipAsync.ts:20-21 | a built archive starts with `bcf.version` holding the version document |
| CreateZip.MarkupEntry | src/three-bcf/zip/createZipAsync.ts:36-51 | in a built archive `<uuid>/markup.bcf` holds topic i's markup unless a later topic repeats its uuid |
| CreateZip.MarkupMatchesFiles | src/three-bcf/zip/createZipAsync.ts:30-51 | the markup indexes the topic by its position, carries the request's header, and its `ViewPoint` names the Guid and both file names written beside it |
| CreateZip.AddTopic | src/three-bcf/zip/createZipAsync.ts:24-51 | one iteration fails exactly when `TopicWrites` does, with its error, and otherwise leaves the entries its calls leave |
| CreateZip.CreateZipAsync | src/three-bcf/zip/createZipAsync.ts:19-56 | the version file then the topics in order yield `Build`, or the first failure |
| ThreeBcfZip.Screenshot | src/three-bcf/zip.ts:37 | a topic without a screenshot fails reading `split` of `undefined`; otherwise the data-URL decoding decides |
| ThreeBcfZip.TopicWritesOk | src/three-bcf/zip.ts:21-41 | an iteration succeeds exactly when the topic passes the schema, its screenshot decodes and its markup builds, and then makes four calls inside the topic Guid's folder |
| ThreeBcfZip.CurrentTopicOk | src/three-bcf/zip.ts:21-41 | with the source's builders a topic gets through exactly when it passes the schema, carries a decodable screenshot and carries a header |
| ThreeBcfZip.WritesOk | src/three-bcf/zip.ts:16-42 | the build succeeds exactly when every topic gets through |
| ThreeBcfZip.FirstFailure | src/three-bcf/zip.ts:20-42 | the first topic that does not get through decides the error |
| ThreeBcfZip.WritesInFolders | src/three-bcf/zip.ts:35-41 | every iteration makes four calls, all inside the folder named by its topic Guid |
| ThreeBcfZip.TopicFiles | src/three-bcf/zip.ts:25-41 | topic k's calls: the folder named by its topic Guid, then the screenshot and `.bcfv` named by its viewpoint Guid, then the markup indexing the topic by its position |
| ThreeBcfZip.VersionEntryFirst | src/three-bcf/zip.ts:17-18 | a built archive starts with the version file |
| ThreeBcfZip.MarkupEntry | src/three-bcf/zip.ts:35-41 | `<topicGuid>/markup.bcf` holds topic i's markup when no later topic Guid repeats it |
| ThreeBcfZip.MarkupNamesFiles | src/three-bcf/zip.ts:25-41 | the markup's `ViewPoint` carries the viewpoint Guid and names `<viewpointGuid>.bcfv` and `<viewpointGuid>.png`, and its `Topic` carries the folder's Guid |
| ThreeBcfZip.BcfvGuidEmpty | src/three-bcf/zip.ts:40 | as written, every `.bcfv` document carries the empty Guid, which never matches the non-empty viewpoint Guid the markup refers to |
| ThreeBcfZip.CorrectedBcfvGuid | src/three-bcf/zip.ts:40 | with the viewpoint Guid passed on, the `.bcfv` document carries the Guid its markup refers to |
| ThreeBcfZip.AddTopic | src/three-bcf/zip.ts:21-41 | one iteration fails exactly when `TopicWrites` does, with its error, and otherwise leaves the entries its calls leave |
| ThreeBcfZip.CreateZipAsync | src/three-bcf/zip.ts:16-46 | the version file then the topics in order yield `Build`, or the first failure |
| WorkerZip.TopicWritesOk | src/worker/zip.ts:18-36 | an iteration succeeds exactly when the topic passes the schema and its screenshot decodes, the schema failure first; it then makes four calls inside the topic Guid's folder |
| WorkerZip.WritesOk | src/worker/zip.ts:13-37 | the build succeeds exactly when every topic gets through |
| WorkerZip.FirstFailure | src/worker/zip.ts:17-37 | the first topic that does not get through decides the error |
| WorkerZip.WritesInFolders | src/worker/zip.ts:30-36 | every iteration makes four calls, all inside the folder named by its topic Guid |
| WorkerZip.TopicFiles | src/worker/zip.ts:22-36 | topic k's calls: the folder named by its topic Guid, then the screenshot, the `.bcfv` and the markup, the first two named by its viewpoint Guid |
| WorkerZip.VersionEntryFirst | src/worker/zip.ts:14-15 | a built archive starts with the version file |
| WorkerZip.MarkupEntry | src/worker/zip.ts:30-36 | `<topicGuid>/markup.bcf` holds topic i's markup when no later topic Guid repeats it |
| WorkerZip.GuidsAgree | src/worker/zip.ts:22-36 | the `.bcfv` document and the markup's `ViewPoint` carry the same viewpoint Guid, and the `ViewPoint` names the two files written beside it |
| WorkerZip.AddTopic | src/worker/zip.ts:18-36 | one iteration fails exactly when `TopicWrites` does, with its error, and otherwise leaves the entries its calls leave |
| WorkerZip.CreateZipAsync | src/worker/zip.ts:13-41 | the version file then the topics in order yield `Build`, or the first failure |

## Left out

- JSZip's `generateAsync` and compression are left out: the archive is the ordered log of entries, not its bytes. JSZip's implicit parent-folder creation for nested paths and its path normalisation are left out; `folder` adds its `name/` directory entry (`Archive.AddFolder`).
- The `topicFolder === null` checks in the assemblers are left out because `zip.folder` never returns null for a fresh name. The `console.log` call in `createZipAsync` is output only.
- xmlbuilder2 text serialisation, escaping, pretty-printing and number-to-text formatting are left out. Documents are element trees, and camera numbers are `real` values in a `Decimal` text node.
- `atob` (base64 decoding) is a parameter. `InvalidCharacterError` is modelled as its `None`.
- The worker schemas `TopicFolderSchema_Worker` and `TopicSchema_Worker` are not part of this model, so `parse` is a predicate parameter. A topic it rejects aborts the build.
- zod's regular-expression engine is left out. The RFC 4122 section 3 textual UUID form is written out as a predicate on characters.
- `THREE.MathUtils.generateUUID` is a supply function from call number to string, and `new Date()` is a date-string parameter.
- Vector normalisation is the `normalize` parameter, and floating point is modelled by `real`. Non-finite camera values are not modelled.
- `BCF.THREE.Topic` is not part of this model. `createTopic`'s `set`/`addViewpoint`/`addComponents`/`toJSON` chain is the `attach` parameter, and `removeTopic`'s `fromJSON`/`toJSON` round trip is the `revive` parameter.
- The comment reducers `addTopicComment`, `updateTopicComment` and `removeTopicComment` are left out because they delegate to that hidden class. `setIFCSomething` is also left out; it writes a field no other reducer reads.
- The viewer calls `generateScreenshot`, `getSelection`, `getVisibility`, `getDefaultVisibility`, `componentState` and `getTopicCameraState` are parameters of `createTopic`.
- Objects inside containers are modelled as values where the source shares references. A component object that is held in two lists and mutated through one is not modelled (aliasing).
- `updateTopic` takes one of the six keys the issue form sends (title, description, topicStatus, topicType, dueDate, assignedTo), not an arbitrary key.
- `ViewpointFactory` and `VersionFactory`, imported by `src/three-bcf/zip/createZipAsync.ts`, are not part of this model. `CreateZip.Current` uses `ViewpointFactory_XML` and `BCFVersionFactory_XML` in their place, since they have the same signatures.
- The version module imported by `src/worker/zip.ts` (`core/xml/bcf/root/bcf.version`) is not part of this model, so its document is the `version` field of `WorkerZip.Builders`.
- `Array.prototype.sort` in `updateTopicIndex` is modelled by a stable insertion sort (`Sorting.SortBy`), which is what ECMAScript requires of `sort` since ES2019.
- `src/core/bcf/topic/viewpoint.ts` (a constant document), `src/core/three/dev.ts` and `src/three/dev.ts` (`JSON.stringify`/`JSON.parse` scaffolding) are left out. The declarative schema files appear only as the datatypes in `Records`.
- A topic without a `viewpoints` array is not modelled: every topic record holds a sequence. In the source, `const [viewpoint] = viewpoints` (src/three-bcf/zip/createZipAsync.ts:25-26) runs before the schema check, so such a topic would throw a `TypeError` there rather than fail `parse`.
- Transport, rendering and UI are left out: the worker message switch, `postMessage`, `saveAs`, the viewer and the React components.
- ThreeTopic.AfterSet: treats a null `uuid` in `params` like an absent key, so the old uuid is kept. In the source the key is required as `string | null` (`Nullable<ThreeTopicBase>`), `Object.assign` copies an explicit `null` (src/three/topic.ts:105), and `get` then returns the null uuid unchecked. The state keeps its uuid a plain string instead; the only visible caller (example/react/state/bcfSlice.ts:57-74) leaves `uuid` out.
- ThreeTopic.Topic.Set: follows `AfterSet`, so it has the same null-uuid gap.
- BcfSlice.RemovedKeepsValid: holds only for a `revive` that gives each topic back unchanged (`SliceTopics.Faithful`), because the `BCF.THREE.Topic` round trip is not part of this model.
- SliceTopics.RemoveAsWrittenIsRemove: also assumes a faithful `revive`, for the same reason.
- SliceTopics.ReorderMoves: needs distinct uuids, because the as-written reducer finds the moved topic by uuid.
- BcfSlice.ReorderKeepsValid: needs distinct uuids for the same reason.
- CreateZip.MarkupEntry: needs distinct folder names without `/`, so that no two topics' paths overlap.
- ThreeBcfZip.MarkupEntry: needs distinct fresh topic GUIDs without `/`, for the same reason.
- WorkerZip.MarkupEntry: needs distinct fresh topic GUIDs without `/`, for the same reason.
- Archive.LaterFoldersUntouched: needs distinct folder names without `/`.
- BcfSlice.ExportShape: a topic missing a scalar key is reported as the worker schema's `SchemaViolation`. The source passes it on, and the worker's `parse` rejects it.

## Findings

| source | as written | input that shows it | evidently intended | confidence | as-written member | corrected member |
|---|---|---|---|---|---|---|
| src/three-bcf/zip.ts:40 | `ViewpointFactory_XML.create(params)` is called without its `guid` argument, so every `.bcfv` document has `Guid=""` while the markup's `ViewPoint` refers to the fresh viewpoint GUID | any topic; the fresh viewpoint GUID is non-empty | the `.bcfv` Guid equals the markup's `ViewPoint` Guid (`create(params, viewpointGuid)`) | not executed | ThreeBcfZip.BcfvGuidEmpty | ThreeBcfZip.CorrectedBcfvGuid |
| example/react/state/bcfSlice.ts:156-157 | `updateTopic` edits `topics[selectedTopic.index]`, but `updateTopicIndex` and `removeTopic` never refresh the selected copy's index | topics `a` (index 0) and `b` (index 1), select `a`, move index 0 to 1, update the title: `b` is edited while the selection shows the edit | the update edits the topic whose uuid is selected | not executed | BcfSlice.StaleSelectionEditsOtherTopic | BcfSlice.UpdatedByUuidEditsSelected |
| src/three-bcf/bcf/MarkupFactory.ts:91-92 | `ModifiedAuthor` is written with `e.modifiedDate` (so is src/three-bcf/topic/markup.ts:86-87) | a topic modified by `André Wisén` at `2023-07-03T21:03:55+02:00`: its `ModifiedAuthor` reads the date | `ModifiedAuthor` holds `e.modifiedAuthor` | not executed | BcfXml.ModifiedAuthorHoldsDate | BcfXml.IntendedModifiedAuthor |
