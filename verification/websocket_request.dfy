/** The WebSocket-request model: its metadata, default fields, the type-tag test, the
    identity migration and the guard in front of the store's create. The document store
    itself is not part of this model; a create is the request handed to it. */
module WebSocketRequestModel {
  import opened Wrappers
  import opened JsString

  const Name := "WebSocket Request"
  const Type := "WebSocketRequest"
  const Prefix := "ws-req"
  const CanDuplicate := true
  const CanSync := false

  /** The fields this model adds to the store's base document. */
  datatype BaseWebSocketRequest = BaseWebSocketRequest(name: string, url: string, metaSortKey: int)

  /** A stored WebSocket request: the base-document fields the model reads, and its own. */
  datatype WebSocketRequest = WebSocketRequest(
    id: string, modelType: string, parentId: string,
    name: string, url: string, metaSortKey: int)

  /** A partial document: any field may be missing. */
  datatype Patch = Patch(
    id: Option<string>, parentId: Option<string>,
    name: Option<string>, url: Option<string>, metaSortKey: Option<int>)

  /** The default argument `{}`. */
  const EmptyPatch := Patch(None, None, None, None, None)

  /** What `create` hands to the store: `docCreate(type, patch)`. */
  datatype StoreCreate = DocCreate(modelType: string, patch: Patch)

  /** The error `create` throws, which names the offending patch. */
  datatype CreateError = MissingParentId(patch: Patch)

  /** `init()`, with `Date.now()` passed in as `now` (milliseconds). */
  function Init(now: int): (r: BaseWebSocketRequest)
    ensures r.name == "New WebSocket Request" && r.url == ""
    ensures r.metaSortKey + now == 0
  {
    BaseWebSocketRequest("New WebSocket Request", "", -1 * now)
  }

  /** A request initialised later sorts no later: the sort key never grows with time. */
  lemma InitSortKeyAntitone(earlier: int, later: int)
    requires earlier <= later
    ensures Init(later).metaSortKey <= Init(earlier).metaSortKey
  {
  }

  /** For any clock reading at or after the epoch the sort key is not positive. */
  lemma InitSortKeyNonPositive(now: int)
    requires now >= 0
    ensures Init(now).metaSortKey <= 0
  {
  }

  /** `isWebSocketRequest`: only the model's type tag is inspected. */
  function IsWebSocketRequest(modelType: string): (r: bool)
    ensures r <==> modelType == "WebSocketRequest"
  {
    modelType == Type
  }

  /** `migrate` hands every document back unchanged. */
  function Migrate(doc: WebSocketRequest): (r: WebSocketRequest)
    ensures r == doc
  {
    doc
  }

  /** `create(patch)`: a falsy `parentId` (missing or empty) throws; otherwise the patch
      goes to the store unchanged, tagged with this model's type. */
  function Create(patch: Patch): (r: Result<StoreCreate, CreateError>)
    ensures r.Failure? <==> !Truthy(patch.parentId)
    ensures r.Failure? ==> r.error.patch == patch
    ensures r.Success? ==> r.value.patch == patch && IsWebSocketRequest(r.value.modelType)
  {
    if !Truthy(patch.parentId) then Failure(MissingParentId(patch))
    else Success(DocCreate(Type, patch))
  }

  /** `create()` and `create({parentId: ''})` both throw. */
  lemma CreateWithoutParentFails(patch: Patch)
    requires patch.parentId == None || patch.parentId == Some("")
    ensures Create(patch).Failure?
    ensures Create(EmptyPatch).Failure?
  {
  }

  /** Any non-empty `parentId` lets the create through, whatever the rest of the patch. */
  lemma CreateWithParentSucceeds(patch: Patch, parent: string)
    requires parent != "" && patch.parentId == Some(parent)
    ensures Create(patch) == Success(DocCreate("WebSocketRequest", patch))
  {
  }
}
