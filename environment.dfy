/**
 * Everything outside the workflow core: Google Drive, Google Forms, the
 * Gemini model, the local file system and the caller's progress/log sink.
 *
 * The services answer through the oracle functions held in `Env`: a
 * service's reply is a function of the request, and an absent or failed
 * reply is `None`. The `app/services` gateways log a failure and answer
 * `None`; the failures of the raising `helper` gateways that end the
 * stand-alone script are `None` replies too. `UpdateForm` has no reply:
 * its callers ignore it. Every request and every sink event is appended,
 * in order, to the ghost `trace`.
 */
module Environment {

  import opened Wrappers
  import opened FormRequests
  import opened Sharing

  /** A Drive or Forms identifier; never empty, so it is truthy whenever present. */
  type Id = s: string | |s| > 0 witness "0"

  type Path = string

  /** A file handed to the Gemini file service. */
  datatype UploadedFile = UploadedFile(name: string)

  /** What `process_menu` writes: the reply re-indented as JSON, or the raw reply. */
  datatype FileContent = Reindented(source: string) | Raw(text: string)

  /** A request to a service or to the local file system. */
  datatype Call =
    | GetFolderId(name: string, parent: string)
    | CreateFolder(name: string, parent: string)
    | GetFileId(name: string, inFolder: Option<Id>)
    | GetForm(fileId: Id)
    | GetWebViewLink(linkFor: Option<Id>)
    | CreateForm(title: string)
    | GetRootFolderId
    | MoveFile(fileId: Id, newParent: Option<Id>, oldParent: Option<Id>, newName: string)
    | GetParents(fileId: Id)
    | UpdateParents(fileId: Id, addParent: Option<Id>, removeParent: Id, newName: string)
    | CreatePermissions(fileId: Id, batch: seq<PermissionCreate>)
    | CreatePermission(fileId: Id, request: PermissionCreate)
    | UploadFile(path: Path, name: string, folder: Option<Id>, mimeType: string)
    | UploadImage(path: Path, name: string, folder: Option<Id>)
    | GetMenuJson(fileId: Id)
    | UpdateForm(formId: Id, requests: seq<CreateItem>)
    | GenaiUpload(path: Path, mimeType: string)
    | SendMessage(file: UploadedFile, text: string)
    | MakeDirs(path: Path)
    | WriteFile(path: Path, content: FileContent)
    | MoveLocal(source: Path, destination: Path)

  /** Why a weekly run stopped with an error (the text of its `ScriptRunnerError`). */
  datatype RunError =
    | MissingImage              // "Please select an image for each day."
    | InvalidFileType(day: Day) // "Invalid file type for <day>."
    | FormCreateFailed          // "Failed to create form. Exiting."
    | PermissionsFailed         // "Error setting form permissions"
    | UploadFailed              // "Unexpected error processing images" (the upload raised)
    | MenuUnavailable           // "Unexpected error processing images" (no reply to parse)
    | MenuParseError(day: Day)  // "Error processing menu for <day>"

  /** The messages the core reports, by their content. */
  datatype Msg =
    | RunFailed(error: RunError)
    | WeekFolderCreated(folderId: Option<Id>)
    | FormExistsWithId(fileId: Id)
    | FormExistsLink(link: Option<string>)
    | FinishedFormExists
    | FormDoesNotExist
    | EmptyFormCreated(formId: Id)
    | EmptyFormUrl(uri: Option<string>)
    | ImageUploaded(fileName: string)
    | ImageUploadFailed(fileName: string)
    | SkippingDay(day: Day)
    | AddingDay(formId: Id, day: Day)
    | DayAdded(formId: Id, day: Day)
    | ScriptFinished
    | MenuFileMissing(day: Day, week: nat)
    | ImageFileMissing(day: Day, week: nat)
    | FormCreatedUri(uri: Option<string>)
    | ApiKeyNotSet(envVar: string)
    | ModelNotConfigured
    | MimeTypeUnknown(path: Path)
    | ImageUploadError(path: Path)
    | MessageSendError
    | MenuNotObtained
    | ProcessingMenu(image: Path)
    | MenuDirectory(dir: Path)
    | JsonFormatFailed
    | MenuSaved(path: Path)
    | MenuSavedRaw(path: Path)
    | InputDirMissing(dir: Path)
    | NoJpegFiles(dir: Path)
    | FileMoved(fileName: string, dir: Path)
    | FileMoveError(fileName: string)

  /** Where a message goes: the log at a level, or standard output. */
  datatype Level = Info | Warning | Error | Stdout

  /** One observable step, in the order it happens. */
  datatype Effect =
    | Request(call: Call)
    | Log(level: Level, msg: Msg)
    | Progress(percent: int)
    | Sleep(seconds: nat)
    | EnableButtons

  // ---------------------------------------------------------------------
  // How the outside world answers
  // ---------------------------------------------------------------------

  /** `get_form`: the form's metadata, whose 'formId' key may be missing. */
  datatype FormMeta = FormMeta(formId: Option<Id>)

  /** `create_form`: the new form's id and responder URL. */
  datatype NewForm = NewForm(formId: Id, responderUri: Option<string>)

  /** `upload_file` either raises or returns an id that may be absent. */
  datatype UploadReply = UploadRaised | UploadReturned(fileId: Option<Id>)

  /** Drive and Forms. */
  datatype Cloud = Cloud(
    findFolder: (string, string) -> Option<Id>,
    createFolder: (string, string) -> Option<Id>,
    findFile: (string, Option<Id>) -> Option<Id>,
    getForm: Id -> Option<FormMeta>,
    webViewLink: Option<Id> -> Option<string>,
    createForm: string -> Option<NewForm>,
    rootFolder: Option<Id>,
    parents: Id -> seq<Id>,
    batchSucceeds: (Id, seq<PermissionCreate>) -> bool,
    permissionSucceeds: (Id, PermissionCreate) -> bool,
    upload: (Path, string, Option<Id>, string) -> UploadReply,
    uploadImage: (Path, string, Option<Id>) -> Option<Id>,
    menuJson: Id -> Option<string>)

  /** The Gemini file service and chat model; `None` stands for a raised error. */
  datatype Vision = Vision(
    guessMime: Path -> Option<string>,
    upload: (Path, string) -> Option<UploadedFile>,
    reply: UploadedFile -> Option<string>)

  /** The local file system and the image check. */
  datatype LocalFs = LocalFs(
    present: Path -> bool,
    readMenu: Path -> seq<MenuItem>,
    isValidJpeg: Path -> bool,
    listDir: Path -> seq<string>,
    moveSucceeds: (Path, Path) -> bool)

  /** `json.loads`: the menu list a text denotes, or whether it is JSON at all. */
  datatype Codec = Codec(
    parseMenu: string -> Option<seq<MenuItem>>,
    isJson: string -> bool)

  /** The gateways, the sink and the local files, with the trace of what was asked of them. */
  class Env {
    const cloud: Cloud
    const vision: Vision
    const fs: LocalFs
    const json: Codec
    ghost var trace: seq<Effect>

    constructor (cloud: Cloud, vision: Vision, fs: LocalFs, json: Codec)
      ensures this.cloud == cloud && this.vision == vision && this.fs == fs && this.json == json
      ensures trace == []
    {
      this.cloud := cloud;
      this.vision := vision;
      this.fs := fs;
      this.json := json;
      trace := [];
    }

    // --- the caller's sink ---

    method LogMessage(level: Level, msg: Msg)
      modifies this
      ensures trace == old(trace) + [Log(level, msg)]
    {
      trace := trace + [Log(level, msg)];
    }

    method UpdateProgress(percent: int)
      modifies this
      ensures trace == old(trace) + [Progress(percent)]
    {
      trace := trace + [Progress(percent)];
    }

    method EnableButtons()
      modifies this
      ensures trace == old(trace) + [Effect.EnableButtons]
    {
      trace := trace + [Effect.EnableButtons];
    }

    /** `asyncio.sleep`: an ordered step with no other effect. */
    method Pause(seconds: nat)
      modifies this
      ensures trace == old(trace) + [Sleep(seconds)]
    {
      trace := trace + [Sleep(seconds)];
    }

    // --- Drive and Forms ---

    method GetFolderId(name: string, parent: string) returns (id: Option<Id>)
      modifies this
      ensures trace == old(trace) + [Request(Call.GetFolderId(name, parent))]
      ensures id == cloud.findFolder(name, parent)
    {
      trace := trace + [Request(Call.GetFolderId(name, parent))];
      id := cloud.findFolder(name, parent);
    }

    method CreateFolder(name: string, parent: string) returns (id: Option<Id>)
      modifies this
      ensures trace == old(trace) + [Request(Call.CreateFolder(name, parent))]
      ensures id == cloud.createFolder(name, parent)
    {
      trace := trace + [Request(Call.CreateFolder(name, parent))];
      id := cloud.createFolder(name, parent);
    }

    method GetFileId(name: string, parent: Option<Id>) returns (id: Option<Id>)
      modifies this
      ensures trace == old(trace) + [Request(Call.GetFileId(name, parent))]
      ensures id == cloud.findFile(name, parent)
    {
      trace := trace + [Request(Call.GetFileId(name, parent))];
      id := cloud.findFile(name, parent);
    }

    method GetForm(fileId: Id) returns (form: Option<FormMeta>)
      modifies this
      ensures trace == old(trace) + [Request(Call.GetForm(fileId))]
      ensures form == cloud.getForm(fileId)
    {
      trace := trace + [Request(Call.GetForm(fileId))];
      form := cloud.getForm(fileId);
    }

    method GetWebViewLink(formId: Option<Id>) returns (link: Option<string>)
      modifies this
      ensures trace == old(trace) + [Request(Call.GetWebViewLink(formId))]
      ensures link == cloud.webViewLink(formId)
    {
      trace := trace + [Request(Call.GetWebViewLink(formId))];
      link := cloud.webViewLink(formId);
    }

    method CreateForm(title: string) returns (form: Option<NewForm>)
      modifies this
      ensures trace == old(trace) + [Request(Call.CreateForm(title))]
      ensures form == cloud.createForm(title)
    {
      trace := trace + [Request(Call.CreateForm(title))];
      form := cloud.createForm(title);
    }

    method GetRootFolderId() returns (id: Option<Id>)
      modifies this
      ensures trace == old(trace) + [Request(Call.GetRootFolderId)]
      ensures id == cloud.rootFolder
    {
      trace := trace + [Request(Call.GetRootFolderId)];
      id := cloud.rootFolder;
    }

    method MoveFile(fileId: Id, newParent: Option<Id>, oldParent: Option<Id>, newName: string)
      modifies this
      ensures trace == old(trace) + [Request(Call.MoveFile(fileId, newParent, oldParent, newName))]
    {
      trace := trace + [Request(Call.MoveFile(fileId, newParent, oldParent, newName))];
    }

    method GetParents(fileId: Id) returns (parents: seq<Id>)
      modifies this
      ensures trace == old(trace) + [Request(Call.GetParents(fileId))]
      ensures parents == cloud.parents(fileId)
    {
      trace := trace + [Request(Call.GetParents(fileId))];
      parents := cloud.parents(fileId);
    }

    method UpdateParents(fileId: Id, addParent: Option<Id>, removeParent: Id, newName: string)
      modifies this
      ensures trace == old(trace) + [Request(Call.UpdateParents(fileId, addParent, removeParent, newName))]
    {
      trace := trace + [Request(Call.UpdateParents(fileId, addParent, removeParent, newName))];
    }

    /** Executes a batch of permission creations; `ok` is false when it raised. */
    method CreatePermissions(fileId: Id, batch: seq<PermissionCreate>) returns (ok: bool)
      modifies this
      ensures trace == old(trace) + [Request(Call.CreatePermissions(fileId, batch))]
      ensures ok == cloud.batchSucceeds(fileId, batch)
    {
      trace := trace + [Request(Call.CreatePermissions(fileId, batch))];
      ok := cloud.batchSucceeds(fileId, batch);
    }

    method CreatePermission(fileId: Id, request: PermissionCreate) returns (ok: bool)
      modifies this
      ensures trace == old(trace) + [Request(Call.CreatePermission(fileId, request))]
      ensures ok == cloud.permissionSucceeds(fileId, request)
    {
      trace := trace + [Request(Call.CreatePermission(fileId, request))];
      ok := cloud.permissionSucceeds(fileId, request);
    }

    method UploadFile(path: Path, name: string, parent: Option<Id>, mimeType: string) returns (reply: UploadReply)
      modifies this
      ensures trace == old(trace) + [Request(Call.UploadFile(path, name, parent, mimeType))]
      ensures reply == cloud.upload(path, name, parent, mimeType)
    {
      trace := trace + [Request(Call.UploadFile(path, name, parent, mimeType))];
      reply := cloud.upload(path, name, parent, mimeType);
    }

    method UploadImage(path: Path, name: string, parent: Option<Id>) returns (id: Option<Id>)
      modifies this
      ensures trace == old(trace) + [Request(Call.UploadImage(path, name, parent))]
      ensures id == cloud.uploadImage(path, name, parent)
    {
      trace := trace + [Request(Call.UploadImage(path, name, parent))];
      id := cloud.uploadImage(path, name, parent);
    }

    /** The model's menu text for an uploaded image (`get_menu_json_from_drive_id`). */
    method GetMenuJson(fileId: Id) returns (text: Option<string>)
      modifies this
      ensures trace == old(trace) + [Request(Call.GetMenuJson(fileId))]
      ensures text == cloud.menuJson(fileId)
    {
      trace := trace + [Request(Call.GetMenuJson(fileId))];
      text := cloud.menuJson(fileId);
    }

    method UpdateForm(formId: Id, requests: seq<CreateItem>)
      modifies this
      ensures trace == old(trace) + [Request(Call.UpdateForm(formId, requests))]
    {
      trace := trace + [Request(Call.UpdateForm(formId, requests))];
    }

    // --- Gemini files and chat ---

    method GenaiUpload(path: Path, mimeType: string) returns (file: Option<UploadedFile>)
      modifies this
      ensures trace == old(trace) + [Request(Call.GenaiUpload(path, mimeType))]
      ensures file == vision.upload(path, mimeType)
    {
      trace := trace + [Request(Call.GenaiUpload(path, mimeType))];
      file := vision.upload(path, mimeType);
    }

    method SendMessage(file: UploadedFile, text: string) returns (reply: Option<string>)
      modifies this
      ensures trace == old(trace) + [Request(Call.SendMessage(file, text))]
      ensures reply == vision.reply(file)
    {
      trace := trace + [Request(Call.SendMessage(file, text))];
      reply := vision.reply(file);
    }

    // --- local files ---

    method MakeDirs(path: Path)
      modifies this
      ensures trace == old(trace) + [Request(Call.MakeDirs(path))]
    {
      trace := trace + [Request(Call.MakeDirs(path))];
    }

    method WriteFile(path: Path, content: FileContent)
      modifies this
      ensures trace == old(trace) + [Request(Call.WriteFile(path, content))]
    {
      trace := trace + [Request(Call.WriteFile(path, content))];
    }

    /** `shutil.move`; `ok` is false when it raised. */
    method MoveLocal(source: Path, destination: Path) returns (ok: bool)
      modifies this
      ensures trace == old(trace) + [Request(Call.MoveLocal(source, destination))]
      ensures ok == fs.moveSucceeds(source, destination)
    {
      trace := trace + [Request(Call.MoveLocal(source, destination))];
      ok := fs.moveSucceeds(source, destination);
    }
  }

  // ---------------------------------------------------------------------
  // Reading a trace
  // ---------------------------------------------------------------------

  /** The requests of a trace, in order. */
  function Calls(effects: seq<Effect>): (cs: seq<Call>)
    ensures forall c :: c in cs <==> Request(c) in effects
  {
    if effects == [] then []
    else (if effects[0].Request? then [effects[0].call] else []) + Calls(effects[1..])
  }

  lemma {:induction false} CallsAppend(a: seq<Effect>, b: seq<Effect>)
    ensures Calls(a + b) == Calls(a) + Calls(b)
    decreases |a|
  {
    if a == [] {
      assert a + b == b;
    } else {
      assert (a + b)[0] == a[0] && (a + b)[1..] == a[1..] + b;
      CallsAppend(a[1..], b);
    }
  }

  /** The requests of a kind, in order. */
  function Filter(cs: seq<Call>, keep: Call -> bool): (r: seq<Call>)
    ensures |r| <= |cs|
    ensures forall c :: c in r <==> c in cs && keep(c)
  {
    if cs == [] then [] else (if keep(cs[0]) then [cs[0]] else []) + Filter(cs[1..], keep)
  }

  lemma {:induction false} FilterAppend(a: seq<Call>, b: seq<Call>, keep: Call -> bool)
    ensures Filter(a + b, keep) == Filter(a, keep) + Filter(b, keep)
    decreases |a|
  {
    if a == [] {
      assert a + b == b;
    } else {
      assert (a + b)[0] == a[0] && (a + b)[1..] == a[1..] + b;
      FilterAppend(a[1..], b, keep);
    }
  }

  /** The progress values reported, in order. */
  function Progresses(effects: seq<Effect>): (ps: seq<int>)
    ensures forall p :: p in ps <==> Progress(p) in effects
  {
    if effects == [] then []
    else (if effects[0].Progress? then [effects[0].percent] else []) + Progresses(effects[1..])
  }

  lemma {:induction false} ProgressesAppend(a: seq<Effect>, b: seq<Effect>)
    ensures Progresses(a + b) == Progresses(a) + Progresses(b)
    decreases |a|
  {
    if a == [] {
      assert a + b == b;
    } else {
      assert (a + b)[0] == a[0] && (a + b)[1..] == a[1..] + b;
      ProgressesAppend(a[1..], b);
    }
  }

  /** The messages logged at level `Error`, in order. */
  function Errors(effects: seq<Effect>): (ms: seq<Msg>)
    ensures forall m :: m in ms <==> Log(Error, m) in effects
  {
    if effects == [] then []
    else (if effects[0].Log? && effects[0].level == Error then [effects[0].msg] else []) + Errors(effects[1..])
  }

  /** The request batches sent with `UpdateForm`, in order. */
  function UpdateBatches(effects: seq<Effect>): seq<seq<CreateItem>> {
    if effects == [] then []
    else (if effects[0].Request? && effects[0].call.UpdateForm? then [effects[0].call.requests] else [])
         + UpdateBatches(effects[1..])
  }

  lemma {:induction false} UpdateBatchesAppend(a: seq<Effect>, b: seq<Effect>)
    ensures UpdateBatches(a + b) == UpdateBatches(a) + UpdateBatches(b)
    decreases |a|
  {
    if a == [] {
      assert a + b == b;
    } else {
      assert (a + b)[0] == a[0] && (a + b)[1..] == a[1..] + b;
      UpdateBatchesAppend(a[1..], b);
    }
  }
}
