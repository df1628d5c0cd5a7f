/**
 * What one weekly run of the application's `ScriptRunner` does, as values:
 * for given service replies, the ordered effects of each step, the new
 * per-day data and how the run ends.
 */
module RunnerSpec {

  import opened Wrappers
  import opened Text
  import opened FormRequests
  import opened Sharing
  import opened Environment
  import opened WeekPaths

  /** The settings the runner reads: the project's Drive folder and the owner's e-mail. */
  datatype Config = Config(projectFolderId: string, email: string)

  /** `self.data[day]`: the day's menu and the id of its uploaded image. */
  datatype DayRecord = DayRecord(menu: seq<MenuItem>, imageId: Option<Id>)

  type DayData = map<Day, DayRecord>

  /** Every weekday has a record. */
  predicate Complete(data: DayData) {
    forall d: Day :: d in data
  }

  /** The records a new runner starts with: no menu, no image. */
  function InitialData(): (data: DayData)
    ensures Complete(data)
    ensures forall d: Day :: data[d] == DayRecord([], None)
  {
    EveryDayListed();
    map d: Day | d in Days :: DayRecord([], None)
  }

  /** How a run ends. `Crashed`: an exception other than `ScriptRunnerError` escaped. */
  datatype RunOutcome = Finished | AlreadyExists | Failed(error: RunError) | Crashed

  // ---------------------------------------------------------------------
  // validate_inputs
  // ---------------------------------------------------------------------

  /** Every day has a chosen image (`all(selected_image_paths.values())`). */
  predicate AllSelected(paths: seq<Option<Path>>) {
    forall i :: 0 <= i < |paths| ==> paths[i].Some?
  }

  /** The image chosen for day `i` is present and passes the JPEG check. */
  predicate DayImageValid(fs: LocalFs, paths: seq<Option<Path>>, i: nat)
    requires i < |paths|
  {
    paths[i].Some? && fs.isValidJpeg(paths[i].value)
  }

  /** The first day from `i` on whose image fails the JPEG check. */
  function FirstInvalidFrom(fs: LocalFs, paths: seq<Option<Path>>, i: nat): (r: Option<RunError>)
    requires |paths| == |Days| && AllSelected(paths) && i <= |Days|
    ensures r.None? <==> forall j :: i <= j < |Days| ==> DayImageValid(fs, paths, j)
    ensures r.Some? ==> r.value.InvalidFileType? && i <= DayIndex(r.value.day)
                        && !DayImageValid(fs, paths, DayIndex(r.value.day))
                        && forall j :: i <= j < DayIndex(r.value.day) ==> DayImageValid(fs, paths, j)
    decreases |Days| - i
  {
    if i == |Days| then None
    else if !fs.isValidJpeg(paths[i].value) then
      assert !DayImageValid(fs, paths, i);
      Some(InvalidFileType(Days[i]))
    else FirstInvalidFrom(fs, paths, i + 1)
  }

  /**
   * The outcome of `validate_inputs`: a missing image first, then the first
   * day, Monday to Friday, whose image is not a valid JPEG.
   */
  function Validation(fs: LocalFs, paths: seq<Option<Path>>): (r: Option<RunError>)
    requires |paths| == |Days|
    ensures r == Some(MissingImage) <==> !AllSelected(paths)
    ensures r.None? <==> forall i :: 0 <= i < |Days| ==> DayImageValid(fs, paths, i)
    ensures r.Some? ==> r.value == MissingImage || r.value.InvalidFileType?
    ensures r.Some? && r.value.InvalidFileType? ==>
              AllSelected(paths) && !DayImageValid(fs, paths, DayIndex(r.value.day))
              && forall j :: 0 <= j < DayIndex(r.value.day) ==> DayImageValid(fs, paths, j)
  {
    if !AllSelected(paths) then
      MissingIsInvalid(fs, paths);
      Some(MissingImage)
    else FirstInvalidFrom(fs, paths, 0)
  }

  /** A day without an image fails validation. */
  lemma MissingIsInvalid(fs: LocalFs, paths: seq<Option<Path>>)
    requires !AllSelected(paths)
    ensures exists i :: 0 <= i < |paths| && !DayImageValid(fs, paths, i)
  {
    var i :| 0 <= i < |paths| && paths[i].None?;
    assert !DayImageValid(fs, paths, i);
  }

  // ---------------------------------------------------------------------
  // process_week_folder
  // ---------------------------------------------------------------------

  datatype FolderResult = FolderResult(effects: seq<Effect>, folderId: Option<Id>)

  /** Look the week folder up in the project folder; create it only when the lookup finds nothing. */
  function FolderStep(cloud: Cloud, config: Config, week: nat): FolderResult {
    var name := WeekFolderName(week);
    var lookup := [Request(GetFolderId(name, config.projectFolderId))];
    match cloud.findFolder(name, config.projectFolderId)
    case Some(id) => FolderResult(lookup + [Progress(10)], Some(id))
    case None =>
      var created := cloud.createFolder(name, config.projectFolderId);
      FolderResult(lookup + [Request(CreateFolder(name, config.projectFolderId)),
                             Log(Info, WeekFolderCreated(created)), Progress(10)], created)
  }

  // ---------------------------------------------------------------------
  // set_form_permissions and check_or_create_form
  // ---------------------------------------------------------------------

  datatype PermissionResult = PermissionResult(effects: seq<Effect>, ok: bool)

  /** The batch of three grants, then the owner grant once more; any failure ends it. */
  function PermissionStep(cloud: Cloud, email: string, formId: Id): PermissionResult {
    var batch := FormPermissionBatch(email);
    var sent := [Request(CreatePermissions(formId, batch))];
    if !cloud.batchSucceeds(formId, batch) then PermissionResult(sent, false)
    else
      PermissionResult(sent + [Request(CreatePermission(formId, OwnerRegrant(email)))],
                       cloud.permissionSucceeds(formId, OwnerRegrant(email)))
  }

  /**
   * Where `check_or_create_form` leaves the run: the form exists already,
   * reading the existing form failed (`None.get` raises), an error, or a
   * new form.
   */
  datatype FormStatus = FormExists | FormLookupCrashed | FormFailed(error: RunError) | FormCreated(formId: Id)

  datatype FormResult = FormResult(effects: seq<Effect>, status: FormStatus)

  function FormStep(cloud: Cloud, config: Config, week: nat, folderId: Option<Id>): FormResult {
    var name := FormFileName(week);
    var lookup := [Request(GetFileId(name, folderId))];
    match cloud.findFile(name, folderId)
    case Some(fileId) =>
      var probe := lookup + [Log(Info, FormExistsWithId(fileId)), Request(GetForm(fileId))];
      (match cloud.getForm(fileId)
       case None => FormResult(probe, FormLookupCrashed)
       case Some(meta) =>
         FormResult(probe + [Request(GetWebViewLink(meta.formId)),
                             Log(Info, FormExistsLink(cloud.webViewLink(meta.formId))),
                             Log(Info, FinishedFormExists)], FormExists))
    case None =>
      var title := FormTitle(week);
      var create := lookup + [Log(Info, FormDoesNotExist), Request(CreateForm(title))];
      match cloud.createForm(title)
      case None => FormResult(create, FormFailed(FormCreateFailed))
      case Some(form) =>
        var moved := create + [Log(Info, EmptyFormCreated(form.formId)), Log(Info, EmptyFormUrl(form.responderUri)),
                               Request(GetRootFolderId), Request(MoveFile(form.formId, folderId, cloud.rootFolder, name))];
        var grants := PermissionStep(cloud, config.email, form.formId);
        FormResult(moved + grants.effects, if grants.ok then FormCreated(form.formId) else FormFailed(PermissionsFailed))
  }

  // ---------------------------------------------------------------------
  // upload_and_process_images
  // ---------------------------------------------------------------------

  /** The effects so far, the per-day data so far, and the error that stopped the loop, if any. */
  datatype Uploads = Uploads(effects: seq<Effect>, data: DayData, error: Option<RunError>)

  /** The progress reported after day `i` (`10 + int((i + 1) * (90 / 5))`). */
  function ProgressAfter(i: nat): int {
    10 + (i + 1) * 18
  }

  /** With an id, the model's reply came and parses as a menu; without one there is nothing to fetch. */
  predicate MenuReady(cloud: Cloud, json: Codec, fileId: Option<Id>) {
    fileId.Some? ==> cloud.menuJson(fileId.value).Some? && json.parseMenu(cloud.menuJson(fileId.value).value).Some?
  }

  /**
   * Day `i`'s iteration does not stop the loop: the upload did not raise,
   * and when it returned an id the model's reply came and parsed. An
   * upload that returned no id does not stop it.
   */
  predicate GoesThrough(cloud: Cloud, json: Codec, path: Path, folderId: Option<Id>, i: nat) {
    match cloud.upload(path, UploadName(i), folderId, "image/jpeg")
    case UploadRaised => false
    case UploadReturned(fileId) => MenuReady(cloud, json, fileId)
  }

  /**
   * The part of an iteration after the upload returned: with an id, wait,
   * fetch the menu and parse it into the day's record; without one, report
   * the failed upload.
   */
  function FetchMenu(cloud: Cloud, json: Codec, name: string, day: Day, fileId: Option<Id>, data: DayData): (r: Uploads)
    requires Complete(data)
    ensures Complete(r.data)
    ensures r.error.None? <==> MenuReady(cloud, json, fileId)
    ensures fileId.None? ==> r.data == data && Log(Error, ImageUploadFailed(name)) in r.effects
  {
    match fileId
    case None => Uploads([Log(Error, ImageUploadFailed(name))], data, None)
    case Some(id) =>
      var asked := [Log(Info, ImageUploaded(name)), Sleep(5), Request(GetMenuJson(id))];
      match cloud.menuJson(id)
      case None => Uploads(asked, data, Some(MenuUnavailable))
      case Some(text) =>
        match json.parseMenu(text)
        case None => Uploads(asked, data, Some(MenuParseError(day)))
        case Some(menu) => Uploads(asked, data[day := data[day].(menu := menu)], None)
  }

  /**
   * One iteration for day `i`: upload under `<i+1>.jpeg`, store the id
   * (even an absent one), fetch the menu, and report progress unless an
   * error stopped the loop.
   */
  function UploadDay(cloud: Cloud, json: Codec, path: Path, folderId: Option<Id>, data: DayData, i: nat): (r: Uploads)
    requires i < |Days| && Complete(data)
    ensures Complete(r.data)
    ensures r.error.None? <==> GoesThrough(cloud, json, path, folderId, i)
    ensures cloud.upload(path, UploadName(i), folderId, "image/jpeg") == UploadReturned(None) ==>
              r.error.None? && Log(Error, ImageUploadFailed(UploadName(i))) in r.effects
              && r.data == data[Days[i] := data[Days[i]].(imageId := None)]
  {
    var day := Days[i];
    var name := UploadName(i);
    var upload := [Request(UploadFile(path, name, folderId, "image/jpeg"))];
    match cloud.upload(path, name, folderId, "image/jpeg")
    case UploadRaised => Uploads(upload, data, Some(UploadFailed))
    case UploadReturned(fileId) =>
      var f := FetchMenu(cloud, json, name, day, fileId, data[day := data[day].(imageId := fileId)]);
      var progress := if f.error.None? then [Progress(ProgressAfter(i))] else [];
      Uploads(upload + f.effects + progress, f.data, f.error)
  }

  /** The first `n` iterations, Monday first; an error ends the loop. */
  function UploadsUpTo(cloud: Cloud, json: Codec, paths: seq<Option<Path>>, folderId: Option<Id>,
                       data0: DayData, n: nat): (r: Uploads)
    requires |paths| == |Days| && AllSelected(paths) && Complete(data0) && n <= |Days|
    ensures Complete(r.data)
  {
    if n == 0 then Uploads([], data0, None)
    else
      var prev := UploadsUpTo(cloud, json, paths, folderId, data0, n - 1);
      if prev.error.Some? then prev
      else
        var step := UploadDay(cloud, json, paths[n - 1].value, folderId, prev.data, n - 1);
        Uploads(prev.effects + step.effects, step.data, step.error)
  }

  // ---------------------------------------------------------------------
  // configure_form
  // ---------------------------------------------------------------------

  /** A day without a menu or without an image id gets no block. */
  predicate Skipped(r: DayRecord) {
    r.menu == [] || r.imageId.None?
  }

  /** One iteration of the Friday-to-Monday loop. */
  function ConfigureDay(formId: Id, data: DayData, d: Day): seq<Effect>
    requires Complete(data)
  {
    var r := data[d];
    if Skipped(r) then [Log(Error, SkippingDay(d))]
    else
      [ Log(Info, AddingDay(formId, d)),
        Request(UpdateForm(formId, DayRequests(d, ImageUrl(r.imageId.value), r.menu))),
        Log(Info, DayAdded(formId, d)) ]
  }

  /** The loop over `ds` taken last day first. */
  function ConfigureDays(formId: Id, data: DayData, ds: seq<Day>): (es: seq<Effect>)
    requires Complete(data)
  {
    if ds == [] then [] else ConfigureDays(formId, data, ds[1..]) + ConfigureDay(formId, data, ds[0])
  }

  /** The block a kept day gets. */
  function EntryOf(data: DayData, d: Day): DayEntry
    requires Complete(data) && !Skipped(data[d])
  {
    DayEntry(d, ImageUrl(data[d].imageId.value), data[d].menu)
  }

  /** The days of `ds` that get a block, in the order of `ds`. */
  function Kept(data: DayData, ds: seq<Day>): (es: seq<DayEntry>)
    requires Complete(data)
  {
    if ds == [] then []
    else (if Skipped(data[ds[0]]) then [] else [EntryOf(data, ds[0])]) + Kept(data, ds[1..])
  }

  // ---------------------------------------------------------------------
  // run_script
  // ---------------------------------------------------------------------

  datatype RunResult = RunResult(effects: seq<Effect>, outcome: RunOutcome, data: DayData, weekFolderId: Option<Id>)

  /**
   * The `try` block of `run_script`: validation, the week folder, the form,
   * the uploads and the blocks, as far as they get.
   */
  function TrySteps(cloud: Cloud, fs: LocalFs, json: Codec, config: Config, paths: seq<Option<Path>>,
                    week: nat, data0: DayData, folder0: Option<Id>): (r: RunResult)
    requires |paths| == |Days| && Complete(data0)
    ensures Complete(r.data)
  {
    match Validation(fs, paths)
    case Some(e) => RunResult([], Failed(e), data0, folder0)
    case None =>
      var folder := FolderStep(cloud, config, week);
      var form := FormStep(cloud, config, week, folder.folderId);
      var opening := [Progress(0)] + folder.effects + form.effects;
      match form.status
      case FormExists => RunResult(opening, AlreadyExists, data0, folder.folderId)
      case FormLookupCrashed => RunResult(opening, Crashed, data0, folder.folderId)
      case FormFailed(e) => RunResult(opening, Failed(e), data0, folder.folderId)
      case FormCreated(formId) =>
        var rest := CreatedSteps(cloud, json, paths, folder.folderId, data0, formId);
        RunResult(opening + rest.effects, rest.outcome, rest.data, folder.folderId)
  }

  /** After a new form: the uploads, then the blocks and the closing report when no upload failed. */
  function CreatedSteps(cloud: Cloud, json: Codec, paths: seq<Option<Path>>, folderId: Option<Id>,
                        data0: DayData, formId: Id): (r: RunResult)
    requires |paths| == |Days| && AllSelected(paths) && Complete(data0)
    ensures Complete(r.data)
  {
    var up := UploadsUpTo(cloud, json, paths, folderId, data0, |Days|);
    match up.error
    case Some(e) => RunResult(up.effects, Failed(e), up.data, folderId)
    case None =>
      RunResult(up.effects + ConfigureDays(formId, up.data, Days) + [Progress(100), Log(Info, ScriptFinished)],
                Finished, up.data, folderId)
  }

  /**
   * One run: the steps, the error reported when a `ScriptRunnerError`
   * stopped them, and the buttons re-enabled whatever happened (`finally`).
   */
  function RunSpec(cloud: Cloud, fs: LocalFs, json: Codec, config: Config, paths: seq<Option<Path>>,
                   week: nat, data0: DayData, folder0: Option<Id>): (r: RunResult)
    requires |paths| == |Days| && Complete(data0)
    ensures Complete(r.data)
    ensures |r.effects| > 0 && r.effects[|r.effects| - 1] == EnableButtons
  {
    var steps := TrySteps(cloud, fs, json, config, paths, week, data0, folder0);
    var report := if steps.outcome.Failed? then [Log(Error, RunFailed(steps.outcome.error))] else [];
    steps.(effects := steps.effects + report + [EnableButtons])
  }
}
