/**
 * What the stand-alone script (`main.py`) does, as values: the day files it
 * finds under `static/`, the week folder, the existing-form probe or the new
 * form, and the Friday-to-Monday loop that uploads each day's picture when
 * the week folder lacks it and sends the day's block.
 */
module MainSpec {

  import opened Wrappers
  import opened FormRequests
  import opened Sharing
  import opened Environment
  import opened WeekPaths
  import opened RunnerSpec

  /** `MENU_DATA`: each day's menu, `[]` when its file is missing. */
  type Menus = map<Day, seq<MenuItem>>

  /** `DAY_IMAGE_PATHS`: each day's picture path, `None` when the file is missing. */
  type Images = map<Day, Option<Path>>

  /** Both dictionaries have an entry for every weekday. */
  predicate Covers(menus: Menus, images: Images) {
    forall d: Day :: d in menus && d in images
  }

  // ---------------------------------------------------------------------
  // The discovery loop over the local files
  // ---------------------------------------------------------------------

  /** What the loop leaves: the warnings it logged and the two dictionaries. */
  datatype Found = Found(effects: seq<Effect>, menus: Menus, images: Images)

  /** The menu day `i` gets: the file's list when it exists, `[]` otherwise. */
  function MenuFound(fs: LocalFs, week: nat, i: nat): seq<MenuItem> {
    if fs.present(MenuPath(week, i)) then fs.readMenu(MenuPath(week, i)) else []
  }

  /** The picture path day `i` gets: the path when the file exists, `None` otherwise. */
  function ImageFound(fs: LocalFs, week: nat, i: nat): Option<Path> {
    if fs.present(PicturePath(week, i)) then Some(PicturePath(week, i)) else None
  }

  /** One iteration's warnings: a missing menu file, then a missing picture. */
  function DiscoverDay(fs: LocalFs, week: nat, i: nat): seq<Effect>
    requires i < |Days|
  {
    (if fs.present(MenuPath(week, i)) then [] else [Log(Warning, MenuFileMissing(Days[i], week))])
    + (if fs.present(PicturePath(week, i)) then [] else [Log(Warning, ImageFileMissing(Days[i], week))])
  }

  /** The warnings of the first `n` iterations, Monday first. */
  function WarningsUpTo(fs: LocalFs, week: nat, n: nat): seq<Effect>
    requires n <= |Days|
  {
    if n == 0 then [] else WarningsUpTo(fs, week, n - 1) + DiscoverDay(fs, week, n - 1)
  }

  /** `MENU_DATA` after the first `n` iterations: exactly those days have an entry. */
  function MenusUpTo(fs: LocalFs, week: nat, n: nat): (menus: Menus)
    requires n <= |Days|
    ensures forall d: Day :: d in menus <==> DayIndex(d) < n
  {
    if n == 0 then map[] else MenusUpTo(fs, week, n - 1)[Days[n - 1] := MenuFound(fs, week, n - 1)]
  }

  /** `DAY_IMAGE_PATHS` after the first `n` iterations: exactly those days have an entry. */
  function ImagesUpTo(fs: LocalFs, week: nat, n: nat): (images: Images)
    requires n <= |Days|
    ensures forall d: Day :: d in images <==> DayIndex(d) < n
  {
    if n == 0 then map[] else ImagesUpTo(fs, week, n - 1)[Days[n - 1] := ImageFound(fs, week, n - 1)]
  }

  /** The whole loop. */
  function Discover(fs: LocalFs, week: nat): (r: Found)
    ensures Covers(r.menus, r.images)
  {
    Found(WarningsUpTo(fs, week, |Days|), MenusUpTo(fs, week, |Days|), ImagesUpTo(fs, week, |Days|))
  }

  // ---------------------------------------------------------------------
  // The week folder and the form
  // ---------------------------------------------------------------------

  /** Look the week folder up in the project folder; create it only when the lookup finds nothing. */
  function WeekFolder(cloud: Cloud, config: Config, week: nat): FolderResult {
    var name := WeekFolderName(week);
    var lookup := [Request(GetFolderId(name, config.projectFolderId))];
    match cloud.findFolder(name, config.projectFolderId)
    case Some(id) => FolderResult(lookup, Some(id))
    case None =>
      FolderResult(lookup + [Request(CreateFolder(name, config.projectFolderId))],
                   cloud.createFolder(name, config.projectFolderId))
  }

  /**
   * Where the form step leaves the script: it found the form and exited,
   * it crashed (reading the form, creating it, or indexing its empty
   * parent list raised), or it made a new form.
   */
  datatype ProbeStatus = FormFound | ProbeCrashed | FormMade(formId: Id)

  datatype Probe = Probe(effects: seq<Effect>, status: ProbeStatus)

  /**
   * Probe the week folder for the form file. When it is there, print its
   * link and exit; otherwise create the form, print its responder URI,
   * move it from its first parent into the week folder under the form
   * file name, and send the batch of three grants, whose result is not
   * looked at.
   */
  function FormProbe(cloud: Cloud, config: Config, week: nat, folderId: Option<Id>): Probe {
    var name := FormFileName(week);
    var lookup := [Request(GetFileId(name, folderId))];
    match cloud.findFile(name, folderId)
    case Some(fileId) =>
      var read := lookup + [Request(GetForm(fileId))];
      (match cloud.getForm(fileId)
       case None => Probe(read, ProbeCrashed)
       case Some(meta) =>
         Probe(read + [Request(GetWebViewLink(meta.formId)),
                       Log(Stdout, FormExistsLink(cloud.webViewLink(meta.formId)))], FormFound))
    case None =>
      var title := FormTitle(week);
      var create := lookup + [Request(CreateForm(title))];
      match cloud.createForm(title)
      case None => Probe(create, ProbeCrashed)
      case Some(form) =>
        var asked := create + [Log(Stdout, FormCreatedUri(form.responderUri)), Request(GetParents(form.formId))];
        var parents := cloud.parents(form.formId);
        if parents == [] then Probe(asked, ProbeCrashed)
        else
          Probe(asked + [Request(UpdateParents(form.formId, folderId, parents[0], name)),
                         Request(CreatePermissions(form.formId, FormPermissionBatch(config.email)))],
                FormMade(form.formId))
  }

  // ---------------------------------------------------------------------
  // The Friday-to-Monday loop
  // ---------------------------------------------------------------------

  /** A day without a menu or without a picture gets no block. */
  predicate SkipsDay(menus: Menus, images: Images, d: Day)
    requires Covers(menus, images)
  {
    menus[d] == [] || images[d].None?
  }

  /** The id of the day's picture in the week folder: the file already there, else the fresh upload's. */
  function ImageIdOf(cloud: Cloud, folderId: Option<Id>, path: Path, d: Day): Option<Id> {
    match cloud.findFile(DayImageName(d), folderId)
    case Some(id) => Some(id)
    case None => cloud.uploadImage(path, DayImageName(d), folderId)
  }

  /** An id as an f-string renders it: `None` when there is none. */
  function IdText(id: Option<Id>): string {
    match id
    case Some(s) => s
    case None => "None"
  }

  /** The block a kept day gets. */
  function DayEntryOf(cloud: Cloud, folderId: Option<Id>, menus: Menus, images: Images, d: Day): DayEntry
    requires Covers(menus, images) && !SkipsDay(menus, images, d)
  {
    DayEntry(d, ImageUrl(IdText(ImageIdOf(cloud, folderId, images[d].value, d))), menus[d])
  }

  /**
   * One iteration: skip the day with a warning, or look its picture up
   * in the week folder, upload it when it is not there, and send the
   * day's batch.
   */
  function DayStep(cloud: Cloud, folderId: Option<Id>, formId: Id, menus: Menus, images: Images, d: Day): seq<Effect>
    requires Covers(menus, images)
  {
    if SkipsDay(menus, images, d) then [Log(Warning, SkippingDay(d))]
    else
      var name := DayImageName(d);
      var upload := if cloud.findFile(name, folderId).Some? then []
                    else [Request(UploadImage(images[d].value, name, folderId))];
      [Request(GetFileId(name, folderId))] + upload
      + [Request(UpdateForm(formId, Batch(DayEntryOf(cloud, folderId, menus, images, d))))]
  }

  /** The loop over `ds` taken last day first. */
  function DaySteps(cloud: Cloud, folderId: Option<Id>, formId: Id, menus: Menus, images: Images, ds: seq<Day>): seq<Effect>
    requires Covers(menus, images)
  {
    if ds == [] then [] else DaySteps(cloud, folderId, formId, menus, images, ds[1..]) + DayStep(cloud, folderId, formId, menus, images, ds[0])
  }

  /** The days of `ds` that get a block, in the order of `ds`. */
  function KeptDays(cloud: Cloud, folderId: Option<Id>, menus: Menus, images: Images, ds: seq<Day>): seq<DayEntry>
    requires Covers(menus, images)
  {
    if ds == [] then []
    else (if SkipsDay(menus, images, ds[0]) then [] else [DayEntryOf(cloud, folderId, menus, images, ds[0])])
         + KeptDays(cloud, folderId, menus, images, ds[1..])
  }

  // ---------------------------------------------------------------------
  // The whole script
  // ---------------------------------------------------------------------

  /** How the script ends: after the loop, at the `exit()` for an existing form, or with an exception. */
  datatype ScriptEnd = Completed | ExitedFormExists | ScriptCrashed

  datatype ScriptResult = ScriptResult(effects: seq<Effect>, end: ScriptEnd)

  /** The steps in source order, as far as they get. */
  function ScriptSpec(cloud: Cloud, fs: LocalFs, config: Config, week: nat): ScriptResult {
    var found := Discover(fs, week);
    var folder := WeekFolder(cloud, config, week);
    var probe := FormProbe(cloud, config, week, folder.folderId);
    var opening := found.effects + folder.effects + probe.effects;
    match probe.status
    case FormFound => ScriptResult(opening, ExitedFormExists)
    case ProbeCrashed => ScriptResult(opening, ScriptCrashed)
    case FormMade(formId) =>
      ScriptResult(opening + DaySteps(cloud, folder.folderId, formId, found.menus, found.images, Days), Completed)
  }
}
