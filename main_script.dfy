/**
 * The stand-alone script (`main.py`) as methods over an `Env`: the
 * module-level dictionaries are filled step by step, the form id and the
 * image ids are plain locals, and each step is proved to do exactly what
 * `MainSpec` describes.
 */
module MainScript {

  import opened Wrappers
  import opened FormRequests
  import opened Sharing
  import opened Environment
  import opened WeekPaths
  import opened RunnerSpec
  import opened MainSpec

  /** The script from top to bottom; `week` is the ISO week number of the day it runs. */
  method RunMain(env: Env, config: Config, week: nat) returns (end: ScriptEnd)
    modifies env
    ensures var r := ScriptSpec(env.cloud, env.fs, config, week);
            env.trace == old(env.trace) + r.effects && end == r.end
  {
    var menus, images := DiscoverDayFiles(env, week);
    var folderId := FindOrCreateWeekFolder(env, config, week);
    var status := ProbeOrCreateForm(env, config, week, folderId);
    ghost var found := Discover(env.fs, week);
    ghost var folder := WeekFolder(env.cloud, config, week);
    ghost var probe := FormProbe(env.cloud, config, week, folderId);
    AppendAssoc(old(env.trace), found.effects, folder.effects);
    AppendAssoc(old(env.trace) + found.effects, folder.effects, probe.effects);
    AppendAssoc(old(env.trace), found.effects + folder.effects, probe.effects);
    match status
    case FormFound =>
      end := ExitedFormExists;
    case ProbeCrashed =>
      end := ScriptCrashed;
    case FormMade(formId) =>
      AddDayBlocks(env, folderId, formId, menus, images);
      AppendAssoc(old(env.trace), found.effects + folder.effects + probe.effects,
                  DaySteps(env.cloud, folderId, formId, menus, images, Days));
      end := Completed;
  }

  /** The discovery loop: each day's menu file and picture, with a warning for each one missing. */
  method DiscoverDayFiles(env: Env, week: nat) returns (menus: Menus, images: Images)
    modifies env
    ensures var f := Discover(env.fs, week);
            env.trace == old(env.trace) + f.effects && menus == f.menus && images == f.images
  {
    menus, images := map[], map[];
    for i := 0 to |Days|
      invariant env.trace == old(env.trace) + WarningsUpTo(env.fs, week, i)
      invariant menus == MenusUpTo(env.fs, week, i) && images == ImagesUpTo(env.fs, week, i)
    {
      var day := Days[i];
      var menuPath := MenuPath(week, i);
      if env.fs.present(menuPath) {
        menus := menus[day := env.fs.readMenu(menuPath)];
      } else {
        env.LogMessage(Warning, MenuFileMissing(day, week));
        menus := menus[day := []];
      }
      var picturePath := PicturePath(week, i);
      if env.fs.present(picturePath) {
        images := images[day := Some(picturePath)];
      } else {
        env.LogMessage(Warning, ImageFileMissing(day, week));
        images := images[day := None];
      }
      AppendAssoc(old(env.trace), WarningsUpTo(env.fs, week, i), DiscoverDay(env.fs, week, i));
    }
  }

  /** Find the week folder in the project folder, creating it when the lookup finds nothing. */
  method FindOrCreateWeekFolder(env: Env, config: Config, week: nat) returns (folderId: Option<Id>)
    modifies env
    ensures var f := WeekFolder(env.cloud, config, week);
            env.trace == old(env.trace) + f.effects && folderId == f.folderId
  {
    var name := WeekFolderName(week);
    folderId := env.GetFolderId(name, config.projectFolderId);
    if folderId.None? {
      folderId := env.CreateFolder(name, config.projectFolderId);
    }
  }

  /** The form step: print the existing form's link, or create, move and share a new form. */
  method ProbeOrCreateForm(env: Env, config: Config, week: nat, folderId: Option<Id>) returns (status: ProbeStatus)
    modifies env
    ensures var p := FormProbe(env.cloud, config, week, folderId);
            env.trace == old(env.trace) + p.effects && status == p.status
  {
    var name := FormFileName(week);
    var fileId := env.GetFileId(name, folderId);
    if fileId.Some? {
      var form := env.GetForm(fileId.value);
      if form.None? {
        return ProbeCrashed;
      }
      var link := env.GetWebViewLink(form.value.formId);
      env.LogMessage(Stdout, FormExistsLink(link));
      return FormFound;
    }
    var created := env.CreateForm(FormTitle(week));
    if created.None? {
      return ProbeCrashed;
    }
    var formId := created.value.formId;
    env.LogMessage(Stdout, FormCreatedUri(created.value.responderUri));
    var parents := env.GetParents(formId);
    if parents == [] {
      return ProbeCrashed;
    }
    env.UpdateParents(formId, folderId, parents[0], name);
    var granted := env.CreatePermissions(formId, FormPermissionBatch(config.email));
    return FormMade(formId);
  }

  /** The Friday-to-Monday loop. */
  method AddDayBlocks(env: Env, folderId: Option<Id>, formId: Id, menus: Menus, images: Images)
    requires Covers(menus, images)
    modifies env
    ensures env.trace == old(env.trace) + DaySteps(env.cloud, folderId, formId, menus, images, Days)
  {
    for k := 0 to |Days|
      invariant env.trace == old(env.trace) + DaySteps(env.cloud, folderId, formId, menus, images, Days[|Days| - k..])
    {
      ghost var later := DaySteps(env.cloud, folderId, formId, menus, images, Days[|Days| - k..]);
      var d := Days[|Days| - 1 - k];
      AddDayBlock(env, folderId, formId, menus, images, d);
      assert Days[|Days| - 1 - k..][1..] == Days[|Days| - k..];
      AppendAssoc(old(env.trace), later, DayStep(env.cloud, folderId, formId, menus, images, d));
    }
    assert Days[0..] == Days;
  }

  /** One iteration: skip the day, or get or upload its picture and send its block. */
  method AddDayBlock(env: Env, folderId: Option<Id>, formId: Id, menus: Menus, images: Images, d: Day)
    requires Covers(menus, images)
    modifies env
    ensures env.trace == old(env.trace) + DayStep(env.cloud, folderId, formId, menus, images, d)
  {
    var menu := menus[d];
    if menu == [] || images[d].None? {
      env.LogMessage(Warning, SkippingDay(d));
      return;
    }
    var imageFileName := DayImageName(d);
    var imageId := env.GetFileId(imageFileName, folderId);
    ghost var looked := env.trace;
    if imageId.None? {
      imageId := env.UploadImage(images[d].value, imageFileName, folderId);
    }
    ghost var upload := env.trace[|looked|..];
    assert env.trace == looked + upload;
    assert imageId == ImageIdOf(env.cloud, folderId, images[d].value, d);
    var requests := DayRequests(d, ImageUrl(IdText(imageId)), menu);
    env.UpdateForm(formId, requests);
    AppendAssoc(old(env.trace), [Request(GetFileId(imageFileName, folderId))], upload);
    AppendAssoc(old(env.trace), [Request(GetFileId(imageFileName, folderId))] + upload, [Request(UpdateForm(formId, requests))]);
  }
}
