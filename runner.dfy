/**
 * The application's `ScriptRunner`: one object that keeps the per-day data
 * and the week folder id across its steps, and talks to the services
 * through an `Env`. Each method is proved to do exactly what the matching
 * step of `RunnerSpec` describes.
 */
module Runner {

  import opened Wrappers
  import opened FormRequests
  import opened Sharing
  import opened Environment
  import opened WeekPaths
  import opened RunnerSpec

  class ScriptRunner {
    const config: Config
    /** `self.data`: the menu and image id of each day. */
    var data: DayData
    /** `self.week_folder_id`, set by the week-folder step. */
    var weekFolderId: Option<Id>

    predicate Valid()
      reads this
    {
      Complete(data)
    }

    constructor (config: Config)
      ensures Valid()
      ensures this.config == config && data == InitialData() && weekFolderId == None
    {
      this.config := config;
      data := InitialData();
      weekFolderId := None;
    }

    /** `run_script`: the steps; a `ScriptRunnerError` is reported; the buttons are re-enabled in any case. */
    method RunScript(env: Env, paths: seq<Option<Path>>, week: nat) returns (outcome: RunOutcome)
      requires Valid() && |paths| == |Days|
      modifies this, env
      ensures Valid()
      ensures var r := RunSpec(env.cloud, env.fs, env.json, config, paths, week, old(data), old(weekFolderId));
              env.trace == old(env.trace) + r.effects && outcome == r.outcome
              && data == r.data && weekFolderId == r.weekFolderId
    {
      outcome := RunSteps(env, paths, week);
      if outcome.Failed? {
        env.LogMessage(Error, RunFailed(outcome.error));
      }
      env.EnableButtons();
    }

    /** The `try` block of `run_script`. */
    method RunSteps(env: Env, paths: seq<Option<Path>>, week: nat) returns (outcome: RunOutcome)
      requires Valid() && |paths| == |Days|
      modifies this, env
      ensures Valid()
      ensures var r := TrySteps(env.cloud, env.fs, env.json, config, paths, week, old(data), old(weekFolderId));
              env.trace == old(env.trace) + r.effects && outcome == r.outcome
              && data == r.data && weekFolderId == r.weekFolderId
    {
      ghost var t0 := env.trace;
      var invalid := ValidateInputs(env, paths);
      if invalid.Some? {
        return Failed(invalid.value);
      }
      ProcessWeekFolder(env, week);
      ghost var folder := FolderStep(env.cloud, config, week);
      var status := CheckOrCreateForm(env, week);
      ghost var form := FormStep(env.cloud, config, week, weekFolderId);
      ghost var opening := [Progress(0)] + folder.effects + form.effects;
      AppendAssoc(t0, [Progress(0)], folder.effects);
      AppendAssoc(t0, [Progress(0)] + folder.effects, form.effects);
      assert env.trace == t0 + opening;
      match status
      case FormExists =>
        outcome := AlreadyExists;
      case FormLookupCrashed =>
        outcome := Crashed;
      case FormFailed(e) =>
        outcome := Failed(e);
      case FormCreated(formId) =>
        ghost var up := UploadsUpTo(env.cloud, env.json, paths, weekFolderId, data, |Days|);
        var failure := UploadAndProcessImages(env, paths);
        AppendAssoc(t0, opening, up.effects);
        if failure.Some? {
          return Failed(failure.value);
        }
        ConfigureForm(env, formId);
        ghost var configured := ConfigureDays(formId, data, Days);
        env.UpdateProgress(100);
        env.LogMessage(Info, ScriptFinished);
        outcome := Finished;
        ghost var closing := [Progress(100), Log(Info, ScriptFinished)];
        assert closing == [Progress(100)] + [Log(Info, ScriptFinished)];
        AppendAssoc(t0 + opening + up.effects, [Progress(100)], [Log(Info, ScriptFinished)]);
        AppendAssoc(t0 + opening, up.effects, configured);
        AppendAssoc(t0 + opening, up.effects + configured, closing);
        AppendAssoc(t0, opening, up.effects + configured + closing);
    }

    /** `validate_inputs`: every day has an image, then each image passes the JPEG check. */
    method ValidateInputs(env: Env, paths: seq<Option<Path>>) returns (invalid: Option<RunError>)
      requires |paths| == |Days|
      modifies env
      ensures invalid == Validation(env.fs, paths)
      ensures env.trace == old(env.trace) + (if invalid.None? then [Progress(0)] else [])
    {
      if !AllSelected(paths) {
        return Some(MissingImage);
      }
      for i := 0 to |Days|
        invariant FirstInvalidFrom(env.fs, paths, i) == FirstInvalidFrom(env.fs, paths, 0)
      {
        if !env.fs.isValidJpeg(paths[i].value) {
          return Some(InvalidFileType(Days[i]));
        }
      }
      env.UpdateProgress(0);
      return None;
    }

    /** `process_week_folder`: find the week folder, or create it. */
    method ProcessWeekFolder(env: Env, week: nat)
      modifies this, env
      ensures var r := FolderStep(env.cloud, config, week);
              env.trace == old(env.trace) + r.effects && weekFolderId == r.folderId
      ensures data == old(data)
    {
      var name := WeekFolderName(week);
      var folderId := env.GetFolderId(name, config.projectFolderId);
      if folderId.None? {
        folderId := env.CreateFolder(name, config.projectFolderId);
        env.LogMessage(Info, WeekFolderCreated(folderId));
      }
      weekFolderId := folderId;
      env.UpdateProgress(10);
    }

    /** `check_or_create_form`: stop on an existing form, else create, move and share a new one. */
    method CheckOrCreateForm(env: Env, week: nat) returns (status: FormStatus)
      modifies env
      ensures var r := FormStep(env.cloud, config, week, weekFolderId);
              env.trace == old(env.trace) + r.effects && status == r.status
    {
      var name := FormFileName(week);
      var fileId := env.GetFileId(name, weekFolderId);
      if fileId.Some? {
        env.LogMessage(Info, FormExistsWithId(fileId.value));
        var form := env.GetForm(fileId.value);
        if form.None? {
          return FormLookupCrashed;
        }
        var formId := form.value.formId;
        var link := env.GetWebViewLink(formId);
        env.LogMessage(Info, FormExistsLink(link));
        env.LogMessage(Info, FinishedFormExists);
        return FormExists;
      }
      env.LogMessage(Info, FormDoesNotExist);
      var form := env.CreateForm(FormTitle(week));
      if form.None? {
        return FormFailed(FormCreateFailed);
      }
      var formId := form.value.formId;
      env.LogMessage(Info, EmptyFormCreated(formId));
      env.LogMessage(Info, EmptyFormUrl(form.value.responderUri));
      var root := env.GetRootFolderId();
      env.MoveFile(formId, weekFolderId, root, name);
      ghost var moved := env.trace;
      var granted := SetFormPermissions(env, formId);
      ghost var grants := PermissionStep(env.cloud, config.email, formId);
      ghost var spec := FormStep(env.cloud, config, week, weekFolderId);
      assert moved == old(env.trace) + (spec.effects[..|spec.effects| - |grants.effects|]);
      AppendAssoc(old(env.trace), spec.effects[..|spec.effects| - |grants.effects|], grants.effects);
      if !granted {
        return FormFailed(PermissionsFailed);
      }
      return FormCreated(formId);
    }

    /** `set_form_permissions`: the batch of three grants, then the owner grant again. */
    method SetFormPermissions(env: Env, formId: Id) returns (granted: bool)
      modifies env
      ensures var r := PermissionStep(env.cloud, config.email, formId);
              env.trace == old(env.trace) + r.effects && granted == r.ok
    {
      granted := env.CreatePermissions(formId, FormPermissionBatch(config.email));
      if granted {
        granted := env.CreatePermission(formId, OwnerRegrant(config.email));
      }
    }

    /** `upload_and_process_images`: Monday to Friday, upload the image and read its menu. */
    method UploadAndProcessImages(env: Env, paths: seq<Option<Path>>) returns (failure: Option<RunError>)
      requires Valid() && |paths| == |Days| && AllSelected(paths)
      modifies this, env
      ensures Valid()
      ensures var r := UploadsUpTo(env.cloud, env.json, paths, weekFolderId, old(data), |Days|);
              env.trace == old(env.trace) + r.effects && data == r.data && failure == r.error
      ensures weekFolderId == old(weekFolderId)
    {
      for i := 0 to |Days|
        invariant Valid() && weekFolderId == old(weekFolderId)
        invariant var r := UploadsUpTo(env.cloud, env.json, paths, weekFolderId, old(data), i);
                  env.trace == old(env.trace) + r.effects && data == r.data && r.error.None?
      {
        ghost var before := UploadsUpTo(env.cloud, env.json, paths, weekFolderId, old(data), i);
        failure := UploadDayImage(env, paths[i].value, i);
        ghost var step := UploadDay(env.cloud, env.json, paths[i].value, weekFolderId, before.data, i);
        assert UploadsUpTo(env.cloud, env.json, paths, weekFolderId, old(data), i + 1)
            == Uploads(before.effects + step.effects, step.data, step.error);
        AppendAssoc(old(env.trace), before.effects, step.effects);
        if failure.Some? {
          UploadErrorSticks(env.cloud, env.json, paths, weekFolderId, old(data), i + 1, |Days|);
          return;
        }
      }
      return None;
    }

    /** One iteration of the upload loop, for the day at index `i`. */
    method UploadDayImage(env: Env, path: Path, i: nat) returns (failure: Option<RunError>)
      requires Valid() && i < |Days|
      modifies this, env
      ensures Valid() && weekFolderId == old(weekFolderId)
      ensures var r := UploadDay(env.cloud, env.json, path, weekFolderId, old(data), i);
              env.trace == old(env.trace) + r.effects && data == r.data && failure == r.error
    {
      var day := Days[i];
      var name := UploadName(i);
      var reply := env.UploadFile(path, name, weekFolderId, "image/jpeg");
      if reply.UploadRaised? {
        return Some(UploadFailed);
      }
      ghost var uploaded := env.trace;
      var fileId := reply.fileId;
      data := data[day := data[day].(imageId := fileId)];
      ghost var fetch := FetchMenu(env.cloud, env.json, name, day, fileId, data);
      failure := FetchDayMenu(env, name, day, fileId);
      AppendAssoc(old(env.trace), [Request(UploadFile(path, name, weekFolderId, "image/jpeg"))], fetch.effects);
      if failure.Some? {
        return;
      }
      env.UpdateProgress(ProgressAfter(i));
    }

    /** The `if uploaded_file_id` part of an iteration: fetch and store the menu, or report the failed upload. */
    method FetchDayMenu(env: Env, name: string, day: Day, fileId: Option<Id>) returns (failure: Option<RunError>)
      requires Valid()
      modifies this, env
      ensures Valid() && weekFolderId == old(weekFolderId)
      ensures var r := FetchMenu(env.cloud, env.json, name, day, fileId, old(data));
              env.trace == old(env.trace) + r.effects && data == r.data && failure == r.error
    {
      if fileId.None? {
        env.LogMessage(Error, ImageUploadFailed(name));
        return None;
      }
      env.LogMessage(Info, ImageUploaded(name));
      env.Pause(5);
      var text := env.GetMenuJson(fileId.value);
      if text.None? {
        return Some(MenuUnavailable);
      }
      var menu := env.json.parseMenu(text.value);
      if menu.None? {
        return Some(MenuParseError(day));
      }
      data := data[day := data[day].(menu := menu.value)];
      return None;
    }

    /** `configure_form`: Friday to Monday, add the block of every day that has a menu and an image. */
    method ConfigureForm(env: Env, formId: Id)
      requires Valid()
      modifies env
      ensures env.trace == old(env.trace) + ConfigureDays(formId, data, Days)
    {
      for k := 0 to |Days|
        invariant env.trace == old(env.trace) + ConfigureDays(formId, data, Days[|Days| - k..])
      {
        ghost var later := ConfigureDays(formId, data, Days[|Days| - k..]);
        var d := Days[|Days| - 1 - k];
        AddDayBlock(env, formId, d);
        assert Days[|Days| - 1 - k..][1..] == Days[|Days| - k..];
        AppendAssoc(old(env.trace), later, ConfigureDay(formId, data, d));
      }
      assert Days[0..] == Days;
    }

    /** One iteration of the `configure_form` loop: skip the day, or send its block. */
    method AddDayBlock(env: Env, formId: Id, d: Day)
      requires Valid()
      modifies env
      ensures env.trace == old(env.trace) + ConfigureDay(formId, data, d)
    {
      var record := data[d];
      if record.menu == [] || record.imageId.None? {
        env.LogMessage(Error, SkippingDay(d));
        return;
      }
      var requests := DayRequests(d, ImageUrl(record.imageId.value), record.menu);
      env.LogMessage(Info, AddingDay(formId, d));
      env.UpdateForm(formId, requests);
      env.LogMessage(Info, DayAdded(formId, d));
    }
  }

  /** Once an iteration fails, the loop has stopped: later counts change nothing. */
  lemma {:induction false} UploadErrorSticks(cloud: Cloud, json: Codec, paths: seq<Option<Path>>, folderId: Option<Id>,
                                             data0: DayData, i: nat, n: nat)
    requires |paths| == |Days| && AllSelected(paths) && Complete(data0) && i <= n <= |Days|
    requires UploadsUpTo(cloud, json, paths, folderId, data0, i).error.Some?
    ensures UploadsUpTo(cloud, json, paths, folderId, data0, n) == UploadsUpTo(cloud, json, paths, folderId, data0, i)
    decreases n - i
  {
    if n > i {
      UploadErrorSticks(cloud, json, paths, folderId, data0, i, n - 1);
    }
  }
}
