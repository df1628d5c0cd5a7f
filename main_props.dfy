/**
 * What the stand-alone script promises, proved about `MainSpec`: where each
 * day's files are read from and what a missing one becomes, that the week
 * folder is created only when it is missing, that an existing form ends the
 * script before anything is created, moved, shared, uploaded or updated,
 * how a new form is moved and shared, which days are skipped, that a
 * picture is uploaded only when the week folder lacks it, and that the
 * blocks end up Monday first.
 */
module MainProps {

  import opened Wrappers
  import opened FormRequests
  import opened Sharing
  import opened Environment
  import opened WeekPaths
  import opened RunnerSpec
  import opened MainSpec
  import RunnerProps

  // ---------------------------------------------------------------------
  // The discovery loop
  // ---------------------------------------------------------------------

  lemma {:induction false} DiscoveredAt(fs: LocalFs, week: nat, n: nat, i: nat)
    requires i < n <= |Days|
    ensures MenusUpTo(fs, week, n)[Days[i]] == MenuFound(fs, week, i)
    ensures ImagesUpTo(fs, week, n)[Days[i]] == ImageFound(fs, week, i)
    decreases n
  {
    if i < n - 1 {
      DiscoveredAt(fs, week, n - 1, i);
      var _ := DayIndex(Days[i]);
      assert Days[i] != Days[n - 1];
    }
  }

  lemma DiscoveredUpTo(fs: LocalFs, week: nat, n: nat)
    requires n <= |Days|
    ensures forall i :: 0 <= i < n ==>
              MenusUpTo(fs, week, n)[Days[i]] == MenuFound(fs, week, i) && ImagesUpTo(fs, week, n)[Days[i]] == ImageFound(fs, week, i)
  {
    forall i | 0 <= i < n
      ensures MenusUpTo(fs, week, n)[Days[i]] == MenuFound(fs, week, i) && ImagesUpTo(fs, week, n)[Days[i]] == ImageFound(fs, week, i)
    {
      DiscoveredAt(fs, week, n, i);
    }
  }

  /**
   * Day `i` gets the list read from `static/menu/<week>/0<i+1>.json` when
   * that file exists and `[]` otherwise, and the path
   * `static/pictures/<week>/0<i+1>.jpeg` when that file exists and `None`
   * otherwise.
   */
  lemma DiscoveredFiles(fs: LocalFs, week: nat)
    ensures var f := Discover(fs, week);
            forall i :: 0 <= i < |Days| ==>
              f.menus[Days[i]] == (if fs.present(MenuPath(week, i)) then fs.readMenu(MenuPath(week, i)) else [])
              && f.images[Days[i]] == (if fs.present(PicturePath(week, i)) then Some(PicturePath(week, i)) else None)
  {
    DiscoveredUpTo(fs, week, |Days|);
  }

  /** A discovery warning names a day already visited and the week. */
  predicate DiscoveryWarning(e: Effect, week: nat, n: nat) {
    e.Log? && e.level == Warning && (e.msg.MenuFileMissing? || e.msg.ImageFileMissing?)
    && e.msg.week == week && DayIndex(e.msg.day) < n
  }

  /** One iteration warns about day `i` only, once for each of its missing files. */
  lemma DiscoverDayWarnings(fs: LocalFs, week: nat, i: nat)
    requires i < |Days|
    ensures var here := DiscoverDay(fs, week, i);
            (forall e :: e in here ==> DiscoveryWarning(e, week, i + 1) && e.msg.day == Days[i])
            && (Log(Warning, MenuFileMissing(Days[i], week)) in here <==> !fs.present(MenuPath(week, i)))
            && (Log(Warning, ImageFileMissing(Days[i], week)) in here <==> !fs.present(PicturePath(week, i)))
  {
  }

  lemma {:induction false} DiscoveryWarningKinds(fs: LocalFs, week: nat, n: nat)
    requires n <= |Days|
    ensures forall e :: e in WarningsUpTo(fs, week, n) ==> DiscoveryWarning(e, week, n)
    decreases n
  {
    if n > 0 {
      DiscoveryWarningKinds(fs, week, n - 1);
      DiscoverDayWarnings(fs, week, n - 1);
    }
  }

  lemma {:induction false} DiscoveryWarningAt(fs: LocalFs, week: nat, n: nat, i: nat)
    requires i < n <= |Days|
    ensures var ws := WarningsUpTo(fs, week, n);
            (Log(Warning, MenuFileMissing(Days[i], week)) in ws <==> !fs.present(MenuPath(week, i)))
            && (Log(Warning, ImageFileMissing(Days[i], week)) in ws <==> !fs.present(PicturePath(week, i)))
    decreases n
  {
    var prev := WarningsUpTo(fs, week, n - 1);
    DiscoverDayWarnings(fs, week, n - 1);
    if i < n - 1 {
      DiscoveryWarningAt(fs, week, n - 1, i);
      DiscoveryWarningKinds(fs, week, n - 1);
      var _ := DayIndex(Days[i]);
      assert Days[i] != Days[n - 1];
    } else {
      DiscoveryWarningKinds(fs, week, n - 1);
      assert forall e :: e in prev ==> DayIndex(e.msg.day) < n - 1;
    }
  }

  /**
   * The loop only logs warnings, one for each missing menu file and one
   * for each missing picture, and stops nothing: it sends no request.
   */
  lemma DiscoveryWarnings(fs: LocalFs, week: nat)
    ensures var f := Discover(fs, week);
            (forall e :: e in f.effects ==> e.Log? && e.level == Warning && (e.msg.MenuFileMissing? || e.msg.ImageFileMissing?))
            && forall i :: 0 <= i < |Days| ==>
                 (Log(Warning, MenuFileMissing(Days[i], week)) in f.effects <==> !fs.present(MenuPath(week, i)))
                 && (Log(Warning, ImageFileMissing(Days[i], week)) in f.effects <==> !fs.present(PicturePath(week, i)))
  {
    DiscoveryWarningKinds(fs, week, |Days|);
    forall i | 0 <= i < |Days|
      ensures var f := Discover(fs, week);
              (Log(Warning, MenuFileMissing(Days[i], week)) in f.effects <==> !fs.present(MenuPath(week, i)))
              && (Log(Warning, ImageFileMissing(Days[i], week)) in f.effects <==> !fs.present(PicturePath(week, i)))
    {
      DiscoveryWarningAt(fs, week, |Days|, i);
    }
  }

  // ---------------------------------------------------------------------
  // The Friday-to-Monday loop
  // ---------------------------------------------------------------------

  /** Different days upload under different names. */
  lemma DayImageNameInjective(a: Day, b: Day)
    requires DayImageName(a) == DayImageName(b)
    ensures a == b
  {
    var x := DayName(a);
    var y := DayName(b);
    assert x == DayImageName(a)[..|x|];
    assert y == DayImageName(b)[..|y|];
    assert |x| == |y|;
    assert x[0] == y[0] && x[1] == y[1];
  }

  /** A day is reported as skipped exactly when it is one of the days and lacks a menu or a picture. */
  lemma {:induction false} DaySkips(cloud: Cloud, folderId: Option<Id>, formId: Id, menus: Menus, images: Images,
                                    ds: seq<Day>, d: Day)
    requires Covers(menus, images)
    ensures Log(Warning, SkippingDay(d)) in DaySteps(cloud, folderId, formId, menus, images, ds)
            <==> d in ds && SkipsDay(menus, images, d)
    decreases |ds|
  {
    if ds != [] {
      DaySkips(cloud, folderId, formId, menus, images, ds[1..], d);
      DayStepSkips(cloud, folderId, formId, menus, images, ds[0], d);
      assert d in ds <==> d == ds[0] || d in ds[1..];
    }
  }

  lemma DayStepSkips(cloud: Cloud, folderId: Option<Id>, formId: Id, menus: Menus, images: Images, here: Day, d: Day)
    requires Covers(menus, images)
    ensures Log(Warning, SkippingDay(d)) in DayStep(cloud, folderId, formId, menus, images, here)
            <==> d == here && SkipsDay(menus, images, d)
  {
  }

  /** One iteration uploads the day's picture to the week folder when it is kept and the folder lacks it. */
  lemma DayStepUploads(cloud: Cloud, folderId: Option<Id>, formId: Id, menus: Menus, images: Images, d: Day, c: Call)
    requires Covers(menus, images) && c.UploadImage?
    ensures Request(c) in DayStep(cloud, folderId, formId, menus, images, d) <==>
            !SkipsDay(menus, images, d) && cloud.findFile(DayImageName(d), folderId).None?
            && c == UploadImage(images[d].value, DayImageName(d), folderId)
  {
  }

  /**
   * Get-or-upload: `<Day>_image.jpg` is uploaded from the day's picture
   * into the week folder exactly when the day is kept and the folder holds
   * no file of that name.
   */
  lemma {:induction false} DayUploads(cloud: Cloud, folderId: Option<Id>, formId: Id, menus: Menus, images: Images,
                                      ds: seq<Day>, d: Day, path: Path)
    requires Covers(menus, images)
    ensures Request(UploadImage(path, DayImageName(d), folderId)) in DaySteps(cloud, folderId, formId, menus, images, ds)
            <==> d in ds && !SkipsDay(menus, images, d) && cloud.findFile(DayImageName(d), folderId).None?
                 && images[d] == Some(path)
    decreases |ds|
  {
    if ds != [] {
      var c := UploadImage(path, DayImageName(d), folderId);
      var rest := DaySteps(cloud, folderId, formId, menus, images, ds[1..]);
      var here := DayStep(cloud, folderId, formId, menus, images, ds[0]);
      assert DaySteps(cloud, folderId, formId, menus, images, ds) == rest + here;
      assert Request(c) in rest + here <==> Request(c) in rest || Request(c) in here;
      DayUploads(cloud, folderId, formId, menus, images, ds[1..], d, path);
      DayStepUploads(cloud, folderId, formId, menus, images, ds[0], c);
      if Request(c) in here {
        DayImageNameInjective(d, ds[0]);
      }
      assert d in ds <==> d == ds[0] || d in ds[1..];
    }
  }

  /**
   * Every upload goes to the week folder, under a name the folder was
   * first searched for and did not hold.
   */
  lemma {:induction false} UploadsOnlyWhenMissing(cloud: Cloud, folderId: Option<Id>, formId: Id, menus: Menus, images: Images,
                                                  ds: seq<Day>)
    requires Covers(menus, images)
    ensures var es := DaySteps(cloud, folderId, formId, menus, images, ds);
            forall c :: Request(c) in es && c.UploadImage? ==>
              c.folder == folderId && cloud.findFile(c.name, folderId).None? && Request(GetFileId(c.name, folderId)) in es
    decreases |ds|
  {
    if ds != [] {
      UploadsOnlyWhenMissing(cloud, folderId, formId, menus, images, ds[1..]);
      var here := DayStep(cloud, folderId, formId, menus, images, ds[0]);
      forall c | Request(c) in here && c.UploadImage?
        ensures c.folder == folderId && cloud.findFile(c.name, folderId).None? && Request(GetFileId(c.name, folderId)) in here
      {
        DayStepUploads(cloud, folderId, formId, menus, images, ds[0], c);
      }
    }
  }

  /** The loop sends only picture lookups and uploads in the week folder and batches for the new form. */
  lemma {:induction false} DayStepsKinds(cloud: Cloud, folderId: Option<Id>, formId: Id, menus: Menus, images: Images,
                                         ds: seq<Day>)
    requires Covers(menus, images)
    ensures forall e :: e in DaySteps(cloud, folderId, formId, menus, images, ds) ==> LoopEffect(e, folderId, formId)
    decreases |ds|
  {
    if ds != [] {
      DayStepsKinds(cloud, folderId, formId, menus, images, ds[1..]);
      DayStepKinds(cloud, folderId, formId, menus, images, ds[0]);
    }
  }

  /** What one iteration may do. */
  predicate LoopEffect(e: Effect, folderId: Option<Id>, formId: Id) {
    (e.Log? ==> e.level == Warning && e.msg.SkippingDay?)
    && !e.Progress? && !e.Sleep? && !e.EnableButtons?
    && (e.Request? ==> (e.call.GetFileId? && e.call.inFolder == folderId)
                       || (e.call.UploadImage? && e.call.folder == folderId)
                       || (e.call.UpdateForm? && e.call.formId == formId))
  }

  lemma DayStepKinds(cloud: Cloud, folderId: Option<Id>, formId: Id, menus: Menus, images: Images, d: Day)
    requires Covers(menus, images)
    ensures forall e :: e in DayStep(cloud, folderId, formId, menus, images, d) ==> LoopEffect(e, folderId, formId)
  {
  }

  /** A kept day's block: its menu, and the URL of the picture already in the folder or just uploaded. */
  lemma {:induction false} KeptDayEntries(cloud: Cloud, folderId: Option<Id>, menus: Menus, images: Images, ds: seq<Day>)
    requires Covers(menus, images)
    ensures forall e :: e in KeptDays(cloud, folderId, menus, images, ds) ==>
              e.day in ds && !SkipsDay(menus, images, e.day) && e == DayEntryOf(cloud, folderId, menus, images, e.day)
    ensures forall d :: d in ds && !SkipsDay(menus, images, d) ==>
              DayEntryOf(cloud, folderId, menus, images, d) in KeptDays(cloud, folderId, menus, images, ds)
    decreases |ds|
  {
    if ds != [] {
      KeptDayEntries(cloud, folderId, menus, images, ds[1..]);
      assert forall d :: d in ds ==> d == ds[0] || d in ds[1..];
      assert forall d :: d in ds[1..] ==> d in ds;
    }
  }

  /**
   * A re-run reuses the picture already in the week folder: the block
   * shows that file, and the day's picture is not uploaded again.
   */
  lemma ReusesExistingImage(cloud: Cloud, folderId: Option<Id>, formId: Id, menus: Menus, images: Images, d: Day, id: Id)
    requires Covers(menus, images) && !SkipsDay(menus, images, d)
    requires cloud.findFile(DayImageName(d), folderId) == Some(id)
    ensures DayEntry(d, ImageUrl(id), menus[d]) in KeptDays(cloud, folderId, menus, images, Days)
    ensures forall path :: Request(UploadImage(path, DayImageName(d), folderId)) !in DaySteps(cloud, folderId, formId, menus, images, Days)
  {
    EveryDayListed();
    KeptDayEntries(cloud, folderId, menus, images, Days);
    forall path
      ensures Request(UploadImage(path, DayImageName(d), folderId)) !in DaySteps(cloud, folderId, formId, menus, images, Days)
    {
      DayUploads(cloud, folderId, formId, menus, images, Days, d, path);
    }
  }

  /** One iteration sends the day's batch when the day is kept, and nothing otherwise. */
  lemma DayStepBatch(cloud: Cloud, folderId: Option<Id>, formId: Id, menus: Menus, images: Images, d: Day)
    requires Covers(menus, images)
    ensures UpdateBatches(DayStep(cloud, folderId, formId, menus, images, d)) ==
            (if SkipsDay(menus, images, d) then [] else [Batch(DayEntryOf(cloud, folderId, menus, images, d))])
  {
    var here := DayStep(cloud, folderId, formId, menus, images, d);
    if !SkipsDay(menus, images, d) {
      var last := [here[|here| - 1]];
      assert here == here[..|here| - 1] + last;
      UpdateBatchesAppend(here[..|here| - 1], last);
      RunnerProps.NoUpdateBatches(here[..|here| - 1]);
    }
  }

  /** The batches go out for the kept days, last day first. */
  lemma {:induction false} DayBatches(cloud: Cloud, folderId: Option<Id>, formId: Id, menus: Menus, images: Images, ds: seq<Day>)
    requires Covers(menus, images)
    ensures UpdateBatches(DaySteps(cloud, folderId, formId, menus, images, ds))
            == ReversedBatches(KeptDays(cloud, folderId, menus, images, ds))
    decreases |ds|
  {
    if ds != [] {
      var later := DaySteps(cloud, folderId, formId, menus, images, ds[1..]);
      var here := DayStep(cloud, folderId, formId, menus, images, ds[0]);
      DayBatches(cloud, folderId, formId, menus, images, ds[1..]);
      UpdateBatchesAppend(later, here);
      DayStepBatch(cloud, folderId, formId, menus, images, ds[0]);
      var kept := if SkipsDay(menus, images, ds[0]) then [] else [DayEntryOf(cloud, folderId, menus, images, ds[0])];
      assert KeptDays(cloud, folderId, menus, images, ds) == kept + KeptDays(cloud, folderId, menus, images, ds[1..]);
      if kept == [] {
        assert kept + KeptDays(cloud, folderId, menus, images, ds[1..]) == KeptDays(cloud, folderId, menus, images, ds[1..]);
      }
    }
  }

  /** Sending the kept days Friday first into an empty form leaves their blocks Monday first. */
  lemma DayBlocksMondayFirst(cloud: Cloud, folderId: Option<Id>, formId: Id, menus: Menus, images: Images)
    requires Covers(menus, images)
    ensures ApplyInOrder([], UpdateBatches(DaySteps(cloud, folderId, formId, menus, images, Days)))
            == Some(Blocks(KeptDays(cloud, folderId, menus, images, Days)))
  {
    var kept := KeptDays(cloud, folderId, menus, images, Days);
    DayBatches(cloud, folderId, formId, menus, images, Days);
    ReverseInsertionRestoresOrder([], kept);
    assert Blocks(kept) + [] == Blocks(kept);
  }

  // ---------------------------------------------------------------------
  // The week folder and the form
  // ---------------------------------------------------------------------

  /** The folder step looks the week folder up, and creates it under the project folder only when that finds nothing. */
  lemma WeekFolderRequests(cloud: Cloud, config: Config, week: nat)
    ensures var f := WeekFolder(cloud, config, week);
            (forall e :: e in f.effects ==> e.Request? && (e.call.GetFolderId? || e.call.CreateFolder?))
            && (forall n, p :: Request(CreateFolder(n, p)) in f.effects <==>
                 cloud.findFolder(WeekFolderName(week), config.projectFolderId).None?
                 && n == WeekFolderName(week) && p == config.projectFolderId)
            && (f.folderId.None? ==> cloud.findFolder(WeekFolderName(week), config.projectFolderId).None?)
  {
  }

  /** A request of the form step. */
  predicate ProbeCall(c: Call) {
    c.GetFileId? || c.GetForm? || c.GetWebViewLink? || c.CreateForm? || c.GetParents? || c.UpdateParents? || c.CreatePermissions?
  }

  /**
   * When the form file is in the week folder, the form step only reads:
   * it looks the file up, reads the form and asks for its link, and the
   * script does not reach the loop.
   */
  lemma ExistingFormProbe(cloud: Cloud, config: Config, week: nat, folderId: Option<Id>)
    requires cloud.findFile(FormFileName(week), folderId).Some?
    ensures var p := FormProbe(cloud, config, week, folderId);
            (forall c :: Request(c) in p.effects ==> c.GetFileId? || c.GetForm? || c.GetWebViewLink?)
            && (p.status == FormFound <==> cloud.getForm(cloud.findFile(FormFileName(week), folderId).value).Some?)
            && !p.status.FormMade?
  {
  }

  /**
   * When the form file is not there, a form titled
   * `Meals Order for Week #<week>` is created; the script goes on exactly
   * when the form came back and has a parent, and then the form was moved
   * from its first parent into the week folder under the form file name
   * and the three grants were sent as one batch.
   */
  lemma NewFormProbe(cloud: Cloud, config: Config, week: nat, folderId: Option<Id>)
    requires cloud.findFile(FormFileName(week), folderId).None?
    ensures var p := FormProbe(cloud, config, week, folderId);
            Request(CreateForm(FormTitle(week))) in p.effects
            && (forall c :: Request(c) in p.effects ==> ProbeCall(c) && (c.CreateForm? ==> c.title == FormTitle(week)))
            && (p.status.FormMade? <==>
                  cloud.createForm(FormTitle(week)).Some? && cloud.parents(cloud.createForm(FormTitle(week)).value.formId) != [])
            && (p.status.FormMade? ==>
                  var id := p.status.formId;
                  id == cloud.createForm(FormTitle(week)).value.formId
                  && Request(UpdateParents(id, folderId, cloud.parents(id)[0], FormFileName(week))) in p.effects
                  && Request(CreatePermissions(id, FormPermissionBatch(config.email))) in p.effects)
  {
  }

  /** The form step logs nothing but what it prints, and sends only its own requests. */
  lemma ProbeKinds(cloud: Cloud, config: Config, week: nat, folderId: Option<Id>)
    ensures forall e :: e in FormProbe(cloud, config, week, folderId).effects ==>
              (e.Log? ==> e.level == Stdout) && (e.Request? ==> ProbeCall(e.call))
  {
    var name := FormFileName(week);
    var es := FormProbe(cloud, config, week, folderId).effects;
    var lookup := Request(GetFileId(name, folderId));
    match cloud.findFile(name, folderId)
    case Some(fileId) => {
      var read := Request(GetForm(fileId));
      match cloud.getForm(fileId)
      case None =>
        assert es == [lookup, read];
      case Some(meta) =>
        assert es == [lookup, read, Request(GetWebViewLink(meta.formId)),
                      Log(Stdout, FormExistsLink(cloud.webViewLink(meta.formId)))];
    }
    case None =>
      var create := Request(CreateForm(FormTitle(week)));
      match cloud.createForm(FormTitle(week))
      case None =>
        assert es == [lookup, create];
      case Some(form) =>
        var asked := [lookup, create, Log(Stdout, FormCreatedUri(form.responderUri)), Request(GetParents(form.formId))];
        var parents := cloud.parents(form.formId);
        if parents == [] {
          assert es == asked;
        } else {
          assert es == asked + [Request(UpdateParents(form.formId, folderId, parents[0], name)),
                                Request(CreatePermissions(form.formId, FormPermissionBatch(config.email)))];
        }
  }

  // ---------------------------------------------------------------------
  // The whole script
  // ---------------------------------------------------------------------

  /** What may happen before the loop: the discovery warnings, the folder step and the form step. */
  predicate OpeningEffect(e: Effect) {
    (e.Log? ==> e.msg.MenuFileMissing? || e.msg.ImageFileMissing? || e.level == Stdout)
    && (e.Request? ==> e.call.GetFolderId? || e.call.CreateFolder? || ProbeCall(e.call))
  }

  /** What the loop may do, whatever the form. */
  predicate AnyLoopEffect(e: Effect) {
    (e.Log? ==> e.level == Warning && e.msg.SkippingDay?)
    && (e.Request? ==> e.call.GetFileId? || e.call.UploadImage? || e.call.UpdateForm?)
  }

  /** The opening steps: the discovery warnings, the week folder and the form step. */
  function Opening(cloud: Cloud, fs: LocalFs, config: Config, week: nat): seq<Effect> {
    var folder := WeekFolder(cloud, config, week);
    Discover(fs, week).effects + folder.effects + FormProbe(cloud, config, week, folder.folderId).effects
  }

  /** The script is its opening steps, then the loop exactly when the form step made a new form. */
  lemma ScriptParts(cloud: Cloud, fs: LocalFs, config: Config, week: nat) returns (loop: seq<Effect>)
    ensures var r := ScriptSpec(cloud, fs, config, week);
            var folderId := WeekFolder(cloud, config, week).folderId;
            var status := FormProbe(cloud, config, week, folderId).status;
            r.effects == Opening(cloud, fs, config, week) + loop
            && (forall e :: e in loop ==> AnyLoopEffect(e))
            && (r.end == Completed <==> status.FormMade?)
            && (status.FormMade? ==> loop == DaySteps(cloud, folderId, status.formId, Discover(fs, week).menus, Discover(fs, week).images, Days))
  {
    var found := Discover(fs, week);
    var folderId := WeekFolder(cloud, config, week).folderId;
    var status := FormProbe(cloud, config, week, folderId).status;
    if status.FormMade? {
      loop := DaySteps(cloud, folderId, status.formId, found.menus, found.images, Days);
      DayStepsKinds(cloud, folderId, status.formId, found.menus, found.images, Days);
    } else {
      loop := [];
    }
  }

  /** The opening steps do only what the discovery, the folder step and the form step do. */
  lemma OpeningKinds(cloud: Cloud, fs: LocalFs, config: Config, week: nat)
    ensures forall e :: e in Opening(cloud, fs, config, week) ==> OpeningEffect(e)
  {
    var folder := WeekFolder(cloud, config, week);
    DiscoveryWarnings(fs, week);
    WeekFolderRequests(cloud, config, week);
    ProbeKinds(cloud, config, week, folder.folderId);
  }

  lemma OpeningFolderCreation(cloud: Cloud, fs: LocalFs, config: Config, week: nat)
    ensures forall n, p :: Request(CreateFolder(n, p)) in Opening(cloud, fs, config, week) <==>
              cloud.findFolder(WeekFolderName(week), config.projectFolderId).None?
              && n == WeekFolderName(week) && p == config.projectFolderId
  {
    var folder := WeekFolder(cloud, config, week);
    DiscoveryWarnings(fs, week);
    WeekFolderRequests(cloud, config, week);
    ProbeKinds(cloud, config, week, folder.folderId);
  }

  /**
   * The week folder is created under the project folder, under the week
   * number, exactly when looking it up there finds nothing.
   */
  lemma FolderCreatedOnlyWhenMissing(cloud: Cloud, fs: LocalFs, config: Config, week: nat)
    ensures forall n, p :: Request(CreateFolder(n, p)) in ScriptSpec(cloud, fs, config, week).effects <==>
              cloud.findFolder(WeekFolderName(week), config.projectFolderId).None?
              && n == WeekFolderName(week) && p == config.projectFolderId
  {
    var loop := ScriptParts(cloud, fs, config, week);
    OpeningFolderCreation(cloud, fs, config, week);
  }

  /**
   * When the form file is already in the week folder, the script ends
   * there: no form is created, moved or shared, no picture is uploaded
   * and no batch is sent.
   */
  lemma ExistingFormExits(cloud: Cloud, fs: LocalFs, config: Config, week: nat)
    requires cloud.findFile(FormFileName(week), WeekFolder(cloud, config, week).folderId).Some?
    ensures var r := ScriptSpec(cloud, fs, config, week);
            r.end != Completed
            && forall c :: Request(c) in r.effects ==>
                 !c.CreateForm? && !c.UpdateParents? && !c.CreatePermissions? && !c.UploadImage? && !c.UpdateForm?
  {
    var loop := ScriptParts(cloud, fs, config, week);
    ExistingFormOpening(cloud, fs, config, week);
  }

  lemma ExistingFormOpening(cloud: Cloud, fs: LocalFs, config: Config, week: nat)
    requires cloud.findFile(FormFileName(week), WeekFolder(cloud, config, week).folderId).Some?
    ensures !FormProbe(cloud, config, week, WeekFolder(cloud, config, week).folderId).status.FormMade?
    ensures forall c :: Request(c) in Opening(cloud, fs, config, week) ==>
              !c.CreateForm? && !c.UpdateParents? && !c.CreatePermissions? && !c.UploadImage? && !c.UpdateForm?
  {
    var folder := WeekFolder(cloud, config, week);
    DiscoveryWarnings(fs, week);
    WeekFolderRequests(cloud, config, week);
    ExistingFormProbe(cloud, config, week, folder.folderId);
  }

  /**
   * When the form file is not in the week folder, the script creates a
   * form, titled for the week.
   */
  lemma NewFormCreated(cloud: Cloud, fs: LocalFs, config: Config, week: nat)
    requires cloud.findFile(FormFileName(week), WeekFolder(cloud, config, week).folderId).None?
    ensures var r := ScriptSpec(cloud, fs, config, week);
            Request(CreateForm(FormTitle(week))) in r.effects
            && forall c :: Request(c) in r.effects && c.CreateForm? ==> c.title == FormTitle(week)
  {
    var loop := ScriptParts(cloud, fs, config, week);
    NewFormOpening(cloud, fs, config, week);
  }

  lemma NewFormOpening(cloud: Cloud, fs: LocalFs, config: Config, week: nat)
    requires cloud.findFile(FormFileName(week), WeekFolder(cloud, config, week).folderId).None?
    ensures Request(CreateForm(FormTitle(week))) in Opening(cloud, fs, config, week)
    ensures forall c :: Request(c) in Opening(cloud, fs, config, week) && c.CreateForm? ==> c.title == FormTitle(week)
  {
    var folder := WeekFolder(cloud, config, week);
    DiscoveryWarnings(fs, week);
    WeekFolderRequests(cloud, config, week);
    NewFormProbe(cloud, config, week, folder.folderId);
  }

  /**
   * A script that found no form completes exactly when the new form came
   * back with a parent to move it from; it then moved the form from that
   * parent into the week folder under the form file name and shared it.
   */
  lemma NewFormMovedAndShared(cloud: Cloud, fs: LocalFs, config: Config, week: nat)
    requires cloud.findFile(FormFileName(week), WeekFolder(cloud, config, week).folderId).None?
    ensures var r := ScriptSpec(cloud, fs, config, week);
            var title := FormTitle(week);
            (r.end == Completed <==> cloud.createForm(title).Some? && cloud.parents(cloud.createForm(title).value.formId) != [])
            && (r.end == Completed ==>
                  var id := cloud.createForm(title).value.formId;
                  Request(UpdateParents(id, WeekFolder(cloud, config, week).folderId, cloud.parents(id)[0], FormFileName(week))) in r.effects
                  && Request(CreatePermissions(id, FormPermissionBatch(config.email))) in r.effects)
  {
    var loop := ScriptParts(cloud, fs, config, week);
    var folder := WeekFolder(cloud, config, week);
    NewFormProbe(cloud, config, week, folder.folderId);
  }

  /** The folder step asks for the week folder at most once: exactly when the lookup found none. */
  lemma WeekFolderCreates(cloud: Cloud, config: Config, week: nat)
    ensures var name := WeekFolderName(week);
            Filter(Calls(WeekFolder(cloud, config, week).effects), RunnerProps.IsCreateFolder)
            == if cloud.findFolder(name, config.projectFolderId).None? then [CreateFolder(name, config.projectFolderId)] else []
  {
    var name := WeekFolderName(week);
    var lookup := [Request(GetFolderId(name, config.projectFolderId))];
    if cloud.findFolder(name, config.projectFolderId).None? {
      assert WeekFolder(cloud, config, week).effects == lookup + [Request(CreateFolder(name, config.projectFolderId))] + [];
      RunnerProps.FilterOnce(lookup, CreateFolder(name, config.projectFolderId), [], RunnerProps.IsCreateFolder);
    } else {
      RunnerProps.FilterNone(Calls(WeekFolder(cloud, config, week).effects), RunnerProps.IsCreateFolder);
    }
  }

  /** The form step asks for a new form at most once: exactly when the form file is not in the week folder. */
  lemma FormProbeCreates(cloud: Cloud, config: Config, week: nat, folderId: Option<Id>)
    ensures Filter(Calls(FormProbe(cloud, config, week, folderId).effects), RunnerProps.IsCreateForm)
            == if cloud.findFile(FormFileName(week), folderId).None? then [CreateForm(FormTitle(week))] else []
  {
    if cloud.findFile(FormFileName(week), folderId).Some? {
      ExistingFormProbe(cloud, config, week, folderId);
      RunnerProps.FilterNone(Calls(FormProbe(cloud, config, week, folderId).effects), RunnerProps.IsCreateForm);
    } else {
      NewFormProbeCreates(cloud, config, week, folderId);
    }
  }

  lemma NewFormProbeCreates(cloud: Cloud, config: Config, week: nat, folderId: Option<Id>)
    requires cloud.findFile(FormFileName(week), folderId).None?
    ensures Filter(Calls(FormProbe(cloud, config, week, folderId).effects), RunnerProps.IsCreateForm) == [CreateForm(FormTitle(week))]
  {
    var p := FormProbe(cloud, config, week, folderId);
    var name := FormFileName(week);
    var title := FormTitle(week);
    var lookup := [Request(GetFileId(name, folderId))];
    match cloud.createForm(title)
    case None =>
      assert p.effects == lookup + [Request(CreateForm(title))] + [];
      RunnerProps.FilterOnce(lookup, CreateForm(title), [], RunnerProps.IsCreateForm);
    case Some(form) =>
      var parents := cloud.parents(form.formId);
      var asked := [Log(Stdout, FormCreatedUri(form.responderUri)), Request(GetParents(form.formId))];
      var rest := if parents == [] then asked
                  else asked + [Request(UpdateParents(form.formId, folderId, parents[0], name)),
                                Request(CreatePermissions(form.formId, FormPermissionBatch(config.email)))];
      assert p.effects == lookup + [Request(CreateForm(title))] + rest;
      RunnerProps.FilterOnce(lookup, CreateForm(title), rest, RunnerProps.IsCreateForm);
  }

  /**
   * The script asks for the week folder at most once: exactly when the
   * lookup in the project folder found none, under the week's name.
   */
  lemma FolderCreatedOnce(cloud: Cloud, fs: LocalFs, config: Config, week: nat)
    ensures var name := WeekFolderName(week);
            Filter(Calls(ScriptSpec(cloud, fs, config, week).effects), RunnerProps.IsCreateFolder)
            == if cloud.findFolder(name, config.projectFolderId).None? then [CreateFolder(name, config.projectFolderId)] else []
  {
    var loop := ScriptParts(cloud, fs, config, week);
    var folder := WeekFolder(cloud, config, week);
    DiscoveryWarnings(fs, week);
    ProbeKinds(cloud, config, week, folder.folderId);
    FolderOnlyFilter(Discover(fs, week).effects, folder.effects, FormProbe(cloud, config, week, folder.folderId).effects, loop);
    WeekFolderCreates(cloud, config, week);
  }

  /** Neither the discovery, the form step nor the loop creates a folder. */
  lemma FolderOnlyFilter(found: seq<Effect>, folder: seq<Effect>, probe: seq<Effect>, loop: seq<Effect>)
    requires forall e :: e in found ==> !e.Request?
    requires forall e :: e in probe ==> e.Request? ==> ProbeCall(e.call)
    requires forall e :: e in loop ==> AnyLoopEffect(e)
    ensures Filter(Calls(found + folder + probe + loop), RunnerProps.IsCreateFolder)
            == Filter(Calls(folder), RunnerProps.IsCreateFolder)
  {
    AppendAssoc(found + folder, probe, loop);
    RunnerProps.FilterAround(found, folder, probe + loop, RunnerProps.IsCreateFolder);
  }

  /**
   * The script asks for a new form at most once: exactly when the form
   * file is not in the week folder, titled for the week.
   */
  lemma FormCreatedOnce(cloud: Cloud, fs: LocalFs, config: Config, week: nat)
    ensures Filter(Calls(ScriptSpec(cloud, fs, config, week).effects), RunnerProps.IsCreateForm)
            == if cloud.findFile(FormFileName(week), WeekFolder(cloud, config, week).folderId).None?
               then [CreateForm(FormTitle(week))] else []
  {
    var loop := ScriptParts(cloud, fs, config, week);
    var found := Discover(fs, week);
    var folder := WeekFolder(cloud, config, week);
    DiscoveryWarnings(fs, week);
    WeekFolderRequests(cloud, config, week);
    RunnerProps.FilterAround(found.effects + folder.effects, FormProbe(cloud, config, week, folder.folderId).effects, loop,
                             RunnerProps.IsCreateForm);
    FormProbeCreates(cloud, config, week, folder.folderId);
  }

  /** The opening sends no batch, so the form holds what the loop put there. */
  lemma FilledByLoop(opening: seq<Effect>, cloud: Cloud, folderId: Option<Id>, formId: Id, menus: Menus, images: Images)
    requires Covers(menus, images)
    requires forall e :: e in opening ==> OpeningEffect(e)
    ensures ApplyInOrder([], UpdateBatches(opening + DaySteps(cloud, folderId, formId, menus, images, Days)))
            == Some(Blocks(KeptDays(cloud, folderId, menus, images, Days)))
  {
    var loop := DaySteps(cloud, folderId, formId, menus, images, Days);
    UpdateBatchesAppend(opening, loop);
    RunnerProps.NoUpdateBatches(opening);
    assert [] + UpdateBatches(loop) == UpdateBatches(loop);
    DayBlocksMondayFirst(cloud, folderId, formId, menus, images);
  }

  /** The opening skips no day, so the skipped days are the loop's. */
  lemma SkippedByLoop(opening: seq<Effect>, cloud: Cloud, folderId: Option<Id>, formId: Id, menus: Menus, images: Images, d: Day)
    requires Covers(menus, images)
    requires forall e :: e in opening ==> OpeningEffect(e)
    ensures Log(Warning, SkippingDay(d)) in opening + DaySteps(cloud, folderId, formId, menus, images, Days)
            <==> SkipsDay(menus, images, d)
  {
    EveryDayListed();
    DaySkips(cloud, folderId, formId, menus, images, Days, d);
    assert !OpeningEffect(Log(Warning, SkippingDay(d)));
  }

  /** The batches a completed script sends, applied in order to an empty form, give the kept days' blocks, Monday first. */
  lemma CompletedScriptFillsForm(cloud: Cloud, fs: LocalFs, config: Config, week: nat)
    requires ScriptSpec(cloud, fs, config, week).end == Completed
    ensures var found := Discover(fs, week);
            ApplyInOrder([], UpdateBatches(ScriptSpec(cloud, fs, config, week).effects))
            == Some(Blocks(KeptDays(cloud, WeekFolder(cloud, config, week).folderId, found.menus, found.images, Days)))
  {
    var loop := ScriptParts(cloud, fs, config, week);
    var found := Discover(fs, week);
    var folderId := WeekFolder(cloud, config, week).folderId;
    OpeningKinds(cloud, fs, config, week);
    FilledByLoop(Opening(cloud, fs, config, week), cloud, folderId,
                 FormProbe(cloud, config, week, folderId).status.formId, found.menus, found.images);
  }

  /** A completed script reports as skipped exactly the days without a menu or a picture. */
  lemma CompletedScriptSkips(cloud: Cloud, fs: LocalFs, config: Config, week: nat, d: Day)
    requires ScriptSpec(cloud, fs, config, week).end == Completed
    ensures var found := Discover(fs, week);
            Log(Warning, SkippingDay(d)) in ScriptSpec(cloud, fs, config, week).effects
            <==> SkipsDay(found.menus, found.images, d)
  {
    var loop := ScriptParts(cloud, fs, config, week);
    var found := Discover(fs, week);
    var folderId := WeekFolder(cloud, config, week).folderId;
    OpeningKinds(cloud, fs, config, week);
    SkippedByLoop(Opening(cloud, fs, config, week), cloud, folderId,
                  FormProbe(cloud, config, week, folderId).status.formId, found.menus, found.images, d);
  }
}
