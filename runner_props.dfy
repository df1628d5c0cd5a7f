/**
 * What a weekly run of `ScriptRunner` promises, proved about `RunnerSpec`:
 * validation gates every request, the folder and the form are created only
 * when missing, an existing form is left alone, the uploads go Monday to
 * Friday under fixed names, the progress bar follows a fixed sequence, and
 * a finished run leaves the form with the kept days' blocks Monday first.
 */
module RunnerProps {

  import opened Wrappers
  import opened FormRequests
  import opened Sharing
  import opened Environment
  import opened WeekPaths
  import opened RunnerSpec

  // ---------------------------------------------------------------------
  // Reading short traces
  // ---------------------------------------------------------------------

  lemma CallsCons(e: Effect, rest: seq<Effect>)
    ensures Calls([e] + rest) == (if e.Request? then [e.call] else []) + Calls(rest)
  {
    assert ([e] + rest)[1..] == rest;
  }

  lemma ProgressesCons(e: Effect, rest: seq<Effect>)
    ensures Progresses([e] + rest) == (if e.Progress? then [e.percent] else []) + Progresses(rest)
  {
    assert ([e] + rest)[1..] == rest;
  }

  lemma FilterCons(c: Call, rest: seq<Call>, keep: Call -> bool)
    ensures Filter([c] + rest, keep) == (if keep(c) then [c] else []) + Filter(rest, keep)
  {
    assert ([c] + rest)[1..] == rest;
  }

  /** A trace without a progress report reports no progress. */
  lemma NoProgresses(effects: seq<Effect>)
    requires forall e :: e in effects ==> !e.Progress?
    ensures Progresses(effects) == []
  {
  }

  /** A trace without an `UpdateForm` request sends no batch. */
  lemma {:induction false} NoUpdateBatches(effects: seq<Effect>)
    requires forall c :: Request(c) in effects ==> !c.UpdateForm?
    ensures UpdateBatches(effects) == []
    decreases |effects|
  {
    if effects != [] {
      assert effects[0] in effects;
      assert forall c :: Request(c) in effects[1..] ==> Request(c) in effects;
      NoUpdateBatches(effects[1..]);
    }
  }

  /** No request of the kind, nothing kept. */
  lemma FilterNone(cs: seq<Call>, keep: Call -> bool)
    requires forall c :: c in cs ==> !keep(c)
    ensures Filter(cs, keep) == []
  {
  }

  /** Requests of a kind are only those of the middle stretch when the stretches around it send none. */
  lemma FilterAround(pre: seq<Effect>, mid: seq<Effect>, post: seq<Effect>, keep: Call -> bool)
    requires forall c :: Request(c) in pre ==> !keep(c)
    requires forall c :: Request(c) in post ==> !keep(c)
    ensures Filter(Calls(pre + mid + post), keep) == Filter(Calls(mid), keep)
  {
    CallsAppend(pre + mid, post);
    CallsAppend(pre, mid);
    FilterAppend(Calls(pre) + Calls(mid), Calls(post), keep);
    FilterAppend(Calls(pre), Calls(mid), keep);
    FilterNone(Calls(pre), keep);
    FilterNone(Calls(post), keep);
  }

  /** A trace whose only request of a kind is `c` sends that kind exactly once. */
  lemma FilterOnce(pre: seq<Effect>, c: Call, post: seq<Effect>, keep: Call -> bool)
    requires keep(c)
    requires forall x :: Request(x) in pre ==> !keep(x)
    requires forall x :: Request(x) in post ==> !keep(x)
    ensures Filter(Calls(pre + [Request(c)] + post), keep) == [c]
  {
    FilterAround(pre, [Request(c)], post, keep);
    CallsCons(Request(c), []);
    FilterCons(c, [], keep);
  }

  // ---------------------------------------------------------------------
  // upload_and_process_images
  // ---------------------------------------------------------------------

  predicate IsUpload(c: Call) {
    c.UploadFile?
  }

  /** The upload request for day `j`: its chosen path, the name `<j+1>.jpeg`, the week folder. */
  function UploadRequest(paths: seq<Option<Path>>, folderId: Option<Id>, j: nat): Call
    requires j < |paths| && AllSelected(paths)
  {
    UploadFile(paths[j].value, UploadName(j), folderId, "image/jpeg")
  }

  /** The upload requests for the first `k` days, Monday first. */
  function UploadRequests(paths: seq<Option<Path>>, folderId: Option<Id>, k: nat): (cs: seq<Call>)
    requires k <= |paths| && AllSelected(paths)
    ensures |cs| == k && forall j :: 0 <= j < k ==> cs[j] == UploadRequest(paths, folderId, j)
  {
    if k == 0 then [] else UploadRequests(paths, folderId, k - 1) + [UploadRequest(paths, folderId, k - 1)]
  }

  /** The progress reported after each of the first `k` days. */
  function Milestones(k: nat): (ps: seq<int>)
    ensures |ps| == k && forall j :: 0 <= j < k ==> ps[j] == ProgressAfter(j)
  {
    if k == 0 then [] else Milestones(k - 1) + [ProgressAfter(k - 1)]
  }

  /** An effect of the steps themselves: neither the closing error report nor the re-enabled buttons. */
  predicate Inner(e: Effect) {
    !e.EnableButtons? && !(e.Log? && e.msg.RunFailed?)
  }

  /** After the upload, an iteration only asks for the menu and reports no progress. */
  lemma FetchMenuKinds(cloud: Cloud, json: Codec, name: string, day: Day, fileId: Option<Id>, data: DayData)
    requires Complete(data)
    ensures forall e :: e in FetchMenu(cloud, json, name, day, fileId, data).effects ==>
              Inner(e) && !e.Progress? && (e.Request? ==> e.call.GetMenuJson?)
  {
  }

  /** One iteration only uploads and asks for the menu, and neither reports an error nor re-enables the buttons. */
  lemma UploadDayKinds(cloud: Cloud, json: Codec, path: Path, folderId: Option<Id>, data: DayData, i: nat)
    requires i < |Days| && Complete(data)
    ensures var r := UploadDay(cloud, json, path, folderId, data, i);
      (forall e :: e in r.effects ==> Inner(e))
      && (forall c :: Request(c) in r.effects ==> c.UploadFile? || c.GetMenuJson?)
  {
    var day := Days[i];
    match cloud.upload(path, UploadName(i), folderId, "image/jpeg")
    case UploadRaised =>
    case UploadReturned(fileId) =>
      FetchMenuKinds(cloud, json, UploadName(i), day, fileId, data[day := data[day].(imageId := fileId)]);
  }

  /** One iteration uploads the day's image exactly once, under `<i+1>.jpeg`, into the week folder. */
  lemma UploadDayUploads(cloud: Cloud, json: Codec, path: Path, folderId: Option<Id>, data: DayData, i: nat)
    requires i < |Days| && Complete(data)
    ensures var r := UploadDay(cloud, json, path, folderId, data, i);
      Filter(Calls(r.effects), IsUpload) == [UploadFile(path, UploadName(i), folderId, "image/jpeg")]
  {
    var r := UploadDay(cloud, json, path, folderId, data, i);
    var up := UploadFile(path, UploadName(i), folderId, "image/jpeg");
    var day := Days[i];
    match cloud.upload(path, UploadName(i), folderId, "image/jpeg")
    case UploadRaised =>
      SingleUpload([Request(up)], up);
    case UploadReturned(fileId) =>
      var f := FetchMenu(cloud, json, UploadName(i), day, fileId, data[day := data[day].(imageId := fileId)]);
      FetchMenuKinds(cloud, json, UploadName(i), day, fileId, data[day := data[day].(imageId := fileId)]);
      assert r.effects[1..] == f.effects + r.effects[1 + |f.effects|..];
      SingleUpload(r.effects, up);
  }

  /** A trace that opens with an upload request and holds no other sends exactly that upload. */
  lemma SingleUpload(effects: seq<Effect>, up: Call)
    requires effects != [] && effects[0] == Request(up) && up.UploadFile?
    requires forall c :: Request(c) in effects[1..] ==> !c.UploadFile?
    ensures Filter(Calls(effects), IsUpload) == [up]
  {
    var tail := effects[1..];
    assert effects == [Request(up)] + tail;
    CallsCons(Request(up), tail);
    FilterCons(up, Calls(tail), IsUpload);
    NoUploadFilter(Calls(tail));
  }

  /** One iteration reports the day's progress exactly when it does not stop the loop. */
  lemma UploadDayProgress(cloud: Cloud, json: Codec, path: Path, folderId: Option<Id>, data: DayData, i: nat)
    requires i < |Days| && Complete(data)
    ensures var r := UploadDay(cloud, json, path, folderId, data, i);
      Progresses(r.effects) == (if r.error.None? then [ProgressAfter(i)] else [])
  {
    var r := UploadDay(cloud, json, path, folderId, data, i);
    var up := UploadFile(path, UploadName(i), folderId, "image/jpeg");
    var day := Days[i];
    match cloud.upload(path, UploadName(i), folderId, "image/jpeg")
    case UploadRaised =>
      ProgressesCons(Request(up), []);
    case UploadReturned(fileId) =>
      var f := FetchMenu(cloud, json, UploadName(i), day, fileId, data[day := data[day].(imageId := fileId)]);
      FetchMenuKinds(cloud, json, UploadName(i), day, fileId, data[day := data[day].(imageId := fileId)]);
      var progress := if f.error.None? then [Progress(ProgressAfter(i))] else [];
      ProgressesAppend([Request(up)] + f.effects, progress);
      ProgressesAppend([Request(up)], f.effects);
      NoProgresses([Request(up)]);
      NoProgresses(f.effects);
      if f.error.None? {
        ProgressesCons(Progress(ProgressAfter(i)), []);
      }
  }

  lemma NoUploadFilter(cs: seq<Call>)
    requires forall c :: c in cs ==> !c.UploadFile?
    ensures Filter(cs, IsUpload) == []
  {
  }

  /**
   * What day `j`'s record holds once its iteration went through: the id the
   * upload returned, and the menu parsed from the JSON fetched for that id
   * (the earlier menu when the upload returned no id).
   */
  predicate StoredAs(cloud: Cloud, json: Codec, path: Path, folderId: Option<Id>, j: nat, before: DayRecord, after: DayRecord) {
    var reply := cloud.upload(path, UploadName(j), folderId, "image/jpeg");
    reply.UploadReturned? && after.imageId == reply.fileId
    && (reply.fileId.None? ==> after.menu == before.menu)
    && (reply.fileId.Some? ==>
          cloud.menuJson(reply.fileId.value).Some?
          && json.parseMenu(cloud.menuJson(reply.fileId.value).value) == Some(after.menu))
  }

  /** An iteration that does not stop the loop stores the day's id and menu, and touches no other day. */
  lemma UploadDayStores(cloud: Cloud, json: Codec, path: Path, folderId: Option<Id>, data: DayData, i: nat)
    requires i < |Days| && Complete(data)
    ensures var r := UploadDay(cloud, json, path, folderId, data, i);
      (forall d :: d != Days[i] ==> r.data[d] == data[d])
      && (r.error.None? ==> StoredAs(cloud, json, path, folderId, i, data[Days[i]], r.data[Days[i]]))
  {
    var day := Days[i];
    match cloud.upload(path, UploadName(i), folderId, "image/jpeg")
    case UploadRaised =>
    case UploadReturned(fileId) =>
      FetchMenuStores(cloud, json, UploadName(i), day, fileId, data[day := data[day].(imageId := fileId)]);
  }

  /** Fetching the menu writes only the day's menu, and only when it was fetched and parsed. */
  lemma FetchMenuStores(cloud: Cloud, json: Codec, name: string, day: Day, fileId: Option<Id>, data: DayData)
    requires Complete(data)
    ensures var r := FetchMenu(cloud, json, name, day, fileId, data);
      (forall d :: d != day ==> r.data[d] == data[d])
      && r.data[day].imageId == data[day].imageId
      && (r.error.None? && fileId.None? ==> r.data[day].menu == data[day].menu)
      && (r.error.None? && fileId.Some? ==>
            cloud.menuJson(fileId.value).Some? && json.parseMenu(cloud.menuJson(fileId.value).value) == Some(r.data[day].menu))
  {
  }

  /**
   * The loop's requests are uploads and menu requests only, and it neither
   * reports the run's error nor re-enables the buttons itself.
   */
  lemma {:induction false} UploadsKinds(cloud: Cloud, json: Codec, paths: seq<Option<Path>>, folderId: Option<Id>,
                                        data0: DayData, n: nat)
    requires |paths| == |Days| && AllSelected(paths) && Complete(data0) && n <= |Days|
    ensures var up := UploadsUpTo(cloud, json, paths, folderId, data0, n);
      (forall e :: e in up.effects ==> Inner(e))
      && (forall c :: Request(c) in up.effects ==> c.UploadFile? || c.GetMenuJson?)
  {
    if n > 0 {
      var prev := UploadsUpTo(cloud, json, paths, folderId, data0, n - 1);
      UploadsKinds(cloud, json, paths, folderId, data0, n - 1);
      if prev.error.None? {
        UploadDayKinds(cloud, json, paths[n - 1].value, folderId, prev.data, n - 1);
      }
    }
  }

  /**
   * The loop reports 28, 46, 64, 82, 100 after Monday to Friday, as far as
   * it gets: every day when no error stopped it, and one fewer than it
   * tried when one did.
   */
  lemma {:induction false} UploadsProgress(cloud: Cloud, json: Codec, paths: seq<Option<Path>>, folderId: Option<Id>,
                                           data0: DayData, n: nat)
    requires |paths| == |Days| && AllSelected(paths) && Complete(data0) && n <= |Days|
    ensures var up := UploadsUpTo(cloud, json, paths, folderId, data0, n);
      var k := |Progresses(up.effects)|;
      Progresses(up.effects) == Milestones(k) && k <= n && (up.error.None? <==> k == n)
  {
    if n > 0 {
      UploadsProgress(cloud, json, paths, folderId, data0, n - 1);
      if UploadsUpTo(cloud, json, paths, folderId, data0, n - 1).error.None? {
        ProgressStep(cloud, json, paths, folderId, data0, n);
      }
    }
  }

  /** Day `n-1`'s iteration after a clean run of the days before it. */
  lemma ProgressStep(cloud: Cloud, json: Codec, paths: seq<Option<Path>>, folderId: Option<Id>, data0: DayData, n: nat)
    requires |paths| == |Days| && AllSelected(paths) && Complete(data0) && 0 < n <= |Days|
    requires var prev := UploadsUpTo(cloud, json, paths, folderId, data0, n - 1);
      prev.error.None? && Progresses(prev.effects) == Milestones(n - 1)
    ensures var up := UploadsUpTo(cloud, json, paths, folderId, data0, n);
      Progresses(up.effects) == (if up.error.None? then Milestones(n) else Milestones(n - 1))
  {
    var prev := UploadsUpTo(cloud, json, paths, folderId, data0, n - 1);
    var step := UploadDay(cloud, json, paths[n - 1].value, folderId, prev.data, n - 1);
    ProgressesAppend(prev.effects, step.effects);
    UploadDayProgress(cloud, json, paths[n - 1].value, folderId, prev.data, n - 1);
  }

  /**
   * A loop no error stopped uploads the chosen images Monday first, each
   * once, as `1.jpeg` to `5.jpeg` into the week folder.
   */
  lemma {:induction false} UploadsAll(cloud: Cloud, json: Codec, paths: seq<Option<Path>>, folderId: Option<Id>,
                                      data0: DayData, n: nat)
    requires |paths| == |Days| && AllSelected(paths) && Complete(data0) && n <= |Days|
    ensures var up := UploadsUpTo(cloud, json, paths, folderId, data0, n);
      up.error.None? ==> Filter(Calls(up.effects), IsUpload) == UploadRequests(paths, folderId, n)
  {
    if n > 0 && UploadsUpTo(cloud, json, paths, folderId, data0, n).error.None? {
      UploadsAll(cloud, json, paths, folderId, data0, n - 1);
      UploadStep(cloud, json, paths, folderId, data0, n);
    }
  }

  /** Day `n-1`'s iteration after the days before it were uploaded. */
  lemma UploadStep(cloud: Cloud, json: Codec, paths: seq<Option<Path>>, folderId: Option<Id>, data0: DayData, n: nat)
    requires |paths| == |Days| && AllSelected(paths) && Complete(data0) && 0 < n <= |Days|
    requires var prev := UploadsUpTo(cloud, json, paths, folderId, data0, n - 1);
      prev.error.None? && Filter(Calls(prev.effects), IsUpload) == UploadRequests(paths, folderId, n - 1)
    ensures var up := UploadsUpTo(cloud, json, paths, folderId, data0, n);
      Filter(Calls(up.effects), IsUpload) == UploadRequests(paths, folderId, n)
  {
    var prev := UploadsUpTo(cloud, json, paths, folderId, data0, n - 1);
    var step := UploadDay(cloud, json, paths[n - 1].value, folderId, prev.data, n - 1);
    UploadDayUploads(cloud, json, paths[n - 1].value, folderId, prev.data, n - 1);
    CallsAppend(prev.effects, step.effects);
    FilterAppend(Calls(prev.effects), Calls(step.effects), IsUpload);
  }

  /** Once an iteration failed, the later ones change nothing. */
  lemma Sticks(cloud: Cloud, json: Codec, paths: seq<Option<Path>>, folderId: Option<Id>, data0: DayData, n: nat)
    requires |paths| == |Days| && AllSelected(paths) && Complete(data0) && 0 < n <= |Days|
    requires UploadsUpTo(cloud, json, paths, folderId, data0, n - 1).error.Some?
    ensures UploadsUpTo(cloud, json, paths, folderId, data0, n) == UploadsUpTo(cloud, json, paths, folderId, data0, n - 1)
  {
  }

  /**
   * A loop an error stopped uploads the images Monday first up to the day
   * that failed, which is the day after the last progress report.
   */
  lemma {:induction false} UploadsStopped(cloud: Cloud, json: Codec, paths: seq<Option<Path>>, folderId: Option<Id>,
                                         data0: DayData, n: nat)
    requires |paths| == |Days| && AllSelected(paths) && Complete(data0) && n <= |Days|
    requires UploadsUpTo(cloud, json, paths, folderId, data0, n).error.Some?
    ensures StoppedBefore(UploadsUpTo(cloud, json, paths, folderId, data0, n).effects, paths, folderId, n)
  {
    var prev := UploadsUpTo(cloud, json, paths, folderId, data0, n - 1);
    if prev.error.Some? {
      UploadsStopped(cloud, json, paths, folderId, data0, n - 1);
      Sticks(cloud, json, paths, folderId, data0, n);
      StoppedBeforeLater(prev.effects, paths, folderId, n - 1);
    } else {
      StoppedAt(cloud, json, paths, folderId, data0, n);
    }
  }

  lemma StoppedBeforeLater(effects: seq<Effect>, paths: seq<Option<Path>>, folderId: Option<Id>, n: nat)
    requires n < |paths| && AllSelected(paths) && StoppedBefore(effects, paths, folderId, n)
    ensures StoppedBefore(effects, paths, folderId, n + 1)
  {
  }

  /**
   * The loop runs through its first `n` days exactly when each of their
   * iterations goes through; an upload that returned no id does not stop it.
   */
  lemma {:induction false} UploadsGoThrough(cloud: Cloud, json: Codec, paths: seq<Option<Path>>, folderId: Option<Id>,
                                            data0: DayData, n: nat)
    requires |paths| == |Days| && AllSelected(paths) && Complete(data0) && n <= |Days|
    ensures UploadsUpTo(cloud, json, paths, folderId, data0, n).error.None?
            <==> forall j :: 0 <= j < n ==> GoesThrough(cloud, json, paths[j].value, folderId, j)
    decreases n
  {
    if n > 0 {
      UploadsGoThrough(cloud, json, paths, folderId, data0, n - 1);
      NextGoesThrough(cloud, json, paths, folderId, data0, n);
      assert (forall j :: 0 <= j < n ==> GoesThrough(cloud, json, paths[j].value, folderId, j))
             <==> (forall j :: 0 <= j < n - 1 ==> GoesThrough(cloud, json, paths[j].value, folderId, j))
                  && GoesThrough(cloud, json, paths[n - 1].value, folderId, n - 1);
    }
  }

  /** Day `n-1`'s iteration ends the first `n` days clean exactly when the days before ended clean and it goes through. */
  lemma NextGoesThrough(cloud: Cloud, json: Codec, paths: seq<Option<Path>>, folderId: Option<Id>, data0: DayData, n: nat)
    requires |paths| == |Days| && AllSelected(paths) && Complete(data0) && 0 < n <= |Days|
    ensures UploadsUpTo(cloud, json, paths, folderId, data0, n).error.None?
            <==> UploadsUpTo(cloud, json, paths, folderId, data0, n - 1).error.None?
                 && GoesThrough(cloud, json, paths[n - 1].value, folderId, n - 1)
  {
    var prev := UploadsUpTo(cloud, json, paths, folderId, data0, n - 1);
    if prev.error.None? {
      var step := UploadDay(cloud, json, paths[n - 1].value, folderId, prev.data, n - 1);
    }
  }

  /**
   * The trace uploaded the images Monday first up to some day no later
   * than `n`, and that day is the one after the last progress report.
   */
  predicate StoppedBefore(effects: seq<Effect>, paths: seq<Option<Path>>, folderId: Option<Id>, n: nat)
    requires n <= |paths| && AllSelected(paths)
  {
    var m := |Progresses(effects)| + 1;
    m <= n && Filter(Calls(effects), IsUpload) == UploadRequests(paths, folderId, m)
  }

  /** The loop ran clean up to day `n-2`; day `n-1` stopped it. */
  lemma StoppedAt(cloud: Cloud, json: Codec, paths: seq<Option<Path>>, folderId: Option<Id>, data0: DayData, n: nat)
    requires |paths| == |Days| && AllSelected(paths) && Complete(data0) && 0 < n <= |Days|
    requires UploadsUpTo(cloud, json, paths, folderId, data0, n - 1).error.None?
    requires UploadsUpTo(cloud, json, paths, folderId, data0, n).error.Some?
    ensures var up := UploadsUpTo(cloud, json, paths, folderId, data0, n);
      |Progresses(up.effects)| + 1 == n && Filter(Calls(up.effects), IsUpload) == UploadRequests(paths, folderId, n)
  {
    var prev := UploadsUpTo(cloud, json, paths, folderId, data0, n - 1);
    UploadsAll(cloud, json, paths, folderId, data0, n - 1);
    UploadsProgress(cloud, json, paths, folderId, data0, n - 1);
    var step := UploadDay(cloud, json, paths[n - 1].value, folderId, prev.data, n - 1);
    UploadDayUploads(cloud, json, paths[n - 1].value, folderId, prev.data, n - 1);
    UploadDayProgress(cloud, json, paths[n - 1].value, folderId, prev.data, n - 1);
    NextUpload(paths, folderId, n, prev.effects, step.effects);
  }

  /** Appending day `n-1`'s iteration to the first `n-1` days' trace. */
  lemma NextUpload(paths: seq<Option<Path>>, folderId: Option<Id>, n: nat, before: seq<Effect>, step: seq<Effect>)
    requires 0 < n <= |paths| && AllSelected(paths)
    requires Filter(Calls(before), IsUpload) == UploadRequests(paths, folderId, n - 1)
    requires Filter(Calls(step), IsUpload) == [UploadRequest(paths, folderId, n - 1)]
    requires Progresses(before) == Milestones(n - 1)
    requires Progresses(step) == [] || Progresses(step) == [ProgressAfter(n - 1)]
    ensures Filter(Calls(before + step), IsUpload) == UploadRequests(paths, folderId, n)
    ensures |Progresses(before + step)| == n - 1 + |Progresses(step)|
  {
    CallsAppend(before, step);
    FilterAppend(Calls(before), Calls(step), IsUpload);
    ProgressesAppend(before, step);
  }

  /**
   * A loop no error stopped leaves each of the first `n` days with the id
   * its upload returned and the menu parsed for it, and the later days as
   * they were.
   */
  lemma {:induction false} UploadsStore(cloud: Cloud, json: Codec, paths: seq<Option<Path>>, folderId: Option<Id>,
                                        data0: DayData, n: nat)
    requires |paths| == |Days| && AllSelected(paths) && Complete(data0) && n <= |Days|
    ensures var up := UploadsUpTo(cloud, json, paths, folderId, data0, n);
      (forall j :: n <= j < |Days| ==> up.data[Days[j]] == data0[Days[j]])
      && (up.error.None? ==>
            forall j :: 0 <= j < n ==> StoredAs(cloud, json, paths[j].value, folderId, j, data0[Days[j]], up.data[Days[j]]))
  {
    if n > 0 {
      var prev := UploadsUpTo(cloud, json, paths, folderId, data0, n - 1);
      UploadsStore(cloud, json, paths, folderId, data0, n - 1);
      if prev.error.None? {
        UploadDayStores(cloud, json, paths[n - 1].value, folderId, prev.data, n - 1);
        forall j | 0 <= j < |Days| && j != n - 1
          ensures Days[j] != Days[n - 1]
        {
          var _ := DayIndex(Days[j]);
        }
      }
    }
  }

  // ---------------------------------------------------------------------
  // configure_form
  // ---------------------------------------------------------------------

  /** A kept day's block: its image URL and menu come from the day's record. */
  lemma {:induction false} KeptEntries(data: DayData, ds: seq<Day>)
    requires Complete(data)
    ensures forall e :: e in Kept(data, ds) ==>
              e.day in ds && !Skipped(data[e.day]) && e == EntryOf(data, e.day)
    ensures forall d :: d in ds && !Skipped(data[d]) ==> EntryOf(data, d) in Kept(data, ds)
    decreases |ds|
  {
    if ds != [] {
      KeptEntries(data, ds[1..]);
      assert forall d :: d in ds ==> d == ds[0] || d in ds[1..];
      assert forall d :: d in ds[1..] ==> d in ds;
    }
  }

  /**
   * The loop only sends `batchUpdate` requests to the new form, reports
   * no progress, and neither reports the run's error nor re-enables the
   * buttons.
   */
  lemma {:induction false} ConfigureKinds(formId: Id, data: DayData, ds: seq<Day>)
    requires Complete(data)
    ensures forall e :: e in ConfigureDays(formId, data, ds) ==> Inner(e) && !e.Progress?
    ensures forall c :: Request(c) in ConfigureDays(formId, data, ds) ==> c.UpdateForm? && c.formId == formId
    decreases |ds|
  {
    if ds != [] {
      ConfigureKinds(formId, data, ds[1..]);
      ConfigureDayKinds(formId, data, ds[0]);
    }
  }

  lemma ConfigureDayKinds(formId: Id, data: DayData, d: Day)
    requires Complete(data)
    ensures forall e :: e in ConfigureDay(formId, data, d) ==>
              Inner(e) && !e.Progress? && (e.Request? ==> e.call.UpdateForm? && e.call.formId == formId)
  {
  }

  /** A day is reported as skipped exactly when it is one of the days and lacks a menu or an image id. */
  lemma {:induction false} ConfigureSkips(formId: Id, data: DayData, ds: seq<Day>, d: Day)
    requires Complete(data)
    ensures Log(Error, SkippingDay(d)) in ConfigureDays(formId, data, ds) <==> d in ds && Skipped(data[d])
    decreases |ds|
  {
    if ds != [] {
      ConfigureSkips(formId, data, ds[1..], d);
      assert d in ds <==> d == ds[0] || d in ds[1..];
    }
  }

  /** The batches go out for the kept days, last day first. */
  lemma {:induction false} ConfigureBatches(formId: Id, data: DayData, ds: seq<Day>)
    requires Complete(data)
    ensures UpdateBatches(ConfigureDays(formId, data, ds)) == ReversedBatches(Kept(data, ds))
    decreases |ds|
  {
    if ds != [] {
      var later := ConfigureDays(formId, data, ds[1..]);
      var here := ConfigureDay(formId, data, ds[0]);
      ConfigureBatches(formId, data, ds[1..]);
      UpdateBatchesAppend(later, here);
      var kept := if Skipped(data[ds[0]]) then [] else [EntryOf(data, ds[0])];
      assert Kept(data, ds) == kept + Kept(data, ds[1..]);
      ConfigureDayBatch(formId, data, ds[0]);
      if kept == [] {
        assert kept + Kept(data, ds[1..]) == Kept(data, ds[1..]);
      }
    }
  }

  /** One iteration sends the day's batch when the day is kept, and nothing otherwise. */
  lemma ConfigureDayBatch(formId: Id, data: DayData, d: Day)
    requires Complete(data)
    ensures UpdateBatches(ConfigureDay(formId, data, d)) ==
            (if Skipped(data[d]) then [] else [Batch(EntryOf(data, d))])
  {
    var here := ConfigureDay(formId, data, d);
    if !Skipped(data[d]) {
      assert here == [here[0]] + ([here[1]] + [here[2]]);
      UpdateBatchesAppend([here[0]], [here[1]] + [here[2]]);
      UpdateBatchesAppend([here[1]], [here[2]]);
    }
  }

  /**
   * The loop's batches, applied in order to an empty form, give the kept
   * days' blocks, Monday first.
   */
  lemma ConfiguredForm(formId: Id, data: DayData)
    requires Complete(data)
    ensures ApplyInOrder([], UpdateBatches(ConfigureDays(formId, data, Days))) == Some(Blocks(Kept(data, Days)))
  {
    ConfigureBatches(formId, data, Days);
    ReverseInsertionRestoresOrder([], Kept(data, Days));
    assert Blocks(Kept(data, Days)) + [] == Blocks(Kept(data, Days));
  }

  // ---------------------------------------------------------------------
  // process_week_folder and check_or_create_form
  // ---------------------------------------------------------------------

  /** The week folder step reports 10% once, at its end. */
  lemma FolderStepProgress(cloud: Cloud, config: Config, week: nat)
    ensures Progresses(FolderStep(cloud, config, week).effects) == [10]
  {
    var r := FolderStep(cloud, config, week);
    var before := r.effects[..|r.effects| - 1];
    assert r.effects == before + [Progress(10)];
    assert forall e :: e in before ==> !e.Progress?;
    NoProgresses(before);
    ProgressesAppend(before, [Progress(10)]);
    ProgressesCons(Progress(10), []);
  }

  /**
   * The week folder step only looks up and creates the folder named after
   * the week in the project folder, and neither reports the run's error
   * nor re-enables the buttons.
   */
  lemma FolderStepRequests(cloud: Cloud, config: Config, week: nat)
    ensures var r := FolderStep(cloud, config, week);
      var name := WeekFolderName(week);
      (forall e :: e in r.effects ==> Inner(e))
      && (forall c :: Request(c) in r.effects ==>
            c == GetFolderId(name, config.projectFolderId) || c == CreateFolder(name, config.projectFolderId))
  {
  }

  predicate IsCreateFolder(c: Call) {
    c.CreateFolder?
  }

  /**
   * The week folder is created exactly when the lookup found none; the
   * run goes on with the folder found, else with the one created.
   */
  lemma FolderStepCreates(cloud: Cloud, config: Config, week: nat)
    ensures var r := FolderStep(cloud, config, week);
      var name := WeekFolderName(week);
      var found := cloud.findFolder(name, config.projectFolderId);
      (Request(CreateFolder(name, config.projectFolderId)) in r.effects <==> found.None?)
      && r.folderId == (if found.Some? then found else cloud.createFolder(name, config.projectFolderId))
  {
  }

  /** The folder step asks for the week folder at most once: exactly when the lookup found none. */
  lemma FolderStepCreatesOnce(cloud: Cloud, config: Config, week: nat)
    ensures var name := WeekFolderName(week);
      Filter(Calls(FolderStep(cloud, config, week).effects), IsCreateFolder)
      == if cloud.findFolder(name, config.projectFolderId).None? then [CreateFolder(name, config.projectFolderId)] else []
  {
    var r := FolderStep(cloud, config, week);
    var name := WeekFolderName(week);
    var lookup := [Request(GetFolderId(name, config.projectFolderId))];
    if cloud.findFolder(name, config.projectFolderId).None? {
      var created := cloud.createFolder(name, config.projectFolderId);
      assert r.effects == lookup + [Request(CreateFolder(name, config.projectFolderId))]
                         + [Log(Info, WeekFolderCreated(created)), Progress(10)];
      FilterOnce(lookup, CreateFolder(name, config.projectFolderId), [Log(Info, WeekFolderCreated(created)), Progress(10)], IsCreateFolder);
    } else {
      FilterNone(Calls(r.effects), IsCreateFolder);
    }
  }

  /** The requests `check_or_create_form` may send. */
  predicate FormCall(c: Call) {
    c.GetFileId? || c.GetForm? || c.GetWebViewLink? || c.CreateForm? || c.GetRootFolderId?
    || c.MoveFile? || c.CreatePermissions? || c.CreatePermission?
  }

  /**
   * The form step reports no progress, neither reports the run's error nor
   * re-enables the buttons, and sends only its own kinds of request.
   */
  lemma FormStepKinds(cloud: Cloud, config: Config, week: nat, folderId: Option<Id>)
    ensures var r := FormStep(cloud, config, week, folderId);
      forall e :: e in r.effects ==> Inner(e) && !e.Progress? && (e.Request? ==> FormCall(e.call))
  {
    match cloud.findFile(FormFileName(week), folderId)
    case Some(_) =>
      ExistingFormKinds(cloud, config, week, folderId);
    case None =>
      match cloud.createForm(FormTitle(week))
      case None =>
      case Some(form) =>
        NewFormKinds(cloud, config, week, folderId);
  }

  lemma ExistingFormKinds(cloud: Cloud, config: Config, week: nat, folderId: Option<Id>)
    requires cloud.findFile(FormFileName(week), folderId).Some?
    ensures var r := FormStep(cloud, config, week, folderId);
      forall e :: e in r.effects ==> Inner(e) && !e.Progress? && (e.Request? ==> FormCall(e.call))
  {
  }

  lemma NewFormKinds(cloud: Cloud, config: Config, week: nat, folderId: Option<Id>)
    requires cloud.findFile(FormFileName(week), folderId).None? && cloud.createForm(FormTitle(week)).Some?
    ensures var r := FormStep(cloud, config, week, folderId);
      forall e :: e in r.effects ==> Inner(e) && !e.Progress? && (e.Request? ==> FormCall(e.call))
  {
    var f := cloud.createForm(FormTitle(week)).value;
    var grants := PermissionStep(cloud, config.email, f.formId);
    PermissionStepKinds(cloud, config.email, f.formId);
  }

  lemma PermissionStepKinds(cloud: Cloud, email: string, formId: Id)
    ensures var r := PermissionStep(cloud, email, formId);
      forall e :: e in r.effects ==> e.Request? && (e.call.CreatePermissions? || e.call.CreatePermission?)
  {
  }

  /**
   * A form file already in the week folder is only read: its metadata and
   * its link are fetched, nothing is created, moved or shared, and the
   * run stops there.
   */
  lemma ExistingFormStep(cloud: Cloud, config: Config, week: nat, folderId: Option<Id>)
    requires cloud.findFile(FormFileName(week), folderId).Some?
    ensures var r := FormStep(cloud, config, week, folderId);
      (r.status == FormExists || r.status == FormLookupCrashed)
      && (forall c :: Request(c) in r.effects ==> c.GetFileId? || c.GetForm? || c.GetWebViewLink?)
  {
  }

  predicate IsCreateForm(c: Call) {
    c.CreateForm?
  }

  /**
   * Without a form file, a new form titled after the week is created;
   * when that fails the run stops, otherwise the form is moved into the
   * week folder under the week's file name and shared, with the owner
   * grant repeated only after the batch went through.
   */
  lemma NewFormStep(cloud: Cloud, config: Config, week: nat, folderId: Option<Id>)
    requires cloud.findFile(FormFileName(week), folderId).None?
    ensures var r := FormStep(cloud, config, week, folderId);
      var created := cloud.createForm(FormTitle(week));
      Request(CreateForm(FormTitle(week))) in r.effects
      && (created.None? ==> r.status == FormFailed(FormCreateFailed)
                            && forall c :: Request(c) in r.effects ==> !c.MoveFile? && !c.CreatePermissions?)
      && (created.Some? ==>
            var f := created.value;
            var batched := cloud.batchSucceeds(f.formId, FormPermissionBatch(config.email));
            Request(MoveFile(f.formId, folderId, cloud.rootFolder, FormFileName(week))) in r.effects
            && Request(CreatePermissions(f.formId, FormPermissionBatch(config.email))) in r.effects
            && (Request(CreatePermission(f.formId, OwnerRegrant(config.email))) in r.effects <==> batched)
            && r.status == (if batched && cloud.permissionSucceeds(f.formId, OwnerRegrant(config.email))
                            then FormCreated(f.formId) else FormFailed(PermissionsFailed)))
  {
  }

  /**
   * The form step asks for a new form at most once: exactly when the week
   * folder holds no form file, titled after the week.
   */
  lemma FormStepCreates(cloud: Cloud, config: Config, week: nat, folderId: Option<Id>)
    ensures Filter(Calls(FormStep(cloud, config, week, folderId).effects), IsCreateForm)
            == if cloud.findFile(FormFileName(week), folderId).None? then [CreateForm(FormTitle(week))] else []
  {
    if cloud.findFile(FormFileName(week), folderId).Some? {
      ExistingFormStep(cloud, config, week, folderId);
      FilterNone(Calls(FormStep(cloud, config, week, folderId).effects), IsCreateForm);
    } else {
      NewFormCreatesOnce(cloud, config, week, folderId);
    }
  }

  lemma NewFormCreatesOnce(cloud: Cloud, config: Config, week: nat, folderId: Option<Id>)
    requires cloud.findFile(FormFileName(week), folderId).None?
    ensures Filter(Calls(FormStep(cloud, config, week, folderId).effects), IsCreateForm) == [CreateForm(FormTitle(week))]
  {
    var r := FormStep(cloud, config, week, folderId);
    var title := FormTitle(week);
    var lookup := [Request(GetFileId(FormFileName(week), folderId)), Log(Info, FormDoesNotExist)];
    match cloud.createForm(title)
    case None =>
      assert r.effects == lookup + [Request(CreateForm(title))] + [];
      FilterOnce(lookup, CreateForm(title), [], IsCreateForm);
    case Some(f) =>
      var grants := PermissionStep(cloud, config.email, f.formId);
      var rest := [Log(Info, EmptyFormCreated(f.formId)), Log(Info, EmptyFormUrl(f.responderUri)),
                   Request(GetRootFolderId), Request(MoveFile(f.formId, folderId, cloud.rootFolder, FormFileName(week)))]
                  + grants.effects;
      PermissionStepKinds(cloud, config.email, f.formId);
      assert r.effects == lookup + [Request(CreateForm(title))] + rest;
      FilterOnce(lookup, CreateForm(title), rest, IsCreateForm);
  }

  // ---------------------------------------------------------------------
  // After a new form: the uploads, then the blocks
  // ---------------------------------------------------------------------

  /** What may happen after a new form: uploads, menu requests and `batchUpdate` requests to that form. */
  lemma CreatedKinds(cloud: Cloud, json: Codec, paths: seq<Option<Path>>, folderId: Option<Id>, data0: DayData, formId: Id)
    requires |paths| == |Days| && AllSelected(paths) && Complete(data0)
    ensures var r := CreatedSteps(cloud, json, paths, folderId, data0, formId);
      (r.outcome == Finished || r.outcome.Failed?)
      && (forall e :: e in r.effects ==> Inner(e))
      && (forall c :: Request(c) in r.effects ==>
            c.UploadFile? || c.GetMenuJson? || (c.UpdateForm? && c.formId == formId))
  {
    var up := UploadsUpTo(cloud, json, paths, folderId, data0, |Days|);
    var r := CreatedSteps(cloud, json, paths, folderId, data0, formId);
    UploadsKinds(cloud, json, paths, folderId, data0, |Days|);
    if up.error.None? {
      ConfigureKinds(formId, up.data, Days);
      assert r.effects == up.effects + ConfigureDays(formId, up.data, Days) + [Progress(100), Log(Info, ScriptFinished)];
    } else {
      assert r.effects == up.effects;
    }
  }

  /**
   * After a new form the progress bar goes 28, 46, 64, 82, 100 and then
   * 100 once more at the end; a failed upload stops it after the last day
   * that went through.
   */
  lemma CreatedProgress(cloud: Cloud, json: Codec, paths: seq<Option<Path>>, folderId: Option<Id>, data0: DayData, formId: Id)
    requires |paths| == |Days| && AllSelected(paths) && Complete(data0)
    ensures var r := CreatedSteps(cloud, json, paths, folderId, data0, formId);
      var k := |Progresses(r.effects)|;
      (r.outcome == Finished ==> Progresses(r.effects) == Milestones(|Days|) + [100])
      && (r.outcome != Finished ==> k < |Days| && Progresses(r.effects) == Milestones(k))
  {
    var up := UploadsUpTo(cloud, json, paths, folderId, data0, |Days|);
    UploadsProgress(cloud, json, paths, folderId, data0, |Days|);
    if up.error.None? {
      ConfigureKinds(formId, up.data, Days);
      ClosingProgress(up.effects, ConfigureDays(formId, up.data, Days));
    }
  }

  /** The blocks report no progress, and the closing report adds the final 100. */
  lemma ClosingProgress(uploads: seq<Effect>, configured: seq<Effect>)
    requires forall e :: e in configured ==> !e.Progress?
    ensures Progresses(uploads + configured + [Progress(100), Log(Info, ScriptFinished)]) == Progresses(uploads) + [100]
  {
    var closing := [Progress(100), Log(Info, ScriptFinished)];
    NoProgresses(configured);
    ProgressesAppend(uploads + configured, closing);
    ProgressesAppend(uploads, configured);
    assert closing == [Progress(100)] + [Log(Info, ScriptFinished)];
    ProgressesCons(Progress(100), [Log(Info, ScriptFinished)]);
    ProgressesCons(Log(Info, ScriptFinished), []);
  }

  /**
   * After a new form, the blocks are sent only when every upload went
   * through, and then they are the kept days' blocks, last day first.
   */
  lemma CreatedBatches(cloud: Cloud, json: Codec, paths: seq<Option<Path>>, folderId: Option<Id>, data0: DayData, formId: Id)
    requires |paths| == |Days| && AllSelected(paths) && Complete(data0)
    ensures var r := CreatedSteps(cloud, json, paths, folderId, data0, formId);
      UpdateBatches(r.effects) == (if r.outcome == Finished then ReversedBatches(Kept(r.data, Days)) else [])
  {
    var up := UploadsUpTo(cloud, json, paths, folderId, data0, |Days|);
    UploadsKinds(cloud, json, paths, folderId, data0, |Days|);
    NoUpdateBatches(up.effects);
    if up.error.None? {
      ConfigureBatches(formId, up.data, Days);
      ClosingBatches(up.effects, ConfigureDays(formId, up.data, Days));
    }
  }

  /** The closing report sends no batch. */
  lemma ClosingBatches(uploads: seq<Effect>, configured: seq<Effect>)
    requires UpdateBatches(uploads) == []
    ensures UpdateBatches(uploads + configured + [Progress(100), Log(Info, ScriptFinished)]) == UpdateBatches(configured)
  {
    var closing := [Progress(100), Log(Info, ScriptFinished)];
    NoUpdateBatches(closing);
    UpdateBatchesAppend(uploads + configured, closing);
    UpdateBatchesAppend(uploads, configured);
  }

  /**
   * After a new form, a run that finished uploaded the five chosen images
   * in order and stored each day's id and menu.
   */
  lemma CreatedUploads(cloud: Cloud, json: Codec, paths: seq<Option<Path>>, folderId: Option<Id>, data0: DayData, formId: Id)
    requires |paths| == |Days| && AllSelected(paths) && Complete(data0)
    ensures var r := CreatedSteps(cloud, json, paths, folderId, data0, formId);
      r.outcome == Finished ==>
        Filter(Calls(r.effects), IsUpload) == UploadRequests(paths, folderId, |Days|)
        && forall j :: 0 <= j < |Days| ==> StoredAs(cloud, json, paths[j].value, folderId, j, data0[Days[j]], r.data[Days[j]])
  {
    var up := UploadsUpTo(cloud, json, paths, folderId, data0, |Days|);
    if up.error.None? {
      UploadsAll(cloud, json, paths, folderId, data0, |Days|);
      UploadsStore(cloud, json, paths, folderId, data0, |Days|);
      ConfigureKinds(formId, up.data, Days);
      ClosingUploads(up.effects, ConfigureDays(formId, up.data, Days));
    }
  }

  /** Neither the blocks nor the closing report upload anything. */
  lemma ClosingUploads(uploads: seq<Effect>, configured: seq<Effect>)
    requires forall c :: Request(c) in configured ==> c.UpdateForm?
    ensures Filter(Calls(uploads + configured + [Progress(100), Log(Info, ScriptFinished)]), IsUpload)
            == Filter(Calls(uploads), IsUpload)
  {
    var closing := [Progress(100), Log(Info, ScriptFinished)];
    CallsAppend(uploads + configured, closing);
    CallsAppend(uploads, configured);
    FilterAppend(Calls(uploads) + Calls(configured), Calls(closing), IsUpload);
    FilterAppend(Calls(uploads), Calls(configured), IsUpload);
    NoUploadFilter(Calls(configured));
    NoUploadFilter(Calls(closing));
  }

  // ---------------------------------------------------------------------
  // run_script
  // ---------------------------------------------------------------------

  /**
   * A run whose images fail validation reports that error, re-enables the
   * buttons and does nothing else: no request, no progress, no change.
   */
  lemma RejectedRun(cloud: Cloud, fs: LocalFs, json: Codec, config: Config, paths: seq<Option<Path>>,
                    week: nat, data0: DayData, folder0: Option<Id>)
    requires |paths| == |Days| && Complete(data0) && Validation(fs, paths).Some?
    ensures var e := Validation(fs, paths).value;
      RunSpec(cloud, fs, json, config, paths, week, data0, folder0)
      == RunResult([Log(Error, RunFailed(e)), EnableButtons], Failed(e), data0, folder0)
  {
  }

  /** What follows the form step in a valid run: the uploads and blocks after a new form, nothing otherwise. */
  function AfterForm(cloud: Cloud, json: Codec, paths: seq<Option<Path>>, folderId: Option<Id>,
                     data0: DayData, status: FormStatus): seq<Effect>
    requires |paths| == |Days| && AllSelected(paths) && Complete(data0)
  {
    if status.FormCreated? then CreatedSteps(cloud, json, paths, folderId, data0, status.formId).effects else []
  }

  /** The report closing a run: the error when one stopped it, then the buttons. */
  function Closing(outcome: RunOutcome): seq<Effect> {
    (if outcome.Failed? then [Log(Error, RunFailed(outcome.error))] else []) + [EnableButtons]
  }

  /**
   * A valid run reports 0%, runs the week folder step and the form step,
   * goes on only after a new form, and closes with its report.
   */
  lemma ValidRunTrace(cloud: Cloud, fs: LocalFs, json: Codec, config: Config, paths: seq<Option<Path>>,
                      week: nat, data0: DayData, folder0: Option<Id>)
    requires |paths| == |Days| && Complete(data0) && Validation(fs, paths).None?
    ensures var r := RunSpec(cloud, fs, json, config, paths, week, data0, folder0);
      var folder := FolderStep(cloud, config, week);
      var form := FormStep(cloud, config, week, folder.folderId);
      r.effects == [Progress(0)] + folder.effects + form.effects
                   + AfterForm(cloud, json, paths, folder.folderId, data0, form.status) + Closing(r.outcome)
      && r.weekFolderId == folder.folderId
      && (form.status.FormCreated? ==>
            var rest := CreatedSteps(cloud, json, paths, folder.folderId, data0, form.status.formId);
            r.outcome == rest.outcome && r.data == rest.data)
      && (!form.status.FormCreated? ==>
            r.data == data0
            && r.outcome == match form.status
                            case FormExists => AlreadyExists
                            case FormLookupCrashed => Crashed
                            case FormFailed(e) => Failed(e))
  {
    var r := RunSpec(cloud, fs, json, config, paths, week, data0, folder0);
    var steps := TrySteps(cloud, fs, json, config, paths, week, data0, folder0);
    var folder := FolderStep(cloud, config, week);
    var form := FormStep(cloud, config, week, folder.folderId);
    var opening := [Progress(0)] + folder.effects + form.effects;
    var after := AfterForm(cloud, json, paths, folder.folderId, data0, form.status);
    assert steps.effects == opening + after;
    AppendAssoc(opening + after, if r.outcome.Failed? then [Log(Error, RunFailed(r.outcome.error))] else [], [EnableButtons]);
  }

  /** Every progress value a run may report, in order: 0, 10, one per day, then 100 once more. */
  function ProgressPlan(): (ps: seq<int>)
    ensures ps == [0, 10, 28, 46, 64, 82, 100, 100]
  {
    [0, 10] + Milestones(|Days|) + [100]
  }

  /** The first `k` days' progress is the start of the week's. */
  lemma MilestonesPrefix(k: nat, n: nat)
    requires k <= n
    ensures Milestones(k) == Milestones(n)[..k]
  {
  }

  /** The 0% of a valid run, the folder step's 10%, and no progress from the form step or the closing report. */
  lemma TraceProgress(folder: seq<Effect>, form: seq<Effect>, after: seq<Effect>, closing: seq<Effect>)
    requires Progresses(folder) == [10]
    requires forall e :: e in form ==> !e.Progress?
    requires forall e :: e in closing ==> !e.Progress?
    ensures Progresses([Progress(0)] + folder + form + after + closing) == [0, 10] + Progresses(after)
  {
    NoProgresses(form);
    NoProgresses(closing);
    ProgressesAppend([Progress(0)] + folder + form + after, closing);
    ProgressesAppend([Progress(0)] + folder + form, after);
    ProgressesAppend([Progress(0)] + folder, form);
    ProgressesAppend([Progress(0)], folder);
    ProgressesCons(Progress(0), []);
  }

  /** The progress after the form step: the five days and the final 100 after a finished run, fewer days otherwise. */
  lemma AfterFormProgress(cloud: Cloud, json: Codec, paths: seq<Option<Path>>, folderId: Option<Id>,
                          data0: DayData, status: FormStatus)
    requires |paths| == |Days| && AllSelected(paths) && Complete(data0)
    ensures var q := Progresses(AfterForm(cloud, json, paths, folderId, data0, status));
      var finished := status.FormCreated? && CreatedSteps(cloud, json, paths, folderId, data0, status.formId).outcome == Finished;
      (finished ==> q == Milestones(|Days|) + [100])
      && (!finished ==> |q| < |Days| && q == Milestones(|q|))
  {
    if status.FormCreated? {
      CreatedProgress(cloud, json, paths, folderId, data0, status.formId);
    }
  }

  /** `[0, 10]` followed by the days' progress is a start of the plan, the whole plan exactly when finished. */
  lemma PlanPrefix(q: seq<int>, finished: bool)
    requires finished ==> q == Milestones(|Days|) + [100]
    requires !finished ==> |q| < |Days| && q == Milestones(|q|)
    ensures var ps := [0, 10] + q;
      |ps| <= |ProgressPlan()| && ps == ProgressPlan()[..|ps|]
      && (|ps| == |ProgressPlan()| <==> finished)
      && (forall i, j :: 0 <= i <= j < |ps| ==> ps[i] <= ps[j])
  {
    var ps := [0, 10] + q;
    if !finished {
      MilestonesPrefix(|q|, |Days|);
      assert ps == ProgressPlan()[..|ps|];
    }
  }

  /**
   * The progress bar follows 0, 10, 28, 46, 64, 82, 100, 100 as far as the
   * run gets, never goes back, and reaches the end exactly when the run
   * finished.
   */
  lemma RunProgress(cloud: Cloud, fs: LocalFs, json: Codec, config: Config, paths: seq<Option<Path>>,
                    week: nat, data0: DayData, folder0: Option<Id>)
    requires |paths| == |Days| && Complete(data0)
    ensures var r := RunSpec(cloud, fs, json, config, paths, week, data0, folder0);
      var ps := Progresses(r.effects);
      |ps| <= |ProgressPlan()| && ps == ProgressPlan()[..|ps|]
      && (|ps| == |ProgressPlan()| <==> r.outcome == Finished)
      && (forall i, j :: 0 <= i <= j < |ps| ==> ps[i] <= ps[j])
  {
    var r := RunSpec(cloud, fs, json, config, paths, week, data0, folder0);
    if Validation(fs, paths).Some? {
      RejectedRun(cloud, fs, json, config, paths, week, data0, folder0);
      NoProgresses(r.effects);
    } else {
      var q := ValidRunProgress(cloud, fs, json, config, paths, week, data0, folder0);
      PlanPrefix(q, r.outcome == Finished);
    }
  }

  /** A valid run reports 0 and 10, then the days' progress. */
  lemma ValidRunProgress(cloud: Cloud, fs: LocalFs, json: Codec, config: Config, paths: seq<Option<Path>>,
                         week: nat, data0: DayData, folder0: Option<Id>) returns (q: seq<int>)
    requires |paths| == |Days| && Complete(data0) && Validation(fs, paths).None?
    ensures var r := RunSpec(cloud, fs, json, config, paths, week, data0, folder0);
      Progresses(r.effects) == [0, 10] + q
      && (r.outcome == Finished ==> q == Milestones(|Days|) + [100])
      && (r.outcome != Finished ==> |q| < |Days| && q == Milestones(|q|))
  {
    var r := RunSpec(cloud, fs, json, config, paths, week, data0, folder0);
    ValidRunTrace(cloud, fs, json, config, paths, week, data0, folder0);
    var folder := FolderStep(cloud, config, week);
    var form := FormStep(cloud, config, week, folder.folderId);
    var after := AfterForm(cloud, json, paths, folder.folderId, data0, form.status);
    FolderStepProgress(cloud, config, week);
    FormStepKinds(cloud, config, week, folder.folderId);
    TraceProgress(folder.effects, form.effects, after, Closing(r.outcome));
    AfterFormProgress(cloud, json, paths, folder.folderId, data0, form.status);
    q := Progresses(after);
  }

  /** The requests a valid run sends before its uploads: the week folder step's and the form step's. */
  predicate OpeningCall(c: Call) {
    c.GetFolderId? || c.CreateFolder? || FormCall(c)
  }

  /** The requests after a new form. */
  predicate AfterCall(c: Call) {
    c.UploadFile? || c.GetMenuJson? || c.UpdateForm?
  }

  /**
   * A valid run's trace: an opening of the folder and form steps, what
   * follows a new form, and the closing report.
   */
  lemma ValidRunParts(cloud: Cloud, fs: LocalFs, json: Codec, config: Config, paths: seq<Option<Path>>,
                      week: nat, data0: DayData, folder0: Option<Id>) returns (opening: seq<Effect>, after: seq<Effect>)
    requires |paths| == |Days| && Complete(data0) && Validation(fs, paths).None?
    ensures var r := RunSpec(cloud, fs, json, config, paths, week, data0, folder0);
      var form := FormStep(cloud, config, week, r.weekFolderId);
      r.effects == opening + after + Closing(r.outcome)
      && (forall e :: e in opening ==> Inner(e) && (e.Request? ==> OpeningCall(e.call)))
      && (forall e :: e in after ==> Inner(e) && (e.Request? ==> AfterCall(e.call)))
      && (after != [] ==> form.status.FormCreated?)
      && (forall c :: Request(c) in after && c.UpdateForm? ==> c.formId == form.status.formId)
      && (form.status.FormCreated? ==>
            var rest := CreatedSteps(cloud, json, paths, r.weekFolderId, data0, form.status.formId);
            AllSelected(paths) && after == rest.effects && r.outcome == rest.outcome && r.data == rest.data)
      && (!form.status.FormCreated? ==> after == [] && r.outcome != Finished)
  {
    ValidRunTrace(cloud, fs, json, config, paths, week, data0, folder0);
    var folder := FolderStep(cloud, config, week);
    var form := FormStep(cloud, config, week, folder.folderId);
    FolderStepRequests(cloud, config, week);
    FormStepKinds(cloud, config, week, folder.folderId);
    opening := [Progress(0)] + folder.effects + form.effects;
    after := AfterForm(cloud, json, paths, folder.folderId, data0, form.status);
    if form.status.FormCreated? {
      CreatedKinds(cloud, json, paths, folder.folderId, data0, form.status.formId);
    }
  }

  /** A trace made of inner effects and a closing report holds the run's error exactly when the run failed with it. */
  lemma ReportAtEnd(opening: seq<Effect>, after: seq<Effect>, outcome: RunOutcome, e: RunError)
    requires forall x :: x in opening + after ==> Inner(x)
    ensures Log(Error, RunFailed(e)) in opening + after + Closing(outcome) <==> outcome == Failed(e)
  {
    assert Log(Error, RunFailed(e)) !in opening + after;
  }

  /** The run's error is reported, once at the end, exactly when the run failed with that error. */
  lemma RunReportsError(cloud: Cloud, fs: LocalFs, json: Codec, config: Config, paths: seq<Option<Path>>,
                        week: nat, data0: DayData, folder0: Option<Id>, e: RunError)
    requires |paths| == |Days| && Complete(data0)
    ensures var r := RunSpec(cloud, fs, json, config, paths, week, data0, folder0);
      Log(Error, RunFailed(e)) in r.effects <==> r.outcome == Failed(e)
  {
    if Validation(fs, paths).Some? {
      RejectedRun(cloud, fs, json, config, paths, week, data0, folder0);
    } else {
      var r := RunSpec(cloud, fs, json, config, paths, week, data0, folder0);
      var opening, after := ValidRunParts(cloud, fs, json, config, paths, week, data0, folder0);
      ReportAtEnd(opening, after, r.outcome, e);
    }
  }

  /**
   * Nothing is uploaded, asked of the model or added to a form unless the
   * inputs were valid and a new form was created; blocks go to that form.
   */
  lemma OnlyNewFormIsFilled(cloud: Cloud, fs: LocalFs, json: Codec, config: Config, paths: seq<Option<Path>>,
                            week: nat, data0: DayData, folder0: Option<Id>)
    requires |paths| == |Days| && Complete(data0)
    ensures var r := RunSpec(cloud, fs, json, config, paths, week, data0, folder0);
      var form := FormStep(cloud, config, week, r.weekFolderId);
      forall c :: Request(c) in r.effects && AfterCall(c) ==>
        Validation(fs, paths).None? && form.status.FormCreated?
        && (c.UpdateForm? ==> c.formId == form.status.formId)
  {
    if Validation(fs, paths).Some? {
      RejectedRun(cloud, fs, json, config, paths, week, data0, folder0);
    } else {
      var r := RunSpec(cloud, fs, json, config, paths, week, data0, folder0);
      var opening, after := ValidRunParts(cloud, fs, json, config, paths, week, data0, folder0);
      AfterOnlyInAfter(opening, after, r.outcome);
    }
  }

  lemma AfterOnlyInAfter(opening: seq<Effect>, after: seq<Effect>, outcome: RunOutcome)
    requires forall e :: e in opening ==> e.Request? ==> OpeningCall(e.call)
    ensures forall c :: Request(c) in opening + after + Closing(outcome) && AfterCall(c) ==> Request(c) in after
  {
  }

  /**
   * The week folder is created only in a valid run whose lookup found no
   * folder, and then under the week's name in the project folder.
   */
  lemma FolderCreatedOnlyWhenMissing(cloud: Cloud, fs: LocalFs, json: Codec, config: Config, paths: seq<Option<Path>>,
                                     week: nat, data0: DayData, folder0: Option<Id>, name: string, parent: string)
    requires |paths| == |Days| && Complete(data0)
    ensures var r := RunSpec(cloud, fs, json, config, paths, week, data0, folder0);
      Request(CreateFolder(name, parent)) in r.effects <==>
        Validation(fs, paths).None? && cloud.findFolder(WeekFolderName(week), config.projectFolderId).None?
        && name == WeekFolderName(week) && parent == config.projectFolderId
  {
    if Validation(fs, paths).Some? {
      RejectedRun(cloud, fs, json, config, paths, week, data0, folder0);
    } else {
      ValidFolderCreation(cloud, fs, json, config, paths, week, data0, folder0, name, parent);
    }
  }

  lemma ValidFolderCreation(cloud: Cloud, fs: LocalFs, json: Codec, config: Config, paths: seq<Option<Path>>,
                            week: nat, data0: DayData, folder0: Option<Id>, name: string, parent: string)
    requires |paths| == |Days| && Complete(data0) && Validation(fs, paths).None?
    ensures var r := RunSpec(cloud, fs, json, config, paths, week, data0, folder0);
      Request(CreateFolder(name, parent)) in r.effects <==>
        cloud.findFolder(WeekFolderName(week), config.projectFolderId).None?
        && name == WeekFolderName(week) && parent == config.projectFolderId
  {
    var r := RunSpec(cloud, fs, json, config, paths, week, data0, folder0);
    ValidRunTrace(cloud, fs, json, config, paths, week, data0, folder0);
    var folder := FolderStep(cloud, config, week);
    var form := FormStep(cloud, config, week, folder.folderId);
    var after := AfterForm(cloud, json, paths, folder.folderId, data0, form.status);
    FolderStepRequests(cloud, config, week);
    FolderStepCreates(cloud, config, week);
    FormStepKinds(cloud, config, week, folder.folderId);
    if form.status.FormCreated? {
      CreatedKinds(cloud, json, paths, folder.folderId, data0, form.status.formId);
    }
    CreateFolderOnlyInFolder(folder.effects, form.effects, after, Closing(r.outcome), CreateFolder(name, parent));
  }

  lemma CreateFolderOnlyInFolder(folder: seq<Effect>, form: seq<Effect>, after: seq<Effect>, closing: seq<Effect>, c: Call)
    requires c.CreateFolder?
    requires forall e :: e in form ==> e.Request? ==> FormCall(e.call)
    requires forall e :: e in after ==> e.Request? ==> AfterCall(e.call)
    requires forall e :: e in closing ==> !e.Request?
    ensures Request(c) in [Progress(0)] + folder + form + after + closing <==> Request(c) in folder
  {
  }

  /**
   * When the week folder already holds the week's form, the run only
   * reads it: it ends as "already exists" (or crashes on an unreadable
   * form), keeps its data, and sends no request beyond the lookups.
   */
  lemma ExistingFormRun(cloud: Cloud, fs: LocalFs, json: Codec, config: Config, paths: seq<Option<Path>>,
                        week: nat, data0: DayData, folder0: Option<Id>)
    requires |paths| == |Days| && Complete(data0) && Validation(fs, paths).None?
    requires cloud.findFile(FormFileName(week), FolderStep(cloud, config, week).folderId).Some?
    ensures var r := RunSpec(cloud, fs, json, config, paths, week, data0, folder0);
      (r.outcome == AlreadyExists || r.outcome == Crashed) && r.data == data0
      && forall c :: Request(c) in r.effects ==>
           c.GetFolderId? || c.CreateFolder? || c.GetFileId? || c.GetForm? || c.GetWebViewLink?
  {
    var r := RunSpec(cloud, fs, json, config, paths, week, data0, folder0);
    ValidRunTrace(cloud, fs, json, config, paths, week, data0, folder0);
    var folder := FolderStep(cloud, config, week);
    var form := FormStep(cloud, config, week, folder.folderId);
    FolderStepRequests(cloud, config, week);
    ExistingFormStep(cloud, config, week, folder.folderId);
    assert r.effects == [Progress(0)] + folder.effects + form.effects + [] + [EnableButtons];
  }

  /**
   * A run asks for the week folder at most once: exactly when its images
   * are valid and the lookup found no folder, under the week's name in the
   * project folder.
   */
  lemma FolderCreatedOnce(cloud: Cloud, fs: LocalFs, json: Codec, config: Config, paths: seq<Option<Path>>,
                          week: nat, data0: DayData, folder0: Option<Id>)
    requires |paths| == |Days| && Complete(data0)
    ensures var r := RunSpec(cloud, fs, json, config, paths, week, data0, folder0);
      var name := WeekFolderName(week);
      Filter(Calls(r.effects), IsCreateFolder)
      == if Validation(fs, paths).None? && cloud.findFolder(name, config.projectFolderId).None?
         then [CreateFolder(name, config.projectFolderId)] else []
  {
    if Validation(fs, paths).Some? {
      RejectedRun(cloud, fs, json, config, paths, week, data0, folder0);
      FilterNone(Calls(RunSpec(cloud, fs, json, config, paths, week, data0, folder0).effects), IsCreateFolder);
    } else {
      ValidFolderCreatedOnce(cloud, fs, json, config, paths, week, data0, folder0);
    }
  }

  lemma ValidFolderCreatedOnce(cloud: Cloud, fs: LocalFs, json: Codec, config: Config, paths: seq<Option<Path>>,
                               week: nat, data0: DayData, folder0: Option<Id>)
    requires |paths| == |Days| && Complete(data0) && Validation(fs, paths).None?
    ensures var name := WeekFolderName(week);
      Filter(Calls(RunSpec(cloud, fs, json, config, paths, week, data0, folder0).effects), IsCreateFolder)
      == if cloud.findFolder(name, config.projectFolderId).None? then [CreateFolder(name, config.projectFolderId)] else []
  {
    var folder := FolderStep(cloud, config, week);
    var form := FormStep(cloud, config, week, folder.folderId);
    var rest := ValidRunSplit(cloud, fs, json, config, paths, week, data0, folder0);
    FolderStepCreatesOnce(cloud, config, week);
    FormStepKinds(cloud, config, week, folder.folderId);
    FolderOnlyFilter(folder.effects, form.effects, rest);
  }

  /** Neither the form step nor what follows a new form creates a folder. */
  lemma FolderOnlyFilter(folder: seq<Effect>, form: seq<Effect>, rest: seq<Effect>)
    requires forall e :: e in form ==> e.Request? ==> FormCall(e.call)
    requires forall c :: Request(c) in rest ==> AfterCall(c)
    ensures Filter(Calls([Progress(0)] + folder + form + rest), IsCreateFolder) == Filter(Calls(folder), IsCreateFolder)
  {
    AppendAssoc([Progress(0)] + folder, form, rest);
    FilterAround([Progress(0)], folder, form + rest, IsCreateFolder);
  }

  /**
   * A valid run's trace: 0%, the folder step, the form step, and then
   * only requests made after a new form.
   */
  lemma ValidRunSplit(cloud: Cloud, fs: LocalFs, json: Codec, config: Config, paths: seq<Option<Path>>,
                      week: nat, data0: DayData, folder0: Option<Id>) returns (rest: seq<Effect>)
    requires |paths| == |Days| && Complete(data0) && Validation(fs, paths).None?
    ensures var folder := FolderStep(cloud, config, week);
      RunSpec(cloud, fs, json, config, paths, week, data0, folder0).effects
      == [Progress(0)] + folder.effects + FormStep(cloud, config, week, folder.folderId).effects + rest
      && forall c :: Request(c) in rest ==> AfterCall(c)
  {
    var r := RunSpec(cloud, fs, json, config, paths, week, data0, folder0);
    ValidRunTrace(cloud, fs, json, config, paths, week, data0, folder0);
    var folder := FolderStep(cloud, config, week);
    var form := FormStep(cloud, config, week, folder.folderId);
    var after := AfterForm(cloud, json, paths, folder.folderId, data0, form.status);
    if form.status.FormCreated? {
      CreatedKinds(cloud, json, paths, folder.folderId, data0, form.status.formId);
    }
    rest := after + Closing(r.outcome);
    AppendAssoc([Progress(0)] + folder.effects + form.effects, after, Closing(r.outcome));
  }

  /**
   * A run asks for a new form at most once: exactly when its images are
   * valid and the week folder holds no form file, titled after the week.
   */
  lemma FormCreatedOnce(cloud: Cloud, fs: LocalFs, json: Codec, config: Config, paths: seq<Option<Path>>,
                        week: nat, data0: DayData, folder0: Option<Id>)
    requires |paths| == |Days| && Complete(data0)
    ensures var r := RunSpec(cloud, fs, json, config, paths, week, data0, folder0);
      Filter(Calls(r.effects), IsCreateForm)
      == if Validation(fs, paths).None?
            && cloud.findFile(FormFileName(week), FolderStep(cloud, config, week).folderId).None?
         then [CreateForm(FormTitle(week))] else []
  {
    if Validation(fs, paths).Some? {
      RejectedRun(cloud, fs, json, config, paths, week, data0, folder0);
      FilterNone(Calls(RunSpec(cloud, fs, json, config, paths, week, data0, folder0).effects), IsCreateForm);
    } else {
      ValidFormCreatedOnce(cloud, fs, json, config, paths, week, data0, folder0);
    }
  }

  lemma ValidFormCreatedOnce(cloud: Cloud, fs: LocalFs, json: Codec, config: Config, paths: seq<Option<Path>>,
                             week: nat, data0: DayData, folder0: Option<Id>)
    requires |paths| == |Days| && Complete(data0) && Validation(fs, paths).None?
    ensures Filter(Calls(RunSpec(cloud, fs, json, config, paths, week, data0, folder0).effects), IsCreateForm)
      == if cloud.findFile(FormFileName(week), FolderStep(cloud, config, week).folderId).None?
         then [CreateForm(FormTitle(week))] else []
  {
    var folder := FolderStep(cloud, config, week);
    var form := FormStep(cloud, config, week, folder.folderId);
    var rest := ValidRunSplit(cloud, fs, json, config, paths, week, data0, folder0);
    FolderStepRequests(cloud, config, week);
    FilterAround([Progress(0)] + folder.effects, form.effects, rest, IsCreateForm);
    FormStepCreates(cloud, config, week, folder.folderId);
  }

  /**
   * A run finishes exactly when its images are valid, a new form was
   * made and shared, and every day's iteration went through: no upload
   * raised, and every id returned led to a menu that came and parsed. An
   * upload that returned no id is only logged and does not stop the run.
   */
  lemma RunFinishes(cloud: Cloud, fs: LocalFs, json: Codec, config: Config, paths: seq<Option<Path>>,
                    week: nat, data0: DayData, folder0: Option<Id>)
    requires |paths| == |Days| && Complete(data0)
    ensures var r := RunSpec(cloud, fs, json, config, paths, week, data0, folder0);
      var folderId := FolderStep(cloud, config, week).folderId;
      r.outcome == Finished <==>
        Validation(fs, paths).None?
        && FormStep(cloud, config, week, folderId).status.FormCreated?
        && forall j :: 0 <= j < |Days| ==> GoesThrough(cloud, json, paths[j].value, folderId, j)
  {
    if Validation(fs, paths).Some? {
      RejectedRun(cloud, fs, json, config, paths, week, data0, folder0);
    } else {
      ValidRunTrace(cloud, fs, json, config, paths, week, data0, folder0);
      UploadsGoThrough(cloud, json, paths, FolderStep(cloud, config, week).folderId, data0, |Days|);
    }
  }

  /** Only what follows a new form sends blocks. */
  lemma BatchesOnlyInAfter(opening: seq<Effect>, after: seq<Effect>, outcome: RunOutcome)
    requires forall e :: e in opening ==> e.Request? ==> OpeningCall(e.call)
    ensures UpdateBatches(opening + after + Closing(outcome)) == UpdateBatches(after)
  {
    NoUpdateBatches(opening);
    NoUpdateBatches(Closing(outcome));
    UpdateBatchesAppend(opening + after, Closing(outcome));
    UpdateBatchesAppend(opening, after);
  }

  /**
   * Only a finished run sends batches, and those batches, applied in order
   * to an empty form, give the blocks of the days with both a menu and an
   * image, Monday first.
   */
  lemma RunFillsForm(cloud: Cloud, fs: LocalFs, json: Codec, config: Config, paths: seq<Option<Path>>,
                     week: nat, data0: DayData, folder0: Option<Id>)
    requires |paths| == |Days| && Complete(data0)
    ensures var r := RunSpec(cloud, fs, json, config, paths, week, data0, folder0);
      (r.outcome == Finished ==> ApplyInOrder([], UpdateBatches(r.effects)) == Some(Blocks(Kept(r.data, Days))))
      && (r.outcome != Finished ==> UpdateBatches(r.effects) == [])
  {
    var r := RunSpec(cloud, fs, json, config, paths, week, data0, folder0);
    if Validation(fs, paths).Some? {
      RejectedRun(cloud, fs, json, config, paths, week, data0, folder0);
      NoUpdateBatches(r.effects);
    } else {
      ValidRunBatches(cloud, fs, json, config, paths, week, data0, folder0);
      ReverseInsertionRestoresOrder([], Kept(r.data, Days));
      assert Blocks(Kept(r.data, Days)) + [] == Blocks(Kept(r.data, Days));
    }
  }

  lemma ValidRunBatches(cloud: Cloud, fs: LocalFs, json: Codec, config: Config, paths: seq<Option<Path>>,
                        week: nat, data0: DayData, folder0: Option<Id>)
    requires |paths| == |Days| && Complete(data0) && Validation(fs, paths).None?
    ensures var r := RunSpec(cloud, fs, json, config, paths, week, data0, folder0);
      UpdateBatches(r.effects) == (if r.outcome == Finished then ReversedBatches(Kept(r.data, Days)) else [])
  {
    var r := RunSpec(cloud, fs, json, config, paths, week, data0, folder0);
    var opening, after := ValidRunParts(cloud, fs, json, config, paths, week, data0, folder0);
    BatchesOnlyInAfter(opening, after, r.outcome);
    var form := FormStep(cloud, config, week, r.weekFolderId);
    if form.status.FormCreated? {
      CreatedBatches(cloud, json, paths, r.weekFolderId, data0, form.status.formId);
    }
  }

  lemma OpeningUploadsNothing(opening: seq<Effect>)
    requires forall e :: e in opening ==> e.Request? ==> OpeningCall(e.call)
    ensures Filter(Calls(opening), IsUpload) == []
  {
    NoUploadFilter(Calls(opening));
  }

  lemma ClosingUploadsNothing(outcome: RunOutcome)
    ensures Filter(Calls(Closing(outcome)), IsUpload) == []
  {
    NoUploadFilter(Calls(Closing(outcome)));
  }

  /** Only what follows a new form uploads. */
  lemma UploadsOnlyInAfter(opening: seq<Effect>, after: seq<Effect>, outcome: RunOutcome)
    requires forall e :: e in opening ==> e.Request? ==> OpeningCall(e.call)
    ensures Filter(Calls(opening + after + Closing(outcome)), IsUpload) == Filter(Calls(after), IsUpload)
  {
    var co, ca, cc := Calls(opening), Calls(after), Calls(Closing(outcome));
    CallsAppend(opening + after, Closing(outcome));
    CallsAppend(opening, after);
    assert Calls(opening + after + Closing(outcome)) == co + ca + cc;
    FilterAppend(co + ca, cc, IsUpload);
    FilterAppend(co, ca, IsUpload);
    OpeningUploadsNothing(opening);
    ClosingUploadsNothing(outcome);
    assert [] + Filter(ca, IsUpload) + [] == Filter(ca, IsUpload);
  }

  /**
   * A finished run uploaded the five chosen images, Monday first, as
   * `1.jpeg` to `5.jpeg` into the week folder, and holds for each day the
   * id its upload returned and the menu read for it.
   */
  lemma FinishedRun(cloud: Cloud, fs: LocalFs, json: Codec, config: Config, paths: seq<Option<Path>>,
                    week: nat, data0: DayData, folder0: Option<Id>)
    requires |paths| == |Days| && Complete(data0)
    ensures var r := RunSpec(cloud, fs, json, config, paths, week, data0, folder0);
      r.outcome == Finished ==>
        AllSelected(paths)
        && Filter(Calls(r.effects), IsUpload) == UploadRequests(paths, r.weekFolderId, |Days|)
        && forall j :: 0 <= j < |Days| ==>
             StoredAs(cloud, json, paths[j].value, r.weekFolderId, j, data0[Days[j]], r.data[Days[j]])
  {
    var r := RunSpec(cloud, fs, json, config, paths, week, data0, folder0);
    if Validation(fs, paths).None? && r.outcome == Finished {
      var opening, after := ValidRunParts(cloud, fs, json, config, paths, week, data0, folder0);
      UploadsOnlyInAfter(opening, after, r.outcome);
      var form := FormStep(cloud, config, week, r.weekFolderId);
      CreatedUploads(cloud, json, paths, r.weekFolderId, data0, form.status.formId);
    } else if Validation(fs, paths).Some? {
      RejectedRun(cloud, fs, json, config, paths, week, data0, folder0);
    }
  }
}
