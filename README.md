# Weekly meal-order form, modelled in Dafny

Every week the workflow turns five photographed canteen menus (Monday to
Friday) into a Google Form:

- It finds or creates a Drive folder named after the ISO week number.
- It stops when that folder already holds `Weekly_Meals_Order_Week_<n>`.
- Otherwise it creates the form `Meals Order for Week #<n>`, moves it into
  the folder and shares it.
- It uploads the pictures and has Gemini read each one into a menu list.
- It adds one block per day: the picture, an optional soup question over the
  first two dishes, and a required main-course question over the rest.

This project models four parts of that workflow:

- the `ScriptRunner` class behind the desktop front end (`script_runner.py`);
- the stand-alone script (`main.py`), which works from files under `static/`
  and uploads a day's picture only when the week folder lacks it;
- the Gemini helper (`helper/gemini.py`), which cleans the model's reply and
  saves it as `static/menu/<week>/<base>.json`;
- the picture import script (`import.py`), which moves `input/*.jpeg|jpg`
  into `static/pictures/<week>/`.

## How the model is built

- **The outside world.** Drive, Forms, Gemini, the local file system and the
  progress/log sink all sit behind one class, `Environment.Env`.
  - The services answer through oracle functions: `Cloud`, `Vision`,
    `LocalFs` and `Codec`.
  - The gateways under `app/services/`, which `ScriptRunner` uses, never
    raise: they log the error and return `None`. The model answers `None`
    for them too. The exception is `update_form`: the runner ignores its
    reply, and the model's request has no reply at all.
  - The helpers `helper/gdrive.py` and `helper/gforms.py`, which `main.py`
    uses, raise instead. "## Left out" lists which of those failures the
    model keeps (as a crash) and which calls it treats as total.
  - Every request and every sink event is appended, in order, to a ghost
    `trace`.
- **Imperative code.** Each imperative part of the source is a Dafny method
  over that `Env`:
  - `ScriptRunner` is a class whose fields `data` and `weekFolderId` its
    methods update.
  - The `main.py` loops, `GoogleGeminiHelper` and `import_pictures` are
    methods too.
- **Proof against a specification.** Each method is proved to extend the
  trace by exactly what a pure specification function computes, and to
  leave its fields as that function says. The properties the workflow
  promises are lemmas about those specification functions. These cover:
  - ordering and gating of the requests;
  - progress values;
  - skip rules;
  - names and paths;
  - what the form holds at the end.
- **Pure transforms.** The request builder and the string and path
  transforms are plain functions, with lemmas about them.
- **Parameters.** The ISO week number is a parameter of every entry point.

## Model

| member | source | states |
|---|---|---|
| `Runner.ScriptRunner.constructor` | script_runner.py:18-22 | the runner keeps its configuration, has no week folder yet, and every weekday starts with an empty menu and no image id |
| `Runner.ScriptRunner.RunScript` | script_runner.py:24-41 | the run's requests, reports, outcome, day records and week folder are exactly those of `RunnerSpec.RunSpec` |
| `Runner.ScriptRunner.RunSteps` | script_runner.py:26-37 | the `try` block does exactly what `RunnerSpec.TrySteps` describes and leaves the state it computes |
| `Runner.ScriptRunner.ValidateInputs` | script_runner.py:43-49 | the verdict is `RunnerSpec.Validation`'s; 0% is reported exactly when every image is present and valid, and nothing else happens |
| `Runner.ScriptRunner.ProcessWeekFolder` | script_runner.py:62-74 | the folder step's requests and the id it keeps are those of `FolderStep`; the day records are untouched |
| `Runner.ScriptRunner.CheckOrCreateForm` | script_runner.py:76-102 | the form step's requests, messages and status (exists, created, failed or crashed) are those of `FormStep` |
| `Runner.ScriptRunner.SetFormPermissions` | script_runner.py:148-173 | the batch of three grants and then the owner grant again, as `PermissionStep` describes; success exactly when both went through |
| `Runner.ScriptRunner.UploadAndProcessImages` | script_runner.py:104-126 | the Monday-to-Friday loop leaves the trace, the day records and the error of `UploadsUpTo` over all five days; the week folder is unchanged |
| `Runner.ScriptRunner.UploadDayImage` | script_runner.py:105-126 | one iteration does what `UploadDay` says for that day |
| `Runner.ScriptRunner.FetchDayMenu` | script_runner.py:111-121 | after the upload: fetch and store the menu, or report the failed upload, as `FetchMenu` says |
| `Runner.ScriptRunner.ConfigureForm` | script_runner.py:175-188 | the Friday-to-Monday loop emits exactly `ConfigureDays` over the days |
| `Runner.ScriptRunner.AddDayBlock` | script_runner.py:177-186 | one iteration skips the day with an error line or sends its block, as `ConfigureDay` says |
| `Runner.UploadErrorSticks` | script_runner.py:118-125 | once an iteration raised, later iterations add nothing: the loop result is fixed from that day on |
| `RunnerSpec.InitialData` | script_runner.py:22 | a record for every weekday, each with an empty menu and no image id |
| `RunnerSpec.FirstInvalidFrom` | script_runner.py:46-48 | no error exactly when every image from day `i` on is a valid JPEG; otherwise the error names the first failing day |
| `RunnerSpec.Validation` | script_runner.py:43-48 | a missing image is reported exactly when one is missing; no error exactly when all five images are valid JPEGs; otherwise the first invalid day, Monday first |
| `RunnerSpec.MissingIsInvalid` | script_runner.py:44-45 | a day without an image can never pass validation |
| `RunnerSpec.FetchMenu` | script_runner.py:111-121 | every weekday keeps its record; the step goes on exactly when there is no id, or the model's reply for the id came and parses as a menu; without an id the day's menu stays, the failed upload is logged as an error, and nothing stops |
| `RunnerSpec.UploadDay` | script_runner.py:105-126 | every weekday keeps its record; the iteration stops the loop exactly when the upload raised, or the menu for the returned id did not come or did not parse; an upload that returned no id is logged as an error, clears the day's image id and does not stop the loop |
| `RunnerSpec.UploadsUpTo` | script_runner.py:104-126 | every weekday keeps its record after the loop |
| `RunnerSpec.TrySteps` | script_runner.py:26-37 | every weekday keeps its record whatever the steps do |
| `RunnerSpec.CreatedSteps` | script_runner.py:34-37 | every weekday keeps its record after the uploads and blocks |
| `RunnerSpec.RunSpec` | script_runner.py:38-41 | every run, whatever happens, ends by re-enabling the buttons (`finally`), and no weekday loses its record |
| `RunnerProps.UploadRequests` | script_runner.py:105-110 | the `k` upload requests, one per day Monday first: the day's chosen path, named `<j+1>.jpeg`, into the week folder, as `image/jpeg` |
| `RunnerProps.Milestones` | script_runner.py:126 | after day `j` the bar shows `10 + (j+1)*18` |
| `RunnerProps.FetchMenuKinds` | script_runner.py:112-121 | after the upload an iteration only asks for the menu and reports no progress |
| `RunnerProps.UploadDayKinds` | script_runner.py:105-126 | one iteration only uploads and asks for the menu; it neither reports the run's error nor re-enables the buttons |
| `RunnerProps.UploadDayUploads` | script_runner.py:106-111 | one iteration uploads the day's image exactly once, as `<i+1>.jpeg`, into the week folder |
| `RunnerProps.UploadDayProgress` | script_runner.py:122-126 | an iteration reports its day's progress exactly when it does not stop the loop |
| `RunnerProps.UploadDayStores` | script_runner.py:111-117 | an iteration that does not stop stores the upload's id and the parsed menu for its own day and touches no other day |
| `RunnerProps.FetchMenuStores` | script_runner.py:115-119 | only the day's menu can change; without an upload id it stays; with one, a step that did not stop holds the parse of the model's reply |
| `RunnerProps.UploadsKinds` | script_runner.py:104-126 | the loop sends only uploads and menu requests, and neither reports the run's error nor re-enables the buttons |
| `RunnerProps.UploadsProgress` | script_runner.py:126 | the loop reports 28, 46, 64, 82, 100 as far as it gets: all of its days when nothing stopped it, one fewer than it tried otherwise |
| `RunnerProps.UploadsAll` | script_runner.py:105-111 | a loop nothing stopped uploaded the images of its days Monday first, day `j` as `<j+1>.jpeg`, each once, into the week folder |
| `RunnerProps.UploadsStopped` | script_runner.py:118-126 | a stopped loop uploaded the images Monday first up to and including the failing day, which is the day after the last progress report |
| `RunnerProps.UploadsGoThrough` | script_runner.py:104-126 | the loop runs through its first `n` days without an error exactly when each of their iterations goes through: no upload raised, and every id returned led to a menu that came and parsed; a missing id does not stop it |
| `RunnerProps.UploadsStore` | script_runner.py:111-117 | a loop nothing stopped leaves each day with the id its upload returned and the menu parsed for it, later days untouched |
| `RunnerProps.KeptEntries` | script_runner.py:178-183 | a kept day's block shows `https://drive.google.com/uc?id=<id>` for its stored id, and its stored menu |
| `RunnerProps.ConfigureKinds` | script_runner.py:175-188 | the block loop only sends `batchUpdate` to the new form, reports no progress, and neither reports an error nor re-enables the buttons |
| `RunnerProps.ConfigureSkips` | script_runner.py:177-180 | a day is reported skipped exactly when it is a weekday with an empty menu or no image id |
| `RunnerProps.ConfigureBatches` | script_runner.py:177-185 | the batches sent are those of the kept days, last day first |
| `RunnerProps.ConfigureDayBatch` | script_runner.py:178-185 | one iteration sends the day's three-item batch when the day is kept and nothing otherwise |
| `RunnerProps.ConfiguredForm` | script_runner.py:175-236 | the loop's batches, applied in order to an empty form, give the kept days' blocks, Monday first |
| `RunnerProps.FolderStepProgress` | script_runner.py:74 | the folder step reports 10% once, at its end |
| `RunnerProps.FolderStepRequests` | script_runner.py:62-72 | the folder step only looks up and creates the folder `str(week)` in the project folder |
| `RunnerProps.FolderStepCreates` | script_runner.py:65-73 | the folder is created exactly when the lookup found nothing, and the step keeps the id found or created |
| `RunnerProps.FolderStepCreatesOnce` | script_runner.py:65-69 | the folder step asks for the week folder exactly once when the lookup found nothing, and never otherwise |
| `RunnerProps.FormStepKinds` | script_runner.py:76-102 | the form step reports no progress, never reports the run's error or re-enables the buttons, and sends only form-step requests |
| `RunnerProps.ExistingFormStep` | script_runner.py:79-87 | an existing form file is only read (metadata and link); nothing is created, moved or shared, and the run stops |
| `RunnerProps.NewFormStep` | script_runner.py:88-100 | without a form file a form titled for the week is requested (only once: `FormStepCreates`); if that fails the run stops unmoved and unshared; otherwise it is moved into the week folder under the file name and shared, the owner grant repeated only after the batch succeeded |
| `RunnerProps.FormStepCreates` | script_runner.py:79-91 | the form step asks for a new form exactly once, titled for the week, when there is no form file, and never otherwise |
| `RunnerProps.NewFormCreatesOnce` | script_runner.py:88-91 | without a form file the step's requests hold exactly one form creation, titled for the week |
| `RunnerProps.CreatedKinds` | script_runner.py:34-35 | after a new form only uploads, menu requests and `batchUpdate` to that form happen |
| `RunnerProps.CreatedProgress` | script_runner.py:34-36 | after a new form the bar goes 28 … 100 and then 100 once more when the run finishes; a failed upload stops it after the last day that went through |
| `RunnerProps.ClosingProgress` | script_runner.py:35-37 | the blocks report no progress; the closing report adds the final 100 |
| `RunnerProps.CreatedBatches` | script_runner.py:34-35 | blocks are sent only when every upload went through, and then they are the kept days' blocks, last first |
| `RunnerProps.CreatedUploads` | script_runner.py:104-117 | after a new form, a finished run uploaded the five images in order and stored each day's id and menu |
| `RunnerProps.RejectedRun` | script_runner.py:26-48 | invalid images: the run logs that one error, re-enables the buttons, and sends nothing, reports no progress and changes no state |
| `RunnerProps.ValidRunTrace` | script_runner.py:26-37 | a valid run reports 0%, runs the folder step and the form step, continues only after a new form, and closes with its report |
| `RunnerProps.ProgressPlan` | script_runner.py:36 | the full plan is 0, 10, 28, 46, 64, 82, 100, 100 |
| `RunnerProps.RunProgress` | script_runner.py:24-126 | every run's progress is a prefix of that plan, never decreases, and is the whole plan exactly when the run finished |
| `RunnerProps.RunReportsError` | script_runner.py:38-39 | a run's error is logged exactly when the run failed with that error |
| `RunnerProps.OnlyNewFormIsFilled` | script_runner.py:31-35 | no upload, menu request or form update happens unless the inputs were valid and a new form was created, and updates go to that form |
| `RunnerProps.FolderCreatedOnlyWhenMissing` | script_runner.py:62-69 | a folder is created exactly when the run was valid and the lookup found none, and then as `str(week)` in the project folder |
| `RunnerProps.ExistingFormRun` | script_runner.py:31-33 | when the week's form exists the run ends as "already exists" (or crashes on an unreadable form), keeps its day records, and sends only the lookups, the reads of the form and its link, and the week folder's creation when that folder was missing |
| `RunnerProps.FolderCreatedOnce` | script_runner.py:62-69 | a run asks for the week folder at most once: exactly once, as `str(week)` in the project folder, when its images are valid and the lookup found none |
| `RunnerProps.FormCreatedOnce` | script_runner.py:76-91 | a run asks for a new form at most once: exactly once, titled for the week, when its images are valid and the week folder holds no form file |
| `RunnerProps.RunFinishes` | script_runner.py:24-126 | a run finishes exactly when its images are valid, a new form was made and shared, and every day's iteration went through; an upload that returned no id is only logged and does not stop the run |
| `RunnerProps.RunFillsForm` | script_runner.py:34-36 | only a finished run sends batches, all to the new form, and those batches, applied in order to an empty form, give the blocks of the days with a menu and an image, Monday first |
| `RunnerProps.FinishedRun` | script_runner.py:104-126 | a finished run uploaded the five chosen images Monday first as `1.jpeg`..`5.jpeg` into the week folder and holds each day's returned id and parsed menu |
| `FormRequests.DayIndex` | script_runner.py:21 | each day sits at exactly one position of the week list |
| `FormRequests.EveryDayListed` | script_runner.py:21 | the week list holds every weekday |
| `FormRequests.Names` | script_runner.py:211 | one option per dish, the dish's name, in menu order |
| `FormRequests.SoupThenMain` | script_runner.py:211-228 | the names of `menu[:2]` followed by those of `menu[2:]` are all the names |
| `FormRequests.DayRequestsPlaces` | script_runner.py:192-236 | the batch puts the block's three items at indices 0, 1, 2, in order |
| `FormRequests.DayBlockShape` | script_runner.py:192-236 | image with a blank title; optional single-choice soup question; required single-choice main-course question; titles name the day |
| `FormRequests.DayBlockOptions` | script_runner.py:211-228 | soup options then main options are all dish names in order; soups are the first two (all when fewer), mains the rest |
| `FormRequests.SoupsFirst` | main.py:143-163 | `menu[:2]` and `menu[2:]` as Python slices them, short menus included |
| `FormRequests.Insert` | script_runner.py:199 | an insert succeeds exactly when the index is within the form; it puts the item at that index, keeps the items before it in place, and moves those after it up by one |
| `FormRequests.DayRequestsPrepend` | script_runner.py:190-236 | a day's batch puts its block in front of whatever the form held |
| `FormRequests.ApplyInOrderAppend` | script_runner.py:185 | sending batches one after the other composes |
| `FormRequests.ApplySingle` | script_runner.py:185 | one batch on its own is that batch |
| `FormRequests.ReverseInsertionRestoresOrder` | script_runner.py:177-185 | sending the days last-first leaves their blocks first-first, in front of the form's items |
| `Sharing.FormPermissions` | script_runner.py:151-155 | anyone reads, the configured user is owner, then writer, in that order |
| `Sharing.CreateRequests` | script_runner.py:156-164 | one create request per body, in order, asking for an ownership transfer exactly for the owner role |
| `Sharing.OwnerRegrant` | script_runner.py:166-171 | the repeated grant makes the user owner with an ownership transfer |
| `Sharing.FormPermissionBatchShape` | main.py:87-102 | the batch is reader for anyone, owner with transfer, writer; only the owner grant asks for a transfer |
| `WeekPaths.FormFileNameInjective` | script_runner.py:77 | different weeks get different form file names |
| `WeekPaths.UploadNamesDistinct` | script_runner.py:106 | the five uploads of a run get five different names |
| `Text.NatToString` | script_runner.py:63 | `str(n)`: decimal digits only, no leading zero, a single digit exactly below 10 |
| `Text.NatToStringRoundTrip` | script_runner.py:63 | reading back the digits gives the number |
| `Text.NatToStringInjective` | script_runner.py:63 | different week numbers give different folder names |
| `Text.ReplaceMatch` | helper/gemini.py:84 | `str.replace` replaces an occurrence at the front and resumes after it |
| `Text.ReplaceSkip` | helper/gemini.py:84 | without an occurrence at the front, `str.replace` keeps the first character |
| `Text.ReplaceAbsent` | helper/gemini.py:84 | replacing a pattern that does not occur changes nothing |
| `Text.ContainsWithin` | helper/gemini.py:84 | a pattern inside a longer one occurs wherever the longer one does |
| `Text.TrimStart` | helper/gemini.py:84 | `lstrip()`: a suffix of the input that does not start with whitespace, and everything cut off in front is whitespace |
| `Text.TrimEnd` | helper/gemini.py:84 | `rstrip()`: a prefix of the input that does not end with whitespace, and everything cut off behind is whitespace |
| `Text.StripIsStripped` | helper/gemini.py:84 | `strip()` leaves no whitespace at either end |
| `Text.StripStripped` | helper/gemini.py:84 | already stripped text is its own strip |
| `Text.StripKeepsAbsent` | helper/gemini.py:84 | stripping cannot create an occurrence of a pattern |
| `Text.Join` | import.py:23-24 | `os.path.join` of a directory not ending in `/` and a relative name puts exactly one `/` between them |
| `Text.Basename` | helper/gemini.py:107 | `os.path.basename`: the result holds no `/` |
| `Text.BasenameAfterSlash` | helper/gemini.py:107 | the base name of `dir/name` is `name` for a name without `/` |
| `Text.SplitextRoot` | helper/gemini.py:107 | `os.path.splitext(name)[0]` is a prefix of the name |
| `MainSpec.MenusUpTo` | main.py:26-35 | after `n` iterations exactly the first `n` days have a menu entry |
| `MainSpec.ImagesUpTo` | main.py:27-41 | after `n` iterations exactly the first `n` days have a picture entry |
| `MainSpec.Discover` | main.py:29-41 | after the loop both dictionaries cover every weekday |
| `MainScript.RunMain` | main.py:26-179 | the script's requests, warnings and prints, and how it ends, are exactly those of `ScriptSpec` |
| `MainScript.DiscoverDayFiles` | main.py:29-41 | the loop's warnings and the two dictionaries it fills are those of `Discover` |
| `MainScript.FindOrCreateWeekFolder` | main.py:49-54 | the folder requests and id are those of `WeekFolder` |
| `MainScript.ProbeOrCreateForm` | main.py:57-102 | the form step's requests, prints and status are those of `FormProbe` |
| `MainScript.AddDayBlocks` | main.py:105-177 | the Friday-to-Monday loop emits exactly `DaySteps` over the days |
| `MainScript.AddDayBlock` | main.py:106-177 | one iteration emits exactly `DayStep` for the day |
| `MainProps.DiscoveredFiles` | main.py:29-41 | day `i` gets the list read from `static/menu/<week>/0<i+1>.json` when it exists, else `[]`, and the path `static/pictures/<week>/0<i+1>.jpeg` when it exists, else `None` |
| `MainProps.DiscoverDayWarnings` | main.py:33-41 | one iteration warns about its own day only, once per missing file |
| `MainProps.DiscoveryWarnings` | main.py:29-41 | the discovery only warns, once per missing menu and once per missing picture, and sends no request |
| `MainProps.DayImageNameInjective` | main.py:111 | different days upload under different names |
| `MainProps.DaySkips` | main.py:105-108 | a day is reported skipped exactly when it is a weekday with an empty menu or no picture |
| `MainProps.DayStepUploads` | main.py:111-116 | an iteration uploads the day's picture to the week folder when the day is kept and the folder lacks it |
| `MainProps.DayUploads` | main.py:105-116 | `<Day>_image.jpg` is uploaded exactly when the day is kept and the week folder holds no file of that name |
| `MainProps.UploadsOnlyWhenMissing` | main.py:111-116 | every upload goes to the week folder under a name the folder was first searched for and did not hold |
| `MainProps.DayStepsKinds` | main.py:105-176 | the loop sends only picture lookups and uploads in the week folder and batches for the new form |
| `MainProps.KeptDayEntries` | main.py:111-119 | a kept day's block shows its menu and the URL of the picture already there or just uploaded |
| `MainProps.ReusesExistingImage` | main.py:111-119 | on a re-run the block shows the file already in the folder, and the picture is not uploaded again |
| `MainProps.DayStepBatch` | main.py:105-176 | an iteration sends the day's batch when kept and nothing otherwise |
| `MainProps.DayBatches` | main.py:105-176 | the batches sent are the kept days', last day first |
| `MainProps.DayBlocksMondayFirst` | main.py:105-176 | sending the kept days Friday first into an empty form leaves their blocks Monday first |
| `MainProps.WeekFolderRequests` | main.py:49-54 | the folder is looked up and created under the project folder only when the lookup finds nothing |
| `MainProps.ExistingFormProbe` | main.py:57-68 | an existing form file is only read (form and link) and the script goes no further |
| `MainProps.NewFormProbe` | main.py:69-102 | without a form file a form titled `Meals Order for Week #<week>` is requested (only once: `FormProbeCreates`); the script goes on exactly when it came back and had a parent |
| `MainProps.ProbeKinds` | main.py:57-102 | the form step logs nothing but its prints and sends only its own requests |
| `MainProps.ScriptParts` | main.py:59-105 | the script is its opening steps, followed by the day loop exactly when a new form was made |
| `MainProps.FolderCreatedOnlyWhenMissing` | main.py:49-54 | the week folder is created, as `str(week)` under the project folder, exactly when the lookup finds nothing |
| `MainProps.WeekFolderCreates` | main.py:49-53 | the folder step asks for the week folder exactly once when the lookup found nothing, and never otherwise |
| `MainProps.FolderCreatedOnce` | main.py:49-53 | the script asks for the week folder at most once: exactly once, as `str(week)` under the project folder, when the lookup finds nothing |
| `MainProps.FormProbeCreates` | main.py:57-72 | the form step asks for a new form exactly once, titled for the week, when the form file is not in the week folder, and never otherwise |
| `MainProps.NewFormProbeCreates` | main.py:69-72 | without the form file the form step's requests hold exactly one form creation, titled for the week |
| `MainProps.FormCreatedOnce` | main.py:57-72 | the script asks for a new form at most once: exactly once, titled for the week, when the form file is not in the week folder |
| `MainProps.ExistingFormExits` | main.py:59-68 | with the form file present the script exits: no form is created, moved or shared, no picture uploaded, no batch sent |
| `MainProps.NewFormCreated` | main.py:69-75 | without the form file the script requests a form, and every form it requests is titled for the week (only once: `FormCreatedOnce`) |
| `MainProps.NewFormMovedAndShared` | main.py:72-102 | a script that made a new form moved it from its first parent into the week folder under the file name and sent the three grants |
| `MainProps.CompletedScriptFillsForm` | main.py:105-176 | the batches a completed script sends, applied in order to an empty form, give the kept days' blocks, Monday first |
| `MainProps.CompletedScriptSkips` | main.py:105-108 | a completed script reports skipped exactly the days without a menu or a picture |
| `Gemini.GeminiHelper.constructor` | helper/gemini.py:19-32 | the helper keeps the variable's name; a model is configured exactly when the variable is set, otherwise one error is logged |
| `Gemini.GeminiHelper.UploadMenuImage` | helper/gemini.py:49-62 | the effects and the uploaded file are those of `UploadSpec` |
| `Gemini.GeminiHelper.GetMenuJson` | helper/gemini.py:64-95 | the effects and the cleaned reply are those of `MenuJsonSpec` |
| `Gemini.GeminiHelper.ProcessMenu` | helper/gemini.py:97-122 | the effects are exactly those of `ProcessMenuSpec`: directory first, then the reply, then the save |
| `Gemini.GeminiHelper.SaveMenu` | helper/gemini.py:106-122 | a non-empty menu is written re-indented when it is JSON, raw otherwise; no menu logs an error |
| `GeminiSpec.RemovalLeavesNoFence` | helper/gemini.py:84 | removing every "```" leaves none behind |
| `GeminiSpec.CleanReplyIsClean` | helper/gemini.py:83-84 | the cleaned reply holds no "```" and has no whitespace at either end |
| `GeminiSpec.CleanReplyKeepsCleanText` | helper/gemini.py:84 | a reply without a fence and without surrounding whitespace comes back unchanged |
| `GeminiSpec.CleanReplyIdempotent` | helper/gemini.py:84 | cleaning a cleaned reply changes nothing |
| `GeminiSpec.FencedReplyRoundTrip` | helper/gemini.py:82-85 | a backtick-free JSON text in a "```json" fence on lines of its own comes back as that text |
| `GeminiSpec.MenuJsonPathShape` | helper/gemini.py:99-108 | the menu file is a `.json` file directly inside `static/menu/<week>` |
| `GeminiSpec.RootOfExtension` | helper/gemini.py:107 | the root of `stem.ext` is `stem` for a dot-free extension |
| `GeminiSpec.MenuJsonPathReplacesExtension` | helper/gemini.py:107-108 | a picture `<dir>/<stem>.<ext>` is saved as `static/menu/<week>/<stem>.json` |
| `GeminiSpec.NoModelNoRequests` | helper/gemini.py:66-68 | without a model nothing is uploaded or sent and no menu comes back |
| `GeminiSpec.UnknownMimeNoUpload` | helper/gemini.py:51-55 | without a mime type nothing is uploaded and no file comes back |
| `GeminiSpec.MenuReplyIsCleaned` | helper/gemini.py:64-95 | a menu comes back exactly when model, mime type, upload and message all succeed; it is then the cleaned reply, fence-free and stripped |
| `GeminiSpec.MenuRequests` | helper/gemini.py:49-82 | asking for a menu sends at most two requests, in order: the upload of the picture under its guessed type, exactly when a model is configured and the type is known; then the prompt "Extract the menu please." about the uploaded file, exactly when the upload returned one |
| `GeminiSpec.UploadRequests` | helper/gemini.py:57-58 | uploading sends at most the upload itself |
| `GeminiSpec.ClosingWrites` | helper/gemini.py:106-122 | the save writes the menu once when there is one, and nothing otherwise |
| `GeminiSpec.ReplyWritesNothing` | helper/gemini.py:64-95 | asking for the menu writes no file |
| `GeminiSpec.NothingWrittenWithoutMenu` | helper/gemini.py:103-122 | the menu directory is created first; with no menu, or an empty one, nothing is written |
| `GeminiSpec.MenuWrittenOnce` | helper/gemini.py:105-120 | a non-empty menu is written exactly once, to `static/menu/<week>/<base>.json`, re-indented exactly when it is JSON |
| `PictureImport.SelectJpegs` | import.py:14 | a name is kept exactly when it ends in `.jpeg` or `.jpg` |
| `PictureImport.SelectJpegsAppend` | import.py:14 | the selection keeps listing order |
| `PictureImport.ImportPictures` | import.py:5-29 | the effects are exactly those of `ImportSpec` |
| `PictureImport.MovePictures` | import.py:22-29 | the loop emits one move and one report per selected name, in order |
| `PictureImport.MovePicture` | import.py:23-29 | one move, then the success or the error line |
| `PictureImport.MoveRequests` | import.py:22-26 | one move per name, from `input/<name>` to `static/pictures/<week>/<name>`, in order |
| `PictureImport.MovesRequestEach` | import.py:22-29 | the loop requests one move per name in order, whichever moves fail |
| `PictureImport.MissingInputDoesNothing` | import.py:10-12 | a missing `input` prints one message and creates or moves nothing |
| `PictureImport.NoJpegsDoesNothing` | import.py:16-18 | an `input` without a JPEG prints one message and creates or moves nothing |
| `PictureImport.ImportMovesEveryJpeg` | import.py:14-29 | with JPEGs present, the picture directory is created and then every JPEG is moved, in listing order |
| `PictureImport.MovesReportEach` | import.py:25-29 | a name gets the error line exactly when its move failed, and the success line exactly when it succeeded |
| `PictureImport.DestinationKeepsName` | import.py:8-24 | a picture keeps its file name: source `input/<name>`, destination `static/pictures/<week>/<name>` |

## Left out

- The desktop front end (`ui.py`): its thread and event loop are not modelled. Its sink (`log_message`, `update_progress`, `enable_buttons`) appears as trace events.
- Authentication (`app/core/auth.py`) and configuration loading (`app/core/config.py`, `.env`): the configuration is a value (project folder id, e-mail).
- Logging setup (`app/core/utils.py`): log levels and message contents are modelled; formats and timestamps are not.
- The gateways (`app/services/*.py`, `helper/gdrive.py`, `helper/gforms.py`) are oracles answering `Option` values. Their Drive query strings and HTTP calls are not modelled.
- `upload_file` is not defined in `app/services/gdrive.py`: a call either raises or returns an id that may be absent.
- `initialize_helpers` (script_runner.py:51-60) is not modelled. Building the helpers is taken to succeed. The source passes four arguments to a three-argument constructor, which would fail at run time.
- `is_valid_jpeg` is not defined in `app/core/utils.py`: it is an uninterpreted predicate of the path.
- The ISO week number is a parameter: `datetime.now().isocalendar()` and the calendar are not modelled.
- `json.loads`/`json.load` is an abstract parse: `Codec.parseMenu` gives a menu list or nothing, and `Codec.isJson` says whether text is JSON. The JSON grammar, a missing `name` key and the exact re-indented text are not modelled.
- `asyncio.sleep(5)` is a `Sleep(5)` step with no other effect. `run_in_executor` is not modelled.
- The float `90 / 5` is the integer 18.
- `menu.py`: module-level configuration with the same path derivation as `helper/gemini.py`; it is not modelled.
- `RunnerSpec.UploadsUpTo`, `RunnerSpec.TrySteps`, `RunnerSpec.CreatedSteps`: their own contracts only say that every day keeps a record. What these steps do is stated by the `RunnerProps` lemmas named in the table (`UploadsGoThrough`, `UploadsAll`, `UploadsStore`, `UploadsStopped`, `ValidRunTrace`, `RunFinishes` and the `Created*` lemmas).
- `update_form` in `app/services/gforms.py` (40-51) logs and swallows a failed `batchUpdate`, and script_runner.py:185-186 ignores the result: a run still ends as finished. `Env.UpdateForm` has no reply. `RunnerProps.ConfiguredForm` and `RunnerProps.RunFillsForm` therefore say what the batches sent give when every one is applied, not what the form holds after one failed.
- `Text.SplitextRoot`: its contract only says the root is a prefix of the name; that the extension after the last dot is cut off is stated by `GeminiSpec.RootOfExtension`.
- `Text.Basename`: its contract only says the result holds no `/`; that it is everything after the last `/` is stated by `Text.BasenameAfterSlash`.
- main.py's `logging.info` lines are not modelled. Its warnings and its `print` output are.
- main.py failures: the helpers it calls raise on a failed request. Only three failures are modelled, each as a crash that ends the script:
  - `create_form` raising (main.py:72);
  - `get_form` raising (main.py:62);
  - an empty parent list when the form is moved (main.py:81).
- main.py calls treated as total, whose failures are not modelled:
  - `get_folder_id` and `create_folder` (main.py:50-53);
  - `get_file_id` (main.py:57, 112);
  - `get_form_webViewLink` (main.py:66);
  - `files().get` and `files().update` in the move (main.py:78-84);
  - `batch.execute` for the three grants (main.py:102);
  - `upload_image` (main.py:115);
  - `update_form` (main.py:176);
  - `json.load` of a menu file that is not valid JSON (main.py:32).
- helper/gemini.py:
  - The model's generation settings and system instruction are not modelled.
  - The chat history is not modelled.
  - The exception texts inside log lines are not modelled.
  - The `json.JSONDecodeError` branch of `get_menu_json` (86-89) is not modelled, because `send_message` does not parse JSON.
- helper/gemini.py, mime-type guessing: `mimetypes.guess_type` is an oracle. An empty guess counts as none.
- `Gemini.GeminiHelper.SaveMenu`: the first `open(..., "w")` empties the file before a failed parse. The model records one write per outcome, not that intermediate empty file.
- import.py: `os.path.exists`, the order of `os.listdir` and the success of `shutil.move` are oracles. The exception text in the error line is not modelled.
