/**
 * The picture import script (`import.py`): move the JPEG files of `input/`
 * into the week's `static/pictures/<week>/` directory, reporting each move.
 */
module PictureImport {

  import opened Wrappers
  import opened Text
  import opened Environment
  import opened WeekPaths

  /** The directory the pictures are taken from. */
  const InputDir: Path := "input"

  /** A name ending in `.jpeg` or `.jpg`, case-sensitively. */
  predicate IsJpegName(name: string) {
    EndsWith(name, ".jpeg") || EndsWith(name, ".jpg")
  }

  /** The JPEG names of a listing, in listing order. */
  function SelectJpegs(names: seq<string>): (r: seq<string>)
    ensures |r| <= |names|
    ensures forall f :: f in r <==> f in names && IsJpegName(f)
  {
    if names == [] then []
    else (if IsJpegName(names[0]) then [names[0]] else []) + SelectJpegs(names[1..])
  }

  /** Selecting from a listing in two parts selects from each part, in order. */
  lemma {:induction false} SelectJpegsAppend(a: seq<string>, b: seq<string>)
    ensures SelectJpegs(a + b) == SelectJpegs(a) + SelectJpegs(b)
    decreases |a|
  {
    if a == [] {
      assert a + b == b;
    } else {
      assert (a + b)[0] == a[0] && (a + b)[1..] == a[1..] + b;
      SelectJpegsAppend(a[1..], b);
    }
  }

  /** A listing without a JPEG name selects nothing. */
  lemma {:induction false} SelectNoJpegs(names: seq<string>)
    requires forall f :: f in names ==> !IsJpegName(f)
    ensures SelectJpegs(names) == []
    decreases |names|
  {
    if names != [] {
      assert names[0] in names;
      assert forall f :: f in names[1..] ==> f in names;
      SelectNoJpegs(names[1..]);
    }
  }

  /** Where a picture is moved from, and to. */
  function Source(name: string): Path {
    Join(InputDir, name)
  }

  function Destination(week: nat, name: string): Path {
    Join(PicturesDir(week), name)
  }

  /** One iteration: move the file, then report the move or the error; a failure does not stop the loop. */
  function MoveStep(fs: LocalFs, week: nat, name: string): seq<Effect> {
    var moved := fs.moveSucceeds(Source(name), Destination(week, name));
    [Request(MoveLocal(Source(name), Destination(week, name))),
     Log(Stdout, if moved then FileMoved(name, PicturesDir(week)) else FileMoveError(name))]
  }

  /** The loop over `names`, in order. */
  function Moves(fs: LocalFs, week: nat, names: seq<string>): seq<Effect>
    decreases |names|
  {
    if names == [] then [] else Moves(fs, week, names[..|names| - 1]) + MoveStep(fs, week, names[|names| - 1])
  }

  /**
   * The script: stop with a message when `input/` is missing or holds no
   * JPEG; otherwise make the week's picture directory and move every JPEG.
   */
  function ImportSpec(fs: LocalFs, week: nat): seq<Effect> {
    if !fs.present(InputDir) then [Log(Stdout, InputDirMissing(InputDir))]
    else
      var files := SelectJpegs(fs.listDir(InputDir));
      if files == [] then [Log(Stdout, NoJpegFiles(InputDir))]
      else [Request(MakeDirs(PicturesDir(week)))] + Moves(fs, week, files)
  }

  /** `import_pictures`; `week` is the ISO week number of the day it runs. */
  method ImportPictures(env: Env, week: nat)
    modifies env
    ensures env.trace == old(env.trace) + ImportSpec(env.fs, week)
  {
    if !env.fs.present(InputDir) {
      env.LogMessage(Stdout, InputDirMissing(InputDir));
      return;
    }
    var files := SelectJpegs(env.fs.listDir(InputDir));
    if files == [] {
      env.LogMessage(Stdout, NoJpegFiles(InputDir));
      return;
    }
    env.MakeDirs(PicturesDir(week));
    MovePictures(env, week, files);
    AppendAssoc(old(env.trace), [Request(MakeDirs(PicturesDir(week)))], Moves(env.fs, week, files));
  }

  /** The loop over the selected names: every one is attempted, in order. */
  method MovePictures(env: Env, week: nat, files: seq<string>)
    modifies env
    ensures env.trace == old(env.trace) + Moves(env.fs, week, files)
  {
    for i := 0 to |files|
      invariant env.trace == old(env.trace) + Moves(env.fs, week, files[..i])
    {
      MovePicture(env, week, files[i]);
      assert files[..i + 1][..i] == files[..i];
      AppendAssoc(old(env.trace), Moves(env.fs, week, files[..i]), MoveStep(env.fs, week, files[i]));
    }
    assert files[..|files|] == files;
  }

  /** One iteration: move the picture and report the outcome; an error is printed, not raised. */
  method MovePicture(env: Env, week: nat, name: string)
    modifies env
    ensures env.trace == old(env.trace) + MoveStep(env.fs, week, name)
  {
    var outputDir := PicturesDir(week);
    var moved := env.MoveLocal(Join(InputDir, name), Join(outputDir, name));
    if moved {
      env.LogMessage(Stdout, FileMoved(name, outputDir));
    } else {
      env.LogMessage(Stdout, FileMoveError(name));
    }
  }

  // ---------------------------------------------------------------------
  // Properties of the import
  // ---------------------------------------------------------------------

  /** The move requests of a list of names, one per name, in order. */
  function MoveRequests(week: nat, names: seq<string>): (r: seq<Call>)
    ensures |r| == |names|
    ensures forall i :: 0 <= i < |names| ==> r[i] == MoveLocal(Source(names[i]), Destination(week, names[i]))
  {
    seq(|names|, i requires 0 <= i < |names| => MoveLocal(Source(names[i]), Destination(week, names[i])))
  }

  lemma StepRequest(fs: LocalFs, week: nat, name: string)
    ensures Calls(MoveStep(fs, week, name)) == [MoveLocal(Source(name), Destination(week, name))]
  {
    var step := MoveStep(fs, week, name);
    assert step[1..][1..] == [];
    assert Calls(step[1..]) == [];
  }

  lemma MoveRequestsSnoc(week: nat, names: seq<string>)
    requires names != []
    ensures MoveRequests(week, names) == MoveRequests(week, names[..|names| - 1]) + MoveRequests(week, [names[|names| - 1]])
  {
  }

  /** The loop requests one move per name, in order, whichever moves fail. */
  lemma {:induction false} MovesRequestEach(fs: LocalFs, week: nat, names: seq<string>)
    ensures Calls(Moves(fs, week, names)) == MoveRequests(week, names)
    decreases |names|
  {
    if names != [] {
      var init := names[..|names| - 1];
      var last := names[|names| - 1];
      MovesRequestEach(fs, week, init);
      CallsAppend(Moves(fs, week, init), MoveStep(fs, week, last));
      StepRequest(fs, week, last);
      MoveRequestsSnoc(week, names);
    }
  }

  /** A missing input directory stops the script before anything is created or moved. */
  lemma MissingInputDoesNothing(fs: LocalFs, week: nat)
    requires !fs.present(InputDir)
    ensures ImportSpec(fs, week) == [Log(Stdout, InputDirMissing(InputDir))]
    ensures Calls(ImportSpec(fs, week)) == []
  {
    assert ImportSpec(fs, week)[1..] == [];
  }

  /** An input directory without JPEG files stops the script before anything is created or moved. */
  lemma NoJpegsDoesNothing(fs: LocalFs, week: nat)
    requires fs.present(InputDir) && forall f :: f in fs.listDir(InputDir) ==> !IsJpegName(f)
    ensures ImportSpec(fs, week) == [Log(Stdout, NoJpegFiles(InputDir))]
    ensures Calls(ImportSpec(fs, week)) == []
  {
    SelectNoJpegs(fs.listDir(InputDir));
    assert ImportSpec(fs, week)[1..] == [];
  }

  /**
   * With JPEG files present, the script creates the week's picture
   * directory and then moves each of them, in listing order, from
   * `input/` to that directory, whether or not earlier moves failed.
   */
  lemma ImportMovesEveryJpeg(fs: LocalFs, week: nat)
    requires fs.present(InputDir) && SelectJpegs(fs.listDir(InputDir)) != []
    ensures Calls(ImportSpec(fs, week))
            == [MakeDirs(PicturesDir(week))] + MoveRequests(week, SelectJpegs(fs.listDir(InputDir)))
  {
    var files := SelectJpegs(fs.listDir(InputDir));
    var opening: seq<Effect> := [Request(MakeDirs(PicturesDir(week)))];
    CallsAppend(opening, Moves(fs, week, files));
    MovesRequestEach(fs, week, files);
  }

  /** Each name gets the error line exactly when its move fails, and the success line exactly when it succeeds. */
  lemma {:induction false} MovesReportEach(fs: LocalFs, week: nat, names: seq<string>, name: string)
    ensures Log(Stdout, FileMoveError(name)) in Moves(fs, week, names)
            <==> name in names && !fs.moveSucceeds(Source(name), Destination(week, name))
    ensures Log(Stdout, FileMoved(name, PicturesDir(week))) in Moves(fs, week, names)
            <==> name in names && fs.moveSucceeds(Source(name), Destination(week, name))
    decreases |names|
  {
    if names != [] {
      var init := names[..|names| - 1];
      var last := names[|names| - 1];
      MovesReportEach(fs, week, init, name);
      assert names == init + [last];
      assert name in names <==> name in init || name == last;
    }
  }

  /** Inside the week's directory a picture keeps its file name. */
  lemma DestinationKeepsName(week: nat, name: string)
    requires name != [] && forall j :: 0 <= j < |name| ==> name[j] != '/'
    ensures Destination(week, name) == PicturesDir(week) + "/" + name
    ensures Basename(Destination(week, name)) == name
    ensures Source(name) == InputDir + "/" + name
  {
    var dir := PicturesDir(week);
    var digits := NatToString(week);
    assert dir[|dir| - 1] == digits[|digits| - 1];
    assert IsDigit(digits[|digits| - 1]);
    assert name[0] != '/';
    BasenameAfterSlash(dir, name);
  }
}
