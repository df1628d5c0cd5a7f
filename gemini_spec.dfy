/**
 * The menu-extraction helper of the script variant (`helper/gemini.py`), as
 * values: how the model's reply is cleaned of its markdown fence, where the
 * menu file of a picture goes, and what uploading a picture, asking for its
 * menu and saving that menu send and log.
 */
module GeminiSpec {

  import opened Wrappers
  import opened Text
  import opened Environment
  import opened WeekPaths
  import opened RunnerProps

  // ---------------------------------------------------------------------
  // Cleaning the reply
  // ---------------------------------------------------------------------

  const Fence: string := "```"
  const JsonFence: string := "```json"

  /** Remove every "```json", then every "```", then the surrounding whitespace. */
  function CleanReply(text: string): string {
    Strip(ReplaceAll(ReplaceAll(text, JsonFence, ""), Fence, ""))
  }

  /** What a removal pass leaves starts with a backtick only where the input did. */
  lemma FirstTick(t: string)
    ensures var r := ReplaceAll(t, Fence, "");
            r != [] && r[0] == '`' ==> t != [] && t[0] == '`'
  {
  }

  /** What a removal pass leaves starts with two backticks only where the input did. */
  lemma TwoTicks(t: string)
    ensures var r := ReplaceAll(t, Fence, "");
            |r| >= 2 && r[0] == '`' && r[1] == '`' ==> |t| >= 2 && t[0] == '`' && t[1] == '`'
  {
    var r := ReplaceAll(t, Fence, "");
    if |t| >= |Fence| && t[..|Fence|] != Fence && |r| >= 2 && r[0] == '`' && r[1] == '`' {
      assert r == [t[0]] + ReplaceAll(t[1..], Fence, "");
      FirstTick(t[1..]);
    }
  }

  /** A kept first character cannot start a fence: the two backticks after it would have been kept too. */
  lemma NoFenceAtStart(s: string)
    requires |s| >= |Fence| && s[..|Fence|] != Fence
    ensures !OccursAt([s[0]] + ReplaceAll(s[1..], Fence, ""), Fence, 0)
  {
    var rest := ReplaceAll(s[1..], Fence, "");
    var r := [s[0]] + rest;
    if OccursAt(r, Fence, 0) {
      assert r[..3] == Fence && Fence == ['`', '`', '`'];
      assert r[0] == r[..3][0] && r[1] == r[..3][1] && r[2] == r[..3][2];
      assert r[0] == '`' && rest[0] == '`' && rest[1] == '`';
      TwoTicks(s[1..]);
      assert false;
    }
  }

  /** An occurrence past the first character of `[c] + rest` is an occurrence in `rest`. */
  lemma ShiftOccurrence(c: char, rest: string, pat: string, i: nat)
    requires i > 0 && OccursAt([c] + rest, pat, i)
    ensures OccursAt(rest, pat, i - 1)
  {
    var r := [c] + rest;
    assert rest[i - 1..i - 1 + |pat|] == r[i..i + |pat|];
  }

  /**
   * Removing "```" leaves none behind: a backtick kept in front of a
   * removed fence would have started a fence of its own.
   */
  lemma {:induction false} RemovalLeavesNoFence(s: string)
    ensures !Contains(ReplaceAll(s, Fence, ""), Fence)
    decreases |s|
  {
    var r := ReplaceAll(s, Fence, "");
    if |s| < |Fence| {
      assert r == s;
    } else if s[..|Fence|] == Fence {
      ReplaceMatch(s, Fence, "");
      assert r == ReplaceAll(s[|Fence|..], Fence, "");
      RemovalLeavesNoFence(s[|Fence|..]);
    } else {
      var rest := ReplaceAll(s[1..], Fence, "");
      ReplaceSkip(s, Fence, "");
      RemovalLeavesNoFence(s[1..]);
      NoFenceAtStart(s);
      forall i: nat | i <= |r| && OccursAt(r, Fence, i)
        ensures false
      {
        if i > 0 {
          ShiftOccurrence(s[0], rest, Fence, i);
        }
      }
    }
  }

  /** The cleaned reply holds no fence and has no whitespace at either end. */
  lemma CleanReplyIsClean(text: string)
    ensures !Contains(CleanReply(text), Fence) && Stripped(CleanReply(text))
  {
    var removed := ReplaceAll(ReplaceAll(text, JsonFence, ""), Fence, "");
    RemovalLeavesNoFence(ReplaceAll(text, JsonFence, ""));
    StripKeepsAbsent(removed, Fence);
    StripIsStripped(removed);
  }

  /** A reply without a fence and without surrounding whitespace comes back unchanged. */
  lemma CleanReplyKeepsCleanText(text: string)
    requires !Contains(text, Fence) && Stripped(text)
    ensures CleanReply(text) == text
  {
    if Contains(text, JsonFence) {
      ContainsWithin(text, Fence, JsonFence);
    }
    ReplaceAbsent(text, JsonFence, "");
    ReplaceAbsent(text, Fence, "");
    StripStripped(text);
  }

  /** Cleaning a cleaned reply changes nothing. */
  lemma CleanReplyIdempotent(text: string)
    ensures CleanReply(CleanReply(text)) == CleanReply(text)
  {
    CleanReplyIsClean(text);
    CleanReplyKeepsCleanText(CleanReply(text));
  }

  /** A string with no backtick at all. */
  predicate NoBackticks(s: string) {
    forall i :: 0 <= i < |s| ==> s[i] != '`'
  }

  /** A first character that is not a backtick is kept by a pass over a backtick pattern. */
  lemma KeepPlainHead(s: string, pat: string)
    requires |pat| > 0 && pat[0] == '`' && s != [] && s[0] != '`'
    ensures ReplaceAll(s, pat, "") == [s[0]] + ReplaceAll(s[1..], pat, "")
  {
    if |pat| <= |s| {
      assert s[..|pat|][0] != pat[0];
      ReplaceSkip(s, pat, "");
    }
  }

  /** Text without a backtick passes through a pass over a backtick pattern untouched. */
  lemma {:induction false} ReplaceAfterPlainText(a: string, b: string, pat: string)
    requires |pat| > 0 && pat[0] == '`' && NoBackticks(a)
    ensures ReplaceAll(a + b, pat, "") == a + ReplaceAll(b, pat, "")
    decreases |a|
  {
    if a == [] {
      assert a + b == b;
    } else {
      var s := a + b;
      assert s[0] == a[0] && s[1..] == a[1..] + b;
      KeepPlainHead(s, pat);
      ReplaceAfterPlainText(a[1..], b, pat);
      assert [a[0]] + (a[1..] + ReplaceAll(b, pat, "")) == a + ReplaceAll(b, pat, "");
    }
  }

  lemma TrimStartNewline(t: string)
    ensures TrimStart("\n" + t) == TrimStart(t)
  {
    var s := "\n" + t;
    assert s != [] && IsSpace(s[0]);
    assert s[1..] == t;
  }

  lemma TrimEndNewline(t: string)
    ensures TrimEnd(t + "\n") == TrimEnd(t)
  {
    var s := t + "\n";
    assert s != [] && IsSpace(s[|s| - 1]);
    assert s[..|s| - 1] == t;
  }

  /** A newline on each side of stripped text strips back to the text. */
  lemma StripNewlines(body: string)
    requires Stripped(body)
    ensures Strip("\n" + body + "\n") == body
  {
    var t := body + "\n";
    assert "\n" + body + "\n" == "\n" + t;
    TrimStartNewline(t);
    if body == [] {
      assert t == "\n" + [];
      TrimStartNewline([]);
    } else {
      assert t[0] == body[0];
      TrimEndNewline(body);
    }
  }

  /**
   * The reply the prompt asks for, a JSON text in a ```json fence on lines
   * of its own, comes back as the JSON text.
   */
  lemma FencedReplyRoundTrip(body: string)
    requires NoBackticks(body) && Stripped(body)
    ensures CleanReply(JsonFence + "\n" + body + "\n" + Fence) == body
  {
    var inner := "\n" + body + "\n";
    assert NoBackticks(inner) by {
      forall i | 0 <= i < |inner|
        ensures inner[i] != '`'
      {
        if 0 < i < |inner| - 1 {
          assert inner[i] == body[i - 1];
        }
      }
    }
    var text := JsonFence + "\n" + body + "\n" + Fence;
    var rest := inner + Fence;
    assert text == JsonFence + rest;
    assert text[..|JsonFence|] == JsonFence;
    assert text[|JsonFence|..] == rest;
    assert ReplaceAll(text, JsonFence, "") == ReplaceAll(rest, JsonFence, "");
    ReplaceAfterPlainText(inner, Fence, JsonFence);
    assert ReplaceAll(Fence, JsonFence, "") == Fence;
    ReplaceAfterPlainText(inner, Fence, Fence);
    assert Fence[..|Fence|] == Fence && Fence[|Fence|..] == [];
    assert ReplaceAll(Fence, Fence, "") == "";
    assert inner + "" == inner;
    StripNewlines(body);
  }

  // ---------------------------------------------------------------------
  // Where the menu of a picture is saved
  // ---------------------------------------------------------------------

  /** `os.path.join(menu_dir, splitext(basename(image))[0] + ".json")`. */
  function MenuJsonPath(week: nat, image: Path): Path {
    Join(MenuDir(week), SplitextRoot(Basename(image)) + ".json")
  }

  /** The menu file sits directly in the week's menu directory. */
  lemma MenuJsonPathShape(week: nat, image: Path)
    ensures var name := SplitextRoot(Basename(image));
            MenuJsonPath(week, image) == MenuDir(week) + "/" + name + ".json"
            && forall j :: 0 <= j < |name| ==> name[j] != '/'
  {
    var name := SplitextRoot(Basename(image));
    var b := Basename(image);
    assert forall j :: 0 <= j < |name| ==> name[j] == b[j];
    var dir := MenuDir(week);
    var digits := NatToString(week);
    assert dir[|dir| - 1] == digits[|digits| - 1];
    assert IsDigit(digits[|digits| - 1]);
    var file := name + ".json";
    assert file[0] != '/' by {
      if name != [] {
        assert file[0] == name[0];
      }
    }
    assert dir + "/" + (name + ".json") == dir + "/" + name + ".json";
  }

  /** The root of `stem.ext` is `stem` when the extension has no dot and the stem is not all dots. */
  lemma RootOfExtension(stem: string, ext: string)
    requires forall j :: 0 <= j < |ext| ==> ext[j] != '.'
    requires exists j :: 0 <= j < |stem| && stem[j] != '.'
    ensures SplitextRoot(stem + "." + ext) == stem
  {
    var name := stem + "." + ext;
    assert name[|stem|] == '.';
    var d := LastDot(name);
    assert d.Some?;
    assert forall j :: |stem| < j < |name| ==> name[j] == ext[j - |stem| - 1];
    assert d.value == |stem|;
    var j :| 0 <= j < |stem| && stem[j] != '.';
    assert name[j] != '.';
    assert HasNonDotBefore(name, d.value);
    assert name[..|stem|] == stem;
  }

  /**
   * A picture `<dir>/<stem>.<ext>` gets its menu saved as
   * `static/menu/<week>/<stem>.json`: the extension is replaced.
   */
  lemma MenuJsonPathReplacesExtension(week: nat, dir: string, stem: string, ext: string)
    requires forall j :: 0 <= j < |stem| ==> stem[j] != '/'
    requires forall j :: 0 <= j < |ext| ==> ext[j] != '/' && ext[j] != '.'
    requires exists j :: 0 <= j < |stem| && stem[j] != '.'
    ensures MenuJsonPath(week, dir + "/" + stem + "." + ext) == MenuDir(week) + "/" + stem + ".json"
  {
    var name := stem + "." + ext;
    assert forall j :: 0 <= j < |name| ==> name[j] != '/';
    assert dir + "/" + stem + "." + ext == dir + "/" + name;
    BasenameAfterSlash(dir, name);
    RootOfExtension(stem, ext);
    MenuJsonPathShape(week, dir + "/" + name);
  }

  // ---------------------------------------------------------------------
  // What the helper sends and logs
  // ---------------------------------------------------------------------

  /** The instruction sent with the picture. */
  const ExtractPrompt: string := "Extract the menu please."

  datatype Upload = Upload(effects: seq<Effect>, file: Option<UploadedFile>)

  /** `upload_menu_image`: no mime type, no upload; a failed upload is logged. */
  function UploadSpec(vision: Vision, image: Path): Upload {
    var mime := vision.guessMime(image);
    if mime.None? || mime.value == "" then Upload([Log(Error, MimeTypeUnknown(image))], None)
    else
      var sent := [Request(GenaiUpload(image, mime.value))];
      match vision.upload(image, mime.value)
      case None => Upload(sent + [Log(Error, ImageUploadError(image))], None)
      case Some(f) => Upload(sent, Some(f))
  }

  datatype Reply = Reply(effects: seq<Effect>, text: Option<string>)

  /**
   * `get_menu_json`: without a model, nothing is asked; otherwise upload
   * the picture, ask for the menu and clean the reply.
   */
  function MenuJsonSpec(vision: Vision, configured: bool, image: Path): Reply {
    if !configured then Reply([Log(Error, ModelNotConfigured)], None)
    else
      var up := UploadSpec(vision, image);
      match up.file
      case None => Reply(up.effects + [Log(Error, MenuNotObtained)], None)
      case Some(f) =>
        var asked := up.effects + [Request(SendMessage(f, ExtractPrompt))];
        match vision.reply(f)
        case None => Reply(asked + [Log(Error, MessageSendError)], None)
        case Some(text) => Reply(asked, Some(CleanReply(text)))
  }

  /** What `process_menu` logs and sends before it asks for the menu. */
  function MenuOpening(image: Path, week: nat): seq<Effect> {
    var dir := MenuDir(week);
    [Log(Info, ProcessingMenu(image)), Log(Info, MenuDirectory(dir)), Request(MakeDirs(dir))]
  }

  /**
   * What `process_menu` does with the reply: report a missing or empty
   * menu, or write it to `out`, re-indented when it is JSON and as it came
   * otherwise.
   */
  function MenuClosing(json: Codec, reply: Option<string>, out: Path): seq<Effect> {
    if reply.None? || reply.value == "" then [Log(Error, MenuNotObtained)]
    else if json.isJson(reply.value) then [Request(WriteFile(out, Reindented(reply.value))), Log(Info, MenuSaved(out))]
    else [Log(Error, JsonFormatFailed), Request(WriteFile(out, Raw(reply.value))), Log(Info, MenuSavedRaw(out))]
  }

  /**
   * `process_menu`: create the week's menu directory, ask for the menu,
   * and save a non-empty one in that directory under the picture's base
   * name.
   */
  function ProcessMenuSpec(vision: Vision, json: Codec, configured: bool, image: Path, week: nat): seq<Effect> {
    var reply := MenuJsonSpec(vision, configured, image);
    MenuOpening(image, week) + reply.effects + MenuClosing(json, reply.text, MenuJsonPath(week, image))
  }

  // ---------------------------------------------------------------------
  // Properties of the helper
  // ---------------------------------------------------------------------

  /** A trace without a request sends nothing. */
  lemma NoCalls(effects: seq<Effect>)
    requires forall e :: e in effects ==> !e.Request?
    ensures Calls(effects) == []
  {
  }

  /** Without a configured model, asking for a menu sends nothing and gives nothing. */
  lemma NoModelNoRequests(vision: Vision, image: Path)
    ensures var r := MenuJsonSpec(vision, false, image);
            r.text.None? && Calls(r.effects) == []
  {
    NoCalls(MenuJsonSpec(vision, false, image).effects);
  }

  /** Without a mime type nothing is uploaded and the model is not asked. */
  lemma UnknownMimeNoUpload(vision: Vision, configured: bool, image: Path)
    requires vision.guessMime(image).None?
    ensures UploadSpec(vision, image).file.None? && Calls(UploadSpec(vision, image).effects) == []
    ensures var r := MenuJsonSpec(vision, configured, image);
            r.text.None? && Calls(r.effects) == []
  {
    NoCalls(UploadSpec(vision, image).effects);
    NoCalls(MenuJsonSpec(vision, configured, image).effects);
  }

  /**
   * A menu comes back exactly when the model is configured, the picture
   * has a mime type, the upload and the message both succeed; it is then
   * the model's reply, cleaned.
   */
  lemma MenuReplyIsCleaned(vision: Vision, configured: bool, image: Path)
    ensures var r := MenuJsonSpec(vision, configured, image);
            var mime := vision.guessMime(image);
            var ok := configured && mime.Some? && mime.value != ""
                      && vision.upload(image, mime.value).Some?
                      && vision.reply(vision.upload(image, mime.value).value).Some?;
            (r.text.Some? <==> ok)
            && (ok ==> r.text.value == CleanReply(vision.reply(vision.upload(image, mime.value).value).value))
            && (r.text.Some? ==> !Contains(r.text.value, Fence) && Stripped(r.text.value))
  {
    var r := MenuJsonSpec(vision, configured, image);
    if r.text.Some? {
      var mime := vision.guessMime(image);
      CleanReplyIsClean(vision.reply(vision.upload(image, mime.value).value).value);
    }
  }

  /**
   * A menu request sends at most two requests, in this order: the upload
   * of the picture under its guessed type, once a model is configured and
   * the type is known, then the extraction prompt about the uploaded file,
   * once the upload returned one.
   */
  lemma MenuRequests(vision: Vision, configured: bool, image: Path)
    ensures var cs := Calls(MenuJsonSpec(vision, configured, image).effects);
      var mime := vision.guessMime(image);
      var sends := configured && mime.Some? && mime.value != "";
      |cs| <= 2
      && (|cs| >= 1 <==> sends)
      && (|cs| >= 1 ==> cs[0] == GenaiUpload(image, mime.value))
      && (|cs| == 2 <==> sends && vision.upload(image, mime.value).Some?)
      && (|cs| == 2 ==> cs[1] == SendMessage(vision.upload(image, mime.value).value, ExtractPrompt))
  {
    var r := MenuJsonSpec(vision, configured, image);
    var mime := vision.guessMime(image);
    if !configured || mime.None? || mime.value == "" {
      NoCalls(r.effects);
    } else {
      var sent := Request(GenaiUpload(image, mime.value));
      match vision.upload(image, mime.value)
      case None =>
        var logs := [Log(Error, ImageUploadError(image)), Log(Error, MenuNotObtained)];
        assert r.effects == [sent] + logs;
        CallsCons(sent, logs);
        NoCalls(logs);
      case Some(f) =>
        var asked := Request(SendMessage(f, ExtractPrompt));
        var tail := if vision.reply(f).None? then [Log(Error, MessageSendError)] else [];
        assert r.effects == [sent] + ([asked] + tail);
        CallsCons(sent, [asked] + tail);
        CallsCons(asked, tail);
        NoCalls(tail);
    }
  }

  /** Uploading sends at most the upload itself. */
  lemma UploadRequests(vision: Vision, image: Path)
    ensures forall c :: Request(c) in UploadSpec(vision, image).effects ==> c.GenaiUpload? && c.path == image
  {
  }

  predicate IsWrite(c: Call) {
    c.WriteFile?
  }

  lemma OpeningCalls(image: Path, week: nat)
    ensures Calls(MenuOpening(image, week)) == [MakeDirs(MenuDir(week))]
  {
    var o := MenuOpening(image, week);
    CallsCons(o[0], o[1..]);
    CallsCons(o[1], o[2..]);
    CallsCons(o[2], o[3..]);
    assert o == [o[0]] + o[1..] && o[1..] == [o[1]] + o[2..] && o[2..] == [o[2]] + o[3..];
  }

  /** The closing writes the menu once when there is one, and nothing otherwise. */
  lemma ClosingWrites(json: Codec, reply: Option<string>, out: Path)
    ensures Filter(Calls(MenuClosing(json, reply, out)), IsWrite)
            == if reply.None? || reply.value == "" then []
               else [WriteFile(out, if json.isJson(reply.value) then Reindented(reply.value) else Raw(reply.value))]
  {
    var cl := MenuClosing(json, reply, out);
    if reply.Some? && reply.value != "" && !json.isJson(reply.value) {
      CallsCons(cl[0], cl[1..]);
      assert cl == [cl[0]] + cl[1..];
      assert Calls(cl) == Calls(cl[1..]);
      FilterCons(Calls(cl[1..])[0], Calls(cl[1..])[1..], IsWrite);
    }
  }

  /** Asking for the menu writes no file. */
  lemma ReplyWritesNothing(vision: Vision, configured: bool, image: Path)
    ensures Filter(Calls(MenuJsonSpec(vision, configured, image).effects), IsWrite) == []
  {
    MenuRequests(vision, configured, image);
    NoWrites(Calls(MenuJsonSpec(vision, configured, image).effects));
  }

  lemma NoWrites(cs: seq<Call>)
    requires forall c :: c in cs ==> !c.WriteFile?
    ensures Filter(cs, IsWrite) == []
  {
  }

  /** The menu directory is created first; with no menu, or an empty one, no file is written. */
  lemma NothingWrittenWithoutMenu(vision: Vision, json: Codec, configured: bool, image: Path, week: nat)
    ensures var es := ProcessMenuSpec(vision, json, configured, image, week);
            var reply := MenuJsonSpec(vision, configured, image);
            Calls(es)[0] == MakeDirs(MenuDir(week))
            && (reply.text.None? || reply.text.value == "" ==> Filter(Calls(es), IsWrite) == [])
  {
    MenuWrites(vision, json, configured, image, week);
    var reply := MenuJsonSpec(vision, configured, image);
    ClosingWrites(json, reply.text, MenuJsonPath(week, image));
  }

  /**
   * A non-empty menu is written once, to `static/menu/<week>/<base>.json`:
   * re-indented when it is JSON, as it came otherwise.
   */
  lemma MenuWrittenOnce(vision: Vision, json: Codec, configured: bool, image: Path, week: nat)
    requires var t := MenuJsonSpec(vision, configured, image).text; t.Some? && t.value != ""
    ensures var text := MenuJsonSpec(vision, configured, image).text.value;
            Filter(Calls(ProcessMenuSpec(vision, json, configured, image, week)), IsWrite)
            == [WriteFile(MenuJsonPath(week, image), if json.isJson(text) then Reindented(text) else Raw(text))]
  {
    MenuWrites(vision, json, configured, image, week);
    var reply := MenuJsonSpec(vision, configured, image);
    ClosingWrites(json, reply.text, MenuJsonPath(week, image));
  }

  /** The requests and writes of the whole of `process_menu`, piece by piece. */
  lemma MenuWrites(vision: Vision, json: Codec, configured: bool, image: Path, week: nat)
    ensures var reply := MenuJsonSpec(vision, configured, image);
            var es := ProcessMenuSpec(vision, json, configured, image, week);
            Calls(es)[0] == MakeDirs(MenuDir(week))
            && Filter(Calls(es), IsWrite) == Filter(Calls(MenuClosing(json, reply.text, MenuJsonPath(week, image))), IsWrite)
  {
    var reply := MenuJsonSpec(vision, configured, image);
    var opening := MenuOpening(image, week);
    var closing := MenuClosing(json, reply.text, MenuJsonPath(week, image));
    CallsAppend(opening + reply.effects, closing);
    CallsAppend(opening, reply.effects);
    OpeningCalls(image, week);
    ReplyWritesNothing(vision, configured, image);
    FilterAppend(Calls(opening) + Calls(reply.effects), Calls(closing), IsWrite);
    FilterAppend(Calls(opening), Calls(reply.effects), IsWrite);
    FilterCons(MakeDirs(MenuDir(week)), [], IsWrite);
    ClosingWrites(json, reply.text, MenuJsonPath(week, image));
  }
}
