/**
 * `GoogleGeminiHelper` as a class over an `Env`: whether a model could be
 * configured is fixed when the helper is made, and each method is proved to
 * do exactly what `GeminiSpec` describes.
 */
module Gemini {

  import opened Wrappers
  import opened Environment
  import opened WeekPaths
  import opened GeminiSpec

  class GeminiHelper {
    const apiKeyEnvVar: string
    /** A model was configured: the key's variable was set. */
    const configured: bool

    /**
     * Read the key from `apiKeyEnvVar`; when the variable is not set, log
     * the error and keep no model.
     */
    constructor (env: Env, apiKeyEnvVar: string, apiKeySet: bool)
      modifies env
      ensures this.apiKeyEnvVar == apiKeyEnvVar && configured == apiKeySet
      ensures env.trace == old(env.trace) + (if apiKeySet then [] else [Log(Error, ApiKeyNotSet(apiKeyEnvVar))])
    {
      this.apiKeyEnvVar := apiKeyEnvVar;
      configured := apiKeySet;
      new;
      if !apiKeySet {
        env.LogMessage(Error, ApiKeyNotSet(apiKeyEnvVar));
      }
    }

    /** Guess the picture's mime type and upload it. */
    method UploadMenuImage(env: Env, image: Path) returns (file: Option<UploadedFile>)
      modifies env
      ensures var u := UploadSpec(env.vision, image);
              env.trace == old(env.trace) + u.effects && file == u.file
    {
      var mime := env.vision.guessMime(image);
      if mime.None? || mime.value == "" {
        env.LogMessage(Error, MimeTypeUnknown(image));
        return None;
      }
      file := env.GenaiUpload(image, mime.value);
      if file.None? {
        env.LogMessage(Error, ImageUploadError(image));
      }
    }

    /** Upload the picture, ask the model for its menu and clean the reply. */
    method GetMenuJson(env: Env, image: Path) returns (text: Option<string>)
      modifies env
      ensures var r := MenuJsonSpec(env.vision, configured, image);
              env.trace == old(env.trace) + r.effects && text == r.text
    {
      if !configured {
        env.LogMessage(Error, ModelNotConfigured);
        return None;
      }
      var uploaded := UploadMenuImage(env, image);
      if uploaded.None? {
        env.LogMessage(Error, MenuNotObtained);
        return None;
      }
      var reply := env.SendMessage(uploaded.value, ExtractPrompt);
      if reply.None? {
        env.LogMessage(Error, MessageSendError);
        return None;
      }
      text := Some(CleanReply(reply.value));
    }

    /**
     * Make the week's menu directory, ask for the menu and save it there;
     * `week` is the ISO week number of the day it runs.
     */
    method ProcessMenu(env: Env, image: Path, week: nat)
      modifies env
      ensures env.trace == old(env.trace) + ProcessMenuSpec(env.vision, env.json, configured, image, week)
    {
      var dir := MenuDir(week);
      env.LogMessage(Info, ProcessingMenu(image));
      env.LogMessage(Info, MenuDirectory(dir));
      env.MakeDirs(dir);
      ghost var started := env.trace;
      var menu := GetMenuJson(env, image);
      var out := MenuJsonPath(week, image);
      SaveMenu(env, menu, out);
      ghost var reply := MenuJsonSpec(env.vision, configured, image);
      assert started == old(env.trace) + MenuOpening(image, week);
      AppendAssoc(old(env.trace), MenuOpening(image, week), reply.effects);
      AppendAssoc(old(env.trace), MenuOpening(image, week) + reply.effects, MenuClosing(env.json, menu, out));
    }
  
    /** Save a non-empty menu to `out`, re-indented when it parses as JSON and as it came otherwise. */
    method SaveMenu(env: Env, menu: Option<string>, out: Path)
      modifies env
      ensures env.trace == old(env.trace) + MenuClosing(env.json, menu, out)
    {
      if menu.None? || menu.value == "" {
        env.LogMessage(Error, MenuNotObtained);
      } else if env.json.isJson(menu.value) {
        env.WriteFile(out, Reindented(menu.value));
        env.LogMessage(Info, MenuSaved(out));
      } else {
        env.LogMessage(Error, JsonFormatFailed);
        env.WriteFile(out, Raw(menu.value));
        env.LogMessage(Info, MenuSavedRaw(out));
      }
    }
  }
}
