/*
 * The AI test server's request handlers: the scene prompts, the input
 * guards of each handler, and the upload pipeline of the person-removal and
 * scene-blend handlers (download, ask the backend for an upload URL, check
 * its answer, upload, call back). Image processing and every network call
 * are foreign: their outcomes are the inputs collected in `Env`, and the
 * calls made are recorded as `Step`s.
 */
module AiTestUtils {
  import opened Common
  import AIService
  import BackendDomain
  import FileNameUtils

  const DawnPrompt := "dawn view, early morning soft light, misty atmosphere, calm and serene"
  const SunsetPrompt := "sunset view, warm golden hour, glowing sky, tranquil and peaceful"
  const NightPrompt := "night sky, stars, quiet, peaceful and dreamy"
  const AfternoonPrompt := "afternoon view, bright sky, clear clouds, energetic and lively"

  const ScenePrompts: map<string, string> :=
    map["dawn" := DawnPrompt, "sunset" := SunsetPrompt, "night" := NightPrompt, "afternoon" := AfternoonPrompt]

  /** `get_scene_prompt`: the scene's own prompt, or the night prompt for any other scene. */
  function GetScenePrompt(sceneType: string): (prompt: string)
    ensures prompt in {DawnPrompt, SunsetPrompt, NightPrompt, AfternoonPrompt}
    ensures sceneType in ScenePrompts ==> prompt == ScenePrompts[sceneType]
    ensures sceneType !in ScenePrompts ==> prompt == NightPrompt
  {
    if sceneType in ScenePrompts then ScenePrompts[sceneType] else NightPrompt
  }

  /** The four scenes have four different prompts, so the prompt tells the known scene. */
  lemma ScenePromptsDistinct(a: string, b: string)
    requires a in ScenePrompts && b in ScenePrompts
    requires GetScenePrompt(a) == GetScenePrompt(b)
    ensures a == b
  {
    assert |DawnPrompt| == 70 && |SunsetPrompt| == 65 && |NightPrompt| == 44 && |AfternoonPrompt| == 62;
  }

  /** Every scene the backend asks for has a prompt of its own; none falls back. */
  lemma BackendScenesHavePrompts(o: BackendDomain.MediaOrigin)
    requires o in AIService.GeneratedTypes && o != BackendDomain.AI_RP
    ensures AIService.SceneType(o) in ScenePrompts
    ensures GetScenePrompt(AIService.SceneType(o)) == ScenePrompts[AIService.SceneType(o)]
  {
  }

  /** ASCII `str.lower`. */
  function LowerAscii(s: string): (r: string)
    ensures |r| == |s|
    ensures forall i :: 0 <= i < |s| ==> r[i] == AIService.Lower(s[i])
  {
    if |s| == 0 then "" else [AIService.Lower(s[0])] + LowerAscii(s[1..])
  }

  /** `str.strip()`: without its leading and trailing Python whitespace. */
  function Strip(s: string): (r: string)
    ensures |r| <= |s|
    ensures r == "" <==> IsBlank(s)
    ensures r != "" ==> !IsPyWhitespace(r[0]) && !IsPyWhitespace(r[|r| - 1])
  {
    StripEnd(StripStart(s))
  }

  function StripStart(s: string): (r: string)
    ensures |r| <= |s| && r == s[|s| - |r|..]
    ensures r == "" <==> IsBlank(s)
    ensures r != "" ==> !IsPyWhitespace(r[0])
  {
    if |s| > 0 && IsPyWhitespace(s[0]) then StripStart(s[1..]) else s
  }

  function StripEnd(s: string): (r: string)
    ensures |r| <= |s| && r == s[..|r|]
    ensures r == "" <==> IsBlank(s)
    ensures r != "" ==> !IsPyWhitespace(r[|r| - 1])
    ensures |s| > 0 && !IsPyWhitespace(s[0]) ==> r != "" && r[0] == s[0]
  {
    if |s| > 0 && IsPyWhitespace(s[|s| - 1]) then StripEnd(s[..|s| - 1]) else s
  }

  /**
   * `(request.get("sceneType") or "night").lower().strip()`: a falsy value
   * becomes "night"; a string is lower-cased and stripped; any other value
   * has no `lower` and the error escapes the handler (None).
   */
  function NormalizeScene(v: Value): (r: Option<string>)
    ensures r.None? <==> Truthy(v) && !v.Str?
    ensures !Truthy(v) ==> r == Some("night")
    ensures v.Str? && v.s != "" ==> r == Some(Strip(LowerAscii(v.s)))
  {
    if !Truthy(v) then Some("night")
    else if v.Str? then Some(Strip(LowerAscii(v.s)))
    else None
  }

  /** A scene of only whitespace normalises to "", which the guard then refuses. */
  lemma {:induction false} BlankSceneIsEmpty(s: string)
    requires s != "" && IsBlank(s)
    ensures NormalizeScene(Str(s)) == Some("")
  {
    var l := LowerAscii(s);
    assert IsBlank(l) by {
      forall i | 0 <= i < |l| ensures IsPyWhitespace(l[i]) {
        LowerKeepsNonLetters(s[i]);
      }
    }
    assert Strip(l) == "";
  }

  /** Lower-casing changes only the letters A to Z. */
  lemma LowerKeepsNonLetters(c: char)
    ensures !('A' <= c <= 'Z') ==> AIService.Lower(c) == c
    ensures !('A' <= AIService.Lower(c) <= 'Z')
  {
  }

  /** A network call or pipeline stage the handler made, in order. */
  datatype Step =
    | Download(url: Value)
    | ChosePrompt(prompt: string)
    | RequestUploadUrl(key: Value)
    | Upload(fileUrl: Value)
    | Callback(parentMediaId: Value, key: Value)

  /** A handler's reply: a refusal with its message, a caught exception, or the result. */
  datatype Reply = Refused(error: string) | Failed | Completed(resultKey: Value, resultUrl: Value)

  datatype Outcome = Outcome(reply: Reply, steps: seq<Step>)

  /**
   * The foreign outcomes: whether the image download works, the upload-URL
   * response body (None when the HTTP status raises), and whether the
   * upload and the callback succeed.
   */
  datatype Env = Env(downloadOk: bool, uploadUrlResponse: Option<map<string, Value>>, uploadOk: bool, callbackOk: bool)

  const RemoveRequired := "mediaId, downloadUrl, and targetAIS3Key are required"
  const SceneRequired := "mediaId, downloadUrl, sceneType, and targetAIS3Key are required"
  const KeyMismatch := "S3 object key mismatch or missing in AI upload URL response"
  const FileUrlMissing := "fileUrl missing in AI upload URL response"

  /**
   * `request_ai_upload_url`: the response's "data" when its "status" is 200
   * and it has a "data" key; otherwise it raises (None).
   */
  function UploadUrlData(response: Option<map<string, Value>>): (data: Option<Value>)
    ensures data.Some? <==> response.Some? && Get(response.value, "status") == Int(200) && "data" in response.value
    ensures data.Some? ==> data.value == response.value["data"]
  {
    if response.Some? && Get(response.value, "status") == Int(200) && "data" in response.value then
      Some(response.value["data"])
    else None
  }

  /**
   * What both image handlers do once the image is ready: ask for the upload
   * URL, refuse an answer without the target key or without a file URL,
   * then upload and call the backend back. A `get` on an answer that is not
   * a dict raises, which the handler catches.
   */
  function Finish(mediaId: Value, key: Value, env: Env, steps: seq<Step>): (o: Outcome)
    ensures IsPrefixSeq(steps + [RequestUploadUrl(key)], o.steps)
    ensures |o.steps| <= |steps| + 3
  {
    var asked := steps + [RequestUploadUrl(key)];
    match UploadUrlData(env.uploadUrlResponse)
    case None => Outcome(Failed, asked)
    case Some(data) =>
      if !Truthy(data) then Outcome(Refused(KeyMismatch), asked)
      else if !data.Object? then Outcome(Failed, asked)
      else if Get(data.fields, "s3ObjectKey") != key then Outcome(Refused(KeyMismatch), asked)
      else
        var fileUrl := Get(data.fields, "fileUrl");
        if !Truthy(fileUrl) then Outcome(Refused(FileUrlMissing), asked)
        else
          var uploaded := asked + [Upload(fileUrl)];
          if !env.uploadOk then Outcome(Failed, uploaded)
          else
            var notified := uploaded + [Callback(mediaId, key)];
            if !env.callbackOk then Outcome(Failed, notified)
            else Outcome(Completed(key, fileUrl), notified)
  }

  predicate IsPrefixSeq(p: seq<Step>, s: seq<Step>)
  {
    |p| <= |s| && s[..|p|] == p
  }

  /**
   * `handle_remove_person`: a falsy mediaId, downloadUrl or targetAIS3Key
   * (0 and "" count as missing) is refused before anything is downloaded.
   */
  function RemovePerson(request: map<string, Value>, env: Env): (o: Outcome)
    ensures var mediaId, url, key := Get(request, "mediaId"), Get(request, "downloadUrl"), Get(request, "targetAIS3Key");
      (!Truthy(mediaId) || !Truthy(url) || !Truthy(key)) <==> o == Outcome(Refused(RemoveRequired), [])
  {
    var mediaId, url, key := Get(request, "mediaId"), Get(request, "downloadUrl"), Get(request, "targetAIS3Key");
    if !Truthy(mediaId) || !Truthy(url) || !Truthy(key) then Outcome(Refused(RemoveRequired), [])
    else if !env.downloadOk then Outcome(Failed, [Download(url)])
    else Finish(mediaId, key, env, [Download(url)])
  }

  /**
   * `handle_scene_blend`: the scene is normalised first (None: the error
   * escapes); a falsy field or an empty scene is refused before anything is
   * downloaded; otherwise the scene's prompt is chosen after the download.
   */
  function SceneBlend(request: map<string, Value>, env: Env): (o: Option<Outcome>)
    ensures o.None? <==> NormalizeScene(Get(request, "sceneType")).None?
    ensures o.Some? ==>
      var scene := NormalizeScene(Get(request, "sceneType")).value;
      var mediaId, url, key := Get(request, "mediaId"), Get(request, "downloadUrl"), Get(request, "targetAIS3Key");
      (!Truthy(mediaId) || !Truthy(url) || !Truthy(key) || scene == "") <==> o.value == Outcome(Refused(SceneRequired), [])
  {
    match NormalizeScene(Get(request, "sceneType"))
    case None => None
    case Some(scene) =>
      var mediaId, url, key := Get(request, "mediaId"), Get(request, "downloadUrl"), Get(request, "targetAIS3Key");
      if !Truthy(mediaId) || !Truthy(url) || !Truthy(key) || scene == "" then Some(Outcome(Refused(SceneRequired), []))
      else if !env.downloadOk then Some(Outcome(Failed, [Download(url)]))
      else Some(Finish(mediaId, key, env, [Download(url), ChosePrompt(GetScenePrompt(scene))]))
  }

  /** Nothing is uploaded or called back unless the upload URL was issued for the target key with a file URL. */
  lemma {:induction false} UploadOnlyForTargetKey(mediaId: Value, key: Value, env: Env, steps: seq<Step>, fileUrl: Value)
    requires forall i :: 0 <= i < |steps| ==> !steps[i].Upload? && !steps[i].Callback?
    requires Upload(fileUrl) in Finish(mediaId, key, env, steps).steps
    ensures var data := UploadUrlData(env.uploadUrlResponse);
      data.Some? && data.value.Object? &&
      Get(data.value.fields, "s3ObjectKey") == key && Get(data.value.fields, "fileUrl") == fileUrl && Truthy(fileUrl)
  {
  }

  /**
   * A completed handler uploaded to the file URL it reports and called the
   * backend back with the target key as its last two steps, and reports the
   * target key as its result.
   */
  lemma CompletedUploadsThenCallsBack(mediaId: Value, key: Value, env: Env, steps: seq<Step>)
    requires Finish(mediaId, key, env, steps).reply.Completed?
    ensures var o := Finish(mediaId, key, env, steps);
      o.reply.resultKey == key && |o.steps| == |steps| + 3 &&
      o.steps[|steps| + 1] == Upload(o.reply.resultUrl) && o.steps[|steps| + 2] == Callback(mediaId, key) &&
      env.uploadOk && env.callbackOk
  {
  }

  /** A missing scene means night: the night prompt is chosen right after the download. */
  lemma MissingSceneIsNight(request: map<string, Value>, env: Env)
    requires "sceneType" !in request
    requires Truthy(Get(request, "mediaId")) && Truthy(Get(request, "downloadUrl")) && Truthy(Get(request, "targetAIS3Key"))
    requires env.downloadOk
    ensures var o := SceneBlend(request, env);
      o.Some? && |o.value.steps| >= 2 && o.value.steps[1] == ChosePrompt(NightPrompt)
  {
  }

  /**
   * A scene-blend request whose fields are all present and whose scene is
   * already normalised and non-empty gets past the guard, and after the
   * download chooses that scene's prompt.
   */
  lemma SceneRequestChoosesPrompt(request: map<string, Value>, scene: string, env: Env)
    requires Truthy(Get(request, "mediaId")) && Truthy(Get(request, "downloadUrl")) && Truthy(Get(request, "targetAIS3Key"))
    requires Get(request, "sceneType") == Str(scene) && scene != ""
    requires NormalizeScene(Str(scene)) == Some(scene)
    requires env.downloadOk
    ensures var out := SceneBlend(request, env);
      out.Some? && |out.value.steps| >= 2 && out.value.steps[1] == ChosePrompt(GetScenePrompt(scene))
  {
  }

  /** The target key of a non-empty upload key is a non-empty string. */
  lemma TargetKeyNotEmpty(fileUrl: string, o: BackendDomain.MediaOrigin)
    requires o in AIService.GeneratedTypes && fileUrl != ""
    ensures AIService.TargetKey(fileUrl, o).Some? && AIService.TargetKey(fileUrl, o).value != ""
  {
    var key := AIService.TargetKey(fileUrl, o);
    assert |key.value| == |fileUrl| + |FileNameUtils.Marker + AIService.TypeName(o)|;
  }

  /** The scene names the backend sends are already lower-case and stripped. */
  lemma {:induction false} SceneNormalisesToItself(o: BackendDomain.MediaOrigin)
    requires o in AIService.GeneratedTypes && o != BackendDomain.AI_RP
    ensures NormalizeScene(Str(AIService.SceneType(o))) == Some(AIService.SceneType(o))
  {
    var scene := AIService.SceneType(o);
    AIService.SceneTypeLetters(o);
    var l := LowerAscii(scene);
    assert l == scene by {
      forall i | 0 <= i < |scene| ensures l[i] == scene[i] {
        LowerKeepsNonLetters(scene[i]);
      }
    }
    LetterNotWhitespace(scene[0]);
    LetterNotWhitespace(scene[|scene| - 1]);
    StripKeeps(scene);
  }

  /** A lower-case letter is not whitespace. */
  lemma LetterNotWhitespace(c: char)
    requires 'a' <= c <= 'z'
    ensures !IsPyWhitespace(c)
  {
  }

  /** Stripping a string that neither starts nor ends with whitespace keeps it. */
  lemma StripKeeps(s: string)
    requires s != "" && !IsPyWhitespace(s[0]) && !IsPyWhitespace(s[|s| - 1])
    ensures Strip(s) == s
  {
  }

  /** `handle_recommend_music` goes ahead only with a truthy downloadUrl. */
  predicate RecommendMusicAccepts(request: map<string, Value>)
  {
    Truthy(Get(request, "downloadUrl"))
  }

  /** `handle_generate_dalle_image` goes ahead only with a prompt that is a non-empty string. */
  predicate DalleAccepts(request: map<string, Value>)
  {
    var p := Get(request, "prompt");
    Truthy(p) && p.Str?
  }

  /** The two guards in plain terms: a present, non-empty URL string or any other truthy value; a non-empty string prompt. */
  lemma GuardsInPlainTerms(request: map<string, Value>)
    ensures DalleAccepts(request) <==> "prompt" in request && request["prompt"].Str? && request["prompt"].s != ""
    ensures RecommendMusicAccepts(request) ==> "downloadUrl" in request && request["downloadUrl"] != Null
  {
  }
}
