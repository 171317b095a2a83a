/*
 * The backend's request for AI renditions of an uploaded image: one music
 * recommendation request, then one request per generated image type, each
 * naming the object key the AI server is to upload its result under.
 * The HTTP calls themselves are fire-and-forget: a failure is logged and
 * swallowed, so the list of requests never depends on how a call went.
 */
module AIService {
  import opened Common
  import opened BackendDomain
  import opened FileNameUtils

  /** The body posted to the AI server. */
  datatype AIRequest = AIRequest(
    mediaId: int,
    downloadUrl: string,
    targetAIS3Key: Option<string>,
    sceneType: Option<string>)

  /** One POST: the endpoint path and its body. */
  datatype Call = Call(endpoint: string, request: AIRequest)

  const RecommendMusic := "/api/v1/ai/recommend-music"
  const RemovePerson := "/api/v1/ai/remove-person"
  const SceneBlend := "/api/v1/ai/scene-blend"

  /** The image types generated for every upload, in request order. */
  const GeneratedTypes: seq<MediaOrigin> := [AI_RP, AI_SUNSET, AI_DAWN, AI_AFTERNOON, AI_NIGHT]

  /**
   * `aiType.name().replace("AI_", "")` for the generated types: the name
   * without its leading "AI_" (the names hold no other "AI_").
   */
  function TypeName(o: MediaOrigin): (t: string)
    requires o in GeneratedTypes
    ensures OriginName(o) == "AI_" + t
    ensures '.' !in t && '_' !in t && t != ""
  {
    match o
    case AI_RP => "RP"
    case AI_SUNSET => "SUNSET"
    case AI_DAWN => "DAWN"
    case AI_AFTERNOON => "AFTERNOON"
    case AI_NIGHT => "NIGHT"
  }

  /** ASCII `toLowerCase` of one character. */
  function Lower(c: char): char
  {
    if 'A' <= c <= 'Z' then (c as int + 32) as char else c
  }

  /** `toLowerCase` of the type name: the scene a blend request asks for. */
  function SceneType(o: MediaOrigin): (scene: string)
    requires o in GeneratedTypes && o != AI_RP
    ensures scene in {"sunset", "dawn", "afternoon", "night"}
  {
    match o
    case AI_SUNSET => "sunset"
    case AI_DAWN => "dawn"
    case AI_AFTERNOON => "afternoon"
    case AI_NIGHT => "night"
  }

  /** The scene is the type name lower-cased, character by character. */
  lemma SceneTypeLowersName(o: MediaOrigin)
    requires o in GeneratedTypes && o != AI_RP
    ensures |SceneType(o)| == |TypeName(o)|
    ensures forall i :: 0 <= i < |SceneType(o)| ==> SceneType(o)[i] == Lower(TypeName(o)[i])
  {
  }

  /** Scenes are made of lower-case ASCII letters only. */
  lemma SceneTypeLetters(o: MediaOrigin)
    requires o in GeneratedTypes && o != AI_RP
    ensures SceneType(o) != ""
    ensures forall i :: 0 <= i < |SceneType(o)| ==> 'a' <= SceneType(o)[i] <= 'z'
  {
  }

  /** The key the rendition of type `o` is to be stored under. */
  function TargetKey(fileUrl: string, o: MediaOrigin): Option<string>
    requires o in GeneratedTypes
  {
    AddSuffixBeforeExtension(Some(fileUrl), Marker + TypeName(o))
  }

  /** The `switch` body for one type: the person-removal or scene-blend request. */
  function CallFor(o: MediaOrigin, mediaId: int, fileUrl: string, downloadUrl: string): (c: Call)
    requires o in GeneratedTypes
    ensures c.request == AIRequest(mediaId, downloadUrl, TargetKey(fileUrl, o), c.request.sceneType)
    ensures o == AI_RP ==> c.endpoint == RemovePerson && c.request.sceneType.None?
    ensures o != AI_RP ==> c.endpoint == SceneBlend && c.request.sceneType == Some(SceneType(o))
  {
    var key := TargetKey(fileUrl, o);
    if o == AI_RP then Call(RemovePerson, AIRequest(mediaId, downloadUrl, key, None))
    else Call(SceneBlend, AIRequest(mediaId, downloadUrl, key, Some(SceneType(o))))
  }

  /** The `forEach` over the types: one call per type, in list order. */
  function ImageCalls(types: seq<MediaOrigin>, mediaId: int, fileUrl: string, downloadUrl: string): (calls: seq<Call>)
    requires forall i :: 0 <= i < |types| ==> types[i] in GeneratedTypes
    ensures |calls| == |types|
    ensures forall i :: 0 <= i < |types| ==> calls[i] == CallFor(types[i], mediaId, fileUrl, downloadUrl)
  {
    if |types| == 0 then []
    else [CallFor(types[0], mediaId, fileUrl, downloadUrl)] + ImageCalls(types[1..], mediaId, fileUrl, downloadUrl)
  }

  /**
   * `requestAIGeneration`: the music request (carrying the device id where
   * the key would go, and "MUSIC" as scene), then the five image requests.
   */
  function GenerationCalls(mediaId: int, fileUrl: string, downloadUrl: string, deviceId: int): (calls: seq<Call>)
  {
    [Call(RecommendMusic, AIRequest(mediaId, downloadUrl, Some(IntToString(deviceId)), Some("MUSIC")))]
    + ImageCalls(GeneratedTypes, mediaId, fileUrl, downloadUrl)
  }

  /**
   * Exactly six requests: music first, then person removal, then the four
   * scene blends in the order sunset, dawn, afternoon, night, every image
   * request targeting the upload's key with "_AI_<type>" before its extension.
   */
  lemma GenerationCallsShape(mediaId: int, fileUrl: string, downloadUrl: string, deviceId: int)
    ensures
      var calls := GenerationCalls(mediaId, fileUrl, downloadUrl, deviceId);
      |calls| == 6 &&
      calls[0].endpoint == RecommendMusic && calls[0].request.sceneType == Some("MUSIC") &&
      calls[1].endpoint == RemovePerson && calls[1].request.sceneType.None? &&
      (forall i :: 2 <= i < 6 ==> calls[i].endpoint == SceneBlend) &&
      [calls[2].request.sceneType, calls[3].request.sceneType, calls[4].request.sceneType, calls[5].request.sceneType]
        == [Some("sunset"), Some("dawn"), Some("afternoon"), Some("night")] &&
      (forall i :: 1 <= i < 6 ==>
        calls[i].request.targetAIS3Key == AddSuffixBeforeExtension(Some(fileUrl), Marker + TypeName(GeneratedTypes[i - 1])))
  {
    var calls := GenerationCalls(mediaId, fileUrl, downloadUrl, deviceId);
    forall i | 1 <= i < 6 ensures calls[i] == CallFor(GeneratedTypes[i - 1], mediaId, fileUrl, downloadUrl) {
    }
  }

  /**
   * Every generated key reads back, through the callback's type extraction
   * and `MediaOrigin.valueOf("AI_" + type)`, as the type it was made for,
   * provided the upload's key is non-empty and its extension has no '_'.
   */
  lemma GeneratedKeyDecodes(fileUrl: string, o: MediaOrigin)
    requires o in GeneratedTypes
    requires fileUrl != "" && '_' !in fileUrl[ExtensionStart(fileUrl)..]
    ensures
      var t := ExtractAITypeFromKey(TargetKey(fileUrl, o));
      t == Some(TypeName(o)) && OriginValueOf("AI_" + t.value) == Some(o)
  {
    SuffixThenExtract(fileUrl, TypeName(o));
    OriginValueOfName(o);
  }
}
