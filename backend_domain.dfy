/*
 * Shared vocabulary of the backend: the error codes a request can fail
 * with, each with its HTTP status, and the origins a media item can have.
 */
module BackendDomain {
  import opened Common

  /** The backend's error codes. */
  datatype ErrorCode =
    | INVALID_INPUT_VALUE | INVALID_MEDIA_TYPE
    | INVALID_TOKEN | EXPIRED_TOKEN
    | ACCESS_DENIED | FORBIDDEN_DEVICE_ACCESS
    | USER_NOT_FOUND | DEVICE_NOT_FOUND | IMAGE_NOT_FOUND | MUSIC_NOT_FOUND | ALARM_NOT_FOUND
    | DEVICE_ALREADY_EXISTS
    | MEDIA_UPLOAD_FAILED | MQTT_PUBLISH_FAILED | INTERNAL_SERVER_ERROR

  /** The HTTP status each code is answered with. */
  function Status(e: ErrorCode): (status: int)
    ensures status in {400, 401, 403, 404, 409, 500}
  {
    match e
    case INVALID_INPUT_VALUE | INVALID_MEDIA_TYPE => 400
    case INVALID_TOKEN | EXPIRED_TOKEN => 401
    case ACCESS_DENIED | FORBIDDEN_DEVICE_ACCESS => 403
    case USER_NOT_FOUND | DEVICE_NOT_FOUND | IMAGE_NOT_FOUND | MUSIC_NOT_FOUND | ALARM_NOT_FOUND => 404
    case DEVICE_ALREADY_EXISTS => 409
    case MEDIA_UPLOAD_FAILED | MQTT_PUBLISH_FAILED | INTERNAL_SERVER_ERROR => 500
  }

  /** Where a media item comes from: an upload, or one of the AI renditions of an upload. */
  datatype MediaOrigin =
    | ORIGINAL
    | AI_RP | AI_SUNSET | AI_DAWN | AI_AFTERNOON | AI_NIGHT
    | AI_RP_SUNSET | AI_RP_DAWN | AI_RP_AFTERNOON | AI_RP_NIGHT

  /** `MediaOrigin::name`. */
  function OriginName(o: MediaOrigin): string
  {
    match o
    case ORIGINAL => "ORIGINAL"
    case AI_RP => "AI_RP"
    case AI_SUNSET => "AI_SUNSET"
    case AI_DAWN => "AI_DAWN"
    case AI_AFTERNOON => "AI_AFTERNOON"
    case AI_NIGHT => "AI_NIGHT"
    case AI_RP_SUNSET => "AI_RP_SUNSET"
    case AI_RP_DAWN => "AI_RP_DAWN"
    case AI_RP_AFTERNOON => "AI_RP_AFTERNOON"
    case AI_RP_NIGHT => "AI_RP_NIGHT"
  }

  /** No two origins share a name. */
  lemma OriginNameInjective(o: MediaOrigin, p: MediaOrigin)
    requires OriginName(o) == OriginName(p)
    ensures o == p
  {
    var n, m := OriginName(o), OriginName(p);
    assert |n| == |m|;
    if |n| >= 4 { assert n[3] == m[3]; }
    if |n| >= 7 { assert n[6] == m[6]; }
  }

  /** `MediaOrigin.valueOf`: the origin with exactly that name, or none (Java throws). */
  function OriginValueOf(s: string): (r: Option<MediaOrigin>)
    ensures r.Some? ==> OriginName(r.value) == s
    ensures r.None? ==> forall o :: OriginName(o) != s
  {
    if exists o :: OriginName(o) == s then
      var o :| OriginName(o) == s;
      Some(o)
    else None
  }

  /** Looking an origin's own name up finds that origin. */
  lemma OriginValueOfName(o: MediaOrigin)
    ensures OriginValueOf(OriginName(o)) == Some(o)
  {
    OriginNameInjective(OriginValueOf(OriginName(o)).value, o);
  }
}
