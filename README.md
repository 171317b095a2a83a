# Smart window: a Dafny model

A smart window is a pane of glass with a switchable PDLC privacy film. It
has a motorised sliding sash and a wall-mounted display, and it is driven
from three places:

- **The device application** (Qt, on the display). Widgets (clock, Spotify
  player, sensors) are registered and shown. It routes between screens and
  reports the current mode over MQTT. It switches the film through two
  relays and moves the sash over Bluetooth LE. It reads the CO2, dust and
  temperature/humidity sensors, fires alarms kept in sync with the
  backend, and merges its JSON configuration over built-in defaults. Two
  Python helper processes sit beside it: one names hand gestures from
  MediaPipe finger flags, and one turns a YouTube link into an audio
  stream URL over a line-based JSON protocol.
- **The backend** (Spring). It stores media, and asks an AI server for
  renditions of each uploaded image. The keys of those renditions carry
  `_AI_<TYPE>` before the extension, and the callback decodes them back to
  a media origin. It keeps repeat days as one text column, and speaks MQTT
  on `/devices/<id>/<kind>/<type>` topics. It authenticates by bearer JWT
  (section 2.1 of RFC 6750), by the AI server's shared secret, or by social
  login.
- **The AI test server** (Python). Its request guards, scene prompts and
  upload pipeline are modelled here.
- **The phone application** (React Native). It drives the sash over
  Bluetooth LE with a base64-encoded command frame (section 4 of
  RFC 4648). It edits alarms and their repeat days, keeps the
  authentication tokens, and updates a device's music optimistically,
  rolling back on failure.

Each core source file is one Dafny module, in a file of the same name.
`common.dfy` holds the shared vocabulary: `Option`, the JSON/QVariant
value tree, bytes, and the string routines of the source languages.
`backend_domain.dfy` holds the backend's error codes and media origins.
`servlet.dfy` holds the part of a servlet exchange that the two security
filters see.

Code that changes state step by step is a `class` with `modifies`
clauses. Emitted signals, sent requests and published messages are logs
appended to. Pure logic is made of functions and lemmas. Loops stay
loops, with their invariants. The following are parameters rather than
effects:

- whatever comes from outside: the clock, a file's contents, a
  Bluetooth, HTTP or extractor outcome, a token check;
- whatever the source only calls: a serialiser or a gateway.

Semantics of the source languages are written out where they matter:

- Java `String.split` drops trailing empty strings;
- JavaScript `Math.round` rounds halves up;
- a JavaScript `Buffer` keeps a number's low eight bits;
- Python truthiness is explicit;
- Java `null` is `None`.

## Model

| member | source | states |
|---|---|---|
| Common.Trimmed | qt/src/core/AlarmManager.cpp:49 | the trimmed text is no longer than the original, starts and ends with a non-space, and is the original when that already does |
| Common.StringToLongLong | qt/src/core/AlarmManager.cpp:49-50 | the number read from text always fits in 64 bits; a non-zero result is the signed decimal value of the trimmed text, and every such value within 64 bits is what is read |
| Common.DecimalRoundTrip | qt/src/core/AlarmManager.cpp:49-50 | a 64-bit integer written in decimal reads back as itself |
| Common.TextConversionsRoundTrip | qt/src/core/AlarmManager.cpp:49-53 | a 64-bit number or a flag converted to text converts back to itself |
| Common.ToReal | qt/src/core/SensorBus.cpp:15-24 | a number reads as itself and a flag as 1 or 0; text reads as its signed decimal value when it is one, and as 0 otherwise |
| Common.IntegerTextAsReal | qt/src/core/SensorBus.cpp:15-24 | text holding a whole decimal number reads as the same real number the integer reading gives |
| Common.RealFromNumberText | qt/src/core/SensorBus.cpp:15-24 | a 64-bit number written as text reads as the same real number as the number itself |
| FileNameUtils.ExtensionStart | backend/src/main/java/com/lumiscape/smartwindow/global/util/FileNameUtils.java:10 | the extension starts at the last '.', or at the end when there is none |
| FileNameUtils.AddSuffixBeforeExtension | backend/src/main/java/com/lumiscape/smartwindow/global/util/FileNameUtils.java:5-18 | a null or empty name is returned unchanged; otherwise the result is the part before the last '.', the suffix, then the extension, and just name + suffix when there is no '.' |
| FileNameUtils.ExtractAITypeFromKey | backend/src/main/java/com/lumiscape/smartwindow/global/util/FileNameUtils.java:20-39 | null for a null or empty key or one without "_AI_"; otherwise the text after the last "_AI_", up to the last '.' when that dot comes after it, so no '.' follows the cut and a type running to the end holds no '.' |
| FileNameUtils.ExtractedHasNoMarker | backend/src/main/java/com/lumiscape/smartwindow/global/util/FileNameUtils.java:26 | the extracted text never contains "_AI_", because extraction starts after the last one |
| FileNameUtils.MarkerIsLast | backend/src/main/java/com/lumiscape/smartwindow/global/util/FileNameUtils.java:26 | in a key marked before an extension without '_', the inserted "_AI_" is the last one |
| FileNameUtils.MarkedDot | backend/src/main/java/com/lumiscape/smartwindow/global/util/FileNameUtils.java:31 | in a marked key the last '.' is the extension's dot, shifted by the marker and type; with no dot there is still none |
| FileNameUtils.SuffixThenExtract | backend/src/main/java/com/lumiscape/smartwindow/global/util/FileNameUtils.java:5-39 | round trip: adding "_AI_"+T before the extension and extracting gives T back, when T has no '.' or '_' and the extension has no '_' |
| AIService.TypeName | backend/src/main/java/com/lumiscape/smartwindow/media/service/AIService.java:47 | the type name is the enum name with its leading "AI_" removed; it is non-empty and holds no '.' or '_' |
| AIService.SceneType | backend/src/main/java/com/lumiscape/smartwindow/media/service/AIService.java:63 | a blend request's scene is one of "sunset", "dawn", "afternoon", "night" |
| AIService.SceneTypeLowersName | backend/src/main/java/com/lumiscape/smartwindow/media/service/AIService.java:63 | the scene is the type name lower-cased character by character |
| AIService.SceneTypeLetters | backend/src/main/java/com/lumiscape/smartwindow/media/service/AIService.java:63 | every scene is a non-empty run of lower-case ASCII letters |
| AIService.CallFor | backend/src/main/java/com/lumiscape/smartwindow/media/service/AIService.java:52-65 | AI_RP posts to the remove-person endpoint with no scene; the other types post to scene-blend with their scene; both target the upload's key with the type's suffix |
| AIService.ImageCalls | backend/src/main/java/com/lumiscape/smartwindow/media/service/AIService.java:46-73 | one request per type, in list order |
| AIService.GenerationCallsShape | backend/src/main/java/com/lumiscape/smartwindow/media/service/AIService.java:31-74 | exactly six requests: music ("MUSIC" scene) first, then person removal, then blends for sunset, dawn, afternoon and night; every image request targets the key with "_AI_<type>" before the extension |
| AIService.GeneratedKeyDecodes | backend/src/main/java/com/lumiscape/smartwindow/media/service/AIService.java:46-48 | each generated key reads back through extractAITypeFromKey and MediaOrigin.valueOf as the type it was made for, when the upload's extension has no '_' |
| BackendDomain.OriginNameInjective | backend/src/main/java/com/lumiscape/smartwindow/media/domain/MediaOrigin.java:3-14 | no two media origins share a name |
| BackendDomain.OriginValueOf | backend/src/main/java/com/lumiscape/smartwindow/media/domain/MediaOrigin.java:3-14 | `valueOf` finds the origin with exactly that name, and none when no origin has it (Java throws) |
| BackendDomain.OriginValueOfName | backend/src/main/java/com/lumiscape/smartwindow/media/domain/MediaOrigin.java:3-14 | looking up an origin's own name finds that origin |
| MediaService.WhitespaceToUnderscore | backend/src/main/java/com/lumiscape/smartwindow/media/service/MediaService.java:196 | every whitespace character becomes '_' and every other character is kept, so the result has no whitespace |
| MediaService.CreateS3ObjectKey | backend/src/main/java/com/lumiscape/smartwindow/media/service/MediaService.java:193-197 | the key is "media/" + uuid + "_" followed by the file name with its whitespace replaced |
| MediaService.KeyKeepsPlainName | backend/src/main/java/com/lumiscape/smartwindow/media/service/MediaService.java:193-197 | a name without whitespace appears unchanged after the prefix |
| MediaService.Replacement | backend/src/main/java/com/lumiscape/smartwindow/media/service/MediaService.java:123-124 | devices showing a deleted item switch to its parent exactly when it is not ORIGINAL and has a parent; otherwise to nothing |
| MediaService.FindMediaByUser | backend/src/main/java/com/lumiscape/smartwindow/media/service/MediaService.java:182-185 | succeeds exactly when the row exists and the user owns it, returning that row; otherwise IMAGE_NOT_FOUND |
| MediaService.CallbackMedia | backend/src/main/java/com/lumiscape/smartwindow/media/service/MediaService.java:146-177 | a rendition is saved exactly when the key's type is non-empty and "AI_"+type names an origin; it belongs to the parent's owner, is named with "(type)" before the extension, keeps the key and points at the parent |
| MediaService.CallbackNameKeepsExtension | backend/src/main/java/com/lumiscape/smartwindow/media/service/MediaService.java:164 | the rendition's name is the parent's name with "(type)" inserted before its extension |
| MediaService.MediaStore.RegisterMedia | backend/src/main/java/com/lumiscape/smartwindow/media/service/MediaService.java:75-100 | an existing key fails with INTERNAL_SERVER_ERROR and changes nothing; otherwise an ORIGINAL row is saved under the new id and AI generation is requested for it |
| MediaService.MediaStore.HandleAICallback | backend/src/main/java/com/lumiscape/smartwindow/media/service/MediaService.java:145-180 | an unknown parent fails with IMAGE_NOT_FOUND; otherwise the rendition described by CallbackMedia is saved, or nothing when the type is missing or unknown |
| MediaService.MediaStore.DeleteMedia | backend/src/main/java/com/lumiscape/smartwindow/media/service/MediaService.java:117-143 | media the user does not own fails with IMAGE_NOT_FOUND and changes nothing; otherwise every device showing it is repointed to the replacement and notified, an ORIGINAL's children are deleted with their objects, and the item and its object are deleted |
| MediaService.MediaStore.RepointDevices | backend/src/main/java/com/lumiscape/smartwindow/media/service/MediaService.java:126-130 | each device showing the item gets the replacement and is published once; other devices are unchanged |
| MediaService.MediaStore.DeleteChildren | backend/src/main/java/com/lumiscape/smartwindow/media/service/MediaService.java:132-139 | every child of the item is deleted once and its object key deleted, in the order the children were visited |
| DayOfWeekConverter.Name | backend/src/main/java/com/lumiscape/smartwindow/alarm/domain/DayOfWeekConverter.java:24 | every day's name is a non-empty run of capital letters |
| DayOfWeekConverter.NameInjective | backend/src/main/java/com/lumiscape/smartwindow/alarm/domain/DayOfWeekConverter.java:24 | no two days share a name |
| DayOfWeekConverter.ValueOf | backend/src/main/java/com/lumiscape/smartwindow/alarm/domain/DayOfWeekConverter.java:36 | a name found is the name of the day returned; a name not found belongs to no day |
| DayOfWeekConverter.ValueOfName | backend/src/main/java/com/lumiscape/smartwindow/alarm/domain/DayOfWeekConverter.java:36 | looking up a day's own name finds that day |
| DayOfWeekConverter.NamesInOrderSorted | backend/src/main/java/com/lumiscape/smartwindow/alarm/domain/DayOfWeekConverter.java:23-25 | picking days out of a list sorted by name yields names in strictly ascending order |
| DayOfWeekConverter.NamesInOrderMembers | backend/src/main/java/com/lumiscape/smartwindow/alarm/domain/DayOfWeekConverter.java:23-25 | a day's name is picked exactly when the day is in the set and in the list |
| DayOfWeekConverter.ToColumn | backend/src/main/java/com/lumiscape/smartwindow/alarm/domain/DayOfWeekConverter.java:18-27 | a null or empty set is stored as null |
| DayOfWeekConverter.ToColumnSortedNames | backend/src/main/java/com/lumiscape/smartwindow/alarm/domain/DayOfWeekConverter.java:18-27 | a non-empty set is stored as the ","-join of a strictly ascending list of capital-letter names holding exactly the names of its days |
| DayOfWeekConverter.ValuesOf | backend/src/main/java/com/lumiscape/smartwindow/alarm/domain/DayOfWeekConverter.java:35-37 | reading stops at an unknown name only when that piece is in the list and names no day |
| DayOfWeekConverter.FromColumn | backend/src/main/java/com/lumiscape/smartwindow/alarm/domain/DayOfWeekConverter.java:30-38 | a null or blank column reads as the empty set |
| DayOfWeekConverter.PaddedColumnRejected | backend/src/main/java/com/lumiscape/smartwindow/alarm/domain/DayOfWeekConverter.java:35-36 | a column written with ", " between names fails on the space-prefixed second name |
| DayOfWeekConverter.SplitJoinedWords | backend/src/main/java/com/lumiscape/smartwindow/alarm/domain/DayOfWeekConverter.java:35 | Java-splitting a ","-join of capital-letter words gives the words back, and the join is not blank |
| DayOfWeekConverter.ValuesOfNamesInOrder | backend/src/main/java/com/lumiscape/smartwindow/alarm/domain/DayOfWeekConverter.java:35-37 | reading back the names picked from a list succeeds with exactly the days of the set that the list holds |
| DayOfWeekConverter.ToColumnThenFromColumn | backend/src/main/java/com/lumiscape/smartwindow/alarm/domain/DayOfWeekConverter.java:17-38 | whatever set is stored, reading the column back gives that same set |
| MqttPublishService.CommandTopic | backend/src/main/java/com/lumiscape/smartwindow/global/infra/MqttPublishService.java:34 | the topic is "/devices/<id>/command/" followed by the command, with nothing else |
| MqttPublishService.CommandTopicParts | backend/src/main/java/com/lumiscape/smartwindow/global/infra/MqttPublishService.java:34 | for an id and a non-empty command without '/', the topic splits into "", "devices", the id, "command" and the command, and the backend's own topic check reads back the id and the command |
| MqttPublishService.PublishCommand | backend/src/main/java/com/lumiscape/smartwindow/global/infra/MqttPublishService.java:21-45 | a message is published exactly when the payload serialises and the gateway delivers, on the command topic with the serialised payload; a serialisation failure throws INTERNAL_SERVER_ERROR and a delivery failure MQTT_PUBLISH_FAILED |
| MqttPublishService.PublishFailuresAre500 | backend/src/main/java/com/lumiscape/smartwindow/global/infra/MqttPublishService.java:21-45 | either failure reaches the client as HTTP 500, and the code tells which of the two it was |
| MqttSubscribeService.ParseTopic | backend/src/main/java/com/lumiscape/smartwindow/global/infra/MqttSubscribeService.java:28-36 | a topic is accepted exactly when its Java split has five parts with the kind at index 3; the device id and the type are then parts 2 and 4 |
| MqttSubscribeService.FiveParts | backend/src/main/java/com/lumiscape/smartwindow/global/infra/MqttSubscribeService.java:28 | five '/'-free parts joined by '/' split back into those parts when the last is non-empty |
| MqttSubscribeService.ParseBuiltTopic | backend/src/main/java/com/lumiscape/smartwindow/global/infra/MqttSubscribeService.java:28-36 | any topic A/B/ID/KIND/T parses to (ID, T) for its own kind and is rejected for every other kind; the first two parts are never checked |
| MqttSubscribeService.TrailingSlashRejected | backend/src/main/java/com/lumiscape/smartwindow/global/infra/MqttSubscribeService.java:28-29 | a topic ending in '/' after the kind loses its trailing empty part, has four parts, and is rejected |
| MqttSubscribeService.HandleStatusMessage | backend/src/main/java/com/lumiscape/smartwindow/global/infra/MqttSubscribeService.java:23-45 | a malformed topic is only warned about; otherwise the device's status is updated from the topic's id and type and the payload, and a failure of that update is logged after it |
| MqttSubscribeService.HandleRequestMessage | backend/src/main/java/com/lumiscape/smartwindow/global/infra/MqttSubscribeService.java:47-72 | a malformed topic is only warned about; a well-formed "alarms" request publishes the named device's alarm list (a failure logged after it); any other request type is warned about |
| MqttSubscribeService.RequestPublishesOnlyNamedDevice | backend/src/main/java/com/lumiscape/smartwindow/global/infra/MqttSubscribeService.java:47-72 | a request message publishes an alarm list only for the device named in its own topic, and only for the type "alarms" |
| MqttSubscribeService.DeviceAlarmRequestHandled | backend/src/main/java/com/lumiscape/smartwindow/global/infra/MqttSubscribeService.java:47-72 | the alarm request the device sends for an id without '/' is answered with exactly that device's alarm list |
| MqttSubscribeService.RequestTopicParts | backend/src/main/java/com/lumiscape/smartwindow/global/infra/MqttSubscribeService.java:52 | the device's alarm-request topic is the five parts "", "devices", the id, "request" and "alarms" joined by '/' |
| Servlet.Exchange.Header | backend/src/main/java/com/lumiscape/smartwindow/config/jwt/JwtAuthenticationFilter.java:62 | a header is present exactly when the request carries it, with the request's value |
| Servlet.ErrorResponse | backend/src/main/java/com/lumiscape/smartwindow/config/jwt/JwtAuthenticationFilter.java:71-79 | the error written carries the code's HTTP status and the code itself |
| JwtAuthenticationFilter.ResolveToken | backend/src/main/java/com/lumiscape/smartwindow/config/jwt/JwtAuthenticationFilter.java:61-69 | a token is found exactly when the header has text and starts with "Bearer ", and the header is then that prefix followed by the token |
| JwtAuthenticationFilter.ResolveBearer | backend/src/main/java/com/lumiscape/smartwindow/config/jwt/JwtAuthenticationFilter.java:61-69 | "Bearer " followed by any token resolves to that token |
| JwtAuthenticationFilter.OtherSchemesIgnored | backend/src/main/java/com/lumiscape/smartwindow/config/jwt/JwtAuthenticationFilter.java:64 | a header without the exact, case-sensitive prefix yields no token |
| JwtAuthenticationFilter.DoFilterInternal | backend/src/main/java/com/lumiscape/smartwindow/config/jwt/JwtAuthenticationFilter.java:33-59 | the request is passed on exactly when no error is written; without a token with text it passes on with the context untouched; an accepted token puts its authentication in the context; a CustomException clears the context and writes its code; any other exception writes INTERNAL_SERVER_ERROR |
| AITokenAuthFilter.AdmitsExactlyTheSecret | backend/src/main/java/com/lumiscape/smartwindow/config/ai/AITokenAuthFilter.java:36-38 | a token is admitted exactly when it equals the configured secret and the secret has text, so a blank secret or a missing header admits nobody |
| AITokenAuthFilter.DoFilterInternal | backend/src/main/java/com/lumiscape/smartwindow/config/ai/AITokenAuthFilter.java:32-47 | an admitted token puts the ai-server principal with the single authority ROLE_AI_SERVER in the context, any other leaves the context as it was; the request is always passed on and no error is written |
| OAuth2SuccessHandler.Cast | backend/src/main/java/com/lumiscape/smartwindow/config/security/OAuth2SuccessHandler.java:101 | a null reads as absent, a string as that text, and any other value as a failed String cast |
| OAuth2SuccessHandler.Nested | backend/src/main/java/com/lumiscape/smartwindow/config/security/OAuth2SuccessHandler.java:97-101 | a field of a nested object is read only when the outer value is a map; otherwise the lookup is absent |
| OAuth2SuccessHandler.ToUpper | backend/src/main/java/com/lumiscape/smartwindow/config/security/OAuth2SuccessHandler.java:44 | the upper-cased id has the same length, each lower-case ASCII letter shifted to its capital and nothing else changed, so no lower-case letter remains |
| OAuth2SuccessHandler.ToUpperIdempotent | backend/src/main/java/com/lumiscape/smartwindow/config/security/OAuth2SuccessHandler.java:44 | upper-casing twice is upper-casing once |
| OAuth2SuccessHandler.RegistrationIdsMatch | backend/src/main/java/com/lumiscape/smartwindow/config/security/OAuth2SuccessHandler.java:44-45 | the registration ids kakao, google and naver upper-case to the provider names the handler compares against |
| OAuth2SuccessHandler.ExtractEmail | backend/src/main/java/com/lumiscape/smartwindow/config/security/OAuth2SuccessHandler.java:95-114 | any provider other than KAKAO, GOOGLE and NAVER gives no e-mail |
| OAuth2SuccessHandler.EmailPerProvider | backend/src/main/java/com/lumiscape/smartwindow/config/security/OAuth2SuccessHandler.java:95-114 | GOOGLE reads a top-level email, KAKAO the email of kakao_account and NAVER the email of response; a nested value that is not a map, or a missing email, gives none |
| OAuth2SuccessHandler.EmailIgnoresOtherPlaces | backend/src/main/java/com/lumiscape/smartwindow/config/security/OAuth2SuccessHandler.java:95-114 | KAKAO and NAVER ignore a top-level email, and GOOGLE ignores the nested kakao_account and response values |
| OAuth2SuccessHandler.ExtractNickname | backend/src/main/java/com/lumiscape/smartwindow/config/security/OAuth2SuccessHandler.java:117-138 | a nickname is always produced; another provider gets the fallback "User" + the clock, and only a known provider can hit a non-string value |
| OAuth2SuccessHandler.NicknamePerProvider | backend/src/main/java/com/lumiscape/smartwindow/config/security/OAuth2SuccessHandler.java:117-138 | each provider reads its own place (properties.nickname, name, response.nickname); a missing value gives the fallback and a non-string value fails the cast |
| OAuth2SuccessHandler.SuccessRedirect | backend/src/main/java/com/lumiscape/smartwindow/config/security/OAuth2SuccessHandler.java:83 | the redirect is /auth/success?token= followed by exactly the issued token |
| OAuth2SuccessHandler.Accounts.OnAuthenticationSuccess | backend/src/main/java/com/lumiscape/smartwindow/config/security/OAuth2SuccessHandler.java:34-92 | an unknown provider or a failed cast redirects to handler_exception and a missing e-mail to email_not_found, with nothing stored; otherwise the user with that e-mail is found or created with the extracted nickname, the social account is linked to that user unless already present, and the redirect carries a token issued for that user's id |
| AiTestUtils.GetScenePrompt | ai-test/utils.py:220-229 | a known scene gets its own prompt; any other scene gets the night prompt |
| AiTestUtils.ScenePromptsDistinct | ai-test/utils.py:221-226 | the four scenes have four different prompts |
| AiTestUtils.BackendScenesHavePrompts | ai-test/utils.py:227 | every scene the backend sends has its own prompt and never falls back to night |
| AiTestUtils.Strip | ai-test/utils.py:364 | `strip()` gives "" exactly for blank text; otherwise the result neither starts nor ends with whitespace |
| AiTestUtils.NormalizeScene | ai-test/utils.py:364 | a falsy sceneType becomes "night"; a string is lower-cased and stripped; any other truthy value has no `lower`, so the handler fails |
| AiTestUtils.BlankSceneIsEmpty | ai-test/utils.py:364-366 | a whitespace-only scene normalises to "", which the guard then refuses |
| AiTestUtils.UploadUrlData | ai-test/utils.py:176-189 | the upload-URL answer yields its "data" exactly when "status" is 200 and "data" is present; otherwise it raises |
| AiTestUtils.Finish | ai-test/utils.py:378-392 | the steps after the image is ready start with the upload-URL request, and at most the upload and the callback follow |
| AiTestUtils.RemovePerson | ai-test/utils.py:317-323 | the request is refused with no step taken exactly when mediaId, downloadUrl or targetAIS3Key is falsy |
| AiTestUtils.SceneBlend | ai-test/utils.py:359-366 | the handler fails when the scene cannot be normalised; otherwise it is refused with no step taken exactly when a field is falsy or the scene is empty |
| AiTestUtils.UploadOnlyForTargetKey | ai-test/utils.py:380-388 | nothing is uploaded unless the upload-URL answer names the target key and carries a truthy file URL, which is the one uploaded to |
| AiTestUtils.CompletedUploadsThenCallsBack | ai-test/utils.py:388-392 | a completed handler's last two steps are the upload to the reported URL and the callback with the target key, and it reports the target key |
| AiTestUtils.MissingSceneIsNight | ai-test/utils.py:364-372 | a request without sceneType uses the night prompt right after the download |
| AiTestUtils.SceneRequestChoosesPrompt | ai-test/utils.py:364-372 | a complete request with a normalised non-empty scene passes the guard and uses that scene's prompt |
| AiTestUtils.TargetKeyNotEmpty | ai-test/utils.py:322 | the key the backend sends for a non-empty upload key is a non-empty string, so it passes the handler's guard |
| AiTestUtils.SceneNormalisesToItself | ai-test/utils.py:364 | the scenes the backend sends are already lower-case and stripped, so normalising keeps them |
| AiTestUtils.GuardsInPlainTerms | ai-test/utils.py:401 | the DALL-E guard accepts exactly a non-empty string prompt; the music guard needs a present downloadUrl |
| AlarmManager.FormatTime | qt/src/core/AlarmManager.cpp:19 | an invalid time prints as the empty string, a valid one as eight characters HH:mm:ss with colons at positions 2 and 5 |
| AlarmManager.ParseTime | qt/src/core/AlarmManager.cpp:52 | any text accepted as a valid time is exactly the HH:mm:ss form of that time |
| AlarmManager.TimeRoundTrip | qt/src/core/AlarmManager.cpp:52 | parsing the HH:mm:ss text of a time gives that time back, invalid times included |
| AlarmManager.DaysInMonth | qt/src/core/AlarmManager.cpp:58 | every month has 28 to 31 days, and 29 exactly for February of a Gregorian leap year |
| AlarmManager.FormatDate | qt/src/core/AlarmManager.cpp:41 | a date prints as ten characters yyyy-MM-dd |
| AlarmManager.FormatIso | qt/src/core/AlarmManager.cpp:41 | a timestamp prints as its date, "T" and its HH:mm:ss time, nineteen characters, without milliseconds |
| AlarmManager.ParseDate | qt/src/core/AlarmManager.cpp:58 | a text accepted as a date is exactly the yyyy-MM-dd form of that date, read at midnight |
| AlarmManager.DateRoundTrip | qt/src/core/AlarmManager.cpp:41-58 | every existing date printed as yyyy-MM-dd reads back as itself |
| AlarmManager.ParseIso | qt/src/core/AlarmManager.cpp:58 | an accepted text is a date alone (midnight), a date and time, or one with three fraction digits; its first nineteen characters, or the date plus "T00:00:00", are the ISO form of the result, and milliseconds come only from the fraction |
| AlarmManager.IsoRoundTrip | qt/src/core/AlarmManager.cpp:41-58 | a timestamp written in ISO form reads back as itself with its milliseconds set to zero |
| AlarmManager.CreatedAtText | qt/src/core/AlarmManager.cpp:41 | the written creation time is empty exactly when it is invalid |
| AlarmManager.ParseCreatedAt | qt/src/core/AlarmManager.cpp:55-59 | a creation time read from text keeps the text's date, and prints back as the text unless the text was a date alone or carried a fraction |
| AlarmManager.WholeSeconds | qt/src/core/AlarmManager.cpp:41-58 | dropping the milliseconds keeps a creation time set or unset, zeroes only its milliseconds and changes nothing else |
| AlarmManager.CreatedAtRewritten | qt/src/core/AlarmManager.cpp:41-59 | reading a creation time and writing it again turns rejected text into "", a date alone into its midnight, and drops any fraction of a second |
| AlarmManager.DayOfWeek | qt/src/core/AlarmManager.cpp:101 | the day of the week of a date is always in 1 (Monday) .. 7 (Sunday) |
| AlarmManager.DayName | qt/src/core/AlarmManager.cpp:428-440 | a day has a name exactly when it is in 1..7 |
| AlarmManager.ParseDay | qt/src/core/AlarmManager.cpp:416-426 | the result is 0..7; a non-zero result is the day the name belongs to, and 0 means no day 1..7 has that name |
| AlarmManager.DayCodesRoundTrip | qt/src/core/AlarmManager.cpp:416-440 | parsing the name of every day 1..7 gives that day back |
| AlarmManager.ParseDays | qt/src/core/AlarmManager.cpp:62-77 | the set read from a list of day names holds only days 1..7 |
| AlarmManager.ParseDayNamesFrom | qt/src/core/AlarmManager.cpp:22-77 | reading back the day names written for a set of days, counting from a given day, gives exactly the days of the set from that day up to Sunday |
| AlarmManager.ToVariantMap | qt/src/core/AlarmManager.cpp:13-44 | the written map has exactly the keys alarmId, deviceId, alarmName, alarmTime, repeatDays, isActive and createdAt; lastTriggered is not written |
| AlarmManager.FromVariantMap | qt/src/core/AlarmManager.cpp:46-80 | the read alarm repeats only on days 1..7, has no last-triggered date, and is inactive when the map has no isActive key |
| AlarmManager.VariantMapRoundTrip | qt/src/core/AlarmManager.cpp:13-80 | writing an alarm to a map and reading it back keeps every field, except that repeat days outside 1..7 are dropped, the creation time loses its milliseconds and the last-triggered date is cleared |
| AlarmManager.ShouldTrigger | qt/src/core/AlarmManager.cpp:82-107 | an alarm fires only when it is active, has not fired on the current date, its valid time has the current hour and minute, and it repeats on no day or on the current weekday |
| AlarmManager.ShouldTriggerIgnoresSeconds | qt/src/core/AlarmManager.cpp:93-98 | the current second never changes the decision |
| AlarmManager.ShouldTriggerWhenDue | qt/src/core/AlarmManager.cpp:82-107 | conversely, every alarm meeting those four conditions fires |
| AlarmManager.NotTwiceADay | qt/src/core/AlarmManager.cpp:88-91 | an alarm stamped with today's date does not fire again at any moment of that date |
| AlarmManager.AlarmsFromList | qt/src/core/AlarmManager.cpp:175-184 | every key of the table built from a list is a positive id naming the alarm stored under it |
| AlarmManager.AlarmsFromListComplete | qt/src/core/AlarmManager.cpp:175-184 | every list entry with a positive id has a place in the table |
| AlarmManager.AlarmsFromListSound | qt/src/core/AlarmManager.cpp:175-184 | every id in the table comes from some entry of the list |
| AlarmManager.Manager.constructor | qt/src/core/AlarmManager.cpp:113-120 | the manager starts with no alarms, no alarm showing and no signals |
| AlarmManager.Manager.ReplaceAll | qt/src/core/AlarmManager.cpp:167-184 | the loop clears the table and rebuilds it as the table of the list, changing nothing else |
| AlarmManager.Manager.LoadFromFile | qt/src/core/AlarmManager.cpp:144-188 | succeeds exactly when the file parses as a JSON array; then the table is the table of that array and alarmsChanged is emitted; otherwise nothing changes |
| AlarmManager.Manager.HandleAlarmUpsert | qt/src/core/AlarmManager.cpp:219-245 | an alarm with a positive id is stored under that id (new or replacing), the table saved and alarmUpdated and alarmsChanged emitted; any other id changes nothing |
| AlarmManager.Manager.HandleAlarmDelete | qt/src/core/AlarmManager.cpp:247-272 | a positive id present in the table is removed, the table saved and alarmDeleted and alarmsChanged emitted; a non-positive or unknown id changes nothing |
| AlarmManager.Manager.HandleAlarmList | qt/src/core/AlarmManager.cpp:274-303 | the whole table is replaced by the table of the backend's list, saved, and alarmsChanged emitted |
| AlarmManager.Manager.RequestAlarmsFromBackend | qt/src/core/AlarmManager.cpp:305-318 | a non-empty device id publishes an empty payload on /devices/<id>/request/alarms; an empty id publishes nothing; the table is untouched |
| AlarmManager.Manager.CheckAlarms | qt/src/core/AlarmManager.cpp:377-397 | when no alarm is showing and the second is 0, the due alarm with the least id fires and is stamped with today's date; when nothing fires, either an alarm was showing, the second was not 0, or no alarm was due, and nothing changes |
| AlarmManager.Manager.TriggerAlarm | qt/src/core/AlarmManager.cpp:399-414 | the alarm becomes the showing one and alarmTriggered, alarmTriggeredStateChanged and currentAlarmChanged are emitted in that order |
| AlarmManager.Manager.DismissAlarm | qt/src/core/AlarmManager.cpp:341-358 | afterwards no alarm is showing; the two change signals are emitted only when one was showing |
| AppConfig.JsonInt | qt/src/core/AppConfig.cpp:191 | a JSON number within the 32-bit range converts to itself; a number outside it, or any other value, a flag included, reads as 0 |
| AppConfig.JsonBool | qt/src/core/AppConfig.cpp:200 | only the JSON value true reads as true |
| AppConfig.JsonStr | qt/src/core/AppConfig.cpp:197 | a JSON string converts to itself; any other value, a number included, reads as "" |
| AppConfig.StrField | qt/src/core/AppConfig.cpp:196-198 | a present key overwrites the setting with its value as text; an absent key keeps the setting |
| AppConfig.IntField | qt/src/core/AppConfig.cpp:190-195 | a present key overwrites the setting with its value as a number; an absent key keeps the setting |
| AppConfig.BoolField | qt/src/core/AppConfig.cpp:199-201 | a present key overwrites the setting with its value as a flag; an absent key keeps the setting |
| AppConfig.WithDefaults | qt/src/core/AppConfig.cpp:167-185 | the display, broker and API settings return to their defaults (1920x1080, dark, gestures on, localhost:1883, the OpenWeatherMap and local Spotify URLs); the device id, TLS flag and music are untouched |
| AppConfig.DefaultsMatchDeclaration | qt/src/core/AppConfig.cpp:167-185 | the defaults written by loadDefaults are exactly the initial values the class declares |
| AppConfig.AutoMusic | qt/src/core/AppConfig.cpp:248-255 | the per-location map has exactly the keys of the "auto" object, each mapped to its value as text |
| AppConfig.MergeMusic | qt/src/core/AppConfig.cpp:239-256 | without an "auto" key the per-location map is kept; with one it is replaced by that object's entries |
| AppConfig.Merged | qt/src/core/AppConfig.cpp:187-257 | each section (mqtt, apis, backgroundMusic, deviceUniqueId) changes only when its key is present |
| AppConfig.MergeEmpty | qt/src/core/AppConfig.cpp:187-257 | an empty configuration object changes nothing |
| AppConfig.MergeIdempotent | qt/src/core/AppConfig.cpp:187-257 | applying the same configuration object twice gives the same settings as applying it once |
| AppConfig.SavedDocument | qt/src/core/AppConfig.cpp:45-78 | the saved object holds the display fields, an mqtt object without useTls, and an apis object; not the device id or the music |
| AppConfig.SaveThenParse | qt/src/core/AppConfig.cpp:45-257 | parsing what save wrote restores every saved field onto any settings, while the device id, TLS flag and music keep the values they had |
| AppConfig.Config.constructor | qt/src/core/AppConfig.cpp:8-12 | a new configuration holds the defaults, which equal the declared values, with no URLs and no signals |
| AppConfig.Config.ResetToDefaults | qt/src/core/AppConfig.cpp:94-98 | the settings become their defaults and configChanged is emitted once |
| AppConfig.Config.Load | qt/src/core/AppConfig.cpp:14-43 | succeeds exactly when the file is readable JSON whose root is an object; then that object is merged in and configChanged emitted, otherwise nothing changes |
| AppConfig.Config.Save | qt/src/core/AppConfig.cpp:45-92 | succeeds exactly when the file can be written, writing the saved object; the settings do not change |
| AppConfig.Config.ParseJson | qt/src/core/AppConfig.cpp:187-257 | the settings become their merge with the object, with no signal |
| AppConfig.Config.SetGestureEnabled | qt/src/core/AppConfig.cpp:100-106 | the flag is stored and gestureEnabledChanged emitted only when it differs |
| AppConfig.Config.SetCurrentMediaUrl | qt/src/core/AppConfig.cpp:108-115 | the URL is stored and currentMediaUrlChanged emitted only when it differs |
| AppConfig.Config.SetCurrentYoutubeUrl | qt/src/core/AppConfig.cpp:117-124 | the URL is stored and currentYoutubeUrlChanged emitted only when it differs |
| AppConfig.ParseBackgroundMusic | qt/src/core/AppConfig.cpp:239-256 | the backgroundMusic step computes the music merge of the object |
| AppConfig.ReadAutoMusic | qt/src/core/AppConfig.cpp:248-255 | the loop yields exactly the per-location map of the "auto" object |
| Router.ModeName | qt/src/core/Router.cpp:87-97 | a screen names a mode exactly when it is one of the mode screens, and the name is then a device mode |
| Router.ModeNameInjective | qt/src/core/Router.cpp:87-97 | distinct mode screens report distinct modes |
| Router.Router.constructor | qt/src/core/Router.cpp:7-10 | a new router has no screen, no parameters, no history, no client and no signals |
| Router.Router.ModeReport | qt/src/core/Router.cpp:99-127 | a mode report is published exactly when there is a client, a device id, a mode screen and a connection, and it is the mode name on the device's mode topic at QoS 1 |
| Router.Router.SetMqttClient | qt/src/core/Router.cpp:12-17 | the client and device id are stored and the navigation state is untouched |
| Router.Router.PublishModeStatus | qt/src/core/Router.cpp:99-127 | the client receives exactly the screen's mode report, if there is one |
| Router.Router.NavigateTo | qt/src/core/Router.cpp:19-44 | moving to the current screen does nothing; otherwise a non-empty current screen is pushed with its parameters (historyChanged), the new screen becomes current (screenChanged) and its mode is reported |
| Router.Router.GoBack | qt/src/core/Router.cpp:46-65 | an empty history does nothing; otherwise the top entry is popped and made current with its parameters, screenChanged, historyChanged and backPressed are emitted and its mode is reported |
| Router.Router.ClearHistory | qt/src/core/Router.cpp:67-72 | the history is emptied so going back is no longer possible, and historyChanged is emitted |
| Router.Router.Replace | qt/src/core/Router.cpp:74-85 | the screen and parameters are installed with the history untouched, screenChanged is emitted and the mode reported |
| Router.NavigateThenGoBack | qt/src/core/Router.cpp:19-65 | going to another screen and back restores the screen, its parameters and the history, when the starting screen was not empty |
| WidgetRegistry.RemoveAll | qt/src/widgets/WidgetRegistry.cpp:28-42 | every occurrence of the id goes, every other id stays, a list without it is unchanged and a list without repeats keeps none |
| WidgetRegistry.Registry.constructor | qt/src/widgets/WidgetRegistry.cpp:4-7 | a new registry has no widgets, configurations, active widgets or signals |
| WidgetRegistry.Registry.GetWidget | qt/src/widgets/WidgetRegistry.cpp:44-47 | a provider is found exactly for a registered id |
| WidgetRegistry.Registry.GetWidgetConfig | qt/src/widgets/WidgetRegistry.cpp:94-97 | an id with no stored configuration gives the empty map |
| WidgetRegistry.Registry.RegisterWidget | qt/src/widgets/WidgetRegistry.cpp:9-26 | a taken id or a null provider is refused with nothing changed; otherwise the provider is stored and widgetsChanged emitted |
| WidgetRegistry.Registry.UnregisterWidget | qt/src/widgets/WidgetRegistry.cpp:28-42 | an unknown id changes nothing; a known one loses its provider, configuration and place in the active list, with widgetsChanged and activeWidgetsChanged |
| WidgetRegistry.Registry.ActivateWidget | qt/src/widgets/WidgetRegistry.cpp:49-65 | a registered, inactive widget is appended to the active list with widgetActivated and activeWidgetsChanged; otherwise nothing happens |
| WidgetRegistry.Registry.DeactivateWidget | qt/src/widgets/WidgetRegistry.cpp:67-78 | an active widget is removed with widgetDeactivated and activeWidgetsChanged; an inactive one changes nothing; either way it ends inactive |
| WidgetRegistry.Registry.ToggleWidget | qt/src/widgets/WidgetRegistry.cpp:80-87 | an active widget is removed from the active list (every occurrence) with widgetDeactivated then activeWidgetsChanged; a registered inactive one is appended with widgetActivated then activeWidgetsChanged; an unregistered inactive one changes nothing; no other widget changes |
| WidgetRegistry.Registry.SetWidgetConfig | qt/src/widgets/WidgetRegistry.cpp:99-110 | a registered widget's configuration is stored and announced and reads back; any other is refused |
| WidgetRegistry.Registry.Clear | qt/src/widgets/WidgetRegistry.cpp:122-130 | every widget, configuration and active entry is forgotten, with widgetsChanged and activeWidgetsChanged |
| WidgetRegistry.ActivateTwice | qt/src/widgets/WidgetRegistry.cpp:49-65 | activating a widget a second time changes nothing beyond the first activation |
| SensorBus.FirstRoute | qt/src/core/SensorBus.cpp:9-34 | the route found is the first applicable one at or after the start, and none found means no route there applies |
| SensorBus.Publish | qt/src/core/SensorBus.cpp:9-34 | the generic eventReceived comes first, followed by at most one specific signal |
| SensorBus.PublishFollowsRoutes | qt/src/core/SensorBus.cpp:9-34 | a specific signal is emitted exactly when some route applies, and it is the first applicable route's signal carrying its key's value converted as that signal reads it: as a real number for light, temperature, proximity and sound, as a flag for motion, as text for the rest |
| SensorBus.TemperatureRouted | qt/src/core/SensorBus.cpp:17-18 | a temperature message with its key emits the generic event and then the value read as a real number |
| SensorBus.NumberTextConverted | qt/src/core/SensorBus.cpp:17-18 | a temperature sent as the decimal text of a number is emitted as that number |
| SensorBus.FlagConverted | qt/src/core/SensorBus.cpp:15-16 | a light level sent as a flag is emitted as 1 for true and 0 for false |
| SensorBus.NonNumberTextIsZero | qt/src/core/SensorBus.cpp:21-22 | a distance sent as text that is not a number is emitted as 0 |
| SensorBus.MissingKeyOnlyGeneric | qt/src/core/SensorBus.cpp:9-34 | a known topic without its key gets only the generic event |
| SensorBus.PublishString | qt/src/core/SensorBus.cpp:36-41 | a text message is published as {"message": text}, which no route picks up, so only the generic event is emitted |
| SensorManager.Crc8DataSheetExample | qt/src/widgets/SensorManager.cpp:176-189 | the CRC agrees with the SHTC3 data sheet's check value: the CRC of BE EF is 92 |
| SensorManager.Crc8 | qt/src/widgets/SensorManager.cpp:176-189 | the bitwise loop computes the CRC-8 (polynomial 0x31, initial 0xFF) of its input |
| SensorManager.Word | qt/src/widgets/SensorManager.cpp:67 | a word from a high and a low byte is in 0..65535 and splits back into those bytes |
| SensorManager.Co2ChecksumOf | qt/src/widgets/SensorManager.cpp:191-196 | the checksum is the byte that, added to the sum of bytes 1..7, gives 0 modulo 256 |
| SensorManager.Co2RequestChecksum | qt/src/widgets/SensorManager.cpp:59-60 | the request frame FF 01 86 00 00 00 00 00 79 carries its own checksum in its last byte |
| SensorManager.Co2Checksum | qt/src/widgets/SensorManager.cpp:191-196 | the unsigned-char loop computes exactly that checksum |
| SensorManager.Co2Reading | qt/src/widgets/SensorManager.cpp:67 | the concentration read from a reply is in 0..65535 |
| SensorManager.IndexOfByte | qt/src/widgets/SensorManager.cpp:82 | the result is the first index holding the byte, or -1 exactly when the byte is absent |
| SensorManager.DustChecksum | qt/src/widgets/SensorManager.cpp:91-93 | the loop computes the packet's checksum from bytes 2..7 |
| SensorManager.ApplyDustPacket | qt/src/widgets/SensorManager.cpp:88-107 | a packet with a wrong checksum changes nothing; a good one sets PM2.5 and PM10 from bytes 2-3 and 4-5, little-endian |
| SensorManager.DustStep | qt/src/widgets/SensorManager.cpp:81-109 | each pass of the loop drops bytes from the front of the buffer and only adds signals |
| SensorManager.DustScan | qt/src/widgets/SensorManager.cpp:81-109 | the loop ends with fewer than 10 bytes buffered, and a buffer already that short is left alone |
| SensorManager.DustScanConsumesFront | qt/src/widgets/SensorManager.cpp:81-109 | the whole loop only drops bytes from the front of the buffer and only adds signals |
| SensorManager.FrameAtHead | qt/src/widgets/SensorManager.cpp:84-108 | a well-formed frame with a good checksum at the head of the buffer is taken whole and its readings applied |
| SensorManager.BadFrameConsumed | qt/src/widgets/SensorManager.cpp:84-108 | a framed packet with a wrong checksum is consumed whole without touching the readings |
| SensorManager.CheckTempHumiCrc | qt/src/widgets/SensorManager.cpp:152-155 | the reading passes exactly when bytes 2 and 5 are the CRCs of bytes 0-1 and 3-4 |
| SensorManager.Sensors.constructor | qt/src/widgets/SensorManager.cpp:8-36 | a new manager has every reading at its initial value, an empty dust buffer and no signals |
| SensorManager.Sensors.ReadCo2Data | qt/src/widgets/SensorManager.cpp:64-77 | a well-framed reply with a good checksum and a new value updates the CO2 reading and emits co2Changed; anything else changes nothing |
| SensorManager.Sensors.ReadDustData | qt/src/widgets/SensorManager.cpp:79-111 | the arrival is appended and frames are consumed until fewer than 10 bytes remain, the buffer ending as a suffix of what it held; the other readings are untouched |
| SensorManager.Sensors.DustPass | qt/src/widgets/SensorManager.cpp:81-109 | one pass of the method's loop performs one loop step of the specification |
| SensorManager.Sensors.ApplyDustFrame | qt/src/widgets/SensorManager.cpp:88-107 | the checksum test and reading update for one framed packet, as specified |
| SensorManager.Sensors.RequestTempHumiData | qt/src/widgets/SensorManager.cpp:114-173 | a failed bus step or a failed CRC changes nothing; otherwise the raw temperature and humidity words are stored, each signal emitted only when its value changed |
| ClockProvider.Period | qt/src/widgets/ClockProvider.cpp:35-48 | Morning exactly for hours 5..11, Afternoon for 12..16, Evening for 17..20, Night for every other hour |
| ClockProvider.Hour12 | qt/src/widgets/ClockProvider.cpp:21 | the 12-hour face shows an hour in 1..12 |
| ClockProvider.Meridiem | qt/src/widgets/ClockProvider.cpp:21 | the marker is PM exactly for hours from noon on and AM before |
| ClockProvider.TwelveHourRecoversHour | qt/src/widgets/ClockProvider.cpp:21 | the face hour together with the marker determine the 24-hour hour, so the 12-hour text loses nothing |
| ClockProvider.TimeString | qt/src/widgets/ClockProvider.cpp:16-23 | no reading yet gives the empty text; in both modes characters 2 and 5 are colons with the two-digit minute and second after them; 24-hour mode gives eight characters starting with the two-digit hour; 12-hour mode gives eleven characters starting with the face hour and ending in a space and the marker |
| ClockProvider.TimeStringInjective | qt/src/widgets/ClockProvider.cpp:16-23 | in either mode, two times that print alike have the same hour, minute and second |
| ClockProvider.Clock.constructor | qt/src/widgets/ClockProvider.cpp:3-14 | a new clock is in 12-hour mode and has taken one reading, emitting timeChanged then dateChanged |
| ClockProvider.Clock.Set24HourFormat | qt/src/widgets/ClockProvider.cpp:50-57 | the mode is stored; formatChanged and timeChanged are emitted only when it differs; the readings are untouched |
| ClockProvider.Clock.UpdateTime | qt/src/widgets/ClockProvider.cpp:69-87 | the new reading is stored; timeChanged is emitted exactly when the time of day differs and dateChanged exactly when the date differs, in that order |
| SpotifyProvider.ArtistNames | qt/src/widgets/SpotifyProvider.cpp:223-225 | one name per artist entry, in order, each read from the entry's name field |
| SpotifyProvider.ArtistText | qt/src/widgets/SpotifyProvider.cpp:220-228 | a missing or empty artists list keeps the current text; otherwise it becomes the names joined by ", " |
| SpotifyProvider.PlayStateApplied | qt/src/widgets/SpotifyProvider.cpp:193-205 | each present key (is_playing, progress_ms) overwrites its field, an absent key keeps it, and no other field changes |
| SpotifyProvider.PlayStateSignals | qt/src/widgets/SpotifyProvider.cpp:193-205 | playbackStateChanged exactly when the play flag changes, progressChanged exactly when progress_ms is present, and no track or error signal |
| SpotifyProvider.ItemApplied | qt/src/widgets/SpotifyProvider.cpp:208-244 | an item sets the track name and length, and the artist text by its list; the play state and error are untouched |
| SpotifyProvider.ParsedPlayer | qt/src/widgets/SpotifyProvider.cpp:183-253 | an empty reply only stops playback; otherwise each present key overwrites its fields, absent keys leave them, and the error is cleared |
| SpotifyProvider.ParseSignals | qt/src/widgets/SpotifyProvider.cpp:183-253 | an empty reply sends only playbackStateChanged; trackChanged exactly when an item names a different track; errorChanged exactly when a non-empty reply clears an existing error |
| SpotifyProvider.Provider.constructor | qt/src/widgets/SpotifyProvider.cpp:4-14 | a new provider is unauthenticated, not polling, with an empty player and no requests or signals |
| SpotifyProvider.Provider.SetError | qt/src/widgets/SpotifyProvider.cpp:255-261 | a different text is stored and announced; the same text changes nothing |
| SpotifyProvider.Provider.FetchCurrentPlayback | qt/src/widgets/SpotifyProvider.cpp:33-49 | unauthenticated, only the error "Not authenticated" is set; authenticated, one GET of the currently-playing endpoint with the bearer token goes out |
| SpotifyProvider.Provider.SetAccessToken | qt/src/widgets/SpotifyProvider.cpp:16-31 | a non-empty token authenticates, fetches at once and starts polling; an empty one unauthenticates and stops polling; authenticationChanged is emitted either way |
| SpotifyProvider.Provider.SendCommand | qt/src/widgets/SpotifyProvider.cpp:51-128 | a player command is sent with the bearer token only when authenticated, changing nothing else |
| SpotifyProvider.Provider.Play | qt/src/widgets/SpotifyProvider.cpp:51-71 | when authenticated, one PUT of /me/player/play is sent |
| SpotifyProvider.Provider.Pause | qt/src/widgets/SpotifyProvider.cpp:73-90 | when authenticated, one PUT of /me/player/pause is sent |
| SpotifyProvider.Provider.Next | qt/src/widgets/SpotifyProvider.cpp:92-109 | when authenticated, one POST of /me/player/next is sent |
| SpotifyProvider.Provider.Previous | qt/src/widgets/SpotifyProvider.cpp:111-128 | when authenticated, one POST of /me/player/previous is sent |
| SpotifyProvider.Provider.SetVolume | qt/src/widgets/SpotifyProvider.cpp:130-150 | when authenticated, one PUT of the volume endpoint is sent with the volume limited to 0..100; otherwise nothing |
| SpotifyProvider.Provider.OnPlaybackDataReceived | qt/src/widgets/SpotifyProvider.cpp:152-166 | an error is stored and one mentioning 401 drops the authentication; a reply without error is parsed |
| SpotifyProvider.Provider.UpdateProgress | qt/src/widgets/SpotifyProvider.cpp:168-181 | while a track of known length plays, progress advances one second but never past the end, with progressChanged; reaching the end fetches the current track, which sends exactly one GET of the currently-playing endpoint when authenticated and otherwise sets the error "Not authenticated" (announced if new); when nothing plays nothing changes; the token and poll timer are untouched |
| SpotifyProvider.Provider.ParsePlaybackData | qt/src/widgets/SpotifyProvider.cpp:183-253 | the player and signals become exactly the parsed player and the parse signals |
| SpotifyProvider.Provider.ApplyItemIfPresent | qt/src/widgets/SpotifyProvider.cpp:208-250 | the track fields change only when the reply has an item, with trackChanged when its name differs |
| SpotifyProvider.Provider.ApplyPlayState | qt/src/widgets/SpotifyProvider.cpp:193-205 | the play flag and progress are applied with their signals |
| SpotifyProvider.Provider.ApplyItem | qt/src/widgets/SpotifyProvider.cpp:208-250 | the item's track, length, artists, album and art are applied, with trackChanged when the name differs |
| SpotifyProvider.Provider.ReadArtists | qt/src/widgets/SpotifyProvider.cpp:220-228 | the loop yields exactly the artist text |
| PdlcController.InitialStatus | qt/src/hardware/PDLCController.cpp:31-38 | a ready controller ends construction with "PDLC Controller ready", any other with "PDLC initialization failed" |
| PdlcController.ConstructedAsWritten | qt/src/hardware/PDLCController.cpp:5-39 | as written, the controller is ready exactly when both lines were claimed, and it reports a clear film |
| PdlcController.ConstructedAsWrittenMisreports | qt/src/hardware/PDLCController.cpp:5-39 | as written, a ready controller reports a clear film while its relays are off, so the report disagrees with the film |
| PdlcController.Constructed | qt/src/hardware/PDLCController.cpp:5-39 | as intended, the controller is ready exactly when both lines were claimed, reports a frosted film, and the report agrees with the relays |
| PdlcController.SetRelay | qt/src/hardware/PDLCController.cpp:49-50 | switching sets a claimed relay as asked and leaves an unclaimed line absent |
| PdlcController.Controller.constructor | qt/src/hardware/PDLCController.cpp:5-39 | a new controller is in the intended initial state and has announced its initial status once |
| PdlcController.Controller.SetStatus | qt/src/hardware/PDLCController.cpp:86-92 | a new text is stored and announced; the same text announces nothing; the film is untouched |
| PdlcController.Controller.SetTransparent | qt/src/hardware/PDLCController.cpp:41-57 | a ready controller powers both relays, reports a clear film, sets the glass-mode status and emits transparencyChanged(true); one not ready changes nothing |
| PdlcController.Controller.SetOpaque | qt/src/hardware/PDLCController.cpp:59-75 | a ready controller cuts both relays, reports a frosted film, sets the privacy-mode status and emits transparencyChanged(false); one not ready changes nothing |
| PdlcController.Controller.SetTransparency | qt/src/hardware/PDLCController.cpp:77-84 | on a ready controller the film ends up as asked, both relays agreeing with it, the status names the mode (announced when new) and transparencyChanged follows; one not ready changes nothing |
| WindowController.Clamp | qt/src/hardware/WindowController.cpp:43-44 | the result lies in the range, equals the input when inside and the nearer bound when outside |
| WindowController.CommandFrame | qt/src/hardware/WindowController.cpp:150-152 | the command is six bytes ending in the percentage |
| WindowController.FramePercentage | qt/src/hardware/WindowController.cpp:150-152 | a frame that reads back is exactly the command frame of the percentage read |
| WindowController.FrameRoundTrip | qt/src/hardware/WindowController.cpp:150-152 | every command frame reads back as the percentage it was built from |
| WindowController.StatusEvents | qt/src/hardware/WindowController.cpp:198-204 | setStatus emits at most one signal, and none exactly when the text is unchanged |
| WindowController.CommandStatus | qt/src/hardware/WindowController.cpp:155-160 | after a command the status is "Position: <p>%", or "Command failed" when the write threw |
| WindowController.PositionEvents | qt/src/hardware/WindowController.cpp:41-58 | with the connected flag down only the status "Not connected" is set; with it up positionChanged with the clamped value comes first, and it is all that happens when the link is down; with the link up the frame follows when the write succeeds |
| WindowController.PositionWritesOneFrame | qt/src/hardware/WindowController.cpp:41-58 | a frame is written only when the flag is set, the link is up and the write succeeds, and it carries the clamped percentage |
| WindowController.ConnectStatuses | qt/src/hardware/WindowController.cpp:72-121 | every connection attempt starts with "Scanning for device..." and then passes through at least one further status |
| WindowController.Controller.constructor | qt/src/hardware/WindowController.cpp:5-39 | the controller is ready exactly when an adapter was found and connected exactly when the start-up scan found and linked the actuator; its status names the outcome |
| WindowController.Controller.SetStatus | qt/src/hardware/WindowController.cpp:198-204 | a new text is stored and announced; the same text changes nothing |
| WindowController.Controller.SendCommand | qt/src/hardware/WindowController.cpp:141-167 | without a linked peripheral nothing happens; otherwise the frame is written when the write succeeds and the status reports the outcome |
| WindowController.Controller.SetPosition | qt/src/hardware/WindowController.cpp:41-58 | a controller whose flag is set stores the clamped position and emits the position events for its link state; one whose flag is down keeps its position and only says so |
| WindowController.Controller.OpenWindow | qt/src/hardware/WindowController.cpp:60-64 | a connected controller moves to 100; the status ends as "Window opening to 100%" |
| WindowController.Controller.CloseWindow | qt/src/hardware/WindowController.cpp:66-70 | a connected controller moves to 0; the status ends as "Window closing to 0%" |
| WindowController.Controller.Connect | qt/src/hardware/WindowController.cpp:72-121 | nothing happens unless ready and not connected; otherwise the statuses of the attempt are set in order, and the controller ends connected, with connectionChanged(true), exactly when the actuator was found and linked |
| WindowController.Controller.Disconnect | qt/src/hardware/WindowController.cpp:123-139 | a live link is dropped and the flag cleared, with the status "Disconnected" and connectionChanged(false); with the link already gone nothing changes, so a flag left set stays set |
| WindowController.Controller.DisconnectIntended | qt/src/hardware/WindowController.cpp:123-139 | the controller always ends with the flag down and no link; a set flag is announced as cleared with "Disconnected" and connectionChanged(false) |
| WindowController.Controller.LinkLost | qt/src/hardware/WindowController.cpp:141-146 | the actuator dropping the link takes only the link down: the flag, status and signals stay as they were |
| WindowController.LinkLossSticksAsWritten | qt/src/hardware/WindowController.cpp:72-139 | after a lost link, `disconnect` then `connect` leave the controller flagged as connected with no link, and `connect` does not scan |
| WindowController.LinkLossRecoversIntended | qt/src/hardware/WindowController.cpp:72-139 | with the intended disconnect the same sequence scans and links again |
| MediapipeGesture.ExtendedCount | qt/python/mediapipe_gesture_service.py:100-106 | the count is at most 5, 0 exactly when no finger is extended and 5 exactly when all are |
| MediapipeGesture.Extended | qt/python/mediapipe_gesture_service.py:94-106 | the set of extended fingers holds a finger exactly when its flag is set |
| MediapipeGesture.DetectGesture | qt/python/mediapipe_gesture_service.py:79-133 | every answer is a recognised gesture with the recognised confidence, or "unknown" with 0.5 |
| MediapipeGesture.SetShapes | qt/python/mediapipe_gesture_service.py:112-129 | each count-and-flag test of the chain singles out one exact set of extended fingers |
| MediapipeGesture.DetectGestureBySet | qt/python/mediapipe_gesture_service.py:79-133 | the chain names the finger sets: none is a fist, all five an open palm, exactly the index pointing, exactly index and middle peace, exactly the thumb thumbs up, and any other set unknown |
| MediapipeGesture.GestureDependsOnlyOnSet | qt/python/mediapipe_gesture_service.py:79-133 | two hands with the same extended fingers get the same gesture and confidence |
| MediapipeGesture.Recognizer.constructor | qt/python/mediapipe_gesture_service.py:52-53 | a new recognizer has no last gesture and its position at the centre of the frame |
| MediapipeGesture.Recognizer.ProcessFrame | qt/python/mediapipe_gesture_service.py:175-222 | a failed read reports nothing; a hand is classified, reported at its position and remembered; no hand reports "none" with confidence 0 at the remembered position, which is kept |
| MediapipeGesture.HandReportDistinct | qt/python/mediapipe_gesture_service.py:209-222 | a hand report never carries the name "none" or confidence 0, so it is distinguishable from a no-hand report |
| YoutubeAudioService.ErrorResponse | qt/python/youtube_audio_service.py:116-129 | every error reply has exactly the keys success (false) and error (the message) |
| YoutubeAudioService.AudioFormats | qt/python/youtube_audio_service.py:89 | the audio formats are exactly those entries of the list whose codec is not "none" |
| YoutubeAudioService.FirstAudioFormat | qt/python/youtube_audio_service.py:89-91 | the first audio format is the first entry, in list order, whose codec is not "none" |
| YoutubeAudioService.StreamUrlOf | qt/python/youtube_audio_service.py:82-91 | a truthy top-level url is the stream URL; otherwise the url of the first audio format when the format list is non-empty and has one |
| YoutubeAudioService.StreamUrlFallback | qt/python/youtube_audio_service.py:84-91 | without a top-level url, the first format whose codec is not "none" gives the URL |
| YoutubeAudioService.StreamResponse | qt/python/youtube_audio_service.py:40-129 | a download error and any other error give their prefixed error replies, no info gives "Failed to extract video information"; with info the reply succeeds exactly when a stream URL is found, and otherwise reads "No stream URL found in video info" |
| YoutubeAudioService.MetadataDefaults | qt/python/youtube_audio_service.py:100-103 | metadata the extractor leaves out gets the defaults Unknown Title, Unknown Uploader, the empty thumbnail and duration 0 |
| YoutubeAudioService.CookieFile | qt/python/youtube_audio_service.py:64-65 | the cookies file is passed exactly when the stored path is non-empty and exists |
| YoutubeAudioService.Handled | qt/python/youtube_audio_service.py:131-174 | ping answers pong; get_stream without a URL answers "No URL provided"; set_cookies with an existing non-empty path stores that path and answers success with "Cookies path updated", and with any other path answers "Cookies file not found: " and the path's Python text, keeping the stored path; only that case changes the path; any other command answers "Unknown command: " and its Python text |
| YoutubeAudioService.RunLines | qt/python/youtube_audio_service.py:186-212 | the loop sends at most one reply per line |
| YoutubeAudioService.StoppedIsFinal | qt/python/youtube_audio_service.py:208-212 | once the loop has stopped, later lines change nothing |
| YoutubeAudioService.BlankLineSkipped | qt/python/youtube_audio_service.py:188-190 | a blank line gets no reply and changes no state |
| YoutubeAudioService.DecodeErrorReplied | qt/python/youtube_audio_service.py:192-206 | a line that is not valid JSON gets exactly one "Invalid JSON: " error reply with the decoder's message, keeps the cookies path and does not stop the loop |
| YoutubeAudioService.Service.constructor | qt/python/youtube_audio_service.py:33-34 | a new service has no cookies path |
| YoutubeAudioService.Service.HandleCommand | qt/python/youtube_audio_service.py:131-174 | the reply and the new cookies path are exactly those of the command handling specification |
| YoutubeAudioService.Service.Run | qt/python/youtube_audio_service.py:176-212 | the ready pong comes first, then the replies of the line loop; the exit code is 1 exactly when the loop stopped on an error, else 0 |
| OpenCloseScreen.SextetChar | frontend/src/screens/device/tabs/OpenCloseScreen.tsx:131 | no 6-bit value is written as the padding character '=' |
| OpenCloseScreen.SextetValue | frontend/src/screens/device/tabs/OpenCloseScreen.tsx:131 | a character that decodes reads back as the value whose alphabet character it is |
| OpenCloseScreen.SextetRoundTrip | frontend/src/screens/device/tabs/OpenCloseScreen.tsx:131 | every alphabet character reads back as the value it encodes |
| OpenCloseScreen.EncodeGroup | frontend/src/screens/device/tabs/OpenCloseScreen.tsx:131 | three bytes become four characters |
| OpenCloseScreen.EncodeTail | frontend/src/screens/device/tabs/OpenCloseScreen.tsx:131 | a final one or two bytes become four characters ending in '=' |
| OpenCloseScreen.Base64 | frontend/src/screens/device/tabs/OpenCloseScreen.tsx:131 | the text has four characters for every started group of three bytes |
| OpenCloseScreen.GroupRoundTrip | frontend/src/screens/device/tabs/OpenCloseScreen.tsx:131 | a group of three bytes decodes back from its four characters |
| OpenCloseScreen.NoPadding | frontend/src/screens/device/tabs/OpenCloseScreen.tsx:131 | a whole number of groups is encoded without '=' |
| OpenCloseScreen.Base64RoundTrip | frontend/src/screens/device/tabs/OpenCloseScreen.tsx:131 | a whole number of groups decodes back to exactly the bytes encoded |
| OpenCloseScreen.Round | frontend/src/screens/device/tabs/OpenCloseScreen.tsx:130 | the rounded value lies within half a unit of the input, halves going up |
| OpenCloseScreen.ToByte | frontend/src/screens/device/tabs/OpenCloseScreen.tsx:131 | a value already in 0..255 is stored unchanged |
| OpenCloseScreen.PercentageFrame | frontend/src/screens/device/tabs/OpenCloseScreen.tsx:130 | the frame written for a percentage is six bytes long |
| OpenCloseScreen.FrameMatchesController | frontend/src/screens/device/tabs/OpenCloseScreen.tsx:127-141 | for a percentage in 0..100 the rounded value is in 0..100, the frame is the command frame the device's window controller builds for it, and its base64 text is eight characters without padding that decode back to the frame |
| OpenCloseScreen.ClampPosition | frontend/src/screens/device/tabs/OpenCloseScreen.tsx:166-170 | the position is kept within the pane, and a position already inside is unchanged |
| OpenCloseScreen.PositionPercentage | frontend/src/screens/device/tabs/OpenCloseScreen.tsx:174 | every pane position shows a percentage in 0..100, 0 at the left edge and 100 at the right |
| OpenCloseScreen.FirstTarget | frontend/src/screens/device/tabs/OpenCloseScreen.tsx:242-246 | the result is the first advert named exactly CLWM-B07, or -1 exactly when none is |
| OpenCloseScreen.Screen.constructor | frontend/src/screens/device/tabs/OpenCloseScreen.tsx:36-43 | the screen starts with no device, the pane and percentage at 0, no scan, no writes and no store updates |
| OpenCloseScreen.Screen.WritePercentage | frontend/src/screens/device/tabs/OpenCloseScreen.tsx:127-150 | without a device nothing is written; with one exactly one write of the frame's base64 text goes to that device |
| OpenCloseScreen.Screen.SliderChange | frontend/src/screens/device/tabs/OpenCloseScreen.tsx:152-157 | the shown percentage becomes the value and the pane moves to the matching position; nothing is written |
| OpenCloseScreen.Screen.SlidingComplete | frontend/src/screens/device/tabs/OpenCloseScreen.tsx:288-291 | the value is written to the device when there is one and always sent to the store |
| OpenCloseScreen.Screen.PanMove | frontend/src/screens/device/tabs/OpenCloseScreen.tsx:165-175 | the pane follows the drag clamped to the frame and the matching percentage is shown; nothing is written |
| OpenCloseScreen.Screen.PanRelease | frontend/src/screens/device/tabs/OpenCloseScreen.tsx:159-194 | the clamped final position becomes the last position and its percentage goes to the store; no frame is written, because the handler keeps the first render's empty device |
| OpenCloseScreen.Screen.PanReleaseIntended | frontend/src/screens/device/tabs/OpenCloseScreen.tsx:177-192 | the clamped final position becomes the last position; its percentage goes to the store and, to a connected device, in the frame |
| OpenCloseScreen.ReleaseAfterConnectAsWritten | frontend/src/screens/device/tabs/OpenCloseScreen.tsx:127-194 | connecting to the window and then dragging the pane stores the new percentage but writes nothing to the device |
| OpenCloseScreen.ReleaseAfterConnectIntended | frontend/src/screens/device/tabs/OpenCloseScreen.tsx:127-194 | with the intended handler the same drag writes the base64 frame of the percentage to the connected window |
| OpenCloseScreen.Screen.Disconnect | frontend/src/screens/device/tabs/OpenCloseScreen.tsx:110-125 | the scan stops; a connected device is dropped with the pane and percentage reset and the saved id removed; without one nothing else changes |
| OpenCloseScreen.Screen.ConnectToDevice | frontend/src/screens/device/tabs/OpenCloseScreen.tsx:92-107 | the scan stops; a successful connect records the device, and its id is saved only when service discovery succeeds as well |
| OpenCloseScreen.Screen.ScanForTarget | frontend/src/screens/device/tabs/OpenCloseScreen.tsx:230-255 | the scan connects at most once, to the first advert named exactly CLWM-B07; with none found nothing is attempted |
| OpenCloseScreen.Screen.AutoConnect | frontend/src/screens/device/tabs/OpenCloseScreen.tsx:206-228 | a saved device that reconnects and discovers ends the search with no scan; otherwise the saved id is cleared and the scan runs: a connection is attempted exactly to the first device named CLWM-B07, if any, scanning ends, the connected device is that one when the connect succeeds and otherwise the saved device when the reconnect alone succeeded, and the saved id is set only when the scan's connect and discovery both succeed |
| AlarmScreen.DayLabel | frontend/src/screens/custom/tabs/AlarmScreen.tsx:11-13 | every day's label is a single character, never the separator's comma |
| AlarmScreen.DayLabelInjective | frontend/src/screens/custom/tabs/AlarmScreen.tsx:11-13 | no two days share a label, so a summary names its days unambiguously |
| AlarmScreen.Labels | frontend/src/screens/custom/tabs/AlarmScreen.tsx:19 | the label list has one entry per day, the k-th being the k-th day's label |
| AlarmScreen.FormatRepeatDays | frontend/src/screens/custom/tabs/AlarmScreen.tsx:15-20 | seven entries read "every day", five weekday entries "weekdays", none "no repeat"; any other list shows each day's label in list order, the k-th at position 3k |
| AlarmScreen.JoinLabels | frontend/src/screens/custom/tabs/AlarmScreen.tsx:19 | labels joined with ", " put the k-th day's label at position 3k, in a text of length 3n-2 |
| AlarmScreen.SummaryMeansDays | frontend/src/screens/custom/tabs/AlarmScreen.tsx:15-20 | for a list without repeats, the summary reads "every day" exactly when all seven days are in it, "weekdays" exactly when the days are Monday to Friday, and "no repeat" exactly when it is empty |
| AlarmScreen.ToggleDay | frontend/src/screens/custom/tabs/AlarmScreen.tsx:102-106 | the toggled day is in the result exactly when it was not in the list; every other day is kept as it was; a list without repeats stays without repeats; an absent day is appended at the end |
| AlarmScreen.Without | frontend/src/screens/custom/tabs/AlarmScreen.tsx:104 | the result has no entry of the day and keeps every other day, never growing |
| AlarmScreen.ToggleTwiceRestores | frontend/src/screens/custom/tabs/AlarmScreen.tsx:102-106 | toggling a day that is not in the list on and off again gives back exactly the list |
| AlarmScreen.ToggleTwiceSameDays | frontend/src/screens/custom/tabs/AlarmScreen.tsx:102-106 | toggling a day that is in the list off and on again keeps the same set of days |
| AlarmScreen.ParseInt | frontend/src/screens/custom/tabs/AlarmScreen.tsx:69-70 | a non-empty all-digit text parses to its decimal value; the empty text is NaN |
| AlarmScreen.SetClock | frontend/src/screens/custom/tabs/AlarmScreen.tsx:68-70 | the time is valid exactly when both fields parsed; it is then a minute of the day, and in-range fields give exactly hours*60+minutes |
| AlarmScreen.FormatTime | frontend/src/screens/custom/tabs/AlarmScreen.tsx:85-87 | a valid time prints as two-digit hours, ':', two-digit minutes, ':00', the digits spelling the hour and minute; an invalid time prints NaN:NaN:00 |
| AlarmScreen.EditKeepsTime | frontend/src/screens/custom/tabs/AlarmScreen.tsx:67-87 | opening an alarm saved by the modal reads back the saved minute of the day, so saving it unchanged sends the same time text |
| AlarmScreen.SwitchRequest | frontend/src/screens/custom/tabs/AlarmScreen.tsx:114-123 | the switch sends an update of the same alarm with its name, time and days unchanged and its active flag flipped |
| AlarmScreen.SwitchTwice | frontend/src/screens/custom/tabs/AlarmScreen.tsx:114-123 | flipping the switch twice gives back the alarm's original fields |
| AlarmScreen.AlarmModal.constructor | frontend/src/screens/custom/tabs/AlarmScreen.tsx:35-41 | the modal starts hidden, editing nothing, with an empty name, the current time, no repeat days, active and with no requests sent |
| AlarmScreen.AlarmModal.OpenAlarmModal | frontend/src/screens/custom/tabs/AlarmScreen.tsx:62-82 | an existing alarm fills the form from its name, its parsed time text, its days and its flag; no alarm starts a new active alarm named "새로운 알람" at the current time with no repeat days; the modal is shown either way |
| AlarmScreen.AlarmModal.ToggleRepeatDay | frontend/src/screens/custom/tabs/AlarmScreen.tsx:102-106 | a tap on a day chip replaces the form's days with their toggle |
| AlarmScreen.AlarmModal.HandleSaveAlarm | frontend/src/screens/custom/tabs/AlarmScreen.tsx:84-100 | one request is sent: an update of the edited alarm's id, or else a create for the screen's device, with the form's fields and its formatted time; the modal is hidden |
| AlarmScreen.AlarmModal.HandleToggleSwitch | frontend/src/screens/custom/tabs/AlarmScreen.tsx:114-123 | exactly the switch request of the alarm is sent |
| AlarmScreen.AlarmModal.HandleDeleteAlarm | frontend/src/screens/custom/tabs/AlarmScreen.tsx:108-112 | a delete of the alarm is sent only when the user confirms |
| AuthStore.Store.constructor | frontend/src/stores/authStore.ts:19-22 | a fresh store holds no tokens and no user, so nobody is logged in |
| AuthStore.Store.SetTokens | frontend/src/stores/authStore.ts:26-30 | both tokens are replaced and the user kept; the store is logged in exactly when the new access token is non-empty |
| AuthStore.Store.ClearTokens | frontend/src/stores/authStore.ts:31 | both tokens are dropped and the user kept, so nobody is logged in |
| AuthStore.Store.SetUser | frontend/src/stores/authStore.ts:32 | only the user is replaced |
| AuthStore.Store.Logout | frontend/src/stores/authStore.ts:33-38 | both tokens and the user are dropped, so nobody is logged in |
| TokenApi.LogoutRequest | frontend/src/api/token.ts:14-22 | logout is a POST of /tokens/logout with an empty body and the access token as a bearer credential |
| TokenApi.LogoutCarriesToken | frontend/src/api/token.ts:18 | the backend's authentication filter reads back exactly the token the app sent |
| TokenApi.LogoutMutation | frontend/src/api/token.ts:47-66 | whether the server call succeeds or fails, the tokens are cleared (the user stays), nobody is logged in and the query cache is emptied |
| TokenApi.FcmTokenRequest | frontend/src/api/token.ts:35-37 | registering a device token is a POST of /tokens/mobile whose body carries the token |
| DeviceApi.Envelope | frontend/src/api/device.ts:5-8 | every server response is an object carrying a data field |
| DeviceApi.Unwrap | frontend/src/api/device.ts:94 | a body that is not an object has no payload |
| DeviceApi.UnwrapEnvelope | frontend/src/api/device.ts:90-112 | the getters return exactly the payload the server wrapped |
| DeviceApi.QueryClient.Clear | frontend/src/api/token.ts:57 | every cached query is dropped |
| DeviceApi.QueryClient.Invalidate | frontend/src/api/device.ts:356 | the key is marked stale once more; the cached data stays until refetched |
| DeviceApi.WithMusic | frontend/src/api/device.ts:333-340 | the updated list has the same length; the device with the given id gets the new music and every other device is as it was |
| DeviceApi.WithMusicOnlyMusic | frontend/src/api/device.ts:333-340 | the optimistic update keeps every device's id and every field but the music, which changes only on the matching device |
| DeviceApi.MusicRequest | frontend/src/api/device.ts:305-317 | the music change is a PATCH of /devices/<id>/music whose body carries the music id, or null |
| DeviceApi.UpdateDeviceMusic | frontend/src/api/device.ts:319-359 | with a cached list the matching device shows the new music before the request; a failed request puts the previous list back; no cached list stays none; the device list is invalidated after either outcome; other queries are untouched |
| DeviceApi.PowerRequest | frontend/src/api/device.ts:142-155 | the power change is a PATCH of /devices/<id>/power whose body carries the flag under status |
| DeviceApi.UpdatePowerStatus | frontend/src/api/device.ts:157-172 | only on success is that one device's detail invalidated; the device list is not |
| MusicScreen.PlayPause | frontend/src/screens/display/tabs/MusicScreen.tsx:93-104 | nothing is sent without a device; otherwise a music change for that device, clearing the music exactly when the pressed track is the one it plays and otherwise starting that track |
| MusicScreen.PlayPauseFlips | frontend/src/screens/display/tabs/MusicScreen.tsx:93-176 | after the optimistic update for a press, the pressed track shows the opposite playing state on the device, and devices with other ids are unchanged |
| MusicScreen.QuotedUrl | frontend/src/screens/display/tabs/MusicScreen.tsx:113 | the URL is sent whole, with one double quote added at each end |
| MusicScreen.RegisterModal.constructor | frontend/src/screens/display/tabs/MusicScreen.tsx:64-66 | the modal starts hidden with both fields empty, nothing sent and no alerts |
| MusicScreen.RegisterModal.HandleRegisterMusic | frontend/src/screens/display/tabs/MusicScreen.tsx:106-129 | a blank name or URL only raises the input alert; otherwise one USER registration with the name and the quoted URL is sent; success alerts, hides the modal and empties both fields, failure alerts and keeps them |

## Left out

- Floating point throughout:
  - the SHTC3 temperature/humidity formulas and the dust sensor's /10 scaling (the model keeps the sensors' raw integers);
  - gesture smoothing and the palm-centre and landmark geometry (they enter as computed flags and a centre);
  - `get_hand_center` clamping, `expand_box`;
  - the Spotify and YouTube volume floats.
- Pane positions in the phone app are exact reals, not IEEE doubles.
- Hardware and operating-system I/O are parameters or recorded requests:
  - GPIO line claims, serial and I2C reads and writes;
  - SimpleBLE calls;
  - QProcess and the media player;
  - the file system, AsyncStorage and zustand persistence.
- The log lines on stderr, `qDebug`, `console` and `logging` are not modelled.
- Concurrency: the background scan and connect tasks of `WindowController.cpp` run to completion inside `Connect`. Timers are flags, or the call their tick makes.
- The build of `WindowController.cpp` without SimpleBLE (its mock connect) is not part of this model; the model is the SimpleBLE build.
- The network clients (RestClient, MqttClient, axios, fcmService), the Weather and YouTube widget providers and the Spotify authorisation helper are not part of this model.
- Spring and JPA plumbing:
  - repositories are maps, and their exceptions are not modelled;
  - the entity cascade is written out as the deletions `deleteMedia` performs;
  - the S3 calls and device notifications are logs.
- JwtTokenProvider is not part of this model; its outcome is an input. Its `validateToken` throws rather than returning false, so the filter's outcome has no "declined" case.
- `deleteMedia` asks `DeviceService` for `findByAllMedia`, which `DeviceService.java` does not declare. DeviceService is not part of this model; the lookup is taken to be the devices whose media is the one deleted.
- `registerMedia` calls `requestAIGeneration` with one argument, while `AIService.java` declares two (the media and a device id). `MediaService` records only the media the request was made for, in `aiRequested`; the requests themselves are modelled in `AIService`.
- Header names are matched exactly; HTTP's case-insensitive header lookup is not modelled.
- Case mapping (`toUpperCase`, `lower`) is modelled for ASCII letters only.
- Common.PyStr: a list prints as "[...]" and an object as "{...}", not with their elements as Python's `str` would.
- AppConfig.JsonInt: the value tree holds integers only, so the 0 that `toInt` gives for a fractional JSON number is not modelled.
- Common.ToReal: only text of the form [sign]digits[.digits] is read as a number; exponents, a point with no digits on one side, "inf" and "nan" read as 0, and the results are exact reals rather than doubles.
- Common.ToInt: a QVariant holding a double is not modelled (the value tree has no floating point), and a number already in the tree is not cut to 64 bits.
- SpotifyProvider.PlayStateApplied: `progress_ms` is read with the 64-bit reading; `toInt` gives 0 for text whose value does not fit in 32 bits, which is not modelled.
- SpotifyProvider.ItemApplied: `duration_ms` is read with the 64-bit reading; the 32-bit limit of `toInt` is not modelled.
- The `SocialProvider` enum is the parameter `providers`, the set of its constant names.
- The image processing, model inference and inpainting of `ai-test/utils.py`, and the traceback text of its error replies, are not part of this model.
- `AlarmManager.cpp`:
  - `startAlarmTimer`/`stopAlarmTimer` and the timer wiring are not modelled;
  - `getAllAlarms`/`getAlarmById` only read the table and are not modelled;
  - the file loading of `initialize` is not modelled;
  - `saveToFile` is a recorded `Saved` snapshot;
  - the unspecified iteration order of a `QSet` of days is modelled as week order.
- AlarmManager.ParseIso: of the ISO 8601 forms `QDateTime::fromString` accepts, only "yyyy-MM-dd", "yyyy-MM-ddTHH:mm:ss" and the same with a dot and three fraction digits are read; a "Z" or UTC offset, a time without seconds, "24:00", a comma or another number of fraction digits read as invalid, and years outside 1..9999 are not modelled.
- `AppConfig.cpp`:
  - the `setWidget*` setters assign fields that `AppConfig.h` does not declare, so they are left out;
  - `applicationDirPath` is not modelled;
  - what `load` finds on disk is a parameter.
- `SensorManager.cpp`: `requestCo2Data` only writes the fixed request frame, whose checksum `Co2RequestChecksum` states.
- `youtube_audio_service.py`:
  - the `__main__` command-line cookies argument and `KeyboardInterrupt` are not modelled;
  - the JSON decoder is a parameter, and a decoded value that is not an object stops the loop, as the outer handler does.
- `OpenCloseScreen.tsx`:
  - the device scan is the list of advertisements found;
  - permission requests and status-message texts are not modelled;
  - `writePercentage` writes `Math.round` of the value into a `Buffer` without clamping it, as the code does; the pan and slider handlers clamp before calling it.
- `device.ts`: `cancelQueries` is not modelled.
- DeviceApi.UpdatePowerStatus: states the request it sends and the cache invalidation, not what the server does with it.
- `AlarmScreen.tsx`: `Date` seconds, time zones and daylight-saving changes are not modelled; times are hours and minutes on a day.
- `MusicScreen.tsx`: the internals of the `useRegisterMusic` mutation are not part of this model; its outcome is a parameter.
- `authStore.ts`: persistence is not modelled.
- Token reissue on 401 is not modelled: the interceptor that would do it is commented out in the app.

## Findings

| source | as written | input that shows it | evidently intended | confidence | as-written member | corrected member |
|---|---|---|---|---|---|---|
| qt/src/hardware/WindowController.cpp:123-139 | `disconnect` acts only when the peripheral link is up, while `connect` and `setPosition` test the separate `m_connected` flag; when the actuator drops the link by itself nothing clears that flag | start linked, lose the link, call `disconnect`, then `connect` with the actuator in range: the controller stays flagged as connected, `connect` refuses to scan, and every `setPosition` is swallowed without a frame | `disconnect` clears the flag whenever it is set, so that `connect` can link again | not executed | WindowController.LinkLossSticksAsWritten | WindowController.LinkLossRecoversIntended |
| frontend/src/screens/device/tabs/OpenCloseScreen.tsx:159-194 | the pan handlers are created once, inside `useRef(PanResponder.create(...)).current`, so the release handler calls the `writePercentage` of the first render, whose `connectedDevice` is still null | connect to the window, then drag the pane 50 px and let go: the store gets the new percentage but no frame is written to the device | the release writes the final percentage to the connected device, as the slider does | not executed | OpenCloseScreen.ReleaseAfterConnectAsWritten | OpenCloseScreen.Screen.PanReleaseIntended |
| qt/src/hardware/PDLCController.cpp:5-39 | the constructor claims both relay lines with the relays off (film frosted), but `m_transparent` keeps its declared default `true`, although the comment says the film is initialised opaque | both GPIO lines claimed successfully: `isTransparent()` answers true while both relays are off | the film starts frosted and is reported as not transparent | not executed | PdlcController.ConstructedAsWrittenMisreports | PdlcController.Constructed |
