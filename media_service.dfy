/*
 * The backend's media service: registering an upload, receiving an AI
 * rendition of it, and deleting media with the device re-pointing and
 * child cascade that implies. The media and device tables are maps from
 * id; the object-store deletions, device notifications and AI generation
 * requests are logs the service appends to.
 */
module MediaService {
  import opened Common
  import opened BackendDomain
  import opened FileNameUtils

  /** A media row: owner, display name, object key, origin and parent (by id). */
  datatype Media = Media(
    id: int,
    userId: int,
    fileName: string,
    fileUrl: string,
    origin: MediaOrigin,
    parent: Option<int>)

  /** A service call's result: a value, or the error code it throws. */
  datatype Outcome<T> = Ok(value: T) | Failed(code: ErrorCode)

  /** `replaceAll("\\s", "_")`: every whitespace character turned into '_', the rest kept. */
  function WhitespaceToUnderscore(s: string): (r: string)
    ensures |r| == |s|
    ensures forall i :: 0 <= i < |s| ==> !IsSpace(r[i])
    ensures forall i :: 0 <= i < |s| ==> r[i] == (if IsSpace(s[i]) then '_' else s[i])
  {
    if |s| == 0 then ""
    else [if IsSpace(s[0]) then '_' else s[0]] + WhitespaceToUnderscore(s[1..])
  }

  /**
   * `createS3ObjectKey`: "media/" + the random UUID + "_" + the file name
   * with each whitespace character replaced by '_'.
   */
  function CreateS3ObjectKey(uuid: string, fileName: string): (key: string)
    ensures IsPrefix("media/" + uuid + "_", key)
    ensures key[|"media/" + uuid + "_"|..] == WhitespaceToUnderscore(fileName)
  {
    var prefix := "media/" + uuid + "_";
    var key := prefix + WhitespaceToUnderscore(fileName);
    assert key[..|prefix|] == prefix;
    key
  }

  /** A name without whitespace becomes the key unchanged after its prefix. */
  lemma KeyKeepsPlainName(uuid: string, fileName: string)
    requires forall i :: 0 <= i < |fileName| ==> !IsSpace(fileName[i])
    ensures CreateS3ObjectKey(uuid, fileName) == "media/" + uuid + "_" + fileName
  {
    assert WhitespaceToUnderscore(fileName) == fileName;
  }

  /** What devices showing a deleted item switch to: its parent if it is an AI rendition with one, else nothing. */
  function Replacement(m: Media): (r: Option<int>)
    ensures r.Some? <==> m.origin != ORIGINAL && m.parent.Some?
    ensures r.Some? ==> r == m.parent
  {
    if m.origin != ORIGINAL && m.parent.Some? then m.parent else None
  }

  /** The devices showing media `id`. */
  function Affected(devices: map<int, Option<int>>, id: int): set<int>
  {
    set d | d in devices && devices[d] == Some(id)
  }

  /** The media whose parent is `id`. */
  function ChildrenOf(media: map<int, Media>, id: int): set<int>
  {
    set c | c in media && media[c].parent == Some(id)
  }

  /** The object keys of the listed media, in list order. */
  function Urls(media: map<int, Media>, ids: seq<int>): (urls: seq<string>)
    requires forall i :: 0 <= i < |ids| ==> ids[i] in media
    ensures |urls| == |ids|
    ensures forall i :: 0 <= i < |ids| ==> urls[i] == media[ids[i]].fileUrl
  {
    if |ids| == 0 then [] else [media[ids[0]].fileUrl] + Urls(media, ids[1..])
  }

  /**
   * `findMediaByUser`: the row with that id when the user owns it; a missing
   * row and another user's row both fail with IMAGE_NOT_FOUND.
   */
  function FindMediaByUser(media: map<int, Media>, mediaId: int, userId: int): (r: Outcome<Media>)
    ensures r.Ok? <==> mediaId in media && media[mediaId].userId == userId
    ensures r.Ok? ==> r.value == media[mediaId]
    ensures r.Failed? ==> r.code == IMAGE_NOT_FOUND
  {
    if mediaId in media && media[mediaId].userId == userId then Ok(media[mediaId])
    else Failed(IMAGE_NOT_FOUND)
  }

  /** `s` lists the elements of `a`, each exactly once. */
  ghost predicate Enumerates(s: seq<int>, a: set<int>)
  {
    (forall x :: x in s <==> x in a) && (forall i, j :: 0 <= i < j < |s| ==> s[i] != s[j])
  }

  /** Appending a new element to an enumeration enumerates the larger set. */
  lemma EnumeratesAppend(s: seq<int>, a: set<int>, x: int)
    requires Enumerates(s, a) && x !in a
    ensures Enumerates(s + [x], a + {x})
  {
  }

  /** Listing one more row appends its object key. */
  lemma UrlsAppend(deleted: seq<string>, media: map<int, Media>, ids: seq<int>, x: int)
    requires forall i :: 0 <= i < |ids| ==> ids[i] in media
    requires x in media
    ensures deleted + Urls(media, ids + [x]) == deleted + Urls(media, ids) + [media[x].fileUrl]
  {
    var longer := ids + [x];
    assert forall i :: 0 <= i < |ids| ==> longer[i] == ids[i];
    assert Urls(media, ids + [x]) == Urls(media, ids) + [media[x].fileUrl];
  }

  /** Removing the keys of `gone` and then `x` removes the keys of `gone + {x}`. */
  lemma RemoveOneMore(media: map<int, Media>, gone: set<int>, x: int)
    ensures (media - gone) - {x} == media - (gone + {x})
    ensures x in media && x !in gone ==> (media - gone)[x] == media[x]
  {
  }

  /** Whether some row already has this object key (`existsByFileUrl`). */
  predicate KeyTaken(media: map<int, Media>, key: string)
  {
    exists id :: id in media && media[id].fileUrl == key
  }

  /**
   * The rendition `handleAICallback` saves, if any: the type read from the
   * key must be non-empty and name an origin as "AI_" + type; the row then
   * belongs to the parent's owner, is named after the parent with "(type)"
   * before the extension, and points at the parent.
   */
  function CallbackMedia(parent: Media, key: Option<string>, newId: int): (r: Option<Media>)
    ensures r.Some? <==>
      var t := ExtractAITypeFromKey(key);
      t.Some? && t.value != "" && OriginValueOf("AI_" + t.value).Some?
    ensures r.Some? ==>
      var t := ExtractAITypeFromKey(key).value;
      r.value == Media(newId, parent.userId,
                       AddSuffixBeforeExtension(Some(parent.fileName), "(" + t + ")").value,
                       key.value, OriginValueOf("AI_" + t).value, Some(parent.id))
  {
    var t := ExtractAITypeFromKey(key);
    if t.None? || t.value == "" then None
    else
      match OriginValueOf("AI_" + t.value)
      case None => None
      case Some(origin) =>
        var name := AddSuffixBeforeExtension(Some(parent.fileName), "(" + t.value + ")");
        Some(Media(newId, parent.userId, name.value, key.value, origin, Some(parent.id)))
  }

  /** The saved rendition's name is the parent's with "(type)" inserted before its extension. */
  lemma CallbackNameKeepsExtension(parent: Media, key: Option<string>, newId: int)
    requires parent.fileName != ""
    requires CallbackMedia(parent, key, newId).Some?
    ensures
      var t := ExtractAITypeFromKey(key).value;
      var name := CallbackMedia(parent, key, newId).value.fileName;
      var d := ExtensionStart(parent.fileName);
      |name| == |parent.fileName| + |t| + 2 &&
      name[..d] == parent.fileName[..d] && name[d..d + |t| + 2] == "(" + t + ")" &&
      name[d + |t| + 2..] == parent.fileName[d..]
  {
  }

  class MediaStore {
    var media: map<int, Media>
    /** Each device's current media, by device id. */
    var devices: map<int, Option<int>>
    /** Devices sent their new media over MQTT, in order. */
    var published: seq<int>
    /** Object keys deleted from storage, in order. */
    var s3Deleted: seq<string>
    /** Media ids AI generation was requested for, in order. */
    var aiRequested: seq<int>

    /** Every row is stored under its own id. */
    ghost predicate Valid()
      reads this
    {
      forall id :: id in media ==> media[id].id == id
    }

    constructor (media0: map<int, Media>, devices0: map<int, Option<int>>)
      requires forall id :: id in media0 ==> media0[id].id == id
      ensures Valid()
      ensures media == media0 && devices == devices0
      ensures published == [] && s3Deleted == [] && aiRequested == []
    {
      media := media0;
      devices := devices0;
      published := [];
      s3Deleted := [];
      aiRequested := [];
    }

    /**
     * `registerMedia`: a key already on record fails with
     * INTERNAL_SERVER_ERROR and changes nothing; otherwise an ORIGINAL row
     * is saved under the new id and AI generation is requested for it.
     */
    method RegisterMedia(userId: int, fileName: string, s3ObjectKey: string, newId: int) returns (r: Outcome<int>)
      requires Valid() && newId !in media
      modifies this
      ensures Valid()
      ensures devices == old(devices) && published == old(published) && s3Deleted == old(s3Deleted)
      ensures KeyTaken(old(media), s3ObjectKey) ==>
        r == Failed(INTERNAL_SERVER_ERROR) && media == old(media) && aiRequested == old(aiRequested)
      ensures !KeyTaken(old(media), s3ObjectKey) ==>
        r == Ok(newId) &&
        media == old(media)[newId := Media(newId, userId, fileName, s3ObjectKey, ORIGINAL, None)] &&
        aiRequested == old(aiRequested) + [newId]
    {
      if exists id :: id in media && media[id].fileUrl == s3ObjectKey {
        return Failed(INTERNAL_SERVER_ERROR);
      }
      media := media[newId := Media(newId, userId, fileName, s3ObjectKey, ORIGINAL, None)];
      aiRequested := aiRequested + [newId];
      r := Ok(newId);
    }

    /**
     * `handleAICallback`: an unknown parent fails with IMAGE_NOT_FOUND;
     * otherwise the rendition `CallbackMedia` describes is saved, or nothing
     * when the key's type is missing or unknown.
     */
    method HandleAICallback(parentMediaId: int, s3ObjectKey: Option<string>, newId: int) returns (r: Outcome<()>)
      requires Valid() && newId !in media
      modifies this
      ensures Valid()
      ensures devices == old(devices) && published == old(published)
      ensures s3Deleted == old(s3Deleted) && aiRequested == old(aiRequested)
      ensures parentMediaId !in old(media) ==> r == Failed(IMAGE_NOT_FOUND) && media == old(media)
      ensures parentMediaId in old(media) ==>
        r == Ok(()) &&
        var saved := CallbackMedia(old(media)[parentMediaId], s3ObjectKey, newId);
        media == (if saved.Some? then old(media)[newId := saved.value] else old(media))
    {
      if parentMediaId !in media {
        return Failed(IMAGE_NOT_FOUND);
      }
      var parent := media[parentMediaId];
      var saved := CallbackMedia(parent, s3ObjectKey, newId);
      if saved.Some? {
        media := media[newId := saved.value];
      }
      r := Ok(());
    }

    /**
     * `deleteMedia`: media the user does not own (or that does not exist)
     * fails with IMAGE_NOT_FOUND. Otherwise every device showing it is
     * pointed at its replacement and notified; an ORIGINAL also takes its
     * children with it; the item itself is deleted last. `notified` and
     * `children` are the orders the two loops visited.
     */
    method DeleteMedia(userId: int, mediaId: int) returns (r: Outcome<()>, notified: seq<int>, children: seq<int>)
      requires Valid()
      modifies this
      ensures Valid()
      ensures aiRequested == old(aiRequested)
      ensures mediaId !in old(media) || old(media)[mediaId].userId != userId ==>
        r == Failed(IMAGE_NOT_FOUND) && media == old(media) && devices == old(devices) &&
        published == old(published) && s3Deleted == old(s3Deleted)
      ensures mediaId in old(media) && old(media)[mediaId].userId == userId ==>
        var m := old(media)[mediaId];
        var removed := if m.origin == ORIGINAL then ChildrenOf(old(media), mediaId) else {};
        r == Ok(()) &&
        devices.Keys == old(devices).Keys &&
        (forall d :: d in devices ==>
          devices[d] == (if old(devices)[d] == Some(mediaId) then Replacement(m) else old(devices)[d])) &&
        Enumerates(notified, Affected(old(devices), mediaId)) &&
        published == old(published) + notified &&
        Enumerates(children, removed) &&
        (forall i :: 0 <= i < |children| ==> children[i] in old(media)) &&
        s3Deleted == old(s3Deleted) + Urls(old(media), children) + [m.fileUrl] &&
        media == old(media) - removed - {mediaId}
    {
      notified, children := [], [];
      var found := FindMediaByUser(media, mediaId, userId);
      if found.Failed? {
        return Failed(found.code), notified, children;
      }
      var m := found.value;
      var replacement := Replacement(m);
      notified := RepointDevices(mediaId, replacement);
      if m.origin == ORIGINAL {
        children := DeleteChildren(mediaId);
      }
      media := media - {mediaId};
      s3Deleted := s3Deleted + [m.fileUrl];
      r := Ok(());
    }

    /** The first loop of `deleteMedia`: each device showing `mediaId` gets the replacement and is notified. */
    method RepointDevices(mediaId: int, replacement: Option<int>) returns (notified: seq<int>)
      modifies this
      ensures media == old(media) && s3Deleted == old(s3Deleted) && aiRequested == old(aiRequested)
      ensures devices.Keys == old(devices).Keys
      ensures forall d :: d in devices ==>
        devices[d] == (if old(devices)[d] == Some(mediaId) then replacement else old(devices)[d])
      ensures Enumerates(notified, Affected(old(devices), mediaId))
      ensures published == old(published) + notified
    {
      var affected := Affected(devices, mediaId);
      var todo := affected;
      notified := [];
      while todo != {}
        invariant todo <= affected
        invariant media == old(media) && s3Deleted == old(s3Deleted) && aiRequested == old(aiRequested)
        invariant devices.Keys == old(devices).Keys
        invariant forall d :: d in devices ==>
          devices[d] == (if d in affected && d !in todo then replacement else old(devices)[d])
        invariant Enumerates(notified, affected - todo)
        invariant published == old(published) + notified
        decreases todo
      {
        var d := PickKey(todo);
        EnumeratesAppend(notified, affected - todo, d);
        assert affected - (todo - {d}) == (affected - todo) + {d};
        devices := devices[d := replacement];
        published := published + [d];
        notified := notified + [d];
        todo := todo - {d};
      }
    }

    /** The second loop of `deleteMedia`: each child of `mediaId` is deleted with its stored object. */
    method DeleteChildren(mediaId: int) returns (children: seq<int>)
      requires Valid()
      modifies this
      ensures Valid()
      ensures devices == old(devices) && published == old(published) && aiRequested == old(aiRequested)
      ensures Enumerates(children, ChildrenOf(old(media), mediaId))
      ensures forall i :: 0 <= i < |children| ==> children[i] in old(media)
      ensures s3Deleted == old(s3Deleted) + Urls(old(media), children)
      ensures media == old(media) - ChildrenOf(old(media), mediaId)
    {
      var all := ChildrenOf(media, mediaId);
      var todo := all;
      children := [];
      while todo != {}
        invariant todo <= all
        invariant Valid()
        invariant devices == old(devices) && published == old(published) && aiRequested == old(aiRequested)
        invariant Enumerates(children, all - todo)
        invariant forall i :: 0 <= i < |children| ==> children[i] in old(media)
        invariant s3Deleted == old(s3Deleted) + Urls(old(media), children)
        invariant media == old(media) - (all - todo)
        decreases todo
      {
        var c := PickKey(todo);
        assert all - (todo - {c}) == (all - todo) + {c};
        EnumeratesAppend(children, all - todo, c);
        UrlsAppend(old(s3Deleted), old(media), children, c);
        RemoveOneMore(old(media), all - todo, c);
        var url := media[c].fileUrl;
        media := media - {c};
        s3Deleted := s3Deleted + [url];
        children := children + [c];
        todo := todo - {c};
      }
    }
  }
}
