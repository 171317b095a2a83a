/*
 * The YouTube audio helper process: it reads one JSON command per line and
 * answers each with one JSON object: a ping, a stream-URL lookup through the
 * extractor, or a new cookies file.
 *
 * Outside the model: the extractor's network work (its outcome for a URL
 * and the cookies file it is handed is the parameter `extract`), the JSON
 * decoder (`decode`), the file system (the set `files` of existing paths)
 * and the log lines on stderr.
 */
module YoutubeAudioService {
  import opened Common

  /** What the extractor's `extract_info` gives for a URL, with or without a cookies file. */
  datatype Extraction =
    | Info(info: Option<map<string, Value>>)
    | DownloadError(message: string)
    | UnexpectedError(message: string)

  function ErrorResponse(message: string): (r: map<string, Value>)
    ensures r.Keys == {"success", "error"} && r["success"] == Bool(false) && r["error"] == Str(message)
  {
    map["success" := Bool(false), "error" := Str(message)]
  }

  const Pong: map<string, Value> := map["pong" := Bool(true)]

  /** A format carries audio unless its "acodec" is exactly "none". */
  predicate IsAudio(format: Value)
  {
    Get(ToObject(format), "acodec") != Str("none")
  }

  /** `[f for f in formats if f.get('acodec') != 'none']`, in order. */
  function AudioFormats(formats: seq<Value>): (r: seq<Value>)
    ensures |r| <= |formats|
    ensures forall f :: f in r ==> f in formats && IsAudio(f)
    ensures forall f :: f in formats && IsAudio(f) ==> f in r
  {
    if formats == [] then []
    else (if IsAudio(formats[0]) then [formats[0]] else []) + AudioFormats(formats[1..])
  }

  /** The first audio format is the first format, in list order, whose codec is not "none". */
  lemma {:induction false} FirstAudioFormat(formats: seq<Value>, k: nat)
    requires k < |formats| && IsAudio(formats[k])
    requires forall j :: 0 <= j < k ==> !IsAudio(formats[j])
    ensures AudioFormats(formats) != [] && AudioFormats(formats)[0] == formats[k]
    decreases k
  {
    if k > 0 {
      assert !IsAudio(formats[0]);
      FirstAudioFormat(formats[1..], k - 1);
    }
  }

  /**
   * The stream URL of an extracted video: the top-level "url" when it is
   * truthy, else the "url" of the first audio format, else the falsy
   * top-level value.
   */
  function StreamUrlOf(info: map<string, Value>): (r: Value)
    ensures Truthy(Get(info, "url")) ==> r == info["url"]
    ensures !Truthy(Get(info, "url")) && Truthy(GetOr(info, "formats", List([])))
            && AudioFormats(ToList(info["formats"])) != [] ==>
      r == Get(ToObject(AudioFormats(ToList(info["formats"]))[0]), "url")
  {
    var url := Get(info, "url");
    if Truthy(url) then url
    else
      var formats := GetOr(info, "formats", List([]));
      if Truthy(formats) && AudioFormats(ToList(formats)) != [] then
        Get(ToObject(AudioFormats(ToList(formats))[0]), "url")
      else url
  }

  /** The fallback, stated on the format list: the first format with a codec other than "none" gives the URL. */
  lemma StreamUrlFallback(info: map<string, Value>, k: nat)
    requires !Truthy(Get(info, "url")) && "formats" in info && info["formats"].List?
    requires k < |info["formats"].items| && IsAudio(info["formats"].items[k])
    requires forall j :: 0 <= j < k ==> !IsAudio(info["formats"].items[j])
    ensures StreamUrlOf(info) == Get(ToObject(info["formats"].items[k]), "url")
  {
    FirstAudioFormat(info["formats"].items, k);
  }

  /** `get_stream_url` after the extractor has run: the error replies, or the URL with its metadata. */
  function StreamResponse(outcome: Extraction): (r: map<string, Value>)
    ensures outcome.DownloadError? ==> r == ErrorResponse("Download error: " + outcome.message)
    ensures outcome.UnexpectedError? ==> r == ErrorResponse("Unexpected error: " + outcome.message)
    ensures outcome == Info(None) ==> r == ErrorResponse("Failed to extract video information")
    ensures outcome.Info? && outcome.info.Some? ==>
      ("success" in r && (r["success"] == Bool(true) <==> Truthy(StreamUrlOf(outcome.info.value))))
    ensures outcome.Info? && outcome.info.Some? && !Truthy(StreamUrlOf(outcome.info.value)) ==>
      r == ErrorResponse("No stream URL found in video info")
  {
    match outcome
    case DownloadError(m) => ErrorResponse("Download error: " + m)
    case UnexpectedError(m) => ErrorResponse("Unexpected error: " + m)
    case Info(None) => ErrorResponse("Failed to extract video information")
    case Info(Some(info)) =>
      var url := StreamUrlOf(info);
      if !Truthy(url) then ErrorResponse("No stream URL found in video info")
      else
        map["success" := Bool(true), "stream_url" := url,
            "title" := GetOr(info, "title", Str("Unknown Title")),
            "uploader" := GetOr(info, "uploader", Str("Unknown Uploader")),
            "thumbnail" := GetOr(info, "thumbnail", Str("")),
            "duration" := GetOr(info, "duration", Int(0))]
  }

  /** Metadata the extractor leaves out gets the fixed defaults. */
  lemma MetadataDefaults(info: map<string, Value>)
    requires Truthy(StreamUrlOf(info))
    requires "title" !in info && "uploader" !in info && "thumbnail" !in info && "duration" !in info
    ensures StreamResponse(Info(Some(info)))["title"] == Str("Unknown Title")
    ensures StreamResponse(Info(Some(info)))["uploader"] == Str("Unknown Uploader")
    ensures StreamResponse(Info(Some(info)))["thumbnail"] == Str("")
    ensures StreamResponse(Info(Some(info)))["duration"] == Int(0)
  {
  }

  /** The cookies file handed to the extractor: the stored path, when it is non-empty and exists. */
  function CookieFile(cookiesPath: Option<string>, files: set<string>): (r: Option<string>)
    ensures r.Some? <==> cookiesPath.Some? && cookiesPath.value != "" && cookiesPath.value in files
    ensures r.Some? ==> r == cookiesPath
  {
    if cookiesPath.Some? && cookiesPath.value != "" && cookiesPath.value in files then cookiesPath else None
  }

  /**
   * `handle_command`: the reply to one command, and the cookies path after
   * it. Only "set_cookies" with an existing path changes the path.
   */
  function Handled(cookiesPath: Option<string>, data: map<string, Value>, files: set<string>,
                   extract: (Value, Option<string>) -> Extraction): (r: (Option<string>, map<string, Value>))
    ensures Get(data, "command") == Str("ping") ==> r == (cookiesPath, Pong)
    ensures Get(data, "command") == Str("get_stream") && !Truthy(Get(data, "url")) ==>
      r == (cookiesPath, ErrorResponse("No URL provided"))
    ensures Get(data, "command") == Str("get_stream") && Truthy(Get(data, "url")) ==>
      r == (cookiesPath, StreamResponse(extract(Get(data, "url"), CookieFile(cookiesPath, files))))
    ensures r.0 != cookiesPath ==>
      Get(data, "command") == Str("set_cookies") && Get(data, "path").Str? && r.0 == Some(Get(data, "path").s)
      && Get(data, "path").s != "" && Get(data, "path").s in files
    ensures Get(data, "command") == Str("set_cookies") ==>
      var path := Get(data, "path");
      r == if Truthy(path) && path.Str? && path.s in files
           then (Some(path.s), map["success" := Bool(true), "message" := Str("Cookies path updated")])
           else (cookiesPath, ErrorResponse("Cookies file not found: " + PyStr(path)))
    ensures Get(data, "command") !in {Str("ping"), Str("get_stream"), Str("set_cookies")} ==>
      r == (cookiesPath, ErrorResponse("Unknown command: " + PyStr(Get(data, "command"))))
  {
    var command := Get(data, "command");
    if command == Str("ping") then (cookiesPath, Pong)
    else if command == Str("get_stream") then
      var url := Get(data, "url");
      if !Truthy(url) then (cookiesPath, ErrorResponse("No URL provided"))
      else (cookiesPath, StreamResponse(extract(url, CookieFile(cookiesPath, files))))
    else if command == Str("set_cookies") then
      var path := Get(data, "path");
      if Truthy(path) && path.Str? && path.s in files then
        (Some(path.s), map["success" := Bool(true), "message" := Str("Cookies path updated")])
      else (cookiesPath, ErrorResponse("Cookies file not found: " + PyStr(path)))
    else (cookiesPath, ErrorResponse("Unknown command: " + PyStr(command)))
  }

  /** What the JSON decoder makes of one line. */
  datatype Decoded = Parsed(value: Value) | DecodeError(message: string)

  /** The service loop's state: the cookies path, the replies written so far, and whether it stopped. */
  datatype RunState = RunState(cookiesPath: Option<string>, replies: seq<map<string, Value>>, stopped: bool)

  /**
   * One input line: a blank line is skipped, an undecodable one answered
   * with "Invalid JSON", an object handled; a decoded value that is not an
   * object has no `get`, and the resulting error ends the loop.
   */
  function Step(st: RunState, line: string, decode: string -> Decoded, files: set<string>,
                extract: (Value, Option<string>) -> Extraction): RunState
  {
    if IsBlank(line) then st
    else match decode(line)
      case DecodeError(m) => st.(replies := st.replies + [ErrorResponse("Invalid JSON: " + m)])
      case Parsed(v) =>
        if !v.Object? then st.(stopped := true)
        else
          var (path, reply) := Handled(st.cookiesPath, v.fields, files, extract);
          RunState(path, st.replies + [reply], false)
  }

  /** The loop over a sequence of lines, from the given cookies path; nothing is read once it has stopped. */
  function RunLines(cookiesPath: Option<string>, lines: seq<string>, decode: string -> Decoded, files: set<string>,
                    extract: (Value, Option<string>) -> Extraction): (r: RunState)
    ensures |r.replies| <= |lines|
  {
    if |lines| == 0 then RunState(cookiesPath, [], false)
    else
      var before := RunLines(cookiesPath, lines[..|lines| - 1], decode, files, extract);
      if before.stopped then before else Step(before, lines[|lines| - 1], decode, files, extract)
  }

  /** Once the loop has stopped, the lines after that point change nothing. */
  lemma {:induction false} StoppedIsFinal(cookiesPath: Option<string>, lines: seq<string>, i: nat,
                                          decode: string -> Decoded, files: set<string>, extract: (Value, Option<string>) -> Extraction)
    requires i <= |lines|
    requires RunLines(cookiesPath, lines[..i], decode, files, extract).stopped
    ensures RunLines(cookiesPath, lines, decode, files, extract) == RunLines(cookiesPath, lines[..i], decode, files, extract)
    decreases |lines| - i
  {
    if i < |lines| {
      var shorter := lines[..|lines| - 1];
      assert shorter[..i] == lines[..i];
      StoppedIsFinal(cookiesPath, shorter, i, decode, files, extract);
    } else {
      assert lines[..i] == lines;
    }
  }

  /** A blank line is skipped: it gets no reply and changes no state. */
  lemma BlankLineSkipped(cookiesPath: Option<string>, lines: seq<string>, line: string,
                         decode: string -> Decoded, files: set<string>, extract: (Value, Option<string>) -> Extraction)
    requires IsBlank(line)
    ensures RunLines(cookiesPath, lines + [line], decode, files, extract) == RunLines(cookiesPath, lines, decode, files, extract)
  {
    assert (lines + [line])[..|lines|] == lines;
  }

  /**
   * A line the decoder rejects is answered with exactly one "Invalid JSON"
   * error; the cookies path stays and the loop goes on to the next line.
   */
  lemma DecodeErrorReplied(cookiesPath: Option<string>, lines: seq<string>, line: string,
                           decode: string -> Decoded, files: set<string>, extract: (Value, Option<string>) -> Extraction)
    requires !IsBlank(line) && decode(line).DecodeError?
    requires !RunLines(cookiesPath, lines, decode, files, extract).stopped
    ensures var before := RunLines(cookiesPath, lines, decode, files, extract);
      RunLines(cookiesPath, lines + [line], decode, files, extract)
        == RunState(before.cookiesPath, before.replies + [ErrorResponse("Invalid JSON: " + decode(line).message)], false)
  {
    assert (lines + [line])[..|lines|] == lines;
  }

  class Service {
    var cookiesPath: Option<string>

    constructor()
      ensures cookiesPath == None
    {
      cookiesPath := None;
    }

    /** `handle_command`, changing the stored cookies path as `Handled` says. */
    method HandleCommand(data: map<string, Value>, files: set<string>, extract: (Value, Option<string>) -> Extraction)
      returns (reply: map<string, Value>)
      modifies this
      ensures (cookiesPath, reply) == Handled(old(cookiesPath), data, files, extract)
    {
      var command := Get(data, "command");
      if command == Str("ping") {
        return Pong;
      } else if command == Str("get_stream") {
        var url := Get(data, "url");
        if !Truthy(url) {
          return ErrorResponse("No URL provided");
        }
        return StreamResponse(extract(url, CookieFile(cookiesPath, files)));
      } else if command == Str("set_cookies") {
        var path := Get(data, "path");
        if Truthy(path) && path.Str? && path.s in files {
          cookiesPath := Some(path.s);
          return map["success" := Bool(true), "message" := Str("Cookies path updated")];
        } else {
          return ErrorResponse("Cookies file not found: " + PyStr(path));
        }
      } else {
        return ErrorResponse("Unknown command: " + PyStr(command));
      }
    }

    /**
     * `run`: the ready reply, then one reply per non-blank line, until the
     * input ends (exit code 0) or a line stops the loop (exit code 1).
     */
    method Run(lines: seq<string>, decode: string -> Decoded, files: set<string>, extract: (Value, Option<string>) -> Extraction)
      returns (output: seq<map<string, Value>>, exitCode: int)
      modifies this
      ensures |output| >= 1 && output[0] == Pong
      ensures RunState(cookiesPath, output[1..], exitCode == 1) == RunLines(old(cookiesPath), lines, decode, files, extract)
      ensures exitCode == 0 || exitCode == 1
    {
      ghost var start := cookiesPath;
      var replies: seq<map<string, Value>> := [];
      var stopped := false;
      var i := 0;
      while i < |lines|
        invariant 0 <= i <= |lines|
        invariant RunState(cookiesPath, replies, stopped) == RunLines(start, lines[..i], decode, files, extract)
        invariant !stopped
      {
        assert lines[..i + 1][..i] == lines[..i];
        var line := lines[i];
        if !IsBlank(line) {
          match decode(line) {
            case DecodeError(m) =>
              replies := replies + [ErrorResponse("Invalid JSON: " + m)];
            case Parsed(v) =>
              if !v.Object? {
                stopped := true;
                StoppedIsFinal(start, lines, i + 1, decode, files, extract);
                return [Pong] + replies, 1;
              }
              var reply := HandleCommand(v.fields, files, extract);
              replies := replies + [reply];
          }
        }
        i := i + 1;
      }
      assert lines[..i] == lines;
      return [Pong] + replies, 0;
    }
  }
}
