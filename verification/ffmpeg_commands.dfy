/**
 * The ffmpeg argument lists: the re-encode to a Telegram-friendly MP4 (with an
 * optional scale filter inserted in place before the output path) and the two
 * follow-up conversions selected by the callback's action.
 */
module FfmpegCommands {
  import opened Wrappers
  import opened PathNames

  /** The fixed codec profile of the re-encode: H.264 at CRF 28 capped at 1000k with a
      2000k buffer, AAC audio at 64k, and the index moved to the front for streaming. */
  const ReencodeProfile: seq<string> := [
    "-c:v", "libx264", "-preset", "fast", "-crf", "28", "-maxrate", "1000k",
    "-bufsize", "2000k", "-c:a", "aac", "-b:a", "64k", "-movflags", "faststart"
  ]

  /** Python's truth value of the optional resolution: None and "" are false. */
  predicate HasResolution(resolution: Option<string>)
  {
    resolution.Some? && resolution.value != ""
  }

  /** The arguments the re-encode passes to ffmpeg: the fixed list, with
      "-vf", "scale=R" just before the output path when a resolution R is given. */
  function ReencodeArgs(input: string, resolution: Option<string>): seq<string>
  {
    ["ffmpeg", "-i", input] + ReencodeProfile + ["-y"]
    + (if HasResolution(resolution) then ["-vf", "scale=" + resolution.value] else [])
    + [ReencodedPath(input)]
  }

  /** Without a resolution the list has 21 elements, reads the input at index 2 and
      writes the output last; a resolution inserts exactly "-vf" and "scale=R" before
      the output and leaves every earlier element as it was. */
  lemma ReencodeArgsShape(input: string, r: string)
    requires r != ""
    ensures var plain := ReencodeArgs(input, None);
      && |plain| == 21
      && plain[2] == input && plain[20] == ReencodedPath(input)
      && ReencodeArgs(input, Some(r)) == plain[..20] + ["-vf", "scale=" + r] + [plain[20]]
      && ReencodeArgs(input, Some("")) == plain
  {
  }

  /** Python's `list.insert(-1, x)`: `x` goes just before the last element
      (at the front of an empty list). */
  function InsertBeforeLast(s: seq<string>, x: string): (r: seq<string>)
    ensures |r| == |s| + 1
    ensures |s| > 0 ==> r[..|s| - 1] == s[..|s| - 1] && r[|s| - 1] == x && r[|s|] == s[|s| - 1]
    ensures |s| == 0 ==> r == [x]
  {
    var k := if |s| == 0 then 0 else |s| - 1;
    s[..k] + [x] + s[k..]
  }

  /** The command building of `_blocking_reencode_video`: the list is built, then the
      scale filter is inserted into it in place when a resolution is given. */
  method ReencodeCommand(input: string, resolution: Option<string>) returns (output: string, command: seq<string>)
    ensures output == ReencodedPath(input) && output != input
    ensures command == ReencodeArgs(input, resolution)
  {
    output := ReencodedPath(input);
    command := ["ffmpeg", "-i", input] + ReencodeProfile + ["-y", output];
    if resolution.Some? && resolution.value != "" {
      command := InsertBeforeLast(command, "-vf");
      command := InsertBeforeLast(command, "scale=" + resolution.value);
    }
  }

  datatype ConvertError = UnsupportedConversion

  /** What a conversion writes and the ffmpeg command that writes it. */
  datatype ConvertPlan = ConvertPlan(output: string, command: seq<string>)

  /** The selection of `_blocking_convert_media`: "mp3" extracts the audio at 128k and
      44100 Hz into `input + ".mp3"`, "mp4_low" scales to width 640 at CRF 28 into
      `input + ".low.mp4"`; any other action is a ValueError. */
  function PlanConversion(input: string, action: string): (r: Result<ConvertPlan, ConvertError>)
    ensures r.Ok? <==> action == "mp3" || action == "mp4_low"
    ensures r.Ok? ==>
      && |r.value.output| > |input| && r.value.output[..|input|] == input
      && |r.value.command| >= 5
      && r.value.command[..3] == ["ffmpeg", "-i", input]
      && r.value.command[|r.value.command| - 2..] == ["-y", r.value.output]
    ensures action == "mp3" ==> r.value.output == input + ".mp3" && "-vn" in r.value.command
    ensures action == "mp4_low" ==> r.value.output == input + ".low.mp4" && "scale=640:-1" in r.value.command
  {
    if action == "mp3" then
      var output := input + ".mp3";
      Ok(ConvertPlan(output, ["ffmpeg", "-i", input, "-vn", "-ab", "128k", "-ar", "44100", "-y", output]))
    else if action == "mp4_low" then
      var output := input + ".low.mp4";
      Ok(ConvertPlan(output, ["ffmpeg", "-i", input, "-vf", "scale=640:-1", "-crf", "28", "-y", output]))
    else
      Err(UnsupportedConversion)
  }
}
