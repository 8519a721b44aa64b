# DownloaderBot media pipeline in Dafny

DownloaderBot is a Telegram bot that takes a link from a chat message, downloads the
media with yt-dlp, re-encodes it with ffmpeg to an H.264/AAC MP4 that Telegram plays
inline, and then either keeps the file on disk (over 50 MB) or sends it back with two
inline buttons, "Convert to MP3" and "Convert to MP4 (Low Quality)". Pressing a button
runs a second ffmpeg conversion on the registered file and sends or keeps the result.

This project models the pipeline of `bot.py`:

- `url_extraction.dfy` (`UrlExtraction`): the first link of a message, as
  `re.search(r"https?://\S+", text)` finds it — leftmost match, `https` tried before
  `http` at each position, the longest run of non-whitespace after the scheme, with
  Python's Unicode whitespace set.
- `path_names.dfy` (`PathNames`): POSIX `os.path.splitext`, the re-encode output
  `root + "_telegram.mp4"` and the names of the two conversion outputs.
- `ffmpeg_commands.dfy` (`FfmpegCommands`): the 21-element re-encode argument list, the
  in-place `insert(-1, …)` of `-vf scale=R` before the output path, and the two
  conversion commands with the `ValueError` for any other action.
- `size_gate.dfy` (`SizeGate`): the two thresholds on `size / (1024 * 1024)` megabytes,
  2000 (retry at 640:-1) and 50 (keep locally instead of sending).
- `callbacks.dfy` (`Callbacks`): callback data `f"{action}:{file_id}"`, Python's
  `str.split(":")`, and the handler's reading of `data[0]` and `data[1]`.
- `bot.dfy` (`Bot`): the two handlers. The class `MediaBot` holds the state the
  handlers change in place — the files on disk with their sizes, the `bot_data` map from
  ids to re-encoded paths, and the trace of outbound actions — and its methods
  `HandleUrlMessage` and `ConvertMedia` are proved equal to the step functions
  `AfterMessage` and `AfterCallback` on a `Snapshot` value. The lemmas state what the
  handlers promise in closed form: the fallback re-encode happens once and only over
  the 2000 MB ceiling, the 50 MB gate chooses between keeping and delivering, the
  download is removed exactly when a re-encode result reaches the size gate, on both of
  its branches and whether or not the upload succeeds, a delivered file's buttons
  resolve back to it, an unknown id changes nothing, and a conversion always consumes
  its id and its file.

The download engine, ffmpeg and the Telegram upload are not modelled: their outcomes
are parameters of the handlers (`Fetch`, `Run`, `uploaded`), and the id drawn from
`uuid.uuid4()` is a parameter `freshId` with the shape of a UUID string.

Three behaviours of `bot.py` shape the file lifecycle:

- A conversion attempt deletes the registered file and its id in `finally`
  (`bot.py:240-248`). Each delivered file can therefore be converted once, and the
  registered file itself is converted, not a copy.
- When a re-encode fails, the `except` branch (`bot.py:172-174`) does not remove the
  download, so it stays on disk. The download is removed only on the two branches of
  the size gate.
- The retry result goes through the same 50 MB gate as a first result
  (`bot.py:129-136`): a low-resolution re-encode of 1800 MB is kept locally and gets no
  id. A retry result still over 2000 MB is not retried again and is kept locally in
  the same way.

## Model

| member | source | states |
|---|---|---|
| UrlExtraction.IsSpace | bot.py:105 | no contract; defines the characters `\s` matches in a Python str pattern: the ASCII whitespace and separator controls, U+0085, U+00A0, U+1680, U+2000-U+200A, U+2028, U+2029, U+202F, U+205F and U+3000 |
| UrlExtraction.RunEnd | bot.py:105 | the greedy `\S+`: the run from a position has no whitespace and ends at whitespace or at the end of the text |
| UrlExtraction.BodyStart | bot.py:105 | the body starts right after "https://" or "http://" at the position, on a non-whitespace character; "https://" is tried first |
| UrlExtraction.NoTokenWithoutBody | bot.py:105 | where no body starts, no match starts either |
| UrlExtraction.TokenAtBody | bot.py:105 | where a body starts, the text up to the end of its run is a match |
| UrlExtraction.SearchFrom | bot.py:105 | the leftmost match at or after a position: a scheme followed by at least one non-whitespace character, extended to the longest such run; None exactly when no match starts there or later |
| UrlExtraction.ExtractUrl | bot.py:105-107 | the URL is a substring of the text made of `http://` or `https://` and at least one non-whitespace character; no match starts before it and no longer match starts where it does; there is none exactly when no substring of the text has that form |
| UrlExtraction.TokenIsLongest | bot.py:105 | the greedy `\S+` stops at whitespace or the end of the text, so no longer match starts at the same position |
| PathNames.RFind | bot.py:75 | the last index of a character, or -1 when it does not occur |
| PathNames.RFindAppend | bot.py:75 | the last occurrence in a concatenation lies in the right part when it has one |
| PathNames.SplitExt | bot.py:75 | root and extension concatenate to the path; the extension is empty or a dot followed by no dot and no slash; it is empty exactly when the last path component has no dot after a non-dot character, and otherwise the root's last component holds a non-dot character |
| PathNames.ReencodedPath | bot.py:75-76 | the re-encode output ends with "_telegram.mp4" and is never the input path, so it cannot overwrite the download |
| PathNames.ReencodedPathSharedIffSameRoot | bot.py:75-76 | two downloads share a re-encode output exactly when their roots are equal |
| PathNames.ReencodedPathSplits | bot.py:75-76 | splitting the re-encode output gives the input's root plus "_telegram" and the extension ".mp4" |
| PathNames.ConvertedNamesDiffer | bot.py:56-59 | neither conversion output ends with "_telegram.mp4", so a conversion never writes a re-encode output name |
| FfmpegCommands.ReencodeArgsShape | bot.py:77-92 | the plain command has 21 elements with the input at index 2 and the output last; a non-empty resolution inserts exactly "-vf" and "scale=R" before the output; an empty resolution adds nothing |
| FfmpegCommands.ReencodeArgs | bot.py:77-92 | no contract; defines the re-encode's argument list: "ffmpeg", "-i", the input, the fixed profile, "-y", then "-vf", "scale=R" when the resolution is truthy, then the output path |
| FfmpegCommands.InsertBeforeLast | bot.py:91-92 | `list.insert(-1, x)`: one element longer, everything before the last element unchanged, `x` next, the old last element still last; on an empty list the result is `[x]` |
| FfmpegCommands.ReencodeCommand | bot.py:75-92 | the command built and extended in place equals the reference argument list, and its output path differs from the input |
| FfmpegCommands.PlanConversion | bot.py:54-62 | a plan exists exactly for "mp3" and "mp4_low"; its output extends the input's path (".mp3" or ".low.mp4"); the command reads the input first and ends with "-y" and the output; mp3 drops the video, mp4_low scales to 640:-1 |
| SizeGate.ExceedsTelegramLimit | bot.py:122-126 | the retry condition holds exactly above 2000 * 2^20 bytes |
| SizeGate.KeepLocally | bot.py:136 | a file is kept locally exactly above 50 * 2^20 bytes, and a file that is sent is never over the Telegram ceiling |
| Callbacks.Split | bot.py:187 | at least one piece, exactly one when the separator is absent, no piece contains the separator, and joining the pieces gives the text back |
| Callbacks.SplitJoin | bot.py:187 | splitting undoes joining separator-free pieces |
| Callbacks.ParseCallback | bot.py:187-189 | the data reads as an action and an id exactly when it contains a colon; both are colon-free, the data starts with `action:id`, and the id ends at the end of the data or at the next colon |
| Callbacks.CallbackData | bot.py:152-153 | no contract; defines a button's data as the action, a colon and the id |
| Callbacks.Buttons | bot.py:151-153 | no contract; defines the data of the two buttons, "mp3:id" then "mp4_low:id" |
| Callbacks.IsUuidText | bot.py:147 | no contract; defines the text of `str(uuid.uuid4())`: 36 characters, hyphens at 8, 13, 18 and 23, lower-case hexadecimal digits elsewhere |
| Callbacks.CallbackRoundTrip | bot.py:152-189 | data built from a colon-free action and id reads back as that action and id |
| Callbacks.ButtonsRoundTrip | bot.py:147-153 | both buttons of a file registered under a UUID read back as "mp3" or "mp4_low" and that UUID |
| Bot.Retries | bot.py:126-131 | no contract; defines when the low-resolution re-encode runs: the first re-encode produced a file over the Telegram ceiling |
| Bot.PassedOn | bot.py:126-131 | no contract; defines the re-encode result that reaches the size gate: the retry's when it ran, else the first |
| Bot.AfterReencode | bot.py:118-133 | no contract; defines the re-encode step on a snapshot: the first ffmpeg run, and when its output is over 2000 MB the removal of that output and the run at 640:-1 |
| Bot.AfterGate | bot.py:136-170 | no contract; defines the size gate on a snapshot: over 50 MB the kept-locally reply, otherwise the id registered and the document offered with two buttons; the download removed either way |
| Bot.AfterUrl | bot.py:107-174 | no contract; defines `handle_url_message` once a URL is found: the download, the re-encode step, then the size gate or the failure reply |
| Bot.AfterMessage | bot.py:101-176 | no contract; defines `handle_url_message`: the "send a valid URL" reply when no URL is found, otherwise the steps of `AfterUrl` |
| Bot.AfterConversion | bot.py:203-239 | no contract; defines the `try` block of `convert_media`: the unsupported-action error, the ffmpeg run and its failures, then keep the output over 50 MB or offer it and remove it |
| Bot.Lookup | bot.py:190-194 | no contract; defines `bot_data.get(file_id)` read through `not original_filepath`: a missing id and an empty path are both not found |
| Bot.AfterCallback | bot.py:178-248 | no contract; defines `convert_media`: answer the query, parse the data, the "not found" edit or the conversion, then remove the file and the id |
| Bot.ConversionSparesRegisteredFiles | bot.py:54-62 | while every registered id names a "_telegram.mp4" file, a conversion's output is the path of no registered id, so converting never overwrites a registered file |
| Bot.NoUrlOnlyReplies | bot.py:105-176 | a message without a URL gets only the "send a valid URL" reply: no download, ffmpeg run, file or id |
| Bot.FallbackOnlyOverCeiling | bot.py:118-133 | the second re-encode, at 640:-1 and after removing the first output, runs exactly when the first result is over 2000 MB, and never a third; the files afterwards are given in closed form |
| Bot.ReachesGate | bot.py:113-135 | when a re-encode result reaches the size gate, the gate sees the download and the re-encode on disk and the ffmpeg runs of the fallback rule |
| Bot.KeepLocallyBranch | bot.py:136-144 | over 50 MB: no id is registered, the re-encode stays, the download is removed, and the reply names the kept file |
| Bot.DeliverBranch | bot.py:145-170 | at most 50 MB: a fresh id maps to the re-encode, the file is sent with the two buttons, the download is removed, and the id stays whether or not the upload succeeds |
| Bot.ButtonsResolveToDelivered | bot.py:147-190 | pressing either button of a delivered file reads back its action and id, and the id resolves to the delivered re-encode |
| Bot.ReencodeFailureKeepsDownload | bot.py:118-174 | when a re-encode fails, nothing is registered, the download stays, and a first output removed before the retry stays removed |
| Bot.UnknownHandleChangesNothing | bot.py:190-197 | an id that is missing or names an empty path gets the "not found" edit and changes no file and no map entry |
| Bot.ConversionTouchesOnlyOutput | bot.py:203-239 | a conversion changes no file but its own output, keeps that output exactly when it is over 50 MB, and leaves `bot_data` alone |
| Bot.ConversionConsumesHandle | bot.py:190-248 | after a button press on a registered id, on every outcome, the id is gone from `bot_data` and its file from disk; no other file changes except the conversion output, which remains exactly when it is over 50 MB |
| Bot.MediaBot.constructor | bot.py:258-263 | a new bot has the existing files, an empty `bot_data` and no actions, and satisfies the invariant |
| Bot.MediaBot.ReencodeWithFallback | bot.py:118-133 | the files and trace afterwards are those of the re-encode step, and the result handed on is the retry's when it ran |
| Bot.MediaBot.SizeGateStep | bot.py:136-170 | the new state is that of the size gate, and every id in `bot_data` stays a UUID naming a "_telegram.mp4" file |
| Bot.MediaBot.ProcessUrl | bot.py:107-174 | the new state is that of the handler from the found URL on, and the invariant is kept |
| Bot.MediaBot.HandleUrlMessage | bot.py:101-176 | the new state is that of `handle_url_message` on the message, and the invariant is kept |
| Bot.MediaBot.Convert | bot.py:203-239 | the new files and trace are those of the conversion's `try` block |
| Bot.MediaBot.ConvertMedia | bot.py:178-248 | the new state is that of `convert_media` on the callback data, and the invariant is kept |

## Left out

- `gofile.py` (an upload client the handlers do not call) is not part of this model.
- yt-dlp, ffmpeg and the Telegram API are not modelled; their outcomes are parameters.
  The yt-dlp options at `bot.py:38-45` are not modelled.
  A failed download or ffmpeg run is taken to create no file: partial output left by
  `ffmpeg -y` on failure is not modelled, nor is ffmpeg failing on an input that is gone.
- A download that yt-dlp writes over an existing path is modelled as that path taking
  the new size; yt-dlp's own naming (`%(title)s.%(ext)s`, restricted file names) is not.
- Concurrency: the thread pool, overlapping handler runs and interleaved `bot_data`
  updates are not modelled; each handler runs to completion before the next.
- The download progress hook, logging, the `/start` command, `main` and the bot token
  are not modelled.
- Message wording and the `:.2f` float formatting are not modelled; replies are kinds.
  Megabytes are compared on reals, which agrees with Python's float division for every
  size below 2^53 bytes.
- Failures of `reply_text` and `edit_message_text` themselves are not modelled; only the
  document upload's success or failure is a parameter.
- Callback data without a colon makes `data[1]` raise before the `try` block; the model
  ends the handler there after the query is answered, with no other change.
- Paths are POSIX paths; Windows `splitext` rules are not modelled.
- PlanConversion: its contract fixes the output names, the command's input, its final
  "-y output" and the flag that marks each conversion, not every codec flag; the rest of
  each command is fixed by its body.
- Bot.MediaBot.HandleUrlMessage: requires `freshId` to have the shape of
  `str(uuid.uuid4())`, which the model takes from its caller instead of drawing.
