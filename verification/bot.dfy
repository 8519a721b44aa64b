/**
 * The two Telegram handlers of the bot, run one after the other: the message handler
 * (find a URL, download it, re-encode it, retry once at 640 pixels wide when the result
 * is over the Telegram ceiling, then keep it locally or send it with two conversion
 * buttons) and the button handler (look the file up by its id, convert it, keep or send
 * the result, and always drop the registered file and its id).
 *
 * State: the files on disk with their sizes, the `bot_data` map from ids to re-encoded
 * paths, and the trace of outbound actions (replies and edits, downloads, ffmpeg runs,
 * document uploads). The download engine, ffmpeg and the upload are not modelled: their
 * outcomes are parameters of the handlers.
 */
module Bot {
  import opened Wrappers
  import opened UrlExtraction
  import opened PathNames
  import opened FfmpegCommands
  import opened SizeGate
  import opened Callbacks

  /** What the download engine reports: the downloaded file and its size, or an error. */
  datatype Fetch = Fetched(path: string, size: nat) | FetchFailed

  /** What one ffmpeg run reports: the output's size, a non-zero exit, or no output file. */
  datatype Run = Produced(size: nat) | ExitedNonZero | OutputMissing

  /** The kinds of text the bot sends or edits in; the wording is not modelled. */
  datatype Reply =
    | AskForValidUrl
    | Attempting(url: string)
    | DownloadFailed(url: string)
    | SavedLocally(path: string)
    | DownloadSent
    | UploadFailed
    | HandleNotFound
    | Converting(path: string, action: string)
    | ConvertedSavedLocally(path: string)
    | ConversionSent
    | ConvertedUploadFailed
    | ConversionFailed
    | UnexpectedError

  /** One outbound action of a handler, in the order the handler takes them.
      `SentDocument` records an upload attempt, whether or not the upload succeeded; the
      reply that follows it says which. */
  datatype Action =
    | Said(reply: Reply)
    | RanDownload(url: string)
    | RanFfmpeg(command: seq<string>)
    | SentDocument(path: string, buttons: seq<string>)
    | AnsweredQuery

  /** The bot's state as a value: files on disk with their sizes, `bot_data`, and the
      outbound actions so far. */
  datatype Snapshot = Snapshot(files: map<string, nat>, botData: map<string, string>, trace: seq<Action>)

  /** The resolution of the one fallback re-encode. */
  const LowResolution := "640:-1"

  /** Whether the first re-encode is followed by the low-resolution one. */
  function Retries(first: Run): bool
  {
    first.Produced? && ExceedsTelegramLimit(first.size)
  }

  /** The re-encode result that reaches the size gate; the retry's result is not checked
      against the ceiling again. */
  function PassedOn(first: Run, lowRes: Run): Run
  {
    if Retries(first) then lowRes else first
  }

  /** The ffmpeg runs of one message whose download succeeded. */
  function Reencodes(download: string, first: Run): seq<Action>
  {
    [RanFfmpeg(ReencodeArgs(download, None))]
    + if Retries(first) then [RanFfmpeg(ReencodeArgs(download, Some(LowResolution)))] else []
  }

  // ---------------------------------------------------------------------------
  // The handlers, step by step, on snapshots.

  /** The re-encode step: re-encode the download; when the result is over 2000 MB,
      remove it and re-encode once more at 640:-1. */
  function AfterReencode(s: Snapshot, download: string, first: Run, lowRes: Run): Snapshot
  {
    var output := ReencodedPath(download);
    var s1 := s.(trace := s.trace + [RanFfmpeg(ReencodeArgs(download, None))]);
    match first
    case Produced(size) =>
      if ExceedsTelegramLimit(size) then
        var s2 := s1.(files := s1.files[output := size] - {output},
                      trace := s1.trace + [RanFfmpeg(ReencodeArgs(download, Some(LowResolution)))]);
        if lowRes.Produced? then s2.(files := s2.files[output := lowRes.size]) else s2
      else
        s1.(files := s1.files[output := size])
    case _ => s1
  }

  /** The size gate of `handle_url_message`: over 50 MB the re-encode is kept and
      reported, otherwise it is registered under `freshId` and offered for upload with
      the two conversion buttons; the download is removed either way. */
  function AfterGate(s: Snapshot, download: string, size: nat, freshId: string, uploaded: bool): Snapshot
  {
    var output := ReencodedPath(download);
    if KeepLocally(size) then
      s.(trace := s.trace + [Said(SavedLocally(output))], files := s.files - {download})
    else
      s.(botData := s.botData[freshId := output],
         trace := s.trace + [SentDocument(output, Buttons(freshId)),
                             Said(if uploaded then DownloadSent else UploadFailed)],
         files := s.files - {download})
  }

  /** The rest of `handle_url_message` once a URL has been found in the message. */
  function AfterUrl(s: Snapshot, url: string, fetch: Fetch, first: Run, lowRes: Run, freshId: string, uploaded: bool): Snapshot
  {
    var s1 := s.(trace := s.trace + [Said(Attempting(url)), RanDownload(url)]);
    match fetch
    case FetchFailed => s1.(trace := s1.trace + [Said(DownloadFailed(url))])
    case Fetched(download, downloadSize) =>
      var s2 := AfterReencode(s1.(files := s1.files[download := downloadSize]), download, first, lowRes);
      match PassedOn(first, lowRes)
      case Produced(size) => AfterGate(s2, download, size, freshId, uploaded)
      case _ => s2.(trace := s2.trace + [Said(DownloadFailed(url))])
  }

  /** `handle_url_message`. */
  function AfterMessage(s: Snapshot, text: string, fetch: Fetch, first: Run, lowRes: Run, freshId: string, uploaded: bool): Snapshot
  {
    match ExtractUrl(text)
    case None => s.(trace := s.trace + [Said(AskForValidUrl)])
    case Some(url) => AfterUrl(s, url, fetch, first, lowRes, freshId, uploaded)
  }

  /** The `try` block of `convert_media`: plan and run the conversion, then keep the
      output when it is over 50 MB, or offer it for upload and remove it. */
  function AfterConversion(s: Snapshot, original: string, action: string, run: Run, uploaded: bool): Snapshot
  {
    match PlanConversion(original, action)
    case Err(_) => s.(trace := s.trace + [Said(UnexpectedError)])
    case Ok(plan) =>
      var s1 := s.(trace := s.trace + [RanFfmpeg(plan.command)]);
      match run
      case ExitedNonZero => s1.(trace := s1.trace + [Said(ConversionFailed)])
      case OutputMissing => s1.(trace := s1.trace + [Said(UnexpectedError)])
      case Produced(size) =>
        if KeepLocally(size) then
          s1.(files := s1.files[plan.output := size],
              trace := s1.trace + [Said(ConvertedSavedLocally(plan.output))])
        else
          s1.(files := s1.files[plan.output := size] - {plan.output},
              trace := s1.trace + [SentDocument(plan.output, []),
                                   Said(if uploaded then ConversionSent else ConvertedUploadFailed)])
  }

  /** The file a callback's id names, as `convert_media` reads it: missing ids and empty
      paths both count as not found. */
  function Lookup(botData: map<string, string>, fileId: string): Option<string>
  {
    if fileId in botData && botData[fileId] != "" then Some(botData[fileId]) else None
  }

  /** `convert_media`. */
  function AfterCallback(s: Snapshot, data: string, run: Run, uploaded: bool): Snapshot
  {
    var s1 := s.(trace := s.trace + [AnsweredQuery]);
    match ParseCallback(data)
    case None => s1
    case Some((action, fileId)) =>
      match Lookup(s1.botData, fileId)
      case None => s1.(trace := s1.trace + [Said(HandleNotFound)])
      case Some(original) =>
        var s2 := AfterConversion(s1.(trace := s1.trace + [Said(Converting(original, action))]),
                                  original, action, run, uploaded);
        s2.(files := s2.files - {original}, botData := s2.botData - {fileId})
  }

  // ---------------------------------------------------------------------------
  // What the handlers promise.

  /** A message without a URL gets the reply asking for one and nothing else: no
      download, no ffmpeg run, no file and no handle. */
  lemma NoUrlOnlyReplies(s: Snapshot, text: string, fetch: Fetch, first: Run, lowRes: Run, freshId: string, uploaded: bool)
    requires ExtractUrl(text).None?
    ensures var t := AfterMessage(s, text, fetch, first, lowRes, freshId, uploaded);
      t.files == s.files && t.botData == s.botData && t.trace == s.trace + [Said(AskForValidUrl)]
  {
  }

  /** A message's download is re-encoded at most twice: a second time, at 640:-1 and
      after removing the first output, exactly when the first result is over 2000 MB;
      the second result is passed on whatever its size. */
  lemma FallbackOnlyOverCeiling(s: Snapshot, download: string, first: Run, lowRes: Run)
    ensures var t := AfterReencode(s, download, first, lowRes);
      && t.trace == s.trace + Reencodes(download, first)
      && |Reencodes(download, first)| == (if first.Produced? && first.size > 2000 * 1048576 then 2 else 1)
      && t.files == (match PassedOn(first, lowRes)
           case Produced(size) => s.files[ReencodedPath(download) := size]
           case _ => if Retries(first) then s.files - {ReencodedPath(download)} else s.files)
  {
    var output := ReencodedPath(download);
    if Retries(first) {
      assert ExceedsTelegramLimit(first.size) <==> first.size > 2000 * 1048576;
      OverwriteThenRemove(s.files, output, first.size);
    } else if first.Produced? {
      assert !(first.size > 2000 * 1048576);
    }
  }

  /** Writing a path and then removing it is the same as only removing it. */
  lemma OverwriteThenRemove(files: map<string, nat>, path: string, size: nat)
    ensures files[path := size] - {path} == files - {path}
  {
  }

  /** Adding the download and then its re-encode, and finally removing the download,
      leaves the re-encode added to what was there without the download. */
  lemma AddThenRemove(files: map<string, nat>, download: string, downloadSize: nat, output: string, size: nat)
    requires output != download
    ensures files[download := downloadSize][output := size] - {download} == (files - {download})[output := size]
  {
  }

  /** When the re-encode step produces a file, the size gate sees the download and that
      file on disk and the ffmpeg runs of the fallback rule in the trace. */
  lemma ReachesGate(s: Snapshot, url: string, download: string, downloadSize: nat, first: Run, lowRes: Run, freshId: string, uploaded: bool)
    requires PassedOn(first, lowRes).Produced?
    ensures var size := PassedOn(first, lowRes).size;
      AfterUrl(s, url, Fetched(download, downloadSize), first, lowRes, freshId, uploaded)
      == AfterGate(Snapshot(s.files[download := downloadSize][ReencodedPath(download) := size], s.botData,
                            s.trace + [Said(Attempting(url)), RanDownload(url)] + Reencodes(download, first)),
                   download, size, freshId, uploaded)
  {
    var s1 := s.(trace := s.trace + [Said(Attempting(url)), RanDownload(url)]);
    FallbackOnlyOverCeiling(s1.(files := s1.files[download := downloadSize]), download, first, lowRes);
  }

  /** Over 50 MB: no handle, the re-encode kept, the download removed. Exactly 50 MB
      goes to the other branch. */
  lemma KeepLocallyBranch(s: Snapshot, url: string, download: string, downloadSize: nat, first: Run, lowRes: Run, freshId: string, uploaded: bool)
    requires PassedOn(first, lowRes).Produced? && KeepLocally(PassedOn(first, lowRes).size)
    ensures var t := AfterUrl(s, url, Fetched(download, downloadSize), first, lowRes, freshId, uploaded);
      var output := ReencodedPath(download);
      && t.botData == s.botData
      && t.files == (s.files - {download})[output := PassedOn(first, lowRes).size]
      && t.trace == s.trace + [Said(Attempting(url)), RanDownload(url)] + Reencodes(download, first)
                    + [Said(SavedLocally(output))]
  {
    ReachesGate(s, url, download, downloadSize, first, lowRes, freshId, uploaded);
    AddThenRemove(s.files, download, downloadSize, ReencodedPath(download), PassedOn(first, lowRes).size);
  }

  /** At most 50 MB: a fresh id maps to the re-encode, the download is removed, and the
      handle stays whether or not the upload succeeds. */
  lemma DeliverBranch(s: Snapshot, url: string, download: string, downloadSize: nat, first: Run, lowRes: Run, freshId: string, uploaded: bool)
    requires PassedOn(first, lowRes).Produced? && !KeepLocally(PassedOn(first, lowRes).size)
    ensures var t := AfterUrl(s, url, Fetched(download, downloadSize), first, lowRes, freshId, uploaded);
      var output := ReencodedPath(download);
      && t.botData == s.botData[freshId := output]
      && t.files == (s.files - {download})[output := PassedOn(first, lowRes).size]
      && t.trace == s.trace + [Said(Attempting(url)), RanDownload(url)] + Reencodes(download, first)
                    + [SentDocument(output, Buttons(freshId)), Said(if uploaded then DownloadSent else UploadFailed)]
  {
    ReachesGate(s, url, download, downloadSize, first, lowRes, freshId, uploaded);
    AddThenRemove(s.files, download, downloadSize, ReencodedPath(download), PassedOn(first, lowRes).size);
  }

  /** Pressing either button of a delivered file finds that file: the button's data
      reads back as its action and the fresh id, and the id resolves to the re-encode. */
  lemma ButtonsResolveToDelivered(s: Snapshot, url: string, download: string, downloadSize: nat, first: Run, lowRes: Run, freshId: string, uploaded: bool)
    requires PassedOn(first, lowRes).Produced? && !KeepLocally(PassedOn(first, lowRes).size)
    requires IsUuidText(freshId)
    ensures var t := AfterUrl(s, url, Fetched(download, downloadSize), first, lowRes, freshId, uploaded);
      && ParseCallback(Buttons(freshId)[0]) == Some(("mp3", freshId))
      && ParseCallback(Buttons(freshId)[1]) == Some(("mp4_low", freshId))
      && Lookup(t.botData, freshId) == Some(ReencodedPath(download))
  {
    ButtonsRoundTrip(freshId);
    DeliverBranch(s, url, download, downloadSize, first, lowRes, freshId, uploaded);
  }

  /** When a re-encode fails, nothing is registered and the download stays on disk. */
  lemma ReencodeFailureKeepsDownload(s: Snapshot, url: string, download: string, downloadSize: nat, first: Run, lowRes: Run, freshId: string, uploaded: bool)
    requires !PassedOn(first, lowRes).Produced?
    ensures var t := AfterUrl(s, url, Fetched(download, downloadSize), first, lowRes, freshId, uploaded);
      && t.botData == s.botData
      && download in t.files && t.files[download] == downloadSize
      && (ReencodedPath(download) in t.files <==> !Retries(first) && ReencodedPath(download) in s.files)
  {
    assert ReencodedPath(download) != download;
  }

  /** An id that is not registered gets the "not found" edit: no conversion runs and no
      file or map entry changes. */
  lemma UnknownHandleChangesNothing(s: Snapshot, data: string, run: Run, uploaded: bool)
    requires ParseCallback(data).Some? && Lookup(s.botData, ParseCallback(data).value.1).None?
    ensures var t := AfterCallback(s, data, run, uploaded);
      t.files == s.files && t.botData == s.botData && t.trace == s.trace + [AnsweredQuery, Said(HandleNotFound)]
  {
  }

  /** A conversion writes or removes its own output and touches no other file. */
  lemma ConversionTouchesOnlyOutput(s: Snapshot, original: string, action: string, run: Run, uploaded: bool)
    ensures var t := AfterConversion(s, original, action, run, uploaded);
      var plan := PlanConversion(original, action);
      && t.botData == s.botData
      && (forall p :: p in s.files && !(plan.Ok? && p == plan.value.output) ==> p in t.files && t.files[p] == s.files[p])
      && (forall p :: p in t.files ==> p in s.files || (plan.Ok? && p == plan.value.output))
      && (plan.Ok? && run.Produced? ==> (plan.value.output in t.files <==> KeepLocally(run.size)))
  {
  }

  /** A registered id is consumed on every outcome: its entry and its file are gone
      afterwards, and the converted file remains only when it is over 50 MB. */
  lemma ConversionConsumesHandle(s: Snapshot, data: string, run: Run, uploaded: bool)
    requires ParseCallback(data).Some? && Lookup(s.botData, ParseCallback(data).value.1).Some?
    ensures var t := AfterCallback(s, data, run, uploaded);
      var (action, fileId) := ParseCallback(data).value;
      var original := s.botData[fileId];
      && t.botData == s.botData - {fileId}
      && original !in t.files
      && (forall p :: p != original && p in s.files && !(PlanConversion(original, action).Ok? && p == PlanConversion(original, action).value.output) ==> p in t.files && t.files[p] == s.files[p])
      && (PlanConversion(original, action).Ok? ==>
            var output := PlanConversion(original, action).value.output;
            run.Produced? ==> (output in t.files <==> KeepLocally(run.size)))
  {
    var (action, fileId) := ParseCallback(data).value;
    var original := s.botData[fileId];
    var s1 := s.(trace := s.trace + [AnsweredQuery, Said(Converting(original, action))]);
    assert s1.trace == s.trace + [AnsweredQuery] + [Said(Converting(original, action))];
    ConversionTouchesOnlyOutput(s1, original, action, run, uploaded);
  }

  /** Every id in `bot_data` is a UUID string and names a re-encode output. */
  predicate WellFormedRegistry(botData: map<string, string>)
  {
    forall id :: id in botData ==> IsUuidText(id) && EndsWith(botData[id], ReencodeSuffix)
  }

  /** A conversion never writes over a file that an id refers to: its output is not the
      path of any registered id, the one being converted included. */
  lemma ConversionSparesRegisteredFiles(botData: map<string, string>, original: string, action: string)
    requires WellFormedRegistry(botData)
    requires PlanConversion(original, action).Ok?
    ensures forall id :: id in botData ==> botData[id] != PlanConversion(original, action).value.output
  {
    ConvertedNamesDiffer(original);
  }

  // ---------------------------------------------------------------------------
  // The bot.

  class MediaBot {
    var files: map<string, nat>
    var botData: map<string, string>
    var trace: seq<Action>

    ghost function State(): Snapshot
      reads this
    {
      Snapshot(files, botData, trace)
    }

    ghost predicate Valid()
      reads this
    {
      WellFormedRegistry(botData)
    }

    /** A bot started over a download directory that already holds `existing`. */
    constructor (existing: map<string, nat>)
      ensures Valid()
      ensures State() == Snapshot(existing, map[], [])
    {
      files := existing;
      botData := map[];
      trace := [];
    }

    /** The re-encode step, with the command built in place by `ReencodeCommand`. */
    method ReencodeWithFallback(download: string, first: Run, lowRes: Run) returns (output: string, result: Run)
      modifies this`files, this`trace
      ensures output == ReencodedPath(download) && result == PassedOn(first, lowRes)
      ensures State() == AfterReencode(old(State()), download, first, lowRes)
    {
      var command;
      output, command := ReencodeCommand(download, None);
      trace := trace + [RanFfmpeg(command)];
      result := first;
      if !first.Produced? {
        return;
      }
      files := files[output := first.size];
      if ExceedsTelegramLimit(first.size) {
        files := files - {output};
        output, command := ReencodeCommand(download, Some(LowResolution));
        trace := trace + [RanFfmpeg(command)];
        result := lowRes;
        if lowRes.Produced? {
          files := files[output := lowRes.size];
        }
      }
    }

    /** `handle_url_message` from the point where a URL has been found. */
    method ProcessUrl(url: string, fetch: Fetch, first: Run, lowRes: Run, freshId: string, uploaded: bool)
      requires Valid() && IsUuidText(freshId)
      modifies this
      ensures Valid()
      ensures State() == AfterUrl(old(State()), url, fetch, first, lowRes, freshId, uploaded)
    {
      trace := trace + [Said(Attempting(url)), RanDownload(url)];
      if fetch.FetchFailed? {
        trace := trace + [Said(DownloadFailed(url))];
        return;
      }
      var filepath := fetch.path;
      files := files[filepath := fetch.size];
      var reencoded, result := ReencodeWithFallback(filepath, first, lowRes);
      if !result.Produced? {
        trace := trace + [Said(DownloadFailed(url))];
        return;
      }
      SizeGateStep(filepath, reencoded, result.size, freshId, uploaded);
    }

    /** The size gate, for the download `filepath` and its re-encode `reencoded`. */
    method SizeGateStep(filepath: string, reencoded: string, size: nat, freshId: string, uploaded: bool)
      requires Valid() && IsUuidText(freshId) && reencoded == ReencodedPath(filepath)
      modifies this
      ensures Valid()
      ensures State() == AfterGate(old(State()), filepath, size, freshId, uploaded)
    {
      if KeepLocally(size) {
        trace := trace + [Said(SavedLocally(reencoded))];
        files := files - {filepath};
      } else {
        botData := botData[freshId := reencoded];
        trace := trace + [SentDocument(reencoded, Buttons(freshId))];
        trace := trace + [Said(if uploaded then DownloadSent else UploadFailed)];
        files := files - {filepath};
      }
    }

    /** `handle_url_message`, with `fetch`, `first`, `lowRes` and `uploaded` the outcomes
        of the download, the two re-encodes and the upload, and `freshId` the
        `uuid.uuid4()` drawn for the handle. */
    method HandleUrlMessage(text: string, fetch: Fetch, first: Run, lowRes: Run, freshId: string, uploaded: bool)
      requires Valid() && IsUuidText(freshId)
      modifies this
      ensures Valid()
      ensures State() == AfterMessage(old(State()), text, fetch, first, lowRes, freshId, uploaded)
    {
      var found := ExtractUrl(text);
      if found.None? {
        trace := trace + [Said(AskForValidUrl)];
      } else {
        ProcessUrl(found.value, fetch, first, lowRes, freshId, uploaded);
      }
    }

    /** The `try` block of `convert_media`. */
    method Convert(original: string, action: string, run: Run, uploaded: bool)
      modifies this`files, this`trace
      ensures State() == AfterConversion(old(State()), original, action, run, uploaded)
    {
      var plan := PlanConversion(original, action);
      if plan.Err? {
        trace := trace + [Said(UnexpectedError)];
        return;
      }
      var output := plan.value.output;
      trace := trace + [RanFfmpeg(plan.value.command)];
      match run
      case ExitedNonZero =>
        trace := trace + [Said(ConversionFailed)];
      case OutputMissing =>
        trace := trace + [Said(UnexpectedError)];
      case Produced(size) =>
        files := files[output := size];
        if KeepLocally(size) {
          trace := trace + [Said(ConvertedSavedLocally(output))];
        } else {
          trace := trace + [SentDocument(output, [])];
          trace := trace + [Said(if uploaded then ConversionSent else ConvertedUploadFailed)];
          files := files - {output};
        }
    }

    /** `convert_media`, with `run` the outcome of the conversion's ffmpeg run and
        `uploaded` that of the upload. */
    method ConvertMedia(data: string, run: Run, uploaded: bool)
      requires Valid()
      modifies this
      ensures Valid()
      ensures State() == AfterCallback(old(State()), data, run, uploaded)
    {
      trace := trace + [AnsweredQuery];
      var parsed := ParseCallback(data);
      if parsed.None? {
        return;
      }
      var action, fileId := parsed.value.0, parsed.value.1;
      if fileId !in botData || botData[fileId] == "" {
        trace := trace + [Said(HandleNotFound)];
        return;
      }
      var original := botData[fileId];
      trace := trace + [Said(Converting(original, action))];
      Convert(original, action, run, uploaded);
      files := files - {original};
      botData := botData - {fileId};
    }
  }
}
