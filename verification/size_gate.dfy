/**
 * The two size thresholds of the pipeline. The source compares float megabytes,
 * `size / (1024 * 1024)`, against 2000 (the Telegram ceiling that triggers the
 * low-resolution retry) and 50 (above which a file is kept locally instead of sent).
 * The division is written here on reals; it agrees with the float division for every
 * size below 2^53 bytes, because dividing by a power of two is exact there.
 */
module SizeGate {

  const BytesPerMb: nat := 1024 * 1024
  const TelegramFileLimitMb: nat := 2000
  const LocalSaveLimitMb: nat := 50

  function SizeMb(bytes: nat): real
  {
    bytes as real / (1024.0 * 1024.0)
  }

  /** The retry condition: more than 2000 MB, i.e. more than 2000 * 2^20 bytes. */
  function ExceedsTelegramLimit(bytes: nat): (over: bool)
    ensures over <==> bytes > TelegramFileLimitMb * BytesPerMb
  {
    SizeMb(bytes) > TelegramFileLimitMb as real
  }

  /** The size gate: strictly more than 50 MB keeps the file locally; exactly 50 MB
      (52428800 bytes) is still delivered. */
  function KeepLocally(bytes: nat): (keep: bool)
    ensures keep <==> bytes > LocalSaveLimitMb * BytesPerMb
    ensures !keep ==> !ExceedsTelegramLimit(bytes)
  {
    SizeMb(bytes) > LocalSaveLimitMb as real
  }
}
