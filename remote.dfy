/** The RDS log service as the downloader sees it: the answers of its two calls.
    Each answer is either the exception the client raised or the response dictionary,
    reduced to the keys the script reads. */
module Remote {

  datatype Option<T> = None | Some(value: T)

  /** One entry of the listing: its LogFileName and its Size in bytes. */
  datatype LogFile = LogFile(name: string, size: int)

  /** Answer to one describe_db_log_files call: an exception, or the DescribeDBLogFiles list. */
  datatype ListResponse = ListFailure | Listed(files: seq<LogFile>)

  /** The LogFileData entry of a portion: the key is missing, present with None, or holds text. */
  datatype Data = Missing | Null | Text(text: string)

  /** Answer to one download_db_log_file_portion call: an exception, or a portion whose
      Marker and AdditionalDataPending keys may each be absent (None). */
  datatype ChunkResponse =
    | ChunkFailure
    | Portion(data: Data, marker: Option<string>, pending: Option<bool>)

  /** The text the service appends to a portion it had to cut short. */
  const TruncationSentinel: string := "[Your log message was truncated]\n"

  predicate EndsWith(s: string, suffix: string) {
    |suffix| <= |s| && s[|s| - |suffix|..] == suffix
  }

  /** The portion's text ends with the truncation sentinel (a literal suffix test). */
  predicate Truncated(d: Data) {
    d.Text? && EndsWith(d.text, TruncationSentinel)
  }

  /** What one accepted portion contributes to the output file. */
  function Written(d: Data): string {
    if d.Text? then d.text else []
  }
}
