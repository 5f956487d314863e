/** The stored configuration of the tool: a daily window given as two "HH:MM" strings,
    its default, and the validation `set` applies before storing it (src/main.rs). */
module Config {
  import opened Wrappers

  const SecondsPerDay: int := 86400

  /** A parsed time of day, in seconds since midnight. */
  type TimeOfDay = s: int | 0 <= s < SecondsPerDay

  /** The time-of-day parser both `set` and the generator apply to the stored strings
      (chrono's "%H:%M" format). It is supplied by the caller: its exact leniency is not
      part of this model, only that it either yields a time of day or fails. */
  type Parser = string -> Option<TimeOfDay>

  /** The persisted record: the two strings exactly as the user typed them. */
  datatype AppConfig = AppConfig(startTime: string, endTime: string)

  /** Why `set` refused a window. */
  datatype SetError =
    | MalformedStart(text: string)
    | MalformedEnd(text: string)
    | StartNotBeforeEnd

  /** The configuration in effect when none has been stored. */
  function DefaultConfig(): (c: AppConfig)
    ensures c.startTime == "00:00" && c.endTime == "02:00"
  {
    AppConfig("00:00", "02:00")
  }

  /** What loading the store yields: the stored record, or the default when nothing
      has been stored yet. */
  function Load(stored: Option<AppConfig>): (r: AppConfig)
    ensures stored.None? ==> r == DefaultConfig()
    ensures stored.Some? ==> r == stored.value
  {
    match stored
    case None => DefaultConfig()
    case Some(c) => c
  }

  /** Validation of `set <start> <end>`: both strings must parse (start first), the start
      must be strictly earlier than the end, and the record to store keeps the two
      strings unchanged. */
  function SetTimeRange(start: string, end: string, parse: Parser): (r: Result<AppConfig, SetError>)
    ensures r.Ok? <==> parse(start).Some? && parse(end).Some? && parse(start).value < parse(end).value
    ensures r.Ok? ==> r.value.startTime == start && r.value.endTime == end
    ensures r == Err(MalformedStart(start)) <==> parse(start).None?
    ensures r == Err(MalformedEnd(end)) <==> parse(start).Some? && parse(end).None?
    ensures r == Err(StartNotBeforeEnd) <==>
              parse(start).Some? && parse(end).Some? && parse(start).value >= parse(end).value
  {
    match parse(start)
    case None => Err(MalformedStart(start))
    case Some(s) =>
      match parse(end)
      case None => Err(MalformedEnd(end))
      case Some(e) =>
        if s >= e then Err(StartNotBeforeEnd) else Ok(AppConfig(start, end))
  }
}
