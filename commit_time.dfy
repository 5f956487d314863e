/** The randomized commit time (src/main.rs, generate_random_commit_time).

    Local date-times are naive local seconds: a calendar day `d` and a time of day `s`
    make the instant `d * SecondsPerDay + s`. The clock reading keeps its sub-second part
    so that the comparison with the candidate is exact. The random draw is an argument. */
module CommitTime {
  import opened Wrappers
  import opened Config

  /** The current local time: whole naive local seconds and the nanoseconds past them. */
  datatype Instant = Instant(secs: int, nanos: nat)

  /** Why no commit time could be generated. */
  datatype GenError = UnparsableStart | UnparsableEnd | EmptyWindow

  /** The calendar day of a naive local second (floor division, also before the epoch). */
  function DayOf(t: int): int
  {
    t / SecondsPerDay
  }

  /** The time of day of a naive local second. */
  function TimeOfDayOf(t: int): TimeOfDay
  {
    t % SecondsPerDay
  }

  /** `t < now`, where `t` is a whole second and `now` may carry nanoseconds. */
  predicate Before(t: int, now: Instant)
  {
    t < now.secs || (t == now.secs && now.nanos > 0)
  }

  /** Today's date joined with a time of day. */
  function Today(now: Instant, time: TimeOfDay): int
  {
    DayOf(now.secs) * SecondsPerDay + time
  }

  /** Today's window start and end are the same date, so its length in seconds is the
      difference of the two times of day, whatever today is. */
  function WindowSeconds(now: Instant, start: TimeOfDay, end: TimeOfDay): (total: int)
    ensures total == end - start
    ensures total > 0 <==> start < end
  {
    Today(now, end) - Today(now, start)
  }

  /** The time before correction: today's window start plus the drawn offset. */
  function Candidate(now: Instant, start: TimeOfDay, offset: int): int
  {
    Today(now, start) + offset
  }

  /** The single correction: a candidate strictly before now moves one day later. */
  function Corrected(candidate: int, now: Instant): int
  {
    if Before(candidate, now) then candidate + SecondsPerDay else candidate
  }

  /** One generation from already parsed times and an offset drawn from [0, total]. */
  function GenerateFromTimes(start: TimeOfDay, end: TimeOfDay, now: Instant, offset: int): (r: Result<int, GenError>)
    requires start < end ==> 0 <= offset <= end - start
    ensures r.Err? <==> end <= start
    ensures r.Err? ==> r.error == EmptyWindow
    ensures r.Ok? ==> !Before(r.value, now)
    ensures r.Ok? ==> start <= TimeOfDayOf(r.value) <= end
    ensures r.Ok? ==> DayOf(now.secs) <= DayOf(r.value) <= DayOf(now.secs) + 1
  {
    var total := WindowSeconds(now, start, end);
    if total <= 0 then
      Err(EmptyWindow)
    else
      Ok(Corrected(Candidate(now, start, offset), now))
  }

  /** Before correction the candidate lies in today's window [start, end]. */
  lemma CandidateInTodaysWindow(now: Instant, start: TimeOfDay, end: TimeOfDay, offset: int)
    requires 0 <= offset <= end - start
    ensures Today(now, start) <= Candidate(now, start, offset) <= Today(now, end)
    ensures DayOf(Candidate(now, start, offset)) == DayOf(now.secs)
  {
  }

  /** The result is the candidate or the candidate plus exactly one day, and the day is
      added exactly when the candidate is strictly before now. */
  lemma ShiftedOnlyWhenBefore(start: TimeOfDay, end: TimeOfDay, now: Instant, offset: int)
    requires 0 <= offset <= end - start
    requires start < end
    ensures var c := Candidate(now, start, offset);
            GenerateFromTimes(start, end, now, offset) ==
              if Before(c, now) then Ok(c + SecondsPerDay) else Ok(c)
  {
  }

  /** A candidate equal to now to the second, with no sub-second part on the clock,
      is kept as it is. */
  lemma CandidateAtNowIsKept(start: TimeOfDay, end: TimeOfDay, now: Instant, offset: int)
    requires start < end && 0 <= offset <= end - start
    requires Candidate(now, start, offset) == now.secs && now.nanos == 0
    ensures GenerateFromTimes(start, end, now, offset) == Ok(now.secs)
  {
  }

  /** Run at or before today's window opens: the result stays today, at start + offset. */
  lemma RunBeforeWindowStaysToday(start: TimeOfDay, end: TimeOfDay, now: Instant, offset: int)
    requires start < end && 0 <= offset <= end - start
    requires !Before(Today(now, start), now)
    ensures GenerateFromTimes(start, end, now, offset) == Ok(Today(now, start) + offset)
  {
  }

  /** Run after today's window has closed: every draw lands on tomorrow's window. */
  lemma RunAfterWindowMovesToTomorrow(start: TimeOfDay, end: TimeOfDay, now: Instant, offset: int)
    requires start < end && 0 <= offset <= end - start
    requires Before(Today(now, end), now)
    ensures GenerateFromTimes(start, end, now, offset) == Ok(Today(now, start) + SecondsPerDay + offset)
  {
  }

  /** The correction repeated until the time is no longer before now: the reference
      against which the code's single shift is measured. */
  function Advance(t: int, now: Instant): int
    decreases now.secs - t
  {
    if Before(t, now) then Advance(t + SecondsPerDay, now) else t
  }

  /** The repeated correction yields the earliest instance of the same time of day, a
      whole number of days after `t`, that is not before now. */
  lemma {:induction false} AdvanceSettles(t: int, now: Instant)
    ensures var r := Advance(t, now);
            t <= r && (r - t) % SecondsPerDay == 0 && !Before(r, now) &&
            (r == t || Before(r - SecondsPerDay, now))
    decreases now.secs - t
  {
    if Before(t, now) {
      AdvanceSettles(t + SecondsPerDay, now);
    }
  }

  /** One shift is always enough: the candidate is never earlier than today's midnight,
      so the single correction agrees with the repeated one, for every window and draw. */
  lemma SingleShiftSuffices(start: TimeOfDay, end: TimeOfDay, now: Instant, offset: int)
    requires start < end && 0 <= offset <= end - start
    ensures GenerateFromTimes(start, end, now, offset) == Ok(Advance(Candidate(now, start, offset), now))
  {
  }

  /** The random draw `rng.random_range(0..=total)`, supplied as a function of `total`. */
  ghost predicate IsDraw(draw: int -> int)
  {
    forall total :: 0 < total ==> 0 <= draw(total) <= total
  }

  /** Generation from the stored configuration: both strings parsed (start first), then
      the window arithmetic with the drawn offset. */
  function Generate(cfg: AppConfig, parse: Parser, now: Instant, draw: int -> int): (r: Result<int, GenError>)
    requires IsDraw(draw)
    ensures r == Err(UnparsableStart) <==> parse(cfg.startTime).None?
    ensures r == Err(UnparsableEnd) <==> parse(cfg.startTime).Some? && parse(cfg.endTime).None?
    ensures r == Err(EmptyWindow) <==>
              parse(cfg.startTime).Some? && parse(cfg.endTime).Some? &&
              parse(cfg.endTime).value <= parse(cfg.startTime).value
    ensures r.Ok? ==> !Before(r.value, now)
    ensures r.Ok? ==>
              parse(cfg.startTime).value <= TimeOfDayOf(r.value) <= parse(cfg.endTime).value
    ensures r.Ok? ==>
              var s := parse(cfg.startTime).value;
              var e := parse(cfg.endTime).value;
              TimeOfDayOf(r.value) == s + draw(e - s) &&
              DayOf(now.secs) <= DayOf(r.value) <= DayOf(now.secs) + 1 &&
              (DayOf(r.value) == DayOf(now.secs) + 1 <==> Before(Today(now, s) + draw(e - s), now))
  {
    match parse(cfg.startTime)
    case None => Err(UnparsableStart)
    case Some(s) =>
      match parse(cfg.endTime)
      case None => Err(UnparsableEnd)
      case Some(e) => GenerateFromTimes(s, e, now, draw(e - s))
  }

  /** A window that `set` accepted never makes generation fail, with the same parser,
      any clock reading and any draw. */
  lemma StoredWindowAlwaysGenerates(start: string, end: string, parse: Parser, now: Instant, draw: int -> int)
    requires IsDraw(draw)
    requires SetTimeRange(start, end, parse).Ok?
    ensures Generate(SetTimeRange(start, end, parse).value, parse, now, draw).Ok?
  {
  }
}
