# git-touchfish-commit, modelled in Dafny

`git-tc` wraps `git commit`. It gives each commit a random author and committer time
inside a daily window that the user configures, for example 00:00-02:00. This project
models the tool's single Rust file, `src/main.rs`. The model is pure functions and lemmas:
- `Config` (`config.dfy`): the stored two-string window, its default, and the
  validation that `set <start> <end>` applies.
- `CommitTime` (`commit_time.dfy`): the generation of the random commit time.
  Today's window is the current date joined with the two times of day. Its length in
  seconds must be positive. A drawn offset in `[0, length]` is added to the window
  start. A result strictly before the current time moves forward exactly one day.
- `Cli` (`cli.dfy`): what the argument list selects (usage, the `set` hint, `set`,
  `show`, `amend`, or a plain commit). It also builds the git argument list and the
  two date variables, and gives the overall effect of one run.
- `Wrappers` (`wrappers.dfy`): `Option` and `Result`.

Local date-times are naive local seconds: day `d` at time of day `s` is
`d * 86400 + s`. The current time keeps its nanoseconds, so the test "candidate <
now" is exact. A candidate equal to `now` to the second is moved only when the clock
reading has a sub-second part.

Some things are passed in as arguments rather than modelled:
- the time parser (chrono's `"%H:%M"`);
- the random draw (`IsDraw`: a value in `[0, total]` for every positive `total`);
- the clock reading;
- the RFC 3339 formatter;
- the contents of the configuration store.

Nothing in `src/main.rs` reads the timestamp of HEAD; the only ordering check is against
the current time (src/main.rs:190). The model proves "never before now", and
`SingleShiftSuffices` proves that the single one-day shift always gives the same result
as shifting repeatedly, because both window ends are times of day on the current date.

## Model

| member | source | states |
|---|---|---|
| `Config.DefaultConfig` | src/main.rs:13-20 | With nothing stored, the window is "00:00" to "02:00". |
| `Config.SetTimeRange` | src/main.rs:67-95 | The start string is parsed first, then the end string; each failure is reported with its own string. The window is accepted if and only if both parse and start < end; equal or inverted times are rejected. The record to store holds the two input strings unchanged. |
| `Config.Load` | src/main.rs:99 | Loading yields the stored record when there is one, and the default window when nothing has been stored. |
| `CommitTime.WindowSeconds` | src/main.rs:173-177 | Both window ends are anchored on today's date, so the window length is end - start. It is positive exactly when start < end, whatever the current date. |
| `CommitTime.GenerateFromTimes` | src/main.rs:169-192 | Generation fails (empty window) if and only if end <= start. On success the result is not before now, its time of day lies in [start, end], and it falls on today or tomorrow. |
| `CommitTime.AdvanceSettles` | src/main.rs:189-192 | Reference definition: keep adding one day while the time is before now. The result is a whole number of days after the starting time and is not before now. It is the earliest such time: either nothing was added, or one day earlier would still be before now. |
| `CommitTime.SingleShiftSuffices` | src/main.rs:183-192 | The code shifts at most once. The result always equals that repeated correction, for every window and draw. The candidate is never earlier than today's midnight, so one day is always enough. |
| `CommitTime.CandidateInTodaysWindow` | src/main.rs:183-187 | Before correction, start + offset lies in [today+start, today+end] and is dated today. |
| `CommitTime.ShiftedOnlyWhenBefore` | src/main.rs:189-192 | The result is the candidate, or the candidate plus exactly 86400 s. The day is added exactly when the candidate is strictly before now. |
| `CommitTime.CandidateAtNowIsKept` | src/main.rs:190-191 | A candidate equal to now, with no sub-second part on the clock, is not shifted. |
| `CommitTime.RunBeforeWindowStaysToday` | src/main.rs:183-192 | Run before today's window opens, every draw gives today's start + offset. |
| `CommitTime.RunAfterWindowMovesToTomorrow` | src/main.rs:183-192 | Run after today's window has closed, every draw gives tomorrow's start + offset. |
| `CommitTime.Generate` | src/main.rs:161-196 | Generation from the stored strings fails in three cases, and only these: start unparsable; start parsed but end unparsable; both parse and end <= start. On success the result is not before now, and its time of day is the parsed start plus the drawn offset `draw(end - start)`, so it lies between the two parsed times. It falls today, or tomorrow exactly when today's start plus the draw is before now. |
| `CommitTime.StoredWindowAlwaysGenerates` | src/main.rs:166-180 | A window that `set` accepted always generates a time with the same parser, for any clock reading and any draw. |
| `Cli.Dispatch` | src/main.rs:27-59 | An empty argument list selects usage, and only it does. "set" with a count other than 3 selects the hint. "set" with exactly 3 selects set with arguments 1 and 2. "show" selects show. "amend" forwards exactly the arguments after it. Every other first word selects a commit with the whole list, first word included. |
| `Cli.CommitInvocation` | src/main.rs:112-117 | The program is git. The arguments are "commit" followed by the user's arguments verbatim. The author and committer dates are both set, to the same time. |
| `Cli.AmendInvocation` | src/main.rs:138-146 | The program is git. The arguments are "commit --amend --no-edit --reset-author" followed by the forwarded arguments verbatim. The two dates are both set, to the same time. |
| `Cli.Run` | src/main.rs:23-62 | An empty argument list prints the usage text, and only it does. "set" with the wrong count prints the hint and stores nothing. "set" with exactly two times stores a record exactly when validation accepts the window, and that record is the two strings; a rejected window reports its validation error. `show` displays the loaded record. Git runs only for amend or commit. |
| `Cli.ShowBeforeSetReportsDefault` | src/main.rs:97-102 | `show` with nothing stored displays 00:00-02:00. |
| `Cli.CommitRunsGitWithGeneratedTime` | src/main.rs:104-157 | A commit or amend runs git exactly when generation succeeds, and otherwise reports the generation error. Both dates are set to the formatted generated time. Amend forwards everything after "amend". A commit forwards the whole argument list. |
| `Cli.SetThenCommitRunsGit` | src/main.rs:41-58 | After `set` stores a window, any later commit or amend, at any time and with any draw, runs git. Its time has a time of day inside the stored window and is not before now. |

## Left out

- Reading and writing the configuration file (`confy::load`, `confy::store`) is left out, along with their failures. The stored record is an argument; when none is given, the default window applies.
- Running git as a child process and checking its exit status is left out. Only the invocation (program, arguments, the two date variables) is modelled, and not the inherited environment.
- Printed messages are left out; the model records only which kind of output a run produces.
- The `"%H:%M"` parser is left out. It is a supplied function from a string to an optional time of day in [0, 86400). Its exact leniency belongs to chrono.
- The random number generator is left out; the draw is a supplied function. Uniformity and independence between runs are not modelled.
- Time zones are left out. This covers the current local time, turning the naive result back into a local time (including the panic on a nonexistent or ambiguous local time around a daylight-saving change) and RFC 3339 formatting. The model works in naive local seconds.
- The overflow of chrono's date range when one day is added is left out (years far beyond any clock reading).
