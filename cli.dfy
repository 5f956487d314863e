/** The command surface of `git-tc` (src/main.rs, main, run_commit, amend_commit_time):
    which command an argument list selects, the git invocation each commit command
    builds, and what one run of the program does. */
module Cli {
  import opened Wrappers
  import opened Config
  import opened CommitTime

  /** What the first word of the arguments selects. */
  datatype Command =
    | Usage
    | SetUsage
    | Set(start: string, end: string)
    | Show
    | Amend(rest: seq<string>)
    | Commit(all: seq<string>)

  /** The arguments after the program name select a command. */
  function Dispatch(cli: seq<string>): (c: Command)
    ensures c == Usage <==> cli == []
    ensures c == SetUsage <==> |cli| > 0 && cli[0] == "set" && |cli| != 3
    ensures c.Set? <==> |cli| == 3 && cli[0] == "set"
    ensures c.Set? ==> c.start == cli[1] && c.end == cli[2]
    ensures c == Show <==> |cli| > 0 && cli[0] == "show"
    ensures c.Amend? <==> |cli| > 0 && cli[0] == "amend"
    ensures c.Amend? ==> c.rest == cli[1..]
    ensures c.Commit? <==> |cli| > 0 && cli[0] != "set" && cli[0] != "show" && cli[0] != "amend"
    ensures c.Commit? ==> c.all == cli
  {
    if cli == [] then Usage
    else if cli[0] == "set" then
      if |cli| != 3 then SetUsage else Set(cli[1], cli[2])
    else if cli[0] == "show" then Show
    else if cli[0] == "amend" then Amend(cli[1..])
    else Commit(cli)
  }

  /** One execution of the git executable: its arguments and the environment it sets. */
  datatype GitInvocation = GitInvocation(program: string, args: seq<string>, env: map<string, string>)

  const AuthorDate := "GIT_AUTHOR_DATE"
  const CommitterDate := "GIT_COMMITTER_DATE"

  /** Both dates of the commit are set, and to the same formatted time. */
  predicate DatedAt(g: GitInvocation, date: string)
  {
    g.env.Keys == {AuthorDate, CommitterDate} &&
    g.env[AuthorDate] == date && g.env[CommitterDate] == date
  }

  function DateEnv(date: string): map<string, string>
  {
    map[AuthorDate := date, CommitterDate := date]
  }

  /** `git commit <args>`: every user argument follows "commit" verbatim and in order. */
  function CommitInvocation(args: seq<string>, date: string): (g: GitInvocation)
    ensures g.program == "git"
    ensures |g.args| == |args| + 1 && g.args[0] == "commit" && g.args[1..] == args
    ensures DatedAt(g, date)
  {
    GitInvocation("git", ["commit"] + args, DateEnv(date))
  }

  const AmendPrefix: seq<string> := ["commit", "--amend", "--no-edit", "--reset-author"]

  /** `git commit --amend --no-edit --reset-author <args>`. */
  function AmendInvocation(args: seq<string>, date: string): (g: GitInvocation)
    ensures g.program == "git"
    ensures |g.args| == |args| + 4 && g.args[..4] == AmendPrefix && g.args[4..] == args
    ensures DatedAt(g, date)
  {
    GitInvocation("git", AmendPrefix + args, DateEnv(date))
  }

  /** The failures a run reports. */
  datatype RunError = SetFailed(setError: SetError) | GenerateFailed(genError: GenError)

  /** What one run of the program does. */
  datatype Effect =
    | PrintUsage
    | PrintSetHint
    | StoreConfig(cfg: AppConfig)
    | DisplayConfig(cfg: AppConfig)
    | RunGit(call: GitInvocation)
    | Fail(error: RunError)

  /** One run, given the arguments, what the store holds, the time parser, the clock
      reading, the random draw and the formatter of the generated local time. */
  function Run(cli: seq<string>, stored: Option<AppConfig>, parse: Parser, now: Instant,
               draw: int -> int, format: int -> string): (e: Effect)
    requires IsDraw(draw)
    ensures e == PrintUsage <==> cli == []
    ensures e == PrintSetHint <==> Dispatch(cli) == SetUsage
    ensures e.StoreConfig? ==> |cli| == 3 && cli[0] == "set" && e.cfg == AppConfig(cli[1], cli[2])
    ensures Dispatch(cli).Set? ==> (e.StoreConfig? <==> SetTimeRange(cli[1], cli[2], parse).Ok?)
    ensures Dispatch(cli).Set? && SetTimeRange(cli[1], cli[2], parse).Err? ==>
              e == Fail(SetFailed(SetTimeRange(cli[1], cli[2], parse).error))
    ensures e.DisplayConfig? <==> Dispatch(cli) == Show
    ensures Dispatch(cli) == Show ==> e == DisplayConfig(Load(stored))
    ensures e.RunGit? ==> Dispatch(cli).Amend? || Dispatch(cli).Commit?
  {
    match Dispatch(cli)
    case Usage => PrintUsage
    case SetUsage => PrintSetHint
    case Set(start, end) =>
      (match SetTimeRange(start, end, parse)
       case Ok(cfg) => StoreConfig(cfg)
       case Err(why) => Fail(SetFailed(why)))
    case Show => DisplayConfig(Load(stored))
    case Amend(rest) =>
      (match Generate(Load(stored), parse, now, draw)
       case Ok(t) => RunGit(AmendInvocation(rest, format(t)))
       case Err(why) => Fail(GenerateFailed(why)))
    case Commit(all) =>
      match Generate(Load(stored), parse, now, draw)
      case Ok(t) => RunGit(CommitInvocation(all, format(t)))
      case Err(why) => Fail(GenerateFailed(why))
  }

  /** `show` before any `set` reports the default window 00:00-02:00. */
  lemma ShowBeforeSetReportsDefault(parse: Parser, now: Instant, draw: int -> int, format: int -> string)
    requires IsDraw(draw)
    ensures Run(["show"], None, parse, now, draw, format) == DisplayConfig(AppConfig("00:00", "02:00"))
  {
  }

  /** A commit or amend run executes git exactly when generation from the loaded
      configuration succeeds, with the generated time as both dates, and forwards the
      whole argument list (commit) or everything after "amend" (amend). */
  lemma CommitRunsGitWithGeneratedTime(cli: seq<string>, stored: Option<AppConfig>, parse: Parser,
                                       now: Instant, draw: int -> int, format: int -> string)
    requires IsDraw(draw)
    requires Dispatch(cli).Amend? || Dispatch(cli).Commit?
    ensures var g := Generate(Load(stored), parse, now, draw);
            var e := Run(cli, stored, parse, now, draw, format);
            (e.RunGit? <==> g.Ok?) &&
            (g.Err? ==> e == Fail(GenerateFailed(g.error))) &&
            (g.Ok? ==> DatedAt(e.call, format(g.value))) &&
            (g.Ok? && cli[0] == "amend" ==> e.call.args == AmendPrefix + cli[1..]) &&
            (g.Ok? && cli[0] != "amend" ==> e.call.args == ["commit"] + cli)
  {
  }

  /** After `set` has stored a window, every later commit or amend run, at any time and
      with any draw, executes git at a time of day inside that window and not before now. */
  lemma SetThenCommitRunsGit(start: string, end: string, stored: Option<AppConfig>, parse: Parser,
                             cli: seq<string>, now: Instant, draw: int -> int, format: int -> string)
    requires IsDraw(draw)
    requires Run(["set", start, end], stored, parse, now, draw, format).StoreConfig?
    requires Dispatch(cli).Amend? || Dispatch(cli).Commit?
    ensures var cfg := Run(["set", start, end], stored, parse, now, draw, format).cfg;
            var g := Generate(cfg, parse, now, draw);
            g.Ok? &&
            parse(start).value <= TimeOfDayOf(g.value) <= parse(end).value &&
            !Before(g.value, now) &&
            Run(cli, Some(cfg), parse, now, draw, format).RunGit?
  {
  }
}
