/** The two agent tools and the command line of the server script: the
    jobs-of-the-current-commit report, the job-log report, the conversion of
    any failure into text, and the positional argument dispatch. The commit
    SHA comes from `git`, outside this model, so it is an input that may be
    an exception. */
module MainScript {
  import opened Outcomes
  import opened Text
  import opened Decimal
  import opened GitlabUtils

  // ---------------------------------------------------------------------------
  // Failures as text

  const ErrorMarker := "エラー: "

  /** `f"エラー: {str(e)}"`: how both tools return a failure. */
  function ErrorText(e: Exception): (r: string)
    ensures |r| == |ErrorMarker| + |Str(e)|
    ensures r[..|ErrorMarker|] == ErrorMarker && r[|ErrorMarker|..] == Str(e)
  {
    ErrorMarker + Str(e)
  }

  /** Whether a tool answer is a failure message. */
  predicate IsErrorText(s: string)
  {
    |ErrorMarker| <= |s| && s[..|ErrorMarker|] == ErrorMarker
  }

  // ---------------------------------------------------------------------------
  // The commit-jobs report

  const FallbackGlyph := "❓"

  /** The glyph table of `get_current_commit_jobs`. */
  const StatusGlyphs: map<string, string> := map[
    "success" := "✅",
    "failed" := "❌",
    "running" := "🔄",
    "pending" := "⏳",
    "canceled" := "🚫",
    "skipped" := "⏭️"]

  /** The glyph shown for a job status: the table's entry, or the fallback
      glyph for any other status. */
  function StatusGlyph(status: string): (g: string)
    ensures status == "success" ==> g == "✅"
    ensures status == "failed" ==> g == "❌"
    ensures status == "running" ==> g == "🔄"
    ensures status == "pending" ==> g == "⏳"
    ensures status == "canceled" ==> g == "🚫"
    ensures status == "skipped" ==> g == "⏭️"
    ensures g == FallbackGlyph <==>
              status !in {"success", "failed", "running", "pending", "canceled", "skipped"}
    ensures SingleLine(g)
  {
    if status in StatusGlyphs then StatusGlyphs[status] else FallbackGlyph
  }

  /** `commit_sha[:8]` */
  function ShortSha(commitSha: string): (s: string)
    ensures s <= commitSha
    ensures |s| == if |commitSha| < 8 then |commitSha| else 8
  {
    Prefix(commitSha, 8)
  }

  function NoJobsMessage(commitSha: string): string
  {
    "コミット " + ShortSha(commitSha) + " に関連するジョブが見つかりません。"
  }

  function ReportHeader(commitSha: string): string
  {
    "コミット " + ShortSha(commitSha) + " のジョブ一覧:\n\n"
  }

  /** The four lines of a job's block: glyph, bold name and id; stage;
      status; pipeline id. */
  function JobLines(job: JobInfo): seq<string>
  {
    [ StatusGlyph(job.status) + " **" + job.name + "** (ID: " + IntToDecimal(job.id) + ")",
      "  - ステージ: " + job.stage,
      "  - ステータス: " + job.status,
      "  - パイプラインID: " + IntToDecimal(job.pipelineId) ]
  }

  /** The block of one job: its four lines separated by line breaks. */
  function JobBlock(job: JobInfo): string
  {
    Join(JobLines(job), "\n")
  }

  /** The block is the f-string of the source: the four lines with a line
      break after each of the first three. */
  lemma JobBlockLayout(job: JobInfo)
    ensures var lines := JobLines(job);
            JobBlock(job) == lines[0] + "\n" + lines[1] + "\n" + lines[2] + "\n" + lines[3]
  {
    var lines := JobLines(job);
    var l0, l1, l2, l3 := lines[0], lines[1], lines[2], lines[3];
    assert Join([l0], "\n") == l0;
    JoinSnoc([l0], "\n", l1);
    assert [l0] + [l1] == [l0, l1];
    JoinSnoc([l0, l1], "\n", l2);
    assert [l0, l1] + [l2] == [l0, l1, l2];
    JoinSnoc([l0, l1, l2], "\n", l3);
    assert [l0, l1, l2] + [l3] == lines;
  }

  /** The blocks of the jobs, in the jobs' order. */
  function Blocks(jobs: seq<JobInfo>): (r: seq<string>)
    ensures |r| == |jobs|
    ensures forall k :: 0 <= k < |jobs| ==> r[k] == JobBlock(jobs[k])
  {
    seq(|jobs|, k requires 0 <= k < |jobs| => JobBlock(jobs[k]))
  }

  /** What `get_current_commit_jobs` returns for the jobs found. An empty list
      gives the one-line "no jobs" message and nothing else does. */
  function CommitJobsReport(commitSha: string, jobs: seq<JobInfo>): (r: string)
    ensures r == NoJobsMessage(commitSha) <==> |jobs| == 0
    ensures |jobs| > 0 ==> ReportHeader(commitSha) <= r
  {
    if |jobs| == 0 then NoJobsMessage(commitSha)
    else
      var r := ReportHeader(commitSha) + Join(Blocks(jobs), "\n\n");
      assert r[|"コミット " + ShortSha(commitSha)| + 1] == 'の';
      assert NoJobsMessage(commitSha)[|"コミット " + ShortSha(commitSha)| + 1] == 'に';
      r
  }

  /** The loop of `get_current_commit_jobs` that appends one block per job,
      followed by the join. */
  method RenderCommitJobs(commitSha: string, jobs: seq<JobInfo>) returns (report: string)
    ensures report == CommitJobsReport(commitSha, jobs)
  {
    if |jobs| == 0 {
      return NoJobsMessage(commitSha);
    }
    var jobList: seq<string> := [];
    for i := 0 to |jobs|
      invariant jobList == Blocks(jobs[..i])
    {
      var statusEmoji := StatusGlyph(jobs[i].status);
      var block := Join([statusEmoji + " **" + jobs[i].name + "** (ID: " + IntToDecimal(jobs[i].id) + ")",
                         "  - ステージ: " + jobs[i].stage,
                         "  - ステータス: " + jobs[i].status,
                         "  - パイプラインID: " + IntToDecimal(jobs[i].pipelineId)], "\n");
      jobList := jobList + [block];
    }
    assert jobs[..|jobs|] == jobs;
    report := ReportHeader(commitSha) + Join(jobList, "\n\n");
  }

  /** Block `i` of a report is job `i`'s block, unchanged, at its start
      offset. */
  lemma ReportBlockAt(commitSha: string, jobs: seq<JobInfo>, i: nat)
    requires i < |jobs|
    ensures var start := |ReportHeader(commitSha)| + PartStart(Blocks(jobs), "\n\n", i);
            OccursAt(CommitJobsReport(commitSha, jobs), JobBlock(jobs[i]), start)
  {
    ReportIsJoin(commitSha, jobs);
    JoinAtAfter(ReportHeader(commitSha), Blocks(jobs), "\n\n", i);
  }

  /** Nothing follows the last block of a report. */
  lemma ReportEndsWithLastBlock(commitSha: string, jobs: seq<JobInfo>)
    requires |jobs| > 0
    ensures var last := |jobs| - 1;
            var start := |ReportHeader(commitSha)| + PartStart(Blocks(jobs), "\n\n", last);
            start + |JobBlock(jobs[last])| == |CommitJobsReport(commitSha, jobs)|
  {
    ReportIsJoin(commitSha, jobs);
    JoinAtAfter(ReportHeader(commitSha), Blocks(jobs), "\n\n", |jobs| - 1);
  }

  /** What precedes block `i` of a report: the header, the blocks of the
      jobs before it and, unless it is the first, one blank line. */
  lemma ReportBeforeBlock(commitSha: string, jobs: seq<JobInfo>, i: nat)
    requires i < |jobs|
    ensures var start := |ReportHeader(commitSha)| + PartStart(Blocks(jobs), "\n\n", i);
            start <= |CommitJobsReport(commitSha, jobs)| &&
            CommitJobsReport(commitSha, jobs)[..start] ==
              ReportHeader(commitSha) + Join(Blocks(jobs[..i]), "\n\n") + (if i == 0 then "" else "\n\n")
  {
    ReportIsJoin(commitSha, jobs);
    BlocksPrefix(jobs, i);
    JoinAtAfter(ReportHeader(commitSha), Blocks(jobs), "\n\n", i);
  }

  /** A report with jobs is the header followed by the blocks, one blank
      line between two blocks. */
  lemma ReportIsJoin(commitSha: string, jobs: seq<JobInfo>)
    ensures |jobs| > 0 ==>
              CommitJobsReport(commitSha, jobs) == ReportHeader(commitSha) + Join(Blocks(jobs), "\n\n")
  {
  }

  /** The blocks of the first `i` jobs are the first `i` blocks. */
  lemma BlocksPrefix(jobs: seq<JobInfo>, i: nat)
    ensures i <= |jobs| ==> Blocks(jobs)[..i] == Blocks(jobs[..i])
  {
  }

  /** A job whose name, stage and status are single lines gets a block of
      exactly four lines. */
  lemma JobBlockLines(job: JobInfo)
    requires SingleLine(job.name) && SingleLine(job.stage) && SingleLine(job.status)
    ensures Count(JobBlock(job), '\n') == 3
  {
    var lines := JobLines(job);
    IntToDecimalNoNewline(job.id);
    IntToDecimalNoNewline(job.pipelineId);
    CountAllSingleLines(lines);
    CountJoin(lines, "\n", '\n');
    assert Count("\n", '\n') == 1 by {
      assert "\n"[..0] == "";
    }
  }

  lemma {:induction false} BlocksLines(jobs: seq<JobInfo>)
    requires forall k :: 0 <= k < |jobs| ==>
               SingleLine(jobs[k].name) && SingleLine(jobs[k].stage) && SingleLine(jobs[k].status)
    ensures CountAll(Blocks(jobs), '\n') == 3 * |jobs|
    decreases |jobs|
  {
    if |jobs| > 0 {
      var n := |jobs|;
      assert Blocks(jobs)[..n - 1] == Blocks(jobs[..n - 1]);
      BlocksLines(jobs[..n - 1]);
      JobBlockLines(jobs[n - 1]);
    }
  }

  /** With single-line fields and SHA, a report of n jobs has 5n line
      breaks: two after the header, three inside each block and two between
      consecutive blocks; the no-jobs message has none. */
  lemma ReportLines(commitSha: string, jobs: seq<JobInfo>)
    requires SingleLine(commitSha)
    requires forall k :: 0 <= k < |jobs| ==>
               SingleLine(jobs[k].name) && SingleLine(jobs[k].stage) && SingleLine(jobs[k].status)
    ensures Count(CommitJobsReport(commitSha, jobs), '\n') == 5 * |jobs|
  {
    var short := ShortSha(commitSha);
    assert SingleLine(short) by {
      assert forall i :: 0 <= i < |short| ==> short[i] == commitSha[i];
    }
    if |jobs| == 0 {
      assert SingleLine(NoJobsMessage(commitSha));
      CountSingleLine(NoJobsMessage(commitSha));
      return;
    }
    var lead := "コミット " + short + " のジョブ一覧:";
    assert ReportHeader(commitSha) == lead + "\n\n";
    CountSingleLine(lead);
    assert Count("\n\n", '\n') == 2 by {
      assert "\n\n"[..1] == "\n";
      assert "\n"[..0] == "";
    }
    CountConcat(lead, "\n\n", '\n');
    CountJoin(Blocks(jobs), "\n\n", '\n');
    BlocksLines(jobs);
    CountConcat(ReportHeader(commitSha), Join(Blocks(jobs), "\n\n"), '\n');
  }

  /** What the `get_current_commit_jobs` tool answers, given the outcome of
      reading the current commit. */
  function CommitJobsOutput(commitSha: Result<string>, env: Env, api: Api): (r: string)
    // the answer is a failure message exactly when something failed
    ensures IsErrorText(r) <==> commitSha.Raise? || JobsByCommit(env, api, commitSha.value).Raise?
    ensures commitSha.Raise? ==> r == ErrorText(commitSha.exc)
    ensures commitSha.Ok? && JobsByCommit(env, api, commitSha.value).Raise? ==>
              r == ErrorText(JobsByCommit(env, api, commitSha.value).exc)
    ensures commitSha.Ok? && JobsByCommit(env, api, commitSha.value).Ok? ==>
              r == CommitJobsReport(commitSha.value, JobsByCommit(env, api, commitSha.value).value)
  {
    match commitSha
    case Raise(e) => ErrorText(e)
    case Ok(sha) =>
      match JobsByCommit(env, api, sha)
      case Raise(e) => ErrorText(e)
      case Ok(jobs) =>
        var r := CommitJobsReport(sha, jobs);
        assert r[0] == 'コ';
        r
  }

  /** The `get_current_commit_jobs` tool. */
  method GetCurrentCommitJobs(commitSha: Result<string>, env: Env, api: Api) returns (out: string)
    ensures out == CommitJobsOutput(commitSha, env, api)
  {
    match commitSha {
      case Raise(e) =>
        return ErrorText(e);
      case Ok(sha) =>
        var jobs := GetJobsByCommit(env, api, sha);
        match jobs {
          case Raise(e) =>
            out := ErrorText(e);
          case Ok(js) =>
            out := RenderCommitJobs(sha, js);
        }
    }
  }

  // ---------------------------------------------------------------------------
  // The job-log report

  function LogHeader(jobId: int): string
  {
    "ジョブID #" + IntToDecimal(jobId) + " のコンソールログ:\n```\n"
  }

  const LogFooter := "\n```"

  /** A log embedded in a fenced block under a header naming the job. */
  function LogReport(jobId: int, log: string): string
  {
    LogHeader(jobId) + log + LogFooter
  }

  /** Reads the log back out of a job-log report; `None` for any other text. */
  function LogOf(report: string, jobId: int): Option<string>
  {
    var h := LogHeader(jobId);
    if |h| + |LogFooter| <= |report| && report[..|h|] == h &&
       report[|report| - |LogFooter|..] == LogFooter
    then Some(report[|h|..|report| - |LogFooter|])
    else None
  }

  /** The log is embedded unchanged. */
  lemma LogReportRoundTrip(jobId: int, log: string)
    ensures LogOf(LogReport(jobId, log), jobId) == Some(log)
  {
  }

  /** A failure message is never mistaken for a log report, and a log report
      is never mistaken for a failure message. */
  lemma ErrorTextIsNotLog(jobId: int, e: Exception, log: string)
    ensures LogOf(ErrorText(e), jobId) == None
    ensures !IsErrorText(LogReport(jobId, log))
  {
    var r := ErrorText(e);
    var h := LogHeader(jobId);
    assert h[0] == 'ジ';
    if |h| + |LogFooter| <= |r| {
      assert r[..|h|][0] == 'エ';
    }
    assert LogReport(jobId, log)[0] == 'ジ';
  }

  /** The `get_job_log` tool: never fails; the log, or the failure as text. */
  function GetJobLog(env: Env, api: Api, jobId: int): (out: string)
    ensures JobConsoleLog(env, api, jobId).Ok? <==> LogOf(out, jobId).Some?
    ensures JobConsoleLog(env, api, jobId).Ok? ==>
              LogOf(out, jobId) == Some(JobConsoleLog(env, api, jobId).value)
    ensures JobConsoleLog(env, api, jobId).Raise? <==> IsErrorText(out)
    ensures JobConsoleLog(env, api, jobId).Raise? ==>
              out == ErrorText(JobConsoleLog(env, api, jobId).exc)
  {
    match JobConsoleLog(env, api, jobId)
    case Ok(log) =>
      LogReportRoundTrip(jobId, log);
      ErrorTextIsNotLog(jobId, OtherError(""), log);
      LogReport(jobId, log)
    case Raise(e) =>
      ErrorTextIsNotLog(jobId, e, "");
      ErrorText(e)
  }

  // ---------------------------------------------------------------------------
  // Command line

  /** What a command line asks for. */
  datatype Command =
    | StartServer           // no argument: serve the tools over stdio
    | ShowCommitJobs        // print the commit-jobs report
    | ShowJobLog(jobId: int) // print the job-log report
    | Say(text: string)     // print a fixed message

  const InvalidJobIdMessage := "無効なジョブIDです。数値を指定してください。"
  const JobLogUsageMessage := "無効な引数です。使用方法: test job-log <job_id>"
  const InvalidTestArgMessage := "無効なテスト引数です。"
  const UsageText := "使用方法:\n"
    + "python main.py                           # MCPサーバーを起動\n"
    + "python main.py test commit-jobs          # 現在のコミットのジョブ一覧を取得\n"
    + "python main.py test job-log <job_id>     # 指定したジョブのログを取得\n"

  /** The decision table of the `__main__` block over `sys.argv[1:]`. */
  function Dispatch(args: seq<string>): (c: Command)
    ensures c == StartServer <==> |args| == 0
    ensures c == ShowCommitJobs <==> |args| >= 2 && args[0] == "test" && args[1] == "commit-jobs"
    ensures c.ShowJobLog? <==>
              |args| == 3 && args[0] == "test" && args[1] == "job-log" && IsIntLiteral(args[2])
    ensures c.ShowJobLog? ==> ParseInt(args[2]) == Some(c.jobId)
    ensures c == Say(InvalidJobIdMessage) <==>
              |args| == 3 && args[0] == "test" && args[1] == "job-log" && !IsIntLiteral(args[2])
    ensures c == Say(JobLogUsageMessage) <==>
              |args| >= 2 && args[0] == "test" && args[1] == "job-log" && |args| != 3
    ensures c == Say(InvalidTestArgMessage) <==>
              |args| >= 2 && args[0] == "test" && args[1] != "commit-jobs" && args[1] != "job-log"
    ensures c == Say(UsageText) <==> |args| > 0 && (args[0] != "test" || |args| < 2)
  {
    if |args| == 0 then StartServer
    else if args[0] == "test" && |args| >= 2 then
      if args[1] == "commit-jobs" then ShowCommitJobs
      else if args[1] == "job-log" then
        if |args| == 3 then
          match ParseInt(args[2])
          case Some(jobId) => ShowJobLog(jobId)
          case None => Say(InvalidJobIdMessage)
        else Say(JobLogUsageMessage)
      else Say(InvalidTestArgMessage)
    else Say(UsageText)
  }

  /** Runs a command line: `None` when it starts the server, otherwise the
      text it prints. */
  method RunCli(args: seq<string>, commitSha: Result<string>, env: Env, api: Api)
    returns (printed: Option<string>)
    ensures printed.None? <==> |args| == 0
    ensures printed == match Dispatch(args)
                       case StartServer => None
                       case ShowCommitJobs => Some(CommitJobsOutput(commitSha, env, api))
                       case ShowJobLog(jobId) => Some(GetJobLog(env, api, jobId))
                       case Say(text) => Some(text)
  {
    match Dispatch(args) {
      case StartServer =>
        printed := None;
      case ShowCommitJobs =>
        var out := GetCurrentCommitJobs(commitSha, env, api);
        printed := Some(out);
      case ShowJobLog(jobId) =>
        printed := Some(GetJobLog(env, api, jobId));
      case Say(text) =>
        printed := Some(text);
    }
  }
}
