# gitlab-log-mcp-server in Dafny

This project models the deterministic core of a small agent-tool server for
GitLab CI data. The server offers two tools, "jobs of the current commit"
and "console log of a job", and a command line that runs either of them.
It models:

- the configuration read from the environment (`GITLAB_API_KEY`,
  `GITLAB_URL`, `GITLAB_PROJECT_NAME`); a variable that is absent or empty
  counts as missing;
- the connection loop over candidate URLs, which remembers the last error;
- project resolution: exact lookup, then the first search hit, then
  "not found"; and how errors are wrapped;
- the flattening of the commit's pipelines and their jobs into tagged
  records, in order;
- the mapping of job-log failures to messages;
- the rendering of both tool answers, including the glyph table, the
  8-character SHA, the per-job blocks and the fenced log;
- the conversion of every failure into `エラー: …` text;
- the positional argument dispatch of the script.

Every python-gitlab call is a field of the `Api` datatype
(`GitlabUtils.Api`). It is a total function from the call's arguments to a
`Result`, either a value or a raised exception. The process environment is
a `map<string, string>`. The current commit SHA is an input `Result<string>`,
because it comes from running `git`. Python exceptions are the three
kinds the code tells apart: `ValueError`, `GitlabGetError` and any other.
Each carries the text `str(e)` gives.

Files:

- `outcomes.dfy`: exceptions, `Result`, `Outcome` and `Option`.
- `text.dfy`: `s[:n]`, `sep.join(parts)` and counting line breaks.
- `decimal.dfy`: `str(n)` and `int(s)` for integers.
- `gitlab_utils.dfy`: `src/utils/gitlab_utils.py`.
- `main_script.dfy`: `main.py`.

Where the two source files work by a loop that updates local variables,
the model is a method with that loop. These are the connection loop
(`ConnectFirst`), which tries candidates in turn and overwrites the
remembered last error, the pipelines×jobs loop (`GetJobsByCommit`) and the
block loop (`RenderCommitJobs`), which both append to a list. Each method is proved equal to a specification
function, and the lemmas are stated about that function.

The code checks the API key and the URL, then connects, and only then reads
the project name. So when the project name is missing but the connection
fails, the caller sees the connection error, and a missing project name is
only reported after a network round trip. The model keeps this order
(`GitlabUtils.GitlabProject`).

## Model

| member | source | states |
|---|---|---|
| `GitlabUtils.RequireEnv` | src/utils/gitlab_utils.py:56-59 | a variable is accepted iff it is present and non-empty; the value is returned unchanged; otherwise a `ValueError` whose text starts with the variable's name |
| `GitlabUtils.GetGitlabUrl` | src/utils/gitlab_utils.py:12-25 | `GITLAB_URL` present and non-empty gives its value, otherwise the exact `GITLAB_URL環境変数が設定されていません。` error |
| `GitlabUtils.GetGitlabProjectId` | src/utils/gitlab_utils.py:29-42 | `GITLAB_PROJECT_NAME` present and non-empty gives its value, otherwise the exact `GITLAB_PROJECT_NAME環境変数が設定されていません。` error |
| `GitlabUtils.ConnectAnyFirst` | src/utils/gitlab_utils.py:64-80 | the connection succeeds with the first candidate that authenticates (all earlier ones failed); when all fail the error is `GitLabへの接続に失敗しました: ` plus the last failure's text (`None` with no candidates) |
| `GitlabUtils.ConnectFirst` | src/utils/gitlab_utils.py:69-80 | the loop over candidate URLs with `last_error` computes exactly the specified first-success connection |
| `GitlabUtils.GitlabClient` | src/utils/gitlab_utils.py:45-80 | the API key is checked before the URL; with both set the client for that URL and key is returned when it authenticates, otherwise a `ValueError` carrying the auth failure's text; every failure is a `ValueError` |
| `GitlabUtils.GetGitlabClient` | src/utils/gitlab_utils.py:55-80 | the client procedure (env checks, one-candidate list, loop) returns what `GitlabClient` specifies |
| `GitlabUtils.WrapProjectError` | src/utils/gitlab_utils.py:109-114 | a `ValueError` passes unchanged; any other exception becomes a `ValueError` whose text is the fixed prefix followed by the original text |
| `GitlabUtils.GitlabProject` | src/utils/gitlab_utils.py:93-114 | client errors come first, then a missing project name; a successful exact lookup is returned; only a get-error triggers the search, whose first hit is returned; an empty search gives `プロジェクト '<id>' が見つかりません。`; other failures are wrapped; every failure is a `ValueError` |
| `GitlabUtils.FetchBatches` | src/utils/gitlab_utils.py:140-142 | listing succeeds iff every pipeline's job listing succeeds, then gives one batch per pipeline, in order, tagged with that pipeline's id; a failure is one of the listings' failures |
| `GitlabUtils.FetchRaisePropagates` | src/utils/gitlab_utils.py:140-158 | once the listing for an earlier pipeline fails, the whole listing fails with that error |
| `GitlabUtils.JobsByCommit` | src/utils/gitlab_utils.py:130-158 | the query succeeds iff the project, the pipeline list and every job listing succeed, and then gives the records of all listed jobs, pipeline after pipeline (`Flatten` of the batches); no matching pipeline gives the empty list; a failure is a `ValueError` whose text embeds the commit SHA and the text of the exception the failing stage raised (project resolution, pipeline list or the first failing job listing) |
| `GitlabUtils.GetJobsByCommit` | src/utils/gitlab_utils.py:117-158 | the nested append loops over pipelines and jobs compute exactly `JobsByCommit` |
| `GitlabUtils.FlattenLength` | src/utils/gitlab_utils.py:139-154 | the number of records equals the sum of the per-pipeline job counts |
| `GitlabUtils.FlattenAt` | src/utils/gitlab_utils.py:139-154 | job `j` of pipeline `i` is the record at position (jobs of pipelines before `i`) + `j`: pipeline order, then job order |
| `GitlabUtils.FlattenOrigin` | src/utils/gitlab_utils.py:143-154 | every record is some listed job's fields, with `finished_at` copied as given (`None` when absent), its own pipeline's id and the queried SHA |
| `GitlabUtils.JobsByCommitOk` | src/utils/gitlab_utils.py:130-156 | a successful result means project, pipelines and every job listing succeeded; it has one record per listed job, each tagged with the queried SHA and the id of one of the commit's pipelines |
| `GitlabUtils.WrapLogError` | src/utils/gitlab_utils.py:184-187 | a get-error becomes `ジョブID #<id> が見つかりません。`; anything else becomes a message that starts with the job id and ends with the original text |
| `GitlabUtils.JobConsoleLog` | src/utils/gitlab_utils.py:161-187 | a log is returned iff the project, the job and its trace were retrieved, and it is the trace unchanged; a project-resolution failure is wrapped with the job id, never reported as not found; a failing job lookup or trace is mapped by `WrapLogError` (not found for a get-error, the retrieval-failure text otherwise); every failure is a `ValueError` |
| `GitlabUtils.NotFoundIsNotLogFailure` | src/utils/gitlab_utils.py:185-187 | the not-found message and the retrieval-failure message of a job never coincide |
| `GitlabUtils.JobNotFoundExactly` | src/utils/gitlab_utils.py:174-187 | "not found" is reported iff the project resolved and the job lookup or its trace answered a get-error |
| `Text.Prefix` | main.py:26 | `s[:n]` has length `min(n, len(s))` and is a prefix of `s` |
| `Text.JoinAt` | main.py:46 | in `sep.join(parts)` part `i` appears unchanged right after the join of the parts before it and one separator; the last part ends the join |
| `Decimal.ParseInt` | main.py:72 | a job id argument is accepted iff it is an optionally signed string of 1 to 4300 ASCII digits (Python's default digit limit for `int()`) |
| `Decimal.IntToDecimalRoundTrip` | main.py:40-43 | reading back the decimal text printed for an id of at most 4300 digits gives the id |
| `MainScript.ErrorText` | main.py:47-48 | a failure becomes `エラー: ` followed by the exception's text |
| `MainScript.StatusGlyph` | main.py:30-37 | success ✅, failed ❌, running 🔄, pending ⏳, canceled 🚫, skipped ⏭️; the fallback ❓ exactly for any other status |
| `MainScript.ShortSha` | main.py:26 | the SHA shown is a prefix of the SHA: its first 8 characters, or the whole SHA when it is shorter |
| `MainScript.JobBlockLayout` | main.py:39-44 | a block is glyph, bold name and id; stage line; status line; pipeline-id line, separated by line breaks |
| `MainScript.JobBlockLines` | main.py:39-44 | with single-line name, stage and status a block has exactly four lines |
| `MainScript.CommitJobsReport` | main.py:25-46 | the one-line no-jobs message is produced iff the job list is empty; otherwise the report starts with the header naming the short SHA |
| `MainScript.RenderCommitJobs` | main.py:25-46 | the loop that appends one block per job and joins them computes exactly `CommitJobsReport` |
| `MainScript.ReportBeforeBlock` | main.py:28-46 | what precedes block `i` in a report is exactly the header, the blocks of the jobs before it and, unless `i` is 0, one blank line |
| `MainScript.ReportBlockAt` | main.py:28-46 | job `i`'s block stands unchanged in the report right after what `ReportBeforeBlock` states |
| `MainScript.ReportEndsWithLastBlock` | main.py:46 | the report ends with the last job's block: nothing follows it |
| `MainScript.ReportLines` | main.py:39-46 | a report of n single-line jobs has 5n line breaks: header, blocks and blank lines between blocks; the no-jobs message (n = 0) has none |
| `MainScript.CommitJobsOutput` | main.py:19-48 | the tool answer is an error text iff reading the commit or the job query failed, then carrying that failure's text; otherwise it is the report of the jobs found |
| `MainScript.GetCurrentCommitJobs` | main.py:19-48 | the tool procedure returns exactly `CommitJobsOutput`; it never raises |
| `MainScript.LogReportRoundTrip` | main.py:56 | the log is embedded unchanged: reading it back out of the report gives it |
| `MainScript.ErrorTextIsNotLog` | main.py:54-58 | an error answer is never read as a log report, and a log report never carries the error marker |
| `MainScript.GetJobLog` | main.py:52-58 | the answer carries the log iff retrieval succeeded, and is the error text of the failure iff it failed |
| `MainScript.Dispatch` | main.py:61-85 | no argument starts the server; `test commit-jobs` (extra arguments ignored) runs the report; `test job-log X` with exactly three arguments runs the log report iff X parses, else the invalid-id message; other arities the argument message; any other test argument its message; anything else the usage text |
| `MainScript.RunCli` | main.py:61-85 | the script prints nothing exactly when it starts the server, and otherwise prints the output of the command `Dispatch` chose |

## Left out

- FastMCP server construction, tool registration and `mcp.run(transport="stdio")` are runtime plumbing. Starting the server is only the `StartServer` command.
- The python-gitlab calls are not modelled, only their answers (`Api`). This covers HTTP, the library's pagination (`list()` returns one page unless asked for all) and its exception classes beyond get-errors.
- `gitlab.Gitlab(url, private_token=...)` and `gl.auth()` are one call (`Api.auth`). A failure of either lands in the same `except`.
- `project.pipelines.get(id)` and `.jobs.list()` are one call (`Api.pipelineJobs`). A failure of either aborts the listing in the same way.
- `get_current_commit_sha` runs `git` and its source is not part of this model. The SHA is an input that may be a raised exception.
- `os.environ` is a map given as input. `sys.argv` is the input of `RunCli`; its output is the argument `print` is called with (the line break `print` adds is not modelled), or none when the server starts.
- Decimal.ParseInt: accepts only an optional sign followed by at most 4300 ASCII digits. Python's `int()` also accepts surrounding whitespace, underscores between digits and non-ASCII digits. The model counts the 4300-digit limit over all digit characters, leading zeros included.
- Decimal.IntToDecimal: prints integers of any size. Python's `str()` raises `ValueError` for an integer of more than 4300 digits; job and pipeline ids from the API never come near that. The round trip is stated only within the limit.
- The glyphs are opaque string constants. For example, ⏭️ is two code points, and nothing depends on that.
- Timestamps (`created_at`, `finished_at`) and the trace are opaque strings. Whether `trace()` gives bytes or text is not modelled.
- MainScript.JobBlockLines: assumes name, stage and status contain no line break. The source does not guarantee this.
- MainScript.ReportLines: assumes name, stage, status and the SHA contain no line break.
