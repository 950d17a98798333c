/** Applying a patch with git: the decision of what to run and what to
    report, given what the filesystem checks and each git command return,
    and the sections of the markdown report written afterwards. */
module PatchApply {
  import opened Wrappers
  import opened Json
  import opened Text
  import Artifacts

  /** What one `git` subprocess did: it finished with an exit code and its
      output, or it ran past its time-out and `subprocess.run` raised
      `TimeoutExpired` with `message`. */
  datatype GitRun = Finished(returncode: int, stdout: string, stderr: string) | TimedOut(message: string)

  /** The git commands `apply_patch` may run, in the order it runs them. */
  datatype GitCommand = StatusPorcelain | ApplyCheck | ApplyIt | DiffStat

  /** The world `apply_patch` observes: whether the two paths exist, and what
      each git command would do if it were run. */
  datatype Repo = Repo(isDir: bool, isFile: bool, status: GitRun, check: GitRun, apply: GitRun, diffStat: GitRun)

  datatype ApplyResult = ApplyResult(
    ok: bool, checked: bool, applied: bool,
    repoPath: string, patchPath: string,
    porcelain: string, diffStat: string,
    checkStdout: string, checkStderr: string,
    applyStdout: string, applyStderr: string,
    reportPath: Option<string>)

  /** The commands started, and what `apply_patch` returned or raised. */
  datatype ApplyRun = ApplyRun(ran: seq<GitCommand>, outcome: Result<ApplyResult, Exception>)

  const RepoMissing: string := "repo_path does not exist or is not a directory: "
  const PatchMissing: string := "patch_path does not exist or is not a file: "
  const StatusFailed: string := "git status failed: "
  const NotClean: string := "working tree not clean; refusing to apply patch. Commit/stash/clean and retry.\ngit status --porcelain:\n"
  const TimeoutName: string := "TimeoutExpired"

  function NotCleanMessage(porcelain: string): string {
    NotClean + porcelain
  }

  /** The exception a git command that ran past its time-out raises. */
  function Timeout(message: string): Exception {
    Exception(TimeoutName, message)
  }

  /** The command finished and exited with status 0. */
  predicate ExitedZero(g: GitRun) {
    g.Finished? && g.returncode == 0
  }

  /** The run gets past the path checks, `git status` and the clean-tree guard. */
  predicate ReachesCheck(repo: Repo, requireClean: bool) {
    && repo.isDir && repo.isFile && ExitedZero(repo.status)
    && !(requireClean && Strip(repo.status.stdout) != "")
  }

  /** None of the git commands started after the guard runs past its time-out. */
  predicate FinishesAfterGuard(repo: Repo, checkOnly: bool) {
    && repo.check.Finished?
    && (ExitedZero(repo.check) && !checkOnly ==> repo.apply.Finished?)
    && (ExitedZero(repo.check) && !checkOnly && ExitedZero(repo.apply) ==> repo.diffStat.Finished?)
  }

  /** What a returned result says about the run: it was checked, it applied
      exactly when both git commands succeeded and it was allowed to, it is
      ok exactly when the check passed and, unless only checking, the apply
      did too; and it carries the stripped output of each command that ran. */
  predicate Reports(a: ApplyResult, repoPath: string, patchPath: string, checkOnly: bool, repo: Repo)
    requires repo.status.Finished? && FinishesAfterGuard(repo, checkOnly)
  {
    && a.checked && (a.applied ==> a.ok)
    && (a.applied <==> ExitedZero(repo.check) && !checkOnly && ExitedZero(repo.apply))
    && (a.ok <==> ExitedZero(repo.check) && (checkOnly || ExitedZero(repo.apply)))
    && a.repoPath == repoPath && a.patchPath == patchPath
    && a.porcelain == Strip(repo.status.stdout)
    && a.checkStdout == Strip(repo.check.stdout) && a.checkStderr == Strip(repo.check.stderr)
    && (a.applied ==> a.diffStat == Strip(repo.diffStat.stdout))
    && (!a.applied ==> a.diffStat == "")
    && (ExitedZero(repo.check) && !checkOnly ==>
          a.applyStdout == Strip(repo.apply.stdout) && a.applyStderr == Strip(repo.apply.stderr))
    && (!(ExitedZero(repo.check) && !checkOnly) ==> a.applyStdout == "" && a.applyStderr == "")
    && a.reportPath.None?
  }

  /** `git apply` finished; unless it failed, `git diff --stat` runs last. */
  function AfterApply(repoPath: string, patchPath: string, porcelain: string, checkOut: string, checkErr: string,
                      apply: GitRun, diffStat: GitRun): (r: ApplyRun)
    requires apply.Finished?
    ensures (DiffStat in r.ran) <==> ExitedZero(apply)
    ensures ApplyCheck in r.ran && ApplyIt in r.ran
    ensures r.outcome.Ok? <==> !ExitedZero(apply) || diffStat.Finished?
    ensures r.outcome.Err? ==> r.outcome == Err(Timeout(diffStat.message))
    ensures r.outcome.Ok? ==>
      var a := r.outcome.value;
      && a.checked && (a.ok <==> ExitedZero(apply)) && (a.applied <==> ExitedZero(apply))
      && a.repoPath == repoPath && a.patchPath == patchPath && a.porcelain == porcelain
      && a.checkStdout == checkOut && a.checkStderr == checkErr
      && a.applyStdout == Strip(apply.stdout) && a.applyStderr == Strip(apply.stderr)
      && a.diffStat == (if ExitedZero(apply) then Strip(diffStat.stdout) else "")
      && a.reportPath.None?
  {
    var applyOut := Strip(apply.stdout);
    var applyErr := Strip(apply.stderr);
    if apply.returncode != 0 then
      ApplyRun([StatusPorcelain, ApplyCheck, ApplyIt],
               Ok(ApplyResult(false, true, false, repoPath, patchPath, porcelain, "", checkOut, checkErr, applyOut, applyErr, None)))
    else match diffStat
      case TimedOut(m) => ApplyRun([StatusPorcelain, ApplyCheck, ApplyIt, DiffStat], Err(Timeout(m)))
      case Finished(_, out, _) =>
        ApplyRun([StatusPorcelain, ApplyCheck, ApplyIt, DiffStat],
                 Ok(ApplyResult(true, true, true, repoPath, patchPath, porcelain, Strip(out),
                                checkOut, checkErr, applyOut, applyErr, None)))
  }

  /** The part of `apply_patch` after the clean-tree guard: `git apply --check`,
      then, unless only checking and if the check passed, `git apply` and,
      if that succeeded, `git diff --stat`. Any of them may time out. */
  function CheckThenApply(repoPath: string, patchPath: string, checkOnly: bool, repo: Repo): (r: ApplyRun)
    requires repo.status.Finished?
    ensures ApplyCheck in r.ran
    ensures (ApplyIt in r.ran) <==> ExitedZero(repo.check) && !checkOnly
    ensures (DiffStat in r.ran) <==> ExitedZero(repo.check) && !checkOnly && ExitedZero(repo.apply)
    ensures r.outcome.Ok? <==> FinishesAfterGuard(repo, checkOnly)
    ensures r.outcome.Err? ==> r.outcome.error.name == TimeoutName
    ensures r.outcome.Ok? ==> Reports(r.outcome.value, repoPath, patchPath, checkOnly, repo)
  {
    var porcelain := Strip(repo.status.stdout);
    match repo.check
    case TimedOut(m) => ApplyRun([StatusPorcelain, ApplyCheck], Err(Timeout(m)))
    case Finished(code, out, err) =>
      var checkOut := Strip(out);
      var checkErr := Strip(err);
      if code != 0 then
        ApplyRun([StatusPorcelain, ApplyCheck],
                 Ok(ApplyResult(false, true, false, repoPath, patchPath, porcelain, "", checkOut, checkErr, "", "", None)))
      else if checkOnly then
        ApplyRun([StatusPorcelain, ApplyCheck],
                 Ok(ApplyResult(true, true, false, repoPath, patchPath, porcelain, "", checkOut, checkErr, "", "", None)))
      else match repo.apply
        case TimedOut(m) => ApplyRun([StatusPorcelain, ApplyCheck, ApplyIt], Err(Timeout(m)))
        case Finished(_, _, _) => AfterApply(repoPath, patchPath, porcelain, checkOut, checkErr, repo.apply, repo.diffStat)
  }

  /** The guards `apply_patch` raises from before `git apply --check` runs:
      a missing repository or patch, a failing or timed-out `git status`, or
      a dirty tree when a clean one is required. */
  function Refusal(repoPath: string, patchPath: string, requireClean: bool, repo: Repo): (r: Option<ApplyRun>)
    ensures r.None? <==> ReachesCheck(repo, requireClean)
    ensures r.Some? ==> r.value.outcome.Err? && ApplyCheck !in r.value.ran && ApplyIt !in r.value.ran
    ensures repo.isDir && repo.isFile && repo.status.TimedOut? ==>
      r == Some(ApplyRun([StatusPorcelain], Err(Timeout(repo.status.message))))
    ensures requireClean && repo.isDir && repo.isFile && ExitedZero(repo.status) && Strip(repo.status.stdout) != "" ==>
      r == Some(ApplyRun([StatusPorcelain], Err(Exception("RuntimeError", NotCleanMessage(Strip(repo.status.stdout))))))
  {
    if !repo.isDir then
      Some(ApplyRun([], Err(Exception("ValueError", RepoMissing + repoPath))))
    else if !repo.isFile then
      Some(ApplyRun([], Err(Exception("ValueError", PatchMissing + patchPath))))
    else match repo.status
      case TimedOut(m) => Some(ApplyRun([StatusPorcelain], Err(Timeout(m))))
      case Finished(code, out, err) =>
        if code != 0 then
          Some(ApplyRun([StatusPorcelain], Err(Exception("RuntimeError", StatusFailed + Strip(err)))))
        else if requireClean && Strip(out) != "" then
          Some(ApplyRun([StatusPorcelain], Err(Exception("RuntimeError", NotCleanMessage(Strip(out))))))
        else
          None
  }

  /** `apply_patch(repo_path, patch_path, require_clean=..., check_only=...)`,
      with both paths already made absolute. */
  function ApplyPatch(repoPath: string, patchPath: string, requireClean: bool, checkOnly: bool, repo: Repo): (r: ApplyRun)
    ensures r.outcome.Ok? <==> ReachesCheck(repo, requireClean) && FinishesAfterGuard(repo, checkOnly)
    ensures (ApplyCheck in r.ran) <==> ReachesCheck(repo, requireClean)
    ensures (ApplyIt in r.ran) <==> ReachesCheck(repo, requireClean) && ExitedZero(repo.check) && !checkOnly
    ensures (DiffStat in r.ran) <==>
      ReachesCheck(repo, requireClean) && ExitedZero(repo.check) && !checkOnly && ExitedZero(repo.apply)
    ensures requireClean && repo.isDir && repo.isFile && ExitedZero(repo.status) && Strip(repo.status.stdout) != "" ==>
      r.outcome == Err(Exception("RuntimeError", NotCleanMessage(Strip(repo.status.stdout))))
    ensures ReachesCheck(repo, requireClean) && r.outcome.Err? ==> r.outcome.error.name == TimeoutName
    ensures r.outcome.Ok? ==> Reports(r.outcome.value, repoPath, patchPath, checkOnly, repo)
  {
    match Refusal(repoPath, patchPath, requireClean, repo)
    case Some(refused) => refused
    case None => CheckThenApply(repoPath, patchPath, checkOnly, repo)
  }

  /** A run that returns, whatever the inputs, has been checked, and has
      applied only if both git commands succeeded. */
  lemma AppliedOnlyWhenBothSucceed(repoPath: string, patchPath: string, requireClean: bool, checkOnly: bool, repo: Repo)
    requires ApplyPatch(repoPath, patchPath, requireClean, checkOnly, repo).outcome.Ok?
    ensures var a := ApplyPatch(repoPath, patchPath, requireClean, checkOnly, repo).outcome.value;
      a.checked && (a.applied ==> a.ok && ExitedZero(repo.check) && ExitedZero(repo.apply))
  {
  }

  /** A `git diff --stat` that times out after a successful `git apply` makes
      `apply_patch` raise although the patch is already in the working tree. */
  lemma DiffStatTimeoutHidesApply(repoPath: string, patchPath: string, requireClean: bool, repo: Repo)
    requires ReachesCheck(repo, requireClean) && ExitedZero(repo.check) && ExitedZero(repo.apply)
    requires repo.diffStat.TimedOut?
    ensures var r := ApplyPatch(repoPath, patchPath, requireClean, false, repo);
      ApplyIt in r.ran && r.outcome == Err(Timeout(repo.diffStat.message))
  {
  }

  // ---- The apply report ----

  /** A report section: a `## heading` line and a fenced block of `body` lines. */
  datatype Fenced = Fenced(heading: string, body: seq<string>)

  const PorcelainHeading: string := "Pre-check git status (porcelain)"
  const CheckHeading: string := "git apply --check (stdout/stderr)"
  const ApplyHeading: string := "git apply (stdout/stderr)"
  const DiffStatHeading: string := "git diff --stat"

  /** The non-empty strings among `xs`, in order (the `if x: lines.append(x)` pattern). */
  function NonEmpty(xs: seq<string>): (r: seq<string>)
    ensures |r| <= |xs|
    ensures forall i :: 0 <= i < |r| ==> r[i] != "" && r[i] in xs
    ensures forall i :: 0 <= i < |xs| && xs[i] != "" ==> xs[i] in r
    ensures |xs| == 1 ==> r == (if xs[0] == "" then [] else xs)
  {
    if xs == [] then []
    else (if xs[0] != "" then [xs[0]] else []) + NonEmpty(xs[1..])
  }

  /** Filtering distributes over concatenation: together with the singleton
      case this pins `NonEmpty` down as an order-preserving filter. */
  lemma {:induction false} NonEmptyAppend(xs: seq<string>, ys: seq<string>)
    ensures NonEmpty(xs + ys) == NonEmpty(xs) + NonEmpty(ys)
    decreases |xs|
  {
    if xs == [] {
      assert xs + ys == ys;
    } else {
      assert (xs + ys)[0] == xs[0] && (xs + ys)[1..] == xs[1..] + ys;
      NonEmptyAppend(xs[1..], ys);
    }
  }

  /** The fenced sections of the report, in order. */
  function Sections(a: ApplyResult): (r: seq<Fenced>)
    ensures |r| == 2 + (if a.porcelain != "" then 1 else 0) + (if a.diffStat != "" then 1 else 0)
  {
    (if a.porcelain != "" then [Fenced(PorcelainHeading, [a.porcelain])] else [])
    + [Fenced(CheckHeading, NonEmpty([a.checkStdout, a.checkStderr]))]
    + [Fenced(ApplyHeading, NonEmpty([a.applyStdout, a.applyStderr]))]
    + (if a.diffStat != "" then [Fenced(DiffStatHeading, [a.diffStat])] else [])
  }

  /** The headings of a list of sections. */
  function Headings(fs: seq<Fenced>): (r: seq<string>)
    ensures |r| == |fs| && forall i :: 0 <= i < |fs| ==> r[i] == fs[i].heading
  {
    if fs == [] then [] else [fs[0].heading] + Headings(fs[1..])
  }

  /** The porcelain section appears exactly when the porcelain output is
      non-empty, the diff-stat section exactly when the diff stat is, and the
      check and apply sections always, in that order. */
  lemma {:induction false} ReportSectionSelection(a: ApplyResult)
    ensures var h := Headings(Sections(a));
      && (PorcelainHeading in h <==> a.porcelain != "")
      && (DiffStatHeading in h <==> a.diffStat != "")
      && CheckHeading in h && ApplyHeading in h
      && h == (if a.porcelain != "" then [PorcelainHeading] else []) + [CheckHeading, ApplyHeading]
              + (if a.diffStat != "" then [DiffStatHeading] else [])
  {
    var s := Sections(a);
    var h := Headings(s);
    var expected := (if a.porcelain != "" then [PorcelainHeading] else []) + [CheckHeading, ApplyHeading]
                    + (if a.diffStat != "" then [DiffStatHeading] else []);
    assert |h| == |expected|;
    forall i | 0 <= i < |h| ensures h[i] == expected[i] {
      assert h[i] == s[i].heading;
    }
    assert h == expected;
  }

  /** A section as lines: heading, opening fence, body, closing fence, blank line. */
  function RenderFenced(f: Fenced): (r: seq<string>)
    ensures |r| == |f.body| + 4 && r[0] == "## " + f.heading
  {
    ["## " + f.heading, "```"] + f.body + ["```", ""]
  }

  function RenderSections(fs: seq<Fenced>): (r: seq<string>)
    ensures |r| >= 4 * |fs|
  {
    if fs == [] then [] else RenderFenced(fs[0]) + RenderSections(fs[1..])
  }

  /** Python's `str(b)` for a bool. */
  function PyBool(b: bool): (r: string)
    ensures r == "True" <==> b
    ensures r == "False" <==> !b
  {
    if b then "True" else "False"
  }

  /** The value of a string of decimal digits, most significant first. */
  function DigitsValue(s: string): int {
    if s == [] then 0 else 10 * DigitsValue(s[..|s| - 1]) + (s[|s| - 1] as int - '0' as int)
  }

  /** Python's `str(n)` for a natural number: decimal digits that read back as `n`. */
  function Decimal(n: nat): (r: string)
    ensures |r| > 0 && forall i :: 0 <= i < |r| ==> '0' <= r[i] <= '9'
    ensures DigitsValue(r) == n
    decreases n
  {
    var digit := ["0123456789"[n % 10]];
    assert digit[0] as int - '0' as int == n % 10;
    if n < 10 then digit
    else
      var r := Decimal(n / 10) + digit;
      assert r[..|r| - 1] == Decimal(n / 10);
      r
  }

  const ReportTitle: string := "# Patch Apply Report — "
  const OutcomeHeading: string := "## Outcome"

  /** A `- **key:** `value`` bullet line of the report. */
  function Bullet(key: string, value: string): string {
    "- **" + key + ":** `" + value + "`"
  }

  /** The report's lines before its fenced sections: title, inputs and outcome. */
  function HeaderLines(name: string, purpose: string, repoPath: string, patchPath: string,
                       ts: string, patchSha: string, patchBytes: nat, a: ApplyResult): (r: seq<string>)
    ensures |r| == 14 && r[0] == ReportTitle + name && r[9] == OutcomeHeading
    ensures r[1] == "" && r[8] == "" && r[13] == ""
    ensures r[7] == Bullet("patch_bytes", Decimal(patchBytes))
    ensures r[10] == Bullet("ok", "True") <==> a.ok
    ensures r[11] == Bullet("checked", "True") <==> a.checked
    ensures r[12] == Bullet("applied", "True") <==> a.applied
  {
    [ ReportTitle + name,
      "",
      Bullet("ts (UTC)", ts),
      Bullet("purpose", purpose),
      Bullet("repo_path", repoPath),
      Bullet("patch_path", patchPath),
      Bullet("patch_sha256", patchSha),
      Bullet("patch_bytes", Decimal(patchBytes)),
      "",
      OutcomeHeading,
      Bullet("ok", PyBool(a.ok)),
      Bullet("checked", PyBool(a.checked)),
      Bullet("applied", PyBool(a.applied)),
      "" ]
  }

  /** `"\n".join(header + sections) + "\n"`: the header's lines, a line break,
      the sections' lines, and a final line break. */
  function ReportText(header: seq<string>, sections: seq<string>): (r: string)
    requires header != [] && sections != []
    ensures r == Join(header, "\n") + "\n" + Join(sections, "\n") + "\n"
  {
    JoinAppend(header, sections, "\n");
    Join(header + sections, "\n") + "\n"
  }

  /** The text `write_apply_report` writes: the header lines, then the
      rendered sections, joined by line breaks and ending in one. */
  function ReportContent(name: string, purpose: string, repoPath: string, patchPath: string,
                         ts: string, patchSha: string, patchBytes: nat, a: ApplyResult): (r: string)
    ensures r == Join(HeaderLines(name, purpose, repoPath, patchPath, ts, patchSha, patchBytes, a), "\n") + "\n"
                 + Join(RenderSections(Sections(a)), "\n") + "\n"
    ensures |r| > 0 && r[|r| - 1] == '\n'
  {
    ReportText(HeaderLines(name, purpose, repoPath, patchPath, ts, patchSha, patchBytes, a), RenderSections(Sections(a)))
  }

  /** What `write_apply_report` writes and returns. */
  datatype Report = Report(path: string, content: string, meta: Object)

  const ReportSuffix: string := "_apply_report"

  /** Where the report of run `name` at stamp `ts` goes: `<repo>/artifacts/docs/<ts>_<name>_apply_report.md`. */
  function ReportPath(repoPath: string, name: string, ts: string): string {
    Artifacts.JoinPath(Artifacts.JoinPath(Artifacts.JoinPath(repoPath, "artifacts"), "docs"), ts + "_" + name + ReportSuffix + ".md")
  }

  /** With an empty `repo_path` the report lands under the working directory,
      at the relative path `artifacts/docs/<ts>_<name>_apply_report.md`; with
      an absolute one, under that directory. */
  lemma ReportPathPlacement(repoPath: string, name: string, ts: string)
    ensures var file := ts + "_" + name + "_apply_report.md";
      && (file[0] != '/' && repoPath == "" ==> ReportPath(repoPath, name, ts) == "artifacts/docs/" + file)
      && (file[0] != '/' && repoPath != "" ==> ReportPath(repoPath, name, ts) == repoPath + "/artifacts/docs/" + file)
  {
    var file := ts + "_" + name + "_apply_report.md";
    assert ts + "_" + name + ReportSuffix + ".md" == file;
    if repoPath != "" {
      assert repoPath + "/" + "artifacts" + "/" + "docs" + "/" + file == repoPath + "/artifacts/docs/" + file;
    } else {
      assert "artifacts" + "/" + "docs" + "/" + file == "artifacts/docs/" + file;
    }
  }

  /** The returned `report_meta`: a doc record naming the report and where it went. */
  function ReportMeta(name: string, purpose: string, ts: string, path: string, reportBytes: nat): (r: Object)
    ensures r.Keys == {"kind", "meta"} && r["kind"] == JString("doc")
    ensures r["meta"].JObject? && r["meta"].fields.Keys == {"ts", "name", "purpose", "path", "bytes"}
    ensures r["meta"].fields["name"] == JString(name + ReportSuffix) && r["meta"].fields["path"] == JString(path)
    ensures r["meta"].fields["ts"] == JString(ts) && r["meta"].fields["bytes"] == JInt(reportBytes)
    ensures r["meta"].fields["purpose"] == JString(purpose)
  {
    map["kind" := JString("doc"),
        "meta" := JObject(map["ts" := JString(ts), "name" := JString(name + ReportSuffix), "purpose" := JString(purpose),
                              "path" := JString(path), "bytes" := JInt(reportBytes)])]
  }

  /** `write_apply_report(repo_path=..., name=..., purpose=..., patch_path=..., apply_result=...)`.
      `ts` is the compact UTC stamp; the patch's digest and size and the
      report's size on disk are inputs. */
  function WriteApplyReport(repoPath: string, name: string, purpose: string, patchPath: string, a: ApplyResult,
                            ts: string, patchSha: string, patchBytes: nat, reportBytes: nat): (r: Report)
    ensures r.path == ReportPath(repoPath, name, ts)
    ensures r.meta == ReportMeta(name, purpose, ts, r.path, reportBytes)
    ensures r.content == ReportContent(name, purpose, repoPath, patchPath, ts, patchSha, patchBytes, a)
    ensures r.meta["meta"].fields["path"] == JString(r.path)
    ensures |r.content| > 0 && r.content[|r.content| - 1] == '\n'
  {
    var path := ReportPath(repoPath, name, ts);
    Report(path, ReportContent(name, purpose, repoPath, patchPath, ts, patchSha, patchBytes, a),
           ReportMeta(name, purpose, ts, path, reportBytes))
  }
}
