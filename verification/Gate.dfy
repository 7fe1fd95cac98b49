/** What the orchestrator, the sandbox and the composer exchange, and the merge gate
    (orchestrator/gate.ts). `sha` stands for the SHA-256 hex digest, about which nothing
    is assumed. */
module Gate {

  datatype PlanStep = PlanStep(id: string, file: string, intent: string, acceptance: string)

  datatype Candidate = Candidate(stepId: string, file: string, unifiedDiff: string, rationale: string)

  datatype SandboxRun = SandboxRun(
    branchTag: string, parentTag: string, exitCode: int, stdout: string, stderr: string,
    durationMs: int, verifiedSha: string, rolledBack: bool)

  datatype Refusal = ExitCode(code: int) | ShaMismatch(expected: string, got: string) | EmptyDiff | EmptyFile

  datatype Verdict = Green | Red(why: Refusal)

  function IsMergeable(sha: string -> string, d: Candidate, r: SandboxRun): Verdict {
    if r.exitCode != 0 then Red(ExitCode(r.exitCode))
    else if r.verifiedSha != sha(d.unifiedDiff) then Red(ShaMismatch(sha(d.unifiedDiff), r.verifiedSha))
    else if |d.unifiedDiff| == 0 then Red(EmptyDiff)
    else if |d.file| == 0 then Red(EmptyFile)
    else Green
  }

  /** A green build: the test run ended with exit code 0, it ran this very diff, and the
      diff and its target file are not empty. */
  predicate GreenBuild(sha: string -> string, d: Candidate, r: SandboxRun) {
    r.exitCode == 0 && r.verifiedSha == sha(d.unifiedDiff) && d.unifiedDiff != "" && d.file != ""
  }

  lemma GateExact(sha: string -> string, d: Candidate, r: SandboxRun)
    ensures IsMergeable(sha, d, r).Green? <==> GreenBuild(sha, d, r)
  {
  }

  datatype AcceptedStep = AcceptedStep(step: PlanStep, diff: Candidate, run: SandboxRun)
}
