/** The pure parts of the three agent tools and of the start-up key check:
    the renderer quality flag, the text `run_manim_code` reports for a render,
    and the validation of the OpenAI API key. */
module ManimTools {
  import opened Wrappers
  import opened Text

  /** Names under which the model may call the tools. */
  const GenerateToolName: string := "generate_manim_code"
  const RunToolName: string := "run_manim_code"
  const ConfigToolName: string := "get_manim_configuration"

  /** Quality used when MANIM_QUALITY is unset. */
  const DefaultQuality: string := "medium"

  /** Renderer flags for the recognised quality names. */
  const QualityFlags: map<string, string> := map["low" := "-ql", "medium" := "-qm", "high" := "-qh"]

  /** Flag used for any unrecognised quality name. */
  const FallbackFlag: string := "-qm"

  /** The renderer flag chosen for the MANIM_QUALITY setting (`None` when the
      variable is unset): the lower-cased name looked up in `QualityFlags`,
      falling back to medium quality. */
  function QualityFlag(setting: Option<string>): (flag: string)
    ensures flag == "-ql" || flag == "-qm" || flag == "-qh"
    ensures flag == "-ql" <==> setting.Some? && AsciiLower(setting.value) == "low"
    ensures flag == "-qh" <==> setting.Some? && AsciiLower(setting.value) == "high"
    ensures setting.None? ==> flag == "-qm"
  {
    var quality := AsciiLower(setting.GetOr(DefaultQuality));
    if quality in QualityFlags then QualityFlags[quality] else FallbackFlag
  }

  /** The flag depends on the setting only up to letter case. */
  lemma QualityFlagIgnoresCase(setting: string)
    ensures QualityFlag(Some(setting)) == QualityFlag(Some(AsciiLower(setting)))
  {
    AsciiLowerIdempotent(setting);
  }

  /** What the renderer process did: it ran and exited with a status and a
      captured error stream, or it could not be launched at all. */
  datatype RunOutcome =
    | Exited(code: int, stderr: string)
    | LaunchFailed(error: string)

  const SuccessMessage: string := "Manim execution successful."
  const FailurePrefix: string := "Manim execution failed: "
  const LaunchErrorPrefix: string := "Error running Manim: "

  /** The word the agent loop searches a run result for. */
  const SuccessWord: string := "successful"

  /** The text `run_manim_code` returns for a render outcome. The success text
      is produced for a zero exit status and for nothing else; any other
      outcome keeps its diagnostic verbatim after a fixed prefix. */
  function RunResultMessage(outcome: RunOutcome): (text: string)
    ensures text == SuccessMessage <==> outcome.Exited? && outcome.code == 0
    ensures outcome.Exited? && outcome.code != 0 ==>
              FailurePrefix <= text && text[|FailurePrefix|..] == outcome.stderr
    ensures outcome.LaunchFailed? ==>
              LaunchErrorPrefix <= text && text[|LaunchErrorPrefix|..] == outcome.error
  {
    match outcome
    case Exited(code, stderr) =>
      if code == 0 then SuccessMessage
      else
        var text := FailurePrefix + stderr;
        // The texts part where "failed" and "successful" begin.
        assert text[|"Manim execution "|] != SuccessMessage[|"Manim execution "|];
        text
    case LaunchFailed(error) =>
      var text := LaunchErrorPrefix + error;
      assert text[0] != SuccessMessage[0];
      text
  }

  /** The agent loop's success test on a run result: a substring search. */
  predicate ReportsSuccess(result: string) {
    Contains(result, SuccessWord)
  }

  /** The render outcomes the loop takes for success: a zero exit, but also
      any failure whose diagnostic mentions the word. */
  predicate ReadAsSuccess(outcome: RunOutcome) {
    match outcome
    case Exited(code, stderr) => code == 0 || Contains(stderr, SuccessWord)
    case LaunchFailed(error) => Contains(error, SuccessWord)
  }

  /** The success test on a run result accepts exactly the outcomes of
      `ReadAsSuccess`. */
  lemma RunResultSuccessIff(outcome: RunOutcome)
    ensures ReportsSuccess(RunResultMessage(outcome)) <==> ReadAsSuccess(outcome)
  {
    match outcome
    case Exited(code, stderr) =>
      if code == 0 {
        assert SuccessMessage == "Manim execution " + SuccessWord + ".";
        ContainsInfix("Manim execution ", SuccessWord, ".");
      } else {
        ContainsPastPrefix(FailurePrefix, stderr, SuccessWord);
      }
    case LaunchFailed(error) =>
      ContainsPastPrefix(LaunchErrorPrefix, error, SuccessWord);
  }

  /** A render that failed with "unsuccessful" in its diagnostic reads as a
      success, because the search finds "successful" inside "unsuccessful". */
  lemma UnsuccessfulReadsAsSuccess()
    ensures ReportsSuccess(RunResultMessage(Exited(1, "Rendering unsuccessful")))
  {
    var diagnostic := "Rendering un" + SuccessWord;
    ContainsInfix("Rendering un", SuccessWord, "");
    assert "Rendering un" + SuccessWord + "" == diagnostic;
    RunResultSuccessIff(Exited(1, diagnostic));
    assert diagnostic == "Rendering unsuccessful";
  }

  /** Keys must start with this prefix. */
  const KeyPrefix: string := "sk-"

  datatype KeyProblem = KeyMissing | KeyMalformed

  /** Result of the start-up key check: the key, or a process exit. */
  datatype KeyCheck =
    | KeyAccepted(key: string)
    | ExitProcess(status: int, problem: KeyProblem)

  /** Start-up validation of OPENAI_API_KEY (`None` when unset). An unset or
      empty key and a key without the "sk-" prefix both end the process with
      status 1; a well-formed key is returned unchanged. */
  function ValidateApiKey(env: Option<string>): (r: KeyCheck)
    ensures r.KeyAccepted? <==> env.Some? && KeyPrefix <= env.value
    ensures r.KeyAccepted? ==> r.key == env.value && |r.key| >= 3
    ensures r.ExitProcess? ==> r.status == 1
    ensures r.ExitProcess? && r.problem == KeyMissing <==> env == None || env == Some("")
  {
    if env.None? || env.value == "" then ExitProcess(1, KeyMissing)
    else if !(KeyPrefix <= env.value) then ExitProcess(1, KeyMalformed)
    else KeyAccepted(env.value)
  }
}
