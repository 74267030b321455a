/**
 * The batch driver of run_mini_pipeline.py: the agent's script is cut out of
 * the agent's source file by a line scanner, one transcript is simulated per
 * generated personality, and all transcripts go to the optimizer at once.
 */
module MiniPipeline {
  import opened Wrappers
  import opened Text
  import opened Simulation
  import opened Optimizer

  /** A line holding this text starts the script. */
  const InitMarker := "super().__init__("

  predicate StartsScript(line: string)
  {
    Contains(line, InitMarker)
  }

  /** A closing parenthesis ends the script, unless the line also holds the marker. */
  predicate EndsScript(line: string)
  {
    Contains(line, ")") && !Contains(line, InitMarker)
  }

  /** The first index at or after `from` whose line matches, or |lines| when none does. */
  function FirstMatch(lines: seq<string>, from: nat, matches: string -> bool): (k: nat)
    requires from <= |lines|
    ensures from <= k <= |lines|
    ensures forall j :: from <= j < k ==> !matches(lines[j])
    ensures k < |lines| ==> matches(lines[k])
    decreases |lines| - from
  {
    if from == |lines| || matches(lines[from]) then from else FirstMatch(lines, from + 1, matches)
  }

  /** The index of the first marker line, or |lines| when there is none. */
  function ScriptStart(lines: seq<string>): nat
  {
    FirstMatch(lines, 0, StartsScript)
  }

  /** One past the last script line: just past the first ending line after the start, or the end of the input. */
  function ScriptEnd(lines: seq<string>): nat
    requires ScriptStart(lines) < |lines|
  {
    var stop := FirstMatch(lines, ScriptStart(lines) + 1, EndsScript);
    if stop < |lines| then stop + 1 else |lines|
  }

  /** The lines the scanner collects. */
  function ScriptLines(lines: seq<string>): (script: seq<string>)
    ensures |script| > 0 <==> ScriptStart(lines) < |lines|
    ensures |script| > 0 ==> StartsScript(script[0])
  {
    if ScriptStart(lines) == |lines| then [] else lines[ScriptStart(lines) .. ScriptEnd(lines)]
  }

  /** The script `get_original_script` returns: the collected lines concatenated. */
  function ExtractScript(lines: seq<string>): string
  {
    Join("", ScriptLines(lines))
  }

  /** Without a marker line the script is empty. */
  lemma NoMarkerNoScript(lines: seq<string>)
    requires forall j :: 0 <= j < |lines| ==> !StartsScript(lines[j])
    ensures ExtractScript(lines) == ""
  {
  }

  /**
   * With a marker line, the script is the run of lines from the first marker
   * line through the first later line that ends it (or through the last line),
   * concatenated in order; no line strictly inside the run ends it.
   */
  lemma ScriptLinesShape(lines: seq<string>)
    requires exists j :: 0 <= j < |lines| && StartsScript(lines[j])
    ensures ScriptStart(lines) < ScriptEnd(lines) <= |lines|
    ensures forall j :: 0 <= j < ScriptStart(lines) ==> !StartsScript(lines[j])
    ensures StartsScript(lines[ScriptStart(lines)])
    ensures ScriptLines(lines) == lines[ScriptStart(lines) .. ScriptEnd(lines)]
    ensures forall j :: ScriptStart(lines) < j < ScriptEnd(lines) - 1 ==> !EndsScript(lines[j])
    ensures ScriptEnd(lines) == |lines| || EndsScript(lines[ScriptEnd(lines) - 1])
    ensures |ExtractScript(lines)| == TotalLength(ScriptLines(lines))
    ensures lines[ScriptStart(lines)] <= ExtractScript(lines)
  {
    JoinLength("", ScriptLines(lines));
    JoinAt("", ScriptLines(lines), 0);
  }

  /**
   * `get_original_script` over the file's lines: a flag set by the first
   * marker line, every line from then on collected, and a break after the
   * first collected line that has ")" and no marker.
   */
  method GetOriginalScript(lines: seq<string>) returns (script: string)
    ensures script == ExtractScript(lines)
  {
    var scriptStarted := false;
    var scriptLines: seq<string> := [];
    for i := 0 to |lines|
      invariant scriptStarted <==> ScriptStart(lines) < i
      invariant !scriptStarted ==> scriptLines == []
      invariant scriptStarted ==>
        FirstMatch(lines, ScriptStart(lines) + 1, EndsScript) >= i &&
        scriptLines == lines[ScriptStart(lines) .. i]
    {
      var line := lines[i];
      if Contains(line, InitMarker) {
        scriptStarted := true;
      }
      if scriptStarted {
        scriptLines := scriptLines + [line];
      }
      if Contains(line, ")") && scriptStarted && !Contains(line, InitMarker) {
        assert FirstMatch(lines, ScriptStart(lines) + 1, EndsScript) == i;
        assert scriptLines == ScriptLines(lines);
        break;
      }
    }
    assert scriptLines == ScriptLines(lines);
    script := Join("", scriptLines);
  }

  /** The number of simulated conversations per batch. */
  const NumSimulations := 5

  /** The three ways `main` ends. */
  datatype PipelineOutcome =
    | MissingApiKey
    | SimulationFailed(run: nat, error: SimulationError)
    | Completed(originalScript: string, conversationLogs: seq<seq<Message>>, optimizationResults: string)

  /** `not OPENAI_API_KEY`: unset or empty. */
  predicate ApiKeyMissing(apiKey: Option<string>): (missing: bool)
    ensures apiKey == None ==> missing
    ensures apiKey == Some("") ==> missing
    ensures !missing ==> apiKey.Some? && |apiKey.value| > 0
  {
    apiKey.None? || apiKey.value == ""
  }

  /** The transcript `simulate` returns for a personality text that decodes to `data`, after `turns` rounds. */
  function SimulationOf(chatService: Completion, originalScript: string, personality: string,
                        data: Personality, turns: nat): seq<Message>
  {
    Transcript(chatService, originalScript, RolePlayPrompt(personality), StartingLine(data), turns)
  }

  /** Every one of the first n generated personalities decodes. */
  predicate AllDecode(generate: nat -> string, decode: PersonalityDecoder, n: nat)
  {
    forall j :: 0 <= j < n ==> decode(generate(j)).Some?
  }

  /** One run of the simulation loop: generate the i-th personality and simulate `turns` rounds with it. */
  method SimulateRun(chatSim: ChatSimulator, originalScript: string, generate: nat -> string,
                     decode: PersonalityDecoder, turns: nat, run: nat)
    returns (result: Result<seq<Message>, SimulationError>)
    ensures result.Failure? <==> decode(generate(run)).None?
    ensures result.Success? ==>
      result.value == SimulationOf(chatSim.client, originalScript, generate(run), decode(generate(run)).value, turns)
  {
    var personality := generate(run);
    result := chatSim.Simulate(originalScript, personality, decode, turns);
  }

  /**
   * The batch after the first n runs of the simulation loop: one transcript
   * per run, appended in run order, until a personality that does not decode
   * stops the batch with that run's error.
   */
  function Batch(chatService: Completion, originalScript: string, generate: nat -> string,
                 decode: PersonalityDecoder, turns: nat, n: nat): Result<seq<seq<Message>>, (nat, SimulationError)>
    // The measure is the pair (originalScript, n). Every call passes the same
    // script on, so the recursion ends because the run count n decreases.
    decreases originalScript, n
  {
    if n == 0 then Success([])
    else
      var before := Batch(chatService, originalScript, generate, decode, turns, n - 1);
      if before.Failure? then before
      else if decode(generate(n - 1)).None? then Failure((n - 1, MalformedPersonality))
      else
        var personality := generate(n - 1);
        Success(before.value + [SimulationOf(chatService, originalScript, personality, decode(personality).value, turns)])
  }

  /** Once a batch has failed, later runs keep that failure. */
  lemma {:induction false} BatchFailureSticks(chatService: Completion, originalScript: string,
                                              generate: nat -> string, decode: PersonalityDecoder,
                                              turns: nat, k: nat, n: nat)
    requires k <= n
    requires Batch(chatService, originalScript, generate, decode, turns, k).Failure?
    ensures Batch(chatService, originalScript, generate, decode, turns, n)
            == Batch(chatService, originalScript, generate, decode, turns, k)
    decreases n
  {
    if k < n {
      BatchFailureSticks(chatService, originalScript, generate, decode, turns, k, n - 1);
    }
  }

  /** A batch of n runs succeeds exactly when all n personalities decode. */
  lemma {:induction false} BatchSucceeds(chatService: Completion, originalScript: string,
                                         generate: nat -> string, decode: PersonalityDecoder, turns: nat, n: nat)
    ensures Batch(chatService, originalScript, generate, decode, turns, n).Success? <==> AllDecode(generate, decode, n)
    decreases n
  {
    if n > 0 {
      BatchSucceeds(chatService, originalScript, generate, decode, turns, n - 1);
    }
  }

  /** A successful batch of n runs holds n transcripts, each run's at that run's index. */
  lemma {:induction false} BatchContents(chatService: Completion, originalScript: string,
                                         generate: nat -> string, decode: PersonalityDecoder, turns: nat, n: nat)
    ensures var b := Batch(chatService, originalScript, generate, decode, turns, n);
      b.Success? ==>
        && |b.value| == n
        && forall j :: 0 <= j < n ==>
             decode(generate(j)).Some?
             && b.value[j] == SimulationOf(chatService, originalScript, generate(j), decode(generate(j)).value, turns)
    decreases n
  {
    if n > 0 {
      BatchContents(chatService, originalScript, generate, decode, turns, n - 1);
    }
  }

  /** A failed batch names the first run whose personality does not decode. */
  lemma {:induction false} BatchFails(chatService: Completion, originalScript: string,
                                      generate: nat -> string, decode: PersonalityDecoder, turns: nat, n: nat)
    ensures var b := Batch(chatService, originalScript, generate, decode, turns, n);
      b.Failure? ==>
        && b.error.0 < n
        && AllDecode(generate, decode, b.error.0)
        && decode(generate(b.error.0)).None?
    decreases n
  {
    if n > 0 {
      BatchFails(chatService, originalScript, generate, decode, turns, n - 1);
      if Batch(chatService, originalScript, generate, decode, turns, n - 1).Success? {
        BatchSucceeds(chatService, originalScript, generate, decode, turns, n - 1);
        assert AllDecode(generate, decode, n - 1);
      }
    }
  }

  /**
   * The simulation loop of `main`, which runs it with n = NumSimulations and
   * the default turns of `simulate`: the batch it returns is Batch of n runs.
   */
  method SimulateBatch(chatSim: ChatSimulator, originalScript: string, generate: nat -> string,
                       decode: PersonalityDecoder, turns: nat, n: nat)
    returns (result: Result<seq<seq<Message>>, (nat, SimulationError)>)
    ensures result == Batch(chatSim.client, originalScript, generate, decode, turns, n)
  {
    var allConversationLogs: seq<seq<Message>> := [];
    for i := 0 to n
      invariant Batch(chatSim.client, originalScript, generate, decode, turns, i) == Success(allConversationLogs)
    {
      var conversationLog := SimulateRun(chatSim, originalScript, generate, decode, turns, i);
      if conversationLog.Failure? {
        assert decode(generate(i)).None?;
        assert conversationLog.error == MalformedPersonality;
        assert Batch(chatSim.client, originalScript, generate, decode, turns, i + 1)
               == Failure((i, conversationLog.error));
        BatchFailureSticks(chatSim.client, originalScript, generate, decode, turns, i + 1, n);
        return Failure((i, conversationLog.error));
      }
      allConversationLogs := allConversationLogs + [conversationLog.value];
    }
    result := Success(allConversationLogs);
  }

  /**
   * `main`. The key comes from the environment, `agentSource` is the agent
   * file's lines, `generate(i)` is the personality text of the i-th
   * generation, and the two services answer the simulator and the optimizer.
   */
  method RunPipeline(apiKey: Option<string>, agentSource: seq<string>, generate: nat -> string,
                     decode: PersonalityDecoder, chatService: Completion, optimizerService: Completion)
    returns (outcome: PipelineOutcome)
    ensures ApiKeyMissing(apiKey) <==> outcome.MissingApiKey?
    ensures outcome.SimulationFailed? ==>
      && outcome.run < NumSimulations
      && AllDecode(generate, decode, outcome.run)
      && decode(generate(outcome.run)).None?
    ensures outcome.Completed? ==>
      && outcome.originalScript == ExtractScript(agentSource)
      && AllDecode(generate, decode, NumSimulations)
      && |outcome.conversationLogs| == NumSimulations
      && (forall j :: 0 <= j < NumSimulations ==>
            decode(generate(j)).Some?
            && outcome.conversationLogs[j]
               == SimulationOf(chatService, outcome.originalScript, generate(j), decode(generate(j)).value, DefaultMaxTurns))
      && outcome.optimizationResults
         == optimizerService(Request(OptimizePrompt(outcome.originalScript, FormatLogs(outcome.conversationLogs)), []))
    ensures !ApiKeyMissing(apiKey) && AllDecode(generate, decode, NumSimulations) ==> outcome.Completed?
  {
    if ApiKeyMissing(apiKey) {
      return MissingApiKey;
    }
    var chatSim := new ChatSimulator(chatService);
    var scriptOpt := new ScriptOptimizer(optimizerService);
    var originalScript := GetOriginalScript(agentSource);
    var allConversationLogs := SimulateBatch(chatSim, originalScript, generate, decode, DefaultMaxTurns, NumSimulations);
    BatchSucceeds(chatService, originalScript, generate, decode, DefaultMaxTurns, NumSimulations);
    BatchContents(chatService, originalScript, generate, decode, DefaultMaxTurns, NumSimulations);
    BatchFails(chatService, originalScript, generate, decode, DefaultMaxTurns, NumSimulations);
    if allConversationLogs.Failure? {
      return SimulationFailed(allConversationLogs.error.0, allConversationLogs.error.1);
    }
    var optimizationResults := scriptOpt.Optimize(originalScript, allConversationLogs.value);
    outcome := Completed(originalScript, allConversationLogs.value, optimizationResults);
  }
}
