# VasooliMan core in Dafny

VasooliMan is an outbound debt-collection voice agent. This project models its
deterministic parts and proves properties about them:

- **Conversation simulator** (`chat_simulator.py`). A synthetic debtor opens
  with a starting line. Then each round the agent, guided by its script, and
  the debtor, role-playing a personality, each add one message to the
  transcript. Module `Simulation`, file `simulation.dfy`.
- **Script optimizer** (`script_optimizer.py`). It renders a batch of
  transcripts as text and embeds the text, with the agent's script, in one
  prompt for the completion service. Module `Optimizer`, file `optimizer.dfy`.
- **Mini pipeline** (`run_mini_pipeline.py`). A line scanner cuts the agent's
  script out of its source file. Five transcripts are simulated, one per
  generated personality, and the batch goes to the optimizer. Module
  `MiniPipeline`, file `pipeline.dfy`.
- **Call agent** (`agent.py`). This covers the job metadata and its defaults,
  the agent's per-call fields, the participant, the dial request, the result
  records of the payment tools, and the opening greeting. Module `Agent`,
  file `agent.dfy`.

Module `Text` (`text.dfy`) defines Python's `needle in haystack` and
`sep.join(parts)`, with lemmas locating each part and separator in a join.
Module `Wrappers` holds `Option` and `Result`.

Every language-model call is an oracle, `Completion = seq<Message> -> string`:
the reply text as a function of the request's message list. Decoding a
personality with `json.loads` is also an oracle. It returns `None` where the
code would raise. The i-th generated personality is `generate(i)`.

Where the code and its design description differ, the model follows the code:

- Roles are the code's `user`, `assistant` and `system`.
- `simulate` accepts any `max_turns`. A negative count runs no rounds, as
  `range` does.
- `optimize` returns the raw reply text, not a parsed report.

## Model

| member | source | states |
|---|---|---|
| Text.Contains | run_mini_pipeline.py:27 | `needle in haystack`: some window of the haystack spells the needle; a prefix is found, and a found needle is no longer than the haystack |
| Text.Join | script_optimizer.py:17-18 | `sep.join(parts)`: no parts give "", one part gives itself, and otherwise the first part, the separator and the join of the rest follow each other (located by the Text join lemmas) |
| Simulation.StartingLine | chat_simulator.py:21 | the opening line is the personality's `starting_line`, or "Hello?" when that key is absent |
| Simulation.Rounds | chat_simulator.py:24 | `range(max_turns)` runs max_turns rounds, and none for a negative count |
| Simulation.Request | chat_simulator.py:38-43 | a request is one system message holding the instructions, then the history unchanged and in order |
| Simulation.RolePlayPrompt | chat_simulator.py:49-55 | the debtor's instructions: the fixed role-play opening, the raw personality text, then the fixed closing request for a short, realistic reply |
| Simulation.RolePlayEmbedsPersonality | chat_simulator.py:49-55 | the role-play instructions hold the personality text verbatim, right after the fixed opening |
| Simulation.Round | chat_simulator.py:25-31 | one round: the history, then the agent's reply to it, then the debtor's reply to the history with that agent reply appended |
| Simulation.Transcript | chat_simulator.py:18-31 | the transcript after n rounds has exactly 2n+1 entries |
| Simulation.TranscriptPrefix | chat_simulator.py:24-31 | after round n the transcript of round n-1 is still its prefix |
| Simulation.TranscriptStep | chat_simulator.py:24-31 | round n keeps the previous transcript as a prefix, then adds the agent's reply to it and the debtor's reply to that |
| Simulation.TranscriptRoles | chat_simulator.py:20-31 | the first entry is the user's opening line; even indices are user entries and odd indices are assistant entries |
| Simulation.TranscriptExtends | chat_simulator.py:27-31 | append-only: the transcript after fewer rounds is a prefix of the one after more rounds |
| Simulation.TranscriptReplies | chat_simulator.py:26-30 | in round k the agent is asked with the first 2k+1 entries and the debtor with the first 2k+2 entries, whose last entry is that round's agent reply |
| Simulation.DefaultTranscriptLength | chat_simulator.py:13 | with the default of seven turns the transcript has 15 entries |
| Simulation.ChatSimulator.constructor | chat_simulator.py:10-11 | the simulator keeps the client it is given |
| Simulation.ChatSimulator.GetAgentResponse | chat_simulator.py:36-45 | the agent is asked with a system message holding the script, followed by the history |
| Simulation.ChatSimulator.GetUserResponse | chat_simulator.py:47-63 | the debtor is asked with a system message holding the role-play prompt around the personality text, followed by the history |
| Simulation.ChatSimulator.Simulate | chat_simulator.py:13-34 | fails exactly when the personality does not decode; otherwise returns the transcript of Rounds(max_turns) rounds, of length 2n+1, opening with the starting line, with alternating roles |
| Optimizer.RenderMessage | script_optimizer.py:18 | one message as text: its role, ": ", then its content |
| Optimizer.RenderedMessages | script_optimizer.py:18 | one rendering per message, in the transcript's order |
| Optimizer.RenderLog | script_optimizer.py:18 | one transcript as text: its rendered messages joined by "\n" |
| Optimizer.RenderedLogs | script_optimizer.py:17-19 | one rendering per transcript, in the batch's order |
| Optimizer.FormatLogs | script_optimizer.py:17-19 | `formatted_logs`: the rendered transcripts joined by "\n\n---\n\n" (pinned down by the FormatLogs lemmas below) |
| Optimizer.FormatLogsSmall | script_optimizer.py:17-19 | no transcripts format to ""; a single transcript formats to its own rendering, with no separator |
| Optimizer.FormatLogsAppend | script_optimizer.py:17-19 | one more transcript adds exactly one separator and its rendering, at the end |
| Optimizer.FormatLogsLength | script_optimizer.py:17-19 | k transcripts format to their renderings plus k-1 separators and nothing else |
| Optimizer.FormatLogsLogAt | script_optimizer.py:17-19 | transcript i's rendering appears verbatim at its offset in the formatted logs |
| Optimizer.RenderLogMessageAt | script_optimizer.py:18 | message j's rendering appears verbatim at its offset in its transcript's rendering |
| Optimizer.FormatLogsRenderedAt | script_optimizer.py:17-19 | message j of transcript i is rendered verbatim at the sum of its transcript's offset and its own offset |
| Optimizer.FormatLogsMessageAt | script_optimizer.py:17-19 | message j of transcript i appears at its offset as role, ": ", content |
| Optimizer.FormatLogsSeparatorAt | script_optimizer.py:17 | exactly "\n\n---\n\n" lies between consecutive transcripts |
| Optimizer.RenderLogSeparatorAt | script_optimizer.py:18 | exactly one newline lies between consecutive messages of a transcript |
| Optimizer.OptimizePrompt | script_optimizer.py:21-62 | the optimisation prompt: the fixed opening text, the original script, the fixed middle text, the formatted logs, then the fixed closing text with the requested JSON shape |
| Optimizer.PromptEmbedsScriptThenLogs | script_optimizer.py:21-62 | the prompt holds the script verbatim and, after it, the formatted logs verbatim |
| Optimizer.ScriptOptimizer.constructor | script_optimizer.py:9-10 | the optimizer keeps the client it is given |
| Optimizer.ScriptOptimizer.Optimize | script_optimizer.py:12-73 | one request whose only message is the system prompt built from the script and the formatted logs; the reply is returned unchanged |
| MiniPipeline.FirstMatch | run_mini_pipeline.py:26-32 | the scan stops at the first matching line at or after the start, or at the end of the input |
| MiniPipeline.ScriptLines | run_mini_pipeline.py:24-32 | the lines the scanner collects; there are some exactly when a line holds "super().__init__(", and then the first one is such a line |
| MiniPipeline.ExtractScript | run_mini_pipeline.py:24-33 | `get_original_script`'s result: the collected lines concatenated with `"".join` |
| MiniPipeline.NoMarkerNoScript | run_mini_pipeline.py:24-33 | with no "super().__init__(" line the extracted script is empty |
| MiniPipeline.ScriptLinesShape | run_mini_pipeline.py:26-33 | the script is the contiguous run from the first marker line through the first later line with ")" and no marker (included), or through the last line; no line inside the run ends it; the lines are concatenated in order, and the script begins with the marker line |
| MiniPipeline.GetOriginalScript | run_mini_pipeline.py:18-33 | the flag-and-break scan returns exactly the extracted script |
| MiniPipeline.ApiKeyMissing | run_mini_pipeline.py:37 | `not OPENAI_API_KEY`: an unset key and an empty key are both missing; a key that is not missing is set and non-empty |
| MiniPipeline.SimulateRun | run_mini_pipeline.py:57-58 | one run simulates with the run's generated personality; it fails exactly when that personality does not decode, and otherwise returns its transcript |
| MiniPipeline.Batch | run_mini_pipeline.py:55-59 | the batch after n runs of the loop: run i's transcript appended in run order, until the first personality that does not decode raises and stops the loop (pinned down by the four Batch lemmas below) |
| MiniPipeline.BatchFailureSticks | run_mini_pipeline.py:55-59 | an error raised in one run ends the loop: later runs do not change the failed batch |
| MiniPipeline.BatchSucceeds | run_mini_pipeline.py:55-59 | a batch of n runs succeeds exactly when all n personalities decode |
| MiniPipeline.BatchContents | run_mini_pipeline.py:55-59 | a successful batch of n runs holds exactly n transcripts, the one of run j at index j |
| MiniPipeline.BatchFails | run_mini_pipeline.py:55-59 | a failed batch names the first run whose personality does not decode |
| MiniPipeline.SimulateBatch | run_mini_pipeline.py:55-59 | the appending loop returns exactly the batch of n runs (see the four lemmas above) |
| MiniPipeline.RunPipeline | run_mini_pipeline.py:35-65 | a missing key (unset or empty) ends `main` before any work, and only then; otherwise five transcripts in order go to the optimizer with the extracted script, or the first undecodable personality aborts the run |
| Agent.Get | agent.py:256-260 | `dict.get(key, default)`: the stored value when the key is present, the default otherwise |
| Agent.ParseJob | agent.py:252-260 | "phone_number" is required and is the participant identity; each customer field is taken verbatim when present, and otherwise takes its default |
| Agent.ParseFullMetadata | agent.py:256-260 | metadata holding every field is read back field for field |
| Agent.ParsePhoneOnly | agent.py:252-260 | metadata holding only the phone number gives every default |
| Agent.Dial | agent.py:325-333 | the dial request calls the phone number, names the participant after it, and waits until answered |
| Agent.VasooliMan.constructor | agent.py:107-114 | the five customer fields and the metadata are stored unchanged; there is no participant yet |
| Agent.VasooliMan.SetParticipant | agent.py:116-117 | records the participant and changes nothing else |
| Agent.VasooliMan.SetupPaymentPlan | agent.py:149-170 | returns status "approved" and plan id "PLAN789012345", with a message naming the amount and the duration; fails without a participant; changes no field |
| Agent.VasooliMan.ScheduleCallback | agent.py:172-192 | returns status "scheduled" and callback id "CB456789012", with a message naming the date and the time; fails without a participant; changes no field |
| Agent.VasooliMan.ProcessPayment | agent.py:194-214 | returns status "success", with a message naming the amount and the payment method; fails without a participant; changes no field |
| Agent.VasooliMan.HandlePaymentDispute | agent.py:216-232 | returns status "disputed", dispute id "DISP123456789" and a fixed message, whatever the reason; fails without a participant; changes no field |
| Agent.Greeting | agent.py:345-347 | the greeting instructions name the customer being called |
| Agent.GreetingInjective | agent.py:345-347 | different customers get different greeting instructions |
| Agent.GreetingAsWritten | agent.py:346 | the greeting instructions as written: the literal "{customer_name}" between the fixed texts, whatever the customer's name; its length does not depend on the name |
| Agent.GreetingAsWrittenMisnames | agent.py:346 | as written, every customer gets the instructions for a customer literally named "{customer_name}", which differ from their own |
| Agent.Entrypoint | agent.py:248-347 | a missing phone number fails the job; otherwise the agent gets the parsed fields, the dial targets the phone number, and an answered call sets the participant with that identity and requests the greeting for the customer |

## Left out

- Language-model calls are oracles. Identical requests get identical replies. The model names and parameters in each request are not modelled, and neither are network errors.
- `personality_generator.py` is one such call. The i-th generated personality is the parameter `generate(i)`.
- `json.loads` is an oracle returning `None` for text that is not a JSON object. Values are modelled as strings only.
- Logging, `asyncio` scheduling and sleeps, dotenv loading and the multiprocessing start method are plumbing with no logic.
- Reading `agent.py` from disk is left out. The scanner takes the file's lines, each with its line break, as `readlines` gives them.
- The JSON decoding and printing of the optimizer's reply in `main` is output only.
- `VasooliMan.__init__` passes a long instruction text to the platform's `Agent` base class. That text is not modelled.
- `end_call`, `hangup`, `handle_silent_call`, `detected_answering_machine` are left out. They only call the telephony platform (speech playout, room deletion, reply generation).
- The voice session, its event-logging handlers and the stub `monitor_call` are left out. The dial and wait for the participant become the parameter `answered`. A failed dial (`TwirpError` or another error, then `ctx.shutdown`) is `answered == false`.
- A call lifecycle (dialling, connected, terminated) is not in the code, so it is not modelled.
- Agent.VasooliMan.SetupPaymentPlan: states that the message contains both arguments, not its exact wording.
- Agent.VasooliMan.ScheduleCallback: states that the message contains the date and the time, not its exact wording.
- Agent.VasooliMan.ProcessPayment: states that the message contains the amount and the method, not its exact wording.
- Agent.Entrypoint: requests the corrected greeting (see Findings). It does not model errors raised while sending the greeting or waiting for the session to complete, which the code only logs.

## Findings

| source | as written | input that shows it | evidently intended | confidence | as-written member | corrected member |
|---|---|---|---|---|---|---|
| agent.py:346 | the greeting instructions are a plain string, not an f-string, so the text "{customer_name}" is sent literally | any job whose customer name is not literally "{customer_name}", e.g. metadata with customer_name "Ravi" | the instructions name the customer from the metadata | high; not executed | Agent.GreetingAsWrittenMisnames | Agent.Greeting |
