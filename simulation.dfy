/**
 * The conversation simulator of chat_simulator.py: a synthetic debtor opens
 * the call, then each round the agent (directed by its script) and the debtor
 * (role-playing a personality) each add one line to a growing transcript.
 * The chat-completion service is an oracle: a function from the request's
 * message list to the reply text.
 */
module Simulation {
  import opened Wrappers
  import opened Text

  /** The three roles the code writes into a message's "role" key. */
  datatype Role = System | User | Assistant {
    /** The role as the string the code stores. */
    function Name(): string
    {
      match this
      case System => "system"
      case User => "user"
      case Assistant => "assistant"
    }
  }

  /** One chat message, `{"role": ..., "content": ...}`. */
  datatype Message = Message(role: Role, content: string)

  /** The chat-completion service: the reply text for a list of messages. */
  type Completion = seq<Message> -> string

  /** A decoded personality: its JSON object, keys to string values. */
  type Personality = map<string, string>

  /** JSON decoding of a personality; None when the text is not a JSON object. */
  type PersonalityDecoder = string -> Option<Personality>

  datatype SimulationError = MalformedPersonality

  const DefaultMaxTurns := 7
  const DefaultStartingLine := "Hello?"

  /** The debtor's opening line: `personality_data.get('starting_line', 'Hello?')`. */
  function StartingLine(personality: Personality): (line: string)
    ensures "starting_line" in personality ==> line == personality["starting_line"]
    ensures "starting_line" !in personality ==> line == DefaultStartingLine
  {
    if "starting_line" in personality then personality["starting_line"] else DefaultStartingLine
  }

  /** The number of rounds `range(max_turns)` runs: none for a negative count. */
  function Rounds(maxTurns: int): (n: nat)
    ensures maxTurns >= 0 ==> n == maxTurns
    ensures maxTurns < 0 ==> n == 0
  {
    if maxTurns < 0 then 0 else maxTurns
  }

  /** The role a transcript entry at index i must carry. */
  function RoleAt(i: nat): Role
  {
    if i % 2 == 0 then User else Assistant
  }

  /** A request: one system message holding the instructions, then the history in order. */
  function Request(instructions: string, history: seq<Message>): (request: seq<Message>)
    ensures |request| == |history| + 1
    ensures request[0] == Message(System, instructions)
    ensures request[1..] == history
  {
    [Message(System, instructions)] + history
  }

  /** The role-play instructions for the debtor, embedding the raw personality text. */
  function RolePlayPrompt(personality: string): string
  {
    RolePlayHead + personality + RolePlayTail
  }

  /** The role-play instructions hold the personality text verbatim, right after the fixed opening. */
  lemma RolePlayEmbedsPersonality(personality: string)
    ensures var prompt := RolePlayPrompt(personality);
      && |RolePlayHead| + |personality| <= |prompt|
      && prompt[|RolePlayHead| .. |RolePlayHead| + |personality|] == personality
      && Contains(prompt, personality)
  {
    ContainsInfix(RolePlayHead, personality, RolePlayTail);
  }

  const RolePlayHead := "\n        You are role-playing as the following person:\n        "
  const RolePlayTail :=
    "\n        \n        Based on this personality, what is your next response in the conversation?"
    + "\n        Keep your response short and realistic.\n        "

  /**
   * One round: the agent's reply to the history (asked with the agent
   * script), then the debtor's reply to that (asked with the role-play text).
   */
  function Round(client: Completion, agentScript: string, rolePlay: string,
                 history: seq<Message>): seq<Message>
  {
    var withAgent := history + [Message(Assistant, client(Request(agentScript, history)))];
    withAgent + [Message(User, client(Request(rolePlay, withAgent)))]
  }

  /** The transcript after `rounds` complete agent/debtor rounds: 2 * rounds + 1 entries. */
  function Transcript(client: Completion, agentScript: string, rolePlay: string,
                      opening: string, rounds: nat): (t: seq<Message>)
    ensures |t| == 2 * rounds + 1
    decreases rounds
  {
    if rounds == 0 then [Message(User, opening)]
    else Round(client, agentScript, rolePlay, Transcript(client, agentScript, rolePlay, opening, rounds - 1))
  }

  /** Round n keeps the transcript of round n - 1 as its prefix. */
  lemma TranscriptPrefix(client: Completion, agentScript: string, rolePlay: string,
                         opening: string, rounds: nat)
    requires rounds > 0
    ensures Transcript(client, agentScript, rolePlay, opening, rounds)[..2 * rounds - 1]
            == Transcript(client, agentScript, rolePlay, opening, rounds - 1)
  {
    var before := Transcript(client, agentScript, rolePlay, opening, rounds - 1);
    var t := Transcript(client, agentScript, rolePlay, opening, rounds);
    var withAgent := before + [Message(Assistant, client(Request(agentScript, before)))];
    assert t == withAgent + [Message(User, client(Request(rolePlay, withAgent)))];
    assert t[..2 * rounds - 1] == withAgent[..2 * rounds - 1] == before;
  }

  /** Round n keeps the transcript of round n - 1 and appends the agent's and the debtor's reply. */
  lemma TranscriptStep(client: Completion, agentScript: string, rolePlay: string,
                       opening: string, rounds: nat)
    requires rounds > 0
    ensures var before := Transcript(client, agentScript, rolePlay, opening, rounds - 1);
      var t := Transcript(client, agentScript, rolePlay, opening, rounds);
      && t[..2 * rounds - 1] == before
      && t[2 * rounds - 1] == Message(Assistant, client(Request(agentScript, before)))
      && t[2 * rounds] == Message(User, client(Request(rolePlay, t[..2 * rounds])))
  {
    var before := Transcript(client, agentScript, rolePlay, opening, rounds - 1);
    var t := Transcript(client, agentScript, rolePlay, opening, rounds);
    var withAgent := before + [Message(Assistant, client(Request(agentScript, before)))];
    assert t == withAgent + [Message(User, client(Request(rolePlay, withAgent)))];
    assert t[..2 * rounds] == withAgent;
    TranscriptPrefix(client, agentScript, rolePlay, opening, rounds);
  }

  /** The first entry is the opening line, and roles alternate from User. */
  lemma {:induction false} TranscriptRoles(client: Completion, agentScript: string, rolePlay: string,
                                           opening: string, rounds: nat)
    ensures Transcript(client, agentScript, rolePlay, opening, rounds)[0] == Message(User, opening)
    ensures forall i :: 0 <= i < 2 * rounds + 1 ==>
      Transcript(client, agentScript, rolePlay, opening, rounds)[i].role == RoleAt(i)
    decreases rounds
  {
    if rounds > 0 {
      TranscriptRoles(client, agentScript, rolePlay, opening, rounds - 1);
      TranscriptStep(client, agentScript, rolePlay, opening, rounds);
      var before := Transcript(client, agentScript, rolePlay, opening, rounds - 1);
      var t := Transcript(client, agentScript, rolePlay, opening, rounds);
      forall i | 0 <= i < 2 * rounds + 1
        ensures t[i].role == RoleAt(i)
      {
        if i < 2 * rounds - 1 {
          assert t[i] == t[..2 * rounds - 1][i] == before[i];
        } else if i == 2 * rounds - 1 {
          assert i % 2 == 1;
        } else {
          assert i % 2 == 0;
        }
      }
      assert t[0] == t[..2 * rounds - 1][0];
    }
  }

  /** The transcript only grows: after more rounds, the earlier transcript is still its prefix. */
  lemma {:induction false} TranscriptExtends(client: Completion, agentScript: string, rolePlay: string,
                                             opening: string, earlier: nat, later: nat)
    requires earlier <= later
    ensures Transcript(client, agentScript, rolePlay, opening, later)[..2 * earlier + 1]
            == Transcript(client, agentScript, rolePlay, opening, earlier)
    decreases later
  {
    var t := Transcript(client, agentScript, rolePlay, opening, later);
    if earlier < later {
      TranscriptExtends(client, agentScript, rolePlay, opening, earlier, later - 1);
      TranscriptPrefix(client, agentScript, rolePlay, opening, later);
      var prefix := t[..2 * later - 1];
      assert t[..2 * earlier + 1] == prefix[..2 * earlier + 1];
    } else {
      assert earlier == later;
      assert t[..2 * later + 1] == t;
    }
  }

  /**
   * In round k the agent is asked with the first 2k + 1 entries and the
   * debtor with the first 2k + 2, whose last entry is that agent reply.
   */
  lemma {:induction false} TranscriptReplies(client: Completion, agentScript: string, rolePlay: string,
                                             opening: string, rounds: nat, k: nat)
    requires k < rounds
    ensures var t := Transcript(client, agentScript, rolePlay, opening, rounds);
      && t[2 * k + 1] == Message(Assistant, client(Request(agentScript, t[..2 * k + 1])))
      && t[2 * k + 2] == Message(User, client(Request(rolePlay, t[..2 * k + 2])))
  {
    var t := Transcript(client, agentScript, rolePlay, opening, rounds);
    var inRound := Transcript(client, agentScript, rolePlay, opening, k + 1);
    TranscriptExtends(client, agentScript, rolePlay, opening, k + 1, rounds);
    TranscriptExtends(client, agentScript, rolePlay, opening, k, rounds);
    TranscriptStep(client, agentScript, rolePlay, opening, k + 1);
    assert t[..2 * k + 3] == inRound;
    assert t[2 * k + 1] == inRound[2 * k + 1];
    assert t[2 * k + 2] == inRound[2 * k + 2];
    assert t[..2 * k + 2] == inRound[..2 * k + 2];
  }

  /** With the default of seven turns a simulation yields fifteen entries. */
  lemma DefaultTranscriptLength(client: Completion, agentScript: string, rolePlay: string, opening: string)
    ensures |Transcript(client, agentScript, rolePlay, opening, Rounds(DefaultMaxTurns))| == 15
  {
  }

  /** `ChatSimulator`: holds the completion client it was built with. */
  class ChatSimulator {
    const client: Completion

    constructor (client: Completion)
      ensures this.client == client
    {
      this.client := client;
    }

    /** `_get_agent_response`: ask the service with the agent script, then the history. */
    method GetAgentResponse(agentScript: string, history: seq<Message>) returns (reply: string)
      ensures reply == client(Request(agentScript, history))
    {
      reply := client(Request(agentScript, history));
    }

    /** `_get_user_response`: ask the service with the role-play prompt, then the history. */
    method GetUserResponse(personality: string, history: seq<Message>) returns (reply: string)
      ensures reply == client(Request(RolePlayPrompt(personality), history))
    {
      reply := client(Request(RolePlayPrompt(personality), history));
    }

    /**
     * `simulate`: decode the personality (failing as `json.loads` does), open
     * with its starting line, then run Rounds(maxTurns) agent/debtor rounds.
     */
    method Simulate(agentScript: string, personality: string, decode: PersonalityDecoder,
                    maxTurns: int := DefaultMaxTurns)
      returns (result: Result<seq<Message>, SimulationError>)
      ensures result.Failure? <==> decode(personality).None?
      ensures result.Success? ==>
        result.value == Transcript(client, agentScript, RolePlayPrompt(personality),
                                   StartingLine(decode(personality).value), Rounds(maxTurns))
      ensures result.Success? ==> |result.value| == 2 * Rounds(maxTurns) + 1
      ensures result.Success? ==>
        result.value[0] == Message(User, StartingLine(decode(personality).value))
      ensures result.Success? ==>
        forall i :: 0 <= i < |result.value| ==> result.value[i].role == RoleAt(i)
    {
      var data := decode(personality);
      if data.None? {
        return Failure(MalformedPersonality);
      }
      var opening := StartingLine(data.value);
      var rolePlay := RolePlayPrompt(personality);
      var log := [Message(User, opening)];
      var rounds := Rounds(maxTurns);
      for round := 0 to rounds
        invariant log == Transcript(client, agentScript, rolePlay, opening, round)
      {
        var agentReply := GetAgentResponse(agentScript, log);
        log := log + [Message(Assistant, agentReply)];
        var userReply := GetUserResponse(personality, log);
        log := log + [Message(User, userReply)];
      }
      TranscriptRoles(client, agentScript, rolePlay, opening, rounds);
      result := Success(log);
    }
  }
}
