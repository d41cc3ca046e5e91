/** The terminal conversation in `FirecrawlAgent.main` (Web_SearchAgent.py,
    lines 204-243): each input line is stripped, checked against the exit
    words, truncated, appended to the message list as a human message, and
    handed with the whole list to the agent, whose reply is printed. Input
    lines are a given sequence; the agent is a function from the message
    list to its outcome; the printed text is returned. */
module Repl {
  import opened Wrappers
  import opened PyBuiltins

  const SystemPrompt := "You can scrape/crawl/extract data using Firecrawl MCP tools. Decide when to use tools; think step by step."
  /** The per-message cap on a user message, in characters. */
  const MaxInputChars := 175000
  const NoContent := "[No content returned]"

  datatype Message = SystemMessage(content: string) | HumanMessage(content: string)

  /** A message in the agent's result; `content` is `None` when the message
      has no such attribute. */
  datatype ResultMessage = ResultMessage(content: Option<string>)

  /** What `agent.ainvoke` returns: either not a dict, or a dict whose
      `messages`, `output` and `final` keys may each be absent. */
  datatype AgentResult =
    | NonDict
    | Dict(messages: Option<seq<ResultMessage>>, output: Option<string>, final: Option<string>)

  /** A call of the agent either returns a result or raises; `errorRepr` is `repr(e)`. */
  datatype AgentOutcome = Returned(result: AgentResult) | Raised(errorRepr: string)

  type AgentCall = seq<Message> -> AgentOutcome

  /** What one turn prints. */
  datatype Output = Goodbye | AgentReply(text: string) | ErrorReport(errorRepr: string)

  /** `s.lower() in {"quit", "exit"}`. */
  predicate IsExitCommand(s: string) {
    Lower(s) == "quit" || Lower(s) == "exit"
  }

  /** The stripped line is an exit word. */
  predicate IsExitLine(line: string) {
    IsExitCommand(Strip(line))
  }

  /** Whitespace around an input line does not change whether it is an
      exit word. */
  lemma ExitLineIgnoresPadding(pre: string, s: string, post: string)
    requires AllSpace(pre) && AllSpace(post)
    requires s != [] && !IsSpace(s[0]) && !IsSpace(s[|s| - 1])
    ensures IsExitLine(pre + s + post) <==> IsExitCommand(s)
  {
    StripPadded(pre, s, post);
  }

  /** `quit`, `QUIT` and `Exit` are all exit words. */
  lemma ExitWordsAnyCase()
    ensures IsExitCommand("quit") && IsExitCommand("QUIT") && IsExitCommand("Exit")
  {
    LowerQuit();
    LowerExit();
  }

  lemma LowerQuit()
    ensures Lower("quit") == "quit" && Lower("QUIT") == "quit"
  {
    assert "QUIT"[1..] == "UIT" && "UIT"[1..] == "IT" && "IT"[1..] == "T" && "T"[1..] == "";
    assert Lower("T") == "t";
    assert Lower("IT") == "it";
    assert Lower("UIT") == "uit";
    assert "quit"[1..] == "uit" && "uit"[1..] == "it" && "it"[1..] == "t" && "t"[1..] == "";
    assert Lower("t") == "t";
    assert Lower("it") == "it";
    assert Lower("uit") == "uit";
  }

  lemma LowerExit()
    ensures Lower("Exit") == "exit"
  {
    assert "Exit"[1..] == "xit" && "xit"[1..] == "it" && "it"[1..] == "t" && "t"[1..] == "";
    assert Lower("t") == "t";
    assert Lower("it") == "it";
    assert Lower("xit") == "xit";
  }

  /** `s[:175000]`. */
  function Truncate(s: string): (r: string)
    ensures r <= s
    ensures |r| == if |s| <= MaxInputChars then |s| else MaxInputChars
  {
    if |s| <= MaxInputChars then s else s[..MaxInputChars]
  }

  // ---------------------------------------------------------------------
  // Result extraction (lines 230-240)
  // ---------------------------------------------------------------------

  /** `getattr(final_msgs[-1], "content", None)` when `final_msgs` is non-empty. */
  function LastContent(messages: Option<seq<ResultMessage>>): Option<string> {
    if messages.Some? && |messages.value| > 0 then messages.value[|messages.value| - 1].content else None
  }

  /** `ai_text` as the code computes it. */
  function AiText(result: AgentResult): Option<string> {
    var fromMessages := if result.Dict? then LastContent(result.messages) else None;
    if !Truthy(fromMessages) && result.Dict? then Or(result.output, result.final) else fromMessages
  }

  /** `ai_text or "[No content returned]"`: the text printed after `Agent:`. */
  function ShownText(result: AgentResult): (text: string)
    ensures text != ""
    ensures result.Dict? && Truthy(LastContent(result.messages)) ==> text == LastContent(result.messages).value
    ensures result.Dict? && !Truthy(LastContent(result.messages)) && Truthy(result.output) ==> text == result.output.value
    ensures result.Dict? && !Truthy(LastContent(result.messages)) && !Truthy(result.output) && Truthy(result.final) ==>
              text == result.final.value
    ensures result.Dict? && !Truthy(LastContent(result.messages)) && !Truthy(result.output) && !Truthy(result.final) ==>
              text == NoContent
    ensures result.NonDict? ==> text == NoContent
  {
    var aiText := AiText(result);
    if Truthy(aiText) then aiText.value else NoContent
  }

  /** The places the reply is looked for, in order of preference. */
  function Candidates(result: AgentResult): seq<Option<string>> {
    match result
    case NonDict => []
    case Dict(messages, output, final) => [LastContent(messages), output, final]
  }

  /** The printed text is the first truthy candidate, or the placeholder when
      there is none. */
  lemma ShownTextIsFirstTruthy(result: AgentResult)
    ensures ShownText(result) == match FirstTruthy(c => c, Candidates(result))
                                 case Some(t) => t
                                 case None => NoContent
  {
    var cs := Candidates(result);
    if result.Dict? {
      var first := FirstTruthy(c => c, cs);
      if Truthy(cs[0]) {
        FirstTruthyAt(c => c, cs, 0);
      } else if Truthy(cs[1]) {
        FirstTruthyAt(c => c, cs, 1);
      } else if Truthy(cs[2]) {
        FirstTruthyAt(c => c, cs, 2);
      } else {
        assert first.None?;
      }
    }
  }

  /** The text shown for a returned result, or the error report. */
  function ReplyTo(outcome: AgentOutcome): Output {
    match outcome
    case Returned(result) => AgentReply(ShownText(result))
    case Raised(e) => ErrorReport(e)
  }

  // ---------------------------------------------------------------------
  // One turn and the loop (lines 204-243)
  // ---------------------------------------------------------------------

  /** The state after one input line: whether the loop stops, the message
      list, and what was printed. */
  datatype Turn = Turn(stop: bool, history: seq<Message>, output: Output)

  /** The human message one non-exit input line becomes: stripped, then
      cut to the character cap. */
  function UserMessage(line: string): Message {
    HumanMessage(Truncate(Strip(line)))
  }

  /** One pass through the loop body. */
  function Step(history: seq<Message>, line: string, agent: AgentCall): (t: Turn)
    ensures t.stop <==> IsExitLine(line)
    ensures t.stop ==> t.history == history && t.output == Goodbye
    ensures !t.stop ==> t.history == history + [UserMessage(line)]
    ensures !t.stop ==> t.output == ReplyTo(agent(t.history))
    ensures !t.stop && agent(t.history).Raised? ==> t.output == ErrorReport(agent(t.history).errorRepr)
  {
    var userInput := Strip(line);
    if IsExitCommand(userInput) then Turn(true, history, Goodbye)
    else
      var messages := history + [HumanMessage(Truncate(userInput))];
      Turn(false, messages, ReplyTo(agent(messages)))
  }

  /** An exit word stops the loop whatever the agent would have done: the
      agent is not consulted. */
  lemma ExitIgnoresAgent(history: seq<Message>, line: string, agent: AgentCall, other: AgentCall)
    requires IsExitLine(line)
    ensures Step(history, line, agent) == Step(history, line, other)
  {
  }

  /** `f` applied to each element, in order. */
  function Map<A, B>(f: A -> B, xs: seq<A>): (r: seq<B>)
    ensures |r| == |xs|
    ensures forall k :: 0 <= k < |xs| ==> r[k] == f(xs[k])
  {
    if xs == [] then [] else [f(xs[0])] + Map(f, xs[1..])
  }

  lemma {:induction false} MapSnoc<A, B>(f: A -> B, xs: seq<A>, x: A)
    ensures Map(f, xs + [x]) == Map(f, xs) + [f(x)]
  {
    if xs != [] {
      assert (xs + [x])[1..] == xs[1..] + [x];
      MapSnoc(f, xs[1..], x);
    }
  }

  /** The message list after the given non-exit lines: the system
      instruction first, then one human message per line, in order. */
  function Conversation(lines: seq<string>): seq<Message> {
    [SystemMessage(SystemPrompt)] + Map(UserMessage, lines)
  }

  lemma ConversationSnoc(lines: seq<string>, line: string)
    ensures Conversation(lines + [line]) == Conversation(lines) + [UserMessage(line)]
  {
    MapSnoc(UserMessage, lines, line);
    AppendAssoc([SystemMessage(SystemPrompt)], Map(UserMessage, lines), [UserMessage(line)]);
  }

  /** Concatenation regroups. Stated on abstract sequences, so that the
      solver does not unfold the messages while proving it. */
  lemma AppendAssoc<T>(a: seq<T>, b: seq<T>, c: seq<T>)
    ensures a + (b + c) == (a + b) + c
  {
  }

  /** The conversation through line `n` is the one before it plus that
      line's message. */
  lemma ConversationGrows(lines: seq<string>, n: nat)
    requires n < |lines|
    ensures Conversation(lines[..n + 1]) == Conversation(lines[..n]) + [UserMessage(lines[n])]
  {
    assert lines[..n + 1] == lines[..n] + [lines[n]];
    ConversationSnoc(lines[..n], lines[n]);
  }

  /** None of the first `n` lines is an exit word. */
  ghost predicate NoExitBefore(lines: seq<string>, n: nat)
    requires n <= |lines|
  {
    forall k :: 0 <= k < n ==> !IsExitLine(lines[k])
  }

  /** Each of the first `n` printed replies is the agent's answer to the
      conversation up to and including that line. */
  ghost predicate RepliesMatch(lines: seq<string>, agent: AgentCall, n: nat, outputs: seq<Output>)
    requires n <= |lines| && n <= |outputs|
  {
    forall k {:trigger outputs[k]} :: 0 <= k < n ==> outputs[k] == ReplyTo(agent(Conversation(lines[..k + 1])))
  }

  /** After `asked` lines that reached the agent: none of them was an exit
      word, the message list is their conversation, and each printed reply
      is the agent's answer to the conversation up to that line. */
  ghost predicate Replayed(lines: seq<string>, agent: AgentCall, asked: nat, messages: seq<Message>, outputs: seq<Output>)
    requires asked <= |lines| && asked <= |outputs|
  {
    && NoExitBefore(lines, asked)
    && messages == Conversation(lines[..asked])
    && RepliesMatch(lines, agent, asked, outputs)
  }

  lemma NoExitExtends(lines: seq<string>, n: nat)
    requires n < |lines|
    requires NoExitBefore(lines, n) && !IsExitLine(lines[n])
    ensures NoExitBefore(lines, n + 1)
  {
  }

  lemma RepliesMatchExtends(lines: seq<string>, agent: AgentCall, n: nat, outputs: seq<Output>, o: Output)
    requires n < |lines| && n == |outputs|
    requires RepliesMatch(lines, agent, n, outputs)
    requires o == ReplyTo(agent(Conversation(lines[..n + 1])))
    ensures RepliesMatch(lines, agent, n + 1, outputs + [o])
  {
    var outputs' := outputs + [o];
    forall k | 0 <= k < n + 1
      ensures outputs'[k] == ReplyTo(agent(Conversation(lines[..k + 1])))
    {
      if k < n {
        assert outputs'[k] == outputs[k];
      } else {
        assert outputs'[k] == o;
      }
    }
  }

  /** A line that is not an exit word extends the replay by one turn: its
      message joins the conversation and the agent's answer to that
      conversation is printed. */
  lemma ReplayedExtends(lines: seq<string>, agent: AgentCall, asked: nat, messages: seq<Message>, outputs: seq<Output>)
    requires asked < |lines| && asked == |outputs|
    requires Replayed(lines, agent, asked, messages, outputs)
    requires !IsExitLine(lines[asked])
    ensures var history := messages + [UserMessage(lines[asked])];
            Replayed(lines, agent, asked + 1, history, outputs + [ReplyTo(agent(history))])
  {
    var history := messages + [UserMessage(lines[asked])];
    ConversationGrows(lines, asked);
    NoExitExtends(lines, asked);
    assert NoExitBefore(lines, asked + 1);
    RepliesMatchExtends(lines, agent, asked, outputs, ReplyTo(agent(history)));
    assert RepliesMatch(lines, agent, asked + 1, outputs + [ReplyTo(agent(history))]);
  }

  /** Printing the farewell leaves the replay of earlier turns intact. */
  lemma ReplayedAfterGoodbye(lines: seq<string>, agent: AgentCall, asked: nat, messages: seq<Message>, outputs: seq<Output>)
    requires asked <= |lines| && asked <= |outputs|
    requires Replayed(lines, agent, asked, messages, outputs)
    ensures Replayed(lines, agent, asked, messages, outputs + [Goodbye])
  {
    var outputs' := outputs + [Goodbye];
    forall k | 0 <= k < asked
      ensures outputs'[k] == ReplyTo(agent(Conversation(lines[..k + 1])))
    {
      assert outputs'[k] == outputs[k];
    }
  }

  /** The `while True` loop over the given input lines, until an exit word
      or the end of input. `quit` says whether an exit word ended it; the
      loop reads one line per output, and `asked` lines reached the agent. */
  method RunRepl(lines: seq<string>, agent: AgentCall) returns (messages: seq<Message>, outputs: seq<Output>, quit: bool, asked: nat)
    ensures |outputs| <= |lines|
    ensures asked == if quit then |outputs| - 1 else |outputs|
    ensures !quit ==> |outputs| == |lines|
    ensures quit ==> IsExitLine(lines[asked]) && outputs[asked] == Goodbye
    ensures forall k :: 0 <= k < asked ==> !IsExitLine(lines[k])
    ensures messages == Conversation(lines[..asked])
    ensures forall k {:trigger outputs[k]} :: 0 <= k < asked ==> outputs[k] == ReplyTo(agent(Conversation(lines[..k + 1])))
  {
    messages := [SystemMessage(SystemPrompt)];
    outputs := [];
    quit := false;
    asked := 0;
    assert lines[..0] == [];
    var i := 0;
    while i < |lines| && !quit
      invariant 0 <= i <= |lines| && |outputs| == i
      invariant asked == if quit then i - 1 else i
      invariant quit ==> IsExitLine(lines[asked]) && outputs[asked] == Goodbye
      invariant Replayed(lines, agent, asked, messages, outputs)
    {
      var turn := Step(messages, lines[i], agent);
      if turn.stop {
        assert IsExitLine(lines[asked]) && turn.output == Goodbye;
        ReplayedAfterGoodbye(lines, agent, asked, messages, outputs);
      } else {
        assert turn.history == messages + [UserMessage(lines[asked])];
        assert turn.output == ReplyTo(agent(turn.history));
        ReplayedExtends(lines, agent, asked, messages, outputs);
        asked := asked + 1;
      }
      messages := turn.history;
      outputs := outputs + [turn.output];
      quit := turn.stop;
      i := i + 1;
    }
  }
}
