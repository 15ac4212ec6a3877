/** getActivityRecommendations (claudeService.js:197-314): a conversation
    with the model, bounded to five requests.  The conversation starts as one
    user message holding the prompt.  Each reply that asks for the search
    tool is answered with the search results, which adds an assistant and a
    user message; the first reply that does not ask for it is read as the
    recommendations: its text blocks are concatenated and parsed, and at
    most five records are returned.  The model is an oracle, a function of
    the messages sent to it; a transport failure it reports is passed on. */
module Recommendations {
  import opened Text
  import opened ActivityParser
  import opened WebSearch
  import opened Prompt

  /** The number of requests the loop may make (claudeService.js:215). */
  const MaxIterations: nat := 5

  /** The records returned at most (claudeService.js:304). */
  const MaxActivities: nat := 5

  /** A content block of a message. */
  datatype Block =
    | TextBlock(text: Str)                             // type "text"
    | ToolUse(id: Str, name: Str, query: Str)          // type "tool_use"
    | ToolResult(toolUseId: Str, content: Str)         // type "tool_result"

  datatype Role = User | Assistant

  datatype Message = Message(role: Role, content: seq<Block>)

  /** What the model's endpoint answers: a reply, or the error of a failed
      request. */
  datatype Reply = Reply(content: seq<Block>) | TransportError(error: Str)

  /** Why the conversation gives no recommendations. */
  datatype Failure =
    | Transport(error: Str)   // rethrown as-is, claudeService.js:310-313
    | MaxIterationsReached    // claudeService.js:308

  /** What a conversation ends with, as values. */
  datatype Outcome = Recommended(activities: seq<Activity>) | Failed(failure: Failure)

  /** The message of the error thrown after five tool rounds. */
  const MaxIterationsMessage: Str :=
    Units("Max iterations (") + [('0' as int + MaxIterations) as CodeUnit] + Units(") reached without ")
    + Units("getting final response")

  /** The message of the error a failed conversation throws. */
  function ErrorMessage(f: Failure): (m: Str)
    ensures f.Transport? ==> m == f.error
    ensures f.MaxIterationsReached? ==> StartsWith(m, Units("Max iterations (5) reached"))
  {
    match f
    case Transport(error) => error
    case MaxIterationsReached => MaxIterationsMessage
  }

  /** The model's endpoint, anthropic.messages.create (claudeService.js:222):
      every request is logged in `sent`, and the reply is the oracle's answer
      to the messages. */
  class Model {
    var sent: seq<seq<Message>>
    const respond: seq<Message> -> Reply

    constructor (respond: seq<Message> -> Reply)
      ensures this.respond == respond && sent == []
    {
      this.respond := respond;
      sent := [];
    }

    method Create(messages: seq<Message>) returns (reply: Reply)
      modifies this
      ensures sent == old(sent) + [messages]
      ensures reply == respond(messages)
    {
      sent := sent + [messages];
      reply := respond(messages);
    }
  }

  // ---------------------------------------------------------------------
  // The conversation as values.
  // ---------------------------------------------------------------------

  /** The conversation's first message: the prompt as one text block. */
  function Initial(city: Str, ages: Str, availability: Str, distance: Str, preferences: Str): seq<Message> {
    [Message(User, [TextBlock(BuildPrompt(city, ages, availability, distance, preferences))])]
  }

  /** Some block asks for a tool. */
  predicate NeedsToolUse(content: seq<Block>) {
    exists k :: 0 <= k < |content| && content[k].ToolUse?
  }

  /** The tool-use blocks of a reply, in order. */
  function ToolUses(content: seq<Block>): (uses: seq<Block>)
    ensures forall k :: 0 <= k < |uses| ==> uses[k].ToolUse?
  {
    if content == [] then []
    else
      var b := content[|content| - 1];
      ToolUses(content[..|content| - 1]) + if b.ToolUse? then [b] else []
  }

  /** The answer to a tool-use block: the search results for its query,
      under its id. */
  function Answer(b: Block): Block
    requires b.ToolUse?
  {
    ToolResult(b.id, PerformWebSearch(b.query))
  }

  /** The tool results of a reply, built block by block as the loop of
      claudeService.js:250-264 does. */
  function ToolResults(content: seq<Block>): (results: seq<Block>)
    ensures |results| <= |content|
    ensures forall k :: 0 <= k < |results| ==> results[k].ToolResult?
  {
    if content == [] then []
    else
      var b := content[|content| - 1];
      ToolResults(content[..|content| - 1]) + if b.ToolUse? then [Answer(b)] else []
  }

  /** The texts of the text blocks of a reply, concatenated without a
      separator (claudeService.js:283-289). */
  function FinalText(content: seq<Block>): (text: Str)
    ensures (forall k :: 0 <= k < |content| ==> !content[k].TextBlock?) ==> text == []
  {
    if content == [] then []
    else
      var b := content[|content| - 1];
      FinalText(content[..|content| - 1]) + if b.TextBlock? then b.text else []
  }

  /** The first n records, or all of them if fewer (Array.prototype.slice(0, n)). */
  function Take<T>(s: seq<T>, n: nat): (r: seq<T>)
    ensures |r| <= n && |r| <= |s|
    ensures |s| <= n ==> r == s
    ensures |s| > n ==> |r| == n
    ensures forall k :: 0 <= k < |r| ==> r[k] == s[k]
  {
    if |s| <= n then s else s[..n]
  }

  /** The records of a reply that asks for no tool: the first five parsed
      from its text (claudeService.js:283-304). */
  function Recommendation(content: seq<Block>): (activities: seq<Activity>)
    ensures |activities| <= MaxActivities
    ensures |activities| == if |Parse(FinalText(content))| <= MaxActivities
                            then |Parse(FinalText(content))| else MaxActivities
  {
    Take(Parse(FinalText(content)), MaxActivities)
  }

  /** How the loop handles a reply: `answer` gives the tool results of one
      that asks for the tool, `read` the records of one that does not. */
  datatype Handling = Handling(answer: seq<Block> -> seq<Block>, read: seq<Block> -> seq<Activity>)

  /** The handling of getActivityRecommendations: the search answers the tool
      uses, and the records are parsed from the reply's text. */
  const Service: Handling := Handling(ToolResults, Recommendation)

  /** A tool round: the reply as an assistant message, then its tool results
      as a user message. */
  function Round(messages: seq<Message>, content: seq<Block>, results: seq<Block>): (next: seq<Message>)
    ensures |next| == |messages| + 2
    ensures next[..|messages|] == messages
    ensures next[|messages|] == Message(Assistant, content)
    ensures next[|messages| + 1] == Message(User, results)
  {
    messages + [Message(Assistant, content), Message(User, results)]
  }

  /** What the loop does with the reply to the messages it holds: it goes on
      with the next messages after a tool round, or stops with an outcome. */
  datatype Step = Continue(next: seq<Message>) | Stop(outcome: Outcome)

  /** One pass of the loop body (claudeService.js:219-305) as a value: a
      transport error stops the loop, a reply that asks for the tool goes on
      with a tool round, and any other reply stops it with its records. */
  function Handle(h: Handling, messages: seq<Message>, reply: Reply): (step: Step)
    ensures step.Continue? <==> reply.Reply? && NeedsToolUse(reply.content)
    ensures step.Continue? ==> |step.next| == |messages| + 2 && step.next[..|messages|] == messages
    ensures step.Stop? ==> step.outcome != Failed(MaxIterationsReached)
  {
    match reply
    case TransportError(e) => Stop(Failed(Transport(e)))
    case Reply(content) =>
      if NeedsToolUse(content) then Continue(Round(messages, content, h.answer(content)))
      else Stop(Recommended(h.read(content)))
  }

  /** The requests the loop sends, from the messages it holds at iteration
      `iteration`, and what the conversation ends with. */
  function Converse(respond: seq<Message> -> Reply, h: Handling, messages: seq<Message>, iteration: nat)
    : (r: (seq<seq<Message>>, Outcome))
    decreases MaxIterations - iteration
    ensures iteration < MaxIterations ==>
      1 <= |r.0| <= MaxIterations - iteration && r.0[0] == messages
  {
    if iteration >= MaxIterations then ([], Failed(MaxIterationsReached))
    else
      match Handle(h, messages, respond(messages))
      case Stop(outcome) => ([messages], outcome)
      case Continue(next) =>
        var rest := Converse(respond, h, next, iteration + 1);
        ([messages] + rest.0, rest.1)
  }

  // ---------------------------------------------------------------------
  // Properties of the conversation.
  // ---------------------------------------------------------------------

  /** The answers of a reply are its tool uses answered one by one, in block
      order, under their ids. */
  lemma {:induction false} ToolResultsAnswerUses(content: seq<Block>)
    ensures |ToolResults(content)| == |ToolUses(content)|
    ensures forall k :: 0 <= k < |ToolUses(content)| ==> ToolResults(content)[k] == Answer(ToolUses(content)[k])
  {
    if content != [] {
      var init, b := content[..|content| - 1], content[|content| - 1];
      ToolResultsAnswerUses(init);
      assert ToolResults(content) == ToolResults(init) + if b.ToolUse? then [Answer(b)] else [];
      assert ToolUses(content) == ToolUses(init) + if b.ToolUse? then [b] else [];
    }
  }

  /** A reply needs the tool exactly when it has a tool-use block to answer. */
  lemma {:induction false} NeedsToolUseIffUses(content: seq<Block>)
    ensures NeedsToolUse(content) <==> |ToolUses(content)| > 0
  {
    if content != [] {
      var init := content[..|content| - 1];
      NeedsToolUseIffUses(init);
      if NeedsToolUse(init) {
        var k :| 0 <= k < |init| && init[k].ToolUse?;
        assert content[k] == init[k];
      }
      if NeedsToolUse(content) && !content[|content| - 1].ToolUse? {
        var k :| 0 <= k < |content| && content[k].ToolUse?;
        assert init[k] == content[k];
      }
    }
  }

  /** Every request after the first is the one before extended by a tool
      round for the reply to it, which asked for the tool. */
  lemma {:induction false} ConverseRounds(respond: seq<Message> -> Reply, h: Handling, messages: seq<Message>,
                                          iteration: nat)
    ensures var requests := Converse(respond, h, messages, iteration).0;
      forall k :: 0 <= k < |requests| - 1 ==>
        var reply := respond(requests[k]);
        reply.Reply? && NeedsToolUse(reply.content) &&
        requests[k + 1] == Round(requests[k], reply.content, h.answer(reply.content))
    decreases MaxIterations - iteration
  {
    if iteration < MaxIterations {
      match Handle(h, messages, respond(messages))
      case Stop(_) =>
      case Continue(next) =>
        ConverseRounds(respond, h, next, iteration + 1);
        var rest := Converse(respond, h, next, iteration + 1).0;
        assert Converse(respond, h, messages, iteration).0 == [messages] + rest;
    }
  }

  /** Each tool round adds two messages: the k-th request holds 2k more
      messages than the first. */
  lemma {:induction false} ConverseGrowth(respond: seq<Message> -> Reply, h: Handling, messages: seq<Message>,
                                          iteration: nat)
    ensures var requests := Converse(respond, h, messages, iteration).0;
      forall k :: 0 <= k < |requests| ==> |requests[k]| == |messages| + 2 * k
    decreases MaxIterations - iteration
  {
    if iteration < MaxIterations {
      match Handle(h, messages, respond(messages))
      case Stop(_) =>
      case Continue(next) =>
        ConverseGrowth(respond, h, next, iteration + 1);
        var rest := Converse(respond, h, next, iteration + 1).0;
        assert Converse(respond, h, messages, iteration).0 == [messages] + rest;
    }
  }

  /** The reply to every request asked for the tool. */
  ghost predicate AllAskTool(respond: seq<Message> -> Reply, requests: seq<seq<Message>>) {
    forall k :: 0 <= k < |requests| ==> respond(requests[k]).Reply? && NeedsToolUse(respond(requests[k]).content)
  }

  lemma AllAskToolCons(respond: seq<Message> -> Reply, m: seq<Message>, rest: seq<seq<Message>>)
    ensures AllAskTool(respond, [m] + rest) <==>
      respond(m).Reply? && NeedsToolUse(respond(m).content) && AllAskTool(respond, rest)
  {
    var all := [m] + rest;
    if AllAskTool(respond, all) {
      forall k | 0 <= k < |rest|
        ensures respond(rest[k]).Reply? && NeedsToolUse(respond(rest[k]).content)
      {
        assert rest[k] == all[k + 1];
      }
      assert all[0] == m;
    }
    if respond(m).Reply? && NeedsToolUse(respond(m).content) && AllAskTool(respond, rest) {
      forall k | 0 <= k < |all|
        ensures respond(all[k]).Reply? && NeedsToolUse(respond(all[k]).content)
      {
        if k > 0 {
          assert all[k] == rest[k - 1];
        }
      }
    }
  }

  /** The conversation fails with the iteration error exactly when it sent
      all 5 - i requests and every reply asked for the tool. */
  lemma {:induction false} ConverseExhausted(respond: seq<Message> -> Reply, h: Handling, messages: seq<Message>,
                                             iteration: nat)
    requires iteration <= MaxIterations
    ensures var r := Converse(respond, h, messages, iteration);
      r.1 == Failed(MaxIterationsReached) <==>
        |r.0| == MaxIterations - iteration && AllAskTool(respond, r.0)
    decreases MaxIterations - iteration
  {
    if iteration < MaxIterations {
      var r := Converse(respond, h, messages, iteration);
      match respond(messages)
      case TransportError(_) =>
        assert r.0[0] == messages;
      case Reply(content) =>
        if NeedsToolUse(content) {
          var next := Round(messages, content, h.answer(content));
          var rest := Converse(respond, h, next, iteration + 1);
          ConverseExhausted(respond, h, next, iteration + 1);
          AllAskToolCons(respond, messages, rest.0);
        } else {
          assert r.0[0] == messages;
        }
    }
  }

  /** The conversation ends with the answer to its last request: a transport
      error is passed on as-is, and the records are read from a reply that
      asked for no tool. */
  lemma {:induction false} ConverseLast(respond: seq<Message> -> Reply, h: Handling, messages: seq<Message>,
                                        iteration: nat)
    ensures var r := Converse(respond, h, messages, iteration);
      && (r.1.Failed? && r.1.failure.Transport? ==>
            |r.0| > 0 && respond(r.0[|r.0| - 1]) == TransportError(r.1.failure.error))
      && (r.1.Recommended? ==>
            && |r.0| > 0
            && var reply := respond(r.0[|r.0| - 1]);
            && reply.Reply? && !NeedsToolUse(reply.content)
            && r.1.activities == h.read(reply.content))
    decreases MaxIterations - iteration
  {
    if iteration < MaxIterations {
      match Handle(h, messages, respond(messages))
      case Stop(_) =>
      case Continue(next) =>
        ConverseLast(respond, h, next, iteration + 1);
        var rest := Converse(respond, h, next, iteration + 1);
        assert Converse(respond, h, messages, iteration) == ([messages] + rest.0, rest.1);
    }
  }

  /** How the conversation ends, read off the reply to its last request: a
      transport error is passed on, a reply that asks for no tool gives the
      records, and a reply that still asks for the tool can only be the
      fifth, after which the iteration error is raised. */
  lemma ConverseEnd(respond: seq<Message> -> Reply, h: Handling, messages: seq<Message>, iteration: nat)
    requires iteration < MaxIterations
    ensures var r := Converse(respond, h, messages, iteration);
      var last := respond(r.0[|r.0| - 1]);
      && (last.TransportError? ==> r.1 == Failed(Transport(last.error)))
      && (last.Reply? && !NeedsToolUse(last.content) ==> r.1 == Recommended(h.read(last.content)))
      && (last.Reply? && NeedsToolUse(last.content) ==>
            iteration + |r.0| == MaxIterations && r.1 == Failed(MaxIterationsReached))
  {
    var r := Converse(respond, h, messages, iteration);
    var last := respond(r.0[|r.0| - 1]);
    ConverseLast(respond, h, messages, iteration);
    ConverseExhausted(respond, h, messages, iteration);
    match r.1
    case Recommended(_) =>
    case Failed(Transport(e)) =>
      assert last == TransportError(e);
    case Failed(MaxIterationsReached) =>
      assert last.Reply? && NeedsToolUse(last.content);
  }

  /** A conversation of the service that recommends returns at most five
      records. */
  lemma RecommendedBound(respond: seq<Message> -> Reply, messages: seq<Message>, iteration: nat)
    ensures var r := Converse(respond, Service, messages, iteration);
      r.1.Recommended? ==> |r.1.activities| <= MaxActivities
  {
    ConverseLast(respond, Service, messages, iteration);
  }

  /** The step at iteration i of a conversation: if it stops, the
      conversation ends there with its outcome; if it goes on, its next
      messages are the next request, or, after the fifth, the iteration error
      is raised. */
  lemma ConverseStep(respond: seq<Message> -> Reply, h: Handling, messages: seq<Message>, iteration: nat)
    requires iteration < |Converse(respond, h, messages, 0).0|
    ensures var r := Converse(respond, h, messages, 0);
      var step := Handle(h, r.0[iteration], respond(r.0[iteration]));
      && (step.Stop? ==> |r.0| == iteration + 1 && r.1 == step.outcome)
      && (step.Continue? && iteration + 1 < MaxIterations ==>
            iteration + 1 < |r.0| && r.0[iteration + 1] == step.next)
      && (step.Continue? && iteration + 1 >= MaxIterations ==>
            |r.0| == iteration + 1 && r.1 == Failed(MaxIterationsReached))
  {
    var r := Converse(respond, h, messages, 0);
    ConverseRounds(respond, h, messages, 0);
    ConverseEnd(respond, h, messages, 0);
    var reply := respond(r.0[iteration]);
    if iteration + 1 < |r.0| {
      assert reply.Reply? && NeedsToolUse(reply.content);
    }
  }

  /** Logging the i-th request after the first i. */
  lemma LogNext<T>(log: seq<T>, requests: seq<T>, i: nat)
    requires i < |requests|
    ensures log + requests[..i + 1] == (log + requests[..i]) + [requests[i]]
  {
    assert requests[..i + 1] == requests[..i] + [requests[i]];
  }

  // ---------------------------------------------------------------------
  // The loop.
  // ---------------------------------------------------------------------

  /** The results of a method report an outcome: the failure, with no
      records, or the records and no failure. */
  predicate Reports(outcome: Outcome, values: seq<Activity>, failure: Option<Failure>) {
    match outcome
    case Failed(f) => failure == Some(f) && values == []
    case Recommended(activities) => failure.None? && values == activities
  }

  /** The values of the records. */
  function RecordValues(records: seq<ActivityRecord>): (vs: seq<Activity>)
    reads records
    ensures |vs| == |records|
    ensures forall k :: 0 <= k < |records| ==> vs[k] == records[k].Value()
  {
    seq(|records|, k requires 0 <= k < |records| reads records => records[k].Value())
  }

  /** One request and its reply's tool results: the loop of
      claudeService.js:247-264. */
  method AnswerTools(content: seq<Block>) returns (needsToolUse: bool, toolResults: seq<Block>)
    ensures needsToolUse == NeedsToolUse(content)
    ensures toolResults == ToolResults(content)
  {
    needsToolUse := false;
    toolResults := [];
    for j := 0 to |content|
      invariant needsToolUse == (|ToolUses(content[..j])| > 0)
      invariant toolResults == ToolResults(content[..j])
    {
      assert content[..j + 1][..j] == content[..j];
      var b := content[j];
      if b.ToolUse? {
        needsToolUse := true;
        var searchResults := PerformWebSearch(b.query);
        toolResults := toolResults + [ToolResult(b.id, searchResults)];
      }
    }
    assert content[..|content|] == content;
    NeedsToolUseIffUses(content);
  }

  /** The records of a reply that asks for no tool: claudeService.js:283-304. */
  method Recommend(content: seq<Block>) returns (activities: seq<ActivityRecord>)
    ensures RecordValues(activities) == Recommendation(content)
  {
    var finalText := CollectText(content);
    var parsed := ParseActivities(finalText);
    activities := Take(parsed, MaxActivities);
  }

  /** The concatenated text of a reply: claudeService.js:283-289. */
  method CollectText(content: seq<Block>) returns (finalText: Str)
    ensures finalText == FinalText(content)
  {
    finalText := [];
    for j := 0 to |content|
      invariant finalText == FinalText(content[..j])
    {
      assert content[..j + 1][..j] == content[..j];
      if content[j].TextBlock? {
        finalText := finalText + content[j].text;
      }
    }
    assert content[..|content|] == content;
  }

  /** getActivityRecommendations: the requests it sends are those of the
      conversation from the prompt, and it returns that conversation's
      records (as objects), or fails as it does. */
  method GetActivityRecommendations(model: Model, city: Str, ages: Str, availability: Str, distance: Str,
                                    preferences: Str)
    returns (activities: seq<ActivityRecord>, failure: Option<Failure>)
    modifies model
    ensures var r := Converse(model.respond, Service, Initial(city, ages, availability, distance, preferences), 0);
      model.sent == old(model.sent) + r.0 && Reports(r.1, RecordValues(activities), failure)
  {
    var prompt := BuildPrompt(city, ages, availability, distance, preferences);
    var messages := [Message(User, [TextBlock(prompt)])];
    activities, failure := Conversation(model, messages);
  }

  /** One pass of the loop body (claudeService.js:219-305): one request,
      then either the next messages after a tool round, or the end of the
      conversation with the transport error or the records. */
  method Turn(model: Model, messages: seq<Message>)
    returns (next: Option<seq<Message>>, activities: seq<ActivityRecord>, failure: Option<Failure>)
    modifies model
    ensures model.sent == old(model.sent) + [messages]
    ensures var step := Handle(Service, messages, model.respond(messages));
      && (step.Continue? ==> next == Some(step.next) && failure.None? && activities == [])
      && (step.Stop? ==> next.None? && Reports(step.outcome, RecordValues(activities), failure))
  {
    var reply := model.Create(messages);
    activities := [];
    if reply.TransportError? {
      return None, [], Some(Transport(reply.error));
    }
    var needsToolUse, toolResults := AnswerTools(reply.content);
    if needsToolUse {
      next := Some(messages + [Message(Assistant, reply.content), Message(User, toolResults)]);
      failure := None;
    } else {
      activities := Recommend(reply.content);
      next, failure := None, None;
    }
  }

  /** The loop of claudeService.js:218-308 from the messages it starts with. */
  method Conversation(model: Model, messages: seq<Message>)
    returns (activities: seq<ActivityRecord>, failure: Option<Failure>)
    modifies model
    ensures var r := Converse(model.respond, Service, messages, 0);
      model.sent == old(model.sent) + r.0 && Reports(r.1, RecordValues(activities), failure)
  {
    ghost var start := messages;
    ghost var sent := model.sent;
    ghost var requests := Converse(model.respond, Service, start, 0).0;
    ghost var ending := Converse(model.respond, Service, start, 0).1;
    var messages := messages;
    var maxIterations := MaxIterations;
    var iteration := 0;
    activities := [];
    while iteration < maxIterations
      invariant 0 <= iteration <= maxIterations
      invariant iteration < maxIterations ==> iteration < |requests| && messages == requests[iteration]
      invariant iteration == maxIterations ==> |requests| == iteration && ending == Failed(MaxIterationsReached)
      invariant model.sent == sent + requests[..iteration]
      decreases maxIterations - iteration
    {
      ConverseStep(model.respond, Service, start, iteration);
      LogNext(sent, requests, iteration);
      var next, found, error := Turn(model, messages);
      iteration := iteration + 1;
      if next.None? {
        assert requests == requests[..iteration];
        return found, error;
      }
      messages := next.value;
    }
    assert requests[..iteration] == requests;
    failure := Some(MaxIterationsReached);
  }
}
