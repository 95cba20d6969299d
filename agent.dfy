/**
  * The agent (agent.py): the router, the Agent/Tools graph built by build_workflow and
  * run by the compiled app, call_model, the three tools, chat and the command-line loop.
  *
  * The language model is an abstract function from the whole message history to a reply
  * (its content and a possibly empty list of tool calls); running one tool call (what the
  * prebuilt tool node does) is an abstract function from the call to the tool's output.
  * The memory checkpointer is a map from thread id to that thread's history.
  */
module Agent {
  import opened Wrappers
  import opened Strings
  import ReadEmail
  import SendEmail

  // ---------------------------------------------------------------------------
  // Messages and the router
  // ---------------------------------------------------------------------------

  datatype Role = Human | Ai | Tool

  datatype ToolCall = ToolCall(id: string, name: string, args: map<string, string>)

  /** A chat message; `toolCalls` is only non-empty on model replies and `toolCallId` only
      set on tool results. */
  datatype Message = Message(role: Role, content: string, toolCalls: seq<ToolCall>, toolCallId: string)

  /** What the model answers: text and the tool calls it requests. */
  datatype Reply = Reply(content: string, toolCalls: seq<ToolCall>)

  /** `llm_with_tool.invoke(messages)`. */
  type Model = seq<Message> -> Reply

  /** Running one tool call and rendering its return value. */
  type Executor = ToolCall -> string

  function HumanMessage(text: string): Message {
    Message(Human, text, [], "")
  }

  function AiMessage(reply: Reply): Message {
    Message(Ai, reply.content, reply.toolCalls, "")
  }

  datatype Route = ToTools | ToEnd

  /** router: "tools" when the last message requests tool calls, END otherwise. */
  function Router(messages: seq<Message>): (route: Route)
    requires messages != []
    ensures route == ToTools <==> messages[|messages| - 1].toolCalls != []
  {
    if messages[|messages| - 1].toolCalls != [] then ToTools else ToEnd
  }

  /** call_model: the state update holding exactly one message, the model's reply to the
      whole history. */
  function CallModel(messages: seq<Message>, model: Model): (update: seq<Message>)
    ensures |update| == 1 && update[0].role == Ai
    ensures update[0].content == model(messages).content
    ensures update[0].toolCalls == model(messages).toolCalls
  {
    [AiMessage(model(messages))]
  }

  function ToolResult(call: ToolCall, execute: Executor): Message {
    Message(Tool, execute(call), [], call.id)
  }

  /** What the tool node adds: one tool message per call, in the order requested. */
  function ToolResults(calls: seq<ToolCall>, execute: Executor): (results: seq<Message>)
    ensures |results| == |calls|
    ensures forall j :: 0 <= j < |calls| ==> results[j] == ToolResult(calls[j], execute)
  {
    if calls == [] then [] else [ToolResult(calls[0], execute)] + ToolResults(calls[1..], execute)
  }

  // ---------------------------------------------------------------------------
  // The graph of build_workflow
  // ---------------------------------------------------------------------------

  datatype Node = Start | AgentNode | ToolsNode | End

  /** The edges: START to Agent, Agent to Tools or END as the router says, Tools to Agent. */
  function NextNode(node: Node, messages: seq<Message>): Node
    requires node == AgentNode ==> messages != []
  {
    match node
    case Start => AgentNode
    case AgentNode => if Router(messages) == ToTools then ToolsNode else End
    case ToolsNode => AgentNode
    case End => End
  }

  /** How a run of the graph ends: at END, or stopped by the step bound with the history so far. */
  datatype Outcome = Finished(messages: seq<Message>) | StepLimit(messages: seq<Message>)

  /**
    * A run from the Agent node on `messages`: the model answers the whole history, its reply
    * is appended, and either the run ends or every requested call's result is appended and
    * the Agent node runs again. `rounds` bounds the number of Tools steps.
    */
  function Run(messages: seq<Message>, model: Model, execute: Executor, rounds: nat): (outcome: Outcome)
    ensures |outcome.messages| > |messages|
    decreases rounds, 1
  {
    Routed(messages + CallModel(messages, model), model, execute, rounds)
  }

  /** The rest of a run once the Agent node has appended its reply to `updated`: END, the
      step bound, or the Tools node's results and another run. */
  function Routed(updated: seq<Message>, model: Model, execute: Executor, rounds: nat): (outcome: Outcome)
    requires updated != []
    ensures |outcome.messages| >= |updated|
    decreases rounds, 0
  {
    if Router(updated) == ToEnd then Finished(updated)
    else if rounds == 0 then StepLimit(updated)
    else Run(updated + ToolResults(updated[|updated| - 1].toolCalls, execute), model, execute, rounds - 1)
  }

  /**
    * The messages one run appends: model replies, each requesting calls being followed
    * directly by one result per call in the requested order, up to a final reply that
    * requests none.
    */
  predicate Transcript(t: seq<Message>)
    decreases |t|
  {
    |t| >= 1 && t[0].role == Ai &&
    if t[0].toolCalls == [] then |t| == 1
    else
      var k := 1 + |t[0].toolCalls|;
      |t| > k && AnswersCalls(t[1..k], t[0].toolCalls) && Transcript(t[k..])
  }

  /** `results` answer `calls` one for one and in order: each is a tool message carrying
      the id of its call. */
  predicate AnswersCalls(results: seq<Message>, calls: seq<ToolCall>)
    decreases |results|
  {
    |results| == |calls| &&
    (results != [] ==>
       results[0].role == Tool && results[0].toolCallId == calls[0].id && AnswersCalls(results[1..], calls[1..]))
  }

  lemma {:induction false} AnswersCallsPointwise(results: seq<Message>, calls: seq<ToolCall>)
    ensures AnswersCalls(results, calls) <==>
            |results| == |calls| &&
            forall j :: 0 <= j < |results| ==> results[j].role == Tool && results[j].toolCallId == calls[j].id
    decreases |results|
  {
    if results != [] && |results| == |calls| {
      AnswersCallsPointwise(results[1..], calls[1..]);
      if forall j :: 0 <= j < |results| ==> results[j].role == Tool && results[j].toolCallId == calls[j].id {
        forall j | 0 <= j < |results| - 1
          ensures results[1..][j].role == Tool && results[1..][j].toolCallId == calls[1..][j].id
        {
          assert results[1..][j] == results[j + 1];
        }
      }
      if AnswersCalls(results, calls) {
        forall j | 0 <= j < |results|
          ensures results[j].role == Tool && results[j].toolCallId == calls[j].id
        {
          if j > 0 {
            assert results[j] == results[1..][j - 1];
          }
        }
      }
    }
  }

  /** A run only appends: the history it starts from is a proper prefix of the one it returns. */
  lemma {:induction false} RunExtends(messages: seq<Message>, model: Model, execute: Executor, rounds: nat)
    ensures var h := Run(messages, model, execute, rounds).messages;
            |h| > |messages| && h[..|messages|] == messages
    decreases rounds
  {
    var updated := messages + CallModel(messages, model);
    if Router(updated) == ToTools && rounds > 0 {
      var next := updated + ToolResults(updated[|updated| - 1].toolCalls, execute);
      RunExtends(next, model, execute, rounds - 1);
      var h := Run(next, model, execute, rounds - 1).messages;
      assert h[..|messages|] == h[..|next|][..|messages|];
    }
  }

  /** One reply, its calls' results and a transcript following them form a transcript. */
  lemma TranscriptStep(reply: Message, results: seq<Message>, rest: seq<Message>)
    requires reply.role == Ai && reply.toolCalls != [] && |results| == |reply.toolCalls|
    requires forall j :: 0 <= j < |results| ==> results[j].role == Tool && results[j].toolCallId == reply.toolCalls[j].id
    requires Transcript(rest)
    ensures Transcript([reply] + results + rest)
  {
    var t := [reply] + results + rest;
    assert t[1 + |results|..] == rest;
    assert t[1..1 + |results|] == results;
    AnswersCallsPointwise(results, reply.toolCalls);
  }

  /**
    * A finished run keeps the history it started from, and what it appends is a transcript:
    * every call's result comes before the next model call, and the run ends only right
    * after a reply without tool calls.
    */
  lemma {:induction false} FinishedRunIsTranscript(messages: seq<Message>, model: Model, execute: Executor, rounds: nat)
    requires Run(messages, model, execute, rounds).Finished?
    ensures var h := Run(messages, model, execute, rounds).messages;
            Transcript(h[|messages|..]) && h[|h| - 1].role == Ai && h[|h| - 1].toolCalls == []
    decreases rounds
  {
    var reply := AiMessage(model(messages));
    var updated := messages + [reply];
    assert updated[|updated| - 1] == reply;
    if Router(updated) == ToEnd {
      assert updated[|messages|..] == [reply];
      FinalReplyTranscript(reply);
    } else {
      var results := ToolResults(reply.toolCalls, execute);
      var next := updated + results;
      assert Run(messages, model, execute, rounds) == Run(next, model, execute, rounds - 1);
      FinishedRunIsTranscript(next, model, execute, rounds - 1);
      RunExtends(next, model, execute, rounds - 1);
      var h := Run(next, model, execute, rounds - 1).messages;
      TranscriptAfterStep(messages, reply, results, h);
    }
  }

  /** A history extending `messages`, a reply with calls and their results, whose part after
      the results is a transcript, is a transcript after `messages`. */
  lemma TranscriptAfterStep(messages: seq<Message>, reply: Message, results: seq<Message>, h: seq<Message>)
    requires reply.role == Ai && reply.toolCalls != [] && |results| == |reply.toolCalls|
    requires forall j :: 0 <= j < |results| ==> results[j].role == Tool && results[j].toolCallId == reply.toolCalls[j].id
    requires |h| >= |messages + [reply] + results| && h[..|messages + [reply] + results|] == messages + [reply] + results
    requires Transcript(h[|messages + [reply] + results|..])
    ensures Transcript(h[|messages|..])
  {
    TranscriptStep(reply, results, h[|messages + [reply] + results|..]);
    SuffixAfterStep(messages, reply, results, h);
  }

  /** A reply without tool calls is a transcript on its own. */
  lemma FinalReplyTranscript(reply: Message)
    requires reply.role == Ai && reply.toolCalls == []
    ensures Transcript([reply])
  {
  }

  /** A history extending `messages`, a reply and its results: its part after `messages` is
      the reply, the results and whatever follows them. */
  lemma SuffixAfterStep(messages: seq<Message>, reply: Message, results: seq<Message>, h: seq<Message>)
    requires |h| >= |messages + [reply] + results| && h[..|messages + [reply] + results|] == messages + [reply] + results
    ensures h[|messages|..] == [reply] + results + h[|messages + [reply] + results|..]
  {
    var n := |messages + [reply] + results|;
    assert h[|messages|..] == h[|messages|..n] + h[n..];
    assert h[|messages|..n] == (messages + [reply] + results)[|messages|..];
  }

  /** A run stopped by the bound ends on a reply that still requests tool calls. */
  lemma {:induction false} StoppedRunEndsWithToolCalls(messages: seq<Message>, model: Model, execute: Executor, rounds: nat)
    requires Run(messages, model, execute, rounds).StepLimit?
    ensures var h := Run(messages, model, execute, rounds).messages;
            h[|h| - 1].role == Ai && h[|h| - 1].toolCalls != []
    decreases rounds
  {
    var updated := messages + CallModel(messages, model);
    if Router(updated) == ToTools && rounds > 0 {
      var next := updated + ToolResults(updated[|updated| - 1].toolCalls, execute);
      StoppedRunEndsWithToolCalls(next, model, execute, rounds - 1);
      RunExtends(next, model, execute, rounds - 1);
    }
  }

  /** A history that reaches END was not cut short: it is exactly a model reply with no
      tool calls, so a reply without calls ends the run at once, appending nothing else. */
  lemma ReplyWithoutCallsEndsRun(messages: seq<Message>, model: Model, execute: Executor, rounds: nat)
    requires model(messages).toolCalls == []
    ensures Run(messages, model, execute, rounds) == Finished(messages + [AiMessage(model(messages))])
  {
  }

  function NodeRank(node: Node): nat {
    match node
    case AgentNode => 2
    case ToolsNode => 1
    case _ => 0
  }

  predicate IsEdge(a: Node, b: Node) {
    (a == Start && b == AgentNode) ||
    (a == AgentNode && (b == ToolsNode || b == End)) ||
    (a == ToolsNode && b == AgentNode)
  }

  /** A walk through the graph from START: it begins START, Agent and every further node
      is joined to the one before it by an edge. */
  predicate IsPath(trace: seq<Node>)
    decreases |trace|
  {
    if |trace| <= 2 then trace == [Start, AgentNode]
    else IsPath(trace[..|trace| - 1]) && IsEdge(trace[|trace| - 2], trace[|trace| - 1])
  }

  lemma PathSnoc(trace: seq<Node>, node: Node)
    requires IsPath(trace) && IsEdge(trace[|trace| - 1], node)
    ensures IsPath(trace + [node])
  {
    assert (trace + [node])[..|trace|] == trace;
  }

  /** Every two consecutive nodes of a walk are joined by an edge. */
  lemma {:induction false} PathEdges(trace: seq<Node>)
    requires IsPath(trace)
    ensures |trace| >= 2 && trace[0] == Start && trace[1] == AgentNode
    ensures forall k :: 0 <= k < |trace| - 1 ==> IsEdge(trace[k], trace[k + 1])
    decreases |trace|
  {
    if |trace| > 2 {
      var init := trace[..|trace| - 1];
      PathEdges(init);
      assert forall k :: 0 <= k < |init| ==> init[k] == trace[k];
    }
  }

  /** What is left of a run when the graph is about to execute `node` on `messages`, with
      `left` tool rounds still allowed. */
  function Remaining(node: Node, messages: seq<Message>, model: Model, execute: Executor, left: nat): Outcome {
    match node
    case ToolsNode =>
      if messages == [] || left == 0 then StepLimit(messages)
      else Run(messages + ToolResults(messages[|messages| - 1].toolCalls, execute), model, execute, left - 1)
    case End => Finished(messages)
    case _ => Run(messages, model, execute, left)
  }

  /** The Agent node appends the reply; the run then continues at the router's choice,
      unless the tools are chosen with no round left. */
  lemma AgentNodeStep(messages: seq<Message>, model: Model, execute: Executor, left: nat)
    ensures var updated := messages + CallModel(messages, model);
            var next := NextNode(AgentNode, updated);
            Remaining(AgentNode, messages, model, execute, left) ==
              if next == ToolsNode && left == 0 then StepLimit(updated)
              else Remaining(next, updated, model, execute, left)
  {
    var updated := messages + CallModel(messages, model);
    assert Run(messages, model, execute, left) == Routed(updated, model, execute, left);
  }

  /** The Tools node appends one result per requested call and hands back to Agent. */
  lemma ToolsNodeStep(messages: seq<Message>, model: Model, execute: Executor, left: nat)
    requires messages != [] && left > 0
    ensures Remaining(ToolsNode, messages, model, execute, left) ==
            Remaining(AgentNode, messages + ToolResults(messages[|messages| - 1].toolCalls, execute),
                      model, execute, left - 1)
  {
  }

  /**
    * The compiled graph's `invoke` on an input history: steps through the nodes from START,
    * running call_model at Agent and the tool node at Tools, choosing the edge after Agent
    * with the router. `trace` is the sequence of nodes visited.
    */
  method Invoke(input: seq<Message>, model: Model, execute: Executor, rounds: nat)
    returns (outcome: Outcome, trace: seq<Node>)
    ensures outcome == Run(input, model, execute, rounds)
    ensures IsPath(trace)
    ensures outcome.Finished? <==> trace[|trace| - 1] == End
    ensures outcome.StepLimit? ==> trace[|trace| - 1] == AgentNode
  {
    var messages := input;
    var node := NextNode(Start, messages);
    trace := [Start, node];
    var left := rounds;
    while node != End
      invariant node != Start && IsPath(trace) && trace[|trace| - 1] == node
      invariant node == ToolsNode ==> messages != [] && left > 0
      invariant Remaining(node, messages, model, execute, left) == Run(input, model, execute, rounds)
      decreases left, NodeRank(node)
    {
      var next;
      if node == AgentNode {
        AgentNodeStep(messages, model, execute, left);
        messages := messages + CallModel(messages, model);
        next := NextNode(AgentNode, messages);
        if next == ToolsNode && left == 0 {
          return StepLimit(messages), trace;
        }
      } else {
        ToolsNodeStep(messages, model, execute, left);
        messages := messages + ToolResults(messages[|messages| - 1].toolCalls, execute);
        left := left - 1;
        next := NextNode(ToolsNode, messages);
      }
      PathSnoc(trace, next);
      node := next;
      trace := trace + [node];
    }
    outcome := Finished(messages);
  }

  // ---------------------------------------------------------------------------
  // The tools
  // ---------------------------------------------------------------------------

  /** The key reading_email files the i-th result under (counting from 1). */
  function EmailKey(n: nat): string {
    "Email_" + NatToString(n)
  }

  lemma EmailKeyInjective(a: nat, b: nat)
    requires EmailKey(a) == EmailKey(b)
    ensures a == b
  {
    assert NatToString(a) == EmailKey(a)[6..] == EmailKey(b)[6..] == NatToString(b);
    NatToStringInjective(a, b);
  }

  /** reading_email's result cap. */
  const ReadingLimit := 2

  /** The keys Email_1 .. Email_k. */
  ghost function EmailKeys(k: nat): set<string> {
    if k == 0 then {} else EmailKeys(k - 1) + {EmailKey(k)}
  }

  /** A later key is not among Email_1 .. Email_k. */
  lemma {:induction false} EmailKeyFresh(k: nat, m: nat)
    requires m > k
    ensures EmailKey(m) !in EmailKeys(k)
  {
    if k > 0 {
      EmailKeyFresh(k - 1, m);
      if EmailKey(m) == EmailKey(k) {
        EmailKeyInjective(m, k);
      }
    }
  }

  /** Email_1 .. Email_k are k distinct keys. */
  lemma {:induction false} EmailKeysCount(k: nat)
    ensures |EmailKeys(k)| == k
  {
    if k > 0 {
      EmailKeysCount(k - 1);
      EmailKeyFresh(k - 1, k);
    }
  }

  /** Each of Email_1 .. Email_k is among them. */
  lemma {:induction false} EmailKeysHave(k: nat, n: nat)
    requires 1 <= n <= k
    ensures EmailKey(n) in EmailKeys(k)
  {
    if n < k {
      EmailKeysHave(k - 1, n);
    }
  }

  /** `m` files `values[n - 1]` under Email_n for n in 1 .. k and holds no other key. */
  ghost predicate FiledUpTo<V>(m: map<string, V>, values: seq<V>, k: nat)
    requires k <= |values|
  {
    m.Keys == EmailKeys(k) &&
    forall n :: 1 <= n <= k ==> EmailKey(n) in m && m[EmailKey(n)] == values[n - 1]
  }

  /** Filing the next value under the next key extends what is filed by one. */
  lemma FileNext<V>(m: map<string, V>, values: seq<V>, k: nat)
    requires k < |values| && FiledUpTo(m, values, k)
    ensures FiledUpTo(m[EmailKey(k + 1) := values[k]], values, k + 1)
  {
    EmailKeyFresh(k, k + 1);
    var key := EmailKey(k + 1);
    var m' := m[key := values[k]];
    forall n | 1 <= n <= k + 1
      ensures EmailKey(n) in m' && m'[EmailKey(n)] == values[n - 1]
    {
      if n <= k {
        assert EmailKey(n) in m;
        assert EmailKey(n) != key;
      }
    }
  }

  /** Every value filed: one key per value. */
  lemma FiledAll<V>(m: map<string, V>, values: seq<V>)
    requires FiledUpTo(m, values, |values|)
    ensures |m| == |values|
    ensures forall n :: 1 <= n <= |values| ==> EmailKey(n) in m && m[EmailKey(n)] == values[n - 1]
  {
    EmailKeysCount(|values|);
    assert |m| == |m.Keys|;
  }

  /** The loop of reading_email: reads every search result and files it under its
      1-based position. */
  method FileResults(results: seq<ReadEmail.MessageRef>, get: string -> ReadEmail.Payload, decode: string -> string)
    returns (messageData: map<string, map<string, ReadEmail.Value>>)
    ensures |messageData| == |results|
    ensures forall n :: 1 <= n <= |results| ==>
              EmailKey(n) in messageData &&
              messageData[EmailKey(n)] == ReadEmail.EmailRecord(get(results[n - 1].id), decode)
  {
    ghost var records := seq(|results|, j requires 0 <= j < |results| => ReadEmail.EmailRecord(get(results[j].id), decode));
    messageData := map[];
    for i := 0 to |results|
      invariant FiledUpTo(messageData, records, i)
    {
      var details := ReadEmail.ReadMessage(results[i], get, decode);
      assert details == records[i];
      FileNext(messageData, records, i);
      messageData := messageData[EmailKey(i + 1) := details];
    }
    FiledAll(messageData, records);
    forall n | 1 <= n <= |results|
      ensures messageData[EmailKey(n)] == ReadEmail.EmailRecord(get(results[n - 1].id), decode)
    {
      assert messageData[EmailKey(n)] == records[n - 1];
    }
  }

  /**
    * reading_email: searches with the tag (at most two results), reads each result and
    * files it under Email_1, Email_2, ... in search order. `requests` are the listing
    * calls the search made, each carrying the tag as its query.
    */
  method ReadingEmail(tag: string, pages: seq<ReadEmail.ListPage>, get: string -> ReadEmail.Payload,
                      decode: string -> string)
    returns (messageData: map<string, map<string, ReadEmail.Value>>, requests: seq<ReadEmail.ListRequest>)
    requires |pages| > 0 && pages[|pages| - 1].nextPageToken == None
    // every listing call searches with the tag, the first one asking for the whole cap
    ensures 1 <= |requests| <= |pages|
    ensures requests[0] == ReadEmail.ListRequest(tag, None, ReadingLimit)
    ensures forall k :: 0 <= k < |requests| ==> requests[k].query == tag
    ensures var results := ReadEmail.SearchResult(pages, ReadingLimit);
            |messageData| == |results| <= ReadingLimit &&
            forall n :: 1 <= n <= |results| ==>
              EmailKey(n) in messageData &&
              messageData[EmailKey(n)] == ReadEmail.EmailRecord(get(results[n - 1].id), decode)
  {
    var results;
    results, requests := ReadEmail.SearchMessages(pages, tag, ReadingLimit);
    messageData := FileResults(results, get, decode);
  }

  /** The collaborators' side of the two acting tools: the messages handed to Gmail's
      `messages().send` and the texts posted to Twitter, in order. */
  class Services {
    var sentMail: seq<map<string, string>>
    var tweets: seq<string>

    constructor ()
      ensures sentMail == [] && tweets == []
    {
      sentMail, tweets := [], [];
    }
  }

  const MailSentAck := "Mail sent successfully"
  const TweetedAck := "Tweeted successfully"

  /** sending_email: one send of the message built from address, subject and body (no
      attachments), then the fixed acknowledgement. */
  method SendingEmail(services: Services, email: string, subject: string, body: string,
                      encode: SendEmail.MimePart -> string)
    returns (ack: string)
    modifies services
    ensures ack == MailSentAck
    ensures services.sentMail ==
            old(services.sentMail) + [map["raw" := encode(SendEmail.Compose(email, subject, body, []))]]
    ensures services.tweets == old(services.tweets)
  {
    var noGuess := (f: string) => SendEmail.Guess(None, None);
    var noFiles := (f: string) => [];
    var noText := (b: seq<Byte>) => "";
    var message := SendEmail.BuildMessage(email, subject, body, [], noGuess, noFiles, noText, encode);
    assert message.value == map["raw" := message.value["raw"]];
    services.sentMail := services.sentMail + [message.value];
    ack := MailSentAck;
  }

  /** tweet: one post of the message, then the fixed acknowledgement. */
  method Tweet(services: Services, message: string) returns (ack: string)
    modifies services
    ensures ack == TweetedAck
    ensures services.tweets == old(services.tweets) + [message]
    ensures services.sentMail == old(services.sentMail)
  {
    services.tweets := services.tweets + [message];
    ack := TweetedAck;
  }

  // ---------------------------------------------------------------------------
  // Orion: chat and the command-line loop
  // ---------------------------------------------------------------------------

  /** The thread every chat call uses. */
  const ThreadId := "1"

  /** The input of one chat call: the saved history, then the system prompt and the user's
      text, both as human messages. */
  function ChatInput(saved: seq<Message>, systemMessage: string, line: string): seq<Message> {
    saved + [HumanMessage(systemMessage), HumanMessage(line)]
  }

  /** Thread "1"'s history after chatting the first `n` inputs in turn, starting from `saved`. */
  function ThreadAfter(saved: seq<Message>, systemMessage: string, inputs: seq<string>, n: nat,
                       model: Model, execute: Executor, rounds: nat): seq<Message>
    requires n <= |inputs|
    decreases n, 1
  {
    if n == 0 then saved
    else ChatOutcome(saved, systemMessage, inputs, n, model, execute, rounds).messages
  }

  /** The run of the chat call for the `n`-th input, after the earlier ones. */
  function ChatOutcome(saved: seq<Message>, systemMessage: string, inputs: seq<string>, n: nat,
                       model: Model, execute: Executor, rounds: nat): Outcome
    requires 0 < n <= |inputs|
    decreases n, 0
  {
    var before := ThreadAfter(saved, systemMessage, inputs, n - 1, model, execute, rounds);
    Run(ChatInput(before, systemMessage, inputs[n - 1]), model, execute, rounds)
  }

  /** What a chat call returns for a run: the last message's text when the run finished,
      nothing when the step bound stopped it. */
  function FinalReply(outcome: Outcome): Option<string> {
    if outcome.Finished? && |outcome.messages| > 0 then Some(outcome.messages[|outcome.messages| - 1].content) else None
  }

  /** The printed line for a chat call whose run is `outcome`: the run finished, and the line
      is the reply prefix followed by its last message's text. */
  predicate IsReplyTo(line: string, outcome: Outcome) {
    outcome.Finished? && |outcome.messages| > 0 &&
    line == ReplyPrefix + outcome.messages[|outcome.messages| - 1].content
  }

  /** `replies` are the printed answers to the first |replies| inputs: the chat call for each
      of them finished, and its reply follows the prefix. */
  ghost predicate RepliesMatch(replies: seq<string>, saved: seq<Message>, systemMessage: string, inputs: seq<string>,
                               model: Model, execute: Executor, rounds: nat)
  {
    |replies| <= |inputs| &&
    forall j :: 0 <= j < |replies| ==>
      IsReplyTo(replies[j], ChatOutcome(saved, systemMessage, inputs, j + 1, model, execute, rounds))
  }

  lemma RepliesMatchSnoc(replies: seq<string>, saved: seq<Message>, systemMessage: string, inputs: seq<string>,
                         model: Model, execute: Executor, rounds: nat, reply: string)
    requires RepliesMatch(replies, saved, systemMessage, inputs, model, execute, rounds)
    requires |replies| < |inputs|
    requires IsReplyTo(reply, ChatOutcome(saved, systemMessage, inputs, |replies| + 1, model, execute, rounds))
    ensures RepliesMatch(replies + [reply], saved, systemMessage, inputs, model, execute, rounds)
  {
    var replies' := replies + [reply];
    forall j | 0 <= j < |replies'|
      ensures IsReplyTo(replies'[j], ChatOutcome(saved, systemMessage, inputs, j + 1, model, execute, rounds))
    {
      if j < |replies| {
        assert replies'[j] == replies[j];
      }
    }
  }

  /** One loop turn of the REPL, in terms of what a chat call promises: the `i`-th input's run
      starts from the history the earlier inputs left, the thread then holds that run's
      messages, and the reply is the run's last message exactly when the run finished. */
  lemma ChatStep(threads0: map<string, seq<Message>>, before: map<string, seq<Message>>,
                 after: map<string, seq<Message>>, history: seq<Message>, reply: Option<string>,
                 saved: seq<Message>, systemMessage: string, inputs: seq<string>, i: nat,
                 model: Model, execute: Executor, rounds: nat)
    requires i < |inputs|
    requires history == ThreadAfter(saved, systemMessage, inputs, i, model, execute, rounds)
    requires before == if i == 0 then threads0 else threads0[ThreadId := history]
    requires var outcome := Run(ChatInput(history, systemMessage, inputs[i]), model, execute, rounds);
             after == before[ThreadId := outcome.messages] && reply == FinalReply(outcome)
    ensures after == threads0[ThreadId := ThreadAfter(saved, systemMessage, inputs, i + 1, model, execute, rounds)]
    ensures reply.None? ==> ChatOutcome(saved, systemMessage, inputs, i + 1, model, execute, rounds).StepLimit?
    ensures reply.Some? ==>
              IsReplyTo(ReplyPrefix + reply.value, ChatOutcome(saved, systemMessage, inputs, i + 1, model, execute, rounds))
  {
    RunExtends(ChatInput(history, systemMessage, inputs[i]), model, execute, rounds);
  }

  class Orion {
    const systemMessage: string
    /** The checkpointer's saved history per thread. */
    var threads: map<string, seq<Message>>

    /** __init__: the system prompt (whose text and timestamp are inputs here) and an empty memory. */
    constructor (systemMessage: string)
      ensures this.systemMessage == systemMessage && threads == map[]
    {
      this.systemMessage := systemMessage;
      threads := map[];
    }

    /** The history saved for a thread, empty before its first run. */
    function Saved(thread: string): seq<Message>
      reads this
    {
      if thread in threads then threads[thread] else []
    }

    /**
      * chat: invokes the graph on thread "1" with the system prompt and the user's text
      * (both plain strings, so both become human messages) appended to the saved history,
      * saves the resulting history and returns the last message's content. None stands for
      * the error raised when the step bound is hit.
      */
    method Chat(userInput: string, model: Model, execute: Executor, rounds: nat) returns (reply: Option<string>)
      modifies this
      ensures var outcome := Run(ChatInput(old(Saved(ThreadId)), systemMessage, userInput), model, execute, rounds);
              threads == old(threads)[ThreadId := outcome.messages] && reply == FinalReply(outcome)
    {
      var input := ChatInput(Saved(ThreadId), systemMessage, userInput);
      var outcome, _ := Invoke(input, model, execute, rounds);
      threads := threads[ThreadId := outcome.messages];
      RunExtends(input, model, execute, rounds);
      if outcome.Finished? {
        reply := Some(outcome.messages[|outcome.messages| - 1].content);
      } else {
        reply := None;
      }
    }
  }

  /** The REPL's exit rule: "exit" or "quit" in any letter case. */
  predicate IsExitCommand(line: string) {
    Lower(line) == "exit" || Lower(line) == "quit"
  }

  datatype StopReason = ExitCommand | EndOfInput | ChatFailed

  const ReplyPrefix := "ORION: "

  /**
    * The `__main__` loop: reads lines until "exit"/"quit" (any case), which prints the
    * farewell and stops; every other line goes to exactly one chat call, whose reply is
    * printed after "ORION: ". Running out of input or a failing chat ends the loop.
    */
  method Repl(orion: Orion, inputs: seq<string>, model: Model, execute: Executor, rounds: nat)
    returns (output: seq<string>, chatted: seq<string>, stop: StopReason)
    modifies orion
    ensures |chatted| <= |inputs| && chatted == inputs[..|chatted|]
    ensures forall j :: 0 <= j < |chatted| ==> !IsExitCommand(chatted[j])
    ensures stop == ExitCommand ==> |chatted| < |inputs| && IsExitCommand(inputs[|chatted|])
    ensures stop == EndOfInput ==> |chatted| == |inputs|
    ensures stop == ChatFailed ==> |chatted| > 0
    ensures |output| == |chatted| + (if stop == ExitCommand then 1 else 0) - (if stop == ChatFailed then 1 else 0)
    ensures stop == ExitCommand ==> output[|output| - 1] == "Goodbye!"
    ensures forall j :: 0 <= j < |output| && (stop != ExitCommand || j < |output| - 1) ==> ReplyPrefix <= output[j]
    // each chatted line is one chat call on thread "1", in order, and the thread keeps the result
    ensures orion.threads ==
            if chatted == [] then old(orion.threads)
            else old(orion.threads)[ThreadId := ThreadAfter(old(orion.Saved(ThreadId)), orion.systemMessage,
                                                            inputs, |chatted|, model, execute, rounds)]
    // the j-th printed reply is the last message of the j-th chat call's finished run
    ensures var replies := if stop == ExitCommand then output[..|output| - 1] else output;
            RepliesMatch(replies, old(orion.Saved(ThreadId)), orion.systemMessage, inputs, model, execute, rounds)
    // the loop fails exactly on a chat call whose run hits the step bound
    ensures stop == ChatFailed ==>
              ChatOutcome(old(orion.Saved(ThreadId)), orion.systemMessage, inputs, |chatted|, model, execute, rounds).StepLimit?
  {
    ghost var saved := orion.Saved(ThreadId);
    output, chatted := [], [];
    var i := 0;
    stop := EndOfInput;
    while i < |inputs|
      invariant 0 <= i <= |inputs| && chatted == inputs[..i]
      invariant forall j :: 0 <= j < i ==> !IsExitCommand(chatted[j])
      invariant |output| == i
      invariant forall j :: 0 <= j < i ==> ReplyPrefix <= output[j]
      invariant orion.Saved(ThreadId) == ThreadAfter(saved, orion.systemMessage, inputs, i, model, execute, rounds)
      invariant orion.threads ==
                if i == 0 then old(orion.threads)
                else old(orion.threads)[ThreadId := ThreadAfter(saved, orion.systemMessage, inputs, i, model, execute, rounds)]
      invariant RepliesMatch(output, saved, orion.systemMessage, inputs, model, execute, rounds)
      decreases |inputs| - i
    {
      var line := inputs[i];
      if IsExitCommand(line) {
        assert (output + ["Goodbye!"])[..i] == output;
        output := output + ["Goodbye!"];
        stop := ExitCommand;
        return;
      }
      assert inputs[..i + 1] == chatted + [line];
      chatted := chatted + [line];
      ghost var before, history := orion.threads, orion.Saved(ThreadId);
      var reply := orion.Chat(line, model, execute, rounds);
      ChatStep(old(orion.threads), before, orion.threads, history, reply, saved, orion.systemMessage, inputs, i,
               model, execute, rounds);
      if reply.None? {
        stop := ChatFailed;
        return;
      }
      RepliesMatchSnoc(output, saved, orion.systemMessage, inputs, model, execute, rounds, ReplyPrefix + reply.value);
      output := output + [ReplyPrefix + reply.value];
      i := i + 1;
    }
  }
}
