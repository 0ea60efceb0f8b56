/**
 * The agent graph: an `agent` node that asks the language model for the
 * next message, a `tools` node that runs the tool calls of that message, and
 * the conditional edge `should_continue` between them. The state is the
 * transcript, merged with `operator.add`, so every node only appends.
 *
 * The model, the clock reading `today` and the execution of a tool are
 * parameters: any function of the right type.
 */
module Agent {
  import opened Wrappers

  /** A tool call requested by the model: its id, the tool name and the arguments. */
  datatype ToolCall = ToolCall(id: string, name: string, args: map<string, string>)

  datatype Message =
    | Human(content: string)
    | Ai(content: string, toolCalls: seq<ToolCall>)
    | ToolReply(content: string, toolCallId: string, name: string)

  /** What one model invocation answers: text and, possibly, tool calls. */
  datatype Reply = Reply(content: string, toolCalls: seq<ToolCall>)

  /** The bound model: the transcript and today's date give its next reply. */
  type LanguageModel = (seq<Message>, string) -> Reply

  /**
   * The two tools bound to the model and to the tools node, as names only:
   * what running one yields is the executor's business, not a call of the
   * reply functions of module Tools.
   */
  datatype Tool = CheckAvailabilityTool | CreateAppointmentTool

  /**
   * Running a tool on the arguments of a call yields its reply text. It is a
   * function of these two alone, so a call repeated within one turn gets the
   * same reply.
   */
  type Executor = (Tool, map<string, string>) -> string

  const BoundTools := [CheckAvailabilityTool, CreateAppointmentTool]

  function ToolName(t: Tool): string {
    match t
    case CheckAvailabilityTool => "check_availability"
    case CreateAppointmentTool => "create_appointment"
  }

  /** The tools node's lookup of a call's tool by name. */
  function Lookup(name: string): Option<Tool> {
    LookupIn(name, BoundTools)
  }

  /** The first tool of `tools` with that name. */
  function LookupIn(name: string, tools: seq<Tool>): Option<Tool> {
    if tools == [] then None
    else if ToolName(tools[0]) == name then Some(tools[0])
    else LookupIn(name, tools[1..])
  }

  /** The reply the tools node gives to a call naming no bound tool. */
  // The literal is split in two only because one long literal is costly for the solver.
  function UnknownToolText(name: string): string {
    "Error: " + name + " is not a valid tool, " + "try one of [" + Join(ToolNames(BoundTools), ", ") + "]."
  }

  function ToolNames(tools: seq<Tool>): seq<string> {
    if tools == [] then [] else [ToolName(tools[0])] + ToolNames(tools[1..])
  }

  /** The reply text to one call. */
  function Answer(call: ToolCall, exec: Executor): string {
    match Lookup(call.name)
    case Some(t) => exec(t, call.args)
    case None => UnknownToolText(call.name)
  }

  /** The tools node's update: one tool message per call, in call order. */
  function ToolMessages(calls: seq<ToolCall>, exec: Executor): (r: seq<Message>)
    ensures |r| == |calls|
  {
    if calls == [] then [] else [ToolReply(Answer(calls[0], exec), calls[0].id, calls[0].name)] + ToolMessages(calls[1..], exec)
  }

  /** The `add` reducer merging a node's update into the state. */
  function Merge(current: seq<Message>, update: seq<Message>): seq<Message> {
    current + update
  }

  function Last(msgs: seq<Message>): Message
    requires |msgs| > 0
  {
    msgs[|msgs| - 1]
  }

  datatype Route = Continue | End

  /** `should_continue`: end exactly when the last message asks for no tool. */
  function ShouldContinue(msgs: seq<Message>): (r: Route)
    requires |msgs| > 0 && Last(msgs).Ai?
    ensures r == End <==> Last(msgs).toolCalls == []
  {
    if Last(msgs).toolCalls == [] then End else Continue
  }

  /** `agent_node`: the update is the model's reply, as one AI message. */
  function AgentUpdate(msgs: seq<Message>, today: string, model: LanguageModel): (r: seq<Message>)
    ensures |r| == 1 && r[0].Ai?
  {
    var reply := model(msgs, today);
    [Ai(reply.content, reply.toolCalls)]
  }

  datatype Node = AgentNode | ToolsNode | Finish

  /** The entry point of the graph. */
  const Entry := AgentNode

  /** The tools node runs only after an AI message. */
  predicate Ready(node: Node, msgs: seq<Message>) {
    node == ToolsNode ==> |msgs| > 0 && Last(msgs).Ai?
  }

  /** The update a node contributes to the state. */
  function NodeUpdate(node: Node, msgs: seq<Message>, today: string, model: LanguageModel, exec: Executor): seq<Message>
    requires node != Finish && Ready(node, msgs)
  {
    if node == AgentNode then AgentUpdate(msgs, today, model)
    else ToolMessages(Last(msgs).toolCalls, exec)
  }

  /** The edges: agent to tools or to the end by `should_continue`, tools back to agent. */
  function Successor(node: Node, msgs: seq<Message>): Node
    requires node != Finish
    requires node == AgentNode ==> |msgs| > 0 && Last(msgs).Ai?
  {
    if node == ToolsNode then AgentNode
    else if ShouldContinue(msgs) == Continue then ToolsNode
    else Finish
  }

  /** The `recursion_limit` the graph is invoked with: at most this many node executions. */
  const RecursionLimit := 100

  /**
   * How an invocation ends: the final transcript and the number of node
   * executions, or the recursion limit reached with the transcript so far
   * (the caller only sees the failure).
   */
  datatype Outcome =
    | Completed(messages: seq<Message>, steps: nat)
    | LimitReached(messages: seq<Message>, steps: nat)

  /** The graph run from `node` with `steps` node executions done. */
  function Run(msgs: seq<Message>, node: Node, steps: nat, today: string, model: LanguageModel, exec: Executor): Outcome
    requires steps <= RecursionLimit && Ready(node, msgs)
    decreases RecursionLimit - steps
  {
    if node == Finish then Completed(msgs, steps)
    else if steps == RecursionLimit then LimitReached(msgs, steps)
    else
      var next := Merge(msgs, NodeUpdate(node, msgs, today, model, exec));
      Run(next, Successor(node, next), steps + 1, today, model, exec)
  }

  /** One node execution, as the run takes it. */
  lemma RunUnfolds(msgs: seq<Message>, node: Node, steps: nat, today: string, model: LanguageModel, exec: Executor)
    requires steps < RecursionLimit && node != Finish && Ready(node, msgs)
    ensures var next := Merge(msgs, NodeUpdate(node, msgs, today, model, exec));
      && Ready(Successor(node, next), next)
      && Run(msgs, node, steps, today, model, exec) == Run(next, Successor(node, next), steps + 1, today, model, exec)
  {
  }

  /** A run at the end node, or out of steps, stops where it is. */
  lemma RunStops(msgs: seq<Message>, node: Node, steps: nat, today: string, model: LanguageModel, exec: Executor)
    requires steps <= RecursionLimit && Ready(node, msgs)
    ensures node == Finish ==> Run(msgs, node, steps, today, model, exec) == Completed(msgs, steps)
    ensures node != Finish && steps == RecursionLimit ==>
      Run(msgs, node, steps, today, model, exec) == LimitReached(msgs, steps)
  {
  }

  /** One node execution: merge the node's update into the state, then follow the edge. */
  method Superstep(messages: seq<Message>, node: Node, steps: nat, today: string, model: LanguageModel, exec: Executor)
    returns (messages': seq<Message>, node': Node)
    requires steps < RecursionLimit && node != Finish && Ready(node, messages)
    ensures messages' == Merge(messages, NodeUpdate(node, messages, today, model, exec))
    ensures node' == Successor(node, messages')
    ensures Ready(node', messages')
    ensures Run(messages, node, steps, today, model, exec) == Run(messages', node', steps + 1, today, model, exec)
  {
    RunUnfolds(messages, node, steps, today, model, exec);
    messages' := Merge(messages, NodeUpdate(node, messages, today, model, exec));
    node' := Successor(node, messages');
  }

  /** `agent_graph.invoke`: the compiled graph's loop over its nodes, counting node executions. */
  method Invoke(input: seq<Message>, today: string, model: LanguageModel, exec: Executor) returns (outcome: Outcome)
    ensures outcome == Run(input, Entry, 0, today, model, exec)
  {
    var messages := input;
    var node := Entry;
    var steps := 0;
    while node != Finish && steps < RecursionLimit
      invariant steps <= RecursionLimit && Ready(node, messages)
      invariant Run(input, Entry, 0, today, model, exec) == Run(messages, node, steps, today, model, exec)
      decreases RecursionLimit - steps
    {
      messages, node := Superstep(messages, node, steps, today, model, exec);
      steps := steps + 1;
    }
    RunStops(messages, node, steps, today, model, exec);
    if node == Finish {
      outcome := Completed(messages, steps);
    } else {
      outcome := LimitReached(messages, steps);
    }
  }

  // ---------------------------------------------------------------------
  // Properties of a run
  // ---------------------------------------------------------------------

  /** The tools node answers every call once, in call order, under the call's id and name. */
  lemma {:induction false} ToolMessagesFollowCalls(calls: seq<ToolCall>, exec: Executor)
    ensures |ToolMessages(calls, exec)| == |calls|
    ensures forall i :: 0 <= i < |calls| ==>
      ToolMessages(calls, exec)[i] == ToolReply(Answer(calls[i], exec), calls[i].id, calls[i].name)
  {
    if calls != [] {
      ToolMessagesFollowCalls(calls[1..], exec);
      assert forall i :: 1 <= i < |calls| ==> calls[1..][i - 1] == calls[i];
    }
  }

  /** The reducer only appends: the old state is a prefix and the update follows it. */
  lemma MergeAppends(current: seq<Message>, update: seq<Message>)
    ensures |Merge(current, update)| == |current| + |update|
    ensures current <= Merge(current, update)
    ensures Merge(current, update)[|current|..] == update
  {
  }

  /** The agent step appends exactly one message, the model's reply. */
  lemma AgentAppendsReply(msgs: seq<Message>, today: string, model: LanguageModel)
    ensures var next := Merge(msgs, AgentUpdate(msgs, today, model));
      && |next| == |msgs| + 1 && msgs <= next
      && Last(next) == Ai(model(msgs, today).content, model(msgs, today).toolCalls)
  {
  }

  /** The edges: the tools node always returns to the agent, and the run ends only from the agent, on "end". */
  lemma Edges(node: Node, msgs: seq<Message>)
    requires node != Finish
    requires node == AgentNode ==> |msgs| > 0 && Last(msgs).Ai?
    ensures node == ToolsNode ==> Successor(node, msgs) == AgentNode
    ensures Successor(node, msgs) == Finish <==> node == AgentNode && ShouldContinue(msgs) == End
    ensures Successor(node, msgs) == ToolsNode <==> node == AgentNode && ShouldContinue(msgs) == Continue
  {
  }

  /**
   * Whatever the model does, a run keeps the transcript as a prefix, never
   * executes more than RecursionLimit nodes, and fails exactly when it would
   * need another.
   */
  lemma {:induction false} RunBounds(msgs: seq<Message>, node: Node, steps: nat, today: string, model: LanguageModel, exec: Executor)
    requires steps <= RecursionLimit && Ready(node, msgs)
    ensures var r := Run(msgs, node, steps, today, model, exec);
      && msgs <= r.messages
      && steps <= r.steps <= RecursionLimit
      && (r.LimitReached? ==> r.steps == RecursionLimit && node != Finish)
      && (node == Finish ==> r == Completed(msgs, steps))
    decreases RecursionLimit - steps
  {
    if node != Finish && steps < RecursionLimit {
      var next := Merge(msgs, NodeUpdate(node, msgs, today, model, exec));
      RunUnfolds(msgs, node, steps, today, model, exec);
      RunBounds(next, Successor(node, next), steps + 1, today, model, exec);
    }
  }

  /** The agent has not ended the run, or its last message asked for no tool. */
  predicate Settled(node: Node, msgs: seq<Message>) {
    node == Finish ==> |msgs| > 0 && Last(msgs).Ai? && Last(msgs).toolCalls == []
  }

  lemma {:induction false} RunAnswers(msgs: seq<Message>, node: Node, steps: nat, today: string, model: LanguageModel, exec: Executor)
    requires steps <= RecursionLimit && Ready(node, msgs) && Settled(node, msgs)
    ensures var r := Run(msgs, node, steps, today, model, exec);
      r.Completed? ==> |r.messages| > 0 && Last(r.messages).Ai? && Last(r.messages).toolCalls == []
    decreases RecursionLimit - steps
  {
    if node != Finish && steps < RecursionLimit {
      var next := Merge(msgs, NodeUpdate(node, msgs, today, model, exec));
      if node == AgentNode {
        assert Last(next) == AgentUpdate(msgs, today, model)[0];
      }
      RunAnswers(next, Successor(node, next), steps + 1, today, model, exec);
    }
  }

  /**
   * A completed turn ends on the model's reply with no tool call, after an
   * odd number of node executions; the input transcript is kept unchanged
   * at the front.
   */
  lemma CompletedTurn(input: seq<Message>, today: string, model: LanguageModel, exec: Executor)
    ensures var r := Run(input, Entry, 0, today, model, exec);
      && input <= r.messages
      && (r.Completed? ==> |r.messages| > |input| && Last(r.messages).Ai? && Last(r.messages).toolCalls == [])
      && (r.Completed? ==> r.steps % 2 == 1 && r.steps <= RecursionLimit)
  {
    RunBounds(input, Entry, 0, today, model, exec);
    RunAnswers(input, Entry, 0, today, model, exec);
    RunParity(input, Entry, 0, today, model, exec);
  }

  /** Agent executions sit at even step numbers, tools executions at odd ones. */
  predicate OnSchedule(node: Node, steps: nat) {
    (node == AgentNode ==> steps % 2 == 0) && (node == ToolsNode ==> steps % 2 == 1)
    && (node == Finish ==> steps % 2 == 1)
  }

  lemma {:induction false} RunParity(msgs: seq<Message>, node: Node, steps: nat, today: string, model: LanguageModel, exec: Executor)
    requires steps <= RecursionLimit && Ready(node, msgs) && OnSchedule(node, steps)
    ensures var r := Run(msgs, node, steps, today, model, exec);
      r.Completed? ==> r.steps % 2 == 1 && (node != Finish ==> |r.messages| > |msgs|)
    decreases RecursionLimit - steps
  {
    if node != Finish && steps < RecursionLimit {
      var next := Merge(msgs, NodeUpdate(node, msgs, today, model, exec));
      RunParity(next, Successor(node, next), steps + 1, today, model, exec);
      if node == AgentNode {
        assert |next| > |msgs|;
      }
    }
  }

  /** A model that never asks for a tool answers in a single step. */
  lemma DirectAnswer(input: seq<Message>, today: string, model: LanguageModel, exec: Executor)
    requires model(input, today).toolCalls == []
    ensures Run(input, Entry, 0, today, model, exec)
      == Completed(input + [Ai(model(input, today).content, [])], 1)
  {
    var next := Merge(input, AgentUpdate(input, today, model));
    assert Successor(AgentNode, next) == Finish;
  }

  /** A model that always asks for a tool makes the run fail at exactly the limit. */
  lemma {:induction false} EndlessToolCallsHitLimit(msgs: seq<Message>, node: Node, steps: nat, today: string,
                                                     model: LanguageModel, exec: Executor)
    requires forall t :: model(t, today).toolCalls != []
    requires steps <= RecursionLimit && node != Finish && Ready(node, msgs)
    ensures Run(msgs, node, steps, today, model, exec).LimitReached?
    ensures Run(msgs, node, steps, today, model, exec).steps == RecursionLimit
    decreases RecursionLimit - steps
  {
    if steps < RecursionLimit {
      var next := Merge(msgs, NodeUpdate(node, msgs, today, model, exec));
      if node == AgentNode {
        assert Last(next).toolCalls == model(msgs, today).toolCalls;
      }
      EndlessToolCallsHitLimit(next, Successor(node, next), steps + 1, today, model, exec);
    }
  }

  /**
   * One round of the loop: the agent step appends exactly the model's reply;
   * when that reply asks for tools, the tools step appends the tool messages
   * for its calls and hands control back to the agent.
   */
  lemma AgentThenTools(msgs: seq<Message>, steps: nat, today: string, model: LanguageModel, exec: Executor)
    requires steps + 2 <= RecursionLimit
    requires model(msgs, today).toolCalls != []
    ensures var reply := model(msgs, today);
      var afterAgent := msgs + [Ai(reply.content, reply.toolCalls)];
      && Successor(AgentNode, afterAgent) == ToolsNode
      && Run(msgs, AgentNode, steps, today, model, exec)
         == Run(afterAgent + ToolMessages(reply.toolCalls, exec), AgentNode, steps + 2, today, model, exec)
  {
    var reply := model(msgs, today);
    var afterAgent := msgs + [Ai(reply.content, reply.toolCalls)];
    assert Merge(msgs, NodeUpdate(AgentNode, msgs, today, model, exec)) == afterAgent;
    RunUnfolds(msgs, AgentNode, steps, today, model, exec);
    RunUnfolds(afterAgent, ToolsNode, steps + 1, today, model, exec);
  }

  /** The lookup finds a tool exactly when the name is that of a bound tool, and then that tool. */
  lemma {:induction false} LookupFindsBound(name: string, tools: seq<Tool>)
    ensures LookupIn(name, tools).Some? <==> exists i :: 0 <= i < |tools| && ToolName(tools[i]) == name
    ensures LookupIn(name, tools).Some? ==>
      LookupIn(name, tools).value in tools && ToolName(LookupIn(name, tools).value) == name
  {
    if tools != [] && ToolName(tools[0]) != name {
      LookupFindsBound(name, tools[1..]);
      if exists i :: 0 <= i < |tools| && ToolName(tools[i]) == name {
        var i :| 0 <= i < |tools| && ToolName(tools[i]) == name;
        assert tools[1..][i - 1] == tools[i];
      }
    }
  }

  /** The error text lists the bound tools by name. */
  // The literal is split in two only because one long literal is costly for the solver.
  lemma BoundToolNames()
    ensures Join(ToolNames(BoundTools), ", ") == "check_availability, " + "create_appointment"
  {
  }

  /** Only the two bound tools can be dispatched; any other name is answered with an error text. */
  lemma DispatchOnlyBound(call: ToolCall, exec: Executor)
    ensures call.name == "check_availability" ==> Answer(call, exec) == exec(CheckAvailabilityTool, call.args)
    ensures call.name == "create_appointment" ==> Answer(call, exec) == exec(CreateAppointmentTool, call.args)
    ensures call.name != "check_availability" && call.name != "create_appointment" ==>
      Answer(call, exec) == UnknownToolText(call.name)
  {
    var name := call.name;
    assert BoundTools[1..] == [CreateAppointmentTool] && [CreateAppointmentTool][1..] == [];
    if name != "check_availability" {
      assert LookupIn(name, BoundTools) == LookupIn(name, [CreateAppointmentTool]);
      if name == "create_appointment" {
        assert LookupIn(name, [CreateAppointmentTool]) == Some(CreateAppointmentTool);
      } else {
        assert LookupIn(name, [CreateAppointmentTool]) == LookupIn(name, []) == None;
      }
    }
  }
}
