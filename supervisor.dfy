/**
 * The router of multi_agent_app_test/supervisor.py: the validator of the
 * proposed agent and the loop guard of `supervisor_node`.  The model's
 * structured reply is an input.
 */
module Supervisor {
  import opened Wrappers

  const ValidAgents: seq<string> := ["flight_agent", "hotel_agent", "restaurant_agent", "budget_agent"]
  const Finish: string := "FINISH"

  /** `RouteResponse.validate_agent`: the name back, or the error it raises. */
  function ValidateAgent(v: string): (r: Result<string, string>)
    ensures r.Success? <==> v in ValidAgents || v == Finish
    ensures r.Success? ==> r.value == v
  {
    if v !in ValidAgents && v != Finish then Failure("Supervisor tried to route to unknown agent: " + v)
    else Success(v)
  }

  /** A history entry: a dictionary with its `next_agent` entry (None when absent), or any other message. */
  datatype Message = DictMessage(nextAgent: Option<string>) | OtherMessage

  /** What the structured-output call made of the history: it raised, or it proposed this agent. */
  datatype Proposal = PlannerRaised | Proposed(agent: string)

  /** The node's update: the next agent and, for the guard and the fallback, the system note it adds. */
  datatype Route = Route(nextAgent: string, note: Option<string>)

  /** `messages[-3:]`. */
  function LastThree(messages: seq<Message>): (r: seq<Message>)
    ensures |r| == if |messages| < 3 then |messages| else 3
    ensures r == messages[|messages| - |r|..]
  {
    if |messages| <= 3 then messages else messages[|messages| - 3..]
  }

  /** `[m.get("next_agent") for m in entries if isinstance(m, dict)]`. */
  function DictAgents(entries: seq<Message>): (r: seq<Option<string>>)
    ensures |r| <= |entries|
    ensures |r| == |entries| <==> forall i :: 0 <= i < |entries| ==> entries[i].DictMessage?
    ensures |r| == |entries| ==> forall i :: 0 <= i < |entries| ==> r[i] == entries[i].nextAgent
  {
    if entries == [] then []
    else (if entries[0].DictMessage? then [entries[0].nextAgent] else []) + DictAgents(entries[1..])
  }

  /** The loop guard's test: three dictionary entries, all naming `agent`. */
  predicate LoopDetected(messages: seq<Message>, agent: string) {
    var lastThree := DictAgents(LastThree(messages));
    |lastThree| == 3 && forall i :: 0 <= i < 3 ==> lastThree[i] == Some(agent)
  }

  /** `supervisor_node(state)` for the given history and reply of the model. */
  function SupervisorNode(messages: seq<Message>, proposal: Proposal): Route {
    match proposal
    case PlannerRaised => Route(Finish, Some("Error in routing. Terminating session."))
    case Proposed(agent) =>
      match ValidateAgent(agent)
      case Failure(_) => Route(Finish, Some("Error in routing. Terminating session."))
      case Success(next) =>
        if LoopDetected(messages, next) then Route("budget_agent", Some("Supervisor loop detected. Forcing budget check."))
        else Route(next, None)
  }

  /** The guard fires exactly when the last three entries are dictionaries all naming the proposed agent. */
  lemma LoopDetectedIff(messages: seq<Message>, agent: string)
    ensures LoopDetected(messages, agent) <==>
              |messages| >= 3 && forall i :: |messages| - 3 <= i < |messages| ==> messages[i] == DictMessage(Some(agent))
  {
    var last := LastThree(messages);
    if |messages| >= 3 {
      assert forall i :: |messages| - 3 <= i < |messages| ==> messages[i] == last[i - (|messages| - 3)];
    }
  }

  /** The route is always a valid agent or FINISH, whatever the model replied. */
  lemma RouteIsValid(messages: seq<Message>, proposal: Proposal)
    ensures ValidateAgent(SupervisorNode(messages, proposal).nextAgent).Success?
  {
  }

  /**
   * A valid proposal is followed unless the guard fires, and then the route
   * is the budget agent; an invalid proposal or a failed call finishes.
   */
  lemma RouteRules(messages: seq<Message>, agent: string)
    ensures (agent in ValidAgents || agent == Finish) && !LoopDetected(messages, agent) ==>
              SupervisorNode(messages, Proposed(agent)) == Route(agent, None)
    ensures (agent in ValidAgents || agent == Finish) && LoopDetected(messages, agent) ==>
              SupervisorNode(messages, Proposed(agent)).nextAgent == "budget_agent"
    ensures !(agent in ValidAgents || agent == Finish) ==> SupervisorNode(messages, Proposed(agent)).nextAgent == Finish
    ensures SupervisorNode(messages, PlannerRaised).nextAgent == Finish
  {
  }

  /** With fewer than three dictionary entries among the last three messages, nothing is forced. */
  lemma ShortHistoryNeverForced(messages: seq<Message>, agent: string)
    requires |DictAgents(LastThree(messages))| < 3
    requires agent in ValidAgents || agent == Finish
    ensures SupervisorNode(messages, Proposed(agent)) == Route(agent, None)
  {
  }
}
