/** Data model of the orchestrator: the records of the principal agent
    (tasks, resources, the raw descriptors gateways return) and the small
    wrapper types used for optional values and for calls that may raise. */
module Schemas {

  datatype Option<T> = None | Some(value: T) {
    function GetOr(default: T): T {
      match this
      case Some(v) => v
      case None => default
    }
  }

  /** What a call into a collaborator (gateway, protocol client) produced:
      a value, or an exception carrying its message `str(e)`. */
  datatype Reply<T> = Returned(value: T) | Raised(message: string)

  /** A JSON-like dictionary with string keys, as the payloads and results are. */
  type Dict = map<string, string>

  /** Identifiers: either supplied by a gateway or freshly generated (a uuid4,
      modelled as the n-th fresh value drawn by the agent). */
  datatype Id = Given(text: string) | Uuid(n: nat)

  datatype OperationMode = NoLlm | Copilot | Agent | Hybrid {
    /** The enum's `.value`, reported in every execution summary. */
    function Value(): string {
      match this
      case NoLlm => "no_llm"
      case Copilot => "copilot"
      case Agent => "agent"
      case Hybrid => "hybrid"
    }
  }

  /** The values `Task.status` takes in the source. */
  datatype Status = Pending | Completed | Failed

  /** The dictionaries a task can end up with as its result. */
  datatype TaskResult =
    | AgentReply(reply: Dict)
      /** The dictionary `_execute_with_resource` builds. */
    | Simulated(taskId: Id, resourceUsed: string, status: string, message: string)
      /** `{"error": ...}` */
    | Error(error: string)

  datatype Task = Task(
    id: Id,
    description: string,
    requirements: seq<string>,
    context: Dict,
    status: Status,
    result: Option<TaskResult>,
    assignedResource: Option<Id>)

  /** One entry of a gateway's reply, before conversion: each field may be
      absent from the dictionary. */
  datatype Descriptor = Descriptor(
    id: Option<string>,
    name: Option<string>,
    capabilities: Option<seq<string>>,
    endpoint: Option<string>)

  /** An A2A protocol object as its callers use it: `invoke_agent(endpoint,
      task description, context)` answers with a dictionary or raises. */
  datatype AgentInvoker = AgentInvoker(invokeAgent: (string, string, Dict) -> Reply<Dict>)

  datatype Resource = Resource(
    id: Id,
    name: string,
    capabilities: seq<string>,
    endpoint: string,
    manifest: Descriptor,
    gatewayId: string)
}
