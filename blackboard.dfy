/**
 * The blackboard service and the governance service as an agent sees them.
 * Their implementations are not part of this model: every call an agent makes
 * is recorded, in order, and each reply is a parameter of the call.
 */
module Blackboard {
  import opened Wrappers

  /** A blackboard task, as far as agents look at it. */
  datatype Task = Task(id: int, title: string, description: string,
                       phase: Option<string>, assignedAgent: Option<string>)

  /**
   * The spec an architect publishes: the JSON object it found (kept as its
   * source text), the raw answer when it found none, or the raw answer marked
   * as unparseable.
   */
  datatype Spec = Parsed(json: string) | Raw(raw: string) | RawParseError(raw: string)

  datatype ArtifactContent = SpecContent(spec: Spec) | TextContent(text: string)

  /** The metadata object given with an artifact, reduced to the fields the agents set. */
  datatype ArtifactMetadata = ArtifactMetadata(version: nat, hasContext: bool)

  /** One call into the blackboard or governance service, or the start of an agent's own `process`. */
  datatype Call =
    | GetPendingTasks(agent: string)
    | ClaimTask(taskId: int, agent: string)
    | Processing(taskId: int)
    | FailTask(taskId: int, agent: string, message: string)
    | LogAction(taskId: int, agent: string, action: string, thought: string, observation: Option<string>)
    | RecordAudit(agent: string, action: string, target: string, decision: string,
                  justification: Option<string>, taskId: int)
    | AddArtifact(taskId: int, kind: string, name: string, content: ArtifactContent, createdBy: string,
                  metadata: Option<ArtifactMetadata>)
    | GetMainTask(taskId: int)
    | CreateSubtask(parentId: int, title: string, description: string, agent: string,
                    dependsOn: seq<int>, phase: string)
    | CompleteTask(taskId: int, agent: string, spec: Spec, hasProjectContext: bool)

  /** The services' side of the conversation: the calls received so far. */
  class Services {
    var calls: seq<Call>

    constructor ()
      ensures calls == []
    {
      calls := [];
    }

    method Record(c: Call)
      modifies this
      ensures calls == old(calls) + [c]
    {
      calls := calls + [c];
    }
  }
}
