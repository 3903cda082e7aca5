/** The process-wide cancellation registry `active_agent_tasks`: one cancel flag per running agent,
    keyed by chat session, shared between the agent loop and the stop endpoint. */
module Cancellation {

  /** The `{"cancelled": ...}` dictionary an agent run creates and polls. */
  class CancelFlag {
    var cancelled: bool

    constructor()
      ensures !cancelled
    {
      cancelled := false;
    }
  }

  /** The module-level dictionary from session id to the cancel flag of the run registered for it. */
  class Registry {
    var tasks: map<string, CancelFlag>

    /** Only a truthy session id is ever registered, so the empty id has no entry. */
    predicate Valid()
      reads this
    {
      "" !in tasks
    }

    constructor()
      ensures Valid() && tasks == map[]
    {
      tasks := map[];
    }

    /** `if session_id: active_agent_tasks[session_id] = cancel_flag` (source lines 101-103): an entry is
        made, replacing any earlier one, only for a non-empty session id. */
    method Register(sessionId: string, flag: CancelFlag)
      requires Valid()
      modifies this
      ensures Valid()
      ensures tasks == if sessionId != "" then old(tasks)[sessionId := flag] else old(tasks)
    {
      if sessionId != "" {
        tasks := tasks[sessionId := flag];
      }
    }

    /** `stop_agent_task` (source lines 403-407): raise the flag registered for the session and answer whether
        there was one. Only that flag changes; the entries stay as they were. */
    method Stop(sessionId: string) returns (found: bool)
      modifies if sessionId in tasks then {tasks[sessionId]} else {}
      ensures found <==> sessionId in tasks
      ensures found ==> tasks[sessionId].cancelled
    {
      if sessionId in tasks {
        tasks[sessionId].cancelled := true;
        return true;
      }
      return false;
    }

    /** The clean-up after the agent's loop (source lines 400-401): the session's entry is deleted if there
        is one, whichever run registered it. */
    method Unregister(sessionId: string)
      requires Valid()
      modifies this
      ensures Valid()
      ensures tasks == if sessionId != "" && sessionId in old(tasks) then old(tasks) - {sessionId} else old(tasks)
    {
      if sessionId != "" && sessionId in tasks {
        tasks := tasks - {sessionId};
      }
    }
  }
}
