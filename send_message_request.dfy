/** The request body of the Foundry conversation services and its
    validation. */
module Requests {
  import opened Common

  /** Optional conversation continuity: the thread to resume and the
      agent to use, either by id or by configured agent type. */
  datatype ConversationContext = ConversationContext(
    threadId: Option<string>,
    agentId: Option<string>,
    agentType: Option<string>)

  datatype SendMessageRequest = SendMessageRequest(message: Option<string>, context: Option<ConversationContext>)

  /** SendMessageRequest.Validate: None when the request passes, otherwise
      the exception it throws. A valid request is a value and is left as is. */
  function Validate(request: Option<SendMessageRequest>): (r: Option<Error>)
    ensures request.None? ==> r == Some(ArgumentNull("request"))
    ensures request.Some? && IsNullOrWhiteSpace(request.value.message) ==> r.Some? && r.value.Argument?
    ensures r.None? <==> request.Some? && !IsNullOrWhiteSpace(request.value.message)
  {
    if request.None? then Some(ArgumentNull("request"))
    else if IsNullOrWhiteSpace(request.value.message) then Some(Argument("Message cannot be null or empty."))
    else None
  }

  /** request.Context?.AgentId */
  function AgentIdOf(request: SendMessageRequest): Option<string>
  {
    if request.context.Some? then request.context.value.agentId else None
  }

  /** request.Context?.AgentType */
  function AgentTypeOf(request: SendMessageRequest): Option<string>
  {
    if request.context.Some? then request.context.value.agentType else None
  }

  /** request.Context?.ThreadId */
  function ThreadIdOf(request: SendMessageRequest): Option<string>
  {
    if request.context.Some? then request.context.value.threadId else None
  }
}
