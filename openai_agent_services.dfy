/** The AgentService classes of two Azure OpenAI samples: the one that
    continues a conversation by thread id (its history lives in a
    VectorChatMessageStore), and the one whose tools need approval before
    they run. The agent is the vendor: every call made on it is recorded, and
    `run` gives its reply to a call given the thread's calls so far. */
module OpenAIAgentServices {
  import opened Common
  import opened ResponseMapping
  import opened ToolExtensions
  import opened CustomerTools
  import ChatMessageStore

  const MessageError: string := "Message cannot be null or empty."
  const GlobalAgent: string := "GlobalAgent"
  const InMemory: string := "InMemory"

  /** What a constructor asks the agent factory for. */
  datatype AgentRequest =
    | VectorStoreAgent(agentType: string, vectorStoresType: string)
    | AdvancedAgent(agentType: string, tools: seq<AITool>, enableFunctionCallMiddleware: bool)

  /** The constructors' null checks, factory first. */
  function ConstructorGuard<F, C>(openAIAgentFactory: Option<F>, agentConfig: Option<C>): (r: Option<Error>)
    ensures openAIAgentFactory.None? ==> r == Some(ArgumentNull("openAIAgentFactory"))
    ensures openAIAgentFactory.Some? && agentConfig.None? ==> r == Some(ArgumentNull("agentConfig"))
    ensures r.None? <==> openAIAgentFactory.Some? && agentConfig.Some?
  {
    if openAIAgentFactory.None? then Some(ArgumentNull("openAIAgentFactory"))
    else if agentConfig.None? then Some(ArgumentNull("agentConfig"))
    else None
  }

  // ----- AgentService with threads -----

  /** AgentThreadState: the chat-store state a thread is restored from. */
  datatype AgentThreadState = AgentThreadState(storeState: string)

  /** The thread a message runs on. */
  datatype ThreadChoice = FreshThread | DeserializedThread(state: AgentThreadState)

  datatype ThreadsCall = GetNewThread | DeserializeThread(state: AgentThreadState) | Run(message: string, thread: ThreadChoice)

  /** The agent the threads sample builds: the global agent over an
      in-memory vector store. */
  function NewThreadsAgentService<F, C>(openAIAgentFactory: Option<F>, agentConfig: Option<C>): (r: Result<AgentRequest>)
    ensures r.Err? <==> ConstructorGuard(openAIAgentFactory, agentConfig).Some?
    ensures r.Err? ==> r.error == ConstructorGuard(openAIAgentFactory, agentConfig).value
    ensures r.Ok? ==> r.value == VectorStoreAgent(GlobalAgent, InMemory)
  {
    match ConstructorGuard(openAIAgentFactory, agentConfig)
    case Some(e) => Err(e)
    case None => Ok(VectorStoreAgent(GlobalAgent, InMemory))
  }

  /** The thread for a request: a new one for a blank id, otherwise one
      deserialised from a state whose StoreState is the id. */
  function ChooseThread(threadId: Option<string>): (t: ThreadChoice)
    ensures t.FreshThread? <==> IsNullOrWhiteSpace(threadId)
    ensures t.DeserializedThread? ==> t.state.storeState == threadId.value
  {
    if IsNullOrWhiteSpace(threadId) then FreshThread else DeserializedThread(AgentThreadState(threadId.value))
  }

  /** The calls SendMessageAsync makes and the run response it maps: a blank
      message is rejected before any call; otherwise the thread is obtained
      and exactly one run is made on it. */
  function ThreadsSendMessage(message: Option<string>, threadId: Option<string>,
                              run: (string, ThreadChoice) -> RunResponse): (r: Result<(seq<ThreadsCall>, RunResponse)>)
    ensures IsNullOrWhiteSpace(message) <==> r == Err(Argument(MessageError))
    ensures r.Ok? ==> |r.value.0| == 2 && r.value.0[1] == Run(message.value, ChooseThread(threadId))
    ensures r.Ok? ==> (r.value.0[0] == GetNewThread <==> IsNullOrWhiteSpace(threadId))
    ensures r.Ok? ==> r.value.1 == run(message.value, ChooseThread(threadId))
  {
    if IsNullOrWhiteSpace(message) then Err(Argument(MessageError))
    else
      var thread := ChooseThread(threadId);
      var obtain := if thread.FreshThread? then GetNewThread else DeserializeThread(thread.state);
      Ok(([obtain, Run(message.value, thread)], run(message.value, thread)))
  }

  /** A thread restored from an id reads and writes the history under that
      id: the chat store it restores starts with the id as its key, and the
      key it serialises names the same history. */
  lemma ThreadIdSelectsHistory(threadId: string)
    requires !IsBlank(threadId)
    ensures ChooseThread(Some(threadId)) == DeserializedThread(AgentThreadState(threadId))
    ensures ChatMessageStore.RestoredKey(ChatMessageStore.JsonString(ChooseThread(Some(threadId)).state.storeState)) == Some(threadId)
    ensures ChatMessageStore.RestoredKey(ChatMessageStore.SerializedKey(Some(threadId))) == Some(threadId)
  {
    ChatMessageStore.KeyRoundTrip(Some(threadId));
  }

  // ----- AgentService with approval function tools -----

  /** A FunctionApprovalRequestContent: the function call waiting for
      approval. */
  datatype ApprovalRequest = ApprovalRequest(callId: string, functionName: string)

  /** A content item of a reply, as far as the approval loop is concerned. */
  datatype ReplyContent = ApprovalRequestContent(request: ApprovalRequest) | OtherContent

  /** A run's reply: the response to map, and each message's contents. */
  datatype RunReply = RunReply(response: RunResponse, contents: seq<seq<ReplyContent>>)

  datatype ApprovalCall =
    | NewThread
    | RunMessage(message: string)
    | RunApproval(request: ApprovalRequest, approved: bool)

  /** The approval sample's agent: the global agent with the customer tools
      (CancelAccount and ChangePassword wrapped for approval) and the
      function-call middleware. */
  method NewApprovalAgentService<F, C>(openAIAgentFactory: Option<F>, agentConfig: Option<C>) returns (r: Result<AgentRequest>)
    ensures r.Err? <==> ConstructorGuard(openAIAgentFactory, agentConfig).Some?
    ensures r.Err? ==> r.error == ConstructorGuard(openAIAgentFactory, agentConfig).value
    ensures r.Ok? ==> r.value == AdvancedAgent(GlobalAgent, [
                        PlainFunction(AIFunction("EditPersonalInformation")),
                        ApprovalRequiredFunction(AIFunction("CancelAccount")),
                        PlainFunction(AIFunction("EditAddress")),
                        ApprovalRequiredFunction(AIFunction("ChangePassword")),
                        PlainFunction(AIFunction("UpdatePaymentMethod")),
                        PlainFunction(AIFunction("UpdateSubscriptionPreferences"))], true)
  {
    var rejected := ConstructorGuard(openAIAgentFactory, agentConfig);
    if rejected.Some? {
      return Err(rejected.value);
    }
    var customerTools := Instance(ApprovalCustomerToolsMethods);
    var tools := CreateAIToolsFromInstance(Some(customerTools));
    ApprovalCustomerToolsList();
    r := Ok(AdvancedAgent(GlobalAgent, tools.value, true));
  }

  /** Messages.SelectMany(Contents).OfType<FunctionApprovalRequestContent>(). */
  function ApprovalRequests(contents: seq<seq<ReplyContent>>): (r: seq<ApprovalRequest>)
  {
    if |contents| == 0 then []
    else RequestsIn(contents[0]) + ApprovalRequests(contents[1..])
  }

  function RequestsIn(items: seq<ReplyContent>): seq<ApprovalRequest>
  {
    if |items| == 0 then []
    else (if items[0].ApprovalRequestContent? then [items[0].request] else []) + RequestsIn(items[1..])
  }

  /** Every approval request of a reply is found, and nothing else. */
  lemma {:induction false} ApprovalRequestsMembers(contents: seq<seq<ReplyContent>>, a: ApprovalRequest)
    ensures a in ApprovalRequests(contents) <==>
              exists i, j :: 0 <= i < |contents| && 0 <= j < |contents[i]| && contents[i][j] == ApprovalRequestContent(a)
  {
    if |contents| > 0 {
      ApprovalRequestsMembers(contents[1..], a);
      RequestsInMembers(contents[0], a);
      if a in RequestsIn(contents[0]) {
        var j :| 0 <= j < |contents[0]| && contents[0][j] == ApprovalRequestContent(a);
      }
      if exists i, j :: 0 <= i < |contents| && 0 <= j < |contents[i]| && contents[i][j] == ApprovalRequestContent(a) {
        var i, j :| 0 <= i < |contents| && 0 <= j < |contents[i]| && contents[i][j] == ApprovalRequestContent(a);
        if i > 0 {
          assert contents[1..][i - 1] == contents[i];
        }
      }
    }
  }

  lemma {:induction false} RequestsInMembers(items: seq<ReplyContent>, a: ApprovalRequest)
    ensures a in RequestsIn(items) <==> exists j :: 0 <= j < |items| && items[j] == ApprovalRequestContent(a)
  {
    if |items| > 0 {
      RequestsInMembers(items[1..], a);
      if exists j :: 0 <= j < |items| && items[j] == ApprovalRequestContent(a) {
        var j :| 0 <= j < |items| && items[j] == ApprovalRequestContent(a);
        if j > 0 {
          assert items[1..][j - 1] == items[j];
        }
      }
    }
  }

  /** The loop from some point on: for each remaining request, approve it
      and run the message again; the last reply is the one kept. */
  function ApprovalRounds(message: string, requests: seq<ApprovalRequest>, calls: seq<ApprovalCall>, reply: RunReply,
                          run: (seq<ApprovalCall>, ApprovalCall) -> RunReply): (seq<ApprovalCall>, RunReply)
  {
    if |requests| == 0 then (calls, reply)
    else
      var approved := calls + [RunApproval(requests[0], true)];
      ApprovalRounds(message, requests[1..], approved + [RunMessage(message)], run(approved, RunMessage(message)), run)
  }

  /** The calls SendMessageAsync makes and the reply it maps, for a
      non-blank message. */
  function ApprovalExchange(message: string, run: (seq<ApprovalCall>, ApprovalCall) -> RunReply): (seq<ApprovalCall>, RunReply)
  {
    var first := run([NewThread], RunMessage(message));
    ApprovalRounds(message, ApprovalRequests(first.contents), [NewThread, RunMessage(message)], first, run)
  }

  /** SendMessageAsync: reject a blank message; run it on a new thread; for
      each approval request of that first reply, in order, approve it and
      run the message again; map the last reply. */
  method ApprovalSendMessage(message: Option<string>, run: (seq<ApprovalCall>, ApprovalCall) -> RunReply, now: int)
    returns (r: Result<AgentResponse>, calls: seq<ApprovalCall>)
    ensures IsNullOrWhiteSpace(message) ==> r == Err(Argument(MessageError)) && calls == []
    ensures !IsNullOrWhiteSpace(message) ==>
              calls == ApprovalExchange(message.value, run).0
              && r == ToAgentResponse(Some(ApprovalExchange(message.value, run).1.response), now)
  {
    if IsNullOrWhiteSpace(message) {
      return Err(Argument(MessageError)), [];
    }
    calls := [NewThread];
    var agentRunResponse := run(calls, RunMessage(message.value));
    calls := calls + [RunMessage(message.value)];
    var functionApprovalRequests := ApprovalRequests(agentRunResponse.contents);
    var i := 0;
    assert calls == [NewThread, RunMessage(message.value)];
    assert functionApprovalRequests[i..] == functionApprovalRequests;
    while i < |functionApprovalRequests|
      invariant 0 <= i <= |functionApprovalRequests|
      invariant ApprovalRounds(message.value, functionApprovalRequests[i..], calls, agentRunResponse, run) == ApprovalExchange(message.value, run)
    {
      assert functionApprovalRequests[i..][1..] == functionApprovalRequests[i + 1..];
      var approvalMessage := RunApproval(functionApprovalRequests[i], true);
      calls := calls + [approvalMessage];
      agentRunResponse := run(calls, RunMessage(message.value));
      calls := calls + [RunMessage(message.value)];
      i := i + 1;
    }
    r := ToAgentResponse(Some(agentRunResponse.response), now);
  }

  /** The shape of the loop's calls: after the calls so far, each request in
      turn is approved (always with `true`) and followed by a rerun of the
      message. */
  lemma {:induction false} ApprovalRoundsShape(message: string, requests: seq<ApprovalRequest>, calls: seq<ApprovalCall>,
                                               reply: RunReply, run: (seq<ApprovalCall>, ApprovalCall) -> RunReply)
    ensures var out := ApprovalRounds(message, requests, calls, reply, run).0;
            && |out| == |calls| + 2 * |requests|
            && out[..|calls|] == calls
            && (forall j :: 0 <= j < |requests| ==>
                  out[|calls| + 2 * j] == RunApproval(requests[j], true) && out[|calls| + 2 * j + 1] == RunMessage(message))
  {
    if |requests| > 0 {
      var approved := calls + [RunApproval(requests[0], true)];
      var next := approved + [RunMessage(message)];
      ApprovalRoundsShape(message, requests[1..], next, run(approved, RunMessage(message)), run);
      var out := ApprovalRounds(message, requests, calls, reply, run).0;
      assert out[..|next|] == next;
      assert out[..|calls|] == next[..|calls|];
      forall j | 0 <= j < |requests|
        ensures out[|calls| + 2 * j] == RunApproval(requests[j], true) && out[|calls| + 2 * j + 1] == RunMessage(message)
      {
        if j > 0 {
          assert requests[1..][j - 1] == requests[j];
          assert |calls| + 2 * j == |next| + 2 * (j - 1);
        } else {
          assert out[|calls|] == next[|calls|];
          assert out[|calls| + 1] == next[|calls| + 1];
        }
      }
    }
  }

  /** The reply that is mapped is the one to the last run of the message:
      the first run's when there is nothing to approve, otherwise the rerun
      after the last approval. */
  lemma {:induction false} ApprovalRoundsKeepLastReply(message: string, requests: seq<ApprovalRequest>, calls: seq<ApprovalCall>,
                                                       reply: RunReply, run: (seq<ApprovalCall>, ApprovalCall) -> RunReply)
    ensures var (out, last) := ApprovalRounds(message, requests, calls, reply, run);
            && (|requests| == 0 ==> last == reply)
            && (|requests| > 0 ==> |out| >= 2 && last == run(out[..|out| - 1], RunMessage(message)))
  {
    if |requests| > 0 {
      var approved := calls + [RunApproval(requests[0], true)];
      var next := approved + [RunMessage(message)];
      ApprovalRoundsKeepLastReply(message, requests[1..], next, run(approved, RunMessage(message)), run);
      ApprovalRoundsShape(message, requests[1..], next, run(approved, RunMessage(message)), run);
      if |requests| == 1 {
        assert next[..|next| - 1] == approved;
      }
    }
  }

  /** A whole exchange: one new thread, one first run, then two calls per
      approval request of the first reply; every approval is granted. */
  lemma ApprovalExchangeShape(message: string, run: (seq<ApprovalCall>, ApprovalCall) -> RunReply)
    ensures var requests := ApprovalRequests(run([NewThread], RunMessage(message)).contents);
            var calls := ApprovalExchange(message, run).0;
            && |calls| == 2 + 2 * |requests|
            && calls[0] == NewThread && calls[1] == RunMessage(message)
            && (forall j :: 0 <= j < |requests| ==> calls[2 + 2 * j] == RunApproval(requests[j], true))
            && (forall k :: 0 <= k < |calls| && calls[k].RunApproval? ==> calls[k].approved)
  {
    var first := run([NewThread], RunMessage(message));
    var requests := ApprovalRequests(first.contents);
    var start := [NewThread, RunMessage(message)];
    ApprovalRoundsShape(message, requests, start, first, run);
    var calls := ApprovalExchange(message, run).0;
    assert calls[..2] == start;
    assert calls[0] == start[0] && calls[1] == start[1];
    forall k | 0 <= k < |calls| && calls[k].RunApproval?
      ensures calls[k].approved
    {
      if k >= 2 {
        var j := (k - 2) / 2;
        assert k == 2 + 2 * j || k == 2 + 2 * j + 1;
      }
    }
  }
}
