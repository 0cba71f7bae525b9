/** The three Foundry conversation services (ThreadService of the
    structured-output sample, ThreadService of the file-search sample, and
    AgentConversationService): check the request, get or create the agent,
    resume or start the thread, run once, save the thread's state, and map
    the response. The vendor steps are parameters: `getOrCreateAgent` gives
    the agent's id, `deserialize` resumes a saved thread, `run` gives the
    response and the thread as serialised after the run. Also the
    vector-store set-up of AgentConversationService. */
module ConversationServices {
  import opened Common
  import opened Requests
  import opened ThreadState
  import opened ResponseMapping
  import opened AgentConfig

  const AgentTypeRequiredError: string := "AgentType must be set " + "when agentId is not provided."
  const AgentTypeMissingError: string := "AgentType must be set " + "in request.Context.AgentType."

  /** What one run yields: the response, the thread serialised after the
      run, and the structured result when one is asked for. */
  datatype RunOutcome<O> = RunOutcome(response: RunResponse, thread: SerializedThread, result: Option<O>)

  /** The two ThreadService classes: Validate first, then an agent must be
      named by id or by type. */
  function ThreadServiceGuard(request: Option<SendMessageRequest>): (r: Option<Error>)
    ensures Validate(request).Some? ==> r == Validate(request)
    ensures Validate(request).None? && r.Some? ==> r == Some(Argument(AgentTypeRequiredError))
    ensures r.None? <==> request.Some? && !IsNullOrWhiteSpace(request.value.message)
                         && (!IsNullOrWhiteSpace(AgentIdOf(request.value)) || AgentTypeOf(request.value).Some?)
  {
    if Validate(request).Some? then Validate(request)
    else if IsNullOrWhiteSpace(AgentIdOf(request.value)) && AgentTypeOf(request.value).None? then
      Some(Argument(AgentTypeRequiredError))
    else None
  }

  /** AgentConversationService: the agent type is checked first (a null
      request fails on the dereference), then Validate. */
  function ConversationServiceGuard(request: Option<SendMessageRequest>): (r: Option<Error>)
    ensures request.None? ==> r == Some(NullReference)
    ensures request.Some? && AgentTypeOf(request.value).None? ==> r == Some(Argument(AgentTypeMissingError))
    ensures r.None? <==> request.Some? && AgentTypeOf(request.value).Some? && !IsNullOrWhiteSpace(request.value.message)
  {
    if request.None? then Some(NullReference)
    else if AgentTypeOf(request.value).None? then Some(Argument(AgentTypeMissingError))
    else Validate(request)
  }

  /** With an agent type given, the services accept and reject the same
      requests with the same errors. */
  lemma GuardsAgreeWhenTypeGiven(request: SendMessageRequest)
    requires AgentTypeOf(request).Some?
    ensures ThreadServiceGuard(Some(request)) == ConversationServiceGuard(Some(request))
  {
  }

  /** Only AgentConversationService insists on a type: a request naming the
      agent by id alone passes the ThreadService check and fails the other. */
  lemma OnlyConversationServiceNeedsType(request: SendMessageRequest)
    requires !IsNullOrWhiteSpace(request.message) && !IsNullOrWhiteSpace(AgentIdOf(request))
    requires AgentTypeOf(request).None?
    ensures ThreadServiceGuard(Some(request)).None?
    ensures ConversationServiceGuard(Some(request)) == Some(Argument(AgentTypeMissingError))
  {
  }

  /** ResumeThreadFromFileAsync: AgentConversationService also checks that
      the agent's directory exists. */
  function Resume<T>(directories: set<string>, files: map<FileKey, string>, agentId: string, threadId: string,
                     checkDirectory: bool, deserialize: string -> Option<T>): Option<T>
  {
    if checkDirectory then ResumeCheckingDirectory(directories, files, agentId, threadId, deserialize)
    else ResumeFromFiles(files, agentId, threadId, deserialize)
  }

  /** The thread a request runs on, given the state files. */
  function ResolveThread<T>(directories: set<string>, files: map<FileKey, string>, agentId: string, threadId: Option<string>,
                            checkDirectory: bool, deserialize: string -> Option<T>): ResolvedThread<T>
  {
    CreateOrResume(threadId, (id: string) => Resume(directories, files, agentId, id, checkDirectory, deserialize))
  }

  /** What the run yields, or the error the agent's RunAsync raises. */
  function Exchange<T, O>(directories: set<string>, files: map<FileKey, string>, agentId: string, threadId: Option<string>,
                          message: string, checkDirectory: bool, deserialize: string -> Option<T>,
                          run: (string, ResolvedThread<T>) -> Result<RunOutcome<O>>): Result<RunOutcome<O>>
  {
    run(message, ResolveThread(directories, files, agentId, threadId, checkDirectory, deserialize))
  }

  /** The AgentResponse of the Foundry samples: the fields the AgentStart
      mapping fills, plus the thread id, which stays "" unless the overload
      taking the thread is used. */
  datatype FoundryAgentResponse = FoundryAgentResponse(threadId: string, body: AgentResponse)

  /** `ToAgentResponse(thread)` and `ToAgentResponse()` of the Foundry
      samples: the thread id reported is the name the thread's state is
      saved under, so a follow-up request can name it. */
  function ToFoundryAgentResponse(response: RunResponse, thread: Option<SerializedThread>, now: int): (r: FoundryAgentResponse)
    ensures thread.None? ==> r.threadId == ""
    ensures r.threadId == ExtractThreadId(thread)
    ensures r.threadId != "" ==> SaveFileName(thread.value.conversationId) == Ok(r.threadId)
    ensures Ok(r.body) == ToAgentResponse(Some(response), now)
  {
    FoundryAgentResponse(ExtractThreadId(thread), ToAgentResponse(Some(response), now).value)
  }

  /** CreateOrResumeAgentThreadAsync: a blank id starts a new thread; so does
      an id whose state cannot be resumed. */
  method CreateOrResumeAgentThread<T>(store: ThreadStateStore, agentId: string, threadId: Option<string>,
                                      checkDirectory: bool, deserialize: string -> Option<T>)
    returns (thread: ResolvedThread<T>)
    ensures thread == ResolveThread(store.directories, store.files, agentId, threadId, checkDirectory, deserialize)
  {
    if !IsNullOrWhiteSpace(threadId) {
      var agentThread: Option<T>;
      if checkDirectory {
        agentThread := store.LoadCheckingDirectory(agentId, threadId.value, deserialize);
      } else {
        agentThread := store.Load(agentId, threadId.value, deserialize);
      }
      if agentThread.Some? {
        return Resumed(agentThread.value);
      }
    }
    return NewThread;
  }

  /** The common middle of SendMessageAsync: resolve the thread, run once,
      then save the thread as it stands after the run. A failed run raises
      before anything is saved; a state whose conversation id is not a
      string cannot be saved and nothing is written. */
  method RunAndSave<T, O>(store: ThreadStateStore, agentId: string, threadId: Option<string>, message: string,
                          checkDirectory: bool, deserialize: string -> Option<T>,
                          run: (string, ResolvedThread<T>) -> Result<RunOutcome<O>>)
    returns (r: Result<RunOutcome<O>>)
    requires store.Valid()
    modifies store
    ensures store.Valid()
    ensures match Exchange(old(store.directories), old(store.files), agentId, threadId, message, checkDirectory, deserialize, run)
            case Err(e) => r == Err(e) && store.State() == old(store.State())
            case Ok(outcome) =>
              var saved := SaveFileName(outcome.thread.conversationId);
              && (saved.Err? ==> r == Err(saved.error) && store.State() == old(store.State()))
              && (saved.Ok? ==> r == Ok(outcome)
                                && store.files == old(store.files)[(agentId, saved.value) := outcome.thread.text]
                                && store.directories == old(store.directories) + {agentId})
  {
    var agentThread := CreateOrResumeAgentThread(store, agentId, threadId, checkDirectory, deserialize);
    var agentRunResponse := run(message, agentThread);
    if agentRunResponse.Err? {
      return Err(agentRunResponse.error);
    }
    var saved := store.Save(agentId, agentRunResponse.value.thread);
    if saved.Err? {
      return Err(saved.error);
    }
    r := Ok(agentRunResponse.value);
  }

  /** ThreadService.SendMessageAsync of the file-search sample: the response
      reports the thread's id. */
  method FileSearchSendMessage<T>(store: ThreadStateStore, request: Option<SendMessageRequest>,
                                  getOrCreateAgent: (Option<string>, Option<string>) -> Result<string>,
                                  deserialize: string -> Option<T>,
                                  run: (string, ResolvedThread<T>) -> Result<RunOutcome<()>>, now: int)
    returns (r: Result<FoundryAgentResponse>)
    requires store.Valid()
    modifies store
    ensures store.Valid()
    ensures ThreadServiceGuard(request).Some? ==>
              r == Err(ThreadServiceGuard(request).value) && store.State() == old(store.State())
    ensures ThreadServiceGuard(request).None? ==>
              var req := request.value;
              match getOrCreateAgent(AgentIdOf(req), AgentTypeOf(req))
              case Err(e) => r == Err(e) && store.State() == old(store.State())
              case Ok(agentId) =>
                match Exchange(old(store.directories), old(store.files), agentId, ThreadIdOf(req), req.message.value, false, deserialize, run)
                case Err(e) => r == Err(e) && store.State() == old(store.State())
                case Ok(outcome) =>
                  var saved := SaveFileName(outcome.thread.conversationId);
                  && (saved.Err? ==> r == Err(saved.error) && store.State() == old(store.State()))
                  && (saved.Ok? ==> r == Ok(ToFoundryAgentResponse(outcome.response, Some(outcome.thread), now))
                                    && store.files == old(store.files)[(agentId, saved.value) := outcome.thread.text]
                                    && store.directories == old(store.directories) + {agentId})
  {
    var rejected := ThreadServiceGuard(request);
    if rejected.Some? {
      return Err(rejected.value);
    }
    var req := request.value;
    var persistentAgent := getOrCreateAgent(AgentIdOf(req), AgentTypeOf(req));
    if persistentAgent.Err? {
      return Err(persistentAgent.error);
    }
    var outcome := RunAndSave(store, persistentAgent.value, ThreadIdOf(req), req.message.value, false, deserialize, run);
    if outcome.Err? {
      return Err(outcome.error);
    }
    r := Ok(ToFoundryAgentResponse(outcome.value.response, Some(outcome.value.thread), now));
  }

  /** ThreadService.SendMessageAsync of the structured-output sample: the run
      also yields a typed result, which rides on the assistant messages. */
  method StructuredSendMessage<T, O>(store: ThreadStateStore, request: Option<SendMessageRequest>,
                                     getOrCreateChatClientAgent: (Option<string>, Option<string>) -> Result<string>,
                                     deserialize: string -> Option<T>,
                                     run: (string, ResolvedThread<T>) -> Result<RunOutcome<O>>, now: int)
    returns (r: Result<StructuredAgentResponse<O>>)
    requires store.Valid()
    modifies store
    ensures store.Valid()
    ensures ThreadServiceGuard(request).Some? ==>
              r == Err(ThreadServiceGuard(request).value) && store.State() == old(store.State())
    ensures ThreadServiceGuard(request).None? ==>
              var req := request.value;
              match getOrCreateChatClientAgent(AgentIdOf(req), AgentTypeOf(req))
              case Err(e) => r == Err(e) && store.State() == old(store.State())
              case Ok(agentId) =>
                match Exchange(old(store.directories), old(store.files), agentId, ThreadIdOf(req), req.message.value, false, deserialize, run)
                case Err(e) => r == Err(e) && store.State() == old(store.State())
                case Ok(outcome) =>
                  var saved := SaveFileName(outcome.thread.conversationId);
                  && (saved.Err? ==> r == Err(saved.error) && store.State() == old(store.State()))
                  && (saved.Ok? ==> r == Ok(ConvertToStructuredAgentResponse(outcome.response, Some(outcome.thread), outcome.result, now))
                                    && store.files == old(store.files)[(agentId, saved.value) := outcome.thread.text]
                                    && store.directories == old(store.directories) + {agentId})
  {
    var rejected := ThreadServiceGuard(request);
    if rejected.Some? {
      return Err(rejected.value);
    }
    var req := request.value;
    var persistentAgent := getOrCreateChatClientAgent(AgentIdOf(req), AgentTypeOf(req));
    if persistentAgent.Err? {
      return Err(persistentAgent.error);
    }
    var outcome := RunAndSave(store, persistentAgent.value, ThreadIdOf(req), req.message.value, false, deserialize, run);
    if outcome.Err? {
      return Err(outcome.error);
    }
    var structuredOutput := outcome.value.result;
    r := Ok(ConvertToStructuredAgentResponse(outcome.value.response, Some(outcome.value.thread), structuredOutput, now));
  }

  /** AgentConversationService.SendMessageAsync: resumes only from an
      existing agent directory, and maps the response without the thread, so
      no thread id is reported. */
  method ConversationSendMessage<T>(store: ThreadStateStore, request: Option<SendMessageRequest>,
                                    getOrCreateAgent: (Option<string>, Option<string>) -> Result<string>,
                                    deserialize: string -> Option<T>,
                                    run: (string, ResolvedThread<T>) -> Result<RunOutcome<()>>, now: int)
    returns (r: Result<FoundryAgentResponse>)
    requires store.Valid()
    modifies store
    ensures store.Valid()
    ensures ConversationServiceGuard(request).Some? ==>
              r == Err(ConversationServiceGuard(request).value) && store.State() == old(store.State())
    ensures ConversationServiceGuard(request).None? ==>
              var req := request.value;
              match getOrCreateAgent(AgentIdOf(req), AgentTypeOf(req))
              case Err(e) => r == Err(e) && store.State() == old(store.State())
              case Ok(agentId) =>
                match Exchange(old(store.directories), old(store.files), agentId, ThreadIdOf(req), req.message.value, true, deserialize, run)
                case Err(e) => r == Err(e) && store.State() == old(store.State())
                case Ok(outcome) =>
                  var saved := SaveFileName(outcome.thread.conversationId);
                  && (saved.Err? ==> r == Err(saved.error) && store.State() == old(store.State()))
                  && (saved.Ok? ==> r == Ok(ToFoundryAgentResponse(outcome.response, None, now))
                                    && store.files == old(store.files)[(agentId, saved.value) := outcome.thread.text]
                                    && store.directories == old(store.directories) + {agentId})
    ensures r.Ok? ==> r.value.threadId == ""
  {
    var rejected := ConversationServiceGuard(request);
    if rejected.Some? {
      return Err(rejected.value);
    }
    var req := request.value;
    var persistentAgent := getOrCreateAgent(AgentIdOf(req), AgentTypeOf(req));
    if persistentAgent.Err? {
      return Err(persistentAgent.error);
    }
    var outcome := RunAndSave(store, persistentAgent.value, ThreadIdOf(req), req.message.value, true, deserialize, run);
    if outcome.Err? {
      return Err(outcome.error);
    }
    r := Ok(ToFoundryAgentResponse(outcome.value.response, None, now));
  }

  /** After a save, the next request that sends the id ExtractThreadId gives
      for the saved thread (the id the file-search ThreadService reports)
      resumes that thread, whether or not the service checks the agent's
      directory first. */
  lemma FollowUpResumesSavedThread<T>(directories: set<string>, files: map<FileKey, string>, agentId: string,
                                      state: SerializedThread, checkDirectory: bool, deserialize: string -> Option<T>)
    requires ExtractThreadId(Some(state)) != ""
    requires deserialize(state.text).Some?
    ensures SaveFileName(state.conversationId).Ok?
    ensures var saved := files[(agentId, SaveFileName(state.conversationId).value) := state.text];
            CreateOrResume(Some(ExtractThreadId(Some(state))),
                           (id: string) => Resume(directories + {agentId}, saved, agentId, id, checkDirectory, deserialize))
            == Resumed(deserialize(state.text).value)
  {
    ResumeByReportedThreadId(files, agentId, state, deserialize);
    var saved := files[(agentId, SaveFileName(state.conversationId).value) := state.text];
    var id := ExtractThreadId(Some(state));
    assert Resume(directories + {agentId}, saved, agentId, id, checkDirectory, deserialize)
           == ResumeFromFiles(saved, agentId, id, deserialize);
  }

  /** InitializedVectorStore: the configuration key, the uploaded file's id
      and the store's id. */
  datatype InitializedVectorStore = InitializedVectorStore(name: string, fileId: string, vectorStoreId: string)

  /** The request AgentConversationService sends to InitializeVectorStoreAsync. */
  datatype VectorStoreSetupRequest = VectorStoreSetupRequest(
    vectorStoreName: Option<string>,
    filePath: string,
    fileName: Option<string>,
    vectorStoreId: Option<string>,
    vectorStoreDescription: Option<string>)

  /** The part of VectorStoreInitializationResult the service reads. */
  datatype SetupResult = SetupResult(fileId: string, vectorStoreId: string)

  /** Path.Combine(cwd, "Files", FilePath) for a relative FilePath, with '/'
      as the separator. */
  function UploadPath(cwd: string, filePath: string): string
  {
    cwd + "/Files/" + filePath
  }

  /** The request built from one configured vector store. */
  function SetupRequest(settings: VectorStoreSettings, cwd: string): VectorStoreSetupRequest
  {
    VectorStoreSetupRequest(settings.vectorStoreName, UploadPath(cwd, settings.filePath), settings.fileName,
                            settings.vectorStoreId, settings.vectorStoreDescription)
  }

  /** InitVectorStoreAsync: look the settings up by key (KeyNotFound when
      absent), initialise, and report the result under the key, not under
      the store's own name. */
  function InitVectorStore(entries: seq<(string, VectorStoreSettings)>, vectorStoreName: string, cwd: string,
                           initialize: VectorStoreSetupRequest -> Result<SetupResult>): (r: Result<InitializedVectorStore>)
    ensures GetVectorStore(entries, vectorStoreName).Err? ==> r == Err(KeyNotFound(vectorStoreName))
    ensures GetVectorStore(entries, vectorStoreName).Ok? ==>
              var request := SetupRequest(GetVectorStore(entries, vectorStoreName).value, cwd);
              && (r.Ok? <==> initialize(request).Ok?)
              && (r.Ok? ==> r.value == InitializedVectorStore(vectorStoreName, initialize(request).value.fileId,
                                                              initialize(request).value.vectorStoreId))
  {
    match GetVectorStore(entries, vectorStoreName)
    case Err(e) => Err(e)
    case Ok(vectorStoreConfig) =>
      match initialize(SetupRequest(vectorStoreConfig, cwd))
      case Err(e) => Err(e)
      case Ok(result) => Ok(InitializedVectorStore(vectorStoreName, result.fileId, result.vectorStoreId))
  }

  /** The keys of the entries marked for initialisation, in order. */
  function KeysToInitialize(entries: seq<(string, VectorStoreSettings)>): (r: seq<string>)
    ensures |r| <= |entries|
  {
    if |entries| == 0 then []
    else KeysToInitialize(entries[..|entries| - 1]) + (if entries[|entries| - 1].1.initialize then [entries[|entries| - 1].0] else [])
  }

  /** The outcome of initialising the marked entries of `pending` in order,
      looking each key up in `config`; the first failure ends it. */
  function InitAll(config: seq<(string, VectorStoreSettings)>, pending: seq<(string, VectorStoreSettings)>, cwd: string,
                   initialize: VectorStoreSetupRequest -> Result<SetupResult>): Result<seq<InitializedVectorStore>>
  {
    if |pending| == 0 then Ok([])
    else
      var last := pending[|pending| - 1];
      match InitAll(config, pending[..|pending| - 1], cwd, initialize)
      case Err(e) => Err(e)
      case Ok(done) =>
        if !last.1.initialize then Ok(done)
        else match InitVectorStore(config, last.0, cwd, initialize)
          case Err(e) => Err(e)
          case Ok(store) => Ok(done + [store])
  }

  /** InitAllVectorStoresAsync: initialise every entry whose Initialize flag
      is set, in configuration order; the first failure propagates. */
  method InitAllVectorStores(entries: seq<(string, VectorStoreSettings)>, cwd: string,
                             initialize: VectorStoreSetupRequest -> Result<SetupResult>)
    returns (r: Result<seq<InitializedVectorStore>>)
    ensures r == InitAll(entries, entries, cwd, initialize)
  {
    var initializedStores: seq<InitializedVectorStore> := [];
    var i := 0;
    while i < |entries|
      invariant 0 <= i <= |entries|
      invariant InitAll(entries, entries[..i], cwd, initialize) == Ok(initializedStores)
    {
      assert entries[..i + 1][..i] == entries[..i];
      var kvp := entries[i];
      if kvp.1.initialize {
        var initializedStore := InitVectorStore(entries, kvp.0, cwd, initialize);
        if initializedStore.Err? {
          InitAllStopsAtFailure(entries, entries[..i + 1], entries[i + 1..], cwd, initialize);
          assert entries[..i + 1] + entries[i + 1..] == entries;
          return Err(initializedStore.error);
        }
        initializedStores := initializedStores + [initializedStore.value];
      }
      i := i + 1;
    }
    assert entries[..i] == entries;
    return Ok(initializedStores);
  }

  /** Once a prefix fails, the whole run fails with the same error. */
  lemma {:induction false} InitAllStopsAtFailure(config: seq<(string, VectorStoreSettings)>, prefix: seq<(string, VectorStoreSettings)>,
                                                 rest: seq<(string, VectorStoreSettings)>, cwd: string,
                                                 initialize: VectorStoreSetupRequest -> Result<SetupResult>)
    requires InitAll(config, prefix, cwd, initialize).Err?
    ensures InitAll(config, prefix + rest, cwd, initialize) == InitAll(config, prefix, cwd, initialize)
  {
    if |rest| > 0 {
      var all := prefix + rest;
      InitAllStopsAtFailure(config, prefix, rest[..|rest| - 1], cwd, initialize);
      assert all[..|all| - 1] == prefix + rest[..|rest| - 1];
      assert InitAll(config, all[..|all| - 1], cwd, initialize) == InitAll(config, prefix, cwd, initialize);
    } else {
      assert prefix + rest == prefix;
    }
  }

  /** A successful run reports one store per marked entry, named by the
      entry's key, in configuration order. */
  lemma {:induction false} InitAllReportsMarkedKeys(config: seq<(string, VectorStoreSettings)>, pending: seq<(string, VectorStoreSettings)>,
                                                    cwd: string, initialize: VectorStoreSetupRequest -> Result<SetupResult>)
    requires InitAll(config, pending, cwd, initialize).Ok?
    ensures var stores := InitAll(config, pending, cwd, initialize).value;
            && |stores| == |KeysToInitialize(pending)|
            && forall i :: 0 <= i < |stores| ==> stores[i].name == KeysToInitialize(pending)[i]
  {
    if |pending| > 0 {
      InitAllReportsMarkedKeys(config, pending[..|pending| - 1], cwd, initialize);
    }
  }

  /** An entry's key is listed for initialisation exactly when its flag is
      set. */
  lemma {:induction false} KeysToInitializeMembers(entries: seq<(string, VectorStoreSettings)>, key: string)
    ensures key in KeysToInitialize(entries) <==>
              exists i :: 0 <= i < |entries| && entries[i].0 == key && entries[i].1.initialize
  {
    if |entries| > 0 {
      var n := |entries|;
      KeysToInitializeMembers(entries[..n - 1], key);
      if key in KeysToInitialize(entries[..n - 1]) {
        var i :| 0 <= i < n - 1 && entries[..n - 1][i].0 == key && entries[..n - 1][i].1.initialize;
        assert entries[i].0 == key && entries[i].1.initialize;
      }
      if exists i :: 0 <= i < n && entries[i].0 == key && entries[i].1.initialize {
        var i :| 0 <= i < n && entries[i].0 == key && entries[i].1.initialize;
        if i < n - 1 {
          assert entries[..n - 1][i] == entries[i];
        }
      }
    }
  }
}
