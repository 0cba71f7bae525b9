/** Agent orchestration against Azure AI Foundry: the agent half of
    PersistentAgentsClientFacade and the older AgentAdministration service.
    Both resolve "an agent" either by id or by creating one from the
    configured settings of an agent type; they differ only in whether the
    created agent gets the file-search tool. Every vendor call is recorded as
    an `AgentCall`, so an operation's result is the sequence of calls it
    makes; ids the vendor assigns are parameters. */
module AgentsFacade {
  import opened Common
  import opened AgentConfig

  /** ToolResources with a FileSearch resource bound to these stores. */
  datatype ToolResources = ToolResources(fileSearchVectorStoreIds: seq<string>)

  /** FileSearchToolDefinition with its MaxNumResults. */
  datatype ToolDefinition = FileSearchTool(maxNumResults: int)

  datatype CreateAgentRequest = CreateAgentRequest(
    deploymentName: Option<string>,
    agentName: Option<string>,
    instructions: Option<string>,
    toolResources: Option<ToolResources>,
    tools: Option<seq<ToolDefinition>>)

  /** The vendor calls the agent operations make. */
  datatype AgentCall =
    | GetAIAgent(agentId: string)
    | CreateAgent(model: string, name: string, instructions: string,
                  toolResources: Option<ToolResources>, tools: Option<seq<ToolDefinition>>)
    | DeleteAgent(agentId: string)
    | GetThread(threadId: string)

  const AgentIdError: string := "Agent ID cannot be null or empty."
  const ThreadIdError: string := "Thread ID cannot be null or empty."
  const DeploymentNameError: string := "Deployment name cannot be null or empty."
  const AgentNameError: string := "Agent name cannot be null or empty."
  const InstructionsError: string := "Instructions cannot be null or empty."

  /** The client both services build in their constructor: the endpoint
      read from the environment. */
  datatype Connection = Connection(config: AgentConfiguration, endpoint: string)

  /** The constructors of PersistentAgentsClientFacade and
      AgentAdministration: a null configuration is rejected, then the
      endpoint is read, which throws when its variable is unset. */
  function Connect(config: Option<AgentConfiguration>, env: Environment): (r: Result<Connection>)
    ensures config.None? ==> r == Err(ArgumentNull("agentConfig"))
    ensures config.Some? && config.value.endpoint !in env ==> r.Err? && r.error.InvalidOperation?
    ensures r.Ok? <==> config.Some? && config.value.endpoint in env
    ensures r.Ok? ==> r.value == Connection(config.value, env[config.value.endpoint])
  {
    if config.None? then Err(ArgumentNull("agentConfig"))
    else match GetEndpoint(config.value, env)
      case Err(e) => Err(e)
      case Ok(endpoint) => Ok(Connection(config.value, endpoint))
  }

  /** The vector-store id configured for an agent's file-search tool, if any:
      agentSettings.Tools?.VectorStores?.VectorStoreId. */
  function ConfiguredVectorStoreId(settings: AgentSettings): Option<string>
  {
    if settings.tools.Some? && settings.tools.value.vectorStores.Some? then settings.tools.value.vectorStores.value.vectorStoreId
    else None
  }

  /** CreateToolResourcesAndTools: with a non-blank vector-store id, one
      resource bound to exactly that store and exactly one file-search tool
      with the configured result limit; otherwise neither. */
  function CreateToolResourcesAndTools(settings: AgentSettings): (r: (Option<ToolResources>, Option<seq<ToolDefinition>>))
    ensures r.0.Some? <==> !IsNullOrWhiteSpace(ConfiguredVectorStoreId(settings))
    ensures r.1.Some? <==> r.0.Some?
    ensures r.0.Some? ==> r.0.value.fileSearchVectorStoreIds == [ConfiguredVectorStoreId(settings).value]
    ensures r.1.Some? ==> r.1.value == [FileSearchTool(settings.tools.value.vectorStores.value.maxNumResults)]
  {
    if IsNullOrWhiteSpace(ConfiguredVectorStoreId(settings)) then (None, None)
    else
      var vectorStores := settings.tools.value.vectorStores.value;
      (Some(ToolResources([vectorStores.vectorStoreId.value])), Some([FileSearchTool(vectorStores.maxNumResults)]))
  }

  /** The facade's CreateAgentRequest: the type's settings are looked up
      first, then the deployment name; name and instructions are copied and
      the file-search tool is attached when configured. */
  function FacadeCreateAgentRequest(conn: Connection, env: Environment, agentType: string): (r: Result<CreateAgentRequest>)
    ensures agentType !in conn.config.agents ==> r == Err(KeyNotFound(agentType))
    ensures r.Ok? <==> agentType in conn.config.agents && conn.config.deploymentName in env
    ensures r.Ok? ==>
              var settings := conn.config.agents[agentType];
              && r.value.deploymentName == Some(env[conn.config.deploymentName])
              && r.value.agentName == Some(settings.name)
              && r.value.instructions == Some(settings.instructions)
              && (r.value.toolResources, r.value.tools) == CreateToolResourcesAndTools(settings)
  {
    match GetAgent(conn.config, agentType)
    case Err(e) => Err(e)
    case Ok(settings) =>
      match GetDeploymentName(conn.config, env)
      case Err(e) => Err(e)
      case Ok(deploymentName) =>
        var (toolResources, tools) := CreateToolResourcesAndTools(settings);
        Ok(CreateAgentRequest(Some(deploymentName), Some(settings.name), Some(settings.instructions), toolResources, tools))
  }

  /** AgentAdministration.CreateAgentRequest: the same lookups, never any tool. */
  function AdministrationCreateAgentRequest(conn: Connection, env: Environment, agentType: string): (r: Result<CreateAgentRequest>)
    ensures agentType !in conn.config.agents ==> r == Err(KeyNotFound(agentType))
    ensures r.Ok? <==> agentType in conn.config.agents && conn.config.deploymentName in env
    ensures r.Ok? ==>
              var settings := conn.config.agents[agentType];
              && r.value.deploymentName == Some(env[conn.config.deploymentName])
              && r.value.agentName == Some(settings.name)
              && r.value.instructions == Some(settings.instructions)
              && r.value.toolResources.None? && r.value.tools.None?
  {
    match GetAgent(conn.config, agentType)
    case Err(e) => Err(e)
    case Ok(settings) =>
      match GetDeploymentName(conn.config, env)
      case Err(e) => Err(e)
      case Ok(deploymentName) => Ok(CreateAgentRequest(Some(deploymentName), Some(settings.name), Some(settings.instructions), None, None))
  }

  /** The guard clauses of CreateAgentAsync, in order: null request, then
      blank deployment name, agent name and instructions. */
  function CreateAgentRequestError(request: Option<CreateAgentRequest>): (r: Option<Error>)
    ensures request.None? ==> r == Some(ArgumentNull("request"))
    ensures request.Some? && IsNullOrWhiteSpace(request.value.deploymentName) ==> r == Some(Argument(DeploymentNameError))
    ensures request.Some? && !IsNullOrWhiteSpace(request.value.deploymentName) && IsNullOrWhiteSpace(request.value.agentName)
            ==> r == Some(Argument(AgentNameError))
    ensures (request.Some? && !IsNullOrWhiteSpace(request.value.deploymentName) && !IsNullOrWhiteSpace(request.value.agentName)
             && IsNullOrWhiteSpace(request.value.instructions)) ==> r == Some(Argument(InstructionsError))
    ensures r.None? <==> request.Some? && !IsNullOrWhiteSpace(request.value.deploymentName)
                         && !IsNullOrWhiteSpace(request.value.agentName) && !IsNullOrWhiteSpace(request.value.instructions)
  {
    if request.None? then Some(ArgumentNull("request"))
    else if IsNullOrWhiteSpace(request.value.deploymentName) then Some(Argument(DeploymentNameError))
    else if IsNullOrWhiteSpace(request.value.agentName) then Some(Argument(AgentNameError))
    else if IsNullOrWhiteSpace(request.value.instructions) then Some(Argument(InstructionsError))
    else None
  }

  /** The facade's CreateAgentAsync: after the guards, create the agent,
      with its tool resources and tools only when both are present and the
      tool list is non-empty, then fetch it by the id the vendor assigned. */
  function FacadeCreateAgent(request: Option<CreateAgentRequest>, createdId: string): (r: Result<seq<AgentCall>>)
    ensures CreateAgentRequestError(request).Some? ==> r == Err(CreateAgentRequestError(request).value)
    ensures r.Ok? <==> CreateAgentRequestError(request).None?
    ensures r.Ok? ==> |r.value| == 2 && r.value[0].CreateAgent? && r.value[1] == GetAIAgent(createdId)
    ensures r.Ok? ==>
              var req := request.value;
              var attach := req.toolResources.Some? && req.tools.Some? && |req.tools.value| > 0;
              && r.value[0].model == req.deploymentName.value
              && r.value[0].name == req.agentName.value
              && r.value[0].instructions == req.instructions.value
              && (attach ==> r.value[0].toolResources == req.toolResources && r.value[0].tools == req.tools)
              && (!attach ==> r.value[0].toolResources.None? && r.value[0].tools.None?)
  {
    match CreateAgentRequestError(request)
    case Some(e) => Err(e)
    case None =>
      var req := request.value;
      var hasToolResources := req.toolResources.Some?;
      var hasTools := req.tools.Some? && |req.tools.value| > 0;
      var create :=
        if hasToolResources && hasTools then
          CreateAgent(req.deploymentName.value, req.agentName.value, req.instructions.value, req.toolResources, req.tools)
        else
          CreateAgent(req.deploymentName.value, req.agentName.value, req.instructions.value, None, None);
      Ok([create, GetAIAgent(createdId)])
  }

  /** AgentAdministration.CreateAgentAsync: the same guards, and the agent is
      always created without tools. */
  function AdministrationCreateAgent(request: Option<CreateAgentRequest>, createdId: string): (r: Result<seq<AgentCall>>)
    ensures CreateAgentRequestError(request).Some? ==> r == Err(CreateAgentRequestError(request).value)
    ensures r.Ok? <==> CreateAgentRequestError(request).None?
    ensures r.Ok? ==> r.value == [CreateAgent(request.value.deploymentName.value, request.value.agentName.value,
                                              request.value.instructions.value, None, None),
                                  GetAIAgent(createdId)]
  {
    match CreateAgentRequestError(request)
    case Some(e) => Err(e)
    case None =>
      var req := request.value;
      Ok([CreateAgent(req.deploymentName.value, req.agentName.value, req.instructions.value, None, None),
          GetAIAgent(createdId)])
  }

  /** GetAgentByIdAsync (both services): a blank id is rejected. */
  function GetAgentById(agentId: Option<string>): (r: Result<seq<AgentCall>>)
    ensures IsNullOrWhiteSpace(agentId) <==> r == Err(Argument(AgentIdError))
    ensures r.Ok? ==> r.value == [GetAIAgent(agentId.value)]
  {
    if IsNullOrWhiteSpace(agentId) then Err(Argument(AgentIdError)) else Ok([GetAIAgent(agentId.value)])
  }

  /** The facade's GetOrCreateAgentAsync (GetOrCreateChatClientAgentAsync
      makes the same calls). */
  function FacadeGetOrCreateAgent(conn: Connection, env: Environment, agentId: Option<string>,
                                  agentType: Option<string>, createdId: string): (r: Result<seq<AgentCall>>)
    ensures !IsNullOrWhiteSpace(agentId) ==> r == Ok([GetAIAgent(agentId.value)])
    ensures IsNullOrWhiteSpace(agentId) && agentType.None? ==> r == Err(ArgumentNull("agentType"))
    ensures IsNullOrWhiteSpace(agentId) && agentType.Some? && agentType.value !in conn.config.agents
            ==> r == Err(KeyNotFound(agentType.value))
    ensures IsNullOrWhiteSpace(agentId) && agentType.Some? && agentType.value in conn.config.agents
            && conn.config.deploymentName !in env
            ==> r.Err? && r.error.InvalidOperation?
    ensures IsNullOrWhiteSpace(agentId) && agentType.Some? && agentType.value in conn.config.agents
            && conn.config.deploymentName in env ==>
              var settings := conn.config.agents[agentType.value];
              && (r.Ok? <==> !IsBlank(env[conn.config.deploymentName]) && !IsBlank(settings.name) && !IsBlank(settings.instructions))
              && (r.Err? ==> r.error.Argument?)
              && (r.Ok? ==> |r.value| == 2 && r.value[0].CreateAgent? && r.value[0].name == settings.name
                            && r.value[0].instructions == settings.instructions
                            && r.value[0].model == env[conn.config.deploymentName] && r.value[1] == GetAIAgent(createdId))
  {
    if !IsNullOrWhiteSpace(agentId) then GetAgentById(agentId)
    else if agentType.None? then Err(ArgumentNull("agentType"))
    else match FacadeCreateAgentRequest(conn, env, agentType.value)
      case Err(e) => Err(e)
      case Ok(request) => FacadeCreateAgent(Some(request), createdId)
  }

  /** AgentAdministration.GetOrCreateAgentAsync. */
  function AdministrationGetOrCreateAgent(conn: Connection, env: Environment, agentId: Option<string>,
                                          agentType: Option<string>, createdId: string): (r: Result<seq<AgentCall>>)
    ensures !IsNullOrWhiteSpace(agentId) ==> r == Ok([GetAIAgent(agentId.value)])
    ensures IsNullOrWhiteSpace(agentId) && agentType.None? ==> r == Err(ArgumentNull("agentType"))
    ensures IsNullOrWhiteSpace(agentId) && agentType.Some? && agentType.value !in conn.config.agents
            ==> r == Err(KeyNotFound(agentType.value))
    ensures IsNullOrWhiteSpace(agentId) && agentType.Some? && agentType.value in conn.config.agents
            && conn.config.deploymentName !in env
            ==> r.Err? && r.error.InvalidOperation?
    ensures IsNullOrWhiteSpace(agentId) && agentType.Some? && agentType.value in conn.config.agents
            && conn.config.deploymentName in env ==>
              var settings := conn.config.agents[agentType.value];
              && (r.Ok? <==> !IsBlank(env[conn.config.deploymentName]) && !IsBlank(settings.name) && !IsBlank(settings.instructions))
              && (r.Err? ==> r.error.Argument?)
              && (r.Ok? ==> r.value == [CreateAgent(env[conn.config.deploymentName], settings.name, settings.instructions, None, None),
                                        GetAIAgent(createdId)])
  {
    if !IsNullOrWhiteSpace(agentId) then GetAgentById(agentId)
    else if agentType.None? then Err(ArgumentNull("agentType"))
    else match AdministrationCreateAgentRequest(conn, env, agentType.value)
      case Err(e) => Err(e)
      case Ok(request) => AdministrationCreateAgent(Some(request), createdId)
  }

  /** A facade-created agent carries the file-search tool exactly when its
      settings name a non-blank vector store, and then it is bound to that
      store alone with the configured result limit. */
  lemma FacadeAttachesFileSearchIff(conn: Connection, env: Environment, agentType: string, createdId: string)
    requires FacadeGetOrCreateAgent(conn, env, None, Some(agentType), createdId).Ok?
    ensures var call := FacadeGetOrCreateAgent(conn, env, None, Some(agentType), createdId).value[0];
            var settings := conn.config.agents[agentType];
            && (call.tools.Some? <==> !IsNullOrWhiteSpace(ConfiguredVectorStoreId(settings)))
            && (call.toolResources.Some? <==> call.tools.Some?)
            && (call.tools.Some? ==>
                  call.tools.value == [FileSearchTool(settings.tools.value.vectorStores.value.maxNumResults)]
                  && call.toolResources.value.fileSearchVectorStoreIds == [ConfiguredVectorStoreId(settings).value])
  {
    var request := FacadeCreateAgentRequest(conn, env, agentType);
    assert request.Ok?;
  }

  /** AgentAdministration never attaches tools to an agent it creates. */
  lemma AdministrationNeverAttachesTools(conn: Connection, env: Environment, agentId: Option<string>,
                                         agentType: Option<string>, createdId: string, i: nat)
    requires AdministrationGetOrCreateAgent(conn, env, agentId, agentType, createdId).Ok?
    requires i < |AdministrationGetOrCreateAgent(conn, env, agentId, agentType, createdId).value|
    ensures var call := AdministrationGetOrCreateAgent(conn, env, agentId, agentType, createdId).value[i];
            call.CreateAgent? ==> call.toolResources.None? && call.tools.None?
  {
  }

  /** The two services agree whenever the agent has no vector store
      configured: the facade's only addition is the file-search tool. */
  lemma FacadeAgreesWithAdministration(conn: Connection, env: Environment, agentId: Option<string>,
                                       agentType: Option<string>, createdId: string)
    requires agentType.Some? && agentType.value in conn.config.agents ==>
               IsNullOrWhiteSpace(ConfiguredVectorStoreId(conn.config.agents[agentType.value]))
    ensures FacadeGetOrCreateAgent(conn, env, agentId, agentType, createdId)
            == AdministrationGetOrCreateAgent(conn, env, agentId, agentType, createdId)
  {
  }

  /** DeleteAgentByIdAsync: a blank id is rejected. */
  function DeleteAgentById(agentId: Option<string>): (r: Result<seq<AgentCall>>)
    ensures IsNullOrWhiteSpace(agentId) <==> r == Err(Argument(AgentIdError))
    ensures r.Ok? ==> r.value == [DeleteAgent(agentId.value)]
  {
    if IsNullOrWhiteSpace(agentId) then Err(Argument(AgentIdError)) else Ok([DeleteAgent(agentId.value)])
  }

  /** GetThreadByIdAsync, GetAIThreadAsync and GetPersistentAgentThreadAsync:
      a blank id is rejected, otherwise the thread is fetched (the three
      differ only in how the vendor's thread is wrapped). */
  function GetThreadById(threadId: Option<string>): (r: Result<seq<AgentCall>>)
    ensures IsNullOrWhiteSpace(threadId) <==> r == Err(Argument(ThreadIdError))
    ensures r.Ok? ==> r.value == [GetThread(threadId.value)]
  {
    if IsNullOrWhiteSpace(threadId) then Err(Argument(ThreadIdError)) else Ok([GetThread(threadId.value)])
  }
}
