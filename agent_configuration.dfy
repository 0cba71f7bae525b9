/** The agent configuration: named agent settings, named vector-store
    settings, and the names of the environment variables that hold the
    deployment name and the endpoint. The process environment is a map
    from variable name to value. */
module AgentConfig {
  import opened Common

  /** The vector store an agent's file-search tool is bound to. */
  datatype AgentVectorStoresSettings = AgentVectorStoresSettings(vectorStoreId: Option<string>, maxNumResults: int)

  datatype AgentToolsSettings = AgentToolsSettings(vectorStores: Option<AgentVectorStoresSettings>)

  /** One configured agent role. */
  datatype AgentSettings = AgentSettings(name: string, instructions: string, tools: Option<AgentToolsSettings>)

  /** One configured vector store: what to upload into it and how. */
  datatype VectorStoreSettings = VectorStoreSettings(
    vectorStoreName: Option<string>,
    filePath: string,
    fileName: Option<string>,
    vectorStoreId: Option<string>,
    vectorStoreDescription: Option<string>,
    initialize: bool)

  /** `vectorStores` keeps the configuration dictionary's enumeration order. */
  datatype AgentConfiguration = AgentConfiguration(
    deploymentName: string,
    endpoint: string,
    agents: map<string, AgentSettings>,
    vectorStores: seq<(string, VectorStoreSettings)>)

  type Environment = map<string, string>

  /** GetAgent: the settings stored under the name, or KeyNotFoundException. */
  function GetAgent(config: AgentConfiguration, agentName: string): (r: Result<AgentSettings>)
    ensures r.Ok? <==> agentName in config.agents
    ensures r.Ok? ==> r.value == config.agents[agentName]
    ensures r.Err? ==> r.error == KeyNotFound(agentName)
  {
    if agentName in config.agents then Ok(config.agents[agentName]) else Err(KeyNotFound(agentName))
  }

  /** Environment.GetEnvironmentVariable(name) ?? throw InvalidOperationException. */
  function ReadVariable(env: Environment, name: string): (r: Result<string>)
    ensures r.Ok? <==> name in env
    ensures r.Ok? ==> r.value == env[name]
    ensures r.Err? ==> r.error.InvalidOperation?
  {
    if name in env then Ok(env[name])
    else Err(InvalidOperation("Environment variable '" + name + "' is not set."))
  }

  /** GetDeploymentName: the value of the variable named by DeploymentName. */
  function GetDeploymentName(config: AgentConfiguration, env: Environment): (r: Result<string>)
    ensures r.Ok? <==> config.deploymentName in env
    ensures r.Ok? ==> r.value == env[config.deploymentName]
    ensures r.Err? ==> r.error.InvalidOperation?
  {
    ReadVariable(env, config.deploymentName)
  }

  /** GetEndpoint: the value of the variable named by Endpoint. */
  function GetEndpoint(config: AgentConfiguration, env: Environment): (r: Result<string>)
    ensures r.Ok? <==> config.endpoint in env
    ensures r.Ok? ==> r.value == env[config.endpoint]
    ensures r.Err? ==> r.error.InvalidOperation?
  {
    ReadVariable(env, config.endpoint)
  }

  /** GetEndpointUri: the endpoint when `isAbsoluteUri` (Uri.TryCreate with
      UriKind.Absolute) accepts it; the unset-variable error propagates. */
  function GetEndpointUri(config: AgentConfiguration, env: Environment, isAbsoluteUri: string -> bool): (r: Result<string>)
    ensures config.endpoint !in env ==> r == GetEndpoint(config, env)
    ensures config.endpoint in env && !isAbsoluteUri(env[config.endpoint]) ==> r.Err? && r.error.InvalidOperation?
    ensures r.Ok? <==> config.endpoint in env && isAbsoluteUri(env[config.endpoint])
    ensures r.Ok? ==> r.value == env[config.endpoint]
  {
    match GetEndpoint(config, env)
    case Err(e) => Err(e)
    case Ok(endpoint) =>
      if isAbsoluteUri(endpoint) then Ok(endpoint)
      else Err(InvalidOperation("The endpoint '" + endpoint + "' is not a valid URI."))
  }

  /** GetVectorStore: the first entry with that key, or KeyNotFoundException. */
  function GetVectorStore(entries: seq<(string, VectorStoreSettings)>, name: string): (r: Result<VectorStoreSettings>)
    ensures r.Ok? <==> exists i :: 0 <= i < |entries| && entries[i].0 == name
    ensures r.Ok? ==> exists i :: 0 <= i < |entries| && entries[i] == (name, r.value)
    ensures r.Err? ==> r.error == KeyNotFound(name)
  {
    if |entries| == 0 then Err(KeyNotFound(name))
    else if entries[0].0 == name then Ok(entries[0].1)
    else
      var r := GetVectorStore(entries[1..], name);
      assert forall i :: 1 <= i < |entries| ==> entries[i] == entries[1..][i - 1];
      r
  }
}
