# Azure AI Foundry / Azure OpenAI agent samples — a Dafny model of the local logic

The samples mostly forward calls to the Azure AI Foundry and Azure OpenAI SDKs.
This project models the logic that sits around those calls, with the vendor replaced by explicit parameters:

- **Thread-state persistence** (`thread_state.dfy`, `conversation_services.dfy`).
  - Every `SendMessageAsync` of the three Foundry services saves the serialised thread under `AgentsThreads/{agentId}/Threads/{conversationId}.json`.
  - `agent_thread` is the fallback name.
  - On a later request the thread is resumed from that file, or a new one is started.
  - The file system is a class whose fields are a set of directories and a map from (agent id, file name) to text.
  - "Run the agent" and "deserialise a thread" are function parameters.
- **The vector-backed chat history** (`chat_message_store.dfy`).
  - `VectorChatMessageStore` has a lazily assigned thread key, upserts into a keyed collection, and returns the ten newest records of its thread, oldest first.
  - The key round-trips through `Serialize` and the constructor.
- **Tool registration and approvals** (`tool_extensions.dfy`, `customer_tools.dfy`, `openai_agent_services.dfy`).
  - `CreateAIToolsFromInstance` runs over an explicit method table.
  - The `[Danger]` methods are wrapped for approval.
  - The customer tools' replies are modelled, as are the two OpenAI `AgentService` classes: thread resume by id, and the approval loop as a trace of agent calls.
- **Response mapping and logging** (`response_mapping.dfy`, `function_call_middleware.dfy`).
  - `ToAgentResponse`, `MapMessageRole`, `ExtractTextContent` and the structured response of the SO sample are modelled.
  - So is the line `FunctionCallMiddleware` logs before calling the next step.
- **Agent and vector-store orchestration** (`agents_facade.dfy`, `vector_stores.dfy`).
  - Get-or-create dispatch, the guard clauses and file-search tool construction are modelled for both `PersistentAgentsClientFacade` and `AgentAdministration`.
  - The vector-store half of the facade runs over an in-memory `Foundry` class holding the stores and the uploaded files.
- **Configuration and validation** (`agent_configuration.dfy`, `send_message_request.dfy`).
  - Environment variables are a map.

Shared conventions (`common.dfy`):
- A null string is `None`.
- `string.IsNullOrWhiteSpace` uses .NET's white-space set.
- An exception is an `Err` carrying the exception kind and message.

`PersistentAgentsClientFacade.cs` repeats the partial facade files line for line, so its logic is modelled once. The rows below cite the partial files.

Where the source is inconsistent, the model follows the code that runs:
- `DangerAttribute`'s comment says tagged methods are excluded, but `ToolExtensions` wraps them.
- `VectorStoreSettings` declares `Enabled`, but `AgentConversationService` filters on `Initialize`. The model has one `initialize` flag.
- The agent-type enum lacks some of the types the services use. An agent type is a string key.

## Model

| member | source | states |
|---|---|---|
| Common.OrEmpty | AzureOpenAI/AzureOpenAIAgentStart/Services/AgentRunResponseExtensions.cs:27 | `x ?? string.Empty`: the value when present, "" when null |
| AgentConfig.GetAgent | AgentConfiguration/AgentConfiguration.cs:66-73 | the stored settings exactly when the key is present, otherwise KeyNotFound for that key |
| AgentConfig.ReadVariable | AgentConfiguration/AgentConfiguration.cs:30-31 | an environment variable's value when set; an InvalidOperation error exactly when unset |
| AgentConfig.GetDeploymentName | AgentConfiguration/AgentConfiguration.cs:28-32 | the value of the variable named by DeploymentName; fails only when that variable is unset |
| AgentConfig.GetEndpoint | AgentConfiguration/AgentConfiguration.cs:39-43 | the value of the variable named by Endpoint; fails only when that variable is unset |
| AgentConfig.GetEndpointUri | AgentConfiguration/AgentConfiguration.cs:50-58 | the unset-variable error propagates; a value that is not an absolute URI is an InvalidOperation error; success exactly when set and absolute |
| AgentConfig.GetVectorStore | AzureAIFoundry/AzureAIFoundryFileSearch/Services/AgentConversationService.cs:42 | success exactly when some entry has that key, and then the settings of such an entry; KeyNotFound for that key otherwise |
| Requests.Validate | AzureAIFoundry/AzureAIFoundryQuickStart/Models/SendMessageRequest.cs:24-35 | null request is ArgumentNull("request") before the message is looked at; a blank message is an Argument error; passes exactly when non-null with a non-blank message |
| ThreadState.ThreadStateDirectory | AzureAIFoundry/AzureAIFoundrySO/Services/ThreadService.cs:174-178 | the directory is `cwd/AgentsThreads/`, then the agent id, then `/Threads` |
| ThreadState.ThreadStateFilePath | AzureAIFoundry/AzureAIFoundrySO/Services/ThreadService.cs:186-190 | the file is the agent's thread directory, `/`, the thread id, then `.json` |
| ThreadState.FilePathInjective | AzureAIFoundry/AzureAIFoundrySO/Services/ThreadService.cs:174-190 | the path `cwd/AgentsThreads/{agentId}/Threads/{threadId}.json` determines agent and thread (for agent ids without a separator) |
| ThreadState.SaveFileName | AzureAIFoundry/AzureAIFoundrySO/Services/ThreadService.cs:199-211 | the file is named after a non-blank string conversationId, `agent_thread` when it is missing, null or blank; a non-string conversationId is an error; any other name is exactly the conversationId |
| ThreadState.DefaultFile | AzureAIFoundry/AzureAIFoundrySO/Services/ThreadService.cs:203-206 | the fallback name is the non-blank `agent_thread` |
| ThreadState.ExtractThreadId | AzureAIFoundry/AzureAIFoundrySO/Services/ThreadService.cs:120-146 | a non-empty answer is the thread's non-blank string conversationId, and such an id is always reported; "" otherwise (null thread, missing, blank or non-string field) |
| ThreadState.ReportedThreadIdNamesSavedFile | AzureAIFoundry/AzureAIFoundrySO/Services/ThreadService.cs:120-146 | the id reported to the client is the name the state was saved under; with no id reported the state went to `agent_thread` |
| ThreadState.ResumeFromFiles | AzureAIFoundry/AzureAIFoundryFileSearch/Services/ThreadService.cs:140-163 | no file gives none; otherwise whatever deserialising its text gives (none on failure) |
| ThreadState.ResumeCheckingDirectory | AzureAIFoundry/AzureAIFoundryFileSearch/Services/AgentConversationService.cs:197-224 | a missing agent directory gives none; a result always comes from the stored file |
| ThreadState.DirectoryCheckRedundant | AzureAIFoundry/AzureAIFoundryFileSearch/Services/AgentConversationService.cs:199-210 | while every file lies in a created directory, the directory check changes no answer |
| ThreadState.CreateOrResume | AzureAIFoundry/AzureAIFoundrySO/Services/ThreadService.cs:154-167 | a blank thread id gives a new thread; resumed exactly when the id is non-blank and resume succeeds, and then with the loaded thread |
| ThreadState.ResumeByReportedThreadId | AzureAIFoundry/AzureAIFoundrySO/Services/ThreadService.cs:154-167 | after a save, the thread id reported for it resumes exactly the saved thread |
| ThreadState.DefaultFileNotResumedByReportedId | AzureAIFoundry/AzureAIFoundrySO/Services/ThreadService.cs:199-211 | a thread saved as `agent_thread` reports no id, so the next request starts a new thread |
| ThreadState.ThreadStateStore.constructor | AzureAIFoundry/AzureAIFoundrySO/Services/ThreadService.cs:174-178 | an empty file system |
| ThreadState.ThreadStateStore.Save | AzureAIFoundry/AzureAIFoundrySO/Services/ThreadService.cs:197-218 | creates the agent directory and overwrites exactly one file, named by SaveFileName, with the serialised text; nothing changes on error |
| ThreadState.ThreadStateStore.Load | AzureAIFoundry/AzureAIFoundryFileSearch/Services/ThreadService.cs:140-163 | reading the store agrees with ResumeFromFiles |
| ThreadState.ThreadStateStore.LoadCheckingDirectory | AzureAIFoundry/AzureAIFoundryFileSearch/Services/AgentConversationService.cs:197-224 | reading the store agrees with ResumeCheckingDirectory |
| ThreadState.SaveIdempotent | AzureAIFoundry/AzureAIFoundrySO/Services/ThreadService.cs:197-218 | saving the same thread twice for the same agent leaves the directories and files as saving it once (the effect Save is proved to have) |
| ThreadState.SaveLeavesOtherThreads | AzureAIFoundry/AzureAIFoundrySO/Services/ThreadService.cs:213-217 | a save changes what no other (agent, thread) pair resumes to |
| ResponseMapping.ToInt32 | AzureOpenAI/AzureOpenAIAgentStart/Services/AgentRunResponseExtensions.cs:31-35 | the `(int)` cast: a 32-bit value congruent to the input modulo 2^32, equal to it when it fits |
| ResponseMapping.MapUsage | AzureOpenAI/AzureOpenAIAgentStart/Services/AgentRunResponseExtensions.cs:29-37 | null usage maps to null; each null count becomes 0; additional counts keep their keys, each value cast to 32 bits, null stays null |
| ResponseMapping.MapUsageKeepsSmallCounts | AzureOpenAI/AzureOpenAIAgentStart/Services/AgentRunResponseExtensions.cs:31-33 | counts that fit in 32 bits are copied unchanged, null ones become 0 |
| ResponseMapping.MapMessageRole | AzureOpenAI/AzureOpenAIAgentStart/Services/AgentRunResponseExtensions.cs:52-65 | blank gives User; Assistant, System, Tool exactly for the lower-cased names; every other role gives User |
| ResponseMapping.MapMessageRoleCaseInsensitive | AzureAIFoundry/AzureAIFoundrySO/Services/ThreadService.cs:102-115 | a role and its lower-cased form map to the same role |
| ResponseMapping.ItemText | AzureOpenAI/AzureOpenAIAgentStart/Services/AgentRunResponseExtensions.cs:84-104 | a null part contributes nothing; a text part its non-blank Text; another part its non-blank string form unless that is its type's full name |
| ResponseMapping.TextPartsAppend | AzureOpenAI/AzureOpenAIAgentStart/Services/AgentRunResponseExtensions.cs:82-105 | the parts are collected in order: the text of a concatenation is the concatenation of the texts |
| ResponseMapping.ExtractTextContent | AzureOpenAI/AzureOpenAIAgentStart/Services/AgentRunResponseExtensions.cs:70-107 | the loop computes TextContent: "" for null contents, otherwise the collected parts joined with a single space |
| ResponseMapping.TextItemAppears | AzureOpenAI/AzureOpenAIAgentStart/Services/AgentRunResponseExtensions.cs:89-95 | every non-blank Text of a part occurs in the extracted text |
| ResponseMapping.NullItemIgnored | AzureOpenAI/AzureOpenAIAgentStart/Services/AgentRunResponseExtensions.cs:84-85 | inserting a null part anywhere leaves the text unchanged |
| ResponseMapping.MapMessage | AzureOpenAI/AzureOpenAIAgentStart/Services/AgentRunResponseExtensions.cs:38-45 | author and message id default to "", creation time to now, role via MapMessageRole, content via TextContent |
| ResponseMapping.ToAgentResponse | AzureOpenAI/AzureOpenAIAgentStart/Services/AgentRunResponseExtensions.cs:18-47 | null response is ArgumentNull; otherwise agent id defaults to "", time to now, usage via MapUsage, one message per input message in order (none for null messages) |
| ResponseMapping.MapStructuredMessage | AzureAIFoundry/AzureAIFoundrySO/Services/ThreadService.cs:77-88 | author and message id default to "", creation time to now, role via MapMessageRole; the structured output is attached exactly to messages whose lower-cased role is "assistant" |
| ResponseMapping.ConvertToStructuredAgentResponse | AzureAIFoundry/AzureAIFoundrySO/Services/ThreadService.cs:66-97 | agent id (default ""), ExtractThreadId of the thread, creation time (default now), MapUsage, and one structured message per message in order |
| ResponseMapping.StructuredOutputOnlyOnAssistant | AzureAIFoundry/AzureAIFoundrySO/Services/ThreadService.cs:72-88 | a message carries the output exactly when its role maps to Assistant, and then it is the run's output |
| ToolExtensions.ToolFor | AzureOpenAI/AzureOpenAIShared/ToolExtensions.cs:35-45 | a method's tool is approval-wrapped exactly when it has [Danger]; either way it wraps that method's function |
| ToolExtensions.SelectedMethodsExact | AzureOpenAI/AzureOpenAIShared/ToolExtensions.cs:30-31 | the methods used are exactly the public, instance, declared-only, non-special ones |
| ToolExtensions.OneToolPerSelectedMethod | AzureOpenAI/AzureOpenAIShared/ToolExtensions.cs:33-46 | one tool per selected method, in enumeration order |
| ToolExtensions.CreateAIToolsFromInstance | AzureOpenAI/AzureOpenAIShared/ToolExtensions.cs:20-49 | a null instance is ArgumentNull("instance"); otherwise the loop builds exactly ExpectedTools of the method table |
| ToolExtensions.DangerousMethodsWrapped | AzureOpenAI/AzureOpenAIShared/ToolExtensions.cs:37-45 | a [Danger] method is wrapped, not dropped; an untagged one is added as the plain function |
| ToolExtensions.ApprovalOnlyForDanger | AzureOpenAI/AzureOpenAIShared/ToolExtensions.cs:37-41 | every approval-wrapped tool comes from a selected [Danger] method |
| CustomerTools.EditPersonalInformation | AzureOpenAI/AzureOpenAIAgentWithApprovalFunctionTools/Tools/CustomerTools.cs:21-46 | the list-building method computes PersonalInformationReply |
| CustomerTools.PersonalInformationUnchangedIff | AzureOpenAI/AzureOpenAIAgentWithApprovalFunctionTools/Tools/CustomerTools.cs:40-43 | the "No updates provided" reply comes exactly when all four fields are blank |
| CustomerTools.PersonalInformationListsField | AzureOpenAI/AzureOpenAIAgentWithApprovalFunctionTools/Tools/CustomerTools.cs:29-38 | every non-blank field appears with its label |
| CustomerTools.PersonalInformationOrder | AzureOpenAI/AzureOpenAIAgentWithFunctionTools/Tools/CustomerTools.cs:29-45 | with all fields given the reply lists First Name, Last Name, Email, Phone Number in that order, joined by ", " |
| CustomerTools.PersonalInformationNeverErrors | AzureOpenAI/AzureOpenAIAgentWithApprovalFunctionTools/Tools/CustomerTools.cs:40-45 | the customer id is never validated: no reply is an error |
| CustomerTools.CancelAccount | AzureOpenAI/AzureOpenAIAgentWithApprovalFunctionTools/Tools/CustomerTools.cs:54-68 | error exactly for a blank customer id; otherwise names the customer and ends with the reason text |
| CustomerTools.ReasonText | AzureOpenAI/AzureOpenAIAgentWithApprovalFunctionTools/Tools/CustomerTools.cs:63-65 | "No reason provided." for a blank reason, otherwise "Reason: " and the reason |
| CustomerTools.EditAddress | AzureOpenAI/AzureOpenAIAgentWithApprovalFunctionTools/Tools/CustomerTools.cs:80-114 | the list-building method computes AddressReply |
| CustomerTools.AddressReplyCases | AzureOpenAI/AzureOpenAIAgentWithFunctionTools/Tools/CustomerTools.cs:67-91 | error exactly for a blank customer id, checked first; with a valid id "unchanged" exactly when every part is blank |
| CustomerTools.AddressReplyListsPart | AzureOpenAI/AzureOpenAIAgentWithApprovalFunctionTools/Tools/CustomerTools.cs:96-113 | every non-blank address part occurs in the reply |
| CustomerTools.AddressOrder | AzureOpenAI/AzureOpenAIAgentWithApprovalFunctionTools/Tools/CustomerTools.cs:94-113 | with all parts given: street, city, state, postal code, country, joined by ", " |
| CustomerTools.ChangePassword | AzureOpenAI/AzureOpenAIAgentWithApprovalFunctionTools/Tools/CustomerTools.cs:122-137 | customer id checked before the password; the success reply, naming the customer, exactly when both are non-blank |
| CustomerTools.ChangePasswordHidesPassword | AzureOpenAI/AzureOpenAIAgentWithApprovalFunctionTools/Tools/CustomerTools.cs:136 | any two valid passwords give the same reply: the password never appears |
| CustomerTools.UpdatePaymentMethod | AzureOpenAI/AzureOpenAIAgentWithFunctionTools/Tools/CustomerTools.cs:102-119 | customer id checked before the type; success names customer and type |
| CustomerTools.UpdatePaymentMethodHidesDetails | AzureOpenAI/AzureOpenAIAgentWithApprovalFunctionTools/Tools/CustomerTools.cs:146-163 | the reply does not depend on the payment details |
| CustomerTools.UpdateSubscriptionPreferences | AzureOpenAI/AzureOpenAIAgentWithApprovalFunctionTools/Tools/CustomerTools.cs:173-200 | the list-building method computes PreferencesReply |
| CustomerTools.PreferencesListFlag | AzureOpenAI/AzureOpenAIAgentWithApprovalFunctionTools/Tools/CustomerTools.cs:185-192 | every flag with a value is listed with its label, a false value included |
| CustomerTools.PreferencesUnchangedIff | AzureOpenAI/AzureOpenAIAgentWithFunctionTools/Tools/CustomerTools.cs:136-155 | with a valid id, "unchanged" exactly when no flag has a value |
| CustomerTools.ApprovalCustomerToolsList | AzureOpenAI/AzureOpenAIAgentWithApprovalFunctionTools/Tools/CustomerTools.cs:10-201 | the approval sample gets six tools in declaration order, exactly CancelAccount and ChangePassword wrapped for approval |
| CustomerTools.FunctionCustomerToolsList | AzureOpenAI/AzureOpenAIAgentWithFunctionTools/Tools/CustomerTools.cs:21-156 | the function-tools sample gets four plain tools, none needing approval |
| FunctionCallMiddleware.ArgumentTexts | AzureOpenAI/AzureOpenAIShared/Middleware/FunctionCallMiddleware.cs:32 | one `[key = value]` text per argument, in order |
| FunctionCallMiddleware.OnFunctionCall | AzureOpenAI/AzureOpenAIShared/Middleware/FunctionCallMiddleware.cs:21-38 | logs the built line, then calls `next` once with the same context and token and returns its result unchanged |
| FunctionCallMiddleware.DetailsStartWithToolName | AzureOpenAI/AzureOpenAIShared/Middleware/FunctionCallMiddleware.cs:27-28 | the line always starts with `- Tool Call: '{name}'` |
| FunctionCallMiddleware.ArgsSuffixIff | AzureOpenAI/AzureOpenAIShared/Middleware/FunctionCallMiddleware.cs:30-33 | the ` (Args: ...)` suffix is there exactly when there are arguments |
| FunctionCallMiddleware.DetailsShowArgument | AzureOpenAI/AzureOpenAIShared/Middleware/FunctionCallMiddleware.cs:32 | every argument's `[key = value]` occurs in the line |
| FunctionCallMiddleware.DetailsIdentifyTool | AzureOpenAI/AzureOpenAIShared/Middleware/FunctionCallMiddleware.cs:27-28 | for names without a quote, equal lines mean the same tool |
| AgentsFacade.Connect | AzureAIFoundry/AzureAIFoundryShared/AgentAdministration.cs:23-34 | a null configuration is ArgumentNull("agentConfig"); then the endpoint is read and its absence is an InvalidOperation error |
| AgentsFacade.CreateToolResourcesAndTools | AzureAIFoundry/AzureAIFoundryShared/PersistentAgentsClientFacade.Agents.cs:142-172 | no resources and no tools unless a non-blank vector-store id is configured; then exactly that id and one file-search tool with the configured MaxNumResults |
| AgentsFacade.FacadeCreateAgentRequest | AzureAIFoundry/AzureAIFoundryShared/PersistentAgentsClientFacade.Agents.cs:120-135 | the type's settings (KeyNotFound otherwise) give name and instructions, the environment the deployment, CreateToolResourcesAndTools the tools |
| AgentsFacade.AdministrationCreateAgentRequest | AzureAIFoundry/AzureAIFoundryShared/AgentAdministration.cs:113-124 | as the facade's, with no tools or resources |
| AgentsFacade.CreateAgentRequestError | AzureAIFoundry/AzureAIFoundryShared/PersistentAgentsClientFacade.Agents.cs:54-72 | null request, then blank deployment, name, instructions, in that order; no error exactly when all are present |
| AgentsFacade.FacadeCreateAgent | AzureAIFoundry/AzureAIFoundryShared/PersistentAgentsClientFacade.Agents.cs:52-97 | after the guards, one create call with the request's fields, passing tools only when resources are set and the tool list is non-empty, then one fetch of the new agent |
| AgentsFacade.AdministrationCreateAgent | AzureAIFoundry/AzureAIFoundryShared/AgentAdministration.cs:41-68 | same guards; the agent is created without tools, then fetched |
| AgentsFacade.GetAgentById | AzureAIFoundry/AzureAIFoundryShared/AgentAdministration.cs:75-84 | a blank id is rejected; otherwise one fetch by that id |
| AgentsFacade.FacadeGetOrCreateAgent | AzureAIFoundry/AzureAIFoundryShared/PersistentAgentsClientFacade.Agents.cs:19-45 | a non-blank id fetches and ignores the type; no id and no type is ArgumentNull("agentType"); an unset deployment variable is an InvalidOperation error; otherwise creation from the type's settings, succeeding exactly when deployment, name and instructions are non-blank, an Argument error otherwise |
| AgentsFacade.AdministrationGetOrCreateAgent | AzureAIFoundry/AzureAIFoundryShared/AgentAdministration.cs:92-106 | the same dispatch and errors (ArgumentNull, KeyNotFound, InvalidOperation for an unset deployment, Argument for a blank field), creating without tools |
| AgentsFacade.FacadeAttachesFileSearchIff | AzureAIFoundry/AzureAIFoundryShared/PersistentAgentsClientFacade.Agents.cs:76-94 | a created agent has the file-search tool exactly when its type configures a non-blank vector-store id |
| AgentsFacade.AdministrationNeverAttachesTools | AzureAIFoundry/AzureAIFoundryShared/AgentAdministration.cs:63-66 | no create call of AgentAdministration carries tools |
| AgentsFacade.FacadeAgreesWithAdministration | AzureAIFoundry/AzureAIFoundryShared/AgentAdministration.cs:92-124 | with no vector store configured, the facade and AgentAdministration make the same calls |
| AgentsFacade.DeleteAgentById | AzureAIFoundry/AzureAIFoundryShared/AgentAdministration.cs:131-139 | a blank id is rejected; otherwise one delete of that id |
| AgentsFacade.GetThreadById | AzureAIFoundry/AzureAIFoundryShared/AgentAdministration.cs:155-201 | the three thread getters reject a blank id; otherwise one fetch of that thread |
| VectorStores.FileNameIsLastSegment | AzureAIFoundry/AzureAIFoundryShared/PersistentAgentsClientFacade.VectorStores.cs:75 | the file name is the path's suffix after its last separator |
| VectorStores.CleanRemovesNonBlankFiles | AzureAIFoundry/AzureAIFoundryShared/PersistentAgentsClientFacade.VectorStores.cs:182-198 | cleaning keeps exactly the store's blank ids and its name, leaves other stores alone, and changes the datasets exactly when asked, removing exactly the store's non-blank ids |
| VectorStores.WithoutTwice | AzureAIFoundry/AzureAIFoundryShared/PersistentAgentsClientFacade.VectorStores.cs:184-198 | deleting files one by one equals deleting them all at once |
| VectorStores.UploadedKey | AzureAIFoundry/AzureAIFoundryShared/PersistentAgentsClientFacade.VectorStores.cs:66-77 | after the uploads, an id is a dataset exactly when it was one or was uploaded |
| VectorStores.UploadedKeepsOthers | AzureAIFoundry/AzureAIFoundryShared/PersistentAgentsClientFacade.VectorStores.cs:66-77 | datasets not re-uploaded keep their names |
| VectorStores.UploadedName | AzureAIFoundry/AzureAIFoundryShared/PersistentAgentsClientFacade.VectorStores.cs:68-73 | an upload is named after its path's last segment |
| VectorStores.FileResults | AzureAIFoundry/AzureAIFoundryShared/PersistentAgentsClientFacade.VectorStores.cs:66-77 | one result per file, in request order, with its id and file name |
| VectorStores.Prepared | AzureAIFoundry/AzureAIFoundryShared/PersistentAgentsClientFacade.VectorStores.cs:48-64 | with an id: that store, succeeding exactly when it exists; without one: a blank name is rejected, otherwise a new empty store with that name under the new id |
| VectorStores.Foundry.constructor | AzureAIFoundry/AzureAIFoundryShared/PersistentAgentsClientFacade.cs:26-37 | the facade works on the given vendor state: its stores and datasets |
| VectorStores.Foundry.GetVectorStoreFiles | AzureAIFoundry/AzureAIFoundryShared/PersistentAgentsClientFacade.VectorStores.cs:107-123 | a blank id is rejected, an unknown store is a vendor NotFound error; otherwise the copy loop returns every file of the store, in order |
| VectorStores.Foundry.DeleteVectorStoreFile | AzureAIFoundry/AzureAIFoundryShared/PersistentAgentsClientFacade.VectorStores.cs:154-167 | blank store id, then blank file id, rejected with nothing changed; otherwise the file leaves that store only |
| VectorStores.Foundry.DeleteFile | AzureAIFoundry/AzureAIFoundryShared/PersistentAgentsClientFacade.Files.cs:54-62 | a blank id is rejected with nothing changed; otherwise exactly that dataset is removed |
| VectorStores.Foundry.GetFile | AzureAIFoundry/AzureAIFoundryShared/PersistentAgentsClientFacade.Files.cs:29-37 | a blank id is rejected; otherwise the file's name when it exists |
| VectorStores.Foundry.CleanVectorStore | AzureAIFoundry/AzureAIFoundryShared/PersistentAgentsClientFacade.VectorStores.cs:175-199 | a blank id is rejected; otherwise the delete loop reaches exactly AfterClean, whose meaning CleanRemovesNonBlankFiles states |
| VectorStores.Foundry.PrepareVectorStore | AzureAIFoundry/AzureAIFoundryShared/PersistentAgentsClientFacade.VectorStores.cs:46-64 | the store and state before the uploads are those of Prepared, and errors change nothing |
| VectorStores.Foundry.UploadFiles | AzureAIFoundry/AzureAIFoundryShared/PersistentAgentsClientFacade.VectorStores.cs:66-77 | the upload loop appends the ids to the store in order, records each dataset, and returns FileResults |
| VectorStores.Foundry.InitializeVectorStore | AzureAIFoundry/AzureAIFoundryShared/PersistentAgentsClientFacade.VectorStores.cs:39-85 | null request is ArgumentNull("request"); succeeds exactly when preparing does; the result names the store ("" when unnamed), its id and one entry per file |
| VectorStores.ListFiles | AzureAIFoundry/AzureAIFoundryShared/PersistentAgentsClientFacade.Files.cs:43-47 | the service's list, or empty when it returns none |
| VectorStores.InitializeAppendsFilesInOrder | AzureAIFoundry/AzureAIFoundryShared/PersistentAgentsClientFacade.VectorStores.cs:66-84 | the store ends with its old files followed by the uploads in request order; other stores are unchanged |
| ChatMessageStore.RestoredKey | AzureOpenAI/AzureOpenAIShared/Stores/VectorChatMessageStore.cs:22-26 | a key is restored exactly when the state is a JSON string |
| ChatMessageStore.KeyRoundTrip | AzureOpenAI/AzureOpenAIShared/Stores/VectorChatMessageStore.cs:66-68 | restoring what Serialize emits gives back the same key, null included |
| ChatMessageStore.Records | AzureOpenAI/AzureOpenAIShared/Stores/VectorChatMessageStore.cs:38-45 | one record per message, keyed by thread key plus message id, with the thread key and the message's timestamp |
| ChatMessageStore.UpsertStores | AzureOpenAI/AzureOpenAIShared/Stores/VectorChatMessageStore.cs:38 | a record not overwritten later in the batch is stored under its key |
| ChatMessageStore.UpsertKeepsOthers | AzureOpenAI/AzureOpenAIShared/Stores/VectorChatMessageStore.cs:38 | records whose key is not in the batch are unchanged |
| ChatMessageStore.Matching | AzureOpenAI/AzureOpenAIShared/Stores/VectorChatMessageStore.cs:55 | exactly the records whose thread id equals the store's key; none when there is no key |
| ChatMessageStore.VectorDb.Upsert | AzureOpenAI/AzureOpenAIShared/Stores/VectorChatMessageStore.cs:38-45 | the loop performs Upserted, and every record stays stored under its own key |
| ChatMessageStore.VectorDb.Newest | AzureOpenAI/AzureOpenAIShared/Stores/VectorChatMessageStore.cs:56 | a candidate with the largest timestamp |
| ChatMessageStore.VectorDb.GetNewestFirst | AzureOpenAI/AzureOpenAIShared/Stores/VectorChatMessageStore.cs:53-58 | distinct records of the thread, min(top, matching) of them, by non-increasing timestamp, none left out newer than the last |
| ChatMessageStore.ReverseInPlace | AzureOpenAI/AzureOpenAIShared/Stores/VectorChatMessageStore.cs:62 | the array afterwards is the reverse of before |
| ChatMessageStore.ReversedNewest | AzureOpenAI/AzureOpenAIShared/Stores/VectorChatMessageStore.cs:56-62 | reversing the descending query gives the ten newest in non-decreasing timestamp order |
| ChatMessageStore.NewestAllWhenFew | AzureOpenAI/AzureOpenAIShared/Stores/VectorChatMessageStore.cs:55 | a thread with at most ten records gets all of them back |
| ChatMessageStore.VectorChatMessageStore.constructor | AzureOpenAI/AzureOpenAIShared/Stores/VectorChatMessageStore.cs:18-27 | keeps the vector store; the key is restored from the state |
| ChatMessageStore.VectorChatMessageStore.AddMessages | AzureOpenAI/AzureOpenAIShared/Stores/VectorChatMessageStore.cs:31-46 | a fresh key only when there is none, an existing one never changes; the collection becomes the upsert of this batch's records |
| ChatMessageStore.VectorChatMessageStore.GetMessages | AzureOpenAI/AzureOpenAIShared/Stores/VectorChatMessageStore.cs:48-64 | the messages of the thread's ten newest records, oldest first |
| ChatMessageStore.VectorChatMessageStore.Serialize | AzureOpenAI/AzureOpenAIShared/Stores/VectorChatMessageStore.cs:66-68 | restoring its output gives the current key |
| ChatMessageStore.NewVectorChatMessageStore | AzureOpenAI/AzureOpenAIShared/Stores/VectorChatMessageStore.cs:20 | a null vector store is ArgumentNull("vectorStore"); otherwise a new store with the restored key |
| ChatMessageStore.AddedMessagesBelongToThread | AzureOpenAI/AzureOpenAIShared/Stores/VectorChatMessageStore.cs:38-45 | an added message is found under the thread's key with its content and timestamp, so later reads of that thread can return it |
| ConversationServices.ThreadServiceGuard | AzureAIFoundry/AzureAIFoundryFileSearch/Services/ThreadService.cs:39-44 | Validate first; then a blank agent id with no agent type is an Argument error; passes exactly otherwise |
| ConversationServices.ConversationServiceGuard | AzureAIFoundry/AzureAIFoundryFileSearch/Services/AgentConversationService.cs:87-92 | a null request is a null dereference; a missing agent type is rejected before Validate runs; passes exactly with a type and a non-blank message |
| ConversationServices.GuardsAgreeWhenTypeGiven | AzureAIFoundry/AzureAIFoundryFileSearch/Services/AgentConversationService.cs:87-92 | with an agent type given, both services accept and reject the same requests |
| ConversationServices.OnlyConversationServiceNeedsType | AzureAIFoundry/AzureAIFoundryFileSearch/Services/AgentConversationService.cs:87-90 | a request naming an agent id but no type passes the thread services and is rejected by AgentConversationService |
| ConversationServices.CreateOrResumeAgentThread | AzureAIFoundry/AzureAIFoundryFileSearch/Services/AgentConversationService.cs:112-128 | the thread is the one ResolveThread gives over the current files |
| ConversationServices.RunAndSave | AzureAIFoundry/AzureAIFoundryFileSearch/Services/AgentConversationService.cs:96-100 | resolve the thread, run once, then save that run's thread state; a failed run returns its error and saves nothing; a save error leaves the files unchanged |
| ConversationServices.FileSearchSendMessage | AzureAIFoundry/AzureAIFoundryFileSearch/Services/ThreadService.cs:37-55 | guards before any call; an agent error before any thread work; a failed run saves nothing; otherwise run, save, then the mapped response of that run with the thread's id |
| ConversationServices.StructuredSendMessage | AzureAIFoundry/AzureAIFoundrySO/Services/ThreadService.cs:36-56 | as FileSearchSendMessage, a failed run saving nothing, answering with the structured response of the run, its thread and its result |
| ConversationServices.ConversationSendMessage | AzureAIFoundry/AzureAIFoundryFileSearch/Services/AgentConversationService.cs:85-104 | agent-type check, Validate, agent, resume checking the directory, run (a failure saves nothing), save, mapped response reporting no thread id |
| ConversationServices.ToFoundryAgentResponse | AzureAIFoundry/AzureAIFoundryFileSearch/Services/ThreadService.cs:54 | the reported thread id is ExtractThreadId's, "" without a thread, and when non-empty it is the name the thread's state is saved under |
| ConversationServices.FollowUpResumesSavedThread | AzureAIFoundry/AzureAIFoundryFileSearch/Services/AgentConversationService.cs:163-224 | a follow-up request with the id ExtractThreadId gives for a saved thread (the id the file-search ThreadService reports) resumes that thread, with or without the directory check |
| ConversationServices.InitVectorStore | AzureAIFoundry/AzureAIFoundryFileSearch/Services/AgentConversationService.cs:40-62 | an unknown key is KeyNotFound; otherwise one initialisation under `cwd/Files/{FilePath}`, whose result is named by the configuration key |
| ConversationServices.InitAllVectorStores | AzureAIFoundry/AzureAIFoundryFileSearch/Services/AgentConversationService.cs:68-82 | the loop computes InitAll over the configured entries |
| ConversationServices.InitAllStopsAtFailure | AzureAIFoundry/AzureAIFoundryFileSearch/Services/AgentConversationService.cs:72-79 | the first failing initialisation ends the loop with its error |
| ConversationServices.InitAllReportsMarkedKeys | AzureAIFoundry/AzureAIFoundryFileSearch/Services/AgentConversationService.cs:68-82 | on success, one result per entry marked Initialize, in iteration order, named by its key |
| ConversationServices.KeysToInitializeMembers | AzureAIFoundry/AzureAIFoundryFileSearch/Services/AgentConversationService.cs:74 | the keys initialised are exactly those with Initialize set |
| OpenAIAgentServices.ConstructorGuard | AzureOpenAI/AzureOpenAIAgentWithThreads/Services/AgentService.cs:27-35 | a null factory, then a null configuration, is ArgumentNull with that parameter's name |
| OpenAIAgentServices.NewThreadsAgentService | AzureOpenAI/AzureOpenAIAgentWithThreads/Services/AgentService.cs:25-39 | after the null checks, asks for the global agent over an in-memory vector store |
| OpenAIAgentServices.ChooseThread | AzureOpenAI/AzureOpenAIAgentWithThreads/Services/AgentService.cs:56-65 | a new thread exactly for a blank id; otherwise one restored from a state whose StoreState is the id |
| OpenAIAgentServices.ThreadsSendMessage | AzureOpenAI/AzureOpenAIAgentWithThreads/Services/AgentService.cs:47-70 | a blank message is rejected before any call; otherwise obtain the thread, then exactly one run on it, whose response is returned |
| OpenAIAgentServices.ThreadIdSelectsHistory | AzureOpenAI/AzureOpenAIAgentWithThreads/Services/AgentService.cs:60-65 | a thread restored from an id reads and writes the chat history under that id |
| OpenAIAgentServices.NewApprovalAgentService | AzureOpenAI/AzureOpenAIAgentWithApprovalFunctionTools/Services/AgentService.cs:26-50 | after the null checks, asks for the global agent with the six customer tools (two approval-wrapped) and the middleware enabled |
| OpenAIAgentServices.ApprovalRequestsMembers | AzureOpenAI/AzureOpenAIAgentWithApprovalFunctionTools/Services/AgentService.cs:69-72 | the collected requests are exactly the approval-request contents of the reply's messages |
| OpenAIAgentServices.ApprovalSendMessage | AzureOpenAI/AzureOpenAIAgentWithApprovalFunctionTools/Services/AgentService.cs:57-86 | a blank message is rejected with no call; otherwise the loop makes exactly ApprovalExchange's calls and maps its last reply |
| OpenAIAgentServices.ApprovalRoundsShape | AzureOpenAI/AzureOpenAIAgentWithApprovalFunctionTools/Services/AgentService.cs:74-82 | each request, in order, is approved with `true` and followed by a re-run of the message |
| OpenAIAgentServices.ApprovalRoundsKeepLastReply | AzureOpenAI/AzureOpenAIAgentWithApprovalFunctionTools/Services/AgentService.cs:79-84 | the response mapped is that of the last run of the message: the first run's when nothing needs approval |
| OpenAIAgentServices.ApprovalExchangeShape | AzureOpenAI/AzureOpenAIAgentWithApprovalFunctionTools/Services/AgentService.cs:64-82 | one new thread, then 1 + 2k runs on it for k requests of the first reply, every approval `true` |

## Left out

- Files, the network and the Azure SDKs are not modelled. A vendor call becomes a parameter, a recorded call, or an update of the in-memory `Foundry` class. The vendor's own failures are modelled as a missing store in the `Foundry` calls, a missing file in GetFile, and in the conversation services as an agent lookup or a run that returns an error.
- Paths are built with '/' as the only separator. `Path.Combine`'s handling of rooted segments is not modelled, and neither is the platform's separator.
- ThreadState.ThreadStateStore: saved files are keyed by the (agent id, thread id) pair. The source takes the thread id from the request unchecked and joins it into a path, so a thread id holding `/` or `..` can name another pair's file (another agent's included) once the file system resolves the path. That aliasing is not modelled, and SaveLeavesOtherThreads holds only for the keyed store.
- VectorStores.Foundry.DeleteFile: deleting a file that is not among the datasets is modelled as success. The vendor may report it as an error, and then CleanVectorStore with removal from the datasets would stop partway; the model does not capture that failure.
- VectorStores.Foundry.DeleteVectorStoreFile: removing a file the store does not hold is modelled as success with `false` in the service's `Response<bool>`; a vendor error for it is not modelled.
- `ToLowerInvariant` is modelled on ASCII letters only.
- JSON is not parsed.
  - A serialised thread is its text plus the `conversationId` field as the parser would see it.
  - Deserialising a thread, and the read and parse errors the resume code catches, are one function that may return none.
  - Chat messages are stored as values rather than JSON.
- The clock, `Guid.NewGuid()` and the ids the vendor assigns are inputs: the record timestamps, the fresh thread key, the new store id and the upload ids.
- Concurrency, cancellation tokens and `async` are left out. Concurrent saves of one thread are not modelled.
- Console output is left out: `LogTokenUsage`, `WriteSystemLine` and the middleware's `WriteSecondaryLogLine`. The middleware's line is returned as a recorded effect instead.
- ResponseMapping.ExtractTextContent: the `catch` fallback to the contents' own string form is not modelled, because a list of parts has no failing enumeration.
- ResponseMapping.ToAgentResponse: the overload taking the thread, used by the threads sample and by the file-search ThreadService, has no body in this model.
- ConversationServices.FileSearchSendMessage: the Foundry `ToAgentResponse(thread)` extension is not part of this model. It is taken to fill the fields as the AgentStart mapping does and to set ThreadId to ExtractThreadId of the thread, as the structured-output sample does in plain view.
- ConversationServices.ConversationSendMessage: the Foundry `ToAgentResponse()` extension is not part of this model. It is taken to be the AgentStart mapping, with ThreadId left at its default "".
- ToolExtensions.CreateAIToolsFromInstance: reflection is an explicit method table. `GetMethods` is assumed to list methods in declaration order.
- AgentsFacade.FacadeGetOrCreateAgent: it also stands for `GetOrCreateChatClientAgentAsync`. The cast to `ChatClientAgent` cannot fail in the model.
- `CreateVectorStoreAsync`, `AddFileToVectorStoreAsync` and `GetVectorStoreAsync` of the facade are not modelled on their own. Each is one vendor call, the last behind a blank-id guard like GetVectorStoreFiles'. Their effect inside InitializeVectorStore is part of the `Foundry` state.
- `CreateThreadAsync` of AgentAdministration is a single vendor call with no check of its own. It is not modelled.
- VectorStores.Foundry.InitializeVectorStore: the vector store's description is not stored.
  - The upload itself (`UploadFileAsync`, the dataset's purpose) is a new dataset entry named after the path.
  - The result lists the files as the facade code builds them. The separate result class that has a single `FileId` is not modelled.
- ConversationServices.InitVectorStore: the initialisation AgentAdministration performs is a function parameter. Its body is not part of this model.
  - The configuration's vector-store section is a list of (key, settings) entries in iteration order. Its keys are assumed distinct, as a dictionary's are; with a repeated key, GetVectorStore would answer with the first entry's settings. The settings class with `VectorStores` and `GetVectorStore` is not part of this model.
- ChatMessageStore.VectorDb.GetNewestFirst: the order among records with equal timestamps is not fixed, as the vector store does not fix it.
- OpenAIAgentServices.ThreadsSendMessage: returns the run's raw response. The final `ToAgentResponse(thread)` mapping is not applied, because that overload has no body in this model. The agent factory and the agent are parameters. How the framework hands `StoreState` to the chat store is not modelled.
- OpenAIAgentServices.ApprovalSendMessage: the approval sample's own `ToAgentResponse()` extension is not part of this model. It is taken to be the AgentStart mapping (ResponseMapping.ToAgentResponse), and that sample's `AgentResponse` and `Message` types are taken to have the same fields. A reply's approval requests are given per message as a list of contents. The vendor's content type hierarchy is not modelled.
