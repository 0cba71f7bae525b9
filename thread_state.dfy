/** Local persistence of agent threads, shared by the three Foundry
    conversation services: a serialised thread is written to
    `{cwd}/AgentsThreads/{agentId}/Threads/{threadId}.json` after every run
    and read back when a later request names that thread id.

    The file system is the class `ThreadStateStore`: the set of agent
    directories that exist and a map from (agentId, threadId) to the text of
    the file. The vendor's "deserialise thread" is a parameter that may fail
    (None). */
module ThreadState {
  import opened Common

  /** The `conversationId` property of a serialised thread, as parsed JSON. */
  datatype JsonField = Missing | JsonNull | JsonString(s: string) | NonString

  /** A serialised AgentThread: its raw JSON text and its `conversationId`. */
  datatype SerializedThread = SerializedThread(text: string, conversationId: JsonField)

  /** The thread that CreateOrResumeAgentThreadAsync hands to the run. */
  datatype ResolvedThread<T> = NewThread | Resumed(thread: T)

  /** A state file, by agent id and thread id (the file name without `.json`). */
  type FileKey = (string, string)

  const DefaultThreadFileName: string := "agent_thread"

  const ThreadsRoot: string := "/AgentsThreads/"

  /** GetThreadStateDirectory, with '/' as the path separator: one directory
      per agent under `AgentsThreads`, holding a `Threads` directory. */
  function ThreadStateDirectory(cwd: string, agentId: string): (r: string)
    ensures |r| == |cwd| + |ThreadsRoot| + |agentId| + |"/Threads"|
    ensures r[..|cwd| + |ThreadsRoot|] == cwd + ThreadsRoot
    ensures r[|cwd| + |ThreadsRoot|..|cwd| + |ThreadsRoot| + |agentId|] == agentId
    ensures r[|r| - |"/Threads"|..] == "/Threads"
  {
    cwd + ThreadsRoot + agentId + "/Threads"
  }

  /** GetThreadStateFilePath: `{threadId}.json` inside the agent's thread
      directory. */
  function ThreadStateFilePath(cwd: string, agentId: string, threadId: string): (r: string)
    ensures var dir := ThreadStateDirectory(cwd, agentId);
            && |r| == |dir| + 1 + |threadId| + |".json"|
            && r[..|dir| + 1] == dir + "/"
            && r[|dir| + 1..|r| - |".json"|] == threadId
            && r[|r| - |".json"|..] == ".json"
  {
    ThreadStateDirectory(cwd, agentId) + "/" + threadId + ".json"
  }

  /** Where the agent id and the thread id sit in a state file's path. */
  lemma FilePathParts(cwd: string, agentId: string, threadId: string)
    ensures var p := ThreadStateFilePath(cwd, agentId, threadId);
            var n := |cwd| + |ThreadsRoot|;
            && |p| == n + |agentId| + |"/Threads/"| + |threadId| + |".json"|
            && p[n..n + |agentId|] == agentId
            && p[n + |agentId|] == '/'
            && p[n + |agentId| + |"/Threads/"|..|p| - |".json"|] == threadId
  {
    var p := ThreadStateFilePath(cwd, agentId, threadId);
    var dir := ThreadStateDirectory(cwd, agentId);
    var n := |cwd| + |ThreadsRoot|;
    assert p[..|dir|] == dir;
    assert p[n..n + |agentId|] == dir[n..n + |agentId|];
    assert p[n + |agentId|] == dir[|dir| - |"/Threads"|..][0];
  }

  /** Distinct (agentId, threadId) pairs give distinct path strings as long
      as agent ids hold no separator. Distinct path strings are distinct files
      only while no segment is `..` and the thread id holds no separator
      either; keying the store by the pair assumes that. */
  lemma FilePathInjective(cwd: string, a1: string, t1: string, a2: string, t2: string)
    requires forall i :: 0 <= i < |a1| ==> a1[i] != '/'
    requires forall i :: 0 <= i < |a2| ==> a2[i] != '/'
    requires ThreadStateFilePath(cwd, a1, t1) == ThreadStateFilePath(cwd, a2, t2)
    ensures a1 == a2 && t1 == t2
  {
    // The first '/' after the prefix ends the agent id in both paths, and
    // the thread id sits between the fixed middle and `.json`.
    FilePathParts(cwd, a1, t1);
    FilePathParts(cwd, a2, t2);
  }

  /** The file name SaveThreadStateAsync chooses: the `conversationId` when it
      is a non-blank string, `agent_thread` when it is absent, null or blank.
      A non-string value makes JsonElement.GetString throw. */
  function SaveFileName(conversationId: JsonField): (r: Result<string>)
    ensures r.Err? <==> conversationId.NonString?
    ensures r.Ok? ==> !IsBlank(r.value)
    ensures conversationId.JsonString? && !IsBlank(conversationId.s) ==> r == Ok(conversationId.s)
    ensures r.Ok? && r.value != DefaultThreadFileName ==> conversationId == JsonString(r.value)
  {
    match conversationId
    case NonString => Err(InvalidOperation("The requested operation requires an element of type 'String'."))
    case JsonString(s) =>
      if IsBlank(s) then DefaultFile() else Ok(s)
    case _ => DefaultFile()
  }

  /** `agent_thread`, which is not blank. */
  function DefaultFile(): (r: Result<string>)
    ensures r.Ok? && r.value == DefaultThreadFileName && !IsBlank(r.value)
  {
    assert !IsWhiteSpace(DefaultThreadFileName[0]);
    Ok(DefaultThreadFileName)
  }

  /** ExtractThreadId: the non-blank string `conversationId` of the thread,
      and "" for a null thread, a missing, null, blank or non-string value. */
  function ExtractThreadId(thread: Option<SerializedThread>): (r: string)
    ensures r != "" ==> thread.Some? && thread.value.conversationId == JsonString(r) && !IsBlank(r)
    ensures thread.Some? && thread.value.conversationId.JsonString? && !IsBlank(thread.value.conversationId.s)
            ==> r == thread.value.conversationId.s
  {
    if thread.None? then ""
    else match thread.value.conversationId
      case JsonString(s) => if IsBlank(s) then "" else s
      case _ => ""
  }

  /** The thread id a response reports is the name of the file the same
      request saved; when it reports none, the state went to `agent_thread`. */
  lemma ReportedThreadIdNamesSavedFile(state: SerializedThread)
    ensures ExtractThreadId(Some(state)) != "" ==> SaveFileName(state.conversationId) == Ok(ExtractThreadId(Some(state)))
    ensures ExtractThreadId(Some(state)) == "" && !state.conversationId.NonString?
            ==> SaveFileName(state.conversationId) == Ok(DefaultThreadFileName)
  {
  }

  /** ResumeThreadFromFileAsync without the directory check: None when the
      file does not exist, otherwise whatever deserialising its text gives
      (None when it throws). */
  function ResumeFromFiles<T>(files: map<FileKey, string>, agentId: string, threadId: string,
                              deserialize: string -> Option<T>): (r: Option<T>)
    ensures (agentId, threadId) !in files ==> r.None?
    ensures (agentId, threadId) in files ==> r == deserialize(files[(agentId, threadId)])
  {
    if (agentId, threadId) in files then deserialize(files[(agentId, threadId)]) else None
  }

  /** ResumeThreadFromFileAsync of AgentConversationService: also None when
      the agent's directory does not exist. */
  function ResumeCheckingDirectory<T>(directories: set<string>, files: map<FileKey, string>,
                                      agentId: string, threadId: string,
                                      deserialize: string -> Option<T>): (r: Option<T>)
    ensures agentId !in directories ==> r.None?
    ensures r.Some? ==> (agentId, threadId) in files && r == deserialize(files[(agentId, threadId)])
  {
    if agentId !in directories then None else ResumeFromFiles(files, agentId, threadId, deserialize)
  }

  /** Every file lives in its agent's directory. */
  ghost predicate FilesInDirectories(directories: set<string>, files: map<FileKey, string>)
  {
    forall key :: key in files ==> key.0 in directories
  }

  /** While every file lives in its agent's directory, the extra directory
      check never changes the outcome. */
  lemma DirectoryCheckRedundant<T>(directories: set<string>, files: map<FileKey, string>,
                                   agentId: string, threadId: string, deserialize: string -> Option<T>)
    requires FilesInDirectories(directories, files)
    ensures ResumeCheckingDirectory(directories, files, agentId, threadId, deserialize)
            == ResumeFromFiles(files, agentId, threadId, deserialize)
  {
    if agentId !in directories {
      assert (agentId, threadId) !in files;
    }
  }

  /** CreateOrResumeAgentThreadAsync, given the resume outcome: a blank thread
      id, or a resume that yields nothing, starts a new thread. */
  function CreateOrResume<T>(threadId: Option<string>, resume: string -> Option<T>): (r: ResolvedThread<T>)
    ensures IsNullOrWhiteSpace(threadId) ==> r.NewThread?
    ensures r.Resumed? <==> !IsNullOrWhiteSpace(threadId) && resume(threadId.value).Some?
    ensures r.Resumed? ==> resume(threadId.value) == Some(r.thread)
  {
    if IsNullOrWhiteSpace(threadId) then NewThread
    else match resume(threadId.value)
      case Some(t) => Resumed(t)
      case None => NewThread
  }

  /** The state written by one request is resumed by the next request that
      sends the thread id the first response reported (provided the vendor
      can deserialise its own output). */
  lemma ResumeByReportedThreadId<T>(files: map<FileKey, string>, agentId: string, state: SerializedThread,
                                    deserialize: string -> Option<T>)
    requires ExtractThreadId(Some(state)) != ""
    requires deserialize(state.text).Some?
    ensures SaveFileName(state.conversationId).Ok?
    ensures var saved := files[(agentId, SaveFileName(state.conversationId).value) := state.text];
            CreateOrResume(Some(ExtractThreadId(Some(state))),
                           (id: string) => ResumeFromFiles(saved, agentId, id, deserialize))
            == Resumed(deserialize(state.text).value)
  {
    ReportedThreadIdNamesSavedFile(state);
  }

  /** A thread without a usable `conversationId` is saved under
      `agent_thread` but reported with an empty thread id, so the follow-up
      request that echoes that id starts a new thread. */
  lemma DefaultFileNotResumedByReportedId<T>(files: map<FileKey, string>, agentId: string, state: SerializedThread,
                                             deserialize: string -> Option<T>)
    requires state.conversationId.Missing? || state.conversationId.JsonNull?
             || (state.conversationId.JsonString? && IsBlank(state.conversationId.s))
    ensures SaveFileName(state.conversationId) == Ok(DefaultThreadFileName)
    ensures ExtractThreadId(Some(state)) == ""
    ensures var saved := files[(agentId, DefaultThreadFileName) := state.text];
            CreateOrResume(Some(ExtractThreadId(Some(state))),
                           (id: string) => ResumeFromFiles(saved, agentId, id, deserialize)).NewThread?
  {
    assert IsBlank("");
  }

  /** The on-disk state files: the agent directories created so far and the
      text of every `{agentId}/Threads/{threadId}.json` file. */
  class ThreadStateStore {
    var directories: set<string>
    var files: map<FileKey, string>

    ghost predicate Valid()
      reads this
    {
      FilesInDirectories(directories, files)
    }

    /** The directories and files, as one value. */
    function State(): (set<string>, map<FileKey, string>)
      reads this
    {
      (directories, files)
    }

    constructor()
      ensures Valid()
      ensures directories == {} && files == map[]
    {
      directories := {};
      files := map[];
    }

    /** SaveThreadStateAsync: choose the file name, create the agent's
        directory and overwrite the file with exactly the serialised text.
        Returns the file name, or the exception GetString throws. */
    method Save(agentId: string, state: SerializedThread) returns (r: Result<string>)
      requires Valid()
      modifies this
      ensures Valid()
      ensures r == SaveFileName(state.conversationId)
      ensures r.Err? ==> directories == old(directories) && files == old(files)
      ensures r.Ok? ==> directories == old(directories) + {agentId}
      ensures r.Ok? ==> files == old(files)[(agentId, r.value) := state.text]
      ensures State() == AfterSave(old(directories), old(files), agentId, state)
    {
      r := SaveFileName(state.conversationId);
      if r.Ok? {
        directories := directories + {agentId};
        files := files[(agentId, r.value) := state.text];
      }
    }

    /** ResumeThreadFromFileAsync of the two ThreadService classes. */
    method Load<T>(agentId: string, threadId: string, deserialize: string -> Option<T>) returns (r: Option<T>)
      ensures r == ResumeFromFiles(files, agentId, threadId, deserialize)
    {
      var key := (agentId, threadId);
      if key !in files {
        return None;
      }
      r := deserialize(files[key]);
    }

    /** ResumeThreadFromFileAsync of AgentConversationService. */
    method LoadCheckingDirectory<T>(agentId: string, threadId: string, deserialize: string -> Option<T>)
      returns (r: Option<T>)
      ensures r == ResumeCheckingDirectory(directories, files, agentId, threadId, deserialize)
    {
      if agentId !in directories {
        return None;
      }
      r := Load(agentId, threadId, deserialize);
    }
  }

  /** The directories and files after SaveThreadStateAsync of `state` for
      `agentId`: unchanged when no file name can be chosen. */
  function AfterSave(directories: set<string>, files: map<FileKey, string>, agentId: string, state: SerializedThread)
    : (set<string>, map<FileKey, string>)
  {
    match SaveFileName(state.conversationId)
    case Err(_) => (directories, files)
    case Ok(name) => (directories + {agentId}, files[(agentId, name) := state.text])
  }

  /** Saving the same thread twice leaves the directories and files as saving
      it once. */
  lemma SaveIdempotent(directories: set<string>, files: map<FileKey, string>, agentId: string, state: SerializedThread)
    ensures var once := AfterSave(directories, files, agentId, state);
            AfterSave(once.0, once.1, agentId, state) == once
  {
    match SaveFileName(state.conversationId)
    case Err(_) =>
    case Ok(name) =>
      var once := AfterSave(directories, files, agentId, state);
      assert once.0 + {agentId} == once.0;
      assert once.1[(agentId, name) := state.text] == once.1;
  }

  /** A save touches only its own file: every other key resumes as before
      (files keyed by the pair, so a thread id cannot reach another pair's file). */
  lemma SaveLeavesOtherThreads<T>(files: map<FileKey, string>, agentId: string, name: string, text: string,
                                  otherAgent: string, otherThread: string, deserialize: string -> Option<T>)
    requires (otherAgent, otherThread) != (agentId, name)
    ensures ResumeFromFiles(files[(agentId, name) := text], otherAgent, otherThread, deserialize)
            == ResumeFromFiles(files, otherAgent, otherThread, deserialize)
  {
  }
}
