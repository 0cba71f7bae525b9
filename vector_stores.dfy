/** The vector-store half of PersistentAgentsClientFacade, over an in-memory
    stand-in for the Azure AI Foundry service: the vector stores (each a name
    and the ids of the files it holds, in insertion order) and the uploaded
    files ("datasets", file id to file name). Ids the service assigns are
    inputs. */
module VectorStores {
  import opened Common

  datatype VectorStore = VectorStore(name: Option<string>, fileIds: seq<string>)

  datatype InitializeVectorStoreRequest = InitializeVectorStoreRequest(
    vectorStoreName: Option<string>,
    filePaths: seq<string>,
    vectorStoreId: Option<string>,
    vectorStoreDescription: Option<string>,
    cleanVectorStore: bool,
    cleanVectorStoreAndRemoveFilesFromDatasets: bool)

  datatype VectorStoreFileResult = VectorStoreFileResult(fileId: string, fileName: string)

  datatype VectorStoreInitializationResult = VectorStoreInitializationResult(
    vectorStoreName: string,
    files: seq<VectorStoreFileResult>,
    vectorStoreId: string)

  /** The service's state. */
  datatype FoundryState = FoundryState(stores: map<string, VectorStore>, datasets: map<string, string>)

  const VectorStoreIdError: string := "Vector store ID cannot be null or empty."
  const FileIdError: string := "File ID cannot be null or empty."
  const VectorStoreNameError: string := "VectorStoreName is required when creating a new vector store."
  const NotFound: string := "The requested resource was not found."

  /** Path.GetFileName with '/' as the only separator: the text after the
      last separator. */
  function FileName(path: string): string
  {
    if |path| == 0 || path[|path| - 1] == '/' then ""
    else FileName(path[..|path| - 1]) + [path[|path| - 1]]
  }

  /** The file name is the suffix of the path after its last separator, or
      the whole path when it has none. */
  lemma {:induction false} FileNameIsLastSegment(path: string)
    ensures var r := FileName(path);
            && '/' !in r
            && |r| <= |path| && path[|path| - |r|..] == r
            && (|r| < |path| ==> path[|path| - |r| - 1] == '/')
  {
    if |path| > 0 && path[|path| - 1] != '/' {
      var init := path[..|path| - 1];
      FileNameIsLastSegment(init);
      var r0 := FileName(init);
      var start := |init| - |r0|;
      assert init[start..] == path[start..|path| - 1];
      assert path[start..] == path[start..|path| - 1] + [path[|path| - 1]];
      if start > 0 {
        assert path[start - 1] == init[start - 1];
      }
    }
  }

  /** The ids not in `gone`, in order. */
  function Without(ids: seq<string>, gone: set<string>): (r: seq<string>)
    ensures |r| <= |ids|
  {
    if |ids| == 0 then []
    else (if ids[0] in gone then [] else [ids[0]]) + Without(ids[1..], gone)
  }

  lemma {:induction false} WithoutMembers(ids: seq<string>, gone: set<string>)
    ensures forall x :: x in Without(ids, gone) <==> x in ids && x !in gone
  {
    if |ids| > 0 {
      WithoutMembers(ids[1..], gone);
      assert forall x :: x in ids <==> x == ids[0] || x in ids[1..];
    }
  }

  lemma {:induction false} WithoutNothing(ids: seq<string>)
    ensures Without(ids, {}) == ids
  {
    if |ids| > 0 {
      WithoutNothing(ids[1..]);
      assert ids == [ids[0]] + ids[1..];
    }
  }

  /** Removing one set of ids and then another removes their union. */
  lemma {:induction false} WithoutTwice(ids: seq<string>, a: set<string>, b: set<string>)
    ensures Without(Without(ids, a), b) == Without(ids, a + b)
  {
    if |ids| > 0 {
      WithoutTwice(ids[1..], a, b);
      var head := if ids[0] in a then [] else [ids[0]];
      assert Without(ids, a) == head + Without(ids[1..], a);
      if ids[0] !in a {
        assert Without(ids, a)[0] == ids[0];
        assert Without(ids, a)[1..] == Without(ids[1..], a);
      } else {
        assert Without(ids, a) == Without(ids[1..], a);
      }
    }
  }

  lemma MapSubtractTwice(m: map<string, string>, a: set<string>, b: set<string>)
    ensures m - a - b == m - (a + b)
  {
  }

  /** The non-blank ids among `ids`. */
  function NonBlankIds(ids: seq<string>): set<string>
  {
    if |ids| == 0 then {}
    else NonBlankIds(ids[..|ids| - 1]) + (if IsBlank(ids[|ids| - 1]) then {} else {ids[|ids| - 1]})
  }

  lemma {:induction false} NonBlankIdsMembers(ids: seq<string>)
    ensures forall x :: x in NonBlankIds(ids) <==> x in ids && !IsBlank(x)
  {
    if |ids| > 0 {
      var init := ids[..|ids| - 1];
      NonBlankIdsMembers(init);
      assert forall x :: x in ids <==> x in init || x == ids[|ids| - 1];
    }
  }

  /** The files uploaded by the loop, added to the datasets in order. */
  function Uploaded(datasets: map<string, string>, paths: seq<string>, fileIds: seq<string>): (r: map<string, string>)
    requires |paths| == |fileIds|
  {
    if |paths| == 0 then datasets
    else Uploaded(datasets, paths[..|paths| - 1], fileIds[..|paths| - 1])[fileIds[|paths| - 1] := FileName(paths[|paths| - 1])]
  }

  /** An id is a dataset after the uploads exactly when it was one before or
      was uploaded. */
  lemma {:induction false} UploadedKey(datasets: map<string, string>, paths: seq<string>, fileIds: seq<string>, x: string)
    requires |paths| == |fileIds|
    ensures x in Uploaded(datasets, paths, fileIds) <==> x in datasets || x in fileIds
  {
    var n := |paths|;
    if n > 0 {
      UploadedKey(datasets, paths[..n - 1], fileIds[..n - 1], x);
      assert x in fileIds <==> x in fileIds[..n - 1] || x == fileIds[n - 1] by {
        assert fileIds == fileIds[..n - 1] + [fileIds[n - 1]];
      }
    }
  }

  /** A dataset that is not re-uploaded keeps its name. */
  lemma {:induction false} UploadedKeepsOthers(datasets: map<string, string>, paths: seq<string>, fileIds: seq<string>, x: string)
    requires |paths| == |fileIds| && x in datasets && x !in fileIds
    ensures x in Uploaded(datasets, paths, fileIds) && Uploaded(datasets, paths, fileIds)[x] == datasets[x]
  {
    var n := |paths|;
    if n > 0 {
      assert x !in fileIds[..n - 1];
      UploadedKeepsOthers(datasets, paths[..n - 1], fileIds[..n - 1], x);
    }
  }

  /** An upload not overwritten by a later one is named after its path. */
  lemma {:induction false} UploadedName(datasets: map<string, string>, paths: seq<string>, fileIds: seq<string>, i: nat)
    requires |paths| == |fileIds| && i < |fileIds| && fileIds[i] !in fileIds[i + 1..]
    ensures fileIds[i] in Uploaded(datasets, paths, fileIds)
    ensures Uploaded(datasets, paths, fileIds)[fileIds[i]] == FileName(paths[i])
  {
    var n := |paths|;
    if i < n - 1 {
      assert fileIds[n - 1] in fileIds[i + 1..];
      assert fileIds[..n - 1][i + 1..] == fileIds[i + 1..n - 1];
      UploadedName(datasets, paths[..n - 1], fileIds[..n - 1], i);
    }
  }

  /** The state after CleanVectorStore on a store that exists: its files
      with a non-blank id are removed from it and, when asked, from the
      datasets. */
  function AfterClean(s: FoundryState, id: string, removeFilesFromDatasets: bool): FoundryState
    requires id in s.stores
  {
    Cleaned(s, id, removeFilesFromDatasets, NonBlankIds(s.stores[id].fileIds))
  }

  /** The state once the ids in `gone` are removed from the store and, when
      asked, from the datasets. */
  function Cleaned(s: FoundryState, id: string, removeFilesFromDatasets: bool, gone: set<string>): FoundryState
    requires id in s.stores
  {
    FoundryState(s.stores[id := s.stores[id].(fileIds := Without(s.stores[id].fileIds, gone))],
                 if removeFilesFromDatasets then s.datasets - gone else s.datasets)
  }

  /** Removing nothing leaves the state as it was. */
  lemma CleanedNothing(s: FoundryState, id: string, removeFilesFromDatasets: bool)
    requires id in s.stores
    ensures Cleaned(s, id, removeFilesFromDatasets, {}) == s
  {
    WithoutNothing(s.stores[id].fileIds);
    assert s.stores[id := s.stores[id]] == s.stores;
    assert s.datasets - {} == s.datasets;
  }

  /** Removing one more file is deleting it from the store and, when asked,
      from the datasets. */
  lemma CleanedOneMore(s: FoundryState, id: string, removeFilesFromDatasets: bool, gone: set<string>, file: string)
    requires id in s.stores
    ensures var t := Cleaned(s, id, removeFilesFromDatasets, gone);
            Cleaned(s, id, removeFilesFromDatasets, gone + {file}) ==
              FoundryState(t.stores[id := t.stores[id].(fileIds := Without(t.stores[id].fileIds, {file}))],
                           if removeFilesFromDatasets then t.datasets - {file} else t.datasets)
  {
    WithoutTwice(s.stores[id].fileIds, gone, {file});
    MapSubtractTwice(s.datasets, gone, {file});
  }

  /** Cleaning keeps exactly the blank ids of the store, leaves every other
      store alone, and touches the datasets if and only if asked to. */
  lemma CleanRemovesNonBlankFiles(s: FoundryState, id: string, removeFilesFromDatasets: bool)
    requires id in s.stores
    ensures var t := AfterClean(s, id, removeFilesFromDatasets);
            && t.stores.Keys == s.stores.Keys
            && (forall x :: x in t.stores[id].fileIds <==> x in s.stores[id].fileIds && IsBlank(x))
            && t.stores[id].name == s.stores[id].name
            && (forall k :: k in s.stores && k != id ==> t.stores[k] == s.stores[k])
            && (!removeFilesFromDatasets ==> t.datasets == s.datasets)
            && (removeFilesFromDatasets ==>
                  forall x :: x in t.datasets <==> x in s.datasets && !(x in s.stores[id].fileIds && !IsBlank(x)))
  {
    var files := s.stores[id].fileIds;
    NonBlankIdsMembers(files);
    WithoutMembers(files, NonBlankIds(files));
  }

  /** The state after the upload loop of InitializeVectorStore: every file
      is uploaded and appended to the store, in request order. */
  function AfterUploads(s: FoundryState, storeId: string, paths: seq<string>, fileIds: seq<string>): FoundryState
    requires storeId in s.stores && |paths| == |fileIds|
  {
    FoundryState(s.stores[storeId := s.stores[storeId].(fileIds := s.stores[storeId].fileIds + fileIds)],
                 Uploaded(s.datasets, paths, fileIds))
  }

  /** One result per file, in request order, named by the path's last
      segment. */
  function FileResults(paths: seq<string>, fileIds: seq<string>): (r: seq<VectorStoreFileResult>)
    requires |paths| == |fileIds|
    ensures |r| == |paths|
    ensures forall i :: 0 <= i < |r| ==> r[i].fileId == fileIds[i] && r[i].fileName == FileName(paths[i])
  {
    seq(|paths|, i requires 0 <= i < |paths| => VectorStoreFileResult(fileIds[i], FileName(paths[i])))
  }

  /** The store the upload loop writes to and the state before the loop:
      the existing store (cleaned first when asked), or a newly created one. */
  function Prepared(s: FoundryState, request: InitializeVectorStoreRequest, newStoreId: string): (r: Result<(string, FoundryState)>)
    ensures r.Ok? ==> r.value.0 in r.value.1.stores
    ensures !IsNullOrWhiteSpace(request.vectorStoreId) ==>
              (r.Ok? <==> request.vectorStoreId.value in s.stores)
    ensures !IsNullOrWhiteSpace(request.vectorStoreId) && r.Ok? ==> r.value.0 == request.vectorStoreId.value
    ensures IsNullOrWhiteSpace(request.vectorStoreId) && IsNullOrWhiteSpace(request.vectorStoreName)
            ==> r == Err(Argument(VectorStoreNameError))
    ensures IsNullOrWhiteSpace(request.vectorStoreId) && !IsNullOrWhiteSpace(request.vectorStoreName) ==>
              r.Ok? && r.value.0 == newStoreId && r.value.1.stores[newStoreId] == VectorStore(request.vectorStoreName, [])
  {
    if !IsNullOrWhiteSpace(request.vectorStoreId) then
      var id := request.vectorStoreId.value;
      if id !in s.stores then Err(Vendor(NotFound))
      else if request.cleanVectorStore then Ok((id, AfterClean(s, id, request.cleanVectorStoreAndRemoveFilesFromDatasets)))
      else Ok((id, s))
    else if IsNullOrWhiteSpace(request.vectorStoreName) then Err(Argument(VectorStoreNameError))
    else Ok((newStoreId, s.(stores := s.stores[newStoreId := VectorStore(request.vectorStoreName, [])])))
  }

  /** The PersistentAgentsClientFacade methods over the service's state. */
  class Foundry {
    var stores: map<string, VectorStore>
    var datasets: map<string, string>

    function State(): FoundryState
      reads this
    {
      FoundryState(stores, datasets)
    }

    constructor(initial: FoundryState)
      ensures State() == initial
    {
      stores := initial.stores;
      datasets := initial.datasets;
    }

    /** GetVectorStoreFilesAsync: copy every file of the store, in order. */
    method GetVectorStoreFiles(vectorStoreId: Option<string>) returns (r: Result<seq<string>>)
      ensures IsNullOrWhiteSpace(vectorStoreId) ==> r == Err(Argument(VectorStoreIdError))
      ensures !IsNullOrWhiteSpace(vectorStoreId) && vectorStoreId.value !in stores ==> r == Err(Vendor(NotFound))
      ensures !IsNullOrWhiteSpace(vectorStoreId) && vectorStoreId.value in stores ==> r == Ok(stores[vectorStoreId.value].fileIds)
    {
      if IsNullOrWhiteSpace(vectorStoreId) {
        return Err(Argument(VectorStoreIdError));
      }
      if vectorStoreId.value !in stores {
        return Err(Vendor(NotFound));
      }
      var pageableFiles := stores[vectorStoreId.value].fileIds;
      var files: seq<string> := [];
      var i := 0;
      while i < |pageableFiles|
        invariant 0 <= i <= |pageableFiles|
        invariant files == pageableFiles[..i]
      {
        files := files + [pageableFiles[i]];
        i := i + 1;
      }
      assert pageableFiles[..i] == pageableFiles;
      return Ok(files);
    }

    /** DeleteVectorStoreFileAsync: both ids must be non-blank; the file
        leaves the store (the service reports whether it was there). */
    method DeleteVectorStoreFile(vectorStoreId: Option<string>, fileId: Option<string>) returns (r: Result<bool>)
      modifies this
      ensures IsNullOrWhiteSpace(vectorStoreId) ==> r == Err(Argument(VectorStoreIdError))
      ensures !IsNullOrWhiteSpace(vectorStoreId) && IsNullOrWhiteSpace(fileId) ==> r == Err(Argument(FileIdError))
      ensures !IsNullOrWhiteSpace(vectorStoreId) && !IsNullOrWhiteSpace(fileId) && vectorStoreId.value !in old(stores)
              ==> r == Err(Vendor(NotFound))
      ensures r.Ok? <==> !IsNullOrWhiteSpace(vectorStoreId) && !IsNullOrWhiteSpace(fileId) && vectorStoreId.value in old(stores)
      ensures r.Err? ==> State() == old(State())
      ensures r.Ok? ==>
                var store := old(stores)[vectorStoreId.value];
                && r.value == (fileId.value in store.fileIds)
                && stores == old(stores)[vectorStoreId.value := store.(fileIds := Without(store.fileIds, {fileId.value}))]
                && datasets == old(datasets)
    {
      if IsNullOrWhiteSpace(vectorStoreId) {
        return Err(Argument(VectorStoreIdError));
      }
      if IsNullOrWhiteSpace(fileId) {
        return Err(Argument(FileIdError));
      }
      var id := vectorStoreId.value;
      if id !in stores {
        return Err(Vendor(NotFound));
      }
      var store := stores[id];
      stores := stores[id := store.(fileIds := Without(store.fileIds, {fileId.value}))];
      r := Ok(fileId.value in store.fileIds);
    }

    /** DeleteFileAsync: a blank id is rejected; the file leaves the datasets. */
    method DeleteFile(fileId: Option<string>) returns (r: Result<()>)
      modifies this
      ensures IsNullOrWhiteSpace(fileId) ==> r == Err(Argument(FileIdError))
      ensures r.Ok? <==> !IsNullOrWhiteSpace(fileId)
      ensures r.Err? ==> State() == old(State())
      ensures r.Ok? ==> datasets == old(datasets) - {fileId.value} && stores == old(stores)
    {
      if IsNullOrWhiteSpace(fileId) {
        return Err(Argument(FileIdError));
      }
      datasets := datasets - {fileId.value};
      r := Ok(());
    }

    /** GetFileAsync: a blank id is rejected; otherwise the file's name. */
    method GetFile(fileId: Option<string>) returns (r: Result<string>)
      ensures IsNullOrWhiteSpace(fileId) ==> r == Err(Argument(FileIdError))
      ensures !IsNullOrWhiteSpace(fileId) ==>
                (r.Ok? <==> fileId.value in datasets) && (r.Ok? ==> r.value == datasets[fileId.value])
    {
      if IsNullOrWhiteSpace(fileId) {
        return Err(Argument(FileIdError));
      }
      if fileId.value !in datasets {
        return Err(Vendor(NotFound));
      }
      r := Ok(datasets[fileId.value]);
    }

    /** CleanVectorStoreAsync: list the store's files, then remove each one
        with a non-blank id from the store and, when asked, from the datasets. */
    method CleanVectorStore(vectorStoreId: Option<string>, removeFilesFromDatasets: bool) returns (r: Result<()>)
      modifies this
      ensures IsNullOrWhiteSpace(vectorStoreId) ==> r == Err(Argument(VectorStoreIdError))
      ensures r.Ok? <==> !IsNullOrWhiteSpace(vectorStoreId) && vectorStoreId.value in old(stores)
      ensures r.Err? ==> State() == old(State())
      ensures r.Ok? ==> State() == AfterClean(old(State()), vectorStoreId.value, removeFilesFromDatasets)
    {
      var listed := GetVectorStoreFiles(vectorStoreId);
      if listed.Err? {
        return Err(listed.error);
      }
      var id := vectorStoreId.value;
      var files := listed.value;
      ghost var start := State();
      CleanedNothing(start, id, removeFilesFromDatasets);
      var i := 0;
      while i < |files|
        invariant 0 <= i <= |files|
        invariant id in stores
        invariant State() == Cleaned(start, id, removeFilesFromDatasets, NonBlankIds(files[..i]))
      {
        var file := files[i];
        assert files[..i + 1][..i] == files[..i];
        assert NonBlankIds(files[..i + 1]) == NonBlankIds(files[..i]) + (if IsBlank(file) then {} else {file});
        if !IsBlank(file) {
          CleanedOneMore(start, id, removeFilesFromDatasets, NonBlankIds(files[..i]), file);
          assert !IsNullOrWhiteSpace(Some(file));
          var deleted := DeleteVectorStoreFile(vectorStoreId, Some(file));
          if removeFilesFromDatasets {
            var removed := DeleteFile(Some(file));
          }
        } else {
          assert NonBlankIds(files[..i + 1]) == NonBlankIds(files[..i]);
        }
        i := i + 1;
      }
      assert files[..i] == files;
      return Ok(());
    }

    /** The first half of InitializeVectorStoreAsync: reuse the store named
        by id (cleaning it first when asked) or create one, which needs a name. */
    method PrepareVectorStore(request: InitializeVectorStoreRequest, newStoreId: string) returns (r: Result<string>)
      modifies this
      ensures var p := Prepared(old(State()), request, newStoreId);
              && (r.Ok? <==> p.Ok?)
              && (p.Err? ==> r == Err(p.error) && State() == old(State()))
              && (p.Ok? ==> r.value == p.value.0 && State() == p.value.1)
    {
      if !IsNullOrWhiteSpace(request.vectorStoreId) {
        var storeId := request.vectorStoreId.value;
        if storeId !in stores {
          return Err(Vendor(NotFound));
        }
        if request.cleanVectorStore {
          var cleaned := CleanVectorStore(request.vectorStoreId, request.cleanVectorStoreAndRemoveFilesFromDatasets);
        }
        return Ok(storeId);
      }
      if IsNullOrWhiteSpace(request.vectorStoreName) {
        return Err(Argument(VectorStoreNameError));
      }
      stores := stores[newStoreId := VectorStore(request.vectorStoreName, [])];
      return Ok(newStoreId);
    }

    /** The second half of InitializeVectorStoreAsync: upload each file, add
        it to the store and record its result, in request order. */
    method UploadFiles(storeId: string, paths: seq<string>, uploadIds: seq<string>) returns (files: seq<VectorStoreFileResult>)
      requires storeId in stores && |paths| == |uploadIds|
      modifies this
      ensures files == FileResults(paths, uploadIds)
      ensures State() == AfterUploads(old(State()), storeId, paths, uploadIds)
    {
      ghost var before := State();
      assert before.stores[storeId].fileIds + uploadIds[..0] == before.stores[storeId].fileIds;
      assert before.stores[storeId := before.stores[storeId]] == before.stores;
      files := [];
      var i := 0;
      while i < |paths|
        invariant 0 <= i <= |paths|
        invariant stores == before.stores[storeId := before.stores[storeId].(fileIds := before.stores[storeId].fileIds + uploadIds[..i])]
        invariant datasets == Uploaded(before.datasets, paths[..i], uploadIds[..i])
        invariant |files| == i
        invariant forall j :: 0 <= j < i ==> files[j] == VectorStoreFileResult(uploadIds[j], FileName(paths[j]))
      {
        assert paths[..i + 1][..i] == paths[..i];
        assert uploadIds[..i + 1][..i] == uploadIds[..i];
        var fileName := FileName(paths[i]);
        datasets := datasets[uploadIds[i] := fileName];
        stores := stores[storeId := stores[storeId].(fileIds := stores[storeId].fileIds + [uploadIds[i]])];
        files := files + [VectorStoreFileResult(uploadIds[i], fileName)];
        assert uploadIds[..i + 1] == uploadIds[..i] + [uploadIds[i]];
        ghost var grown := before.stores[storeId].(fileIds := before.stores[storeId].fileIds + uploadIds[..i + 1]);
        assert stores[storeId] == grown;
        assert forall k :: k in stores <==> k in before.stores[storeId := grown];
        assert stores == before.stores[storeId := grown];
        i := i + 1;
      }
      assert paths[..i] == paths && uploadIds[..i] == uploadIds;
      assert State() == AfterUploads(before, storeId, paths, uploadIds);
    }

    /** InitializeVectorStoreAsync: prepare the store, then upload the files;
        the result names the store and lists one entry per file. */
    method InitializeVectorStore(request: Option<InitializeVectorStoreRequest>, newStoreId: string, uploadIds: seq<string>)
      returns (r: Result<VectorStoreInitializationResult>)
      requires request.Some? ==> |uploadIds| == |request.value.filePaths|
      modifies this
      ensures request.None? ==> r == Err(ArgumentNull("request"))
      ensures request.Some? ==> (r.Ok? <==> Prepared(old(State()), request.value, newStoreId).Ok?)
      ensures request.Some? && Prepared(old(State()), request.value, newStoreId).Err? ==>
                r == Err(Prepared(old(State()), request.value, newStoreId).error)
      ensures r.Err? ==> State() == old(State())
      ensures r.Ok? ==>
                var (storeId, before) := Prepared(old(State()), request.value, newStoreId).value;
                && r.value.vectorStoreId == storeId
                && r.value.vectorStoreName == OrEmpty(before.stores[storeId].name)
                && r.value.files == FileResults(request.value.filePaths, uploadIds)
                && State() == AfterUploads(before, storeId, request.value.filePaths, uploadIds)
    {
      if request.None? {
        return Err(ArgumentNull("request"));
      }
      var prepared := PrepareVectorStore(request.value, newStoreId);
      if prepared.Err? {
        return Err(prepared.error);
      }
      var storeId := prepared.value;
      var storeName := stores[storeId].name;
      var files := UploadFiles(storeId, request.value.filePaths, uploadIds);
      r := Ok(VectorStoreInitializationResult(OrEmpty(storeName), files, storeId));
    }
  }

  /** ListFilesAsync: the service's list, or an empty list when it returns
      none. */
  function ListFiles(response: Option<seq<string>>): (r: seq<string>)
    ensures response.None? ==> r == []
    ensures response.Some? ==> r == response.value
  {
    if response.Some? then response.value else []
  }

  /** Initialising with a store id never needs a name, and never creates a
      store; a new store is made only without an id, and then it needs a
      name. */
  lemma InitializeCreatesOnlyWithoutId(s: FoundryState, request: InitializeVectorStoreRequest, newStoreId: string)
    requires Prepared(s, request, newStoreId).Ok?
    ensures var (storeId, before) := Prepared(s, request, newStoreId).value;
            && (!IsNullOrWhiteSpace(request.vectorStoreId) ==> storeId == request.vectorStoreId.value && before.stores.Keys == s.stores.Keys)
            && (IsNullOrWhiteSpace(request.vectorStoreId) ==> !IsNullOrWhiteSpace(request.vectorStoreName) && storeId == newStoreId)
  {
  }

  /** After initialisation the store ends with the uploaded files, in
      request order, and each upload is a dataset named after its path. */
  lemma InitializeAppendsFilesInOrder(before: FoundryState, storeId: string, paths: seq<string>, uploadIds: seq<string>)
    requires storeId in before.stores && |paths| == |uploadIds|
    ensures var after := AfterUploads(before, storeId, paths, uploadIds);
            && after.stores[storeId].fileIds == before.stores[storeId].fileIds + uploadIds
            && (forall i :: 0 <= i < |uploadIds| && uploadIds[i] !in uploadIds[i + 1..] ==>
                  uploadIds[i] in after.datasets && after.datasets[uploadIds[i]] == FileName(paths[i]))
            && (forall k :: k in before.stores && k != storeId ==> after.stores[k] == before.stores[k])
  {
    var after := AfterUploads(before, storeId, paths, uploadIds);
    forall i | 0 <= i < |uploadIds| && uploadIds[i] !in uploadIds[i + 1..]
      ensures uploadIds[i] in after.datasets && after.datasets[uploadIds[i]] == FileName(paths[i])
    {
      UploadedName(before.datasets, paths, uploadIds, i);
    }
  }
}
