/** VectorChatMessageStore: chat history kept in a keyed vector-store
    collection ("ChatHistory"), one record per message, tagged with a thread
    key that is assigned lazily and survives serialisation. The collection is
    an in-memory map shared by every store built on the same VectorDb; the
    clock and the fresh key are inputs, and a message's JSON form is the
    message itself. */
module ChatMessageStore {
  import opened Common

  datatype ChatMessage = ChatMessage(messageId: Option<string>, text: string)

  /** ChatHistoryItem: Key, ThreadId, Timestamp (Unix seconds), the
      serialised message and its text. */
  datatype ChatHistoryItem = ChatHistoryItem(key: string, threadId: string, timestamp: int, message: ChatMessage, messageText: string)

  /** The kinds of JSON value the constructor tells apart. */
  datatype JsonElement = JsonString(s: string) | JsonNull | JsonOther

  /** How many records GetMessagesAsync asks for. */
  const Top: nat := 10

  /** The key a restored store starts with: only a JSON string carries one. */
  function RestoredKey(state: JsonElement): (r: Option<string>)
    ensures r.Some? <==> state.JsonString?
  {
    if state.JsonString? then Some(state.s) else None
  }

  /** Serialize: the key as a JSON string, or JSON null when there is none. */
  function SerializedKey(key: Option<string>): (r: JsonElement)
    ensures r.JsonString? <==> key.Some?
  {
    if key.Some? then JsonString(key.value) else JsonNull
  }

  /** Serialising a key and restoring from the result gives the key back. */
  lemma KeyRoundTrip(key: Option<string>)
    ensures RestoredKey(SerializedKey(key)) == key
  {
  }

  /** The records one AddMessagesAsync call writes: keyed by thread key and
      message id, tagged with the thread key. */
  function Records(threadKey: string, messages: seq<ChatMessage>, timestamps: seq<int>): (r: seq<ChatHistoryItem>)
    requires |timestamps| == |messages|
    ensures |r| == |messages|
    ensures forall i :: 0 <= i < |r| ==> r[i].threadId == threadKey && r[i].key == threadKey + OrEmpty(messages[i].messageId)
    ensures forall i :: 0 <= i < |r| ==> r[i].message == messages[i] && r[i].timestamp == timestamps[i]
  {
    seq(|messages|, i requires 0 <= i < |messages| =>
      ChatHistoryItem(threadKey + OrEmpty(messages[i].messageId), threadKey, timestamps[i], messages[i], messages[i].text))
  }

  /** The collection after upserting `items` in order. */
  function Upserted(collection: map<string, ChatHistoryItem>, items: seq<ChatHistoryItem>): map<string, ChatHistoryItem>
  {
    if |items| == 0 then collection
    else Upserted(collection, items[..|items| - 1])[items[|items| - 1].key := items[|items| - 1]]
  }

  /** An upserted record not overwritten by a later one is stored under its
      key. */
  lemma {:induction false} UpsertStores(collection: map<string, ChatHistoryItem>, items: seq<ChatHistoryItem>, i: nat)
    requires i < |items| && forall j :: i < j < |items| ==> items[j].key != items[i].key
    ensures items[i].key in Upserted(collection, items) && Upserted(collection, items)[items[i].key] == items[i]
  {
    var n := |items|;
    if i < n - 1 {
      UpsertStores(collection, items[..n - 1], i);
    }
  }

  /** Records under other keys are untouched. */
  lemma {:induction false} UpsertKeepsOthers(collection: map<string, ChatHistoryItem>, items: seq<ChatHistoryItem>, k: string)
    requires forall j :: 0 <= j < |items| ==> items[j].key != k
    ensures k in Upserted(collection, items) <==> k in collection
    ensures k in collection ==> Upserted(collection, items)[k] == collection[k]
  {
    if |items| > 0 {
      UpsertKeepsOthers(collection, items[..|items| - 1], k);
    }
  }

  /** Upserting keeps every record stored under its own key. */
  lemma {:induction false} UpsertKeepsKeyed(collection: map<string, ChatHistoryItem>, items: seq<ChatHistoryItem>)
    requires Keyed(collection)
    ensures Keyed(Upserted(collection, items))
  {
    if |items| > 0 {
      UpsertKeepsKeyed(collection, items[..|items| - 1]);
    }
  }

  /** Every record is stored under its own key. */
  ghost predicate Keyed(collection: map<string, ChatHistoryItem>)
  {
    forall k :: k in collection ==> collection[k].key == k
  }

  /** The keys of the thread's records; a store without a key matches none. */
  function Matching(collection: map<string, ChatHistoryItem>, threadKey: Option<string>): (r: set<string>)
    ensures forall k :: k in r <==> k in collection && threadKey == Some(collection[k].threadId)
  {
    set k | k in collection && threadKey == Some(collection[k].threadId)
  }

  function Min(a: nat, b: nat): nat
  {
    if a <= b then a else b
  }

  ghost predicate Distinct(keys: seq<string>)
  {
    forall i, j :: 0 <= i < j < |keys| ==> keys[i] != keys[j]
  }

  /** The answer to "the thread's `top` records, newest first": distinct
      records of the thread, as many as there are up to `top`, by
      non-increasing timestamp, none left out newer than the last one. */
  ghost predicate NewestFirst(collection: map<string, ChatHistoryItem>, threadKey: Option<string>, top: nat, keys: seq<string>)
  {
    && (forall i :: 0 <= i < |keys| ==> keys[i] in Matching(collection, threadKey))
    && Distinct(keys)
    && |keys| == Min(top, |Matching(collection, threadKey)|)
    && (forall i, j :: 0 <= i < j < |keys| ==> collection[keys[i]].timestamp >= collection[keys[j]].timestamp)
    && (|keys| > 0 ==> forall k :: k in Matching(collection, threadKey) && k !in keys ==>
          collection[k].timestamp <= collection[keys[|keys| - 1]].timestamp)
  }

  /** The same records oldest first, which is what GetMessagesAsync returns. */
  ghost predicate NewestInOrder(collection: map<string, ChatHistoryItem>, threadKey: Option<string>, keys: seq<string>)
  {
    && (forall i :: 0 <= i < |keys| ==> keys[i] in Matching(collection, threadKey))
    && Distinct(keys)
    && |keys| == Min(Top, |Matching(collection, threadKey)|)
    && (forall i, j :: 0 <= i < j < |keys| ==> collection[keys[i]].timestamp <= collection[keys[j]].timestamp)
    && (forall k :: k in Matching(collection, threadKey) && k !in keys ==>
          |keys| > 0 && collection[k].timestamp <= collection[keys[0]].timestamp)
  }

  function Reversed<T>(s: seq<T>): (r: seq<T>)
    ensures |r| == |s|
    ensures forall i :: 0 <= i < |s| ==> r[i] == s[|s| - 1 - i]
  {
    if |s| == 0 then [] else Reversed(s[1..]) + [s[0]]
  }

  /** Reversing the newest-first answer gives the oldest-first one. */
  lemma ReversedNewest(collection: map<string, ChatHistoryItem>, threadKey: Option<string>, keys: seq<string>)
    requires NewestFirst(collection, threadKey, Top, keys)
    ensures NewestInOrder(collection, threadKey, Reversed(keys))
  {
    var r := Reversed(keys);
    var n := |keys|;
    forall i, j | 0 <= i < j < n
      ensures r[i] != r[j] && collection[r[i]].timestamp <= collection[r[j]].timestamp
    {
      assert r[i] == keys[n - 1 - i] && r[j] == keys[n - 1 - j];
    }
    forall k | k in Matching(collection, threadKey) && k !in r
      ensures |r| > 0 && collection[k].timestamp <= collection[r[0]].timestamp
    {
      assert forall i :: 0 <= i < n ==> keys[i] == r[n - 1 - i];
      assert k !in keys;
    }
  }

  /** When the thread has at most `Top` records, every one of them is
      returned. */
  lemma NewestAllWhenFew(collection: map<string, ChatHistoryItem>, threadKey: Option<string>, keys: seq<string>)
    requires NewestInOrder(collection, threadKey, keys)
    requires |Matching(collection, threadKey)| <= Top
    ensures forall k :: k in keys <==> k in Matching(collection, threadKey)
  {
    var m := Matching(collection, threadKey);
    var picked := set i | 0 <= i < |keys| :: keys[i];
    assert picked <= m;
    DistinctCard(keys);
    assert m + picked == m;
    assert |m - picked| == 0;
    assert forall k :: k in keys <==> k in picked;
  }

  /** A sequence without repeats has as many distinct elements as entries. */
  lemma {:induction false} DistinctCard(keys: seq<string>)
    requires Distinct(keys)
    ensures |set i | 0 <= i < |keys| :: keys[i]| == |keys|
  {
    if |keys| > 0 {
      var init := keys[..|keys| - 1];
      DistinctCard(init);
      var a := set i | 0 <= i < |init| :: init[i];
      var b := set i | 0 <= i < |keys| :: keys[i];
      assert b == a + {keys[|keys| - 1]};
      assert keys[|keys| - 1] !in a;
    }
  }

  /** The in-memory vector store: the "ChatHistory" collection by key. */
  class VectorDb {
    var collection: map<string, ChatHistoryItem>

    ghost predicate Valid()
      reads this
    {
      Keyed(collection)
    }

    constructor()
      ensures Valid() && collection == map[]
    {
      collection := map[];
    }

    /** UpsertAsync: each record replaces the one with its key, in order. */
    method Upsert(items: seq<ChatHistoryItem>)
      requires Valid()
      modifies this
      ensures Valid()
      ensures collection == Upserted(old(collection), items)
    {
      var i := 0;
      while i < |items|
        invariant 0 <= i <= |items|
        invariant collection == Upserted(old(collection), items[..i])
      {
        assert items[..i + 1][..i] == items[..i];
        collection := collection[items[i].key := items[i]];
        i := i + 1;
      }
      assert items[..i] == items;
      UpsertKeepsKeyed(old(collection), items);
    }

    /** A record of `candidates` with the largest timestamp. */
    method Newest(candidates: set<string>) returns (best: string)
      requires candidates != {} && candidates <= collection.Keys
      ensures best in candidates
      ensures forall k :: k in candidates ==> collection[k].timestamp <= collection[best].timestamp
    {
      best :| best in candidates;
      var todo := candidates - {best};
      while todo != {}
        invariant todo <= candidates && best in candidates
        invariant forall k :: k in candidates && k !in todo ==> collection[k].timestamp <= collection[best].timestamp
        decreases todo
      {
        var k :| k in todo;
        if collection[k].timestamp > collection[best].timestamp {
          best := k;
        }
        todo := todo - {k};
      }
    }

    /** GetAsync with a thread filter, a top count and a descending
        timestamp order. */
    method GetNewestFirst(threadKey: Option<string>, top: nat) returns (keys: seq<string>)
      ensures NewestFirst(collection, threadKey, top, keys)
    {
      var matching := set k | k in collection && threadKey == Some(collection[k].threadId);
      assert matching == Matching(collection, threadKey);
      var remaining := matching;
      keys := [];
      while |keys| < top && remaining != {}
        invariant Selecting(collection, matching, keys, remaining)
        invariant |keys| <= top
        decreases remaining
      {
        var best := Newest(remaining);
        SelectingNext(collection, matching, keys, remaining, best);
        keys := keys + [best];
        remaining := remaining - {best};
      }
      if remaining != {} {
        assert |keys| == top;
      }
    }
  }

  /** The selection loop's invariant: `keys` are the newest of `matching`,
      newest first, and `remaining` the rest. */
  ghost predicate Selecting(collection: map<string, ChatHistoryItem>, matching: set<string>, keys: seq<string>, remaining: set<string>)
  {
    && matching <= collection.Keys
    && (forall k :: k in remaining <==> k in matching && k !in keys)
    && (forall i :: 0 <= i < |keys| ==> keys[i] in matching)
    && Distinct(keys)
    && |remaining| + |keys| == |matching|
    && (forall i, j :: 0 <= i < j < |keys| ==> collection[keys[i]].timestamp >= collection[keys[j]].timestamp)
    && (|keys| > 0 ==> forall k :: k in remaining ==> collection[k].timestamp <= collection[keys[|keys| - 1]].timestamp)
  }

  /** Taking the newest remaining record keeps the selection invariant. */
  lemma SelectingNext(collection: map<string, ChatHistoryItem>, matching: set<string>, keys: seq<string>,
                      remaining: set<string>, best: string)
    requires Selecting(collection, matching, keys, remaining)
    requires best in remaining
    requires forall k :: k in remaining ==> collection[k].timestamp <= collection[best].timestamp
    ensures Selecting(collection, matching, keys + [best], remaining - {best})
  {
    var next := keys + [best];
    assert best !in keys;
    assert forall i :: 0 <= i < |keys| ==> collection[keys[i]].timestamp >= collection[best].timestamp by {
      if |keys| > 0 {
        assert collection[keys[|keys| - 1]].timestamp >= collection[best].timestamp;
      }
    }
    assert forall i :: 0 <= i < |keys| ==> next[i] == keys[i];
    assert next[|keys|] == best;
  }

  /** List.Reverse: reverse an array in place. */
  method ReverseInPlace<T>(a: array<T>)
    modifies a
    ensures a[..] == Reversed(old(a[..]))
  {
    var i, j := 0, a.Length - 1;
    while i < j
      invariant 0 <= i && j == a.Length - 1 - i && 2 * i <= a.Length
      invariant forall k :: 0 <= k < i || j < k < a.Length ==> a[k] == old(a[a.Length - 1 - k])
      invariant forall k :: i <= k <= j ==> a[k] == old(a[k])
    {
      a[i], a[j] := a[j], a[i];
      i, j := i + 1, j - 1;
    }
  }

  class VectorChatMessageStore {
    const vectorStore: VectorDb
    var threadDbKey: Option<string>

    /** The constructor given a vector store: the key comes from the
        serialised state when that is a JSON string. */
    constructor(vectorStore: VectorDb, serializedStoreState: JsonElement)
      ensures this.vectorStore == vectorStore
      ensures threadDbKey == RestoredKey(serializedStoreState)
    {
      this.vectorStore := vectorStore;
      threadDbKey := if serializedStoreState.JsonString? then Some(serializedStoreState.s) else None;
    }

    /** AddMessagesAsync: take a fresh key if there is none yet, then upsert
        one record per message. */
    method AddMessages(messages: seq<ChatMessage>, freshKey: string, timestamps: seq<int>)
      requires |timestamps| == |messages|
      requires vectorStore.Valid()
      modifies this, vectorStore
      ensures threadDbKey == if old(threadDbKey).Some? then old(threadDbKey) else Some(freshKey)
      ensures vectorStore.Valid()
      ensures vectorStore.collection == Upserted(old(vectorStore.collection), Records(threadDbKey.value, messages, timestamps))
    {
      if threadDbKey.None? {
        threadDbKey := Some(freshKey);
      }
      vectorStore.Upsert(Records(threadDbKey.value, messages, timestamps));
    }

    /** GetMessagesAsync: the thread's ten newest records, oldest first.
        `keys` names the records the messages come from. */
    method GetMessages() returns (messages: seq<ChatMessage>, keys: seq<string>)
      ensures NewestInOrder(vectorStore.collection, threadDbKey, keys)
      ensures |messages| == |keys|
      ensures forall i :: 0 <= i < |keys| ==> messages[i] == vectorStore.collection[keys[i]].message
    {
      var records := vectorStore.GetNewestFirst(threadDbKey, Top);
      var a := new ChatMessage[|records|];
      var i := 0;
      while i < |records|
        invariant 0 <= i <= |records|
        invariant forall k :: 0 <= k < i ==> a[k] == vectorStore.collection[records[k]].message
      {
        a[i] := vectorStore.collection[records[i]].message;
        i := i + 1;
      }
      ghost var newestFirst := a[..];
      ReverseInPlace(a);
      messages := a[..];
      keys := Reversed(records);
      ReversedNewest(vectorStore.collection, threadDbKey, records);
      forall k | 0 <= k < |keys|
        ensures messages[k] == vectorStore.collection[keys[k]].message
      {
        assert messages[k] == newestFirst[|records| - 1 - k];
        assert keys[k] == records[|records| - 1 - k];
      }
    }

    /** Serialize: the thread key, for a later constructor to restore. */
    function Serialize(): (r: JsonElement)
      reads this
      ensures RestoredKey(r) == threadDbKey
    {
      SerializedKey(threadDbKey)
    }
  }

  /** The constructor's null check: a missing vector store is rejected. */
  method NewVectorChatMessageStore(vectorStore: VectorDb?, serializedStoreState: JsonElement)
    returns (r: Result<VectorChatMessageStore>)
    ensures vectorStore == null <==> r == Err(ArgumentNull("vectorStore"))
    ensures r.Ok? ==> fresh(r.value) && r.value.vectorStore == vectorStore
    ensures r.Ok? ==> r.value.threadDbKey == RestoredKey(serializedStoreState)
  {
    if vectorStore == null {
      return Err(ArgumentNull("vectorStore"));
    }
    var store := new VectorChatMessageStore(vectorStore, serializedStoreState);
    return Ok(store);
  }

  /** Every record an AddMessagesAsync call writes belongs to the thread and
      is found by the thread's query unless a later message shares its id. */
  lemma AddedMessagesBelongToThread(collection: map<string, ChatHistoryItem>, threadKey: string,
                                    messages: seq<ChatMessage>, timestamps: seq<int>, i: nat)
    requires |timestamps| == |messages| && i < |messages|
    requires forall j :: i < j < |messages| ==> OrEmpty(messages[j].messageId) != OrEmpty(messages[i].messageId)
    ensures var after := Upserted(collection, Records(threadKey, messages, timestamps));
            var k := threadKey + OrEmpty(messages[i].messageId);
            && k in Matching(after, Some(threadKey))
            && after[k].message == messages[i] && after[k].timestamp == timestamps[i]
  {
    var items := Records(threadKey, messages, timestamps);
    forall j | i < j < |items|
      ensures items[j].key != items[i].key
    {
      var a, b := OrEmpty(messages[j].messageId), OrEmpty(messages[i].messageId);
      assert (threadKey + a)[|threadKey|..] == a && (threadKey + b)[|threadKey|..] == b;
    }
    UpsertStores(collection, items, i);
  }
}
