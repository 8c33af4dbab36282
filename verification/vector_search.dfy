/** The search index: a meeting's collection name is its file name with '.' and ' ' replaced
    and cut to 50 characters; store mode adds one entry per chunk that has text; search mode
    asks for five results and returns the first list of documents. The vector store is a map
    from collection names to the entries added to them, in order. */
module VectorSearch {
  import opened Wrappers
  import opened Records

  /** Python's `s.replace(a, b)` for one-character `a` and `b`: every `a` becomes `b`. */
  function Replace(s: string, a: char, b: char): (r: string)
    ensures |r| == |s|
    ensures forall i :: 0 <= i < |s| ==> r[i] == if s[i] == a then b else s[i]
  {
    if s == [] then [] else Replace(s[..|s| - 1], a, b) + [if s[|s| - 1] == a then b else s[|s| - 1]]
  }

  /** What one character of a meeting name becomes in the collection name. */
  function SanitizedChar(c: char): char {
    if c == '.' || c == ' ' then '_' else c
  }

  /** `meeting_name.replace(".", "_").replace(" ", "_")[:50]` */
  function CollectionName(meetingName: string): string {
    var replaced := Replace(Replace(meetingName, '.', '_'), ' ', '_');
    replaced[..if |replaced| < 50 then |replaced| else 50]
  }

  /** The name keeps the first min(|m|, 50) characters, each replaced in place: no separator is
      collapsed or dropped, so the name has no '.' and no ' '. */
  lemma CollectionNameShape(m: string)
    ensures |CollectionName(m)| == if |m| < 50 then |m| else 50
    ensures forall i :: 0 <= i < |CollectionName(m)| ==> CollectionName(m)[i] == SanitizedChar(m[i])
    ensures '.' !in CollectionName(m) && ' ' !in CollectionName(m)
  {
    var name := CollectionName(m);
    forall i | 0 <= i < |name|
      ensures name[i] == SanitizedChar(m[i]) && name[i] != '.' && name[i] != ' '
    {
    }
  }

  /** Two meetings share a collection exactly when their names agree, character for character
      after replacement, on the first 50 characters. */
  lemma SameCollection(a: string, b: string)
    ensures CollectionName(a) == CollectionName(b) <==>
      (if |a| < 50 then |a| else 50) == (if |b| < 50 then |b| else 50) &&
      forall i :: 0 <= i < |a| && i < 50 ==> i < |b| && SanitizedChar(a[i]) == SanitizedChar(b[i])
  {
    CollectionNameShape(a);
    CollectionNameShape(b);
    var na, nb := CollectionName(a), CollectionName(b);
    if (if |a| < 50 then |a| else 50) == (if |b| < 50 then |b| else 50) &&
       forall i :: 0 <= i < |a| && i < 50 ==> i < |b| && SanitizedChar(a[i]) == SanitizedChar(b[i]) {
      assert |na| == |nb|;
      forall i | 0 <= i < |na|
        ensures na[i] == nb[i]
      {
      }
    }
  }

  /** Sanitising a collection name again changes nothing. */
  lemma CollectionNameIdempotent(m: string)
    ensures CollectionName(CollectionName(m)) == CollectionName(m)
  {
    var n := CollectionName(m);
    CollectionNameShape(m);
    CollectionNameShape(n);
    assert |CollectionName(n)| == |n|;
    forall i | 0 <= i < |n|
      ensures CollectionName(n)[i] == n[i]
    {
    }
  }

  /** Different meetings can share a collection: "a.b" and "a b" both become "a_b"; runs of
      separators are kept, one '_' each. */
  lemma CollectionNameExamples()
    ensures CollectionName("a.b") == CollectionName("a b") == "a_b"
    ensures CollectionName("a. b") == "a__b"
  {
    assert Replace("a.b", '.', '_') == "a_b";
    assert Replace("a_b", ' ', '_') == "a_b";
    assert Replace("a b", '.', '_') == "a b";
    assert Replace("a b", ' ', '_') == "a_b";
    assert Replace("a. b", '.', '_') == "a_ b";
    assert Replace("a_ b", ' ', '_') == "a__b";
  }

  /** A typical upload name: both the space and the extension's dot become '_'. */
  lemma CollectionNameOfUpload()
    ensures CollectionName("Team Sync 2024.mp4") == "Team_Sync_2024_mp4"
  {
    var m := "Team Sync 2024.mp4";
    var n := CollectionName(m);
    CollectionNameShape(m);
    assert |n| == 18;
    assert n[0] == 'T' && n[1] == 'e' && n[2] == 'a' && n[3] == 'm' && n[4] == '_';
    assert n[5] == 'S' && n[6] == 'y' && n[7] == 'n' && n[8] == 'c' && n[9] == '_';
    assert n[10] == '2' && n[11] == '0' && n[12] == '2' && n[13] == '4' && n[14] == '_';
    assert n[15] == 'm' && n[16] == 'p' && n[17] == '4';
  }

  /** One entry of a collection: the id, the document and its "timestamp" metadata (the
      embedding vector itself is not modelled). */
  datatype Entry = Entry(id: string, document: string, timestamp: string)

  /** `str(chunk.get('start', 0))`: a missing start renders as the integer 0; a present one as
      Python renders that float, which is given as `render`. */
  function StartText(start: Option<real>, render: real -> string): string {
    match start
    case None => "0"
    case Some(x) => render(x)
  }

  /** The entry added for a chunk: the id uses the meeting name as given, not the collection
      name. */
  function EntryFor(meetingName: string, c: Chunk, render: real -> string): Entry {
    Entry(meetingName + "_" + StartText(c.start, render), TextOf(c), c.timestamp.GetOr(""))
  }

  /** The entries store mode adds for `chunks`, in order: chunks without text are skipped. */
  function Stored(meetingName: string, chunks: seq<Chunk>, render: real -> string): seq<Entry> {
    if chunks == [] then []
    else
      var last := chunks[|chunks| - 1];
      Stored(meetingName, chunks[..|chunks| - 1], render) +
        (if TextOf(last) != "" then [EntryFor(meetingName, last, render)] else [])
  }

  /** One more chunk of the transcript adds its entry when it has text, and nothing otherwise. */
  lemma StoredSnoc(m: string, chunks: seq<Chunk>, i: nat, render: real -> string)
    requires i < |chunks|
    ensures Stored(m, chunks[..i + 1], render) ==
      Stored(m, chunks[..i], render) + (if TextOf(chunks[i]) != "" then [EntryFor(m, chunks[i], render)] else [])
  {
    assert chunks[..i + 1][..i] == chunks[..i];
  }

  /** Storing a transcript in two parts adds what storing it at once does. */
  lemma {:induction false} StoredAppend(m: string, a: seq<Chunk>, b: seq<Chunk>, render: real -> string)
    ensures Stored(m, a + b, render) == Stored(m, a, render) + Stored(m, b, render)
  {
    if b != [] {
      var init := b[..|b| - 1];
      assert (a + b)[..|a + b| - 1] == a + init;
      assert (a + b)[|a + b| - 1] == b[|b| - 1];
      StoredAppend(m, a, init, render);
    } else {
      assert a + b == a;
    }
  }

  /** Every chunk with text is stored, at its place in transcript order: its entry comes after
      those of the chunks before it and before those of the chunks after it. */
  lemma StoredAt(m: string, chunks: seq<Chunk>, i: nat, render: real -> string)
    requires i < |chunks| && TextOf(chunks[i]) != ""
    ensures Stored(m, chunks, render) ==
      Stored(m, chunks[..i], render) + [EntryFor(m, chunks[i], render)] + Stored(m, chunks[i + 1..], render)
  {
    assert chunks == chunks[..i] + [chunks[i]] + chunks[i + 1..];
    StoredAppend(m, chunks[..i] + [chunks[i]], chunks[i + 1..], render);
    StoredAppend(m, chunks[..i], [chunks[i]], render);
    assert Stored(m, [chunks[i]], render) == [EntryFor(m, chunks[i], render)];
  }

  /** Only chunks with text are stored: every entry is the entry of such a chunk, so its
      document is non-empty and its id starts with the raw meeting name and "_". */
  lemma {:induction false} StoredFromChunks(m: string, chunks: seq<Chunk>, render: real -> string)
    ensures forall e :: e in Stored(m, chunks, render) ==>
      exists i :: 0 <= i < |chunks| && TextOf(chunks[i]) != "" && e == EntryFor(m, chunks[i], render)
    ensures forall e :: e in Stored(m, chunks, render) ==>
      e.document != "" && |e.id| > |m| && e.id[..|m| + 1] == m + "_"
  {
    if chunks != [] {
      var init := chunks[..|chunks| - 1];
      StoredFromChunks(m, init, render);
      forall e | e in Stored(m, chunks, render)
        ensures exists i :: 0 <= i < |chunks| && TextOf(chunks[i]) != "" && e == EntryFor(m, chunks[i], render)
      {
        if e in Stored(m, init, render) {
          var i :| 0 <= i < |init| && TextOf(init[i]) != "" && e == EntryFor(m, init[i], render);
          assert chunks[i] == init[i];
        } else {
          assert e == EntryFor(m, chunks[|chunks| - 1], render);
        }
      }
      forall e | e in Stored(m, chunks, render)
        ensures e.document != "" && |e.id| > |m| && e.id[..|m| + 1] == m + "_"
      {
        var i :| 0 <= i < |chunks| && TextOf(chunks[i]) != "" && e == EntryFor(m, chunks[i], render);
        assert e.id == (m + "_") + StartText(chunks[i].start, render);
      }
    }
  }

  /** The number of chunks that have text. */
  function TextCount(chunks: seq<Chunk>): nat {
    if chunks == [] then 0
    else TextCount(chunks[..|chunks| - 1]) + (if TextOf(chunks[|chunks| - 1]) != "" then 1 else 0)
  }

  /** One entry per chunk with text: all chunks are stored exactly when none is empty. */
  lemma {:induction false} StoredCount(m: string, chunks: seq<Chunk>, render: real -> string)
    ensures |Stored(m, chunks, render)| == TextCount(chunks) <= |chunks|
    ensures TextCount(chunks) == |chunks| <==> forall i :: 0 <= i < |chunks| ==> TextOf(chunks[i]) != ""
  {
    if chunks != [] {
      var init := chunks[..|chunks| - 1];
      StoredCount(m, init, render);
      if TextCount(chunks) == |chunks| {
        forall i | 0 <= i < |chunks|
          ensures TextOf(chunks[i]) != ""
        {
          if i < |init| {
            assert chunks[i] == init[i];
          }
        }
      }
      if forall i :: 0 <= i < |chunks| ==> TextOf(chunks[i]) != "" {
        assert forall i :: 0 <= i < |init| ==> TextOf(init[i]) != "" by {
          forall i | 0 <= i < |init|
            ensures TextOf(init[i]) != ""
          {
            assert init[i] == chunks[i];
          }
        }
      }
    }
  }

  /** The id keeps the raw name while the collection uses the sanitised one; a chunk with no
      start is stored under "<name>_0" and a missing timestamp becomes "". */
  lemma EntryExample(render: real -> string)
    ensures EntryFor("a b.mp4", Chunk(None, None, Some("hi"), None), render) == Entry("a b.mp4_0", "hi", "")
    ensures CollectionName("a b.mp4") == "a_b_mp4"
  {
    assert Replace(Replace("a b.mp4", '.', '_'), ' ', '_') == "a_b_mp4";
  }

  /** What the embedding and adding of the chunks does: it succeeds, or the call for the chunk
      at `index` (which must have text, since only those are encoded) raises with `cause`. */
  datatype StoreFault = NoFault | FailsAt(index: nat, cause: string)

  /** The position of the chunk whose embedding or add raises, or |chunks| when the fault
      names no chunk with text. */
  function StopIndex(chunks: seq<Chunk>, fault: StoreFault): nat {
    if fault.FailsAt? && fault.index < |chunks| && TextOf(chunks[fault.index]) != "" then fault.index
    else |chunks|
  }

  /** How store mode ends: the store's refusal of the collection name, else the exception of
      the first chunk with text whose embedding or add raises, else normally. */
  function StoreResult(chunks: seq<Chunk>, rejected: Option<string>, fault: StoreFault): Result<(), string> {
    if rejected.Some? then Failure(rejected.value)
    else if StopIndex(chunks, fault) < |chunks| then Failure(fault.cause)
    else Success(())
  }

  /** A refused collection name fails store mode even for a transcript with no text at all,
      while an accepted name with no chunk of text always stores successfully. */
  lemma RefusedNameFailsEmptyStore(chunks: seq<Chunk>, cause: string, fault: StoreFault)
    requires forall k :: 0 <= k < |chunks| ==> TextOf(chunks[k]) == ""
    ensures StoreResult(chunks, Some(cause), fault) == Failure(cause)
    ensures StoreResult(chunks, None, fault) == Success(())
  {
  }

  /** The answer of a collection query: its "documents" field, one list per query embedding,
      or None when the field is missing or None. */
  datatype QueryResponse = QueryResponse(documents: Option<seq<seq<string>>>)

  /** `results.get("documents", [[]])[0] if results.get("documents") else []` */
  function FirstDocuments(response: QueryResponse): (docs: seq<string>)
    ensures response.documents.None? ==> docs == []
    ensures response.documents.Some? && response.documents.value == [] ==> docs == []
    ensures response.documents.Some? && response.documents.value != [] ==> docs == response.documents.value[0]
  {
    match response.documents
    case None => []
    case Some(lists) => if lists == [] then [] else lists[0]
  }

  /** The number of results requested by search mode. */
  const SearchResults: nat := 5

  /** When the store honours the requested number of results, a search returns at most five
      documents, all of them from the answer's first list. */
  lemma SearchBounded(response: QueryResponse)
    requires response.documents.Some? ==>
      forall k :: 0 <= k < |response.documents.value| ==> |response.documents.value[k]| <= SearchResults
    ensures |FirstDocuments(response)| <= 5
    ensures FirstDocuments(response) != [] ==>
      response.documents.Some? && response.documents.value != [] &&
      FirstDocuments(response) == response.documents.value[0]
  {
  }

  /** The in-memory vector store (`chromadb.Client()`): every collection's entries in the order
      they were added. A collection is the log of its `add` calls, and a query answer is
      computed from that log. */
  class ChromaClient {
    var collections: map<string, seq<Entry>>

    /** `initialize_chroma()` */
    constructor()
      ensures collections == map[]
    {
      collections := map[];
    }

    /** The entries of a collection, empty for one not created yet. */
    function Contents(name: string): seq<Entry>
      reads this
    {
      if name in collections then collections[name] else []
    }

    /** `get_or_create_collection(name)`: creates an empty collection if there is none.
        `rejects` is the store's verdict on a name: `None` when it accepts it, or the message
        of the ValueError it raises for a name it refuses; a refused name leaves the store as
        it was. */
    method GetOrCreateCollection(name: string, rejects: string -> Option<string>)
      returns (outcome: Result<(), string>)
      modifies this
      ensures rejects(name).Some? ==> outcome == Failure(rejects(name).value) && collections == old(collections)
      ensures rejects(name).None? ==>
        outcome.Success? && collections == old(collections)[name := old(Contents(name))]
    {
      match rejects(name)
      case Some(cause) =>
        return Failure(cause);
      case None =>
        if name !in collections {
          collections := collections[name := []];
        }
        return Success(());
    }

    /** `collection.add(...)` of one entry. */
    method Add(name: string, e: Entry)
      requires name in collections
      modifies this
      ensures collections == old(collections)[name := old(collections[name]) + [e]]
    {
      collections := collections[name := collections[name] + [e]];
    }

    /** `embed_and_search(data, meeting_name, client)` in store mode. When the store refuses
        the collection name, its error propagates before any chunk is looked at and nothing
        changes. Otherwise the collection named after the meeting receives the entries of the
        chunks with text, in order, up to the chunk whose embedding or add raises; an exception
        propagates with its cause, and what was added before it stays. No other collection
        changes. */
    method EmbedAndStore(data: seq<Chunk>, meetingName: string, render: real -> string,
                         rejects: string -> Option<string>, fault: StoreFault)
      returns (outcome: Result<(), string>)
      modifies this
      ensures var name := CollectionName(meetingName);
        outcome.Failure? <==>
          rejects(name).Some? || (fault.FailsAt? && fault.index < |data| && TextOf(data[fault.index]) != "")
      ensures var name := CollectionName(meetingName);
        outcome.Failure? ==> outcome.error == if rejects(name).Some? then rejects(name).value else fault.cause
      ensures outcome == StoreResult(data, rejects(CollectionName(meetingName)), fault)
      ensures var name := CollectionName(meetingName);
        collections ==
          if rejects(name).Some? then old(collections)
          else old(collections)[name := old(Contents(name)) + Stored(meetingName, data[..StopIndex(data, fault)], render)]
    {
      var name := CollectionName(meetingName);
      var created := GetOrCreateCollection(name, rejects);
      if created.Failure? {
        return created;
      }
      outcome := StoreChunks(name, data, meetingName, render, fault);
    }

    /** The `for chunk in data` loop of store mode on the collection `name`: a chunk without
        text is skipped; a chunk with text is encoded and added, unless its encoding or add
        raises, which ends the loop with that exception's cause. */
    method StoreChunks(name: string, data: seq<Chunk>, meetingName: string, render: real -> string,
                       fault: StoreFault)
      returns (outcome: Result<(), string>)
      requires name in collections
      modifies this
      ensures outcome ==
        if fault.FailsAt? && fault.index < |data| && TextOf(data[fault.index]) != "" then Failure(fault.cause)
        else Success(())
      ensures collections ==
        old(collections)[name := old(collections[name]) + Stored(meetingName, data[..StopIndex(data, fault)], render)]
    {
      ghost var before := collections;
      assert Stored(meetingName, data[..0], render) == [] && before[name] + [] == before[name];
      assert before[name := before[name]] == before;
      var i := 0;
      while i < |data|
        invariant 0 <= i <= |data|
        invariant !(fault.FailsAt? && fault.index < i && TextOf(data[fault.index]) != "")
        invariant collections == before[name := before[name] + Stored(meetingName, data[..i], render)]
      {
        var chunk := data[i];
        var text := TextOf(chunk);
        StoredSnoc(meetingName, data, i, render);
        if text != "" {
          if fault.FailsAt? && fault.index == i {
            return Failure(fault.cause);
          }
          var entry := Entry(meetingName + "_" + StartText(chunk.start, render), text, chunk.timestamp.GetOr(""));
          ghost var prior := collections[name];
          Add(name, entry);
          assert prior + [entry] == before[name] + Stored(meetingName, data[..i + 1], render);
          assert collections == before[name := before[name] + Stored(meetingName, data[..i + 1], render)];
        } else {
          assert Stored(meetingName, data[..i + 1], render) == Stored(meetingName, data[..i], render);
        }
        i := i + 1;
      }
      assert data[..|data|] == data;
      return Success(());
    }

    /** `embed_and_search(query, meeting_name, client, search_mode=True)`. The collection is
        created if missing (so a search on an unknown meeting leaves an empty collection
        behind), and a refused name raises before the query; `respond` is the store's answer to
        a query over that collection's entries with the query text and the requested count. */
    method Search(query: string, meetingName: string, rejects: string -> Option<string>,
                  respond: (seq<Entry>, string, nat) -> QueryResponse) returns (docs: Result<seq<string>, string>)
      modifies this
      ensures var name := CollectionName(meetingName);
        rejects(name).Some? ==> docs == Failure(rejects(name).value) && collections == old(collections)
      ensures var name := CollectionName(meetingName);
        rejects(name).None? ==>
          collections == old(collections)[name := old(Contents(name))] &&
          docs == Success(FirstDocuments(respond(old(Contents(name)), query, SearchResults)))
    {
      var name := CollectionName(meetingName);
      var created := GetOrCreateCollection(name, rejects);
      if created.Failure? {
        return Failure(created.error);
      }
      var results := respond(collections[name], query, 5);
      docs := Success(if results.documents.Some? && results.documents.value != [] then results.documents.value[0] else []);
    }
  }
}
