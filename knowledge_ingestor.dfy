/**
  Knowledge-base ingestion (`ingest_knowledge_base`): every regular file of
  the knowledge directory is cut into chunks, each chunk is embedded, its
  embedding length is checked, and the chunk is written to the key-value store
  under `"embedding:" + chunk_id`; the response reads the written records back
  in ingestion order. An embedding failure or a wrong embedding length aborts
  the request with a 500 naming the file; what was written before stays.

  The embedding provider, the uuid generator and the clock are inputs: the
  `n`-th embedding call of the request, on text `t`, returns `embed(n, t)`, and
  the `n`-th uuid and timestamp drawn are `uuid(n)` and `clock(n)`. Every
  accepted chunk makes one call and one draw, and a rejected one ends the
  request, so the call for a chunk has the same index as its draw.
*/
module KnowledgeIngestor {
  import opened Wrappers
  import opened Chunking

  /** An entry of the knowledge directory listing: its name, whether it is a regular file, and its text. */
  datatype DirEntry = DirEntry(name: string, isFile: bool, content: string)

  /** What the embedding provider returned for one chunk. */
  datatype Embedding = Embedded(vector: seq<real>) | EmbeddingError(message: string)

  /** The request's external inputs and its configuration (`VECTOR_DIMENSIONS`). */
  datatype Env = Env(embed: (nat, string) -> Embedding, uuid: nat -> string, clock: nat -> real, dimensions: int)

  /** The `metadata` field of a stored chunk. */
  datatype Metadata = Metadata(filename: string, chunkId: string, timestamp: real, source: string)

  /** The hash stored for one chunk. */
  datatype StoredRecord = StoredRecord(content: string, vector: seq<real>, metadata: Metadata)

  type Store = map<string, StoredRecord>

  /** One element of the response's `chunks` list; `metadata` is None when the record was not found. */
  datatype ChunkDetail = ChunkDetail(chunkId: string, content: string, vector: seq<real>, metadata: Option<Metadata>)

  datatype IngestResponse =
    | DirectoryNotFound
    | IngestFailed(error: string)
    | IngestComplete(chunks: seq<ChunkDetail>, indexName: string)

  function StatusCode(response: IngestResponse): int {
    match response
    case DirectoryNotFound => 404
    case IngestFailed(_) => 500
    case IngestComplete(_, _) => 200
  }

  const Source := "api_policies"

  /** The store key of a chunk. */
  function StoreKey(chunkId: string): (key: string)
    ensures |key| == 10 + |chunkId| && key[..10] == "embedding:" && key[10..] == chunkId
  {
    "embedding:" + chunkId
  }

  lemma StoreKeyInjective(a: string, b: string)
    requires StoreKey(a) == StoreKey(b)
    ensures a == b
  {
    assert a == StoreKey(a)[10..] == StoreKey(b)[10..] == b;
  }

  /** The chunks still to be ingested, each with the name of its file. */
  type Work = seq<(string, string)>

  /** Every chunk of every regular file, files in listing order and chunks in slice order. */
  function AllChunks(entries: seq<DirEntry>): Work {
    if entries == [] then []
    else
      var here := if entries[0].isFile then FileChunks(entries[0].name, Chunks(entries[0].content)) else [];
      here + AllChunks(entries[1..])
  }

  /** The chunks of one file, each paired with the file's name. */
  function FileChunks(filename: string, chunks: seq<string>): Work {
    seq(|chunks|, k requires 0 <= k < |chunks| => (filename, chunks[k]))
  }

  /** The chunk texts of some work, in order. */
  function Texts(work: Work): seq<string> {
    seq(|work|, k requires 0 <= k < |work| => work[k].1)
  }

  /**
    The work a regular file contributes carries the file's name on every chunk,
    and its chunk texts, joined in order, are the file's content.
  */
  lemma FileChunksRejoin(filename: string, content: string)
    ensures forall k :: 0 <= k < |FileChunks(filename, Chunks(content))| ==> FileChunks(filename, Chunks(content))[k].0 == filename
    ensures Concat(Texts(FileChunks(filename, Chunks(content)))) == content
  {
    assert Texts(FileChunks(filename, Chunks(content))) == Chunks(content);
    ChunksConcat(content);
  }

  /** The error message of the 500 response: both name the file. */
  function EmbeddingFailedMessage(filename: string, message: string): (error: string)
    ensures 21 + |filename| <= |error| && error[21..21 + |filename|] == filename
  {
    "Embedding failed for " + filename + ": " + message
  }

  function DimensionMismatchMessage(filename: string): (error: string)
    ensures 33 <= |error| && error[33..] == filename
  {
    "Embedding dimension mismatch for " + filename
  }

  /** The `n`-th embedding call, on `chunk`, is accepted: it succeeded and the length is `VECTOR_DIMENSIONS`. */
  predicate Accepted(env: Env, n: nat, chunk: string) {
    env.embed(n, chunk).Embedded? && |env.embed(n, chunk).vector| == env.dimensions
  }

  /** The error response for a chunk whose embedding is not accepted. */
  function RejectMessage(env: Env, n: nat, filename: string, chunk: string): string
    requires !Accepted(env, n, chunk)
  {
    match env.embed(n, chunk)
    case EmbeddingError(message) => EmbeddingFailedMessage(filename, message)
    case Embedded(_) => DimensionMismatchMessage(filename)
  }

  /** What the request has done so far: the store, the ids ingested, and how many uuids were drawn. */
  datatype Progress = Progress(store: Store, ingested: seq<string>, minted: nat)

  datatype Outcome = Continue(progress: Progress) | Abort(store: Store, error: string) {
    /** The store as the steps taken so far left it, whether or not the loop stopped. */
    function StoreAfter(): Store {
      if Continue? then progress.store else store
    }
  }

  /** The record written for a chunk whose id is the `n`-th uuid. */
  function RecordOf(env: Env, filename: string, chunk: string, n: nat): StoredRecord
    requires Accepted(env, n, chunk)
  {
    StoredRecord(chunk, env.embed(n, chunk).vector, Metadata(filename, env.uuid(n), env.clock(n), Source))
  }

  /**
    The body of the inner loop for one chunk: a rejected embedding stops the
    request with the file's error and the store as it was; an accepted one
    draws the next uuid, records it, and writes the chunk under its key,
    leaving every other key as it was.
  */
  function IngestChunk(env: Env, filename: string, chunk: string, p: Progress): (o: Outcome)
    ensures o.Abort? <==> !Accepted(env, p.minted, chunk)
    ensures o.Abort? ==> o.store == p.store && o.error == RejectMessage(env, p.minted, filename, chunk)
    ensures o.Continue? ==>
      var id := env.uuid(p.minted);
      && o.progress.ingested == p.ingested + [id]
      && o.progress.minted == p.minted + 1
      && o.progress.store.Keys == p.store.Keys + {StoreKey(id)}
      && o.progress.store[StoreKey(id)] == StoredRecord(chunk, env.embed(p.minted, chunk).vector, Metadata(filename, id, env.clock(p.minted), Source))
      && (forall key :: key in p.store && key != StoreKey(id) ==> o.progress.store[key] == p.store[key])
  {
    if !Accepted(env, p.minted, chunk) then Abort(p.store, RejectMessage(env, p.minted, filename, chunk))
    else
      var id := env.uuid(p.minted);
      Continue(Progress(p.store[StoreKey(id) := RecordOf(env, filename, chunk, p.minted)], p.ingested + [id], p.minted + 1))
  }

  /** The inner loop over the chunks of one file. */
  function IngestChunks(env: Env, filename: string, chunks: seq<string>, p: Progress): Outcome {
    if chunks == [] then Continue(p)
    else
      match IngestChunk(env, filename, chunks[0], p)
      case Abort(s, e) => Abort(s, e)
      case Continue(q) => IngestChunks(env, filename, chunks[1..], q)
  }

  /** The outer loop over the directory listing; entries that are not regular files are skipped. */
  function IngestFiles(env: Env, entries: seq<DirEntry>, p: Progress): Outcome {
    if entries == [] then Continue(p)
    else if !entries[0].isFile then IngestFiles(env, entries[1..], p)
    else
      match IngestChunks(env, entries[0].name, Chunks(entries[0].content), p)
      case Abort(s, e) => Abort(s, e)
      case Continue(q) => IngestFiles(env, entries[1..], q)
  }

  /** The same loop flattened: one step per chunk of `AllChunks` (the reference definition). */
  function IngestAll(env: Env, work: Work, p: Progress): Outcome {
    if work == [] then Continue(p)
    else
      match IngestChunk(env, work[0].0, work[0].1, p)
      case Abort(s, e) => Abort(s, e)
      case Continue(q) => IngestAll(env, work[1..], q)
  }

  /** The response entry read back for one chunk id. */
  function DetailOf(store: Store, chunkId: string): (detail: ChunkDetail)
    ensures detail.chunkId == chunkId
    ensures detail.metadata.Some? <==> StoreKey(chunkId) in store
    ensures StoreKey(chunkId) in store ==>
      var rec := store[StoreKey(chunkId)];
      detail.content == rec.content && detail.vector == rec.vector && detail.metadata == Some(rec.metadata)
    ensures StoreKey(chunkId) !in store ==> detail.content == "" && detail.vector == []
  {
    var key := StoreKey(chunkId);
    if key in store then ChunkDetail(chunkId, store[key].content, store[key].vector, Some(store[key].metadata))
    else ChunkDetail(chunkId, "", [], None)
  }

  /** The response's `chunks` list: one entry per ingested id, in ingestion order. */
  function ReadBack(store: Store, ingested: seq<string>): (details: seq<ChunkDetail>)
    ensures |details| == |ingested|
    ensures forall k :: 0 <= k < |ingested| ==> details[k].chunkId == ingested[k]
  {
    seq(|ingested|, k requires 0 <= k < |ingested| => DetailOf(store, ingested[k]))
  }

  /** The whole request: the store afterwards and the response. */
  function Ingest(env: Env, dirExists: bool, entries: seq<DirEntry>, store: Store, indexName: string)
    : (Store, IngestResponse)
  {
    if !dirExists then (store, DirectoryNotFound)
    else
      match IngestFiles(env, entries, Progress(store, [], 0))
      case Abort(s, e) => (s, IngestFailed(e))
      case Continue(p) => (p.store, IngestComplete(ReadBack(p.store, p.ingested), indexName))
  }

  /** Running the flat loop over `a + b` is running it over `a`, then over `b` unless `a` aborted. */
  lemma {:induction false} IngestAllAppend(env: Env, a: Work, b: Work, p: Progress)
    ensures IngestAll(env, a + b, p) ==
      match IngestAll(env, a, p)
      case Abort(s, e) => Abort(s, e)
      case Continue(q) => IngestAll(env, b, q)
  {
    if a == [] {
      assert a + b == b;
    } else {
      assert (a + b)[0] == a[0];
      assert (a + b)[1..] == a[1..] + b;
      match IngestChunk(env, a[0].0, a[0].1, p)
      case Abort(s, e) =>
      case Continue(q) => IngestAllAppend(env, a[1..], b, q);
    }
  }

  lemma {:induction false} IngestChunksIsFlat(env: Env, filename: string, chunks: seq<string>, p: Progress)
    ensures IngestChunks(env, filename, chunks, p) == IngestAll(env, FileChunks(filename, chunks), p)
  {
    if chunks != [] {
      assert FileChunks(filename, chunks)[1..] == FileChunks(filename, chunks[1..]);
      match IngestChunk(env, filename, chunks[0], p)
      case Abort(s, e) =>
      case Continue(q) => IngestChunksIsFlat(env, filename, chunks[1..], q);
    }
  }

  /** The nested file and chunk loops do exactly what one loop over `AllChunks` does. */
  lemma {:induction false} IngestFilesIsFlat(env: Env, entries: seq<DirEntry>, p: Progress)
    ensures IngestFiles(env, entries, p) == IngestAll(env, AllChunks(entries), p)
  {
    if entries != [] {
      var e := entries[0];
      if !e.isFile {
        assert AllChunks(entries) == [] + AllChunks(entries[1..]);
        assert [] + AllChunks(entries[1..]) == AllChunks(entries[1..]);
        IngestFilesIsFlat(env, entries[1..], p);
      } else {
        var here := FileChunks(e.name, Chunks(e.content));
        IngestChunksIsFlat(env, e.name, Chunks(e.content), p);
        IngestAllAppend(env, here, AllChunks(entries[1..]), p);
        match IngestChunks(env, e.name, Chunks(e.content), p)
        case Abort(s, err) =>
        case Continue(q) => IngestFilesIsFlat(env, entries[1..], q);
      }
    }
  }

  /**
    The index of the first chunk whose embedding is not accepted, or `|work|`,
    when the first chunk's call has index `from`.
  */
  function FirstRejected(env: Env, from: nat, work: Work): (n: nat)
    ensures n <= |work|
    ensures forall k :: 0 <= k < n ==> Accepted(env, from + k, work[k].1)
    ensures n < |work| ==> !Accepted(env, from + n, work[n].1)
    decreases |work|
  {
    if work == [] then 0
    else if !Accepted(env, from, work[0].1) then 0
    else 1 + FirstRejected(env, from + 1, work[1..])
  }

  /** The ids drawn for `count` chunks from the `from`-th uuid on. */
  function MintedIds(env: Env, from: nat, count: nat): seq<string> {
    seq(count, k requires 0 <= k < count => env.uuid(from + k))
  }

  /** The uuids drawn in positions `from` to `from + count - 1` are pairwise distinct. */
  ghost predicate DistinctIds(env: Env, from: nat, count: nat) {
    forall a, b :: from <= a < b < from + count ==> env.uuid(a) != env.uuid(b)
  }

  /** No chunk id drawn in positions `from` to `from + count - 1` has store key `key`. */
  ghost predicate NotWritten(env: Env, from: nat, count: nat, key: string) {
    forall k :: from <= k < from + count ==> StoreKey(env.uuid(k)) != key
  }

  /** All embeddings of `work` are accepted, its first call having index `from`. */
  ghost predicate AllAccepted(env: Env, from: nat, work: Work)
    decreases |work|
  {
    work == [] || (Accepted(env, from, work[0].1) && AllAccepted(env, from + 1, work[1..]))
  }

  /** A run is accepted when the call for each chunk, counted from `from`, is. */
  lemma {:induction false} EachAccepted(env: Env, from: nat, work: Work)
    requires forall k :: 0 <= k < |work| ==> Accepted(env, from + k, work[k].1)
    ensures AllAccepted(env, from, work)
    decreases |work|
  {
    if work != [] {
      forall k | 0 <= k < |work| - 1 ensures Accepted(env, from + 1 + k, work[1..][k].1) {
        assert work[1..][k] == work[k + 1];
      }
      EachAccepted(env, from + 1, work[1..]);
    }
  }

  /**
    When every embedding is accepted the loop runs to the end, drawing one
    uuid and recording one id per chunk, in order.
  */
  lemma {:induction false} AcceptedRunIds(env: Env, work: Work, p: Progress)
    requires AllAccepted(env, p.minted, work)
    ensures IngestAll(env, work, p).Continue?
    ensures IngestAll(env, work, p).progress.minted == p.minted + |work|
    ensures IngestAll(env, work, p).progress.ingested == p.ingested + MintedIds(env, p.minted, |work|)
  {
    if work != [] {
      var first := IngestChunk(env, work[0].0, work[0].1, p).progress;
      AcceptedRunIds(env, work[1..], first);
      assert p.ingested + [env.uuid(p.minted)] + MintedIds(env, first.minted, |work| - 1)
          == p.ingested + MintedIds(env, p.minted, |work|);
    }
  }

  /** A run of accepted chunks leaves every key that none of its ids maps to as it was. */
  lemma {:induction false} AcceptedRunKeepsOthers(env: Env, work: Work, p: Progress, key: string)
    requires AllAccepted(env, p.minted, work) && NotWritten(env, p.minted, |work|, key)
    ensures key in IngestAll(env, work, p).StoreAfter() <==> key in p.store
    ensures key in p.store ==> IngestAll(env, work, p).StoreAfter()[key] == p.store[key]
  {
    AcceptedRunIds(env, work, p);
    if work != [] {
      var first := IngestChunk(env, work[0].0, work[0].1, p).progress;
      assert StoreKey(env.uuid(p.minted)) != key;
      assert NotWritten(env, first.minted, |work| - 1, key);
      AcceptedRunKeepsOthers(env, work[1..], first, key);
    }
  }

  /** An accepted first chunk is one step of the loop, then the loop over the rest. */
  lemma AcceptedStep(env: Env, work: Work, p: Progress)
    requires work != [] && Accepted(env, p.minted, work[0].1)
    ensures IngestChunk(env, work[0].0, work[0].1, p).Continue?
    ensures IngestAll(env, work, p) == IngestAll(env, work[1..], IngestChunk(env, work[0].0, work[0].1, p).progress)
  {
  }

  /** With distinct uuids, the first chunk of an accepted run stays under its key to the end. */
  lemma AcceptedRunWritesHead(env: Env, work: Work, p: Progress)
    requires work != [] && AllAccepted(env, p.minted, work) && DistinctIds(env, p.minted, |work|)
    ensures var store := IngestAll(env, work, p).StoreAfter();
      StoreKey(env.uuid(p.minted)) in store &&
      store[StoreKey(env.uuid(p.minted))] == RecordOf(env, work[0].0, work[0].1, p.minted)
  {
    AcceptedStep(env, work, p);
    var first := IngestChunk(env, work[0].0, work[0].1, p).progress;
    var key := StoreKey(env.uuid(p.minted));
    forall j | first.minted <= j < first.minted + |work| - 1 ensures StoreKey(env.uuid(j)) != key {
      assert env.uuid(p.minted) != env.uuid(j);
    }
    AcceptedRunKeepsOthers(env, work[1..], first, key);
  }

  /**
    With distinct uuids, a run of accepted chunks stores chunk `k` under the
    key of the `k`-th id drawn, with its own content, vector and metadata.
  */
  lemma {:induction false} AcceptedRunWrites(env: Env, work: Work, p: Progress, k: nat)
    requires AllAccepted(env, p.minted, work) && DistinctIds(env, p.minted, |work|) && k < |work|
    ensures var store := IngestAll(env, work, p).StoreAfter();
      && Accepted(env, p.minted + k, work[k].1)
      && StoreKey(env.uuid(p.minted + k)) in store
      && store[StoreKey(env.uuid(p.minted + k))] == RecordOf(env, work[k].0, work[k].1, p.minted + k)
  {
    if k == 0 {
      AcceptedRunWritesHead(env, work, p);
    } else {
      AcceptedStep(env, work, p);
      var first := IngestChunk(env, work[0].0, work[0].1, p).progress;
      assert DistinctIds(env, first.minted, |work| - 1);
      AcceptedRunWrites(env, work[1..], first, k - 1);
      assert work[1..][k - 1] == work[k];
    }
  }

  /** The chunks before the first rejected one run through, one call and one draw each. */
  lemma AcceptedPrefix(env: Env, work: Work, p: Progress)
    ensures var n := FirstRejected(env, p.minted, work);
      && IngestAll(env, work[..n], p).Continue?
      && IngestAll(env, work[..n], p).progress.minted == p.minted + n
  {
    var n := FirstRejected(env, p.minted, work);
    var prefix := work[..n];
    forall k | 0 <= k < n ensures Accepted(env, p.minted + k, prefix[k].1) {
      assert prefix[k] == work[k];
    }
    EachAccepted(env, p.minted, prefix);
    AcceptedRunIds(env, prefix, p);
  }

  /** A loop whose first chunk is rejected stops there, with the store as it was. */
  lemma RejectedHead(env: Env, work: Work, p: Progress)
    requires work != [] && !Accepted(env, p.minted, work[0].1)
    ensures IngestAll(env, work, p) == Abort(p.store, RejectMessage(env, p.minted, work[0].0, work[0].1))
  {
  }

  /**
    When the chunks before position `n` run through and chunk `n`, if any, is
    rejected, the loop completes iff `n` is the end, and otherwise stops at `n`.
  */
  lemma StopsAt(env: Env, work: Work, p: Progress, n: nat)
    requires n <= |work|
    requires IngestAll(env, work[..n], p).Continue? && IngestAll(env, work[..n], p).progress.minted == p.minted + n
    requires n < |work| ==> !Accepted(env, p.minted + n, work[n].1)
    ensures IngestAll(env, work, p).Continue? <==> n == |work|
    ensures n < |work| ==>
      IngestAll(env, work, p) ==
        Abort(IngestAll(env, work[..n], p).progress.store, RejectMessage(env, p.minted + n, work[n].0, work[n].1))
  {
    var prefix, rest := work[..n], work[n..];
    assert work == prefix + rest;
    IngestAllAppend(env, prefix, rest, p);
    var q := IngestAll(env, prefix, p).progress;
    if n < |work| {
      assert rest[0] == work[n];
      RejectedHead(env, rest, q);
    } else {
      assert rest == [];
    }
  }

  /**
    The flat loop completes iff every embedding is accepted; otherwise it
    aborts at the first rejected chunk with that chunk's error, leaving the
    store as the chunks before it wrote it.
  */
  lemma IngestAllOutcome(env: Env, work: Work, p: Progress)
    ensures var n := FirstRejected(env, p.minted, work);
      && (IngestAll(env, work, p).Continue? <==> n == |work|)
      && (n < |work| ==>
            IngestAll(env, work[..n], p).Continue? &&
            IngestAll(env, work, p) ==
              Abort(IngestAll(env, work[..n], p).progress.store, RejectMessage(env, p.minted + n, work[n].0, work[n].1)))
  {
    AcceptedPrefix(env, work, p);
    StopsAt(env, work, p, FirstRejected(env, p.minted, work));
  }

  /** With distinct uuids, entry `k` read back after an accepted run is chunk `k` as written. */
  lemma ReadBackEntry(env: Env, all: Work, store: Store, k: nat)
    requires forall j :: 0 <= j < |all| ==> Accepted(env, j, all[j].1)
    requires DistinctIds(env, 0, |all|) && k < |all|
    requires IngestAll(env, all, Progress(store, [], 0)).Continue?
    ensures var q := IngestAll(env, all, Progress(store, [], 0)).progress;
      && k < |q.ingested|
      && Accepted(env, k, all[k].1)
      && DetailOf(q.store, q.ingested[k]) ==
           ChunkDetail(env.uuid(k), all[k].1, env.embed(k, all[k].1).vector,
                       Some(Metadata(all[k].0, env.uuid(k), env.clock(k), Source)))
  {
    EachAccepted(env, 0, all);
    AcceptedRunIds(env, all, Progress(store, [], 0));
    AcceptedRunWrites(env, all, Progress(store, [], 0), k);
  }

  /**
    When every embedding is accepted the loop completes with one id per chunk;
    with distinct uuids, entry `k` read back is chunk `k` as written.
  */
  lemma CompletedRunReadsBack(env: Env, all: Work, store: Store)
    requires FirstRejected(env, 0, all) == |all|
    ensures IngestAll(env, all, Progress(store, [], 0)).Continue?
    ensures var q := IngestAll(env, all, Progress(store, [], 0)).progress;
      && |q.ingested| == |all|
      && (DistinctIds(env, 0, |all|) ==>
            forall k :: 0 <= k < |all| ==>
              ReadBack(q.store, q.ingested)[k] ==
                ChunkDetail(env.uuid(k), all[k].1, env.embed(k, all[k].1).vector,
                            Some(Metadata(all[k].0, env.uuid(k), env.clock(k), Source))))
  {
    var start := Progress(store, [], 0);
    EachAccepted(env, 0, all);
    AcceptedRunIds(env, all, start);
    var q := IngestAll(env, all, start).progress;
    assert q.ingested == MintedIds(env, 0, |all|);
    if DistinctIds(env, 0, |all|) {
      forall k | 0 <= k < |all|
        ensures ReadBack(q.store, q.ingested)[k] ==
          ChunkDetail(env.uuid(k), all[k].1, env.embed(k, all[k].1).vector,
                      Some(Metadata(all[k].0, env.uuid(k), env.clock(k), Source)))
      {
        ReadBackEntry(env, all, store, k);
      }
    }
  }

  /**
    A completed request answers with one entry per chunk of every regular
    file, in ingestion order; with distinct uuids, entry `k` carries the
    `k`-th id, the chunk's own content and vector, and metadata naming its
    file, its id and the source "api_policies". It completes exactly when
    every embedding is accepted.
  */
  lemma CompletedIngestReadsBack(env: Env, entries: seq<DirEntry>, store: Store, indexName: string)
    ensures var all := AllChunks(entries);
      Ingest(env, true, entries, store, indexName).1.IngestComplete? <==> FirstRejected(env, 0, all) == |all|
    ensures var all := AllChunks(entries);
      var response := Ingest(env, true, entries, store, indexName).1;
      response.IngestComplete? ==>
        && response.indexName == indexName
        && |response.chunks| == |all|
        && (DistinctIds(env, 0, |all|) ==>
              forall k :: 0 <= k < |all| ==>
                response.chunks[k] == ChunkDetail(env.uuid(k), all[k].1, env.embed(k, all[k].1).vector,
                                                  Some(Metadata(all[k].0, env.uuid(k), env.clock(k), Source))))
  {
    var all := AllChunks(entries);
    IngestFilesIsFlat(env, entries, Progress(store, [], 0));
    IngestAllOutcome(env, all, Progress(store, [], 0));
    if FirstRejected(env, 0, all) == |all| {
      CompletedRunReadsBack(env, all, store);
    }
  }

  /**
    A failed request carries the error of the first chunk whose embedding
    failed or had the wrong length (the message names its file), and leaves
    the store as the chunks before it wrote it.
  */
  lemma FailedIngestStopsAtFirstRejected(env: Env, entries: seq<DirEntry>, store: Store, indexName: string)
    requires Ingest(env, true, entries, store, indexName).1.IngestFailed?
    ensures var all := AllChunks(entries);
      var n := FirstRejected(env, 0, all);
      && n < |all|
      && IngestAll(env, all[..n], Progress(store, [], 0)).Continue?
      && Ingest(env, true, entries, store, indexName) ==
           (IngestAll(env, all[..n], Progress(store, [], 0)).progress.store,
            IngestFailed(RejectMessage(env, n, all[n].0, all[n].1)))
  {
    IngestFilesIsFlat(env, entries, Progress(store, [], 0));
    IngestAllOutcome(env, AllChunks(entries), Progress(store, [], 0));
  }

  /**
    With distinct uuids, every chunk before the first rejected one is in the
    store after a failed request: the writes made before the error stay.
  */
  lemma FailedIngestKeepsEarlierWrites(env: Env, entries: seq<DirEntry>, store: Store, indexName: string, k: nat)
    requires Ingest(env, true, entries, store, indexName).1.IngestFailed?
    requires k < FirstRejected(env, 0, AllChunks(entries))
    requires DistinctIds(env, 0, FirstRejected(env, 0, AllChunks(entries)))
    ensures var all := AllChunks(entries);
      var after := Ingest(env, true, entries, store, indexName).0;
      StoreKey(env.uuid(k)) in after && after[StoreKey(env.uuid(k))] == RecordOf(env, all[k].0, all[k].1, k)
  {
    FailedIngestStopsAtFirstRejected(env, entries, store, indexName);
    AcceptedPrefixWrites(env, AllChunks(entries), store, k);
  }

  /** With distinct uuids, the chunks before the first rejected one are all written. */
  lemma AcceptedPrefixWrites(env: Env, all: Work, store: Store, k: nat)
    requires k < FirstRejected(env, 0, all) && DistinctIds(env, 0, FirstRejected(env, 0, all))
    ensures var after := IngestAll(env, all[..FirstRejected(env, 0, all)], Progress(store, [], 0)).StoreAfter();
      StoreKey(env.uuid(k)) in after && after[StoreKey(env.uuid(k))] == RecordOf(env, all[k].0, all[k].1, k)
  {
    var n := FirstRejected(env, 0, all);
    forall j | 0 <= j < n ensures Accepted(env, j, all[..n][j].1) {
      assert all[..n][j] == all[j];
    }
    EachAccepted(env, 0, all[..n]);
    AcceptedRunWrites(env, all[..n], Progress(store, [], 0), k);
  }

  /**
    The status of the response: 404 with the store untouched when the
    directory is missing, otherwise 200 when every embedding is accepted and
    500 when one is not.
  */
  lemma StatusOfIngest(env: Env, dirExists: bool, entries: seq<DirEntry>, store: Store, indexName: string)
    ensures !dirExists ==> Ingest(env, dirExists, entries, store, indexName) == (store, DirectoryNotFound)
    ensures var status := StatusCode(Ingest(env, dirExists, entries, store, indexName).1);
      && (status == 404 <==> !dirExists)
      && (status == 200 <==> dirExists && FirstRejected(env, 0, AllChunks(entries)) == |AllChunks(entries)|)
      && (status == 500 <==> dirExists && FirstRejected(env, 0, AllChunks(entries)) < |AllChunks(entries)|)
  {
    IngestFilesIsFlat(env, entries, Progress(store, [], 0));
    IngestAllOutcome(env, AllChunks(entries), Progress(store, [], 0));
  }

  /** `chunk` is a chunk of a regular file of the listing, paired with that file's name. */
  ghost predicate FromFile(entries: seq<DirEntry>, chunk: (string, string)) {
    exists i :: 0 <= i < |entries| && entries[i].isFile && chunk.0 == entries[i].name && chunk.1 in Chunks(entries[i].content)
  }

  /**
    Every chunk ingested comes from a regular file of the listing, carrying
    that file's name: entries that are not regular files contribute nothing.
  */
  lemma {:induction false} ChunksComeFromFiles(entries: seq<DirEntry>)
    ensures forall k :: 0 <= k < |AllChunks(entries)| ==> FromFile(entries, AllChunks(entries)[k])
  {
    if entries != [] {
      var e := entries[0];
      var here: Work := if e.isFile then FileChunks(e.name, Chunks(e.content)) else [];
      var rest := AllChunks(entries[1..]);
      var all := AllChunks(entries);
      ChunksComeFromFiles(entries[1..]);
      assert all == here + rest;
      forall k | 0 <= k < |all| ensures FromFile(entries, all[k]) {
        if k < |here| {
          assert all[k] == (e.name, Chunks(e.content)[k]);
          assert Chunks(e.content)[k] in Chunks(e.content);
          assert entries[0].isFile && all[k].0 == entries[0].name && all[k].1 in Chunks(entries[0].content);
        } else {
          assert all[k] == rest[k - |here|];
          assert FromFile(entries[1..], rest[k - |here|]);
          var i :| 0 <= i < |entries[1..]| && entries[1..][i].isFile &&
            rest[k - |here|].0 == entries[1..][i].name && rest[k - |here|].1 in Chunks(entries[1..][i].content);
          assert entries[1..][i] == entries[i + 1];
          assert entries[i + 1].isFile && all[k].0 == entries[i + 1].name && all[k].1 in Chunks(entries[i + 1].content);
        }
      }
    }
  }

  /** The key-value store behind the vector index. */
  class VectorStore {
    var records: Store

    constructor (records: Store)
      ensures this.records == records
    {
      this.records := records;
    }

    /** `ingest_knowledge_base`, against a directory listing (or its absence). */
    method IngestKnowledgeBase(env: Env, dirExists: bool, entries: seq<DirEntry>, indexName: string)
      returns (response: IngestResponse)
      modifies this
      ensures (records, response) == Ingest(env, dirExists, entries, old(records), indexName)
    {
      if !dirExists {
        return DirectoryNotFound;
      }
      ghost var start := Progress(records, [], 0);
      var ingested: seq<string> := [];
      var minted: nat := 0;
      for i := 0 to |entries|
        invariant IngestFiles(env, entries, start) == IngestFiles(env, entries[i..], Progress(records, ingested, minted))
      {
        assert entries[i..][1..] == entries[i + 1..];
        var entry := entries[i];
        if !entry.isFile {
          continue;
        }
        var error;
        error, ingested, minted := IngestFileChunks(env, entry.name, Chunks(entry.content), ingested, minted);
        if error.Some? {
          return IngestFailed(error.value);
        }
      }
      assert entries[|entries|..] == [];
      var details := ReadBackDetails(ingested);
      return IngestComplete(details, indexName);
    }

    /**
      The inner loop over the chunks of one file: embed, check the length,
      write the record and note its id; stop at the first rejected chunk with
      its error message.
    */
    method IngestFileChunks(env: Env, filename: string, chunks: seq<string>, ingested: seq<string>, minted: nat)
      returns (error: Option<string>, ingested': seq<string>, minted': nat)
      modifies this
      ensures match IngestChunks(env, filename, chunks, Progress(old(records), ingested, minted))
        case Abort(s, e) => error == Some(e) && records == s
        case Continue(p) => error == None && records == p.store && ingested' == p.ingested && minted' == p.minted
    {
      ghost var fileStart := Progress(records, ingested, minted);
      ingested', minted' := ingested, minted;
      for j := 0 to |chunks|
        invariant IngestChunks(env, filename, chunks, fileStart) ==
          IngestChunks(env, filename, chunks[j..], Progress(records, ingested', minted'))
      {
        assert chunks[j..][1..] == chunks[j + 1..];
        var chunk := chunks[j];
        var embedding := env.embed(minted', chunk);
        if embedding.EmbeddingError? {
          return Some(EmbeddingFailedMessage(filename, embedding.message)), ingested', minted';
        }
        if |embedding.vector| != env.dimensions {
          return Some(DimensionMismatchMessage(filename)), ingested', minted';
        }
        var chunkId := env.uuid(minted');
        var metadata := Metadata(filename, chunkId, env.clock(minted'), Source);
        records := records[StoreKey(chunkId) := StoredRecord(chunk, embedding.vector, metadata)];
        ingested' := ingested' + [chunkId];
        minted' := minted' + 1;
      }
      assert chunks[|chunks|..] == [];
      error := None;
    }

    /** The read-back loop: one detail per ingested id, in order, from the store as it now is. */
    method ReadBackDetails(ingested: seq<string>) returns (details: seq<ChunkDetail>)
      ensures details == ReadBack(records, ingested)
    {
      details := [];
      for k := 0 to |ingested|
        invariant details == ReadBack(records, ingested[..k])
      {
        details := details + [DetailOf(records, ingested[k])];
      }
      assert ingested[..|ingested|] == ingested;
    }
  }
}
