/** jade3/shorestone.py: the ShoreStone vector memory.  A client holds named
    collections (sessions); one of them is active.  The sentence encoder, the
    optional PCA transform, the nearest-neighbour query, `uuid4()` and
    `time.time()` are not modelled: the encoder and transform are function
    values, the query answer, the fresh id and the clock are parameters. */
module ShoreStone {
  import opened Wrappers
  import opened Text

  type Id = string
  type Embedding = seq<real>

  /** A record's metadata dict.  A key the dict lacks is `None`; records made by
      `memorize` have every key. */
  datatype Metadata = Metadata(
    createdAt: Option<int>,
    lastAccessedAt: Option<int>,
    accessCount: Option<int>,
    text: Option<string>)

  /** One stored memory: its embedding, its metadata and its document (the snippet). */
  datatype Record = Record(embedding: Embedding, meta: Metadata, document: string)

  type Collection = map<Id, Record>

  predicate Distinct<T(==)>(s: seq<T>) {
    forall i, j :: 0 <= i < j < |s| ==> s[i] != s[j]
  }

  // ---------------------------------------------------------------- sessions

  /** `get_or_create_collection(name)` on the client's persisted collections. */
  function OpenSession(client: map<string, Collection>, name: string): map<string, Collection> {
    if name in client then client else client[name := map[]]
  }

  /** Reopening an existing session keeps its records; opening is idempotent and
      touches no other session. */
  lemma OpenSessionProperties(client: map<string, Collection>, name: string)
    ensures name in OpenSession(client, name)
    ensures name in client ==> OpenSession(client, name)[name] == client[name]
    ensures name !in client ==> OpenSession(client, name)[name] == map[]
    ensures OpenSession(OpenSession(client, name), name) == OpenSession(client, name)
    ensures forall other :: other in client && other != name ==>
              other in OpenSession(client, name) && OpenSession(client, name)[other] == client[other]
    ensures OpenSession(client, name).Keys == client.Keys + {name}
  {
  }

  // ---------------------------------------------------------------- memorize

  const UserSaid: string := "O usuário disse: '"
  const AiReplied: string := "'. A IA respondeu: '"

  /** The f-string `"O usuário disse: '{u}'. A IA respondeu: '{r}'"`. */
  function MemoryText(u: string, r: string): string {
    UserSaid + u + AiReplied + r + "'"
  }

  /** `text.split('.')[0] + "..."`: the text up to its first '.', then "...". */
  function Snippet(text: string): (d: string)
    ensures |d| >= 3 && d[|d| - 3..] == "..."
    ensures StartsWith(text, d[..|d| - 3]) && '.' !in d[..|d| - 3]
    ensures |d| - 3 < |text| <==> '.' in text
    ensures '.' in text ==> text[|d| - 3] == '.'
  {
    SplitHead(text, '.');
    Split(text, '.')[0] + "..."
  }

  /** The first piece of a split is determined by the first separator. */
  lemma FirstPiece(s: string, c: char, k: nat)
    requires k < |s| && s[k] == c && c !in s[..k]
    ensures Split(s, c)[0] == s[..k]
  {
    assert c in s;
  }

  /** The snippet of a stored exchange: with no '.' in the user's words it is the
      whole "O usuário disse: '<u>'" part; otherwise it is cut at the user's first '.'. */
  lemma {:induction false} SnippetOfMemory(u: string, r: string)
    ensures '.' !in u ==> Snippet(MemoryText(u, r)) == UserSaid + u + "'..."
    ensures '.' in u ==> Snippet(MemoryText(u, r)) == UserSaid + u[..IndexOf(u, '.')] + "..."
  {
    var t := MemoryText(u, r);
    assert '.' !in UserSaid;
    if '.' !in u {
      var k := |UserSaid| + |u| + 1;
      assert t[..k] == UserSaid + u + "'";
      assert t[k] == '.';
      FirstPiece(t, '.', k);
    } else {
      var k := |UserSaid| + IndexOf(u, '.');
      assert t[..k] == UserSaid + u[..IndexOf(u, '.')];
      assert t[k] == u[IndexOf(u, '.')];
      FirstPiece(t, '.', k);
    }
  }

  /** The record `memorize` adds: access count 0, created and last accessed at the
      call time, the full text in the metadata and the snippet as its document. */
  function NewRecord(embedding: Embedding, u: string, r: string, now: int): Record {
    var text := MemoryText(u, r);
    Record(embedding, Metadata(Some(now), Some(now), Some(0), Some(text)), Snippet(text))
  }

  // ---------------------------------------------------------------- remember

  /** What the query may answer: distinct ids of the collection, at most `n` of them,
      in ranking order. */
  predicate IsQueryAnswer(ranked: seq<Id>, c: Collection, n: nat) {
    Distinct(ranked) && |ranked| <= n && forall k :: 0 <= k < |ranked| ==> ranked[k] in c
  }

  /** `meta['access_count'] = meta.get('access_count', 0) + 1` and
      `meta['last_accessed_at'] = now`. */
  function BumpMeta(meta: Metadata, now: int): Metadata {
    meta.(accessCount := Some(meta.accessCount.GetOr(0) + 1), lastAccessedAt := Some(now))
  }

  /** The collection after access bookkeeping on `ids`. */
  function Touch(c: Collection, ids: seq<Id>, now: int): (r: Collection)
    ensures r.Keys == c.Keys
  {
    map id | id in c :: if id in ids then c[id].(meta := BumpMeta(c[id].meta, now)) else c[id]
  }

  /** Retrieved records get exactly one more access and the call time as last
      access, and keep everything else; every other record is unchanged. */
  lemma RememberBookkeeping(c: Collection, ids: seq<Id>, now: int)
    ensures Touch(c, ids, now).Keys == c.Keys
    ensures forall id :: id in c && id in ids ==>
              Touch(c, ids, now)[id].meta.accessCount == Some(c[id].meta.accessCount.GetOr(0) + 1)
              && Touch(c, ids, now)[id].meta.lastAccessedAt == Some(now)
              && Touch(c, ids, now)[id].meta.createdAt == c[id].meta.createdAt
              && Touch(c, ids, now)[id].meta.text == c[id].meta.text
              && Touch(c, ids, now)[id].document == c[id].document
              && Touch(c, ids, now)[id].embedding == c[id].embedding
    ensures forall id :: id in c && id !in ids ==> Touch(c, ids, now)[id] == c[id]
  {
  }

  /** `collection.update(ids=ids, metadatas=metas)`: each listed record gets the
      metadata at the same position. */
  function UpdateMetadatas(c: Collection, ids: seq<Id>, metas: seq<Metadata>): (r: Collection)
    requires |ids| == |metas|
    requires forall k :: 0 <= k < |ids| ==> ids[k] in c
    ensures r.Keys == c.Keys
    decreases |ids|
  {
    if ids == [] then c
    else
      var last := ids[|ids| - 1];
      var r := UpdateMetadatas(c, ids[..|ids| - 1], metas[..|metas| - 1]);
      r[last := r[last].(meta := metas[|metas| - 1])]
  }

  /** Writing back the bumped metadata of distinct ids is the bookkeeping `Touch`. */
  lemma {:induction false} UpdateIsTouch(c: Collection, ids: seq<Id>, metas: seq<Metadata>, now: int)
    requires |ids| == |metas| && Distinct(ids)
    requires forall k :: 0 <= k < |ids| ==> ids[k] in c
    requires forall k :: 0 <= k < |ids| ==> metas[k] == BumpMeta(c[ids[k]].meta, now)
    ensures UpdateMetadatas(c, ids, metas) == Touch(c, ids, now)
  {
    if ids != [] {
      var n := |ids| - 1;
      UpdateIsTouch(c, ids[..n], metas[..n], now);
      var r := UpdateMetadatas(c, ids, metas);
      forall id | id in c
        ensures r[id] == Touch(c, ids, now)[id]
      {
        if id == ids[n] {
          assert id !in ids[..n];
        } else {
          assert id in ids <==> id in ids[..n];
        }
      }
    }
  }

  /** `results['documents'][0]`: the retrieved records' documents in ranking order. */
  function Documents(c: Collection, ids: seq<Id>): (docs: seq<string>)
    requires forall k :: 0 <= k < |ids| ==> ids[k] in c
    ensures |docs| == |ids|
    ensures forall k :: 0 <= k < |ids| ==> docs[k] == c[ids[k]].document
  {
    seq(|ids|, k requires 0 <= k < |ids| => c[ids[k]].document)
  }

  /** On a session holding one record, any non-empty answer to a one-result query
      is that record, and `remember` returns its snippet. */
  lemma RememberSingleRecord(id: Id, rec: Record, ranked: seq<Id>)
    requires IsQueryAnswer(ranked, map[id := rec], 1) && ranked != []
    ensures ranked == [id]
    ensures Join(Documents(map[id := rec], ranked), "\n") == rec.document
  {
    assert ranked[0] in map[id := rec];
  }

  // ------------------------------------------------- effects on the client

  /** What `remember` returns, given the query's answer `ranked`. */
  function RecallResult(client: map<string, Collection>, session: Option<string>, ranked: seq<Id>): Option<string>
    requires session.Some? ==> session.value in client
    requires session.Some? ==> forall k :: 0 <= k < |ranked| ==> ranked[k] in client[session.value]
  {
    if session.None? || |client[session.value]| == 0 || ranked == [] then None
    else Some(Join(Documents(client[session.value], ranked), "\n"))
  }

  /** The client after `remember`. */
  function RecallEffect(client: map<string, Collection>, session: Option<string>, ranked: seq<Id>, now: int): (r: map<string, Collection>)
    requires session.Some? ==> session.value in client
    ensures r.Keys == client.Keys
    ensures session.Some? ==> r[session.value].Keys == client[session.value].Keys
  {
    if session.None? || |client[session.value]| == 0 || ranked == [] then client
    else client[session.value := Touch(client[session.value], ranked, now)]
  }

  /** The client after `memorize` adds `rec` under `newId`. */
  function StoreEffect(client: map<string, Collection>, session: Option<string>, rec: Record, newId: Id): (r: map<string, Collection>)
    requires session.Some? ==> session.value in client
    ensures r.Keys == client.Keys
  {
    if session.None? then client
    else client[session.value := client[session.value][newId := rec]]
  }

  /** `memorize` without a session changes nothing; with one it adds exactly one
      record, under the fresh id, with access count 0, created and last accessed
      at the call time, the exchange's text and its snippet, and leaves every other
      record and every other session as it was. */
  lemma MemorizeOutcome(client: map<string, Collection>, session: Option<string>,
                        embedding: Embedding, u: string, r: string, now: int, newId: Id)
    requires session.Some? ==> session.value in client && newId !in client[session.value]
    ensures session.None? ==> StoreEffect(client, session, NewRecord(embedding, u, r, now), newId) == client
    ensures session.Some? ==>
      var s := session.value;
      var after := StoreEffect(client, session, NewRecord(embedding, u, r, now), newId);
      && after[s].Keys == client[s].Keys + {newId}
      && |after[s]| == |client[s]| + 1
      && after[s][newId].meta == Metadata(Some(now), Some(now), Some(0), Some(MemoryText(u, r)))
      && after[s][newId].document == Snippet(MemoryText(u, r))
      && after[s][newId].embedding == embedding
      && (forall id :: id in client[s] ==> after[s][id] == client[s][id])
      && (forall other :: other in client && other != s ==> after[other] == client[other])
  {
  }

  /** `remember` returns `None` and writes nothing without a session, on an empty
      collection or when the query answers no ids; otherwise it returns the
      answer's documents joined by newlines, in ranking order, and does the access
      bookkeeping on exactly those records of the active session. */
  lemma RememberOutcome(client: map<string, Collection>, session: Option<string>, ranked: seq<Id>, n: nat, now: int)
    requires session.Some? ==> session.value in client && IsQueryAnswer(ranked, client[session.value], n)
    ensures RecallResult(client, session, ranked) == None <==>
              session.None? || |client[session.value]| == 0 || ranked == []
    ensures RecallResult(client, session, ranked) == None ==> RecallEffect(client, session, ranked, now) == client
    ensures RecallResult(client, session, ranked).Some? ==>
      var s := session.value;
      && RecallResult(client, session, ranked) == Some(Join(Documents(client[s], ranked), "\n"))
      && |Documents(client[s], ranked)| <= n
      && RecallEffect(client, session, ranked, now)[s] == Touch(client[s], ranked, now)
      && (forall other :: other in client && other != s ==> RecallEffect(client, session, ranked, now)[other] == client[other])
  {
  }

  // ---------------------------------------------------------------- the store

  class ShoreStoneMemory {
    /** The sentence encoder and the optional PCA compression (`self.pca`). */
    const encoder: string -> Embedding
    const pca: Option<Embedding -> Embedding>
    /** The persisted collections, by session name. */
    var client: map<string, Collection>
    /** The name of `self.collection`, or `None` before a session is loaded. */
    var session: Option<string>

    ghost predicate Valid()
      reads this
    {
      session.Some? ==> session.value in client
    }

    /** The active collection. */
    function Active(): Collection
      reads this
      requires Valid() && session.Some?
    {
      client[session.value]
    }

    constructor (encoder: string -> Embedding, pca: Option<Embedding -> Embedding>, persisted: map<string, Collection>)
      ensures Valid() && session == None && client == persisted
      ensures this.encoder == encoder && this.pca == pca
    {
      this.encoder := encoder;
      this.pca := pca;
      client := persisted;
      session := None;
    }

    /** `_get_compressed_embedding`: encode, then compress when PCA is loaded. */
    function Embed(text: string): Embedding {
      if pca.Some? then pca.value(encoder(text)) else encoder(text)
    }

    method LoadOrCreateSession(name: string)
      modifies this
      ensures Valid() && session == Some(name)
      ensures client == OpenSession(old(client), name)
    {
      client := OpenSession(client, name);
      session := Some(name);
    }

    /** Adds one record under the fresh id `newId` (the `uuid4()` value) stamped with
        `now` (the `time.time()` value); without a session it does nothing. */
    method Memorize(userInput: string, assistantResponse: string, newId: Id, now: int)
      requires Valid()
      requires session.Some? ==> newId !in Active()
      modifies this
      ensures Valid() && session == old(session)
      ensures client == StoreEffect(old(client), session, NewRecord(Embed(MemoryText(userInput, assistantResponse)), userInput, assistantResponse, now), newId)
    {
      if session.None? {
        return;
      }
      var text := MemoryText(userInput, assistantResponse);
      var embedding := Embed(text);
      var record := NewRecord(embedding, userInput, assistantResponse, now);
      client := client[session.value := client[session.value][newId := record]];
    }

    /** Retrieval that writes: `ranked` is the query's answer for `Embed(query)`;
        the returned records get their access bookkeeping and their documents are
        returned joined by newlines, in ranking order. */
    method Remember(query: string, nResults: nat, ranked: seq<Id>, now: int) returns (result: Option<string>)
      requires Valid()
      requires session.Some? ==> IsQueryAnswer(ranked, Active(), nResults)
      modifies this
      ensures Valid() && session == old(session)
      ensures result == RecallResult(old(client), session, ranked)
      ensures client == RecallEffect(old(client), session, ranked, now)
    {
      if session.None? || |client[session.value]| == 0 {
        return None;
      }
      var c := client[session.value];
      var queryEmbedding := Embed(query);
      if ranked == [] {
        return None;
      }
      var updated: seq<Metadata> := [];
      for i := 0 to |ranked|
        invariant |updated| == i
        invariant forall k :: 0 <= k < i ==> updated[k] == BumpMeta(c[ranked[k]].meta, now)
      {
        updated := updated + [BumpMeta(c[ranked[i]].meta, now)];
      }
      UpdateIsTouch(c, ranked, updated, now);
      client := client[session.value := UpdateMetadatas(c, ranked, updated)];
      result := Some(Join(Documents(c, ranked), "\n"));
    }
  }
}
