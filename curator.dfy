/** jade3/curator_heuristic.py: the read-score-delete maintenance pass.  The
    floating-point part of the RFR score (ln, exp, cosine similarity, the mean
    and the weighted sum) is an oracle; what is modelled is which inputs the
    score is fed, and which records the pass deletes. */
module Curator {
  import opened Wrappers
  import opened Text
  import opened ShoreStone

  /** Below this many records the pass deletes nothing. */
  const MinPopulation: nat := 10

  /** The phrases whose presence in the lower-cased text protects a record. */
  const CreatorPhrase: string := "meu criador"
  const CreatorName: string := "gabriel yogi"

  /** The case-insensitive override on `mem_meta.get('text', '')`. */
  predicate IsProtected(meta: Metadata) {
    var t := Lower(meta.text.GetOr(""));
    Contains(t, CreatorPhrase) || Contains(t, CreatorName)
  }

  // ------------------------------------------------------- score inputs

  /** The inputs of the weighted sum in `_calculate_score`: the access count,
      the seconds since the last access, the indices of the nearest neighbours,
      and the relevance G computed from them. */
  datatype ScoreInputs = ScoreInputs(accessCount: int, secondsSinceAccess: int, neighbours: seq<nat>, relevance: real)

  /** `np.mean(similarities[nearest_indices])`, as a function of the similarity
      row and the chosen indices. */
  type Mean = (seq<real>, seq<nat>) -> real

  function Min(a: int, b: int): int {
    if a <= b then a else b
  }

  /** `np.argsort(similarities)[::-1][1:6]`, given the ascending argsort `asc`:
      reversed, the top entry skipped, the next five taken. */
  function NearestIndices(asc: seq<nat>): (r: seq<nat>)
    ensures |asc| >= 1 ==> |r| == Min(5, |asc| - 1)
    ensures r == [] <==> |asc| <= 1
    ensures forall k :: 0 <= k < |r| ==> r[k] == asc[|asc| - 2 - k]
    ensures forall m :: |asc| - 1 - |r| <= m <= |asc| - 2 ==> asc[m] == r[|asc| - 2 - m]
  {
    var desc := seq(|asc|, i requires 0 <= i < |asc| => asc[|asc| - 1 - i]);
    var lo := Min(1, |desc|);
    var hi := Min(6, |desc|);
    desc[lo..hi]
  }

  /** `asc` is what `np.argsort(sims)` returns: a permutation of the indices of
      `sims` listing them by non-decreasing similarity. */
  ghost predicate IsAscendingArgsort(asc: seq<nat>, sims: seq<real>) {
    && |asc| == |sims|
    && Distinct(asc)
    && (forall k :: 0 <= k < |asc| ==> asc[k] < |sims|)
    && (forall j :: 0 <= j < |sims| ==> j in asc)
    && (forall a, b :: 0 <= a < b < |asc| ==> sims[asc[a]] <= sims[asc[b]])
  }

  /** Every chosen neighbour is at least as similar as every index left out,
      except the single most similar one (normally the record itself). */
  lemma {:induction false} NearestAreMostSimilar(asc: seq<nat>, sims: seq<real>)
    requires IsAscendingArgsort(asc, sims)
    ensures forall k, j :: 0 <= k < |NearestIndices(asc)| && 0 <= j < |sims|
              && j !in NearestIndices(asc) && j != asc[|asc| - 1]
              ==> sims[j] <= sims[NearestIndices(asc)[k]]
  {
    var r := NearestIndices(asc);
    var n := |asc|;
    forall k, j | 0 <= k < |r| && 0 <= j < |sims| && j !in r && j != asc[n - 1]
      ensures sims[j] <= sims[r[k]]
    {
      assert j in asc;
      var m :| 0 <= m < n && asc[m] == j;
      LeftOutIsBelow(asc, m);
      assert sims[asc[m]] <= sims[asc[n - 2 - k]];
    }
  }

  /** A position of `asc` whose index was not chosen, other than the last,
      lies below all the chosen ones. */
  lemma LeftOutIsBelow(asc: seq<nat>, m: nat)
    requires m < |asc| - 1 && asc[m] !in NearestIndices(asc)
    ensures m < |asc| - 1 - |NearestIndices(asc)|
  {
    var r := NearestIndices(asc);
    if |asc| - 1 - |r| <= m {
      assert false;
    }
  }

  /** G: the mean similarity to the chosen neighbours, or 0 without any. */
  function Relevance(sims: seq<real>, neighbours: seq<nat>, mean: Mean): real {
    if |neighbours| > 0 then mean(sims, neighbours) else 0.0
  }

  /** `mem_meta.get('access_count', 0)` and `now - mem_meta.get('last_accessed_at', now)`,
      with the neighbour selection and G over the similarity row `sims`, whose
      ascending argsort is `asc`. */
  function Inputs(meta: Metadata, sims: seq<real>, asc: seq<nat>, now: int, mean: Mean): ScoreInputs {
    var neighbours := NearestIndices(asc);
    ScoreInputs(meta.accessCount.GetOr(0), now - meta.lastAccessedAt.GetOr(now), neighbours, Relevance(sims, neighbours, mean))
  }

  /** Missing keys read as no accesses and no elapsed time; a record fresh from
      `memorize` or just retrieved has no elapsed time either.  With at most one
      record there are no neighbours and G is 0; otherwise G is the mean over the
      chosen neighbours. */
  lemma InputDefaults(meta: Metadata, sims: seq<real>, asc: seq<nat>, now: int, mean: Mean)
    ensures meta.accessCount.None? ==> Inputs(meta, sims, asc, now, mean).accessCount == 0
    ensures meta.lastAccessedAt.None? ==> Inputs(meta, sims, asc, now, mean).secondsSinceAccess == 0
    ensures meta.lastAccessedAt == Some(now) ==> Inputs(meta, sims, asc, now, mean).secondsSinceAccess == 0
    ensures |asc| <= 1 ==> Inputs(meta, sims, asc, now, mean).neighbours == [] && Inputs(meta, sims, asc, now, mean).relevance == 0.0
    ensures |asc| >= 2 ==> Inputs(meta, sims, asc, now, mean).relevance == mean(sims, NearestIndices(asc))
  {
  }

  // ------------------------------------------------------- the decision

  /** `collection.get()` lists each of the ids `ids` exactly once. */
  predicate IsListing(listing: seq<Id>, ids: set<Id>) {
    && Distinct(listing)
    && (forall k :: 0 <= k < |listing| ==> listing[k] in ids)
    && (forall id :: id in ids ==> id in listing)
  }

  /** `ids_to_delete` once the loop has visited `listing`: low score and not protected. */
  function Marked(c: Collection, listing: seq<Id>, score: Id -> real, tDelete: real): seq<Id>
    requires forall k :: 0 <= k < |listing| ==> listing[k] in c
    decreases |listing|
  {
    if listing == [] then []
    else
      var n := |listing| - 1;
      var id := listing[n];
      Marked(c, listing[..n], score, tDelete)
        + (if score(id) < tDelete && !IsProtected(c[id].meta) then [id] else [])
  }

  /** A record is marked iff it is listed, scores below `t_delete` and is not protected. */
  lemma {:induction false} MarkedMembers(c: Collection, listing: seq<Id>, score: Id -> real, tDelete: real)
    requires forall k :: 0 <= k < |listing| ==> listing[k] in c
    ensures forall id :: id in Marked(c, listing, score, tDelete) <==>
              id in listing && score(id) < tDelete && !IsProtected(c[id].meta)
  {
    if listing != [] {
      var n := |listing| - 1;
      MarkedMembers(c, listing[..n], score, tDelete);
      assert listing == listing[..n] + [listing[n]];
    }
  }

  /** `A` is `B` with some elements dropped, order kept. */
  predicate IsSubsequence<T(==)>(a: seq<T>, b: seq<T>)
    decreases |b|
  {
    if a == [] then true
    else if b == [] then false
    else if a[|a| - 1] == b[|b| - 1] then IsSubsequence(a[..|a| - 1], b[..|b| - 1])
    else IsSubsequence(a, b[..|b| - 1])
  }

  /** The marked ids come in listing order, each once. */
  lemma {:induction false} MarkedOrder(c: Collection, listing: seq<Id>, score: Id -> real, tDelete: real)
    requires forall k :: 0 <= k < |listing| ==> listing[k] in c
    requires Distinct(listing)
    ensures IsSubsequence(Marked(c, listing, score, tDelete), listing)
    ensures Distinct(Marked(c, listing, score, tDelete))
  {
    if listing != [] {
      var n := |listing| - 1;
      var prev := Marked(c, listing[..n], score, tDelete);
      MarkedOrder(c, listing[..n], score, tDelete);
      MarkedMembers(c, listing[..n], score, tDelete);
      var id := listing[n];
      assert id !in listing[..n];
      assert id !in prev;
      if score(id) < tDelete && !IsProtected(c[id].meta) {
        var a := prev + [id];
        assert a[..|a| - 1] == prev;
        assert listing[..|listing| - 1] == listing[..n];
      } else if prev != [] {
        assert Marked(c, listing, score, tDelete) == prev;
        assert prev[|prev| - 1] in prev;
        assert listing[..|listing| - 1] == listing[..n];
      }
    }
  }

  /** Raising `t_delete` with the same scores can only mark more. */
  lemma ThresholdMonotone(c: Collection, listing: seq<Id>, score: Id -> real, t1: real, t2: real)
    requires forall k :: 0 <= k < |listing| ==> listing[k] in c
    requires t1 <= t2
    ensures forall id :: id in Marked(c, listing, score, t1) ==> id in Marked(c, listing, score, t2)
  {
    MarkedMembers(c, listing, score, t1);
    MarkedMembers(c, listing, score, t2);
  }

  /** `collection.delete(ids=ids)` */
  function DeleteIds(c: Collection, ids: seq<Id>): Collection {
    c - (set id | id in ids)
  }

  /** The collection after a maintenance pass over `listing` with these scores. */
  function AfterMaintenance(c: Collection, listing: seq<Id>, score: Id -> real, tDelete: real): Collection
    requires forall k :: 0 <= k < |listing| ==> listing[k] in c
  {
    if |listing| < MinPopulation then c else DeleteIds(c, Marked(c, listing, score, tDelete))
  }

  /** The population guard, the threshold rule and the protection override: with
      ten or more records, a record goes iff it scores below `t_delete` and is not
      protected; every survivor is unchanged and nothing is added. */
  lemma {:induction false} MaintenanceOutcome(c: Collection, listing: seq<Id>, score: Id -> real, tDelete: real)
    requires IsListing(listing, c.Keys)
    ensures AfterMaintenance(c, listing, score, tDelete).Keys <= c.Keys
    ensures forall id :: id in AfterMaintenance(c, listing, score, tDelete) ==>
              AfterMaintenance(c, listing, score, tDelete)[id] == c[id]
    ensures |c| < MinPopulation ==> AfterMaintenance(c, listing, score, tDelete) == c
    ensures |c| >= MinPopulation ==> forall id :: id in c ==>
              (id !in AfterMaintenance(c, listing, score, tDelete) <==> score(id) < tDelete && !IsProtected(c[id].meta))
    ensures forall id :: id in c && IsProtected(c[id].meta) ==> id in AfterMaintenance(c, listing, score, tDelete)
    ensures forall id :: id in c && score(id) >= tDelete ==> id in AfterMaintenance(c, listing, score, tDelete)
  {
    ListingSize(listing, c);
    MarkedMembers(c, listing, score, tDelete);
  }

  /** A listing has one entry per record. */
  lemma {:induction false} ListingSize(listing: seq<Id>, c: Collection)
    requires IsListing(listing, c.Keys)
    ensures |listing| == |c|
  {
    var ids := set id | id in listing;
    assert ids == c.Keys;
    DistinctCard(listing);
  }

  lemma {:induction false} DistinctCard<T>(s: seq<T>)
    requires Distinct(s)
    ensures |set x | x in s| == |s|
  {
    if s != [] {
      var n := |s| - 1;
      DistinctCard(s[..n]);
      assert (set x | x in s) == (set x | x in s[..n]) + {s[n]};
      assert s[n] !in s[..n];
    }
  }

  /** Raising `t_delete` with the same scores can only shrink what survives. */
  lemma SurvivorsMonotone(c: Collection, listing: seq<Id>, score: Id -> real, t1: real, t2: real)
    requires IsListing(listing, c.Keys)
    requires t1 <= t2
    ensures AfterMaintenance(c, listing, score, t2).Keys <= AfterMaintenance(c, listing, score, t1).Keys
  {
    ThresholdMonotone(c, listing, score, t1, t2);
  }

  // ------------------------------------------------------- the curator

  class MemoryCuratorHeuristic {
    const memory: ShoreStoneMemory
    /** `cosine_similarity` of two embeddings. */
    const cosine: (Embedding, Embedding) -> real
    /** `np.argsort` (see `IsAscendingArgsort` for what it returns). */
    const argsort: seq<real> -> seq<nat>
    /** `np.mean` over the chosen similarities. */
    const mean: Mean
    /** The weighted RFR sum over the inputs (alpha, beta, gamma and lambda live
        inside it). */
    const weigh: ScoreInputs -> real

    constructor (memory: ShoreStoneMemory, cosine: (Embedding, Embedding) -> real,
                 argsort: seq<real> -> seq<nat>, mean: Mean, weigh: ScoreInputs -> real)
      ensures this.memory == memory && this.cosine == cosine
      ensures this.argsort == argsort && this.mean == mean && this.weigh == weigh
    {
      this.memory := memory;
      this.cosine := cosine;
      this.argsort := argsort;
      this.mean := mean;
      this.weigh := weigh;
    }

    /** `_calculate_score` of record `id` against the snapshot's embeddings `all`. */
    function Score(c: Collection, all: seq<Embedding>, now: int, id: Id): real {
      if id !in c then 0.0
      else
        var sims := seq(|all|, k requires 0 <= k < |all| => cosine(c[id].embedding, all[k]));
        weigh(Inputs(c[id].meta, sims, argsort(sims), now, mean))
    }

    /** `np.array(all_mems['embeddings'])`: the snapshot's embeddings in listing order. */
    function SnapshotEmbeddings(c: Collection, listing: seq<Id>): seq<Embedding> {
      seq(|listing|, k requires 0 <= k < |listing| => if listing[k] in c then c[listing[k]].embedding else [])
    }

    /** The scores of one pass: every record against the same snapshot, at `now`. */
    function Scores(c: Collection, listing: seq<Id>, now: int): Id -> real {
      var all := SnapshotEmbeddings(c, listing);
      id => Score(c, all, now, id)
    }

    /** `run_maintenance_cycle`.  `listing` is the order in which `collection.get()`
        returns the records, `now` is the clock the scores read, and `tArchive` has
        no effect.  `batch` is the argument of the one `delete` call, `None` when it
        is not called. */
    method RunMaintenanceCycle(tDelete: real, tArchive: real, now: int, listing: seq<Id>) returns (batch: Option<seq<Id>>)
      requires memory.Valid()
      requires memory.session.Some? ==> IsListing(listing, memory.Active().Keys)
      modifies memory
      ensures memory.Valid() && memory.session == old(memory.session)
      ensures old(memory.session).None? ==> batch == None && memory.client == old(memory.client)
      ensures old(memory.session).Some? ==>
        var c := old(memory.Active());
        var marked := Marked(c, listing, Scores(c, listing, now), tDelete);
        && memory.client == old(memory.client)[memory.session.value := AfterMaintenance(c, listing, Scores(c, listing, now), tDelete)]
        && batch == (if |listing| < MinPopulation || marked == [] then None else Some(marked))
    {
      if memory.session.None? {
        return None;
      }
      var name := memory.session.value;
      var c := memory.client[name];
      assert memory.client[name := c] == memory.client;
      if |c| == 0 {
        ListingSize(listing, c);
        return None;
      }
      var allIds := listing;
      if |allIds| < MinPopulation {
        return None;
      }
      var allEmbeddings := SnapshotEmbeddings(c, allIds);
      ghost var scoreOf := Scores(c, listing, now);
      var idsToDelete: seq<Id> := [];
      for i := 0 to |allIds|
        invariant idsToDelete == Marked(c, allIds[..i], scoreOf, tDelete)
      {
        var memId := allIds[i];
        var memMeta := c[memId].meta;
        var score := Score(c, allEmbeddings, now, memId);
        assert score == scoreOf(memId);
        assert allIds[..i + 1][..i] == allIds[..i];
        if score < tDelete {
          if IsProtected(memMeta) {
            continue;
          }
          idsToDelete := idsToDelete + [memId];
        }
      }
      assert allIds[..|allIds|] == allIds;
      if idsToDelete != [] {
        memory.client := memory.client[name := DeleteIds(c, idsToDelete)];
        batch := Some(idsToDelete);
      } else {
        assert DeleteIds(c, idsToDelete) == c;
        batch := None;
      }
    }
  }
}
