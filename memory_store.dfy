/**
 * The semantic_memory and episodic_memory tables, held in memory. Searches
 * use SQLite's LIKE with the pattern `%query%` (Text.Like), newest first.
 */
module MemoryStore {
  import opened Types
  import opened Ordering
  import opened Text

  datatype MemoryCategory = Supplier | Client | Rule | Preference | General

  /** Confidence is a floating-point value the core only stores and returns. */
  type Confidence = real

  datatype SemanticMemory = SemanticMemory(
    id: nat,
    category: MemoryCategory,
    key: string,
    value: string,
    confidence: Confidence,
    source: string,
    createdAt: nat,
    updatedAt: nat)

  datatype Outcome = Success | Partial | FailedOutcome

  /** The three context records the core writes; `{}` is the default. */
  datatype Context = EmptyContext | InputContext(input: map<string, Json>) | ErrorContext(error: string)

  datatype EpisodicMemory = EpisodicMemory(
    id: nat,
    agentId: string,
    taskId: Option<nat>,
    summary: string,
    context: Context,
    outcome: Outcome,
    lessons: string,
    createdAt: nat)

  /** The fields `updateSemanticMemory` may replace; an absent one is kept. */
  datatype SemanticUpdates = SemanticUpdates(value: Option<string>, confidence: Option<Confidence>, category: Option<MemoryCategory>)

  /** The options of `createEpisodicMemory`. */
  datatype EpisodicOptions = EpisodicOptions(taskId: Option<nat>, context: Option<Context>, lessons: Option<string>)

  const DefaultConfidence: Confidence := 1.0
  const DefaultSearchLimit := 20
  const DefaultListLimit := 50

  predicate UniqueSemanticIds(rows: seq<SemanticMemory>) {
    forall i, j :: 0 <= i < j < |rows| ==> rows[i].id != rows[j].id
  }

  function FindSemantic(rows: seq<SemanticMemory>, id: nat): (r: Option<SemanticMemory>)
    ensures r.Some? ==> r.value in rows && r.value.id == id
    ensures r.None? <==> forall i :: 0 <= i < |rows| ==> rows[i].id != id
  {
    if |rows| == 0 then None
    else if rows[0].id == id then Some(rows[0])
    else FindSemantic(rows[1..], id)
  }

  /** The merged record: supplied fields replace, key, source and createdAt stay, updatedAt is refreshed. */
  function MergeSemantic(m: SemanticMemory, u: SemanticUpdates, now: nat): (r: SemanticMemory)
    ensures r.id == m.id && r.key == m.key && r.source == m.source && r.createdAt == m.createdAt
    ensures r.updatedAt == now
    ensures r.value == (if u.value.Some? then u.value.value else m.value)
    ensures r.confidence == (if u.confidence.Some? then u.confidence.value else m.confidence)
    ensures r.category == (if u.category.Some? then u.category.value else m.category)
  {
    m.(value := if u.value.Some? then u.value.value else m.value,
       confidence := if u.confidence.Some? then u.confidence.value else m.confidence,
       category := if u.category.Some? then u.category.value else m.category,
       updatedAt := now)
  }

  /** The record `createEpisodicMemory` inserts. */
  function NewEpisodic(id: nat, agentId: string, summary: string, outcome: Outcome, o: EpisodicOptions, now: nat): EpisodicMemory {
    EpisodicMemory(id, agentId, o.taskId, summary,
                   if o.context.Some? then o.context.value else EmptyContext,
                   outcome,
                   if o.lessons.Some? then o.lessons.value else "",
                   now)
  }

  lemma NewEpisodicDefaults(id: nat, agentId: string, summary: string, outcome: Outcome, now: nat)
    ensures var e := NewEpisodic(id, agentId, summary, outcome, EpisodicOptions(None, None, None), now);
      e.taskId.None? && e.context == EmptyContext && e.lessons == "" && e.summary == summary && e.outcome == outcome
  {
  }

  // ─── Queries ───────────────────────────────────────────

  /** ORDER BY updated_at DESC. */
  function ByUpdatedDesc(m: SemanticMemory): Key {
    Key(-(m.updatedAt as int), 0)
  }

  /** ORDER BY created_at DESC. */
  function ByCreatedDesc(e: EpisodicMemory): Key {
    Key(-(e.createdAt as int), 0)
  }

  predicate SemanticMatches(query: string, category: Option<MemoryCategory>, m: SemanticMemory) {
    && (category.Some? ==> m.category == category.value)
    && (Like(m.key, ContainsPattern(query)) || Like(m.value, ContainsPattern(query)))
  }

  function SemanticFilter(query: string, category: Option<MemoryCategory>): SemanticMemory -> bool {
    m => SemanticMatches(query, category, m)
  }

  function SearchSemantic(rows: seq<SemanticMemory>, query: string, category: Option<MemoryCategory>,
                          limit: int := DefaultSearchLimit): seq<SemanticMemory> {
    Select(rows, SemanticFilter(query, category), ByUpdatedDesc, limit)
  }

  function CategoryFilter(category: Option<MemoryCategory>): SemanticMemory -> bool {
    (m: SemanticMemory) => category.Some? ==> m.category == category.value
  }

  function ListSemantic(rows: seq<SemanticMemory>, category: Option<MemoryCategory>,
                        limit: int := DefaultListLimit): seq<SemanticMemory> {
    Select(rows, CategoryFilter(category), ByUpdatedDesc, limit)
  }

  /** `agentId` is tested for truthiness: an empty name filters nothing. */
  predicate EpisodicMatches(query: string, agentId: Option<string>, e: EpisodicMemory) {
    && (Present(agentId) ==> e.agentId == agentId.value)
    && (Like(e.summary, ContainsPattern(query)) || Like(e.lessons, ContainsPattern(query)))
  }

  function EpisodicFilter(query: string, agentId: Option<string>): EpisodicMemory -> bool {
    e => EpisodicMatches(query, agentId, e)
  }

  function SearchEpisodic(rows: seq<EpisodicMemory>, query: string, agentId: Option<string>,
                          limit: int := DefaultSearchLimit): seq<EpisodicMemory> {
    Select(rows, EpisodicFilter(query, agentId), ByCreatedDesc, limit)
  }

  function AgentFilter(agentId: Option<string>): EpisodicMemory -> bool {
    (e: EpisodicMemory) => Present(agentId) ==> e.agentId == agentId.value
  }

  function ListEpisodic(rows: seq<EpisodicMemory>, agentId: Option<string>,
                        limit: int := DefaultListLimit): seq<EpisodicMemory> {
    Select(rows, AgentFilter(agentId), ByCreatedDesc, limit)
  }

  /**
   * `searchSemanticMemory` returns stored records of the category (when one
   * is given) whose key or value matches the query, newest update first, at
   * most `limit`, and every such record when the limit does not cut. For a query without `%` or `_`, matching is containment up
   * to ASCII case.
   */
  lemma {:induction false} SearchSemanticSpec(rows: seq<SemanticMemory>, query: string, category: Option<MemoryCategory>, limit: int)
    ensures var r := SearchSemantic(rows, query, category, limit);
      && (forall i :: 0 <= i < |r| ==> r[i] in rows && SemanticMatches(query, category, r[i]))
      && (forall i, j :: 0 <= i < j < |r| ==> r[i].updatedAt >= r[j].updatedAt)
      && (0 <= limit ==> |r| <= limit)
      && Answers(r, rows, SemanticFilter(query, category), ByUpdatedDesc, limit)
    ensures WildcardFree(query) ==> forall m :: SemanticMatches(query, category, m) <==>
      (category.Some? ==> m.category == category.value) &&
      (ContainsFolded(m.key, query) || ContainsFolded(m.value, query))
  {
    SelectSpec(rows, SemanticFilter(query, category), ByUpdatedDesc, limit);
    if WildcardFree(query) {
      SemanticContainment(query, category);
    }
  }

  lemma {:induction false} SemanticContainment(query: string, category: Option<MemoryCategory>)
    requires WildcardFree(query)
    ensures forall m :: SemanticMatches(query, category, m) <==>
      (category.Some? ==> m.category == category.value) &&
      (ContainsFolded(m.key, query) || ContainsFolded(m.value, query))
  {
    forall m: SemanticMemory
      ensures SemanticMatches(query, category, m) <==>
        (category.Some? ==> m.category == category.value) &&
        (ContainsFolded(m.key, query) || ContainsFolded(m.value, query))
    {
      LikeContains(m.key, query);
      LikeContains(m.value, query);
    }
  }

  lemma {:induction false} ListSemanticSpec(rows: seq<SemanticMemory>, category: Option<MemoryCategory>, limit: int)
    ensures var r := ListSemantic(rows, category, limit);
      && (forall i :: 0 <= i < |r| ==> r[i] in rows && (category.Some? ==> r[i].category == category.value))
      && (forall i, j :: 0 <= i < j < |r| ==> r[i].updatedAt >= r[j].updatedAt)
      && (0 <= limit ==> |r| <= limit)
      && Answers(r, rows, CategoryFilter(category), ByUpdatedDesc, limit)
  {
    SelectSpec(rows, CategoryFilter(category), ByUpdatedDesc, limit);
  }

  /**
   * `searchEpisodicMemory` returns records of the agent (when a name is
   * given) whose summary or lessons match the query, newest first, at most
   * `limit`, and every such record when the limit does not cut. For a query
   * without `%` or `_`, matching is containment up to ASCII case.
   */
  lemma {:induction false} SearchEpisodicSpec(rows: seq<EpisodicMemory>, query: string, agentId: Option<string>, limit: int)
    ensures var r := SearchEpisodic(rows, query, agentId, limit);
      && (forall i :: 0 <= i < |r| ==> r[i] in rows && EpisodicMatches(query, agentId, r[i]))
      && (forall i, j :: 0 <= i < j < |r| ==> r[i].createdAt >= r[j].createdAt)
      && (0 <= limit ==> |r| <= limit)
      && Answers(r, rows, EpisodicFilter(query, agentId), ByCreatedDesc, limit)
    ensures WildcardFree(query) ==> forall e :: EpisodicMatches(query, agentId, e) <==>
      (Present(agentId) ==> e.agentId == agentId.value) &&
      (ContainsFolded(e.summary, query) || ContainsFolded(e.lessons, query))
  {
    SelectSpec(rows, EpisodicFilter(query, agentId), ByCreatedDesc, limit);
    if WildcardFree(query) {
      EpisodicContainment(query, agentId);
    }
  }

  lemma {:induction false} EpisodicContainment(query: string, agentId: Option<string>)
    requires WildcardFree(query)
    ensures forall e :: EpisodicMatches(query, agentId, e) <==>
      (Present(agentId) ==> e.agentId == agentId.value) &&
      (ContainsFolded(e.summary, query) || ContainsFolded(e.lessons, query))
  {
    forall e: EpisodicMemory
      ensures EpisodicMatches(query, agentId, e) <==>
        (Present(agentId) ==> e.agentId == agentId.value) &&
        (ContainsFolded(e.summary, query) || ContainsFolded(e.lessons, query))
    {
      LikeContains(e.summary, query);
      LikeContains(e.lessons, query);
    }
  }

  lemma {:induction false} ListEpisodicSpec(rows: seq<EpisodicMemory>, agentId: Option<string>, limit: int)
    ensures var r := ListEpisodic(rows, agentId, limit);
      && (forall i :: 0 <= i < |r| ==> r[i] in rows && (Present(agentId) ==> r[i].agentId == agentId.value))
      && (forall i, j :: 0 <= i < j < |r| ==> r[i].createdAt >= r[j].createdAt)
      && (0 <= limit ==> |r| <= limit)
      && Answers(r, rows, AgentFilter(agentId), ByCreatedDesc, limit)
  {
    SelectSpec(rows, AgentFilter(agentId), ByCreatedDesc, limit);
  }

  // ─── Deleting ──────────────────────────────────────────

  function WithoutSemantic(rows: seq<SemanticMemory>, id: nat): (r: seq<SemanticMemory>)
    ensures forall x :: x in r <==> x in rows && x.id != id
  {
    Filter(rows, (m: SemanticMemory) => m.id != id)
  }

  function WithoutEpisodic(rows: seq<EpisodicMemory>, id: nat): (r: seq<EpisodicMemory>)
    ensures forall x :: x in r <==> x in rows && x.id != id
  {
    Filter(rows, (e: EpisodicMemory) => e.id != id)
  }

  predicate HasEpisodic(rows: seq<EpisodicMemory>, id: nat) {
    exists i :: 0 <= i < |rows| && rows[i].id == id
  }

  // ─── The tables ────────────────────────────────────────

  class MemoryTables {
    var semantic: seq<SemanticMemory>
    var episodic: seq<EpisodicMemory>

    ghost predicate Valid()
      reads this
    {
      UniqueSemanticIds(semantic)
    }

    constructor ()
      ensures Valid() && semantic == [] && episodic == []
    {
      semantic := [];
      episodic := [];
    }

    /** `createSemanticMemory`: a fresh record whose creation and update times coincide. */
    method CreateSemanticMemory(category: MemoryCategory, key: string, value: string, source: string,
                                id: nat, now: nat, confidence: Confidence := DefaultConfidence)
      returns (m: SemanticMemory)
      requires Valid() && FindSemantic(semantic, id).None?
      modifies this`semantic
      ensures Valid()
      ensures m == SemanticMemory(id, category, key, value, confidence, source, now, now)
      ensures m.createdAt == m.updatedAt
      ensures semantic == old(semantic) + [m] && episodic == old(episodic)
    {
      m := SemanticMemory(id, category, key, value, confidence, source, now, now);
      semantic := semantic + [m];
    }

    /** `updateSemanticMemory`: null and no change for an unknown id, else the merged record. */
    method UpdateSemanticMemory(id: nat, updates: SemanticUpdates, now: nat) returns (r: Option<SemanticMemory>)
      requires Valid()
      modifies this`semantic
      ensures Valid() && episodic == old(episodic)
      ensures FindSemantic(old(semantic), id).None? ==> r.None? && semantic == old(semantic)
      ensures FindSemantic(old(semantic), id).Some? ==>
        && r == Some(MergeSemantic(FindSemantic(old(semantic), id).value, updates, now))
        && |semantic| == |old(semantic)|
        && forall i :: 0 <= i < |semantic| ==>
             semantic[i] == if old(semantic)[i].id == id then r.value else old(semantic)[i]
    {
      var existing := FindSemantic(semantic, id);
      if existing.None? {
        return None;
      }
      var merged := MergeSemantic(existing.value, updates, now);
      var k :| 0 <= k < |semantic| && semantic[k] == existing.value;
      semantic := semantic[k := merged];
      r := Some(merged);
    }

    /** `deleteSemanticMemory`: true exactly when such a record existed; none exists afterwards. */
    method DeleteSemanticMemory(id: nat) returns (existed: bool)
      requires Valid()
      modifies this`semantic
      ensures Valid() && episodic == old(episodic)
      ensures existed <==> FindSemantic(old(semantic), id).Some?
      ensures semantic == WithoutSemantic(old(semantic), id)
      ensures FindSemantic(semantic, id).None?
    {
      existed := FindSemantic(semantic, id).Some?;
      var kept := WithoutSemantic(semantic, id);
      assert UniqueSemanticIds(kept) by {
        FilterKeepsUnique(semantic, id);
      }
      semantic := kept;
    }

    method CreateEpisodicMemory(agentId: string, summary: string, outcome: Outcome, options: EpisodicOptions,
                                id: nat, now: nat) returns (e: EpisodicMemory)
      modifies this`episodic
      ensures e == NewEpisodic(id, agentId, summary, outcome, options, now)
      ensures episodic == old(episodic) + [e] && semantic == old(semantic)
    {
      e := NewEpisodic(id, agentId, summary, outcome, options, now);
      episodic := episodic + [e];
    }

    /** `deleteEpisodicMemory`: true exactly when a record with that id existed; none exists afterwards. */
    method DeleteEpisodicMemory(id: nat) returns (existed: bool)
      modifies this`episodic
      ensures existed <==> HasEpisodic(old(episodic), id)
      ensures episodic == WithoutEpisodic(old(episodic), id) && semantic == old(semantic)
      ensures !HasEpisodic(episodic, id)
    {
      existed := HasEpisodic(episodic, id);
      episodic := WithoutEpisodic(episodic, id);
    }
  }

  lemma {:induction false} FilterKeepsUnique(rows: seq<SemanticMemory>, id: nat)
    requires UniqueSemanticIds(rows)
    ensures UniqueSemanticIds(WithoutSemantic(rows, id))
  {
    var r := WithoutSemantic(rows, id);
    if |rows| > 0 {
      assert UniqueSemanticIds(rows[1..]) by {
        forall i, j | 0 <= i < j < |rows[1..]|
          ensures rows[1..][i].id != rows[1..][j].id
        {
          assert rows[1..][i] == rows[i + 1] && rows[1..][j] == rows[j + 1];
        }
      }
      FilterKeepsUnique(rows[1..], id);
      var tail := WithoutSemantic(rows[1..], id);
      if rows[0].id != id {
        assert r == [rows[0]] + tail;
        forall k | 0 <= k < |tail|
          ensures tail[k].id != rows[0].id
        {
          assert tail[k] in rows[1..];
        }
      } else {
        assert r == tail;
      }
    }
  }
}
