/** jade3/core.py: `JadeAgent.respond`, one turn of the assistant: recall, see,
    answer, store, and every tenth turn run memory maintenance.  The language
    model is a function from the prompt to the reply; speech output and printing
    are not modelled. */
module JadeCore {
  import opened Wrappers
  import opened Chat
  import opened Slim
  import opened ShoreStone
  import opened Curator

  const SystemPrompt: string := "Você é J.A.D.E., uma IA multimodal calma e inteligente. Seja direta. Responda de forma concisa e natural. NÃO explique seu processo de pensamento. Apenas responda à pergunta."
  const SessionName: string := "sessao_padrao_gabriel"
  /** `self.maintenance_interval` */
  const MaintenanceInterval: nat := 10
  /** `remember`'s default `n_results` */
  const RecallCount: nat := 3
  /** `cfg.get("max_context", 12)` */
  const DefaultMaxContext: int := 12
  /** `run_maintenance_cycle`'s default thresholds */
  const DefaultDelete: real := 0.2
  const DefaultArchive: real := 0.4

  function MemoryContext(memories: string): string {
    "--- MEMÓRIAS RELEVANTES (ShoreStone) ---\n" + memories + "\n--- FIM DAS MEMÓRIAS ---"
  }

  function VisionContext(vision: string): string {
    "Contexto visual da imagem que o usuário enviou: " + vision
  }

  /** Python truthiness of an optional string: present and non-empty. */
  predicate Truthy(s: Option<string>) {
    s.Some? && s.value != ""
  }

  /** The prompt of one turn: the history, then the recalled memories and the
      image caption as system messages when there are any, then the user's input. */
  function Prompt(history: seq<Message>, memories: Option<string>, vision: Option<string>, userInput: string): (m: seq<Message>)
    ensures |m| == |history| + 1 + (if Truthy(memories) then 1 else 0) + (if Truthy(vision) then 1 else 0)
    ensures m[..|history|] == history
    ensures m[|m| - 1] == Message(User, userInput)
    ensures Truthy(memories) ==> m[|history|] == Message(System, MemoryContext(memories.value))
    ensures Truthy(vision) ==> m[|m| - 2] == Message(System, VisionContext(vision.value))
    ensures forall k :: |history| <= k < |m| - 1 ==> m[k].role == System
  {
    history
      + (if Truthy(memories) then [Message(System, MemoryContext(memories.value))] else [])
      + (if Truthy(vision) then [Message(System, VisionContext(vision.value))] else [])
      + [Message(User, userInput)]
  }

  /** `self.response_count % self.maintenance_interval == 0`: the turn that
      brings the counter to `count` runs maintenance. */
  predicate MaintenanceDue(count: nat) {
    count % MaintenanceInterval == 0
  }

  /** How many of the counter values `1..n`, those of an agent's first `n`
      turns, are due for maintenance. */
  function MaintenanceRuns(n: nat): nat {
    if n == 0 then 0
    else MaintenanceRuns(n - 1) + (if MaintenanceDue(n) then 1 else 0)
  }

  /** Maintenance is due on every tenth turn and on no other. */
  lemma {:induction false} MaintenanceEveryTenth(n: nat)
    ensures MaintenanceRuns(n) == n / MaintenanceInterval
  {
    if n > 0 {
      MaintenanceEveryTenth(n - 1);
    }
  }

  /** The client after the maintenance step of turn number `count` on the
      session `session`, run by `curator`. */
  function MaintenanceEffect(client: map<string, Collection>, session: Option<string>, curator: MemoryCuratorHeuristic,
                             count: nat, now: int, curatorRaises: bool, listing: seq<Id>): (r: map<string, Collection>)
    ensures !MaintenanceDue(count) || curatorRaises ==> r == client
    ensures r.Keys == client.Keys
  {
    if MaintenanceDue(count) && !curatorRaises && session.Some? && session.value in client
       && (forall k :: 0 <= k < |listing| ==> listing[k] in client[session.value]) then
      var c := client[session.value];
      client[session.value := AfterMaintenance(c, listing, curator.Scores(c, listing, now), DefaultDelete)]
    else
      client
  }

  class JadeAgent {
    var history: seq<Message>
    var responseCount: nat
    /** `self.cfg.get("max_context")`, when the configuration has it. */
    const maxContext: Option<int>
    const memory: ShoreStoneMemory
    const curator: MemoryCuratorHeuristic

    ghost predicate Valid()
      reads this, memory
    {
      memory.Valid() && curator.memory == memory
    }

    function Keep(): int {
      maxContext.GetOr(DefaultMaxContext)
    }

    /** `__init__`: the system prompt as the whole history, the counter at zero and
        the default session loaded. */
    constructor (memory: ShoreStoneMemory, curator: MemoryCuratorHeuristic, maxContext: Option<int>)
      requires memory.Valid() && curator.memory == memory
      modifies memory
      ensures Valid()
      ensures history == [Message(System, SystemPrompt)] && responseCount == 0
      ensures this.memory == memory && this.curator == curator && this.maxContext == maxContext
      ensures memory.session == Some(SessionName)
      ensures memory.client == OpenSession(old(memory.client), SessionName)
    {
      this.memory := memory;
      this.curator := curator;
      this.maxContext := maxContext;
      history := [Message(System, SystemPrompt)];
      responseCount := 0;
      new;
      memory.LoadOrCreateSession(SessionName);
    }

    /** One turn.  `llm` answers a prompt; `ranked`, `newId` and the three clock
        values are what the vector query, `uuid4()` and `time.time()` return;
        `curatorRaises` says whether the maintenance pass throws (it is caught), and
        `listing` is the order in which it would list the records. */
    method Respond(userInput: string, vision: Option<string>, llm: seq<Message> -> string,
                   ranked: seq<Id>, recallTime: int, newId: Id, storeTime: int,
                   maintenanceTime: int, curatorRaises: bool, listing: seq<Id>)
      returns (reply: string, messages: seq<Message>)
      requires Valid()
      requires memory.session.Some? ==> IsQueryAnswer(ranked, memory.Active(), RecallCount)
      requires memory.session.Some? ==> newId !in memory.Active()
      requires memory.session.Some? ==> IsListing(listing, memory.Active().Keys + {newId})
      modifies this, memory
      ensures Valid() && memory.session == old(memory.session)
      ensures responseCount == old(responseCount) + 1
      ensures messages == Prompt(old(history), RecallResult(old(memory.client), memory.session, ranked), vision, userInput)
      ensures reply == llm(messages)
      ensures history == SlimHistory(old(history) + [Message(User, userInput), Message(Assistant, reply)], Keep())
      ensures
        var recalled := RecallEffect(old(memory.client), memory.session, ranked, recallTime);
        var stored := StoreEffect(recalled, memory.session, NewRecord(memory.Embed(MemoryText(userInput, reply)), userInput, reply, storeTime), newId);
        memory.client == MaintenanceEffect(stored, memory.session, curator, responseCount, maintenanceTime, curatorRaises, listing)
    {
      messages := Recall(userInput, vision, ranked, recallTime);
      reply := llm(messages);
      history := history + [Message(User, userInput), Message(Assistant, reply)];
      history := SlimHistory(history, Keep());
      memory.Memorize(userInput, reply, newId, storeTime);
      CountAndMaintain(maintenanceTime, curatorRaises, listing);
    }

    /** The first half of a turn: memory retrieval (which does its access
        bookkeeping) and the prompt built from the history, the memories, the
        vision description and the user's input. */
    method Recall(userInput: string, vision: Option<string>, ranked: seq<Id>, now: int)
      returns (messages: seq<Message>)
      requires Valid()
      requires memory.session.Some? ==> IsQueryAnswer(ranked, memory.Active(), RecallCount)
      modifies memory
      ensures Valid() && memory.session == old(memory.session)
      ensures messages == Prompt(history, RecallResult(old(memory.client), memory.session, ranked), vision, userInput)
      ensures memory.client == RecallEffect(old(memory.client), memory.session, ranked, now)
    {
      messages := history;
      var memories := memory.Remember(userInput, RecallCount, ranked, now);
      if memories.Some? && memories.value != "" {
        messages := messages + [Message(System, MemoryContext(memories.value))];
      }
      if vision.Some? && vision.value != "" {
        messages := messages + [Message(System, VisionContext(vision.value))];
      }
      messages := messages + [Message(User, userInput)];
    }

    /** `self.response_count += 1`, then the maintenance pass on every tenth turn;
        an exception from the curator is swallowed. */
    method CountAndMaintain(now: int, curatorRaises: bool, listing: seq<Id>)
      requires Valid()
      requires memory.session.Some? ==> IsListing(listing, memory.Active().Keys)
      modifies this, memory
      ensures Valid() && memory.session == old(memory.session)
      ensures history == old(history) && responseCount == old(responseCount) + 1
      ensures memory.client == MaintenanceEffect(old(memory.client), memory.session, curator, responseCount, now, curatorRaises, listing)
    {
      responseCount := responseCount + 1;
      if MaintenanceDue(responseCount) {
        if !curatorRaises {
          var _ := curator.RunMaintenanceCycle(DefaultDelete, DefaultArchive, now, listing);
        }
      }
    }
  }
}
