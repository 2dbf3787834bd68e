/** What each turn of an index worker decides: which chunk it takes, how a build ends, what becomes of an answer. */
module SearchIndexPaths {
  import opened Wrappers
  import opened Embedding
  import opened Queries
  import opened SearchIndex

  // ---------------------------------------------------------------- failed, and why

  /** A generation bears an error exactly when it has failed. */
  ghost predicate ErrorsTell(gens: seq<Generation>) {
    forall g | 0 <= g < |gens| :: gens[g].status == Failed <==> gens[g].error.Some?
  }

  lemma ActivateTells(gens: seq<Generation>, g: nat)
    requires ErrorsTell(gens) && g < |gens|
    ensures Activate(gens, g).Some? ==> ErrorsTell(Activate(gens, g).value)
  {
    hide First;
  }

  lemma PickTells(st: State, worker: WorkerId, g: nat, seen: set<int>, still: set<int>)
    requires ErrorsTell(st.gens)
    ensures ErrorsTell(PickNext(st, worker, g, seen, still).0.gens)
  {
    hide Activate, Waiting, Kept, HasUnfinished, ItemOf;
    if g < |st.gens| && st.gens[g].status in {Queued, Running, Active} { ActivateTells(Started(st, g).gens, g); }
  }

  lemma StepTells(st: State, l: Label)
    requires ErrorsTell(st.gens)
    ensures ErrorsTell(Apply(st, l).gens)
  {
    hide First, PickNext, EmbeddingValues;
    match l
    case DoPick(worker, g, seen, still) => PickTells(st, worker, g, seen, still);
    case _ =>
  }

  /** In every reachable state a generation bears an error exactly when it has failed. */
  lemma {:induction false} RunsTell(labels: seq<Label>)
    ensures ErrorsTell(Exec(labels).gens)
  {
    hide Apply;
    if labels != [] {
      RunsTell(labels[..|labels| - 1]);
      StepTells(Exec(labels[..|labels| - 1]), labels[|labels| - 1]);
    }
  }

  // ------------------------------------------------------------------- generations

  /** A reindex continues the generation in progress; with none, a new one is queued for the model asked for. */
  lemma CreatedWhenIdle(st: State, model: Model)
    ensures (exists g :: 0 <= g < |st.gens| && InProgress(st.gens[g])) ==> Create(st, model) == st
    ensures !(exists g :: 0 <= g < |st.gens| && InProgress(st.gens[g])) ==>
              Create(st, model) == st.(gens := st.gens + [Generation(model, None, None, Queued, None)])
  {
    var k := First(st.gens, {Queued, Running}, 0);
  }

  /** An unusable model fails every generation but an active one. */
  lemma UnavailableFails(st: State, g: nat)
    requires g < |st.gens|
    ensures Unavailable(st, g) == if st.gens[g].status == Active then st
                                  else st.(gens := st.gens[g := st.gens[g].(status := Failed, error := Some(ModelUnavailable))])
  {}

  // ------------------------------------------------------------------ taking a chunk

  /** The chunk has no item in the generation, or only one that waits. */
  ghost predicate Lacks(items: map<ItemId, Item>, g: nat, c: int) {
    forall id | IsItemOf(items, id, g, c) :: items[id].status == Pending
  }

  lemma WaitingIsLacking(items: map<ItemId, Item>, g: nat, eligible: set<int>, c: int)
    ensures c in Waiting(items, g, eligible) <==> c in eligible && Lacks(items, g, c)
  {
    if c in eligible && c !in Waiting(items, g, eligible) {
      var id :| id in items && items[id].gen == g && items[id].chunk == c && items[id].status != Pending;
      assert IsItemOf(items, id, g, c);
    }
  }

  /**
   A turn takes the first eligible chunk that lacks a finished item, with a pending item of its
   own, made if there was none, and the generation's dimensions of the moment; a queued
   generation is then running. Nothing else changes.
   */
  lemma TurnTakesFirst(st: State, worker: WorkerId, g: nat, seen: set<int>, still: set<int>)
    requires Inv(st) && g < |st.gens| && st.gens[g].status in {Queued, Running, Active}
    requires exists c :: c in seen && Lacks(st.items, g, c)
    ensures var (after, taken) := PickNext(st, worker, g, seen, still);
            && taken.Some? && var p := taken.value;
            && p.gen == g && p.chunk in seen && Lacks(st.items, g, p.chunk) && p.dimensions == st.gens[g].dimensions
            && (forall c | c in seen && Lacks(st.items, g, c) :: p.chunk <= c)
            && IsItemOf(after.items, p.item, g, p.chunk) && after.items[p.item].status == Pending
            && after.picks == st.picks[worker := p]
            && after.gens == st.gens[g := st.gens[g].(status := if st.gens[g].status == Active then Active else Running)]
            && (after.items == st.items
                || (p.item !in st.items && after.items == st.items[p.item := Item(g, p.chunk, Pending, None)] && after.nextItem == st.nextItem + 1))
  {
    var waiting := Waiting(st.items, g, seen);
    forall c ensures c in waiting <==> c in seen && Lacks(st.items, g, c) { WaitingIsLacking(st.items, g, seen, c); }
    var w :| w in seen && Lacks(st.items, g, w);
    assert w in waiting;
    FreshItem(st);
    hide Waiting, Inv, Finish;
    var c := Least(waiting);
    match ItemOf(st.items, g, c)
    case Some(id) => assert IsItemOf(st.items, id, g, c);
    case None =>
  }

  lemma FreshItem(st: State)
    requires Inv(st)
    ensures st.nextItem !in st.items
  {}

  /** A turn that finds nothing to take in an active generation leaves everything as it was. */
  lemma ActiveTurnIdle(st: State, worker: WorkerId, g: nat, seen: set<int>, still: set<int>)
    requires g < |st.gens| && st.gens[g].status == Active && forall c | c in seen :: !Lacks(st.items, g, c)
    ensures PickNext(st, worker, g, seen, still) == (st, None)
  {
    forall c ensures c !in Waiting(st.items, g, seen) { WaitingIsLacking(st.items, g, seen, c); }
    hide Waiting;
  }

  // ---------------------------------------------------------------------- a build's end

  /** An item that keeps its generation from being complete: unfinished, of a chunk that is still eligible. */
  ghost predicate Blocks(item: Item, g: nat, still: set<int>) { item.gen == g && item.status != Succeeded && item.chunk in still }

  /**
   How a build ends when no chunk is left to take: it becomes active exactly when no eligible
   chunk's item is unfinished and some vector has fixed the dimensions; else it fails, for its
   items or for want of chunks. Unfinished items of other chunks are dropped, no other item.
   */
  lemma BuildEnds(st: State, worker: WorkerId, g: nat, seen: set<int>, still: set<int>)
    requires Inv(st) && g < |st.gens| && InProgress(st.gens[g]) && forall c | c in seen :: !Lacks(st.items, g, c)
    ensures var (after, taken) := PickNext(st, worker, g, seen, still);
            && taken.None? && |after.gens| == |st.gens|
            && var blocked := exists id :: id in st.items && Blocks(st.items[id], g, still);
            && (after.gens[g].status == Active <==> !blocked && st.gens[g].dimensions.Some?)
            && (blocked ==> after.gens[g].status == Failed && after.gens[g].error == Some(ItemFailed))
            && (!blocked && st.gens[g].dimensions.None? ==> after.gens[g].status == Failed && after.gens[g].error == Some(NoIndexableChunks))
            && (after.gens[g].status == Active ==> after.gens[g].error == None)
            && (forall id :: id in after.items <==>
                  id in st.items && (st.items[id].gen != g || st.items[id].status == Succeeded || st.items[id].chunk in still))
            && (forall id | id in after.items :: after.items[id] == st.items[id])
            && after.picks == st.picks
  {
    hide Waiting, Inv, Finish, HasUnfinished, Activate;
    forall c ensures c !in Waiting(st.items, g, seen) { WaitingIsLacking(st.items, g, seen, c); }
    InvHasGens(st);
    StartedKeeps(st, g);
    hide GensFine, Follows;
    FinishEnds(Started(st, g), g, still, st);
  }

  lemma InvHasGens(st: State)
    requires Inv(st)
    ensures GensFine(st.gens)
  {}

  lemma FinishEnds(st: State, g: nat, still: set<int>, before: State)
    requires GensFine(st.gens) && g < |st.gens| && st.gens[g].status == Running
    ensures var after := Finish(st, g, still, before);
            && |after.gens| == |st.gens|
            && var blocked := exists id :: id in st.items && Blocks(st.items[id], g, still);
            && (after.gens[g].status == Active <==> !blocked && st.gens[g].dimensions.Some?)
            && (blocked ==> after.gens[g].status == Failed && after.gens[g].error == Some(ItemFailed))
            && (!blocked && st.gens[g].dimensions.None? ==> after.gens[g].status == Failed && after.gens[g].error == Some(NoIndexableChunks))
            && (after.gens[g].status == Active ==> after.gens[g].error == None)
            && after.items == Kept(st.items, g, still) && after.picks == st.picks
  {
    hide Kept, HasUnfinished, Blocks;
    if st.gens[g].dimensions.Some? { DimensionsInRange(st.gens, g); }
    hide GensFine, First;
    BlockedIff(st.items, g, still);
  }

  lemma DimensionsInRange(gens: seq<Generation>, g: nat)
    requires GensFine(gens) && g < |gens| && gens[g].dimensions.Some?
    ensures 1 <= gens[g].dimensions.value <= MAX_VECTOR_DIMENSIONS
  {}

  lemma BlockedIff(items: map<ItemId, Item>, g: nat, still: set<int>)
    ensures HasUnfinished(Kept(items, g, still), g) <==> exists id :: id in items && Blocks(items[id], g, still)
  {
    if id :| id in items && Blocks(items[id], g, still) { assert id in Kept(items, g, still); }
  }

  // ------------------------------------------------------------------- after the answer

  /** The answer fits the generation: it is the first, or of the recorded identity and dimensions. */
  ghost predicate Fits(gen: Generation, answer: Answer) {
    gen.dimensions.None? || (gen.responseModel == answer.model && gen.dimensions == Some(|answer.values|))
  }

  /** What sending a picked chunk comes to. */
  lemma SendDecides(st: State, worker: WorkerId, w: World)
    requires worker in st.picks && st.picks[worker].gen < |st.gens|
    ensures var (after, outcome) := Embed(st, worker, w); var p := st.picks[worker]; var gen := st.gens[p.gen];
            var asked := w.current && w.allowed && w.sameModel && w.answer.Some?;
            var reply := if asked then EmbeddingValues(w.answer.value, p.dimensions) else Err(Invalid);
            var there := p.item in st.items && gen.status in {Running, Active};
            // no longer current, or the item or the generation gone meanwhile: the item is dropped
            && (outcome == Skipped <==> !w.current || (reply.Ok? && !there))
            && (outcome == Skipped ==> after.gens == st.gens && p.item !in after.items && forall id | id in st.items && id != p.item :: id in after.items && after.items[id] == st.items[id])
            // the vector is stored; the first one fixes dimensions and identity
            && (outcome == Stored <==> reply.Ok? && there && Fits(gen, reply.value))
            && (outcome == Stored ==>
                  && after.items == st.items[p.item := st.items[p.item].(status := Succeeded, embedding := Some(reply.value.values))]
                  && after.gens == st.gens[p.gen := gen.(responseModel := reply.value.model, dimensions := Some(|reply.value.values|))])
            // another identity fails the generation and the item
            && (reply.Ok? && there && gen.dimensions.Some? && gen.responseModel != reply.value.model ==>
                  && outcome == Stopped && after.items == st.items[p.item := st.items[p.item].(status := ItemFailure)]
                  && after.gens == st.gens[p.gen := gen.(status := Failed, error := Some(ModelIdentityChanged))])
            // not permitted: the worker stops and nothing changes
            && (w.current && !w.allowed ==> outcome == Stopped && after.gens == st.gens && after.items == st.items)
            // everything else raises, and the handler fails the item
            && (outcome == Raised ==> after == st)
            && (w.current && w.allowed && (!asked || reply == Err(Invalid)) ==> outcome == Raised)
            && (reply.Ok? && there && gen.dimensions.Some? && gen.responseModel == reply.value.model && gen.dimensions != Some(|reply.value.values|) ==> outcome == Raised)
            && (reply == Err(Overflow) ==> outcome == Crashed && after.gens == st.gens && after.items == st.items)
            && after.picks == (if outcome == Raised then st.picks else st.picks - {worker})
  {
    hide EmbeddingValues;
  }

  /** A chunk whose item was dropped lacks one again; a chunk whose item failed does not, and is not taken again. */
  lemma DroppedLacksFailedDoesNot(st: State, worker: WorkerId, w: World)
    requires Inv(st) && worker in st.picks && st.picks[worker].item in st.items
    ensures var p := st.picks[worker];
            && (Embed(st, worker, w).1 == Skipped ==> Lacks(Embed(st, worker, w).0.items, p.gen, p.chunk))
            && !Lacks(FailItem(st, worker).items, p.gen, p.chunk)
            && FailItem(st, worker).items == st.items[p.item := st.items[p.item].(status := ItemFailure)]
            && FailItem(st, worker).gens == st.gens && FailItem(st, worker).picks == st.picks - {worker}
  {
    var p := st.picks[worker];
    PickedItem(st, worker);
    SendDecides(st, worker, w);
    hide Inv, Embed, EmbeddingValues;
    assert IsItemOf(FailItem(st, worker).items, p.item, p.gen, p.chunk);
  }

  lemma PickedItem(st: State, worker: WorkerId)
    requires Inv(st) && worker in st.picks && st.picks[worker].item in st.items
    ensures var p := st.picks[worker];
            && p.gen < |st.gens| && IsItemOf(st.items, p.item, p.gen, p.chunk)
            && forall id | IsItemOf(st.items, id, p.gen, p.chunk) :: id == p.item
  {}
}
