/** The rows of the vector index, updated in place by the worker's transactions. */
module SearchIndexStore {
  import opened Wrappers
  import opened Embedding
  import opened Queries
  import opened SearchIndex

  class Store {
    var gens: seq<Generation>
    var items: map<ItemId, Item>
    var nextItem: ItemId
    var picks: map<WorkerId, Pick>

    function View(): State
      reads this
    {
      State(gens, items, nextItem, picks)
    }

    ghost predicate Valid()
      reads this
    {
      Inv(View())
    }

    constructor ()
      ensures Valid() && View() == NOTHING
    {
      gens, items, nextItem, picks := [], map[], 0, map[];
      new;
      EmptyFine();
    }

    /** The first generation, in order of creation, with one of the statuses. */
    method Find(wanted: set<Status>) returns (k: nat)
      ensures k == First(gens, wanted, 0)
    {
      k := 0;
      while k < |gens| && gens[k].status !in wanted
        invariant k <= |gens| && First(gens, wanted, 0) == First(gens, wanted, k)
      {
        k := k + 1;
      }
    }

    /** create_generation. */
    method CreateGeneration(model: Model) returns (id: nat)
      requires Valid()
      modifies this`gens
      ensures Valid() && View() == Create(old(View()), model)
      ensures id < |gens| && InProgress(gens[id]) && forall g | 0 <= g < |gens| && InProgress(gens[g]) :: g == id
    {
      CreateKeeps(View(), model);
      id := Find({Queued, Running});
      if id < |gens| { return; }
      gens := gens + [Generation(model, None, None, Queued, None)];
    }

    /** The generation a worker turns to: the one in progress, else the active one. */
    method Choose() returns (g: Option<nat>)
      requires Valid()
      ensures g.Some? ==> g.value < |gens| && (InProgress(gens[g.value]) || gens[g.value].status == Active)
      ensures forall i | 0 <= i < |gens| && InProgress(gens[i]) :: g == Some(i)
      ensures forall i | 0 <= i < |gens| && gens[i].status == Active :: g.Some? && (InProgress(gens[g.value]) || g.value == i)
    {
      var k := Find({Queued, Running});
      if k < |gens| { return Some(k); }
      k := Find({Active});
      g := if k < |gens| then Some(k) else None;
    }

    /** The model is unavailable or no longer the mapped one. */
    method FailUnavailable(g: nat)
      requires Valid()
      modifies this`gens
      ensures Valid() && View() == Unavailable(old(View()), g)
      ensures |gens| == |old(gens)| && forall i | 0 <= i < |gens| && (i != g || old(gens)[i].status == Active) :: gens[i] == old(gens)[i]
      ensures g < |gens| ==> gens[g].status in {Active, Failed}
    {
      UnavailableKeeps(View(), g);
      if g < |gens| && gens[g].status != Active {
        gens := gens[g := gens[g].(status := Failed, error := Some(ModelUnavailable))];
      }
    }

    /** activate_generation. */
    method ActivateGeneration(g: nat) returns (raised: bool)
      requires g < |gens|
      modifies this`gens
      ensures raised <==> Activate(old(gens), g).None?
      ensures gens == if raised then old(gens) else Activate(old(gens), g).value
    {
      if gens[g].dimensions.None? || !(1 <= gens[g].dimensions.value <= MAX_VECTOR_DIMENSIONS) { return true; }
      var prior := Find({Active});
      if prior < |gens| {
        gens := gens[prior := gens[prior].(status := Retired)];
      }
      gens := gens[g := gens[g].(status := Active, error := None)];
      raised := false;
    }

    /** The end of a build: stray items go, then the generation fails or is made active. */
    method FinishGeneration(g: nat, eligible: set<int>) returns (raised: bool)
      requires Valid() && g < |gens| && gens[g].status == Running
      modifies this`gens, this`items
      ensures Valid() && !raised && forall before :: View() == Finish(old(View()), g, eligible, before)
    {
      FinishKeeps(View(), g, eligible, View());
      FinishNeverRaises(View(), g, eligible);
      hide Inv, Activate;
      items := map id | id in items && !Stray(items[id], g, eligible) :: items[id];
      assert items == Kept(old(items), g, eligible);
      raised := false;
      if exists id | id in items :: items[id].gen == g && items[id].status != Succeeded {
        gens := gens[g := gens[g].(status := Failed, error := Some(ItemFailed))];
      } else if gens[g].dimensions.None? {
        gens := gens[g := gens[g].(status := Failed, error := Some(NoIndexableChunks))];
      } else {
        raised := ActivateGeneration(g);
      }
    }

    /** One turn of the worker's first transaction. */
    method Next(worker: WorkerId, g: nat, seen: set<int>, still: set<int>) returns (pick: Option<Pick>)
      requires Valid() && worker !in picks
      modifies this
      ensures Valid() && (View(), pick) == PickNext(old(View()), worker, g, seen, still)
    {
      PickKeeps(View(), worker, g, seen, still);
      hide Finish, Inv, Take, First, Waiting, GensFine, ItemsFine, PicksFine;
      if g >= |gens| || gens[g].status !in {Queued, Running, Active} { return None; }
      StartedInv(View(), g);
      if gens[g].status == Queued {
        gens := gens[g := gens[g].(status := Running)];
      }
      assert View() == Started(old(View()), g);
      var waiting := Waiting(items, g, seen);
      if !(exists c :: c in waiting) {
        if gens[g].status == Running {
          var _ := FinishGeneration(g, still);
        }
        return None;
      }
      var c := FirstChunk(waiting);
      var p := TakeChunk(worker, g, c);
      pick := Some(p);
    }

    /** The chunk's item, created when it has none, becomes the worker's. */
    method TakeChunk(worker: WorkerId, g: nat, c: int) returns (pick: Pick)
      requires Valid() && g < |gens|
      modifies this`items, this`nextItem, this`picks
      ensures Valid() && (View(), pick) == Take(old(View()), worker, g, c)
    {
      TakeKeeps(View(), worker, g, c);
      hide Inv, ItemOf;
      var found := FindItem(g, c);
      var item := nextItem;
      if found.Some? {
        item := found.value;
      } else {
        items := items[item := Item(g, c, Pending, None)];
        nextItem := nextItem + 1;
      }
      pick := Pick(g, item, c, gens[g].dimensions);
      picks := picks[worker := pick];
    }

    static method FirstChunk(chunks: set<int>) returns (c: int)
      requires exists c :: c in chunks
      ensures c == Least(chunks)
    {
      ghost var least := Least(chunks);
      c :| c in chunks && forall other | other in chunks :: c <= other;
    }

    method FindItem(g: nat, c: int) returns (found: Option<ItemId>)
      requires Valid()
      ensures found == ItemOf(items, g, c)
    {
      OneItem(View(), g, c);
      hide Inv;
      var ids := set id | id in items && items[id].gen == g && items[id].chunk == c;
      assert forall id :: IsItemOf(items, id, g, c) <==> id in ids;
      if exists id :: id in ids {
        var id :| id in ids;
        found := Some(id);
      } else {
        found := None;
      }
    }

    /** The second transaction: the call to the model, and the vector stored under the fences. */
    method SendPicked(worker: WorkerId, w: World) returns (outcome: Outcome)
      requires Valid() && worker in picks
      modifies this
      ensures Valid() && (View(), outcome) == Embed(old(View()), worker, w)
      ensures outcome in {Stopped, Raised, Crashed} && gens == old(gens) ==> items == old(items)
      ensures picks == if outcome == Raised then old(picks) else old(picks) - {worker}
    {
      EmbedKeeps(View(), worker, w);
      hide Inv, EmbeddingValues;
      outcome := SendChunk(picks[worker], w);
      if outcome != Raised { picks := picks - {worker}; }
    }

    method SendChunk(p: Pick, w: World) returns (outcome: Outcome)
      modifies this`gens, this`items
      ensures (View(), outcome) == Send(old(View()), p, w)
    {
      hide EmbeddingValues, Save;
      if !w.current {
        Drop(p.item);
        return Skipped;
      }
      if !w.allowed { return Stopped; }
      if !w.sameModel || w.answer.None? { return Raised; }
      var answer := EmbeddingValues(w.answer.value, p.dimensions);
      if answer.Err? { return if answer.error == Invalid then Raised else Crashed; }
      outcome := SaveAnswer(p, answer.value);
    }

    method Drop(id: ItemId)
      modifies this`items
      ensures View() == WithoutItem(old(View()), id)
    {
      items := map i | i in items && i != id :: items[i];
    }

    /** The rows are read again under lock before the vector is stored. */
    method SaveAnswer(p: Pick, answer: Answer) returns (outcome: Outcome)
      modifies this`gens, this`items
      ensures (View(), outcome) == Save(old(View()), p, answer)
      ensures forall id | id in old(items) && id != p.item :: id in items && items[id] == old(items)[id]
      ensures |gens| == |old(gens)| && forall i | 0 <= i < |gens| && i != p.gen :: gens[i] == old(gens)[i]
    {
      var values, model := answer.values, answer.model;
      if p.gen >= |gens| || p.item !in items || gens[p.gen].status !in {Running, Active} {
        Drop(p.item);
        return Skipped;
      }
      if gens[p.gen].dimensions.None? {
        gens := gens[p.gen := gens[p.gen].(responseModel := model)];
        gens := gens[p.gen := gens[p.gen].(dimensions := Some(|values|))];
        assert gens == old(gens)[p.gen := gens[p.gen]];
      } else if model != gens[p.gen].responseModel {
        gens := gens[p.gen := gens[p.gen].(status := Failed, error := Some(ModelIdentityChanged))];
        items := items[p.item := items[p.item].(status := ItemFailure)];
        return Stopped;
      } else if gens[p.gen].dimensions.value != |values| {
        return Raised;
      }
      items := items[p.item := items[p.item].(embedding := Some(values))];
      items := items[p.item := items[p.item].(status := Succeeded)];
      assert items == WithVector(old(View()), p.item, values).items;
      outcome := Stored;
    }

    /** The handler of a failed send. */
    method FailPicked(worker: WorkerId)
      requires Valid() && worker in picks
      modifies this`items, this`picks
      ensures Valid() && View() == FailItem(old(View()), worker)
      ensures items.Keys == old(items).Keys && picks == old(picks) - {worker}
      ensures forall id | id in items :: items[id].embedding == old(items)[id].embedding
    {
      FailItemKeeps(View(), worker);
      var id := picks[worker].item;
      if id in items {
        items := items[id := items[id].(status := ItemFailure)];
      }
      picks := picks - {worker};
    }
  }

  lemma FinishNeverRaises(st: State, g: nat, eligible: set<int>)
    requires Inv(st) && g < |st.gens| && st.gens[g].status == Running
    ensures st.gens[g].dimensions.Some? ==> Activate(st.gens, g).Some?
    ensures forall b, c :: Finish(st, g, eligible, b) == Finish(st, g, eligible, c)
  {}

  lemma StartedInv(st: State, g: nat)
    requires Inv(st) && g < |st.gens|
    ensures Inv(Started(st, g))
  {
    hide GensFine, ItemsFine, PicksFine;
    StartedKeeps(st, g);
    FewerItems(st.gens, Started(st, g).gens, st.items, st.items, st.nextItem);
    FewerPicked(st, Started(st, g));
  }

  lemma OneItem(st: State, g: nat, c: int)
    requires Inv(st)
    ensures forall i, j | IsItemOf(st.items, i, g, c) && IsItemOf(st.items, j, g, c) :: i == j
  {}
}
