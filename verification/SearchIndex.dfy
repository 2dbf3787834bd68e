/**
 Building the vector index. A generation of the index is created, filled one chunk at a time
 by workers that call the model outside any transaction, and made active when complete.
 Each function below is one transaction; a run is any sequence of them.
 */
module SearchIndex {
  import opened Wrappers
  import opened Embedding
  import opened Queries

  datatype Status = Queued | Running | Active | Failed | Retired

  datatype Model = Model(name: string, version: Option<string>)

  datatype GenerationError = ModelUnavailable | ItemFailed | NoIndexableChunks | ModelIdentityChanged

  datatype Generation = Generation(
    model: Model, responseModel: Option<string>, dimensions: Option<nat>, status: Status, error: Option<GenerationError>)

  datatype ItemStatus = Pending | Succeeded | ItemFailure

  datatype Item = Item(gen: nat, chunk: int, status: ItemStatus, embedding: Option<Vector>)

  type ItemId = nat
  type WorkerId = nat

  /** What a worker holds between its transactions: the item it picked and the dimensions it saw. */
  datatype Pick = Pick(gen: nat, item: ItemId, chunk: int, dimensions: Option<nat>)

  /** Generations in order of creation; identifiers of items are never reused; the pick of each worker that holds one. */
  datatype State = State(gens: seq<Generation>, items: map<ItemId, Item>, nextItem: ItemId, picks: map<WorkerId, Pick>)

  predicate InProgress(g: Generation) { g.status == Queued || g.status == Running }

  /** The first generation from position i on with one of the statuses, or the end. */
  function First(gens: seq<Generation>, wanted: set<Status>, i: nat): (k: nat)
    requires i <= |gens|
    ensures i <= k <= |gens| && (k < |gens| ==> gens[k].status in wanted)
    ensures forall j | i <= j < k :: gens[j].status !in wanted
    decreases |gens| - i
  {
    if i == |gens| || gens[i].status in wanted then i else First(gens, wanted, i + 1)
  }

  // --------------------------------------------------------------- transactions

  /** create_generation: the one in progress, or a new one at the end. */
  function Create(st: State, model: Model): State {
    if First(st.gens, {Queued, Running}, 0) < |st.gens| then st
    else st.(gens := st.gens + [Generation(model, None, None, Queued, None)])
  }

  /** The model cannot be used: the generation fails unless it is active. */
  function Unavailable(st: State, g: nat): State {
    if g < |st.gens| && st.gens[g].status != Active
    then st.(gens := st.gens[g := st.gens[g].(status := Failed, error := Some(ModelUnavailable))])
    else st
  }

  /** The chunks that still lack a finished item in the generation. */
  function Waiting(items: map<ItemId, Item>, g: nat, eligible: set<int>): set<int> {
    set c | c in eligible && forall id | id in items && items[id].gen == g && items[id].chunk == c :: items[id].status == Pending
  }

  predicate IsItemOf(items: map<ItemId, Item>, id: ItemId, g: nat, c: int) {
    id in items && items[id].gen == g && items[id].chunk == c
  }

  ghost function ItemOf(items: map<ItemId, Item>, g: nat, c: int): (found: Option<ItemId>)
    ensures found.Some? ==> IsItemOf(items, found.value, g, c)
    ensures found.None? ==> forall id :: !IsItemOf(items, id, g, c)
  {
    if exists id :: IsItemOf(items, id, g, c) then (var id :| IsItemOf(items, id, g, c); Some(id)) else None
  }

  /** activate_generation: the prior active one retires; nothing when the dimensions are out of range. */
  function Activate(gens: seq<Generation>, g: nat): (r: Option<seq<Generation>>)
    requires g < |gens|
    ensures r.Some? ==> |r.value| == |gens|
  {
    if gens[g].dimensions.None? || !(1 <= gens[g].dimensions.value <= MAX_VECTOR_DIMENSIONS) then None
    else
      var prior := First(gens, {Active}, 0);
      var retired := if prior < |gens| then gens[prior := gens[prior].(status := Retired)] else gens;
      Some(retired[g := retired[g].(status := Active, error := None)])
  }

  /** Unfinished items of chunks that are no longer eligible. */
  predicate Stray(item: Item, g: nat, eligible: set<int>) {
    item.gen == g && item.status != Succeeded && item.chunk !in eligible
  }

  function Kept(items: map<ItemId, Item>, g: nat, eligible: set<int>): map<ItemId, Item> {
    map id | id in items && !Stray(items[id], g, eligible) :: items[id]
  }

  predicate HasUnfinished(items: map<ItemId, Item>, g: nat) {
    exists id | id in items :: items[id].gen == g && items[id].status != Succeeded
  }

  /** No chunk is left to pick: the generation fails, or becomes active; `before` is what an exception restores. */
  function Finish(st: State, g: nat, eligible: set<int>, before: State): State
    requires g < |st.gens|
  {
    var items := Kept(st.items, g, eligible);
    if HasUnfinished(items, g) then
      st.(items := items, gens := st.gens[g := st.gens[g].(status := Failed, error := Some(ItemFailed))])
    else if st.gens[g].dimensions.None? then
      st.(items := items, gens := st.gens[g := st.gens[g].(status := Failed, error := Some(NoIndexableChunks))])
    else
      match Activate(st.gens, g)
      case None => before
      case Some(gens) => st.(items := items, gens := gens)
  }

  function Started(st: State, g: nat): State
    requires g < |st.gens|
  {
    if st.gens[g].status == Queued then st.(gens := st.gens[g := st.gens[g].(status := Running)]) else st
  }

  /** A chunk's item, a new one if it has none, is picked with the dimensions the generation now has. */
  ghost function Take(st: State, worker: WorkerId, g: nat, c: int): (State, Pick)
    requires g < |st.gens|
  {
    match ItemOf(st.items, g, c)
    case Some(id) =>
      var pick := Pick(g, id, c, st.gens[g].dimensions);
      (st.(picks := st.picks[worker := pick]), pick)
    case None =>
      var pick := Pick(g, st.nextItem, c, st.gens[g].dimensions);
      (st.(items := st.items[st.nextItem := Item(g, c, Pending, None)], nextItem := st.nextItem + 1, picks := st.picks[worker := pick]), pick)
  }

  /**
   A worker takes the first chunk that waits, or finishes the generation when none does.
   `seen` are the chunks eligible when the row is looked for and `still` those eligible when
   stray items are deleted: each statement reads the latest committed rows.
   */
  ghost function PickNext(st: State, worker: WorkerId, g: nat, seen: set<int>, still: set<int>): (State, Option<Pick>) {
    if g >= |st.gens| || st.gens[g].status !in {Queued, Running, Active} then (st, None)
    else
      var st1 := Started(st, g);
      var waiting := Waiting(st.items, g, seen);
      if !(exists c :: c in waiting) then
        (if st1.gens[g].status == Running then Finish(st1, g, still, st) else st1, None)
      else
        var taken := Take(st1, worker, g, Least(waiting));
        (taken.0, Some(taken.1))
  }

  /** What a worker meets when it is about to send a chunk: rows, settings, and the answer, None for a failed call. */
  datatype World = World(current: bool, allowed: bool, sameModel: bool, answer: Option<Json>)

  /** Raised is an error the worker handles by failing the item; Crashed one it does not handle. */
  datatype Outcome = Skipped | Stopped | Raised | Crashed | Stored

  function WithoutItem(st: State, id: ItemId): State {
    st.(items := map i | i in st.items && i != id :: st.items[i])
  }

  function WithVector(st: State, id: ItemId, values: Vector): State
    requires id in st.items
  {
    st.(items := st.items[id := st.items[id].(status := Succeeded, embedding := Some(values))])
  }

  /** An accepted vector is stored if generation and item are still there; the first one fixes dimensions and identity. */
  function Save(st: State, p: Pick, answer: Answer): (State, Outcome) {
    if p.gen >= |st.gens| || p.item !in st.items || st.gens[p.gen].status !in {Running, Active} then (WithoutItem(st, p.item), Skipped)
    else
      var gen := st.gens[p.gen];
      if gen.dimensions.None? then
        (WithVector(st, p.item, answer.values).(gens := st.gens[p.gen := gen.(responseModel := answer.model, dimensions := Some(|answer.values|))]),
         Stored)
      else if answer.model != gen.responseModel then
        (st.(gens := st.gens[p.gen := gen.(status := Failed, error := Some(ModelIdentityChanged))],
             items := st.items[p.item := st.items[p.item].(status := ItemFailure)]), Stopped)
      else if gen.dimensions.value != |answer.values| then (st, Raised)
      else (WithVector(st, p.item, answer.values), Stored)
  }

  /** The transaction that holds the source across the call to the model and stores the vector. */
  function Send(st: State, p: Pick, w: World): (State, Outcome) {
    if !w.current then (WithoutItem(st, p.item), Skipped)
    else if !w.allowed then (st, Stopped)
    else if !w.sameModel || w.answer.None? then (st, Raised)
    else
      match EmbeddingValues(w.answer.value, p.dimensions)
      case Err(Invalid) => (st, Raised)
      case Err(Overflow) => (st, Crashed)
      case Ok(answer) => Save(st, p, answer)
  }

  function Done(st: State, worker: WorkerId): State { st.(picks := st.picks - {worker}) }

  /** The worker sends what it picked; only when that raises does it still hold the pick, for its handler. */
  function Embed(st: State, worker: WorkerId, w: World): (State, Outcome)
    requires worker in st.picks
  {
    var sent := Send(st, st.picks[worker], w);
    if sent.1 == Raised then sent else (Done(sent.0, worker), sent.1)
  }

  function WithFailure(st: State, id: ItemId): State {
    if id in st.items then st.(items := st.items[id := st.items[id].(status := ItemFailure)]) else st
  }

  /** The worker's handler, after a send that raised: the item fails. */
  function FailItem(st: State, worker: WorkerId): State
    requires worker in st.picks
  {
    Done(WithFailure(st, st.picks[worker].item), worker)
  }

  /** Chunks are deleted with their documents, and their items with them. */
  function Erase(st: State, chunks: set<int>): State {
    st.(items := map id | id in st.items && st.items[id].chunk !in chunks :: st.items[id])
  }

  // -------------------------------------------------------------------- runs

  /**
   A worker picks when it holds nothing, and may then send at any later time, or never. A send
   that raises changes no row, so failing the item stands for both.
   */
  datatype Label =
    | DoCreate(model: Model)
    | DoUnavailable(gen: nat)
    | DoPick(worker: WorkerId, gen: nat, seen: set<int>, still: set<int>)
    | DoEmbed(worker: WorkerId, world: World)
    | DoFailItem(worker: WorkerId)
    | DoErase(chunks: set<int>)

  ghost function Apply(st: State, l: Label): State {
    match l
    case DoCreate(model) => Create(st, model)
    case DoUnavailable(g) => Unavailable(st, g)
    case DoPick(worker, g, seen, still) => if worker in st.picks then st else PickNext(st, worker, g, seen, still).0
    case DoEmbed(worker, w) => if worker in st.picks then Embed(st, worker, w).0 else st
    case DoFailItem(worker) => if worker in st.picks then FailItem(st, worker) else st
    case DoErase(chunks) => Erase(st, chunks)
  }

  const NOTHING: State := State([], map[], 0, map[])

  ghost function Exec(labels: seq<Label>): State {
    if labels == [] then NOTHING else Apply(Exec(labels[..|labels| - 1]), labels[|labels| - 1])
  }

  // --------------------------------------------------------------- the invariant

  /** At most one generation is being built and at most one serves searches; dimensions are in range. */
  ghost predicate GensFine(gens: seq<Generation>) {
    && (forall i, j | 0 <= i < j < |gens| :: !(InProgress(gens[i]) && InProgress(gens[j])))
    && (forall i, j | 0 <= i < j < |gens| :: !(gens[i].status == Active && gens[j].status == Active))
    && (forall i | 0 <= i < |gens| && gens[i].dimensions.Some? :: 1 <= gens[i].dimensions.value <= MAX_VECTOR_DIMENSIONS)
    && (forall i | 0 <= i < |gens| :: gens[i].dimensions.None? ==> gens[i].status in {Queued, Running, Failed})
    && (forall i | 0 <= i < |gens| :: gens[i].status == Queued ==> gens[i].dimensions.None?)
  }

  /** One item a chunk in a generation; a finished item has a vector of the generation's dimensions. */
  ghost predicate ItemsFine(gens: seq<Generation>, items: map<ItemId, Item>, nextItem: ItemId) {
    && (forall id | id in items :: id < nextItem && items[id].gen < |gens|)
    && (forall i, j | i in items && j in items && items[i].gen == items[j].gen && items[i].chunk == items[j].chunk :: i == j)
    && (forall id | id in items && items[id].status == Succeeded ::
          items[id].embedding.Some? && gens[items[id].gen].dimensions == Some(|items[id].embedding.value|))
  }

  /** Picks keep naming the item they were made for, while it exists. */
  ghost predicate PicksFine(st: State) {
    forall worker | worker in st.picks ::
      var p := st.picks[worker];
      && p.gen < |st.gens| && p.item < st.nextItem
      && (p.item in st.items ==> IsItemOf(st.items, p.item, p.gen, p.chunk))
  }

  ghost predicate Inv(st: State) {
    GensFine(st.gens) && ItemsFine(st.gens, st.items, st.nextItem) && PicksFine(st)
  }

  /** What no transaction undoes: a generation's model, its dimensions once set, and its end. */
  ghost predicate Follows(before: seq<Generation>, after: seq<Generation>) {
    && |before| <= |after|
    && forall g | 0 <= g < |before| ::
         && after[g].model == before[g].model
         && (before[g].dimensions.Some? ==> after[g].dimensions == before[g].dimensions && after[g].responseModel == before[g].responseModel)
         && (before[g].status in {Failed, Retired} ==> after[g].status in {Failed, Retired})
         && (before[g].status == Failed ==> after[g].status == Failed)
         && (before[g].status == Active ==> after[g].status in {Active, Failed, Retired})
         && (before[g].status == Running ==> after[g].status != Queued)
  }

  // ------------------------------------------------------------ each part is kept

  lemma CreateKeeps(st: State, model: Model)
    requires Inv(st)
    ensures Inv(Create(st, model)) && Follows(st.gens, Create(st, model).gens)
  {
    var k := First(st.gens, {Queued, Running}, 0);
  }

  /** A generation in progress or active that fails. */
  lemma FailKeeps(gens: seq<Generation>, g: nat, error: Option<GenerationError>)
    requires GensFine(gens) && g < |gens|
    ensures var after := gens[g := gens[g].(status := Failed, error := error)];
            GensFine(after) && Follows(gens, after)
  {}

  lemma StartedKeeps(st: State, g: nat)
    requires GensFine(st.gens) && g < |st.gens|
    ensures GensFine(Started(st, g).gens) && Follows(st.gens, Started(st, g).gens)
  {}

  lemma ActivateKeeps(gens: seq<Generation>, g: nat)
    requires GensFine(gens) && g < |gens| && gens[g].status == Running && gens[g].dimensions.Some?
    ensures var r := Activate(gens, g);
            && r.Some? && GensFine(r.value) && Follows(gens, r.value) && r.value[g].status == Active
            && (forall i | 0 <= i < |gens| && i != g && gens[i].status == Active :: r.value[i].status == Retired)
            && (forall i | 0 <= i < |gens| && i != g && gens[i].status != Active :: r.value[i] == gens[i])
  {}

  /** Items stay fine when generations only gain dimensions or change status, and items only go. */
  lemma FewerItems(gens: seq<Generation>, after: seq<Generation>, items: map<ItemId, Item>, fewer: map<ItemId, Item>, nextItem: ItemId)
    requires ItemsFine(gens, items, nextItem) && |gens| <= |after|
    requires forall g | 0 <= g < |gens| && gens[g].dimensions.Some? :: after[g].dimensions == gens[g].dimensions
    requires forall id | id in fewer :: id in items && fewer[id] == items[id]
    ensures ItemsFine(after, fewer, nextItem)
  {}

  lemma FewerPicked(st: State, after: State)
    requires PicksFine(st) && (forall worker | worker in after.picks :: worker in st.picks && after.picks[worker] == st.picks[worker])
    requires |st.gens| <= |after.gens| && st.nextItem <= after.nextItem
    requires forall id | id in after.items && id < st.nextItem :: id in st.items && after.items[id].gen == st.items[id].gen && after.items[id].chunk == st.items[id].chunk
    ensures PicksFine(after)
  {}

  lemma UnavailableKeeps(st: State, g: nat)
    requires Inv(st)
    ensures Inv(Unavailable(st, g)) && Follows(st.gens, Unavailable(st, g).gens)
  {
    if g < |st.gens| {
      hide GensFine, PicksFine, ItemsFine;
      FailKeeps(st.gens, g, Some(ModelUnavailable));
      FewerItems(st.gens, Unavailable(st, g).gens, st.items, st.items, st.nextItem);
      FewerPicked(st, Unavailable(st, g));
    }
  }

  lemma FinishKeeps(st: State, g: nat, eligible: set<int>, before: State)
    requires Inv(st) && g < |st.gens| && st.gens[g].status == Running
    ensures var after := Finish(st, g, eligible, before); Inv(after) && Follows(st.gens, after.gens)
  {
    hide PicksFine, ItemsFine;
    var after := Finish(st, g, eligible, before);
    if st.gens[g].dimensions.Some? { ActivateKeeps(st.gens, g); }
    FailKeeps(st.gens, g, Some(ItemFailed));
    FailKeeps(st.gens, g, Some(NoIndexableChunks));
    hide GensFine;
    FewerItems(st.gens, after.gens, st.items, after.items, st.nextItem);
    FewerPicked(st, after);
  }

  /** Recording a pick of an item that is there. */
  lemma PickedKeeps(st: State, worker: WorkerId, p: Pick)
    requires PicksFine(st) && p.gen < |st.gens| && p.item < st.nextItem && IsItemOf(st.items, p.item, p.gen, p.chunk)
    ensures PicksFine(st.(picks := st.picks[worker := p]))
  {}

  lemma NewItemKeeps(st: State, g: nat, c: int)
    requires ItemsFine(st.gens, st.items, st.nextItem) && PicksFine(st) && g < |st.gens|
    requires forall id :: !IsItemOf(st.items, id, g, c)
    ensures var after := st.(items := st.items[st.nextItem := Item(g, c, Pending, None)], nextItem := st.nextItem + 1);
            ItemsFine(after.gens, after.items, after.nextItem) && PicksFine(after)
  {
    assert forall id | id in st.items :: !IsItemOf(st.items, id, g, c);
  }

  lemma PickKeeps(st: State, worker: WorkerId, g: nat, seen: set<int>, still: set<int>)
    requires Inv(st)
    ensures var after := PickNext(st, worker, g, seen, still).0; Inv(after) && Follows(st.gens, after.gens)
  {
    hide Finish, GensFine, ItemsFine, PicksFine, Waiting, First;
    if g < |st.gens| && st.gens[g].status in {Queued, Running, Active} {
      var st1 := Started(st, g);
      StartedKeeps(st, g);
      FewerItems(st.gens, st1.gens, st.items, st.items, st.nextItem);
      FewerPicked(st, st1);
      var waiting := Waiting(st.items, g, seen);
      if !(exists c :: c in waiting) {
        if st1.gens[g].status == Running {
          FinishKeeps(st1, g, still, st);
          FollowsBoth(st.gens, st1.gens, Finish(st1, g, still, st).gens);
        }
      } else {
        hide Started;
        TakeKeeps(st1, worker, g, Least(waiting));
      }
    }
  }

  lemma TakeKeeps(st: State, worker: WorkerId, g: nat, c: int)
    requires Inv(st) && g < |st.gens|
    ensures Inv(Take(st, worker, g, c).0) && Take(st, worker, g, c).0.gens == st.gens
  {
    hide GensFine, ItemsFine, PicksFine;
    match ItemOf(st.items, g, c)
    case Some(id) =>
      ItemIsOld(st, id);
      PickedKeeps(st, worker, Pick(g, id, c, st.gens[g].dimensions));
    case None =>
      NewItemKeeps(st, g, c);
      var st2 := st.(items := st.items[st.nextItem := Item(g, c, Pending, None)], nextItem := st.nextItem + 1);
      PickedKeeps(st2, worker, Pick(g, st.nextItem, c, st.gens[g].dimensions));
  }

  lemma ItemIsOld(st: State, id: ItemId)
    requires ItemsFine(st.gens, st.items, st.nextItem) && id in st.items
    ensures id < st.nextItem
  {}

  lemma FollowsBoth(a: seq<Generation>, b: seq<Generation>, c: seq<Generation>)
    requires Follows(a, b) && Follows(b, c)
    ensures Follows(a, c)
  {}

  lemma WithoutItemKeeps(st: State, id: ItemId)
    requires Inv(st)
    ensures Inv(WithoutItem(st, id))
  {
    hide GensFine, ItemsFine, PicksFine;
    FewerItems(st.gens, st.gens, st.items, WithoutItem(st, id).items, st.nextItem);
    FewerPicked(st, WithoutItem(st, id));
  }

  /** One item's status and vector change, in place. */
  lemma ItemChanges(gens: seq<Generation>, items: map<ItemId, Item>, nextItem: ItemId, id: ItemId, item: Item)
    requires ItemsFine(gens, items, nextItem) && id in items
    requires item.gen == items[id].gen && item.chunk == items[id].chunk
    requires item.status == Succeeded ==> item.embedding.Some? && gens[item.gen].dimensions == Some(|item.embedding.value|)
    ensures ItemsFine(gens, items[id := item], nextItem)
  {}

  lemma DimensionsSet(gens: seq<Generation>, g: nat, model: Option<string>, n: nat)
    requires GensFine(gens) && g < |gens| && gens[g].dimensions.None? && gens[g].status in {Running, Active} && 1 <= n <= MAX_VECTOR_DIMENSIONS
    ensures var after := gens[g := gens[g].(responseModel := model, dimensions := Some(n))]; GensFine(after) && Follows(gens, after)
  {}

  ghost predicate IsPick(st: State, p: Pick) { exists worker :: worker in st.picks && st.picks[worker] == p }

  lemma SaveKeeps(st: State, p: Pick, answer: Answer)
    requires Inv(st) && IsPick(st, p) && 1 <= |answer.values| <= MAX_VECTOR_DIMENSIONS
    ensures var after := Save(st, p, answer).0; Inv(after) && Follows(st.gens, after.gens)
  {
    hide GensFine, ItemsFine;
    var after := Save(st, p, answer).0;
    WithoutItemKeeps(st, p.item);
    FollowsItself(st.gens);
    if p.item in st.items {
      var worker :| worker in st.picks && st.picks[worker] == p;
      assert IsItemOf(st.items, p.item, p.gen, p.chunk) && p.gen < |st.gens|;
      FewerPicked(st, after);
      hide PicksFine, Follows;
      FailKeeps(st.gens, p.gen, Some(ModelIdentityChanged));
      if after.gens != st.gens && st.gens[p.gen].dimensions.None? {
        DimensionsSet(st.gens, p.gen, answer.model, |answer.values|);
      }
      if after.gens != st.gens { FewerItems(st.gens, after.gens, st.items, st.items, st.nextItem); }
      if p.item in after.items {
        if after.items[p.item] == st.items[p.item] {
          assert after.items == st.items;
        } else {
          ItemChanges(after.gens, st.items, st.nextItem, p.item, after.items[p.item]);
        }
      }
    }
  }

  lemma DoneKeeps(st: State, worker: WorkerId)
    requires Inv(st)
    ensures Inv(Done(st, worker))
  {
    hide GensFine, ItemsFine, PicksFine;
    FewerPicked(st, Done(st, worker));
  }

  lemma EmbedKeeps(st: State, worker: WorkerId, w: World)
    requires Inv(st) && worker in st.picks
    ensures var after := Embed(st, worker, w).0; Inv(after) && Follows(st.gens, after.gens)
  {
    hide GensFine, ItemsFine, PicksFine, Save, Follows, EmbeddingValues, Inv;
    var p := st.picks[worker];
    assert IsPick(st, p);
    WithoutItemKeeps(st, p.item);
    FollowsItself(st.gens);
    if w.answer.Some? && EmbeddingValues(w.answer.value, p.dimensions).Ok? {
      SaveKeeps(st, p, EmbeddingValues(w.answer.value, p.dimensions).value);
    }
    DoneKeeps(Send(st, p, w).0, worker);
  }

  lemma FailItemKeeps(st: State, worker: WorkerId)
    requires Inv(st) && worker in st.picks
    ensures Inv(FailItem(st, worker)) && FailItem(st, worker).gens == st.gens
  {
    hide GensFine, ItemsFine, PicksFine;
    var id := st.picks[worker].item;
    var failed := WithFailure(st, id);
    if id in st.items {
      ItemChanges(st.gens, st.items, st.nextItem, id, st.items[id].(status := ItemFailure));
      ItemIsOld(st, id);
      FewerPicked(st, failed);
    }
    DoneKeeps(failed, worker);
  }

  lemma EraseKeeps(st: State, chunks: set<int>)
    requires Inv(st)
    ensures Inv(Erase(st, chunks)) && Erase(st, chunks).gens == st.gens
  {
    hide GensFine, ItemsFine, PicksFine;
    FewerItems(st.gens, st.gens, st.items, Erase(st, chunks).items, st.nextItem);
    FewerPicked(st, Erase(st, chunks));
  }

  lemma FollowsItself(gens: seq<Generation>)
    ensures Follows(gens, gens)
  {}

  // ---------------------------------------------------------------- main results

  /** Every transaction keeps the invariant and undoes nothing that is settled. */
  lemma StepKeeps(st: State, l: Label)
    requires Inv(st)
    ensures Inv(Apply(st, l)) && Follows(st.gens, Apply(st, l).gens)
  {
    hide Inv, Follows;
    FollowsItself(st.gens);
    match l
    case DoCreate(model) => CreateKeeps(st, model);
    case DoUnavailable(g) => UnavailableKeeps(st, g);
    case DoPick(worker, g, seen, still) => PickKeeps(st, worker, g, seen, still);
    case DoEmbed(worker, w) => if worker in st.picks { EmbedKeeps(st, worker, w); }
    case DoFailItem(worker) => if worker in st.picks { FailItemKeeps(st, worker); }
    case DoErase(chunks) => EraseKeeps(st, chunks);
  }

  /**
   In every reachable state at most one generation is being built and at most one is active,
   dimensions lie in 1 to 2000, and each finished item has exactly its generation's dimensions.
   */
  lemma {:induction false} RunsKeep(labels: seq<Label>)
    ensures Inv(Exec(labels))
  {
    hide Inv, Apply;
    if labels == [] {
      EmptyFine();
    } else {
      RunsKeep(labels[..|labels| - 1]);
      StepKeeps(Exec(labels[..|labels| - 1]), labels[|labels| - 1]);
    }
  }

  lemma EmptyFine()
    ensures Inv(NOTHING)
  {}

  /** Whatever happens later, a failed or retired generation never serves again, and dimensions and identity stay as first set. */
  lemma {:induction false} SettledStays(labels: seq<Label>, k: nat)
    requires k <= |labels|
    ensures Follows(Exec(labels[..k]).gens, Exec(labels).gens)
    decreases |labels|
  {
    hide Apply, Follows;
    if k == |labels| {
      assert labels[..k] == labels;
      FollowsItself(Exec(labels).gens);
    } else {
      var before := labels[..|labels| - 1];
      SettledStays(before, k);
      assert before[..k] == labels[..k];
      RunsKeep(before);
      StepKeeps(Exec(before), labels[|labels| - 1]);
      FollowsBoth(Exec(labels[..k]).gens, Exec(before).gens, Exec(labels).gens);
    }
  }

  ghost predicate Serving(st: State, g: nat) { g < |st.gens| && st.gens[g].status == Active }

  /** Some finished item of the chunk, with a vector of the generation's dimensions. */
  ghost predicate Indexed(st: State, g: nat, c: int)
    requires g < |st.gens|
  {
    exists id :: IsItemOf(st.items, id, g, c) && st.items[id].status == Succeeded && st.items[id].embedding.Some?
                 && st.gens[g].dimensions == Some(|st.items[id].embedding.value|)
  }

  /**
   A generation becomes active only in the transaction that finds no chunk left to pick: then
   every chunk eligible throughout it is indexed, the generation has no unfinished item, and
   of the others only the one that was active changes: it retires.
   */
  lemma {:induction false} ActivatedComplete(labels: seq<Label>, l: Label, g: nat)
    requires g < |Exec(labels).gens| && !Serving(Exec(labels), g) && Serving(Apply(Exec(labels), l), g)
    ensures l.DoPick? && l.gen == g && Exec(labels).gens[g].status == Running
    ensures var after := Apply(Exec(labels), l);
            && (forall c | c in l.seen && c in l.still :: Indexed(after, g, c))
            && !HasUnfinished(after.items, g)
            && |after.gens| == |Exec(labels).gens|
            && (forall i | 0 <= i < |after.gens| && i != g ::
                  after.gens[i] == if Exec(labels).gens[i].status == Active then Exec(labels).gens[i].(status := Retired) else Exec(labels).gens[i])
  {
    hide Exec, Inv, Apply;
    RunsKeep(labels);
    OnlyPicksActivate(Exec(labels), l, g);
    ActivationIndexes(Exec(labels), l.worker, g, l.seen, l.still);
  }

  lemma OnlyPicksActivate(st: State, l: Label, g: nat)
    requires Inv(st) && g < |st.gens| && !Serving(st, g) && Serving(Apply(st, l), g)
    ensures l.DoPick? && l.gen == g && st.gens[g].status == Running && Apply(st, l) == PickNext(st, l.worker, g, l.seen, l.still).0
  {
    hide EmbeddingValues, ItemsFine, PicksFine, Waiting, Kept, HasUnfinished;
  }

  lemma ActivationIndexes(st: State, worker: WorkerId, g: nat, seen: set<int>, still: set<int>)
    requires Inv(st) && g < |st.gens| && st.gens[g].status == Running
    requires Serving(PickNext(st, worker, g, seen, still).0, g)
    ensures var after := PickNext(st, worker, g, seen, still).0;
            && (forall c | c in seen && c in still :: Indexed(after, g, c))
            && !HasUnfinished(after.items, g)
            && |after.gens| == |st.gens|
            && (forall i | 0 <= i < |after.gens| && i != g ::
                  after.gens[i] == if st.gens[i].status == Active then st.gens[i].(status := Retired) else st.gens[i])
  {
    var after := PickNext(st, worker, g, seen, still).0;
    hide GensFine, PicksFine;
    var waiting := Waiting(st.items, g, seen);
    assert !(exists c :: c in waiting);
    assert after == Finish(st, g, still, st);
    PickKeeps(st, worker, g, seen, still);
    assert st.gens[g].dimensions.Some? && Activate(st.gens, g).Some?;
    ActivateKeeps(st.gens, g);
    hide Activate, PickNext;
    forall c | c in seen && c in still ensures Indexed(after, g, c) {
      SeenIsIndexed(st, after, g, c, seen, still);
    }
  }

  /** A chunk that is not waiting has an item; if no unfinished one is left, that item is finished. */
  lemma SeenIsIndexed(st: State, after: State, g: nat, c: int, seen: set<int>, still: set<int>)
    requires c in seen && c in still && c !in Waiting(st.items, g, seen)
    requires after.items == Kept(st.items, g, still) && !HasUnfinished(after.items, g)
    requires ItemsFine(after.gens, after.items, after.nextItem) && g < |after.gens|
    ensures Indexed(after, g, c)
  {
    var id :| id in st.items && st.items[id].gen == g && st.items[id].chunk == c && st.items[id].status != Pending;
    assert !Stray(st.items[id], g, still);
    assert id in after.items;
    assert IsItemOf(after.items, id, g, c);
  }

  /** In every reachable state an accepted query vector has the length of every vector the active generation serves. */
  lemma {:induction false} QueryFitsIndex(labels: seq<Label>, g: nat, response: Json, id: ItemId)
    requires g < |Exec(labels).gens| && Exec(labels).gens[g].status == Active
    requires id in Exec(labels).items && Exec(labels).items[id].gen == g && Exec(labels).items[id].status == Succeeded
    ensures var expected := Exec(labels).gens[g].dimensions;
            && expected.Some? && 1 <= expected.value <= MAX_VECTOR_DIMENSIONS
            && Exec(labels).items[id].embedding.Some?
            && (EmbeddingValues(response, expected).Ok? ==>
                  |EmbeddingValues(response, expected).value.values| == |Exec(labels).items[id].embedding.value|)
  {
    hide EmbeddingValues;
    RunsKeep(labels);
  }

  /** A vector is stored only under the identity its generation recorded, and only by a worker whose item is still its own. */
  lemma {:induction false} StoredUnderIdentity(labels: seq<Label>, worker: WorkerId, w: World)
    requires worker in Exec(labels).picks && Embed(Exec(labels), worker, w).1 == Stored
    ensures var st := Exec(labels); var p := st.picks[worker]; var after := Embed(st, worker, w).0;
            && w.current && w.allowed && w.sameModel && w.answer.Some?
            && var answer := EmbeddingValues(w.answer.value, p.dimensions);
            && answer.Ok? && p.gen < |after.gens|
            && after.gens[p.gen].responseModel == answer.value.model
            && IsItemOf(after.items, p.item, p.gen, p.chunk)
            && after.items[p.item].embedding == Some(answer.value.values) && after.items[p.item].status == Succeeded
            && (forall id | id != p.item :: id in after.items <==> id in st.items)
            && (forall id | id != p.item && id in st.items :: after.items[id] == st.items[id])
            && worker !in after.picks
  {
    hide EmbeddingValues, GensFine, ItemsFine;
    RunsKeep(labels);
  }

  // ------------------------------------------------ what becomes of an indexed item

  /** Some worker still holds a pick of the item. */
  ghost predicate Held(st: State, id: ItemId) { exists worker :: worker in st.picks && st.picks[worker].item == id }

  /** An item nobody holds that has ended: stored, or failed in a generation no longer being built. */
  ghost predicate Ended(st: State, id: ItemId) {
    && id in st.items && st.items[id].gen < |st.gens| && !Held(st, id)
    && (st.items[id].status == Succeeded || (st.items[id].status == ItemFailure && !InProgress(st.gens[st.items[id].gen])))
  }

  ghost predicate Erases(l: Label, c: int) { l.DoErase? && c in l.chunks }

  ghost predicate SameItem(st: State, after: State, id: ItemId) {
    id in st.items && id in after.items && after.items[id] == st.items[id]
  }

  lemma FinishSparesEnded(st: State, g: nat, eligible: set<int>, before: State, id: ItemId)
    requires g < |st.gens| && st.gens[g].status == Running && Ended(st, id) && SameItem(st, before, id)
    requires before.picks == st.picks
    ensures SameItem(st, Finish(st, g, eligible, before), id) && !Held(Finish(st, g, eligible, before), id)
  {
    hide HasUnfinished;
  }

  lemma TakeSparesOthers(st: State, worker: WorkerId, g: nat, c: int, id: ItemId)
    requires g < |st.gens| && id in st.items && id < st.nextItem && !Held(st, id) && !IsItemOf(st.items, id, g, c)
    ensures SameItem(st, Take(st, worker, g, c).0, id) && !Held(Take(st, worker, g, c).0, id)
  {
    var after := Take(st, worker, g, c).0;
    forall w | w in after.picks ensures after.picks[w].item != id {
      if w != worker { assert w in st.picks && after.picks[w] == st.picks[w]; }
    }
  }

  lemma PickSparesEnded(st: State, worker: WorkerId, g: nat, seen: set<int>, still: set<int>, id: ItemId)
    requires Inv(st) && Ended(st, id)
    ensures var after := PickNext(st, worker, g, seen, still).0; SameItem(st, after, id) && !Held(after, id)
  {
    ItemIsOld(st, id);
    hide Inv, Finish, Take, Held;
    if g < |st.gens| && st.gens[g].status in {Queued, Running, Active} {
      var st1 := Started(st, g);
      SameHolders(st, st1, id);
      if !(exists c :: c in Waiting(st.items, g, seen)) {
        if st1.gens[g].status == Running { FinishSparesEnded(st1, g, still, st, id); }
      } else {
        TakeSparesOthers(st1, worker, g, Least(Waiting(st.items, g, seen)), id);
      }
    }
  }

  lemma SameHolders(st: State, after: State, id: ItemId)
    requires after.picks == st.picks
    ensures Held(after, id) <==> Held(st, id)
  {}

  lemma SendSparesOthers(st: State, worker: WorkerId, w: World, id: ItemId)
    requires worker in st.picks && id in st.items && !Held(st, id)
    ensures SameItem(st, Embed(st, worker, w).0, id) && !Held(Embed(st, worker, w).0, id)
  {
    hide EmbeddingValues;
    assert st.picks[worker].item != id;
  }

  lemma FailSparesOthers(st: State, worker: WorkerId, id: ItemId)
    requires worker in st.picks && id in st.items && !Held(st, id)
    ensures SameItem(st, FailItem(st, worker), id) && !Held(FailItem(st, worker), id)
  {
    assert st.picks[worker].item != id;
  }

  lemma StepSparesEnded(st: State, l: Label, id: ItemId)
    requires Inv(st) && Follows(st.gens, Apply(st, l).gens) && Ended(st, id) && !Erases(l, st.items[id].chunk)
    ensures SameItem(st, Apply(st, l), id) && Ended(Apply(st, l), id)
  {
    hide Inv, Held, SameItem, PickNext, Embed, FailItem, Follows;
    match l {
      case DoCreate(model) => SpareItems(st, Create(st, model), id);
      case DoUnavailable(g) => SpareItems(st, Unavailable(st, g), id);
      case DoPick(worker, g, seen, still) =>
        if worker in st.picks { SpareItems(st, st, id); } else { PickSparesEnded(st, worker, g, seen, still, id); }
      case DoEmbed(worker, w) =>
        if worker in st.picks { SendSparesOthers(st, worker, w, id); } else { SpareItems(st, st, id); }
      case DoFailItem(worker) =>
        if worker in st.picks { FailSparesOthers(st, worker, id); } else { SpareItems(st, st, id); }
      case DoErase(chunks) => SpareItems(st, Erase(st, chunks), id);
    }
    EndedStays(st, Apply(st, l), id);
  }

  lemma SpareItems(st: State, after: State, id: ItemId)
    requires id in st.items && id in after.items && after.items[id] == st.items[id] && after.picks == st.picks && !Held(st, id)
    ensures SameItem(st, after, id) && !Held(after, id)
  {}

  lemma EndedStays(st: State, after: State, id: ItemId)
    requires Ended(st, id) && SameItem(st, after, id) && !Held(after, id) && Follows(st.gens, after.gens)
    ensures Ended(after, id)
  {
    hide Held;
  }

  ghost predicate NoErase(ls: seq<Label>, c: int) { forall i | 0 <= i < |ls| :: !Erases(ls[i], c) }

  lemma ExecJoins(labels: seq<Label>, more: seq<Label>)
    requires more != []
    ensures Exec(labels + more) == Apply(Exec(labels + more[..|more| - 1]), more[|more| - 1])
  {
    hide Apply;
    assert (labels + more)[..|labels + more| - 1] == labels + more[..|more| - 1];
  }

  /** An ended item that nobody holds is never picked and never changes again, until its chunk is erased. */
  lemma {:induction false} EndedIsFinal(labels: seq<Label>, more: seq<Label>, id: ItemId)
    requires Ended(Exec(labels), id) && NoErase(more, Exec(labels).items[id].chunk)
    ensures SameItem(Exec(labels), Exec(labels + more), id) && Ended(Exec(labels + more), id)
    decreases |more|
  {
    hide Exec, Apply, Inv, Follows, Ended;
    if more == [] {
      assert labels + more == labels;
      assert id in Exec(labels).items by { EndedIsThere(Exec(labels), id); }
    } else {
      EndedIsThere(Exec(labels), id);
      var front := more[..|more| - 1];
      EndedIsFinal(labels, front, id);
      ExecJoins(labels, more);
      RunsKeep(labels + front);
      StepKeeps(Exec(labels + front), more[|more| - 1]);
      StepSparesEnded(Exec(labels + front), more[|more| - 1], id);
    }
  }

  lemma EndedIsThere(st: State, id: ItemId)
    requires Ended(st, id)
    ensures id in st.items
  {}

  lemma IndexedBy(st: State, id: ItemId)
    requires Inv(st) && id in st.items && st.items[id].status == Succeeded
    ensures st.items[id].gen < |st.gens| && Indexed(st, st.items[id].gen, st.items[id].chunk)
  {
    assert IsItemOf(st.items, id, st.items[id].gen, st.items[id].chunk);
  }

  lemma FailedIsNotIndexed(st: State, id: ItemId)
    requires Inv(st) && id in st.items && st.items[id].status == ItemFailure && st.items[id].gen < |st.gens|
    ensures !Indexed(st, st.items[id].gen, st.items[id].chunk)
  {
    assert IsItemOf(st.items, id, st.items[id].gen, st.items[id].chunk);
  }

  /**
   When an indexed chunk stays indexed. A stored item of the active generation can be lost while
   the generation serves and the chunk exists exactly when some worker still holds a pick of it;
   the worker that stored it holds none.
   */
  lemma {:induction false} IndexedLostIff(labels: seq<Label>, g: nat, c: int, id: ItemId)
    requires Serving(Exec(labels), g) && IsItemOf(Exec(labels).items, id, g, c) && Exec(labels).items[id].status == Succeeded
    ensures Held(Exec(labels), id)
            <==> exists more: seq<Label> :: NoErase(more, c) && Serving(Exec(labels + more), g) && !Indexed(Exec(labels + more), g, c)
  {
    hide Exec, Inv, Indexed;
    var st := Exec(labels);
    RunsKeep(labels);
    if Held(st, id) {
      var worker :| worker in st.picks && st.picks[worker].item == id;
      var more := [DoFailItem(worker)];
      ExecAppend(labels, DoFailItem(worker));
      RunsKeep(labels + more);
      FailedIsNotIndexed(Exec(labels + more), id);
      assert NoErase(more, c) && Serving(Exec(labels + more), g) && !Indexed(Exec(labels + more), g, c);
    } else {
      forall more: seq<Label> | NoErase(more, c) && Serving(Exec(labels + more), g) ensures Indexed(Exec(labels + more), g, c) {
        EndedIsFinal(labels, more, id);
        RunsKeep(labels + more);
        IndexedBy(Exec(labels + more), id);
      }
    }
  }

  // --------------------------------------------------------------- a late worker

  lemma ExecAppend(labels: seq<Label>, l: Label)
    ensures Exec(labels + [l]) == Apply(Exec(labels), l)
  {
    hide Apply;
    assert (labels + [l])[..|labels|] == labels;
  }

  const SEVEN: Answer := Answer([1.0], None)
  const SEVEN_PICK: Pick := Pick(0, 0, 7, None)
  const SEVEN_WORLD: World := World(true, true, true, Some(AnswerJson(SEVEN)))

  /** Workers 0 and 1 pick chunk 7; 0 stores its vector and makes the generation active; then 1 fails. */
  const OVERLAPPING: seq<Label> := [
    DoCreate(Model("m", None)), DoPick(0, 0, {7}, {7}), DoPick(1, 0, {7}, {7}), DoEmbed(0, SEVEN_WORLD), DoPick(0, 0, {7}, {7}), DoFailItem(1)]

  const CREATED: Generation := Generation(Model("m", None), None, None, Queued, None)
  const PENDING_SEVEN: map<ItemId, Item> := map[0 := Item(0, 7, Pending, None)]
  const STORED_SEVEN: map<ItemId, Item> := map[0 := Item(0, 7, Succeeded, Some([1.0]))]
  const PICKED_ONCE: State := State([CREATED.(status := Running)], PENDING_SEVEN, 1, map[0 := SEVEN_PICK])
  const PICKED_TWICE: State := PICKED_ONCE.(picks := map[0 := SEVEN_PICK, 1 := SEVEN_PICK])
  const FILLED: State := State([CREATED.(status := Running, dimensions := Some(1))], STORED_SEVEN, 1, map[1 := SEVEN_PICK])
  const SERVING: State := State([CREATED.(status := Active, dimensions := Some(1))], STORED_SEVEN, 1, map[1 := SEVEN_PICK])

  lemma OverlapPicks()
    ensures Exec(OVERLAPPING[..3]) == PICKED_TWICE
  {
    hide PickNext;
    var created := State([CREATED], map[], 0, map[]);
    assert OVERLAPPING[..1] == [] + [OVERLAPPING[0]];
    ExecAppend([], OVERLAPPING[0]);
    assert Exec(OVERLAPPING[..1]) == created;
    FirstPick(created);
    assert OVERLAPPING[..2] == OVERLAPPING[..1] + [OVERLAPPING[1]];
    ExecAppend(OVERLAPPING[..1], OVERLAPPING[1]);
    SecondPick();
    assert OVERLAPPING[..3] == OVERLAPPING[..2] + [OVERLAPPING[2]];
    ExecAppend(OVERLAPPING[..2], OVERLAPPING[2]);
  }

  lemma SevenStored()
    ensures Embed(PICKED_TWICE, 0, SEVEN_WORLD).0 == FILLED
  {
    hide EmbeddingValues, AnswerJson;
    WellFormedAnswers(SEVEN, None);
    assert SEVEN.values[0] == 1.0;
    assert EmbeddingValues(AnswerJson(SEVEN), None) == Ok(SEVEN);
    assert STORED_SEVEN == PENDING_SEVEN[0 := Item(0, 7, Succeeded, Some([1.0]))];
    assert FILLED.gens == PICKED_TWICE.gens[0 := PICKED_TWICE.gens[0].(responseModel := None, dimensions := Some(1))];
    assert FILLED.picks == PICKED_TWICE.picks - {0};
  }

  /** Two workers: the one that is late takes the chunk out of the index its generation already serves. */
  lemma ActiveLosesItem()
    ensures Serving(Exec(OVERLAPPING[..5]), 0) && Indexed(Exec(OVERLAPPING[..5]), 0, 7)
    ensures Exec(OVERLAPPING[..5]).picks == map[1 := SEVEN_PICK]
    ensures Serving(Exec(OVERLAPPING), 0) && !Indexed(Exec(OVERLAPPING), 0, 7)
  {
    hide PickNext, Embed, Exec;
    OverlapPicks();
    SevenStored();
    assert OVERLAPPING[..4] == OVERLAPPING[..3] + [OVERLAPPING[3]];
    ExecAppend(OVERLAPPING[..3], OVERLAPPING[3]);
    assert Exec(OVERLAPPING[..4]) == FILLED;
    LastPick();
    assert OVERLAPPING[..5] == OVERLAPPING[..4] + [OVERLAPPING[4]];
    ExecAppend(OVERLAPPING[..4], OVERLAPPING[4]);
    assert Exec(OVERLAPPING[..5]) == SERVING;
    assert IsItemOf(SERVING.items, 0, 0, 7);
    assert OVERLAPPING == OVERLAPPING[..5] + [OVERLAPPING[5]];
    ExecAppend(OVERLAPPING[..5], OVERLAPPING[5]);
  }

  lemma FirstPick(st: State)
    requires st == State([CREATED], map[], 0, map[])
    ensures PickNext(st, 0, 0, {7}, {7}).0 == PICKED_ONCE
  {
    assert Waiting(st.items, 0, {7}) == {7};
    assert 7 in Waiting(st.items, 0, {7});
  }

  lemma SecondPick()
    ensures PickNext(PICKED_ONCE, 1, 0, {7}, {7}).0 == PICKED_TWICE
  {
    assert Waiting(PENDING_SEVEN, 0, {7}) == {7};
    assert 7 in Waiting(PENDING_SEVEN, 0, {7});
    assert IsItemOf(PENDING_SEVEN, 0, 0, 7);
  }

  lemma LastPick()
    ensures PickNext(FILLED, 0, 0, {7}, {7}).0 == SERVING
  {
    assert 0 in STORED_SEVEN && STORED_SEVEN[0].gen == 0 && STORED_SEVEN[0].chunk == 7;
    assert Waiting(STORED_SEVEN, 0, {7}) == {};
    assert Kept(STORED_SEVEN, 0, {7}) == STORED_SEVEN;
    assert !HasUnfinished(STORED_SEVEN, 0);
  }
}
