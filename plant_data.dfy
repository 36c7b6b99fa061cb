/**
 * The values the plant integration keeps in the host's shared data mapping
 * under its domain key, and the pure computations the global problem sensor
 * performs over them: the set of plant entity ids it tracks and the summary
 * record it publishes as its extra state attributes.
 *
 * Every sequence function is defined by recursion on the LAST element, which
 * is the order in which the sensor's loops visit the mapping.
 */
module PlantData {
  import opened Wrappers

  /** The host's STATE_PROBLEM state string. */
  const STATE_PROBLEM: string := "problem"

  /** One entry of a plant's problem list (a dict in the source). */
  datatype Problem = Problem(sensorType: string, status: string, current: string, min: string, max: string)

  /**
   * The attributes of a plant entity that the sensor reads. `state` is None
   * when the entity carries no `_attr_state`; a plant without a `_problems`
   * attribute is given the empty list, as `getattr(plant, "_problems", [])` does.
   */
  datatype Plant = Plant(entityId: string, name: string, state: Option<string>, problems: seq<Problem>)

  /** What a per-entry dict holds under the ATTR_PLANT key. */
  datatype PlantSlot = NoPlantKey | NullPlant | HasPlant(plant: Plant)

  /**
   * A value of the domain mapping: a per-config-entry dict, or any other
   * object (the global sensor itself is stored there under its own key).
   */
  datatype EntryData = NonDict | Dict(slot: PlantSlot)

  /** The domain mapping: its (key, value) pairs in insertion order. */
  type DomainMap = seq<(string, EntryData)>

  /** The entity registry: entity id to its registry entry. */
  datatype RegistryEntry = RegistryEntry(name: Option<string>, deviceId: Option<string>)
  type Registry = map<string, RegistryEntry>

  /** One element of the `plants_with_problems` attribute. */
  datatype PlantSummary = PlantSummary(entityId: string, friendlyName: string, problemCount: nat, deviceId: Option<string>)

  /** The sensor's extra state attributes. */
  datatype Attributes = Attributes(plantsWithProblems: seq<PlantSummary>, totalProblems: nat, totalPlants: nat)

  /** `hass.data.get(DOMAIN, {}).values()`: a missing domain reads as the empty mapping. */
  function Values(domain: Option<DomainMap>): (vs: seq<EntryData>)
    ensures domain.None? ==> vs == []
    ensures domain.Some? ==> |vs| == |domain.value| && forall i :: 0 <= i < |vs| ==> vs[i] == domain.value[i].1
  {
    match domain
    case None => []
    case Some(m) => seq(|m|, i requires 0 <= i < |m| => m[i].1)
  }

  /** A dict entry whose ATTR_PLANT value is a plant (`entry_data.get(ATTR_PLANT)` is not None). */
  predicate HoldsPlant(e: EntryData) {
    e.Dict? && e.slot.HasPlant?
  }

  /** A dict entry whose plant's state is STATE_PROBLEM. */
  predicate InProblemState(e: EntryData) {
    HoldsPlant(e) && e.slot.plant.state == Some(STATE_PROBLEM)
  }

  // ---------------------------------------------------------------------
  // The tracked id set
  // ---------------------------------------------------------------------

  /**
   * The set comprehension of `_refresh_tracked_plants`: the entity ids of the
   * dict entries that have an ATTR_PLANT key. A key whose value is None makes
   * `.entity_id` raise, which is the None result.
   */
  function CurrentIds(vs: seq<EntryData>): (r: Option<set<string>>)
    ensures r.None? <==> exists i :: 0 <= i < |vs| && vs[i] == Dict(NullPlant)
    ensures r.Some? ==> forall id :: id in r.value <==>
      exists i :: 0 <= i < |vs| && HoldsPlant(vs[i]) && vs[i].slot.plant.entityId == id
  {
    if vs == [] then Some({})
    else
      var init, last := vs[..|vs| - 1], vs[|vs| - 1];
      assert forall i :: 0 <= i < |init| ==> init[i] == vs[i];
      match CurrentIds(init)
      case None => None
      case Some(ids) =>
        match last
        case NonDict => Some(ids)
        case Dict(NoPlantKey) => Some(ids)
        case Dict(NullPlant) => None
        case Dict(HasPlant(p)) => Some(ids + {p.entityId})
  }

  // ---------------------------------------------------------------------
  // The plants, in mapping order
  // ---------------------------------------------------------------------

  /** The plants of the dict entries that hold one, in mapping order. */
  function PlantsOf(vs: seq<EntryData>): seq<Plant> {
    if vs == [] then []
    else
      var last := vs[|vs| - 1];
      PlantsOf(vs[..|vs| - 1]) + (if HoldsPlant(last) then [last.slot.plant] else [])
  }

  /** PlantsOf keeps mapping order: it distributes over concatenation. */
  lemma {:induction false} PlantsOfAppend(a: seq<EntryData>, b: seq<EntryData>)
    ensures PlantsOf(a + b) == PlantsOf(a) + PlantsOf(b)
  {
    if b != [] {
      var b' := b[..|b| - 1];
      assert (a + b)[..|a + b| - 1] == a + b';
      assert (a + b)[|a + b| - 1] == b[|b| - 1];
      PlantsOfAppend(a, b');
    } else {
      assert a + b == a;
    }
  }

  /** A single entry contributes its plant if it holds one, and nothing otherwise. */
  lemma PlantsOfSingle(e: EntryData)
    ensures PlantsOf([e]) == if HoldsPlant(e) then [e.slot.plant] else []
  {
  }

  /** Appending an entry appends its plant, if it holds one. */
  lemma PlantsOfSnoc(vs: seq<EntryData>, e: EntryData)
    ensures PlantsOf(vs + [e]) == PlantsOf(vs) + if HoldsPlant(e) then [e.slot.plant] else []
  {
  }

  /** A plant is listed exactly when some entry of the mapping holds it. */
  lemma {:induction false} PlantsOfMembers(vs: seq<EntryData>, p: Plant)
    ensures p in PlantsOf(vs) <==> exists i :: 0 <= i < |vs| && vs[i] == Dict(HasPlant(p))
  {
    if vs != [] {
      var init := vs[..|vs| - 1];
      PlantsOfMembers(init, p);
      assert forall i :: 0 <= i < |init| ==> init[i] == vs[i];
      if p !in PlantsOf(init) && vs[|vs| - 1] == Dict(HasPlant(p)) {
        assert p in PlantsOf(vs);
      }
    }
  }

  /**
   * When the id comprehension does not raise, the tracked ids are exactly the
   * ids of the plants that `is_on` and `extra_state_attributes` visit.
   */
  lemma {:induction false} TrackedIdsArePlantIds(vs: seq<EntryData>)
    requires CurrentIds(vs).Some?
    ensures forall id :: id in CurrentIds(vs).value <==> exists p :: p in PlantsOf(vs) && p.entityId == id
  {
    forall id
      ensures id in CurrentIds(vs).value <==> exists p :: p in PlantsOf(vs) && p.entityId == id
    {
      if id in CurrentIds(vs).value {
        var i :| 0 <= i < |vs| && HoldsPlant(vs[i]) && vs[i].slot.plant.entityId == id;
        PlantsOfMembers(vs, vs[i].slot.plant);
      }
      if p :| p in PlantsOf(vs) && p.entityId == id {
        PlantsOfMembers(vs, p);
      }
    }
  }

  /**
   * The plants `is_on` visits are the plants `PlantsOf` lists: some entry is
   * in STATE_PROBLEM exactly when some listed plant is.
   */
  lemma {:induction false} AnyProblemAmongPlants(vs: seq<EntryData>)
    ensures (exists i :: 0 <= i < |vs| && InProblemState(vs[i])) <==>
            (exists p :: p in PlantsOf(vs) && p.state == Some(STATE_PROBLEM))
  {
    if i :| 0 <= i < |vs| && InProblemState(vs[i]) {
      PlantsOfMembers(vs, vs[i].slot.plant);
    }
    if p :| p in PlantsOf(vs) && p.state == Some(STATE_PROBLEM) {
      PlantsOfMembers(vs, p);
    }
  }

  // ---------------------------------------------------------------------
  // The plants with problems and their summaries
  // ---------------------------------------------------------------------

  /** The plants whose problem list is non-empty, in order. */
  function WithProblems(ps: seq<Plant>): seq<Plant> {
    if ps == [] then []
    else
      var last := ps[|ps| - 1];
      WithProblems(ps[..|ps| - 1]) + (if |last.problems| > 0 then [last] else [])
  }

  /** WithProblems keeps order: it distributes over concatenation. */
  lemma {:induction false} WithProblemsAppend(a: seq<Plant>, b: seq<Plant>)
    ensures WithProblems(a + b) == WithProblems(a) + WithProblems(b)
  {
    if b != [] {
      var b' := b[..|b| - 1];
      assert (a + b)[..|a + b| - 1] == a + b';
      assert (a + b)[|a + b| - 1] == b[|b| - 1];
      WithProblemsAppend(a, b');
    } else {
      assert a + b == a;
    }
  }

  /** Appending a plant appends it exactly when it has problems. */
  lemma WithProblemsSnoc(ps: seq<Plant>, p: Plant)
    ensures WithProblems(ps + [p]) == WithProblems(ps) + if |p.problems| > 0 then [p] else []
  {
  }

  /** WithProblems keeps exactly the plants with a non-empty problem list. */
  lemma {:induction false} WithProblemsMembers(ps: seq<Plant>, p: Plant)
    ensures p in WithProblems(ps) <==> p in ps && |p.problems| > 0
  {
    if ps != [] {
      var init := ps[..|ps| - 1];
      WithProblemsMembers(init, p);
      assert ps == init + [ps[|ps| - 1]];
    }
  }

  /**
   * Which name the summary shows: the registry name when the entity has a
   * registry entry with a non-empty name, else the plant's own name (Python's
   * `or` falls back on a None or empty name).
   */
  function FriendlyName(p: Plant, registry: Registry): (name: string)
    ensures p.entityId in registry && registry[p.entityId].name.Some? && registry[p.entityId].name.value != ""
      ==> name == registry[p.entityId].name.value
    ensures !(p.entityId in registry && registry[p.entityId].name.Some? && registry[p.entityId].name.value != "")
      ==> name == p.name
  {
    if p.entityId in registry then Or(registry[p.entityId].name, p.name) else p.name
  }

  /** Python's `a or b` on an optional string. */
  function Or(a: Option<string>, b: string): string {
    if a.Some? && a.value != "" then a.value else b
  }

  /**
   * The dict `extra_state_attributes` appends for a plant with problems: the
   * plant's id, its number of problems, and the device of its registry entry
   * (None when it has none).
   */
  function Summary(p: Plant, registry: Registry): (s: PlantSummary)
    ensures s.entityId == p.entityId && s.problemCount == |p.problems|
    ensures s.friendlyName == FriendlyName(p, registry)
    ensures p.entityId !in registry ==> s.deviceId == None
    ensures p.entityId in registry ==> s.deviceId == registry[p.entityId].deviceId
  {
    var entry := if p.entityId in registry then Some(registry[p.entityId]) else None;
    PlantSummary(
      p.entityId,
      FriendlyName(p, registry),
      |p.problems|,
      if entry.Some? then entry.value.deviceId else None)
  }

  /** The summaries of a sequence of plants, in order. */
  function Summaries(ps: seq<Plant>, registry: Registry): seq<PlantSummary> {
    if ps == [] then []
    else Summaries(ps[..|ps| - 1], registry) + [Summary(ps[|ps| - 1], registry)]
  }

  /** Summaries is the pointwise image of its input. */
  lemma {:induction false} SummariesAt(ps: seq<Plant>, registry: Registry)
    ensures |Summaries(ps, registry)| == |ps|
    ensures forall k :: 0 <= k < |ps| ==> Summaries(ps, registry)[k] == Summary(ps[k], registry)
  {
    if ps != [] {
      var init := ps[..|ps| - 1];
      SummariesAt(init, registry);
      assert forall k :: 0 <= k < |init| ==> init[k] == ps[k];
    }
  }

  /**
   * The `plants_with_problems` list holds one summary per plant with a
   * non-empty problem list, in order; each count is that plant's number of
   * problems and is positive.
   */
  lemma ProblemSummariesCounts(ps: seq<Plant>, registry: Registry)
    ensures |Summaries(WithProblems(ps), registry)| == |WithProblems(ps)|
    ensures forall k :: 0 <= k < |WithProblems(ps)| ==>
      && Summaries(WithProblems(ps), registry)[k].entityId == WithProblems(ps)[k].entityId
      && Summaries(WithProblems(ps), registry)[k].problemCount == |WithProblems(ps)[k].problems|
      && Summaries(WithProblems(ps), registry)[k].problemCount > 0
  {
    var w := WithProblems(ps);
    SummariesAt(w, registry);
    forall k | 0 <= k < |w|
      ensures |w[k].problems| > 0
    {
      WithProblemsMembers(ps, w[k]);
    }
  }

  /** The `total_problems` accumulator: the sum of the summaries' counts. */
  function TotalProblems(ss: seq<PlantSummary>): nat {
    if ss == [] then 0
    else TotalProblems(ss[..|ss| - 1]) + ss[|ss| - 1].problemCount
  }

  /** The number of problems over all plants, healthy ones included. */
  function ProblemCount(ps: seq<Plant>): nat {
    if ps == [] then 0
    else ProblemCount(ps[..|ps| - 1]) + |ps[|ps| - 1].problems|
  }

  /**
   * `total_problems` is the number of problems of all plants: leaving out
   * the plants without problems loses nothing.
   */
  lemma {:induction false} TotalProblemsOfAll(ps: seq<Plant>, registry: Registry)
    ensures TotalProblems(Summaries(WithProblems(ps), registry)) == ProblemCount(ps)
  {
    if ps != [] {
      var init, last := ps[..|ps| - 1], ps[|ps| - 1];
      TotalProblemsOfAll(init, registry);
      var w := WithProblems(init);
      if |last.problems| > 0 {
        assert WithProblems(ps) == w + [last];
        SummariesSnoc(w, last, registry);
        TotalProblemsSnoc(Summaries(w, registry), Summary(last, registry));
      } else {
        assert WithProblems(ps) == w;
      }
    }
  }

  lemma SummariesSnoc(ps: seq<Plant>, p: Plant, registry: Registry)
    ensures Summaries(ps + [p], registry) == Summaries(ps, registry) + [Summary(p, registry)]
  {
  }

  lemma TotalProblemsSnoc(ss: seq<PlantSummary>, s: PlantSummary)
    ensures TotalProblems(ss + [s]) == TotalProblems(ss) + s.problemCount
  {
  }

  /** The summary record `extra_state_attributes` returns, as a function of the mapping's values. */
  function AttributesOf(vs: seq<EntryData>, registry: Registry): Attributes {
    var s := Summaries(WithProblems(PlantsOf(vs)), registry);
    Attributes(s, TotalProblems(s), |PlantsOf(vs)|)
  }

  /**
   * `total_plants` counts every plant, healthy or not; `total_problems` is the
   * number of problems over all plants; the list has one entry per plant with
   * problems.
   */
  lemma AttributesOfTotals(vs: seq<EntryData>, registry: Registry)
    ensures AttributesOf(vs, registry).totalPlants == |PlantsOf(vs)|
    ensures AttributesOf(vs, registry).totalProblems == ProblemCount(PlantsOf(vs))
    ensures |AttributesOf(vs, registry).plantsWithProblems| == |WithProblems(PlantsOf(vs))|
  {
    TotalProblemsOfAll(PlantsOf(vs), registry);
    SummariesAt(WithProblems(PlantsOf(vs)), registry);
  }

  /**
   * What one more mapping value adds to the summary record: nothing for a
   * value without a plant, one to `total_plants` for a healthy plant, and
   * also its summary and its problem count for a plant with problems.
   */
  lemma AttributesOfSnoc(vs: seq<EntryData>, e: EntryData, registry: Registry)
    ensures AttributesOf(vs + [e], registry) ==
      var a := AttributesOf(vs, registry);
      if !HoldsPlant(e) then a
      else if |e.slot.plant.problems| == 0 then a.(totalPlants := a.totalPlants + 1)
      else
        var s := Summary(e.slot.plant, registry);
        Attributes(a.plantsWithProblems + [s], a.totalProblems + s.problemCount, a.totalPlants + 1)
  {
    PlantsOfSnoc(vs, e);
    var plants := PlantsOf(vs);
    var w := WithProblems(plants);
    var a := AttributesOf(vs, registry);
    assert a.plantsWithProblems == Summaries(w, registry);
    if HoldsPlant(e) {
      var plant := e.slot.plant;
      assert PlantsOf(vs + [e]) == plants + [plant];
      WithProblemsSnoc(plants, plant);
      if |plant.problems| > 0 {
        assert WithProblems(plants + [plant]) == w + [plant];
        SummariesSnoc(w, plant, registry);
        TotalProblemsSnoc(Summaries(w, registry), Summary(plant, registry));
      } else {
        assert WithProblems(plants + [plant]) == w;
      }
    } else {
      assert PlantsOf(vs + [e]) == plants;
    }
  }

  /** The indices of the mapping values that are dicts holding a plant. */
  ghost function PlantIndices(vs: seq<EntryData>): set<nat> {
    set i: nat | i < |vs| && HoldsPlant(vs[i])
  }

  /** `total_plants` counts one per dict entry holding a plant, healthy or not. */
  lemma {:induction false} PlantsOfCount(vs: seq<EntryData>)
    ensures |PlantsOf(vs)| == |PlantIndices(vs)|
  {
    if vs == [] {
      assert PlantIndices(vs) == {};
    } else {
      var n := |vs| - 1;
      var init := vs[..n];
      PlantsOfCount(init);
      assert forall i :: 0 <= i < n ==> init[i] == vs[i];
      if HoldsPlant(vs[n]) {
        assert PlantIndices(vs) == PlantIndices(init) + {n};
      } else {
        assert PlantIndices(vs) == PlantIndices(init);
      }
    }
  }
}
