/**
 * The global "plant problems" binary sensor: it tracks every plant entity
 * found in the integration's domain mapping, keeps exactly one state-change
 * subscription covering them (none when there are no plants), and computes
 * its on/off state and its extra attributes from the mapping on every read.
 */
module BinarySensor {
  import opened Wrappers
  import opened PlantData

  /** The handle of a state-change subscription (the remover callable in the source). */
  type Handle = nat

  /** What happened on the event bus, in order. */
  datatype BusEvent = Subscribed(handle: Handle, entityIds: set<string>) | Unsubscribed(handle: Handle)

  /**
   * The parts of the host the sensor uses: the integration's domain mapping
   * (`hass.data.get(DOMAIN)`, None when the key is absent) and the registry of
   * live state-change subscriptions, which hands out fresh handles.
   */
  class Hass {
    var domain: Option<DomainMap>
    var nextHandle: Handle
    var listeners: map<Handle, set<string>>
    /** Every subscription and teardown, in the order they happened. */
    ghost var log: seq<BusEvent>

    /** Handles are never reused, and a torn-down handle is torn down once and is dead. */
    ghost predicate Valid()
      reads this
    {
      && (forall h | h in listeners :: h < nextHandle)
      && (forall i | 0 <= i < |log| :: log[i].handle < nextHandle)
      && (forall i | 0 <= i < |log| && log[i].Unsubscribed? :: log[i].handle !in listeners)
      && (forall i, j | 0 <= i < j < |log| && log[i].Unsubscribed? && log[j].Unsubscribed? ::
            log[i].handle != log[j].handle)
    }

    constructor (domain: Option<DomainMap>)
      ensures Valid()
      ensures this.domain == domain && nextHandle == 0 && listeners == map[] && log == []
    {
      this.domain := domain;
      nextHandle := 0;
      listeners := map[];
      log := [];
    }

    /** `async_track_state_change_event(hass, ids, callback)`: one new subscription under a fresh handle. */
    method TrackStateChange(ids: set<string>) returns (h: Handle)
      requires Valid()
      modifies this`nextHandle, this`listeners, this`log
      ensures Valid()
      ensures h == old(nextHandle) && nextHandle == h + 1
      ensures listeners == old(listeners)[h := ids]
      ensures log == old(log) + [Subscribed(h, ids)]
    {
      h := nextHandle;
      nextHandle := nextHandle + 1;
      listeners := listeners[h := ids];
      log := log + [Subscribed(h, ids)];
    }

    /** Calling a subscription's remover: the subscription ends. */
    method Unsubscribe(h: Handle)
      requires Valid() && h in listeners
      modifies this`listeners, this`log
      ensures Valid()
      ensures listeners == old(listeners) - {h}
      ensures log == old(log) + [Unsubscribed(h)]
    {
      listeners := listeners - {h};
      log := log + [Unsubscribed(h)];
    }
  }

  /** The handle, if any, as a set. */
  function HandleSet(h: Option<Handle>): set<Handle> {
    if h.Some? then {h.value} else {}
  }

  /** The bus events a teardown of `h` produces. */
  function Teardown(h: Option<Handle>): seq<BusEvent> {
    if h.Some? then [Unsubscribed(h.value)] else []
  }

  /** `PlantMonitorProblemSensor`. */
  class ProblemSensor {
    const hass: Hass
    var trackedEntityIds: set<string>
    var removeListener: Option<Handle>
    /** Every handle this sensor has obtained from the bus. */
    ghost var issued: set<Handle>

    /**
     * The sensor holds a subscription exactly when it tracks some plant, that
     * subscription is live and covers the tracked set, and every other handle
     * it ever obtained has been torn down: none was dropped.
     */
    ghost predicate Valid()
      reads this, hass
    {
      && hass.Valid()
      && (removeListener.Some? <==> trackedEntityIds != {})
      && (removeListener.Some? ==>
            && removeListener.value in issued
            && removeListener.value in hass.listeners
            && hass.listeners[removeListener.value] == trackedEntityIds)
      && (forall h | h in issued :: h < hass.nextHandle)
      && (forall h | h in issued && removeListener != Some(h) ::
            h !in hass.listeners && Unsubscribed(h) in hass.log)
    }

    /** `__init__`: nothing tracked and no listener. */
    constructor (hass: Hass)
      requires hass.Valid()
      ensures Valid() && this.hass == hass
      ensures trackedEntityIds == {} && removeListener == None && issued == {}
    {
      this.hass := hass;
      trackedEntityIds := {};
      removeListener := None;
      issued := {};
    }

    /**
     * `_refresh_tracked_plants`. Returns true when the id comprehension raises
     * (a dict whose ATTR_PLANT value is None), in which case nothing changes.
     * An unchanged id set changes nothing either. Otherwise the old
     * subscription is torn down first, the tracked set is replaced, and one
     * fresh subscription covering it is installed unless it is empty.
     */
    method RefreshTrackedPlants() returns (raised: bool)
      requires Valid()
      modifies this`trackedEntityIds, this`removeListener, this`issued
      modifies hass`nextHandle, hass`listeners, hass`log
      ensures Valid()
      ensures raised <==> CurrentIds(Values(hass.domain)).None?
      ensures (raised || CurrentIds(Values(hass.domain)).value == old(trackedEntityIds)) ==>
        unchanged(this, hass)
      ensures !raised ==> trackedEntityIds == CurrentIds(Values(hass.domain)).value
      ensures !raised && trackedEntityIds != old(trackedEntityIds) ==>
        && issued == old(issued) + HandleSet(removeListener)
        && (trackedEntityIds == {} ==>
              && removeListener == None
              && hass.nextHandle == old(hass.nextHandle)
              && hass.listeners == old(hass.listeners) - HandleSet(old(removeListener))
              && hass.log == old(hass.log) + Teardown(old(removeListener)))
        && (trackedEntityIds != {} ==>
              && removeListener == Some(old(hass.nextHandle))
              && hass.nextHandle == old(hass.nextHandle) + 1
              && hass.listeners == (old(hass.listeners) - HandleSet(old(removeListener)))[old(hass.nextHandle) := trackedEntityIds]
              && hass.log == old(hass.log) + Teardown(old(removeListener)) + [Subscribed(old(hass.nextHandle), trackedEntityIds)])
    {
      var current := CurrentIds(Values(hass.domain));
      if current.None? {
        return true;
      }
      raised := false;
      var ids := current.value;
      if ids == trackedEntityIds {
        return;
      }
      SwapListener(ids);
    }

    /** Every handle the sensor obtained is dead and its teardown is logged. */
    ghost predicate Detached()
      reads this, hass
    {
      && hass.Valid()
      && (forall h | h in issued :: h < hass.nextHandle && h !in hass.listeners && Unsubscribed(h) in hass.log)
    }

    /** Calls the held remover, if any, before a new listener is installed. */
    method TearDownListener()
      requires Valid()
      modifies hass`listeners, hass`log
      ensures Detached()
      ensures hass.listeners == old(hass.listeners) - HandleSet(removeListener)
      ensures hass.log == old(hass.log) + Teardown(removeListener)
    {
      if removeListener.Some? {
        hass.Unsubscribe(removeListener.value);
      }
    }

    /** The changing half of `_refresh_tracked_plants`: tear down, replace, install. */
    method SwapListener(ids: set<string>)
      requires Valid() && ids != trackedEntityIds
      modifies this`trackedEntityIds, this`removeListener, this`issued
      modifies hass`nextHandle, hass`listeners, hass`log
      ensures Valid()
      ensures trackedEntityIds == ids
      ensures issued == old(issued) + HandleSet(removeListener)
      ensures ids == {} ==>
        && removeListener == None
        && hass.nextHandle == old(hass.nextHandle)
        && hass.listeners == old(hass.listeners) - HandleSet(old(removeListener))
        && hass.log == old(hass.log) + Teardown(old(removeListener))
      ensures ids != {} ==>
        && removeListener == Some(old(hass.nextHandle))
        && hass.nextHandle == old(hass.nextHandle) + 1
        && hass.listeners == (old(hass.listeners) - HandleSet(old(removeListener)))[old(hass.nextHandle) := ids]
        && hass.log == old(hass.log) + Teardown(old(removeListener)) + [Subscribed(old(hass.nextHandle), ids)]
    {
      TearDownListener();
      trackedEntityIds := ids;
      InstallListener();
    }

    /** One fresh subscription covering the tracked set, or none when it is empty. */
    method InstallListener()
      requires Detached()
      modifies this`removeListener, this`issued, hass`nextHandle, hass`listeners, hass`log
      ensures Valid()
      ensures issued == old(issued) + HandleSet(removeListener)
      ensures trackedEntityIds == {} ==>
        removeListener == None && unchanged(hass)
      ensures trackedEntityIds != {} ==>
        && removeListener == Some(old(hass.nextHandle))
        && hass.nextHandle == old(hass.nextHandle) + 1
        && hass.listeners == old(hass.listeners)[old(hass.nextHandle) := trackedEntityIds]
        && hass.log == old(hass.log) + [Subscribed(old(hass.nextHandle), trackedEntityIds)]
    {
      if trackedEntityIds != {} {
        var h := hass.TrackStateChange(trackedEntityIds);
        removeListener := Some(h);
        issued := issued + {h};
      } else {
        removeListener := None;
      }
    }

    /** `is_on`: true exactly when some dict entry holds a plant in STATE_PROBLEM. */
    method IsOn() returns (on: bool)
      ensures on <==> exists i :: 0 <= i < |Values(hass.domain)| && InProblemState(Values(hass.domain)[i])
    {
      var values := Values(hass.domain);
      var i := 0;
      while i < |values|
        invariant 0 <= i <= |values|
        invariant forall j :: 0 <= j < i ==> !InProblemState(values[j])
      {
        var entry := values[i];
        if entry.Dict? && entry.slot.HasPlant? && entry.slot.plant.state == Some(STATE_PROBLEM) {
          return true;
        }
        i := i + 1;
      }
      return false;
    }

    /**
     * `extra_state_attributes`, given the entity registry. It counts every
     * plant, lists the plants with problems in mapping order, and sums their
     * problem counts.
     */
    method ExtraStateAttributes(registry: Registry) returns (attrs: Attributes)
      ensures attrs == AttributesOf(Values(hass.domain), registry)
    {
      var values := Values(hass.domain);
      var plantsWithProblems: seq<PlantSummary> := [];
      var totalProblems: nat := 0;
      var totalPlants: nat := 0;
      ghost var seen: seq<EntryData> := [];
      var i := 0;
      while i < |values|
        invariant 0 <= i <= |values| && seen == values[..i]
        invariant Attributes(plantsWithProblems, totalProblems, totalPlants) == AttributesOf(seen, registry)
      {
        var entry := values[i];
        AttributesOfSnoc(seen, entry, registry);
        if entry.Dict? && entry.slot.HasPlant? {
          var plant := entry.slot.plant;
          totalPlants := totalPlants + 1;
          if |plant.problems| > 0 {
            var summary := Summary(plant, registry);
            plantsWithProblems := plantsWithProblems + [summary];
            totalProblems := totalProblems + summary.problemCount;
          }
        }
        seen := seen + [entry];
        i := i + 1;
      }
      assert seen == values;
      attrs := Attributes(plantsWithProblems, totalProblems, totalPlants);
    }
  }

  /**
   * Refreshing again while the mapping is unchanged keeps the listener that
   * the first refresh left in place.
   */
  method RefreshTwice(sensor: ProblemSensor) returns (first: Option<Handle>, second: Option<Handle>)
    requires sensor.Valid()
    modifies sensor`trackedEntityIds, sensor`removeListener, sensor`issued
    modifies sensor.hass`nextHandle, sensor.hass`listeners, sensor.hass`log
    ensures sensor.Valid()
    ensures first == second == sensor.removeListener
  {
    var _ := sensor.RefreshTrackedPlants();
    first := sensor.removeListener;
    var _ := sensor.RefreshTrackedPlants();
    second := sensor.removeListener;
  }
}
