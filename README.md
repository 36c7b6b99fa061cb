# Global plant-problem sensor, modelled in Dafny

This project models `PlantMonitorProblemSensor`, the single global binary
sensor of the Home Assistant plant integration. The sensor does three things:

- It keeps a set of tracked plant entity ids, taken from the integration's
  domain mapping, and exactly one state-change subscription covering them
  (none when the set is empty). When the set changes, it replaces the
  subscription, tearing down the old one first.
- It is on exactly when some plant in the mapping is in the `problem` state.
- It publishes a summary record: how many plants there are, which of them
  have problems (with a display name, a problem count and a device id), and
  the total number of problems.

Files:
- `wrappers.dfy`: the `Option` type (Python's `None`).
- `plant_data.dfy`, module `PlantData`: the values of the domain mapping (a
  non-dict value, or a dict whose plant key is missing, holds `None`, or holds
  a plant). It also holds the pure specification functions (the tracked id
  set, the plants in mapping order, the plants with problems, their
  summaries, the totals) and the lemmas about them.
- `binary_sensor.dfy`, module `BinarySensor`: class `Hass` (the domain
  mapping and a registry of live subscriptions that hands out fresh handles,
  with a ghost log of subscribe and teardown events) and class
  `ProblemSensor`, whose methods are the source's methods.

How the host is modelled:
- `hass.data.get(DOMAIN, {})` is `Hass.domain`, an optional ordered list of
  (key, value) pairs; a missing domain reads as empty.
- `async_track_state_change_event` is `Hass.TrackStateChange`. It returns a
  fresh natural-number handle.
- Calling the returned remover is `Hass.Unsubscribe`.
- The entity registry (`er.async_get`) is an input map from entity id to
  `(name, device_id)`.
- The `STATE_PROBLEM` constant is the host's string `"problem"`.
- The `ATTR_PLANT` and `DATA_GLOBAL_PROBLEM_SENSOR` key constants come from
  `const.py`, which is not part of this model. Only the distinctions they make
  are modelled: dict or not, plant key present or not.
- If a dict has the plant key set to `None`, the id comprehension of
  `_refresh_tracked_plants` raises `AttributeError` on `.entity_id`. The model
  returns this as `raised == true`, with no state changed. The two read paths
  use `.get`, so they skip such an entry.

## Model

| member | source | states |
|---|---|---|
| PlantData.Values | custom_components/plant/binary_sensor.py:88 | a missing domain reads as no values; otherwise the values are the mapping's values in order |
| PlantData.CurrentIds | custom_components/plant/binary_sensor.py:86-90 | the comprehension raises exactly when some dict value has the plant key set to None; otherwise an id is in the result iff some dict entry holds a plant with that entity id (non-dicts and dicts without the plant key are ignored) |
| PlantData.PlantsOfAppend | custom_components/plant/binary_sensor.py:135-141 | the plants visited keep mapping order: the plant list of a concatenation is the concatenation of the plant lists |
| PlantData.PlantsOfSingle | custom_components/plant/binary_sensor.py:136-140 | one value contributes its plant when it is a dict holding one, and nothing otherwise |
| PlantData.PlantsOfMembers | custom_components/plant/binary_sensor.py:135-141 | a plant is visited iff some mapping value is a dict holding it |
| PlantData.TrackedIdsArePlantIds | custom_components/plant/binary_sensor.py:86-90 | when the comprehension does not raise, the tracked ids are exactly the entity ids of the plants the two read paths visit |
| PlantData.AnyProblemAmongPlants | custom_components/plant/binary_sensor.py:116-124 | some dict entry in the problem state iff some visited plant is in the problem state |
| PlantData.WithProblemsAppend | custom_components/plant/binary_sensor.py:143 | the plants with problems keep their relative order |
| PlantData.WithProblemsMembers | custom_components/plant/binary_sensor.py:142-143 | a plant is listed iff it is among the plants and its problem list is non-empty |
| PlantData.FriendlyName | custom_components/plant/binary_sensor.py:148-152 | the registry name when the plant has a registry entry whose name is present and non-empty; otherwise the plant's own name |
| PlantData.Summary | custom_components/plant/binary_sensor.py:144-161 | a summary carries the plant's entity id, its number of problems, its friendly name, and the registry entry's device id (None when there is no registry entry) |
| PlantData.SummariesAt | custom_components/plant/binary_sensor.py:154-161 | one summary per listed plant, and the k-th summary is that of the k-th plant |
| PlantData.ProblemSummariesCounts | custom_components/plant/binary_sensor.py:142-161 | `plants_with_problems` has one entry per plant with problems, in order; each entry's id is that plant's, and its count equals that plant's number of problems and is positive |
| PlantData.TotalProblemsOfAll | custom_components/plant/binary_sensor.py:162 | `total_problems`, the sum of the listed counts, equals the number of problems over all plants, healthy ones included |
| PlantData.AttributesOfTotals | custom_components/plant/binary_sensor.py:127-168 | `total_plants` is the number of dict entries that hold a plant; `total_problems` is the number of problems over all plants; the list has one entry per plant with problems |
| PlantData.PlantsOfCount | custom_components/plant/binary_sensor.py:135-141 | the number of plants visited, which is `total_plants`, equals the number of mapping values that are dicts holding a plant |
| BinarySensor.Hass.TrackStateChange | custom_components/plant/binary_sensor.py:107-109 | a subscription covering the given ids is added under a fresh handle and logged; nothing else changes |
| BinarySensor.Hass.Unsubscribe | custom_components/plant/binary_sensor.py:97 | a live subscription ends and its teardown is logged; the log never holds the same handle's teardown twice |
| BinarySensor.ProblemSensor.constructor | custom_components/plant/binary_sensor.py:61-65 | nothing is tracked, no listener is held, and the sensor invariant holds |
| BinarySensor.ProblemSensor.RefreshTrackedPlants | custom_components/plant/binary_sensor.py:77-111 | keeps the invariant: a listener is held iff the tracked set is non-empty; it is live; it covers the tracked set; every other handle the sensor obtained was torn down. A raise or an unchanged id set leaves all state unchanged. Otherwise the tracked set becomes the current ids; the old listener is torn down before anything is installed; the handle becomes None for an empty set, or else one fresh subscription covering exactly the new set |
| BinarySensor.ProblemSensor.SwapListener | custom_components/plant/binary_sensor.py:95-111 | on a changed id set: the held listener is torn down and logged, then the tracked set is replaced, then one fresh subscription covering exactly that set is installed and logged, unless the set is empty and the handle becomes None |
| BinarySensor.ProblemSensor.TearDownListener | custom_components/plant/binary_sensor.py:95-97 | the held remover, if any, is called: that subscription ends and its teardown is logged; afterwards every handle the sensor obtained is dead |
| BinarySensor.ProblemSensor.InstallListener | custom_components/plant/binary_sensor.py:106-111 | from a state where every handle obtained is dead: a non-empty tracked set gets one fresh subscription covering exactly it; an empty set gets None and the bus is untouched; the sensor invariant is restored |
| BinarySensor.ProblemSensor.IsOn | custom_components/plant/binary_sensor.py:113-125 | on iff some dict entry holds a plant whose state is `problem`; it has no modifies clause, so it changes nothing |
| BinarySensor.ProblemSensor.ExtraStateAttributes | custom_components/plant/binary_sensor.py:127-168 | the record equals `AttributesOf` of the mapping's values and the registry; it has no modifies clause, so it changes nothing |
| BinarySensor.RefreshTwice | tests/test_binary_sensor.py:258-270 | a second refresh with the mapping unchanged keeps the handle the first refresh left |

## Left out

- `async_setup_platform` (discovery, entity registration and storing the sensor under its key in the domain mapping) is host plumbing. The stored sensor appears in the model only as a non-dict value of the mapping.
- `async_added_to_hass` and its `async_on_remove` wrapper are host lifecycle hooks. The wrapper calls the current remover but does not clear `_remove_listener`, so after it runs the sensor no longer satisfies the model's invariant. The sensor is discarded at that point.
- The `_plant_state_changed` callback, `async_write_ha_state` and event delivery are not modelled. A subscription is a token recording which ids it covers.
- The list passed to `async_track_state_change_event` is modelled as the set it was built from; its order is arbitrary in the source.
- The class constants are not modelled: name, unique id, device class and `should_poll`.
- The per-metric threshold evaluator with hysteresis and the per-plant state and problem-list builder (`PlantDevice.update`) are not modelled. Their source is not among the files modelled here. A plant's state and problem list are inputs.
- Behaviour the model keeps exactly as the code has it:
  - `is_on` and `extra_state_attributes` walk the whole domain mapping, not the tracked set.
  - `total_plants` counts dict entries holding a plant, so two entries with the same entity id count twice, while the tracked set holds that id once.
  - The friendly name falls back to the plant's own name when the registry name is empty as well as when it is missing.
