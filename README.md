# MVG departure sensor — Dafny model

This project models the departure board of the Home Assistant MVG integration.
That is the sensor that shows the next departures from a Munich public-transport
station. On every refresh the sensor:

1. asks the transit service (`mvg_api.get_departures`) for the raw departures of its station;
2. keeps each departure that leaves strictly later than the configured lead time
   and whose product (`UBAHN`, `TRAM`, `BUS`, `SBAHN`, ...) is one of the
   included products, in fetch order;
3. sorts what it kept by `departureTimeMinutes` with Python's stable `sorted`;
4. sets its state to the minutes of the first departure and its icon from the
   product-to-icon table. With no departure left, it sets the state to `"-"`
   and the icon to the clock.

The attribute dictionary holds the station, the attribution, every field of
the first departure, and at most `departures_to_show` upcoming departures.

Layout:

- `departures.dfy`, module `Departures`: the values and the pure functions.
  - A departure is a record: integer minutes, a product string, and opaque extra fields.
  - `Desired` is the filter. `SortByMinutes` is the stable sort, written as an insertion sort. `Board` is the sorted, filtered list.
  - It also holds the icon table, the Python prefix slice and the attribute dictionary.
  - Lemmas state membership, multiplicity, order, sortedness, stability and uniqueness of the stable sort.
- `sensor.dfy`, module `Sensor`: the two classes of the source.
  - `MvgDepartureData` stores the last fetched list.
  - `MvgSensor` holds its fixed configuration as `const` fields. It also has the three fields a refresh replaces: `departures`, `state` and `icon`.
  - The filter loop is the method `SelectDesired`, proved against `Desired`.
  - `MvgSensor.Update` states the whole new state in terms of `Board`.

The transit service is not modelled. Each refresh receives its answer as a
`Fetch` value: either the list the service returned or `FetchRaised`.
Python exceptions become the `Outcome` value of `MvgSensor.Update`.

Two behaviours of the code to note:

- A first departure whose product is not in `ICONS` raises `KeyError`; there is no default icon (sensor.py:133).
  - The exception comes after `departures` and `_state` were already assigned (sensor.py:127-132).
  - So the sensor is left with the new departures and state and the previous icon.
  - `MvgSensor.Update` returns `UnknownProduct` in exactly that state.
- Before the first refresh, the state and icon are `None`, not `"-"` (sensor.py:67-68).
  - The model uses `Unknown` and `None` for these.

## Model

| member | source | states |
|---|---|---|
| `Departures.Desired` | homeassistant/components/mvg/sensor.py:115-122 | definition of the filter loop's result, using the test `Qualifies` (minutes strictly above the lead time and product included). Its contract: no longer than the fetch, and only fetched qualifying departures. Its full properties are proved by `DesiredAppend`, `DesiredCount` and `DesiredMembers` |
| `Departures.Insert` | homeassistant/components/mvg/sensor.py:127-129 | definition of one insertion step of the sort; it adds one element. Its properties are proved by `InsertPermutation`, `InsertSorted` and `WithMinutesInsert` |
| `Departures.SortByMinutes` | homeassistant/components/mvg/sensor.py:127-129 | definition of `sorted(..., key=departureTimeMinutes)`; it keeps the length. Its properties are proved by `SortSortedPermutation`, `SortStable`, `SortIsStableSort` and `StableSortIsSortByMinutes` |
| `Departures.Board` | homeassistant/components/mvg/sensor.py:115-129 | definition of the list a refresh stores: the filtered departures, sorted. It is no longer than the fetch. Its properties are proved by the `Board...` lemmas below |
| `Departures.IconTable` | homeassistant/components/mvg/sensor.py:23-28 | the `ICONS` table (the constant `Icons`) has exactly the keys `UBAHN`, `TRAM`, `BUS`, `SBAHN`. The clock icon `ClockIcon` of sensor.py:136 is none of its values |
| `Departures.AsDictInjective` | homeassistant/components/mvg/sensor.py:103 | two departures whose extra fields leave out the minutes and product keys are equal when their dictionaries are equal |
| `Departures.AsDict` | homeassistant/components/mvg/sensor.py:103 | a departure seen as the dictionary the service returned: its extra fields plus `departureTimeMinutes` and `product` |
| `Departures.DesiredAppend` | homeassistant/components/mvg/sensor.py:115-122 | the filter loop keeps relative order: filtering `a + b` is filtering `a` followed by filtering `b` |
| `Departures.DesiredCount` | homeassistant/components/mvg/sensor.py:117-122 | each qualifying departure is kept exactly as many times as it was fetched; a non-qualifying one never |
| `Departures.DesiredMembers` | homeassistant/components/mvg/sensor.py:117-122 | a departure is kept iff it was fetched, leaves strictly after the lead time and its product is included |
| `Departures.InsertPermutation` | homeassistant/components/mvg/sensor.py:127-129 | one insertion step of the sort adds exactly the inserted departure |
| `Departures.InsertSorted` | homeassistant/components/mvg/sensor.py:127-129 | one insertion step keeps a list sorted by minutes |
| `Departures.SortSortedPermutation` | homeassistant/components/mvg/sensor.py:127-129 | `sorted` by minutes yields a non-decreasing permutation of its input |
| `Departures.WithMinutesMembers` | homeassistant/components/mvg/sensor.py:127-129 | the group of departures with `k` minutes holds exactly the departures with `k` minutes |
| `Departures.WithMinutesInsert` | homeassistant/components/mvg/sensor.py:127-129 | an insertion puts the inserted departure first in its own minutes group and leaves other groups alone |
| `Departures.SortStable` | homeassistant/components/mvg/sensor.py:127-129 | the sort is stable: departures with equal minutes keep their fetch order |
| `Departures.SortedUnique` | homeassistant/components/mvg/sensor.py:127-129 | two sorted lists that agree on every equal-minutes group are equal |
| `Departures.SortIsStableSort` | homeassistant/components/mvg/sensor.py:127-129 | the sort's result is sorted and keeps every equal-minutes group in input order |
| `Departures.StableSortIsSortByMinutes` | homeassistant/components/mvg/sensor.py:127-129 | any sorted list that keeps the equal-minutes groups is the sort's result: a stable sort has a single outcome |
| `Departures.BoardCount` | homeassistant/components/mvg/sensor.py:115-129 | the stored departures are a permutation of the qualifying fetched ones, with multiplicity |
| `Departures.BoardMembers` | homeassistant/components/mvg/sensor.py:115-129 | a departure is stored iff it was fetched and qualifies |
| `Departures.BoardSortedStable` | homeassistant/components/mvg/sensor.py:115-129 | the stored departures are non-decreasing in minutes, and ties appear in fetch order |
| `Departures.BoardEmpty` | homeassistant/components/mvg/sensor.py:115-136 | the stored list is empty iff no fetched departure qualifies (so state `"-"` and clock icon) |
| `Departures.BoardFirstIsEarliest` | homeassistant/components/mvg/sensor.py:131-132 | the first stored departure qualifies, was fetched, and leaves no later than any qualifying fetched departure |
| `Departures.ExampleBoard` | homeassistant/components/mvg/sensor.py:115-129 | fetched `[(BUS,-6),(TRAM,2),(UBAHN,9),(BUS,2)]` with lead time 0 gives `[(TRAM,2),(BUS,2),(UBAHN,9)]` |
| `Departures.ExampleBoardLeadTime` | homeassistant/components/mvg/sensor.py:115-129 | the same fetch with lead time 5 gives `[(UBAHN,9)]` |
| `Departures.PrefixSlice` | homeassistant/components/mvg/sensor.py:104 | Python's `s[:n]` is a prefix of `s` of length `min(n, len s)` for `n >= 0`; a negative `n` drops `-n` from the end |
| `Departures.Attributes` | homeassistant/components/mvg/sensor.py:100-106 | the keys are station, attribution, `upcoming_departures` and the first departure's fields; the first departure's fields override station and attribution; `upcoming_departures` is the prefix of length `min(departures_to_show, len)` |
| `Sensor.MvgDepartureData.constructor` | homeassistant/components/mvg/sensor.py:140-142 | a new data holder stores its station id and no departures |
| `Sensor.MvgDepartureData.Update` | homeassistant/components/mvg/sensor.py:144-145 | the stored departures become the fetched list; if the fetch raises, they stay unchanged |
| `Sensor.SelectDesired` | homeassistant/components/mvg/sensor.py:115-122 | the filter loop returns the filtered list, holding exactly the fetched departures that qualify |
| `Sensor.MvgSensor.constructor` | homeassistant/components/mvg/sensor.py:60-74 | a new sensor keeps its configuration, has no state, no icon and no departures, and owns a fresh data holder |
| `Sensor.MvgSensor.Update` | homeassistant/components/mvg/sensor.py:108-136 | see the bullets below this table |
| `Sensor.MvgSensor.DeviceStateAttributes` | homeassistant/components/mvg/sensor.py:96-106 | no attributes iff there are no departures yet or none qualified; otherwise the attribute dictionary of the stored list |
| `Sensor.RefreshTwice` | homeassistant/components/mvg/sensor.py:108-136 | two refreshes with the same answer from the service leave identical departures, state and icon |
| `Sensor.ExampleRefresh` | homeassistant/components/mvg/sensor.py:108-136 | the example fetch on a new sensor gives state 2 and icon `mdi:tram` |
| `Sensor.ExampleEmptyRefresh` | homeassistant/components/mvg/sensor.py:131-136 | an empty fetch gives state `"-"`, the clock icon and no attributes |
| `Sensor.ExampleUnknownProduct` | homeassistant/components/mvg/sensor.py:127-133 | a first departure with a product outside the icon table ends the refresh with the lookup error. Departures and state are already replaced; the icon is the old one |

What `Sensor.MvgSensor.Update` states:

- If the fetch raises, the result is `FetchFailed` and nothing in the sensor or its data holder changes.
- Otherwise the data holder stores the fetched list, and `departures` becomes the sorted, filtered board.
- If the board is empty, the state is `"-"` and the icon is the clock.
- If the board is not empty, the state is the first departure's minutes.
  - If that departure's product is in the icon table, the icon is its table entry.
  - Otherwise the refresh ends with the lookup error and the icon keeps its old value.

## Left out

- The transit service (`mvg_api.get_departures`, `mvg_api.get_locations`) is not modelled. Its answer is a parameter of each refresh.
- The station resolver and the setup and options wizard (`config_flow.py`) are not part of this model. They are a UI flow around one external lookup call.
- Entry setup, unload and reload (`__init__.py`) are not part of this model, nor is `async_setup_entry` with its option defaults (sensor.py:31-54). This is host wiring.
- The 30-second `SCAN_INTERVAL` schedule is not modelled. Each call of `MvgSensor.Update` is one refresh.
- The plain property getters (`name`, `state`, `icon`, `unit_of_measurement`) are not modelled. They only return a field or a constant; the model exposes the fields directly.
- The constants module does not define `DATA_ATTRIBUTION`, so the attribution text is a constructor parameter.
  - The key `ATTR_ATTRIBUTION` is `"attribution"`; `homeassistant/const.py` is not part of this model.
- Exceptions are not propagated to the host. `MvgSensor.Update` returns them as an `Outcome` value.
- Departure fields other than minutes and product are passed through as opaque values. Nested lists and nulls are kept as JSON text.
- The model assumes every record has an integer `departureTimeMinutes` and a string `product`.
  - In the source, a record missing `departureTimeMinutes` raises `KeyError` (sensor.py:119).
  - A record missing `product` raises only when its minutes exceed the lead time. Otherwise the `and` at sensor.py:119-120 stops before reading `product`, and the record is dropped.
