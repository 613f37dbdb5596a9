# Tiger pet simulation core, modelled in Dafny

This project models the simulation core of a desktop virtual pet, a tiger.

**The pet (`TigerPet`).** It is a mutable record:
- four vitals in [0, 100]: hunger, energy, mood and cleanliness;
- progression: level, experience and the threshold of the next level;
- an age, in seconds;
- four per-second decay rates;
- an emotional state derived from the vitals.

A tick (`update`) works in four steps:
1. the vitals decay linearly;
2. each need below 30 adds a mood penalty;
3. the state is reclassified by a first-match cascade;
4. a healthy pet gains some experience.

`add_exp` levels the pet up until its experience is below the threshold. Each level-up:
- recomputes the threshold as floor(100 · 1.2^(level − 1));
- restores every vital by 20, capped at 100;
- makes every decay rate 2% slower.

The four actions (feed, clean, sleep, play) are guarded. `to_dict` and `from_dict` save and restore twelve fields, with a default for every missing key.

**The shop.** A fixed catalog of five items, and `buy_item`. It checks funds first and the effect type second. Then it raises one vital, capped at 100, takes the price and grants 5 experience.

**The game manager.** It is a clock-driven driver:
- a paused flag;
- ticks measured since the last tick;
- an auto-save whenever the whole second is a multiple of 30;
- delegation of the four actions;
- a one-time offline catch-up on load.

**How each source file is modelled.**
- `PetLogic` (`pet.dfy`): the pet as a `class TigerPet`, whose methods reassign its fields as the source does. `Snapshot()` reads those fields as a `Pet` value. Each method's postcondition ties its new snapshot, and its results, to a specification function of the old snapshot: `Updated`, `Performed`, `ExpAdded`, `LeveledUp` and `Loaded`.
- `PetProperties` (`pet_properties.dfy`): lemmas that prove about those functions what the source promises.
- `ShopLogic` (`shop.dfy`): the catalog, and `BuyItem`, which mutates a `TigerPet` and is tied to `Purchased`.
- `GameLogic` (`game_manager.dfy`): the class `GameManager` and its lemmas.
- `Wrappers` (`wrappers.dfy`): an `Option` type. `GetOr` models `dict.get(key, default)`.

**Modelling choices.**
- Stats, rates and experience are exact `real`s.
- Python's `1.2 ** k` is computed exactly. For a negative exponent it is a power of 5/6, which only a loaded level below 1 can produce.
- Python's `int()` truncates toward zero and is written out as such.
- The clock is a `now` parameter.

**Behaviour of the code worth noting.**
- `add_exp` ends for every loaded pet. A loaded threshold of 0 or below costs one level-up. From level 1 on, the threshold recomputed after it is at least 100. Below level 1, each level-up raises the level. `Drained` proves this with the measure (levels below 1, experience above the threshold in steps of 100).
- Only `update` and `from_dict` recompute the state. Actions leave the state as it was, and so does a level-up from passive experience. `UpdateState` and `PerformedOutcome` state this.
- The coin balance changes only in `buy_item`.
- Every message is a fixed string, and the code uses no randomness.
- Auto-save is due for the whole first second of every half-minute (`AutoSaveWindow`).

## Model

| member | source | states |
|---|---|---|
| PetLogic.Classify | logic/tiger_pet.py:69-82 | the cascade as a decision table: an exact if-and-only-if condition for each of the six states |
| PetLogic.Healthy | logic/tiger_pet.py:84-87 | a pet healthy enough for passive experience is always classified Happy or Neutral |
| PetLogic.StateDescription | logic/tiger_pet.py:158-168 | every state has its own description, so the "Unknown state" fallback is never returned |
| PetLogic.Growth | logic/tiger_pet.py:143 | 1.2^k is at least 1 for k ≥ 0 and never negative |
| PetLogic.Threshold | logic/tiger_pet.py:143 | floor(100 · 1.2^(level−1)) is never negative and is at least 100 from level 1 on |
| PetLogic.LevelUpDecreasesMeasure | logic/tiger_pet.py:134-143 | each level-up of the loop strictly decreases (levels below 1, experience above the threshold in steps of 100), so the loop always ends |
| PetLogic.Drained | logic/tiger_pet.py:134-135 | the level-up loop ends with experience below the threshold; it never lowers the level; it keeps the level exactly when the threshold was not reached; it keeps experience non-negative and leaves state, age and coins alone |
| PetLogic.MoodPenalty | logic/tiger_pet.py:52-58 | the per-second mood modifier lies in [−0.45, 0] and is 0 exactly when no need is below 30 |
| PetLogic.VitalNamed | logic/shop.py:31-33 | a name resolves to a vital exactly when it is that vital's attribute name: each of "hunger", "energy", "mood" and "cleanliness" resolves to its vital, and a found vital carries the name looked up |
| PetLogic.ToRecord | logic/tiger_pet.py:170-185 | the record holds all twelve saved fields: restoring it over any pet gives back the saved pet, except for that pet's state and coins |
| PetLogic.TigerPet.constructor | logic/tiger_pet.py:19-39 | a new pet is the fresh pet: full vitals, level 1, no experience, threshold 100, the default decay rates |
| PetLogic.TigerPet.Update | logic/tiger_pet.py:41-67 | a tick leaves exactly the state `Updated(old, dt)`: decay, mood penalty, reclassification, then passive experience when healthy |
| PetLogic.TigerPet.Decay | logic/tiger_pet.py:43-49 | age grows by dt and every vital decays by rate · dt, floored at 0 |
| PetLogic.TigerPet.PenalizeMood | logic/tiger_pet.py:51-60 | only the mood changes: it falls by the summed per-need penalty times dt, floored at 0 |
| PetLogic.TigerPet.UpdateState | logic/tiger_pet.py:69-82 | only the state changes, to the classification of the current vitals |
| PetLogic.TigerPet.Feed | logic/tiger_pet.py:89-96 | result and new state are `Performed(old, Feed)` |
| PetLogic.TigerPet.Clean | logic/tiger_pet.py:98-106 | result and new state are `Performed(old, Clean)` |
| PetLogic.TigerPet.Sleep | logic/tiger_pet.py:108-116 | result and new state are `Performed(old, Sleep)` |
| PetLogic.TigerPet.Play | logic/tiger_pet.py:118-127 | result and new state are `Performed(old, Play)` |
| PetLogic.TigerPet.AddExp | logic/tiger_pet.py:129-135 | the loop leaves exactly `ExpAdded(old, amount)`; the loop invariant ties each intermediate state to that result |
| PetLogic.TigerPet.LevelUp | logic/tiger_pet.py:137-156 | exactly one `LeveledUp` step: threshold spent, level +1, threshold recomputed, vitals +20 capped, rates × 0.98 |
| PetLogic.TigerPet.RestoreVitals | logic/tiger_pet.py:145-149 | each vital becomes min(100, v + 20) and nothing else changes |
| PetLogic.TigerPet.ReduceDecayRates | logic/tiger_pet.py:151-156 | each decay rate is multiplied by 0.98 and nothing else changes |
| PetLogic.TigerPet.FromDict | logic/tiger_pet.py:187-201 | the new state is `Loaded(old, data)`: the twelve fields restored with their defaults, the coins kept, then the state reclassified |
| PetLogic.TigerPet.LoadVitals | logic/tiger_pet.py:189-192 | each vital is taken from the record, 100 when absent |
| PetLogic.TigerPet.LoadProgression | logic/tiger_pet.py:193-196 | level, experience, threshold and age are taken from the record, with defaults 1, 0, 100 and 0 |
| PetLogic.TigerPet.LoadDecayRates | logic/tiger_pet.py:197-200 | each decay rate is taken from the record, the default rate when absent |
| PetProperties.FreshPet | logic/tiger_pet.py:19-39 | the fresh pet's twelve values; its state HAPPY agrees with its vitals; its vitals are in range |
| PetProperties.HungerTakesPrecedence | logic/tiger_pet.py:71-72 | hunger 10 with mood 90 is HUNGRY: the first match wins |
| PetProperties.DescriptionsDistinct | logic/tiger_pet.py:160-167 | two states share a description exactly when they are the same state |
| PetProperties.ThresholdValues | logic/tiger_pet.py:143 | the thresholds of levels 1, 2 and 3 are 100, 120 and 144 |
| PetProperties.ThresholdGrows | logic/tiger_pet.py:143 | from level 1 on, each threshold exceeds the previous one by at least 20 |
| PetProperties.LevelUpKeepsRange | logic/tiger_pet.py:145-156 | a level-up keeps the vitals in [0, 100] and never raises a decay rate |
| PetProperties.LevelUpThreshold | logic/tiger_pet.py:143 | from level 1 on, the recomputed threshold is at least 100 |
| PetProperties.DrainedSpendsThresholds | logic/tiger_pet.py:134-143 | the loop spends exactly the thresholds it passes; the final threshold is that of the final level |
| PetProperties.DrainedBonuses | logic/tiger_pet.py:146-149 | after k level-ups each vital is min(100, v + 20k) |
| PetProperties.Hardened | logic/tiger_pet.py:152-156 | a rate multiplied by 0.98 any number of times stays between 0 and the original rate |
| PetProperties.DrainedRates | logic/tiger_pet.py:152-156 | after k level-ups each decay rate is the original one multiplied by 0.98 k times |
| PetProperties.ExpAddedSettles | logic/tiger_pet.py:129-135 | a non-negative amount on non-negative experience ends with 0 ≤ exp < threshold; the level never falls; it stays exactly when exp + amount is below the threshold |
| PetProperties.ExpAddedLedger | logic/tiger_pet.py:129-143 | without a level-up only exp changes, by the amount; with one, the remainder is exp + amount minus every threshold passed |
| PetProperties.ExpAddedKeepsRange | logic/tiger_pet.py:129-156 | add_exp keeps the vitals in range and never lowers them; it never raises a rate; it leaves state, age and coins alone |
| PetProperties.FirstLevelUp | test/test_tiger_pet.py:31-35 | from a fresh pet, 100 experience gives level 2, threshold 120 and experience 0 |
| PetProperties.TendedKeepsRange | logic/tiger_pet.py:46-60 | decay and the mood penalty keep the vitals in [0, 100] and never raise one, for dt ≥ 0 |
| PetProperties.UpdateKeepsRange | logic/tiger_pet.py:41-67 | for dt ≥ 0, a tick keeps every vital in [0, 100] and the rates non-negative |
| PetProperties.UpdateAges | logic/tiger_pet.py:43 | a tick ages the pet by exactly dt and leaves the coins alone |
| PetProperties.UpdateState | logic/tiger_pet.py:62-67 | the state after a tick classifies the decayed and penalised vitals; it classifies the final vitals when no passive level-up happened |
| PetProperties.UpdatePassiveExp | logic/tiger_pet.py:65-67 | an unhealthy pet gains no experience; a healthy one gains 0.1 · dt through add_exp and levels up exactly when that reaches the threshold |
| PetProperties.UpdateLowersHunger | test/test_tiger_pet.py:15-18 | with a positive rate, a positive dt and hunger above 0, a tick without a level-up lowers hunger |
| PetProperties.FreshPetAfterOneSecond | test/test_tiger_pet.py:15-18 | one second from a fresh pet: hunger 99.85, experience 0.1, still level 1 and HAPPY |
| PetProperties.PerformedOutcome | logic/tiger_pet.py:89-127 | an action succeeds exactly when its guard passes; a failed one returns its message and changes nothing; no action touches the state, the age or the coins |
| PetProperties.PerformedDeltas | logic/tiger_pet.py:94-127 | without a level-up, each successful action applies exactly its clamped deltas and its experience |
| PetProperties.PerformedKeepsRange | logic/tiger_pet.py:89-127 | every action keeps the vitals in [0, 100] |
| PetProperties.FeedingExamples | test/test_tiger_pet.py:20-29 | feeding at hunger 50 succeeds with hunger 90; at hunger 95 it fails |
| PetProperties.RecordRoundTrip | logic/tiger_pet.py:170-201 | loading a pet's own record restores its twelve fields and the classified state, and keeps the loader's coins |
| PetProperties.RecordRoundTripConsistent | logic/tiger_pet.py:170-201 | a pet whose state agrees with its vitals comes back identical but for the coins |
| PetProperties.AbsentKeysDefault | logic/tiger_pet.py:189-200 | every absent key takes the fresh pet's value for its field |
| PetProperties.EmptyRecordLoadsFresh | logic/tiger_pet.py:187-201 | an empty record loads a fresh pet |
| ShopLogic.Catalog | logic/shop.py:16-23 | five items, each with a positive price, a positive effect and an effect type naming a vital |
| ShopLogic.Shop.constructor | logic/shop.py:16-23 | a new shop offers the catalog |
| ShopLogic.Shop.BuyItem | logic/shop.py:25-43 | result and new pet state are `Purchased(old, item)` |
| ShopLogic.InsufficientFunds | logic/shop.py:27-28 | short of coins, the purchase fails with "Not enough coins!", whatever the effect type, and nothing changes |
| ShopLogic.InvalidEffect | logic/shop.py:31-43 | with enough coins but an effect naming no vital, it fails with "Invalid item effect" and nothing changes |
| ShopLogic.PurchaseCoins | logic/shop.py:27-43 | success exactly when the funds suffice and the effect names a vital; the coins returned are the balance afterwards; coins fall by the price on success and are otherwise untouched; they stay non-negative; failure changes nothing |
| ShopLogic.PurchaseEffect | logic/shop.py:32-41 | on success the vital becomes min(100, v + effect), the price is paid and add_exp(5) runs; without a level-up that is 5 experience more |
| ShopLogic.PurchaseKeepsRange | logic/shop.py:25-43 | a purchase with a non-negative effect keeps the vitals in [0, 100] |
| ShopLogic.TenCoinsBuyNoSteak | logic/shop.py:18-28 | 10 coins do not buy the 50-coin steak, and nothing changes |
| GameLogic.TruncateToInt | logic/game_manager.py:29 | Python's `int()`: what is cut off lies in [0, 1) for non-negative times and in (−1, 0] for negative ones |
| GameLogic.OfflineTime | logic/game_manager.py:68 | the simulated absence is at most 3600 s: it is the absence itself, or 3600 when the absence was longer |
| GameLogic.GameManager.constructor | logic/game_manager.py:10-14 | a fresh pet, the clock at `now`, not paused |
| GameLogic.GameManager.Update | logic/game_manager.py:16-30 | paused: nothing changes and nothing is saved; otherwise the pet is ticked by now − last tick, the clock moves to now, and a save record is produced exactly when the auto-save is due |
| GameLogic.GameManager.FeedPet | logic/game_manager.py:32-34 | exactly the pet's feed |
| GameLogic.GameManager.CleanPet | logic/game_manager.py:36-38 | exactly the pet's clean |
| GameLogic.GameManager.SleepPet | logic/game_manager.py:40-42 | exactly the pet's sleep |
| GameLogic.GameManager.PlayWithPet | logic/game_manager.py:44-46 | exactly the pet's play |
| GameLogic.GameManager.SaveGame | logic/game_manager.py:48-54 | the save record holds the pet's record and the save time |
| GameLogic.GameManager.LoadGame | logic/game_manager.py:56-71 | the pet becomes `Resumed(old, data, now)`: the record loaded, then the offline catch-up |
| GameLogic.GameManager.Pause | logic/game_manager.py:73-75 | only the paused flag is set |
| GameLogic.GameManager.Resume | logic/game_manager.py:77-80 | the flag is cleared, and the clock restarts at now |
| GameLogic.GameManager.ResetGame | logic/game_manager.py:82-85 | a newly allocated fresh pet, whose record is saved |
| GameLogic.AutoSaveDue | logic/game_manager.py:29 | `int(now) % 30 == 0`; from the epoch on, a save is due exactly when floor(now) is a multiple of 30 |
| GameLogic.AutoSavePeriodic | logic/game_manager.py:28-29 | from the epoch on, a save is due at now exactly when it is due at now + 30 |
| GameLogic.AutoSaveWindow | logic/game_manager.py:29 | within each half-minute a save is due during the whole first second and at no other time |
| GameLogic.CatchUpBounds | logic/game_manager.py:67-71 | an absence of 60 s or less applies nothing; one of up to an hour applies itself; a longer one applies exactly 3600 s |
| GameLogic.CatchUpExamples | logic/game_manager.py:67-71 | a 5000 s absence applies 3600 s; a 30 s one and a negative one apply nothing |
| GameLogic.LoadFallbacks | logic/game_manager.py:60-64 | with no record, or a record without a pet whatever its save time, the pet is unchanged; with no save time the record is loaded and nothing is caught up |
| GameLogic.SaveThenLoadRestores | logic/game_manager.py:48-71 | saving, then loading within a minute, restores the saved fields and the classified state |
| GameLogic.SaveThenLoadCatchesUp | logic/game_manager.py:48-71 | saving, then loading after more than a minute, gives the restored pet ticked by the clamped absence |
| GameLogic.ResetThenLoadIsFresh | logic/game_manager.py:82-85 | a reset game loaded again within a minute is a fresh pet |

## Left out

- Coins: the source `TigerPet` has no `coins` attribute. `buy_item`, the only place that reads or writes it, would raise `AttributeError` on a pet made by the constructor. The model adds `coins: int` to the pet, starting at 0. `to_dict` does not save it and `from_dict` leaves it alone.
- PetLogic.VitalNamed: the source decides with `hasattr`, which accepts any attribute of the pet (`level`, `exp`, `age`, a decay rate, even a method name). The model accepts only the four vitals every catalog item names. An item aimed at any other attribute is treated as "Invalid item effect".
- Floating point: all arithmetic is exact. IEEE-754 rounding of `1.2 ** k`, of repeated × 0.98 and of the decay steps is not modelled.
- Save-record values are typed: each key holds a number of the right kind, or is absent. A JSON file with, say, a string under `hunger` is outside the model.
- Negative tick lengths: the range lemmas require dt ≥ 0. With a negative dt the decay raises vitals above 100, and the model simply computes that.
- Default arguments: `update`'s `delta_time=1.0` (logic/tiger_pet.py:41) and `ShopItem`'s `icon` default (logic/shop.py:7) are not modelled. Every caller passes both: `Update` and `ShopItem` take them explicitly.
- PetProperties.UpdateLowersHunger: requires that the tick causes no passive level-up, because a level-up's +20 bonus can outweigh the decay.
- PetProperties.PerformedDeltas: stated for successful actions that cause no level-up. With a level-up the deltas combine with the level-up bonuses, whose effect `DrainedBonuses` and `ExpAddedKeepsRange` give.
- The clock: `time.time()` becomes the `now` parameter. `load_game` reads the clock twice (lines 64-65) and `update` reads it once more inside `save_game`. The model uses one `now` per call.
- The save manager: `services/save_manager.py` (JSON file I/O in the home directory) is not part of this model. `SaveGame` returns the record it would write, and `LoadGame` takes the record it would return (`None` when there is none). The constructor's `save_manager` argument is therefore dropped.
- Not part of this model:
  - the 3D viewport (`engine3d/viewport.py`);
  - the Qt window, panels and timer loop (`app/`, `ui/`, `main.py`);
  - the settings store (`services/settings_manager.py`);
  - the analytics log (`logic/analytic.py`).

  All of these are presentation or file I/O, outside the simulation.
