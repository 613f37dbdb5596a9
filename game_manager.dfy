/** The game manager of logic/game_manager.py: a clock-driven driver that
    ticks the pet, delegates the player's actions, builds the save record
    and applies the offline catch-up on load. The clock is an explicit
    `now` parameter (seconds since the epoch); the save manager's file I/O
    is outside the model, so saving returns the record it would be handed
    and loading takes the record it returned. */
module GameLogic {
  import opened Wrappers
  import opened PetLogic
  import PetProperties

  /** The root of the save file: the pet's record and the save time. */
  datatype GameRecord = GameRecord(pet: Option<PetRecord>, lastSaveTime: Option<real>)

  /** The longest absence the catch-up simulates. */
  const MaxOfflineSeconds: real := 3600.0
  /** Absences up to this long are not simulated at all. */
  const MinOfflineSeconds: real := 60.0
  /** The auto-save cadence. */
  const AutoSavePeriod: int := 30

  /** Python's `int(x)`: truncation toward zero. */
  function TruncateToInt(x: real): (n: int)
    ensures x >= 0.0 ==> 0.0 <= x - n as real < 1.0
    ensures x < 0.0 ==> -1.0 < x - n as real <= 0.0
  {
    if x >= 0.0 then x.Floor else -((-x).Floor)
  }

  /** The auto-save test of `update`: `int(now) % 30 == 0`. From the epoch
      on, truncation is the floor, so a save is due exactly when the floor
      of the time is a multiple of 30. */
  function AutoSaveDue(now: real): (due: bool)
    ensures now >= 0.0 ==> (due <==> now.Floor % AutoSavePeriod == 0)
  {
    TruncateToInt(now) % AutoSavePeriod == 0
  }

  /** `save_game`'s record. */
  function SaveRecord(p: Pet, now: real): GameRecord
  {
    GameRecord(Some(ToRecord(p)), Some(now))
  }

  /** The absence the catch-up simulates: at most an hour. */
  function OfflineTime(elapsed: real): (t: real)
    ensures t <= MaxOfflineSeconds
    ensures t == elapsed || (elapsed > MaxOfflineSeconds && t == MaxOfflineSeconds)
  {
    Min(elapsed, MaxOfflineSeconds)
  }

  /** The offline catch-up: one `update` of the clamped absence when it is
      longer than a minute, nothing otherwise. */
  function CaughtUp(p: Pet, elapsed: real): Pet
  {
    var offline := OfflineTime(elapsed);
    if offline > MinOfflineSeconds then Updated(p, offline) else p
  }

  /** `load_game` given what the save manager returned: with a pet record,
      load it and catch up on the time since the save (none when the save
      time is missing); otherwise leave the pet as it was. */
  function Resumed(p: Pet, data: Option<GameRecord>, now: real): Pet
  {
    match data
    case None => p
    case Some(game) =>
      match game.pet
      case None => p
      case Some(record) =>
        var lastSave := game.lastSaveTime.GetOr(now);
        CaughtUp(Loaded(p, record), now - lastSave)
  }

  /** GameManager: owns the pet and the tick clock. */
  class GameManager {
    var pet: TigerPet
    var lastUpdateTime: real
    var isPaused: bool

    constructor (now: real)
      ensures fresh(pet) && pet.Snapshot() == Fresh()
      ensures lastUpdateTime == now && !isPaused
    {
      pet := new TigerPet();
      lastUpdateTime := now;
      isPaused := false;
    }

    /** `update`: while paused nothing happens; otherwise tick the pet by
        the time since the last tick, and hand over a save record when
        the whole second is a multiple of 30. */
    method Update(now: real) returns (saved: Option<GameRecord>)
      modifies this, pet
      ensures pet == old(pet) && isPaused == old(isPaused)
      ensures old(isPaused) ==>
        saved == None && lastUpdateTime == old(lastUpdateTime) && unchanged(pet)
      ensures !old(isPaused) ==>
        lastUpdateTime == now &&
        pet.Snapshot() == Updated(old(pet.Snapshot()), now - old(lastUpdateTime)) &&
        saved == (if AutoSaveDue(now) then Some(SaveRecord(pet.Snapshot(), now)) else None)
    {
      if isPaused {
        return None;
      }
      var currentTime := now;
      var deltaTime := currentTime - lastUpdateTime;
      lastUpdateTime := currentTime;
      pet.Update(deltaTime);
      if TruncateToInt(currentTime) % 30 == 0 {
        var data := SaveGame(currentTime);
        return Some(data);
      }
      return None;
    }

    /** `feed_pet`. */
    method FeedPet() returns (success: bool, message: string)
      modifies pet
      ensures ActionResult(pet.Snapshot(), success, message) == Performed(old(pet.Snapshot()), Action.Feed)
    {
      success, message := pet.Feed();
    }

    /** `clean_pet`. */
    method CleanPet() returns (success: bool, message: string)
      modifies pet
      ensures ActionResult(pet.Snapshot(), success, message) == Performed(old(pet.Snapshot()), Action.Clean)
    {
      success, message := pet.Clean();
    }

    /** `sleep_pet`. */
    method SleepPet() returns (success: bool, message: string)
      modifies pet
      ensures ActionResult(pet.Snapshot(), success, message) == Performed(old(pet.Snapshot()), Action.Sleep)
    {
      success, message := pet.Sleep();
    }

    /** `play_with_pet`. */
    method PlayWithPet() returns (success: bool, message: string)
      modifies pet
      ensures ActionResult(pet.Snapshot(), success, message) == Performed(old(pet.Snapshot()), Action.Play)
    {
      success, message := pet.Play();
    }

    /** `save_game`: the record handed to the save manager. */
    method SaveGame(now: real) returns (data: GameRecord)
      ensures data.pet.Some? && data.pet.value == ToRecord(pet.Snapshot())
      ensures data.lastSaveTime == Some(now)
    {
      var record := PetRecord(Some(pet.hunger), Some(pet.energy), Some(pet.mood), Some(pet.cleanliness),
                              Some(pet.level), Some(pet.exp), Some(pet.expToNextLevel), Some(pet.age),
                              Some(pet.hungerDecayRate), Some(pet.energyDecayRate),
                              Some(pet.moodDecayRate), Some(pet.cleanlinessDecayRate));
      data := GameRecord(Some(record), Some(now));
    }

    /** `load_game`, given what the save manager's `load_game` returned. */
    method LoadGame(data: Option<GameRecord>, now: real)
      modifies pet
      ensures pet.Snapshot() == Resumed(old(pet.Snapshot()), data, now)
    {
      if data.Some? && data.value.pet.Some? {
        pet.FromDict(data.value.pet.value);
        var lastSave := data.value.lastSaveTime.GetOr(now);
        var offlineTime := now - lastSave;
        offlineTime := Min(offlineTime, 3600.0);
        if offlineTime > 60.0 {
          pet.Update(offlineTime);
        }
      }
    }

    /** `pause`. */
    method Pause()
      modifies this`isPaused
      ensures isPaused
    {
      isPaused := true;
    }

    /** `resume`: the next tick counts from `now`, not from the pause. */
    method Resume(now: real)
      modifies this`isPaused, this`lastUpdateTime
      ensures !isPaused && lastUpdateTime == now
    {
      isPaused := false;
      lastUpdateTime := now;
    }

    /** `reset_game`: a fresh pet, saved at once. */
    method ResetGame(now: real) returns (saved: GameRecord)
      modifies this`pet
      ensures fresh(pet) && pet.Snapshot() == Fresh()
      ensures saved == SaveRecord(Fresh(), now)
    {
      pet := new TigerPet();
      saved := SaveGame(now);
    }
  }

  // ---------------------------------------------------------------------------
  // Properties of the driver

  /** Auto-save recurs every 30 seconds: a time is due exactly when the
      time 30 seconds later is. */
  lemma AutoSavePeriodic(now: real)
    requires now >= 0.0
    ensures AutoSaveDue(now) <==> AutoSaveDue(now + 30.0)
  {
    assert (now + 30.0).Floor == now.Floor + 30;
  }

  /** A save is due during the whole first second of each half-minute, and
      at no other time. */
  lemma AutoSaveWindow(k: nat, fraction: real)
    requires 0.0 <= fraction < 30.0
    ensures AutoSaveDue(30.0 * k as real + fraction) <==> fraction < 1.0
  {
    var t := 30.0 * k as real + fraction;
    var n := fraction.Floor;
    assert 0 <= n < 30;
    assert t.Floor == 30 * k + n;
    assert TruncateToInt(t) % 30 == n by {
      assert (30 * k + n) % 30 == n;
    }
    assert n == 0 <==> fraction < 1.0;
  }

  /** The catch-up never simulates more than an hour and never a gap of a
      minute or less. */
  lemma CatchUpBounds(p: Pet, elapsed: real)
    ensures var offline := OfflineTime(elapsed);
      (elapsed <= MinOfflineSeconds ==> CaughtUp(p, elapsed) == p) &&
      (MinOfflineSeconds < elapsed <= MaxOfflineSeconds ==> CaughtUp(p, elapsed) == Updated(p, elapsed)) &&
      (elapsed >= MaxOfflineSeconds ==> CaughtUp(p, elapsed) == Updated(p, MaxOfflineSeconds))
  {
  }

  /** The offline tests: an absence of 5000 s simulates exactly 3600 s; one
      of 30 s, or a negative one, simulates nothing. */
  lemma CatchUpExamples(p: Pet)
    ensures CaughtUp(p, 5000.0) == Updated(p, 3600.0)
    ensures CaughtUp(p, 30.0) == p
    ensures CaughtUp(p, -5.0) == p
  {
  }

  /** Without a record, or without a pet in it, loading changes nothing;
      without a save time there is no catch-up. */
  lemma LoadFallbacks(p: Pet, now: real, record: PetRecord, saveTime: Option<real>)
    ensures Resumed(p, None, now) == p
    ensures Resumed(p, Some(GameRecord(None, saveTime)), now) == p
    ensures Resumed(p, Some(GameRecord(Some(record), None)), now) == Loaded(p, record)
  {
  }

  /** Saving and loading again within a minute restores the twelve saved
      fields, recomputes the state and keeps the target's coins. */
  lemma SaveThenLoadRestores(p: Pet, target: Pet, saveTime: real, now: real)
    requires now - saveTime <= MinOfflineSeconds
    ensures Resumed(target, Some(SaveRecord(p, saveTime)), now) ==
      p.(state := Classify(p.hunger, p.energy, p.mood, p.cleanliness), coins := target.coins)
  {
    PetProperties.RecordRoundTrip(p, target);
  }

  /** Loading after a longer absence is the restored pet ticked by the
      clamped absence. */
  lemma SaveThenLoadCatchesUp(p: Pet, target: Pet, saveTime: real, now: real)
    requires now - saveTime > MinOfflineSeconds
    ensures Resumed(target, Some(SaveRecord(p, saveTime)), now) ==
      Updated(p.(state := Classify(p.hunger, p.energy, p.mood, p.cleanliness), coins := target.coins),
              OfflineTime(now - saveTime))
  {
    PetProperties.RecordRoundTrip(p, target);
  }

  /** A reset pet saved and loaded within a minute is a fresh pet again. */
  lemma ResetThenLoadIsFresh(target: Pet, saveTime: real, now: real)
    requires now - saveTime <= MinOfflineSeconds
    ensures Resumed(target, Some(SaveRecord(Fresh(), saveTime)), now) == Fresh().(coins := target.coins)
  {
    SaveThenLoadRestores(Fresh(), target, saveTime, now);
  }
}
