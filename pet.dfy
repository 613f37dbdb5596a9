/** The tiger pet of logic/tiger_pet.py: its vitals, its progression and its
    derived emotional state.

    The pure parts of the source (the state cascade, the health test, the
    state descriptions, the save record) are functions. Every operation that
    the source performs by reassigning fields has a specification function on
    a `Pet` value here and a method of class `TigerPet` below that performs
    it step by step and is proved to agree with that function. Stats, rates
    and experience are exact reals. */
module PetLogic {
  import opened Wrappers

  /** PetState: the emotional states the cascade can produce. */
  datatype PetState = Happy | Neutral | Hungry | Tired | Dirty | Sad

  /** The four vital stats, which the shop names by attribute. */
  datatype Vital = Hunger | Energy | Mood | Cleanliness

  /** A snapshot of every field of a pet. `coins` has no counterpart in the
      source's TigerPet; the shop is its only reader and writer. */
  datatype Pet = Pet(
    hunger: real,
    energy: real,
    mood: real,
    cleanliness: real,
    level: int,
    exp: real,
    expToNextLevel: real,
    state: PetState,
    age: real,
    hungerDecayRate: real,
    energyDecayRate: real,
    moodDecayRate: real,
    cleanlinessDecayRate: real,
    coins: int)

  const MaxStat: real := 100.0
  const FirstThreshold: real := 100.0
  const DefaultHungerDecayRate: real := 0.15
  const DefaultEnergyDecayRate: real := 0.1
  const DefaultMoodDecayRate: real := 0.08
  const DefaultCleanlinessDecayRate: real := 0.05
  /** Every vital regains this much on a level-up. */
  const LevelUpBonus: real := 20.0
  /** Every decay rate is multiplied by this on a level-up. */
  const DecayReduction: real := 0.98

  function Min(a: real, b: real): real { if a <= b then a else b }
  function Max(a: real, b: real): real { if a >= b then a else b }

  /** The pet that `TigerPet()` creates. */
  function Fresh(): Pet
  {
    Pet(MaxStat, MaxStat, MaxStat, MaxStat, 1, 0.0, FirstThreshold, Happy, 0.0,
        DefaultHungerDecayRate, DefaultEnergyDecayRate, DefaultMoodDecayRate,
        DefaultCleanlinessDecayRate, 0)
  }

  /** Vitals in [0, 100] and decay rates that never raise a vital. */
  predicate InRange(p: Pet)
  {
    0.0 <= p.hunger <= MaxStat && 0.0 <= p.energy <= MaxStat &&
    0.0 <= p.mood <= MaxStat && 0.0 <= p.cleanliness <= MaxStat &&
    p.hungerDecayRate >= 0.0 && p.energyDecayRate >= 0.0 &&
    p.moodDecayRate >= 0.0 && p.cleanlinessDecayRate >= 0.0
  }

  // ---------------------------------------------------------------------------
  // Derived state

  /** `_update_state`: a first-match cascade over the four vitals. Each
      postcondition gives the exact condition under which one state is
      chosen, so together they form the cascade's decision table. */
  function Classify(hunger: real, energy: real, mood: real, cleanliness: real): (s: PetState)
    ensures s == Hungry <==> hunger < 20.0
    ensures s == Tired <==> hunger >= 20.0 && energy < 20.0
    ensures s == Dirty <==> hunger >= 20.0 && energy >= 20.0 && cleanliness < 20.0
    ensures s == Sad <==> hunger >= 20.0 && energy >= 20.0 && cleanliness >= 20.0 && mood < 30.0
    ensures s == Happy <==> cleanliness >= 20.0 && mood > 70.0 && hunger > 50.0 && energy > 50.0
    ensures s == Neutral <==>
      hunger >= 20.0 && energy >= 20.0 && cleanliness >= 20.0 && mood >= 30.0 &&
      !(mood > 70.0 && hunger > 50.0 && energy > 50.0)
  {
    if hunger < 20.0 then Hungry
    else if energy < 20.0 then Tired
    else if cleanliness < 20.0 then Dirty
    else if mood < 30.0 then Sad
    else if mood > 70.0 && hunger > 50.0 && energy > 50.0 then Happy
    else Neutral
  }

  /** `_is_healthy`: the condition for passive experience. A healthy pet
      shows no pressing need: it is classified Happy or Neutral. */
  predicate Healthy(hunger: real, energy: real, mood: real, cleanliness: real)
    ensures Healthy(hunger, energy, mood, cleanliness) ==>
      Classify(hunger, energy, mood, cleanliness) in {Happy, Neutral}
  {
    hunger > 40.0 && energy > 40.0 && mood > 40.0 && cleanliness > 30.0
  }

  /** `get_state_description`. Every state has its own text, so the
      source's "Unknown state" fallback is never returned. */
  function StateDescription(s: PetState): (d: string)
    ensures d != "Unknown state"
  {
    match s
    case Happy => "Your tiger is very happy! \U{1F60A}"
    case Neutral => "Your tiger is doing okay."
    case Hungry => "Your tiger is hungry! \U{1F356}"
    case Tired => "Your tiger needs rest! \U{1F634}"
    case Dirty => "Your tiger needs a bath! \U{1F6C1}"
    case Sad => "Your tiger is sad... \U{1F622}"
  }

  // ---------------------------------------------------------------------------
  // Progression: add_exp and level_up

  /** base ** k for a natural exponent. */
  function Power(base: real, k: nat): (r: real)
    ensures base >= 1.0 ==> r >= 1.0
    ensures 0.0 <= base <= 1.0 ==> 0.0 <= r <= 1.0
  {
    if k == 0 then 1.0
    else
      var r := Power(base, k - 1);
      assert 0.0 <= base <= 1.0 ==> base * r <= r by {
        if 0.0 <= base <= 1.0 { assert (1.0 - base) * r >= 0.0; }
      }
      base * r
  }

  /** Python's `1.2 ** k` for any integer k, exactly: a negative exponent is
      a power of 5/6. */
  function Growth(k: int): (r: real)
    ensures k >= 0 ==> r >= 1.0
    ensures r >= 0.0
  {
    if k >= 0 then Power(1.2, k) else Power(5.0 / 6.0, -k)
  }

  /** The experience needed to leave `level`: floor(100 * 1.2 ** (level - 1)). */
  function Threshold(level: int): (t: int)
    ensures t >= 0
    ensures level >= 1 ==> t >= 100
  {
    (100.0 * Growth(level - 1)).Floor
  }

  /** `level_up`: spend the threshold, advance a level, recompute the
      threshold from the new level, restore every vital by 20 (at most to
      100) and shrink every decay rate by 2%. */
  function LeveledUp(p: Pet): Pet
  {
    var level := p.level + 1;
    p.(exp := p.exp - p.expToNextLevel,
       level := level,
       expToNextLevel := Threshold(level) as real,
       hunger := Min(MaxStat, p.hunger + LevelUpBonus),
       energy := Min(MaxStat, p.energy + LevelUpBonus),
       mood := Min(MaxStat, p.mood + LevelUpBonus),
       cleanliness := Min(MaxStat, p.cleanliness + LevelUpBonus),
       hungerDecayRate := p.hungerDecayRate * DecayReduction,
       energyDecayRate := p.energyDecayRate * DecayReduction,
       moodDecayRate := p.moodDecayRate * DecayReduction,
       cleanlinessDecayRate := p.cleanlinessDecayRate * DecayReduction)
  }

  /** How far a (loaded) level lies below 1. */
  function LevelDebt(level: int): nat
  {
    if level < 1 then 1 - level else 0
  }

  /** Bounds the level-ups left once the threshold is at least 100. */
  function ExpMeasure(p: Pet): nat
  {
    if p.exp < p.expToNextLevel then 0
    else 1 + ((p.exp - p.expToNextLevel) / 100.0).Floor
  }

  /** One level-up decreases the pair (LevelDebt, ExpMeasure): below level 1
      the level climbs; from level 1 on every threshold is at least 100. */
  lemma LevelUpDecreasesMeasure(p: Pet)
    requires p.exp >= p.expToNextLevel
    ensures var q := LeveledUp(p);
      LevelDebt(q.level) < LevelDebt(p.level) ||
      (LevelDebt(q.level) == LevelDebt(p.level) && ExpMeasure(q) < ExpMeasure(p))
  {
    var q := LeveledUp(p);
    if p.level >= 1 {
      assert q.expToNextLevel >= 100.0;
      if q.exp >= q.expToNextLevel {
        var x := (q.exp - q.expToNextLevel) / 100.0;
        var y := (p.exp - p.expToNextLevel) / 100.0;
        assert x <= y - 1.0;
        assert x.Floor <= (y - 1.0).Floor;
        assert (y - 1.0).Floor == y.Floor - 1;
      }
    }
  }

  /** The `while exp >= exp_to_next_level` loop of `add_exp`: level up until
      the experience lies below the threshold. It always ends, whatever
      threshold was loaded. */
  function Drained(p: Pet): (r: Pet)
    decreases LevelDebt(p.level), ExpMeasure(p)
    ensures r.exp < r.expToNextLevel
    ensures r.level >= p.level
    ensures r.level == p.level <==> p.exp < p.expToNextLevel
    ensures p.exp >= 0.0 ==> r.exp >= 0.0
    ensures r.state == p.state && r.age == p.age && r.coins == p.coins
  {
    if p.exp >= p.expToNextLevel then
      LevelUpDecreasesMeasure(p);
      Drained(LeveledUp(p))
    else
      p
  }

  /** `add_exp(amount)`. */
  function ExpAdded(p: Pet, amount: real): Pet
  {
    Drained(p.(exp := p.exp + amount))
  }

  // ---------------------------------------------------------------------------
  // Ticks: update(dt)

  /** Steps 1-2 of `update`: age and linear decay floored at 0. */
  function Decayed(p: Pet, dt: real): Pet
  {
    p.(age := p.age + dt,
       hunger := Max(0.0, p.hunger - p.hungerDecayRate * dt),
       energy := Max(0.0, p.energy - p.energyDecayRate * dt),
       mood := Max(0.0, p.mood - p.moodDecayRate * dt),
       cleanliness := Max(0.0, p.cleanliness - p.cleanlinessDecayRate * dt))
  }

  /** The per-second mood modifier: each need below 30 adds its own penalty. */
  function MoodPenalty(hunger: real, energy: real, cleanliness: real): (m: real)
    ensures -0.45 <= m <= 0.0
    ensures m == 0.0 <==> hunger >= 30.0 && energy >= 30.0 && cleanliness >= 30.0
  {
    (if hunger < 30.0 then -0.2 else 0.0) +
    (if energy < 30.0 then -0.15 else 0.0) +
    (if cleanliness < 30.0 then -0.1 else 0.0)
  }

  /** Step 3 of `update`, on the decayed stats. */
  function Penalized(p: Pet, dt: real): Pet
  {
    p.(mood := Max(0.0, p.mood + MoodPenalty(p.hunger, p.energy, p.cleanliness) * dt))
  }

  /** The stats `update` classifies: decayed, then mood-penalised. */
  function Tended(p: Pet, dt: real): Pet
  {
    Penalized(Decayed(p, dt), dt)
  }

  /** The state field recomputed from the vitals. */
  function Classified(p: Pet): Pet
  {
    p.(state := Classify(p.hunger, p.energy, p.mood, p.cleanliness))
  }

  /** The passive experience a tick of `dt` seconds grants to `p`. */
  function PassiveExp(p: Pet, dt: real): real
  {
    if Healthy(p.hunger, p.energy, p.mood, p.cleanliness) then 0.1 * dt else 0.0
  }

  /** `update(dt)`: decay, mood penalty, classification, then passive
      experience for a healthy pet (which may level it up after the state
      has been computed). */
  function Updated(p: Pet, dt: real): Pet
  {
    var s := Classified(Tended(p, dt));
    if Healthy(s.hunger, s.energy, s.mood, s.cleanliness) then ExpAdded(s, 0.1 * dt) else s
  }

  // ---------------------------------------------------------------------------
  // Player actions: feed, clean, sleep, play

  datatype Action = Feed | Clean | Sleep | Play

  /** What an action call returns, with the pet it leaves behind. */
  datatype ActionResult = ActionResult(pet: Pet, success: bool, message: string)

  /** The guard that makes an action fail. */
  predicate Refuses(p: Pet, a: Action)
  {
    match a
    case Feed => p.hunger >= 90.0
    case Clean => p.cleanliness >= 90.0
    case Sleep => p.energy >= 90.0
    case Play => p.energy < 20.0
  }

  function RefusalMessage(a: Action): string
  {
    match a
    case Feed => "Tiger is not hungry!"
    case Clean => "Tiger is already clean!"
    case Sleep => "Tiger is not tired!"
    case Play => "Tiger is too tired to play!"
  }

  function SuccessMessage(a: Action): string
  {
    match a
    case Feed => "Yum! Tiger enjoyed the meal! \U{1F356}"
    case Clean => "Sparkly clean! Tiger feels fresh! \U{2728}"
    case Sleep => "Zzz... Tiger had a good nap! \U{1F634}"
    case Play => "So much fun! Tiger is happy! \U{1F3BE}"
  }

  /** The experience a successful action grants. */
  function Reward(a: Action): real
  {
    match a
    case Feed => 5.0
    case Clean => 3.0
    case Sleep => 4.0
    case Play => 8.0
  }

  /** The clamped stat changes of a successful action. */
  function Cared(p: Pet, a: Action): Pet
  {
    match a
    case Feed => p.(hunger := Min(MaxStat, p.hunger + 40.0))
    case Clean => p.(cleanliness := Min(MaxStat, p.cleanliness + 50.0), mood := Min(MaxStat, p.mood + 10.0))
    case Sleep => p.(energy := Min(MaxStat, p.energy + 60.0), mood := Min(MaxStat, p.mood + 15.0))
    case Play => p.(mood := Min(MaxStat, p.mood + 30.0), energy := Max(0.0, p.energy - 15.0),
                    hunger := Max(0.0, p.hunger - 10.0))
  }

  /** `feed`, `clean`, `sleep`, `play`. */
  function Performed(p: Pet, a: Action): ActionResult
  {
    if Refuses(p, a) then ActionResult(p, false, RefusalMessage(a))
    else ActionResult(ExpAdded(Cared(p, a), Reward(a)), true, SuccessMessage(a))
  }

  // ---------------------------------------------------------------------------
  // Vitals by name (the shop's getattr/setattr)

  /** The attribute name of a vital. */
  function VitalName(v: Vital): string
  {
    match v
    case Hunger => "hunger"
    case Energy => "energy"
    case Mood => "mood"
    case Cleanliness => "cleanliness"
  }

  /** The vital an attribute name denotes, if any. */
  function VitalNamed(name: string): (v: Option<Vital>)
    ensures v.Some? ==> VitalName(v.value) == name
    ensures forall w: Vital :: name == VitalName(w) ==> v == Some(w)
  {
    if name == "hunger" then Some(Hunger)
    else if name == "energy" then Some(Energy)
    else if name == "mood" then Some(Mood)
    else if name == "cleanliness" then Some(Cleanliness)
    else None
  }

  function VitalOf(p: Pet, v: Vital): real
  {
    match v
    case Hunger => p.hunger
    case Energy => p.energy
    case Mood => p.mood
    case Cleanliness => p.cleanliness
  }

  function WithVital(p: Pet, v: Vital, x: real): Pet
  {
    match v
    case Hunger => p.(hunger := x)
    case Energy => p.(energy := x)
    case Mood => p.(mood := x)
    case Cleanliness => p.(cleanliness := x)
  }

  // ---------------------------------------------------------------------------
  // The save record: to_dict and from_dict

  /** The dictionary `to_dict` writes; on load each key may be absent. */
  datatype PetRecord = PetRecord(
    hunger: Option<real>,
    energy: Option<real>,
    mood: Option<real>,
    cleanliness: Option<real>,
    level: Option<int>,
    exp: Option<real>,
    expToNextLevel: Option<real>,
    age: Option<real>,
    hungerDecayRate: Option<real>,
    energyDecayRate: Option<real>,
    moodDecayRate: Option<real>,
    cleanlinessDecayRate: Option<real>)

  /** `to_dict`: the twelve saved fields. The state and the coins are not saved. */
  function ToRecord(p: Pet): (r: PetRecord)
    ensures forall q: Pet :: Restored(q, r) == p.(state := q.state, coins := q.coins)
  {
    PetRecord(Some(p.hunger), Some(p.energy), Some(p.mood), Some(p.cleanliness),
              Some(p.level), Some(p.exp), Some(p.expToNextLevel), Some(p.age),
              Some(p.hungerDecayRate), Some(p.energyDecayRate),
              Some(p.moodDecayRate), Some(p.cleanlinessDecayRate))
  }

  /** The fields of `p` overwritten from the record, each absent key
      giving its default. */
  function Restored(p: Pet, r: PetRecord): Pet
  {
    p.(hunger := r.hunger.GetOr(MaxStat),
       energy := r.energy.GetOr(MaxStat),
       mood := r.mood.GetOr(MaxStat),
       cleanliness := r.cleanliness.GetOr(MaxStat),
       level := r.level.GetOr(1),
       exp := r.exp.GetOr(0.0),
       expToNextLevel := r.expToNextLevel.GetOr(FirstThreshold),
       age := r.age.GetOr(0.0),
       hungerDecayRate := r.hungerDecayRate.GetOr(DefaultHungerDecayRate),
       energyDecayRate := r.energyDecayRate.GetOr(DefaultEnergyDecayRate),
       moodDecayRate := r.moodDecayRate.GetOr(DefaultMoodDecayRate),
       cleanlinessDecayRate := r.cleanlinessDecayRate.GetOr(DefaultCleanlinessDecayRate))
  }

  /** `from_dict` applied to pet `p`: the saved fields restored, the coins
      kept, then the state recomputed. */
  function Loaded(p: Pet, r: PetRecord): Pet
  {
    Classified(Restored(p, r))
  }

  // ---------------------------------------------------------------------------
  // The mutable pet

  /** TigerPet: one mutable record whose methods reassign its fields. */
  class TigerPet {
    var hunger: real
    var energy: real
    var mood: real
    var cleanliness: real
    var level: int
    var exp: real
    var expToNextLevel: real
    var state: PetState
    var age: real
    var hungerDecayRate: real
    var energyDecayRate: real
    var moodDecayRate: real
    var cleanlinessDecayRate: real
    var coins: int

    /** The current value of every field. */
    function Snapshot(): Pet
      reads this
    {
      Pet(hunger, energy, mood, cleanliness, level, exp, expToNextLevel, state, age,
          hungerDecayRate, energyDecayRate, moodDecayRate, cleanlinessDecayRate, coins)
    }

    constructor ()
      ensures Snapshot() == Fresh()
    {
      hunger := 100.0;
      energy := 100.0;
      mood := 100.0;
      cleanliness := 100.0;
      level := 1;
      exp := 0.0;
      expToNextLevel := 100.0;
      state := Happy;
      age := 0.0;
      hungerDecayRate := 0.15;
      energyDecayRate := 0.1;
      moodDecayRate := 0.08;
      cleanlinessDecayRate := 0.05;
      coins := 0;
    }

    /** `update(delta_time)`. */
    method Update(dt: real)
      modifies this
      ensures Snapshot() == Updated(old(Snapshot()), dt)
    {
      Decay(dt);
      PenalizeMood(dt);
      UpdateState();
      if Healthy(hunger, energy, mood, cleanliness) {
        AddExp(0.1 * dt);
      }
    }

    /** The mood lines of `update`: each need below 30 lowers the mood further. */
    method PenalizeMood(dt: real)
      modifies this`mood
      ensures Snapshot() == Penalized(old(Snapshot()), dt)
    {
      var moodModifier := 0.0;
      if hunger < 30.0 {
        moodModifier := moodModifier - 0.2;
      }
      if energy < 30.0 {
        moodModifier := moodModifier - 0.15;
      }
      if cleanliness < 30.0 {
        moodModifier := moodModifier - 0.1;
      }
      assert moodModifier == MoodPenalty(hunger, energy, cleanliness);
      mood := Max(0.0, mood + moodModifier * dt);
    }

    /** The first lines of `update`: age, and each vital's linear decay. */
    method Decay(dt: real)
      modifies this
      ensures Snapshot() == Decayed(old(Snapshot()), dt)
    {
      age := age + dt;
      hunger := Max(0.0, hunger - hungerDecayRate * dt);
      energy := Max(0.0, energy - energyDecayRate * dt);
      mood := Max(0.0, mood - moodDecayRate * dt);
      cleanliness := Max(0.0, cleanliness - cleanlinessDecayRate * dt);
    }

    /** `_update_state`. */
    method UpdateState()
      modifies this`state
      ensures Snapshot() == Classified(old(Snapshot()))
    {
      if hunger < 20.0 {
        state := Hungry;
      } else if energy < 20.0 {
        state := Tired;
      } else if cleanliness < 20.0 {
        state := Dirty;
      } else if mood < 30.0 {
        state := Sad;
      } else if mood > 70.0 && hunger > 50.0 && energy > 50.0 {
        state := Happy;
      } else {
        state := Neutral;
      }
    }

    /** `feed`. */
    method Feed() returns (success: bool, message: string)
      modifies this
      ensures ActionResult(Snapshot(), success, message) == Performed(old(Snapshot()), Action.Feed)
    {
      if hunger >= 90.0 {
        return false, "Tiger is not hungry!";
      }
      hunger := Min(100.0, hunger + 40.0);
      AddExp(5.0);
      return true, "Yum! Tiger enjoyed the meal! \U{1F356}";
    }

    /** `clean`. */
    method Clean() returns (success: bool, message: string)
      modifies this
      ensures ActionResult(Snapshot(), success, message) == Performed(old(Snapshot()), Action.Clean)
    {
      if cleanliness >= 90.0 {
        return false, "Tiger is already clean!";
      }
      cleanliness := Min(100.0, cleanliness + 50.0);
      mood := Min(100.0, mood + 10.0);
      AddExp(3.0);
      return true, "Sparkly clean! Tiger feels fresh! \U{2728}";
    }

    /** `sleep`. */
    method Sleep() returns (success: bool, message: string)
      modifies this
      ensures ActionResult(Snapshot(), success, message) == Performed(old(Snapshot()), Action.Sleep)
    {
      if energy >= 90.0 {
        return false, "Tiger is not tired!";
      }
      energy := Min(100.0, energy + 60.0);
      mood := Min(100.0, mood + 15.0);
      AddExp(4.0);
      return true, "Zzz... Tiger had a good nap! \U{1F634}";
    }

    /** `play`. */
    method Play() returns (success: bool, message: string)
      modifies this
      ensures ActionResult(Snapshot(), success, message) == Performed(old(Snapshot()), Action.Play)
    {
      if energy < 20.0 {
        return false, "Tiger is too tired to play!";
      }
      mood := Min(100.0, mood + 30.0);
      energy := Max(0.0, energy - 15.0);
      hunger := Max(0.0, hunger - 10.0);
      AddExp(8.0);
      return true, "So much fun! Tiger is happy! \U{1F3BE}";
    }

    /** `add_exp(amount)`: add, then level up while the threshold is reached. */
    method AddExp(amount: real)
      modifies this
      ensures Snapshot() == ExpAdded(old(Snapshot()), amount)
    {
      exp := exp + amount;
      while exp >= expToNextLevel
        invariant Drained(Snapshot()) == ExpAdded(old(Snapshot()), amount)
        decreases LevelDebt(level), ExpMeasure(Snapshot())
      {
        LevelUpDecreasesMeasure(Snapshot());
        LevelUp();
      }
    }

    /** `level_up`. */
    method LevelUp()
      modifies this
      ensures Snapshot() == LeveledUp(old(Snapshot()))
    {
      exp := exp - expToNextLevel;
      level := level + 1;
      expToNextLevel := Threshold(level) as real;
      RestoreVitals();
      ReduceDecayRates();
    }

    /** The level-up bonus: every vital +20, capped at 100. */
    method RestoreVitals()
      modifies this
      ensures Snapshot() == old(Snapshot()).(
        hunger := Min(MaxStat, old(hunger) + LevelUpBonus),
        energy := Min(MaxStat, old(energy) + LevelUpBonus),
        mood := Min(MaxStat, old(mood) + LevelUpBonus),
        cleanliness := Min(MaxStat, old(cleanliness) + LevelUpBonus))
    {
      hunger := Min(100.0, hunger + 20.0);
      energy := Min(100.0, energy + 20.0);
      mood := Min(100.0, mood + 20.0);
      cleanliness := Min(100.0, cleanliness + 20.0);
    }

    /** The level-up hardening: every decay rate times 0.98. */
    method ReduceDecayRates()
      modifies this
      ensures Snapshot() == old(Snapshot()).(
        hungerDecayRate := old(hungerDecayRate) * DecayReduction,
        energyDecayRate := old(energyDecayRate) * DecayReduction,
        moodDecayRate := old(moodDecayRate) * DecayReduction,
        cleanlinessDecayRate := old(cleanlinessDecayRate) * DecayReduction)
    {
      var decayReduction := 0.98;
      hungerDecayRate := hungerDecayRate * decayReduction;
      energyDecayRate := energyDecayRate * decayReduction;
      moodDecayRate := moodDecayRate * decayReduction;
      cleanlinessDecayRate := cleanlinessDecayRate * decayReduction;
    }

    /** `from_dict(data)`. */
    method FromDict(data: PetRecord)
      modifies this
      ensures Snapshot() == Loaded(old(Snapshot()), data)
    {
      LoadVitals(data);
      LoadProgression(data);
      LoadDecayRates(data);
      UpdateState();
    }

    /** The first four lines of `from_dict`. */
    method LoadVitals(data: PetRecord)
      modifies this
      ensures Snapshot() == old(Snapshot()).(
        hunger := data.hunger.GetOr(MaxStat),
        energy := data.energy.GetOr(MaxStat),
        mood := data.mood.GetOr(MaxStat),
        cleanliness := data.cleanliness.GetOr(MaxStat))
    {
      hunger := data.hunger.GetOr(100.0);
      energy := data.energy.GetOr(100.0);
      mood := data.mood.GetOr(100.0);
      cleanliness := data.cleanliness.GetOr(100.0);
    }

    /** The level, experience, threshold and age lines of `from_dict`. */
    method LoadProgression(data: PetRecord)
      modifies this
      ensures Snapshot() == old(Snapshot()).(
        level := data.level.GetOr(1),
        exp := data.exp.GetOr(0.0),
        expToNextLevel := data.expToNextLevel.GetOr(FirstThreshold),
        age := data.age.GetOr(0.0))
    {
      level := data.level.GetOr(1);
      exp := data.exp.GetOr(0.0);
      expToNextLevel := data.expToNextLevel.GetOr(100.0);
      age := data.age.GetOr(0.0);
    }

    /** The decay-rate lines of `from_dict`. */
    method LoadDecayRates(data: PetRecord)
      modifies this
      ensures Snapshot() == old(Snapshot()).(
        hungerDecayRate := data.hungerDecayRate.GetOr(DefaultHungerDecayRate),
        energyDecayRate := data.energyDecayRate.GetOr(DefaultEnergyDecayRate),
        moodDecayRate := data.moodDecayRate.GetOr(DefaultMoodDecayRate),
        cleanlinessDecayRate := data.cleanlinessDecayRate.GetOr(DefaultCleanlinessDecayRate))
    {
      hungerDecayRate := data.hungerDecayRate.GetOr(0.15);
      energyDecayRate := data.energyDecayRate.GetOr(0.1);
      moodDecayRate := data.moodDecayRate.GetOr(0.08);
      cleanlinessDecayRate := data.cleanlinessDecayRate.GetOr(0.05);
    }
  }
}
