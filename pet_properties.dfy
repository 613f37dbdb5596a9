/** What logic/tiger_pet.py promises about its pet, proved of the
    specification functions that the methods of `TigerPet` are tied to. */
module PetProperties {
  import opened Wrappers
  import opened PetLogic

  // ---------------------------------------------------------------------------
  // Creation and classification

  /** A fresh pet: full vitals, level 1, no experience, threshold 100, the
      default decay rates, and the state its vitals classify as (HAPPY). */
  lemma FreshPet()
    ensures var p := Fresh();
      p.hunger == 100.0 && p.energy == 100.0 && p.mood == 100.0 && p.cleanliness == 100.0 &&
      p.level == 1 && p.exp == 0.0 && p.expToNextLevel == 100.0 && p.age == 0.0 &&
      p.hungerDecayRate == 0.15 && p.energyDecayRate == 0.1 &&
      p.moodDecayRate == 0.08 && p.cleanlinessDecayRate == 0.05 &&
      p.state == Happy && p.state == Classify(p.hunger, p.energy, p.mood, p.cleanliness) &&
      InRange(p)
  {
  }

  /** First match wins: a starving tiger is HUNGRY however high its mood. */
  lemma HungerTakesPrecedence(energy: real, cleanliness: real)
    ensures Classify(10.0, energy, 90.0, cleanliness) == Hungry
  {
  }

  /** The six descriptions are pairwise distinct. */
  lemma DescriptionsDistinct(s: PetState, t: PetState)
    ensures StateDescription(s) == StateDescription(t) <==> s == t
  {
  }

  // ---------------------------------------------------------------------------
  // The threshold curve

  lemma ThresholdValues()
    ensures Threshold(1) == 100 && Threshold(2) == 120 && Threshold(3) == 144
  {
    assert Growth(1) == 1.2 * Power(1.2, 0);
    assert Growth(2) == 1.2 * (1.2 * Power(1.2, 0));
  }

  /** From level 1 on each level needs at least 20 more experience than the last. */
  lemma ThresholdGrows(level: int)
    requires level >= 1
    ensures Threshold(level + 1) >= Threshold(level) + 20
  {
    var g := Power(1.2, level - 1);
    assert Growth(level) == 1.2 * g;
    assert 100.0 * (1.2 * g) == 100.0 * g + 20.0 * g;
    assert 20.0 * g >= 20.0;
  }

  // ---------------------------------------------------------------------------
  // level_up

  /** A level-up keeps vitals in range and never raises a decay rate. */
  lemma LevelUpKeepsRange(p: Pet)
    requires InRange(p)
    ensures var q := LeveledUp(p);
      InRange(q) &&
      q.hungerDecayRate <= p.hungerDecayRate && q.energyDecayRate <= p.energyDecayRate &&
      q.moodDecayRate <= p.moodDecayRate && q.cleanlinessDecayRate <= p.cleanlinessDecayRate
  {
  }

  /** From level 1 on, the recomputed threshold is at least 100. */
  lemma LevelUpThreshold(p: Pet)
    requires p.level >= 1
    ensures LeveledUp(p).expToNextLevel >= 100.0
  {
  }

  // ---------------------------------------------------------------------------
  // add_exp

  lemma NonNegativeProduct(a: real, b: real)
    requires a >= 0.0 && b >= 0.0
    ensures a * b >= 0.0
  {
  }

  /** The sum of the thresholds of levels `from` up to, not including, `to`. */
  function ThresholdSum(from: int, to: int): real
    decreases to - from
  {
    if from >= to then 0.0 else Threshold(from) as real + ThresholdSum(from + 1, to)
  }

  /** A vital after `k` level-up bonuses of 20, each capped at 100. */
  function Bonused(v: real, k: nat): real
  {
    if k == 0 then v else Min(MaxStat, v + LevelUpBonus * k as real)
  }

  /** Draining spends exactly the thresholds it passes: the pet's own
      threshold first, then that of every level it passes through. */
  lemma {:induction false} DrainedSpendsThresholds(p: Pet)
    decreases LevelDebt(p.level), ExpMeasure(p)
    ensures var r := Drained(p);
      (r.level == p.level ==> r == p) &&
      (r.level > p.level ==>
         r.exp == p.exp - p.expToNextLevel - ThresholdSum(p.level + 1, r.level) &&
         r.expToNextLevel == Threshold(r.level) as real)
  {
    if p.exp >= p.expToNextLevel {
      LevelUpDecreasesMeasure(p);
      DrainedSpendsThresholds(LeveledUp(p));
    }
  }

  /** Every level-up gives each vital its bonus of 20, capped at 100. */
  lemma {:induction false} DrainedBonuses(p: Pet)
    decreases LevelDebt(p.level), ExpMeasure(p)
    ensures var r := Drained(p); var k := r.level - p.level;
      k >= 0 &&
      r.hunger == Bonused(p.hunger, k) && r.energy == Bonused(p.energy, k) &&
      r.mood == Bonused(p.mood, k) && r.cleanliness == Bonused(p.cleanliness, k)
  {
    if p.exp >= p.expToNextLevel {
      var q := LeveledUp(p);
      LevelUpDecreasesMeasure(p);
      DrainedBonuses(q);
      var k := Drained(p).level - p.level;
      assert Bonused(q.hunger, k - 1) == Bonused(p.hunger, k);
      assert Bonused(q.energy, k - 1) == Bonused(p.energy, k);
      assert Bonused(q.mood, k - 1) == Bonused(p.mood, k);
      assert Bonused(q.cleanliness, k - 1) == Bonused(p.cleanliness, k);
    }
  }

  /** A decay rate after `k` level-ups: multiplied by 0.98 each time, so
      it never grows. */
  function Hardened(rate: real, k: nat): (r: real)
    decreases k
    ensures rate >= 0.0 ==> 0.0 <= r <= rate
  {
    if k == 0 then rate else Hardened(rate * DecayReduction, k - 1)
  }

  /** Every level-up multiplies each decay rate by 0.98. */
  lemma {:induction false} DrainedRates(p: Pet)
    decreases LevelDebt(p.level), ExpMeasure(p)
    ensures var r := Drained(p); var k := r.level - p.level;
      k >= 0 &&
      r.hungerDecayRate == Hardened(p.hungerDecayRate, k) &&
      r.energyDecayRate == Hardened(p.energyDecayRate, k) &&
      r.moodDecayRate == Hardened(p.moodDecayRate, k) &&
      r.cleanlinessDecayRate == Hardened(p.cleanlinessDecayRate, k)
  {
    if p.exp >= p.expToNextLevel {
      LevelUpDecreasesMeasure(p);
      DrainedRates(LeveledUp(p));
    }
  }

  /** add_exp settles: it returns with the experience below the threshold,
      not negative when the start was not, the level never lower, and the
      level unchanged exactly when the amount did not reach the threshold. */
  lemma ExpAddedSettles(p: Pet, amount: real)
    requires p.exp >= 0.0 && amount >= 0.0
    ensures var r := ExpAdded(p, amount);
      0.0 <= r.exp < r.expToNextLevel &&
      r.level >= p.level &&
      (r.level == p.level <==> p.exp + amount < p.expToNextLevel)
  {
  }

  /** add_exp without a level-up only adds the amount; with one, the
      remainder is what is left after paying each threshold passed. */
  lemma ExpAddedLedger(p: Pet, amount: real)
    ensures var r := ExpAdded(p, amount);
      (p.exp + amount < p.expToNextLevel ==> r == p.(exp := p.exp + amount)) &&
      (p.exp + amount >= p.expToNextLevel ==>
         r.level > p.level &&
         r.exp == p.exp + amount - p.expToNextLevel - ThresholdSum(p.level + 1, r.level) &&
         r.expToNextLevel == Threshold(r.level) as real)
  {
    DrainedSpendsThresholds(p.(exp := p.exp + amount));
  }

  /** add_exp keeps vitals in range, never raises a decay rate, and leaves
      the state, the age and the coins alone. */
  lemma ExpAddedKeepsRange(p: Pet, amount: real)
    requires InRange(p)
    ensures var r := ExpAdded(p, amount);
      InRange(r) &&
      r.hunger >= p.hunger && r.energy >= p.energy && r.mood >= p.mood && r.cleanliness >= p.cleanliness &&
      r.hungerDecayRate <= p.hungerDecayRate && r.energyDecayRate <= p.energyDecayRate &&
      r.moodDecayRate <= p.moodDecayRate && r.cleanlinessDecayRate <= p.cleanlinessDecayRate &&
      r.state == p.state && r.age == p.age && r.coins == p.coins
  {
    var q := p.(exp := p.exp + amount);
    DrainedBonuses(q);
    DrainedRates(q);
  }

  /** The leveling test: from a fresh pet, 100 experience reaches level 2
      with threshold 120 and nothing left over. */
  lemma FirstLevelUp()
    ensures var r := ExpAdded(Fresh(), 100.0);
      r.level == 2 && r.expToNextLevel == 120.0 && r.exp == 0.0 && r.exp < 100.0
  {
    ThresholdValues();
    var q := Fresh().(exp := 100.0);
    assert Drained(LeveledUp(q)) == LeveledUp(q);
  }

  // ---------------------------------------------------------------------------
  // update

  /** Decay and the mood penalty keep vitals in [0, 100] and never raise one. */
  lemma TendedKeepsRange(p: Pet, dt: real)
    requires InRange(p) && dt >= 0.0
    ensures var m := Tended(p, dt);
      InRange(m) &&
      m.hunger <= p.hunger && m.energy <= p.energy && m.mood <= p.mood && m.cleanliness <= p.cleanliness
  {
    NonNegativeProduct(p.hungerDecayRate, dt);
    NonNegativeProduct(p.energyDecayRate, dt);
    NonNegativeProduct(p.moodDecayRate, dt);
    NonNegativeProduct(p.cleanlinessDecayRate, dt);
    var d := Decayed(p, dt);
    var penalty := MoodPenalty(d.hunger, d.energy, d.cleanliness);
    NonNegativeProduct(-penalty, dt);
  }

  /** For every dt >= 0, update keeps each vital in [0, 100], and the rates
      stay non-negative. */
  lemma UpdateKeepsRange(p: Pet, dt: real)
    requires InRange(p) && dt >= 0.0
    ensures InRange(Updated(p, dt))
  {
    TendedKeepsRange(p, dt);
    var s := Classified(Tended(p, dt));
    ExpAddedKeepsRange(s, 0.1 * dt);
  }

  /** update ages the pet by exactly dt and leaves the coins alone. */
  lemma UpdateAges(p: Pet, dt: real)
    ensures Updated(p, dt).age == p.age + dt && Updated(p, dt).coins == p.coins
  {
  }

  /** The state update sets is the classification of the decayed and
      penalised stats, computed before any passive level-up; when no
      level-up happened it is the classification of the final vitals. */
  lemma UpdateState(p: Pet, dt: real)
    ensures var r := Updated(p, dt); var m := Tended(p, dt);
      r.state == Classify(m.hunger, m.energy, m.mood, m.cleanliness) &&
      (r.level == p.level ==> r.state == Classify(r.hunger, r.energy, r.mood, r.cleanliness))
  {
    var s := Classified(Tended(p, dt));
    DrainedSpendsThresholds(s.(exp := s.exp + 0.1 * dt));
  }

  /** Passive experience: an unhealthy pet gains none; a healthy one gains
      0.1 per second through add_exp, levelling up exactly when that reaches
      the threshold. */
  lemma UpdatePassiveExp(p: Pet, dt: real)
    ensures var r := Updated(p, dt); var m := Tended(p, dt);
      (!Healthy(m.hunger, m.energy, m.mood, m.cleanliness) ==>
         r.exp == p.exp && r.level == p.level && r.expToNextLevel == p.expToNextLevel) &&
      (Healthy(m.hunger, m.energy, m.mood, m.cleanliness) ==>
         (r.level == p.level <==> p.exp + 0.1 * dt < p.expToNextLevel)) &&
      (Healthy(m.hunger, m.energy, m.mood, m.cleanliness) && p.exp + 0.1 * dt < p.expToNextLevel ==>
         r.exp == p.exp + 0.1 * dt && r.expToNextLevel == p.expToNextLevel)
  {
    var s := Classified(Tended(p, dt));
    ExpAddedLedger(s, 0.1 * dt);
  }

  /** Hunger falls on a tick with positive rate and duration, unless it is
      already 0 or a passive level-up restored it. */
  lemma UpdateLowersHunger(p: Pet, dt: real)
    requires p.hunger > 0.0 && p.hungerDecayRate > 0.0 && dt > 0.0
    requires Updated(p, dt).level == p.level
    ensures Updated(p, dt).hunger < p.hunger
  {
    assert p.hungerDecayRate * dt > 0.0;
    var s := Classified(Tended(p, dt));
    DrainedSpendsThresholds(s.(exp := s.exp + 0.1 * dt));
  }

  /** The hunger-decay test: one second from a fresh pet. */
  lemma FreshPetAfterOneSecond()
    ensures var r := Updated(Fresh(), 1.0);
      r.hunger == 99.85 && r.hunger < Fresh().hunger && r.level == 1 && r.exp == 0.1 && r.state == Happy
  {
    var s := Classified(Tended(Fresh(), 1.0));
    assert s.exp + 0.1 < s.expToNextLevel;
  }

  // ---------------------------------------------------------------------------
  // Actions

  /** An action succeeds exactly when its guard passes; a failed action
      returns its fixed message and changes nothing. No action recomputes
      the state. */
  lemma PerformedOutcome(p: Pet, a: Action)
    ensures var r := Performed(p, a);
      (r.success <==> !Refuses(p, a)) &&
      (!r.success ==> r.pet == p && r.message == RefusalMessage(a)) &&
      (r.success ==> r.message == SuccessMessage(a)) &&
      r.pet.state == p.state && r.pet.age == p.age && r.pet.coins == p.coins
  {
  }

  /** On success without a level-up each action applies exactly its
      clamped deltas and its experience, and nothing else. */
  lemma PerformedDeltas(p: Pet, a: Action)
    requires !Refuses(p, a) && p.exp + Reward(a) < p.expToNextLevel
    ensures var r := Performed(p, a).pet;
      (a == Action.Feed ==> r == p.(hunger := Min(100.0, p.hunger + 40.0), exp := p.exp + 5.0)) &&
      (a == Action.Clean ==> r == p.(cleanliness := Min(100.0, p.cleanliness + 50.0),
                                     mood := Min(100.0, p.mood + 10.0), exp := p.exp + 3.0)) &&
      (a == Action.Sleep ==> r == p.(energy := Min(100.0, p.energy + 60.0),
                                     mood := Min(100.0, p.mood + 15.0), exp := p.exp + 4.0)) &&
      (a == Action.Play ==> r == p.(mood := Min(100.0, p.mood + 30.0), energy := Max(0.0, p.energy - 15.0),
                                    hunger := Max(0.0, p.hunger - 10.0), exp := p.exp + 8.0))
  {
    DrainedSpendsThresholds(Cared(p, a).(exp := p.exp + Reward(a)));
  }

  /** Every action keeps the vitals in [0, 100]. */
  lemma PerformedKeepsRange(p: Pet, a: Action)
    requires InRange(p)
    ensures InRange(Performed(p, a).pet)
  {
    if !Refuses(p, a) {
      ExpAddedKeepsRange(Cared(p, a), Reward(a));
    }
  }

  /** The feeding tests: from hunger 50 feeding succeeds with hunger 90;
      at hunger 95 it fails. */
  lemma FeedingExamples()
    ensures var r := Performed(Fresh().(hunger := 50.0), Action.Feed);
      r.success && r.pet.hunger == 90.0 && r.pet.exp == 5.0
    ensures !Performed(Fresh().(hunger := 95.0), Action.Feed).success
  {
    PerformedDeltas(Fresh().(hunger := 50.0), Action.Feed);
  }

  // ---------------------------------------------------------------------------
  // The save record

  /** Loading a pet's own record restores its twelve saved fields, keeps the
      target's coins and recomputes the state from the vitals. */
  lemma RecordRoundTrip(p: Pet, target: Pet)
    ensures Loaded(target, ToRecord(p)) ==
      p.(state := Classify(p.hunger, p.energy, p.mood, p.cleanliness), coins := target.coins)
  {
  }

  /** A pet whose state matches its vitals comes back unchanged but for coins. */
  lemma RecordRoundTripConsistent(p: Pet, target: Pet)
    requires p.state == Classify(p.hunger, p.energy, p.mood, p.cleanliness)
    ensures Loaded(target, ToRecord(p)) == p.(coins := target.coins)
  {
  }

  /** Every absent key takes the fresh pet's value for that field. */
  lemma AbsentKeysDefault(target: Pet, r: PetRecord)
    ensures var q := Loaded(target, r); var f := Fresh();
      (r.hunger.None? ==> q.hunger == f.hunger) &&
      (r.energy.None? ==> q.energy == f.energy) &&
      (r.mood.None? ==> q.mood == f.mood) &&
      (r.cleanliness.None? ==> q.cleanliness == f.cleanliness) &&
      (r.level.None? ==> q.level == f.level) &&
      (r.exp.None? ==> q.exp == f.exp) &&
      (r.expToNextLevel.None? ==> q.expToNextLevel == f.expToNextLevel) &&
      (r.age.None? ==> q.age == f.age) &&
      (r.hungerDecayRate.None? ==> q.hungerDecayRate == f.hungerDecayRate) &&
      (r.energyDecayRate.None? ==> q.energyDecayRate == f.energyDecayRate) &&
      (r.moodDecayRate.None? ==> q.moodDecayRate == f.moodDecayRate) &&
      (r.cleanlinessDecayRate.None? ==> q.cleanlinessDecayRate == f.cleanlinessDecayRate)
  {
  }

  /** An empty record loads a fresh pet (keeping the coins). */
  lemma EmptyRecordLoadsFresh(target: Pet)
    ensures Loaded(target, PetRecord(None, None, None, None, None, None, None, None, None, None, None, None)) ==
      Fresh().(coins := target.coins)
  {
  }
}
