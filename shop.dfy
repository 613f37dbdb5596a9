/** The shop of logic/shop.py: a fixed catalog and a purchase that spends
    the pet's coins on a capped boost to one vital. */
module ShopLogic {
  import opened Wrappers
  import opened PetLogic
  import PetProperties

  /** ShopItem: an immutable catalog entry. `effectType` names the pet
      attribute the item raises. */
  datatype ShopItem = ShopItem(
    name: string,
    description: string,
    price: int,
    effectType: string,
    effectValue: real,
    icon: string)

  /** The five items `Shop()` offers: each has a positive price and effect
      and raises one of the four vitals. */
  function Catalog(): (items: seq<ShopItem>)
    ensures |items| == 5
    ensures forall i :: 0 <= i < |items| ==>
      items[i].price > 0 && items[i].effectValue > 0.0 && VitalNamed(items[i].effectType).Some?
  {
    [ShopItem("Premium Steak", "Huge hunger fill", 50, "hunger", 60.0, "\U{1F969}"),
     ShopItem("Energy Drink", "Instant boost", 40, "energy", 80.0, "\U{1F964}"),
     ShopItem("Golden Ball", "Massive mood boost", 30, "mood", 50.0, "\U{1F94E}"),
     ShopItem("Royal Spa", "Ultimate clean", 35, "cleanliness", 70.0, "\U{1F6C1}"),
     ShopItem("Magic Snack", "Small treat", 10, "hunger", 15.0, "\U{1F36A}")]
  }

  /** What `buy_item` returns, with the pet it leaves behind. */
  datatype PurchaseResult = PurchaseResult(pet: Pet, success: bool, message: string, coins: int)

  /** `buy_item(item, pet)`: the funds first, then the effect type; on
      success the boosted vital, the price paid and 5 bonus experience. */
  function Purchased(p: Pet, item: ShopItem): PurchaseResult
  {
    if p.coins < item.price then
      PurchaseResult(p, false, "Not enough coins!", p.coins)
    else
      match VitalNamed(item.effectType)
      case None => PurchaseResult(p, false, "Invalid item effect", p.coins)
      case Some(v) =>
        var boosted := WithVital(p, v, Min(MaxStat, VitalOf(p, v) + item.effectValue));
        var paid := boosted.(coins := boosted.coins - item.price);
        var after := ExpAdded(paid, 5.0);
        PurchaseResult(after, true, "Bought " + item.name + "!", after.coins)
  }

  /** Shop: holds the catalog; buying changes only the pet. */
  class Shop {
    const items: seq<ShopItem>

    constructor ()
      ensures items == Catalog()
    {
      items := Catalog();
    }

    /** `buy_item`. */
    method BuyItem(item: ShopItem, pet: TigerPet) returns (success: bool, message: string, coins: int)
      modifies pet
      ensures PurchaseResult(pet.Snapshot(), success, message, coins) == Purchased(old(pet.Snapshot()), item)
    {
      if pet.coins < item.price {
        return false, "Not enough coins!", pet.coins;
      }
      match VitalNamed(item.effectType)
      case None =>
        return false, "Invalid item effect", pet.coins;
      case Some(v) =>
        match v {
          case Hunger => pet.hunger := Min(100.0, pet.hunger + item.effectValue);
          case Energy => pet.energy := Min(100.0, pet.energy + item.effectValue);
          case Mood => pet.mood := Min(100.0, pet.mood + item.effectValue);
          case Cleanliness => pet.cleanliness := Min(100.0, pet.cleanliness + item.effectValue);
        }
        pet.coins := pet.coins - item.price;
        pet.AddExp(5.0);
        return true, "Bought " + item.name + "!", pet.coins;
    }
  }

  // ---------------------------------------------------------------------------
  // Properties of a purchase

  /** Funds are checked before the effect type: short of coins, the purchase
      fails with "Not enough coins!" whatever the item names, and nothing changes. */
  lemma InsufficientFunds(p: Pet, item: ShopItem)
    requires p.coins < item.price
    ensures Purchased(p, item) == PurchaseResult(p, false, "Not enough coins!", p.coins)
  {
  }

  /** With enough coins but an effect type naming no vital, the purchase
      fails with "Invalid item effect" and nothing changes. */
  lemma InvalidEffect(p: Pet, item: ShopItem)
    requires p.coins >= item.price && VitalNamed(item.effectType).None?
    ensures Purchased(p, item) == PurchaseResult(p, false, "Invalid item effect", p.coins)
  {
  }

  /** A purchase succeeds exactly when the coins cover the price and the
      effect names a vital. Whatever happens, the coins returned are the
      pet's balance afterwards, which falls by the price on success and not
      at all otherwise, and so is never negative when it was not. */
  lemma PurchaseCoins(p: Pet, item: ShopItem)
    ensures var r := Purchased(p, item);
      (r.success <==> p.coins >= item.price && VitalNamed(item.effectType).Some?) &&
      r.coins == r.pet.coins &&
      r.pet.coins == (if r.success then p.coins - item.price else p.coins) &&
      (p.coins >= 0 ==> r.pet.coins >= 0) &&
      (!r.success ==> r.pet == p)
  {
  }

  /** On success the target vital becomes min(100, old + effect) and
      everything else but the coins is exactly as after add_exp(5); without
      a level-up that is just 5 more experience. */
  lemma PurchaseEffect(p: Pet, item: ShopItem, v: Vital)
    requires p.coins >= item.price && VitalNamed(item.effectType) == Some(v)
    ensures var r := Purchased(p, item);
      var boosted := WithVital(p, v, Min(MaxStat, VitalOf(p, v) + item.effectValue));
      r.success && r.message == "Bought " + item.name + "!" &&
      r.pet == ExpAdded(boosted.(coins := p.coins - item.price), 5.0) &&
      (p.exp + 5.0 < p.expToNextLevel ==>
         r.pet == boosted.(coins := p.coins - item.price, exp := p.exp + 5.0))
  {
    var boosted := WithVital(p, v, Min(MaxStat, VitalOf(p, v) + item.effectValue));
    PetProperties.ExpAddedLedger(boosted.(coins := p.coins - item.price), 5.0);
  }

  /** A purchase of a non-negative effect keeps the vitals in [0, 100]; in
      particular every catalog item does. */
  lemma PurchaseKeepsRange(p: Pet, item: ShopItem)
    requires InRange(p) && item.effectValue >= 0.0
    ensures InRange(Purchased(p, item).pet)
  {
    match VitalNamed(item.effectType)
    case None =>
    case Some(v) =>
      if p.coins >= item.price {
        var boosted := WithVital(p, v, Min(MaxStat, VitalOf(p, v) + item.effectValue));
        PetProperties.ExpAddedKeepsRange(boosted.(coins := p.coins - item.price), 5.0);
      }
  }

  /** The insufficient-funds test: 10 coins do not buy a 50-coin item. */
  lemma TenCoinsBuyNoSteak(p: Pet)
    requires p.coins == 10
    ensures var r := Purchased(p, Catalog()[0]);
      !r.success && r.message == "Not enough coins!" && r.coins == 10 && r.pet == p
  {
  }
}
