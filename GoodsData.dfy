/** A kind of merchandise (a Goods asset): its fixed attributes and the
    quantities derived from them. Assets are never written after creation,
    so a Goods is a value. */
module GoodsData {

  /** The eight categories, Regular first. */
  datatype GoodsType = Regular | Food | Alcohol | Electronics | Clothing | Medicine | Luxury | Illegal

  const AllGoodsTypes: seq<GoodsType> := [Regular, Food, Alcohol, Electronics, Clothing, Medicine, Luxury, Illegal]

  /** Label (`name`), price, weight, category, stealing difficulty, noise level and the
      two flags. Description, prefab, icon and colour are presentation. */
  datatype Goods = Goods(
    name: string,
    price: int,
    weight: real,
    kind: GoodsType,
    stealingDifficulty: int,
    noiseLevel: real,
    isFragile: bool,
    isValuable: bool)

  /** TotalValue: the price, doubled for valuables. */
  function TotalValue(g: Goods): (r: real)
    ensures g.price >= 0 ==> r >= g.price as real
    ensures r == g.price as real || r == 2.0 * g.price as real
  {
    g.price as real * (if g.isValuable then 2.0 else 1.0)
  }

  /** StealingRisk: the difficulty, times 1.5 for valuables. */
  function StealingRisk(g: Goods): (r: real)
    ensures g.stealingDifficulty >= 0 ==> r >= g.stealingDifficulty as real
    ensures r == g.stealingDifficulty as real || r == 1.5 * g.stealingDifficulty as real
  {
    g.stealingDifficulty as real * (if g.isValuable then 1.5 else 1.0)
  }

  predicate IsHeavy(g: Goods) { g.weight > 2.0 }
  predicate IsLight(g: Goods) { g.weight < 0.5 }
  predicate IsExpensive(g: Goods) { g.price > 100 }
  predicate IsCheap(g: Goods) { g.price < 10 }

  /** GetStealthPenalty: 0.3 if fragile, 0.5 if valuable, 0.2 if heavy, summed. */
  function StealthPenalty(g: Goods): (r: real)
    ensures 0.0 <= r <= 1.0
    ensures r == 0.0 <==> !g.isFragile && !g.isValuable && !IsHeavy(g)
    ensures r == 1.0 <==> g.isFragile && g.isValuable && IsHeavy(g)
  {
    (if g.isFragile then 0.3 else 0.0) + (if g.isValuable then 0.5 else 0.0) + (if IsHeavy(g) then 0.2 else 0.0)
  }

  /** GetNoiseModifier: the noise level, times 1.5 if fragile and 1.2 if heavy. */
  function NoiseModifier(g: Goods): (r: real)
    ensures g.noiseLevel >= 0.0 ==> g.noiseLevel <= r <= 1.8 * g.noiseLevel
    ensures !g.isFragile && !IsHeavy(g) ==> r == g.noiseLevel
  {
    var m := g.noiseLevel * (if g.isFragile then 1.5 else 1.0);
    m * (if IsHeavy(g) then 1.2 else 1.0)
  }

  /** The weight bands and the price bands are each disjoint. */
  lemma BandsDisjoint(g: Goods)
    ensures !(IsHeavy(g) && IsLight(g))
    ensures !(IsExpensive(g) && IsCheap(g))
  {
  }

  /** GoodsType has eight distinct members and Regular is the first. */
  lemma EightGoodsTypes(t: GoodsType)
    ensures t in AllGoodsTypes && |AllGoodsTypes| == 8 && AllGoodsTypes[0] == Regular
    ensures forall i, j :: 0 <= i < j < |AllGoodsTypes| ==> AllGoodsTypes[i] != AllGoodsTypes[j]
  {
  }
}
