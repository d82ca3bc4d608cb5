/** The shop generator: a row of shelves laid out in a zig-zag, whose goods
    categories cycle through six types, each stocked from the configured
    list for its type or, when that list is empty, from a built-in
    catalogue. Creating game objects and writing their fields by reflection
    is not modelled; what a shelf is given is recorded instead. */
module ShopGeneration {
  import opened Common
  import opened GoodsData
  import Text

  /** C#'s `index % 6` on int: the remainder takes the sign of the
      dividend. */
  function CsRem6(a: int): (r: int)
    ensures a >= 0 ==> 0 <= r < 6 && r == a % 6
    ensures a < 0 ==> -6 < r <= 0
    ensures (a - r) % 6 == 0
  {
    if a >= 0 then a % 6 else -((-a) % 6)
  }

  /** The six shelf categories in cycle order. */
  const ShelfCycle: seq<GoodsType> := [Food, Alcohol, Electronics, Clothing, Medicine, Luxury]

  /** GetShelfType: the switch on index % 6; every other remainder (only a
      negative one) gives Regular. */
  function ShelfType(index: int): (r: GoodsType)
  {
    match CsRem6(index)
    case 0 => Food
    case 1 => Alcohol
    case 2 => Electronics
    case 3 => Clothing
    case 4 => Medicine
    case 5 => Luxury
    case _ => Regular
  }

  /** Shelves with a non-negative index follow the six-type cycle, so no
      generated shelf is Regular; Regular comes only from a negative index
      that is not a multiple of 6, and a multiple of 6 of either sign is
      Food. */
  lemma ShelfTypeCycle(index: int)
    ensures index >= 0 ==> ShelfType(index) == ShelfCycle[index % 6]
    ensures ShelfType(index) == Regular <==> index < 0 && index % 6 != 0
    ensures index % 6 == 0 ==> ShelfType(index) == Food
  {
    var r := CsRem6(index);
    if index < 0 {
      assert (index - r) % 6 == 0;
      if r == 0 {
        assert index % 6 == 0;
      } else {
        assert index % 6 == r + 6;
      }
    }
  }

  /** The cycle repeats every six shelves. */
  lemma ShelfTypePeriodic(index: nat)
    ensures ShelfType(index + 6) == ShelfType(index)
  {
    ShelfTypeCycle(index);
    ShelfTypeCycle(index + 6);
  }

  /** Where shelf i stands: i spacings along x, and every odd shelf one
      spacing back in z. */
  function Placement(start: Vec3, spacing: Vec3, i: nat): (r: Vec3)
    ensures r.y == start.y
    ensures r.z == start.z || r.z == start.z + spacing.z
  {
    assert (i % 2) as real == 0.0 || (i % 2) as real == 1.0;
    Vec3(start.x + (i as real) * spacing.x, start.y + 0.0, start.z + ((i % 2) as real) * spacing.z)
  }

  /** Consecutive shelves are one spacing apart along x and alternate
      between the front row (even) and the back row (odd). */
  lemma PlacementZigZag(start: Vec3, spacing: Vec3, i: nat)
    ensures Placement(start, spacing, i + 1).x - Placement(start, spacing, i).x == spacing.x
    ensures Placement(start, spacing, i).z == if i % 2 == 0 then start.z else start.z + spacing.z
    ensures Placement(start, spacing, i + 1).z != Placement(start, spacing, i).z || spacing.z == 0.0
  {
    assert ((i + 1) as real) * spacing.x == (i as real) * spacing.x + spacing.x;
  }

  /** CreateGood: the given attributes; the noise level keeps its default
      of 1. */
  function MakeGoods(name: string, price: int, weight: real, kind: GoodsType, difficulty: int,
                     isFragile: bool, isValuable: bool): (g: Goods)
    ensures g.name == name && g.price == price && g.kind == kind && g.stealingDifficulty == difficulty
    ensures g.noiseLevel == 1.0
  {
    Goods(name, price, weight, kind, difficulty, 1.0, isFragile, isValuable)
  }

  const DefaultFood: seq<Goods> := [
    MakeGoods("Хлеб", 30, 0.5, Food, 1, false, false),
    MakeGoods("Молоко", 80, 1.0, Food, 1, true, false),
    MakeGoods("Сыр", 150, 0.3, Food, 2, false, false),
    MakeGoods("Яйца", 120, 0.8, Food, 1, true, false)]

  const DefaultAlcohol: seq<Goods> := [
    MakeGoods("Пиво", 100, 1.5, Alcohol, 3, false, false),
    MakeGoods("Водка", 300, 2.0, Alcohol, 5, false, true),
    MakeGoods("Вино", 500, 1.8, Alcohol, 4, true, true)]

  const DefaultElectronics: seq<Goods> := [
    MakeGoods("Телефон", 15000, 0.2, Electronics, 8, true, true),
    MakeGoods("Наушники", 3000, 0.1, Electronics, 6, false, true),
    MakeGoods("Зарядка", 200, 0.05, Electronics, 2, false, false)]

  const DefaultClothing: seq<Goods> := [
    MakeGoods("Футболка", 800, 0.3, Clothing, 3, false, false),
    MakeGoods("Джинсы", 2500, 0.8, Clothing, 4, false, false),
    MakeGoods("Кроссовки", 4000, 1.0, Clothing, 5, false, true)]

  const DefaultMedicine: seq<Goods> := [
    MakeGoods("Аспирин", 150, 0.1, Medicine, 4, false, false),
    MakeGoods("Витамины", 500, 0.2, Medicine, 3, false, false),
    MakeGoods("Бинт", 80, 0.1, Medicine, 2, false, false)]

  const DefaultLuxury: seq<Goods> := [
    MakeGoods("Часы", 25000, 0.1, Luxury, 10, true, true),
    MakeGoods("Кольцо", 15000, 0.05, Luxury, 9, true, true),
    MakeGoods("Духи", 8000, 0.3, Luxury, 7, true, true)]

  const DefaultRegular: seq<Goods> := [
    MakeGoods("Мыло", 50, 0.2, Regular, 1, false, false),
    MakeGoods("Зубная паста", 120, 0.3, Regular, 1, false, false),
    MakeGoods("Бумага", 200, 1.0, Regular, 1, false, false)]

  /** The built-in catalogue GetGoodsByType falls back to; any type without
      a case of its own (Regular, Illegal) gets the Regular one. */
  function DefaultGoods(t: GoodsType): (r: seq<Goods>)
    ensures |r| >= 3
  {
    match t
    case Food => DefaultFood
    case Alcohol => DefaultAlcohol
    case Electronics => DefaultElectronics
    case Clothing => DefaultClothing
    case Medicine => DefaultMedicine
    case Luxury => DefaultLuxury
    case _ => DefaultRegular
  }

  /** A catalogue entry fit for sale: a positive price, a positive weight
      and a difficulty on the 1–10 scale. */
  predicate Sane(g: Goods)
  {
    g.price > 0 && g.weight > 0.0 && 1 <= g.stealingDifficulty <= 10
  }

  /** Four food items and three of every other kind; every entry is sane
      and of the catalogue's own kind (Illegal falls back to Regular goods). */
  lemma DefaultCatalogues(t: GoodsType)
    ensures |DefaultGoods(t)| == if t == Food then 4 else 3
    ensures forall g :: g in DefaultGoods(t) ==> Sane(g)
    ensures forall g :: g in DefaultGoods(t) ==> g.kind == (if t == Illegal then Regular else t)
  {
    match t
    case Food => FoodCatalogue();
    case Alcohol => AlcoholCatalogue();
    case Electronics => ElectronicsCatalogue();
    case Clothing => ClothingCatalogue();
    case Medicine => MedicineCatalogue();
    case Luxury => LuxuryCatalogue();
    case Regular => RegularCatalogue();
    case Illegal => RegularCatalogue(); assert DefaultGoods(Illegal) == DefaultGoods(Regular);
  }

  lemma FoodCatalogue()
    ensures |DefaultGoods(Food)| == 4 && SaneOfKind(DefaultGoods(Food), Food)
  {
  }

  lemma AlcoholCatalogue()
    ensures |DefaultGoods(Alcohol)| == 3 && SaneOfKind(DefaultGoods(Alcohol), Alcohol)
  {
  }

  lemma ElectronicsCatalogue()
    ensures |DefaultGoods(Electronics)| == 3 && SaneOfKind(DefaultGoods(Electronics), Electronics)
  {
  }

  lemma ClothingCatalogue()
    ensures |DefaultGoods(Clothing)| == 3 && SaneOfKind(DefaultGoods(Clothing), Clothing)
  {
  }

  lemma MedicineCatalogue()
    ensures |DefaultGoods(Medicine)| == 3 && SaneOfKind(DefaultGoods(Medicine), Medicine)
  {
  }

  lemma LuxuryCatalogue()
    ensures |DefaultGoods(Luxury)| == 3 && SaneOfKind(DefaultGoods(Luxury), Luxury)
  {
  }

  lemma RegularCatalogue()
    ensures |DefaultGoods(Regular)| == 3 && SaneOfKind(DefaultGoods(Regular), Regular)
  {
  }

  /** Every entry of `gs` is sane and of the given kind. */
  predicate SaneOfKind(gs: seq<Goods>, kind: GoodsType)
  {
    forall g :: g in gs ==> Sane(g) && g.kind == kind
  }

  /** The configured lists, one per cycled type. */
  datatype Stock = Stock(food: seq<Goods>, alcohol: seq<Goods>, electronics: seq<Goods>,
                         clothing: seq<Goods>, medicine: seq<Goods>, luxury: seq<Goods>)

  function Configured(stock: Stock, t: GoodsType): seq<Goods>
  {
    match t
    case Food => stock.food
    case Alcohol => stock.alcohol
    case Electronics => stock.electronics
    case Clothing => stock.clothing
    case Medicine => stock.medicine
    case Luxury => stock.luxury
    case _ => []
  }

  /** GetGoodsByType: the configured list for the type when it is
      non-empty, otherwise the built-in catalogue; never empty. */
  function GoodsByType(stock: Stock, t: GoodsType): (r: seq<Goods>)
    ensures r != []
    ensures Configured(stock, t) != [] ==> r == Configured(stock, t)
    ensures Configured(stock, t) == [] ==> r == DefaultGoods(t)
  {
    var configured := Configured(stock, t);
    if |configured| > 0 then configured else DefaultGoods(t)
  }

  /** The item sizes GetItemSize hands out. */
  const BreadSize := Vec3(0.3, 0.1, 0.2)
  const MilkSize := Vec3(0.1, 0.2, 0.1)
  const CheeseSize := Vec3(0.2, 0.1, 0.15)
  const EggSize := Vec3(0.08, 0.08, 0.08)
  const PhoneSize := Vec3(0.15, 0.05, 0.08)
  const WatchSize := Vec3(0.05, 0.05, 0.05)
  const DefaultSize := Vec3(0.2, 0.2, 0.2)

  /** The keywords GetItemSize tries, in order, with their sizes. */
  const SizeRules: seq<(string, Vec3)> := [
    ("хлеб", BreadSize), ("молоко", MilkSize), ("сыр", CheeseSize),
    ("яйцо", EggSize), ("телефон", PhoneSize), ("часы", WatchSize)]

  /** The first rule from `from` on whose keyword occurs in the label. */
  function FirstSize(lower: string, from: nat): (r: Vec3)
    requires from <= |SizeRules|
    ensures r == DefaultSize || exists k :: from <= k < |SizeRules| && r == SizeRules[k].1
    decreases |SizeRules| - from
  {
    if from == |SizeRules| then DefaultSize
    else if Text.Contains(lower, SizeRules[from].0) then SizeRules[from].1
    else FirstSize(lower, from + 1)
  }

  /** GetItemSize: the lower-cased label is searched for the keywords in
      order; the first hit decides, and no hit gives a 0.2 cube. The goods
      type is not consulted. */
  function ItemSize(name: string): (r: Vec3)
  {
    FirstSize(Text.ToLower(name), 0)
  }

  /** A label holding no keyword gets the default cube; one whose first
      matching keyword is rule k gets that rule's size. */
  lemma {:induction false} ItemSizeRule(lower: string, from: nat)
    requires from <= |SizeRules|
    ensures (forall k :: from <= k < |SizeRules| ==> !Text.Contains(lower, SizeRules[k].0))
            ==> FirstSize(lower, from) == DefaultSize
    ensures forall k :: (from <= k < |SizeRules| && Text.Contains(lower, SizeRules[k].0)
                         && (forall j :: from <= j < k ==> !Text.Contains(lower, SizeRules[j].0)))
                        ==> FirstSize(lower, from) == SizeRules[k].1
    decreases |SizeRules| - from
  {
    if from < |SizeRules| {
      ItemSizeRule(lower, from + 1);
    }
  }

  /** "Яйца" lower-cases to "яйца", which holds none of the keywords (in
      particular not "яйцо"): the default eggs get the default cube, not
      the egg size. */
  lemma EggsGetDefaultSize()
    ensures ItemSize("Яйца") == DefaultSize
  {
    LowerEggs();
    EggsMatchNoKeyword();
    ItemSizeRule("яйца", 0);
  }

  lemma LowerEggs()
    ensures Text.ToLower("Яйца") == "яйца"
  {
    assert Text.ToLower("Яйца")[0] == 'я';
  }

  lemma EggsMatchNoKeyword()
    ensures forall k :: 0 <= k < |SizeRules| ==> !Text.Contains("яйца", SizeRules[k].0)
  {
    Text.AbsentByEnds("яйца", "хлеб");
    Text.AbsentByEnds("яйца", "молоко");
    Text.AbsentByEnds("яйца", "сыр");
    Text.AbsentByEnds("яйца", "яйцо");
    Text.AbsentByEnds("яйца", "телефон");
    Text.AbsentByEnds("яйца", "часы");
  }

  /** "Хлеб" lower-cases to "хлеб", the first keyword: bread gets the
      bread size. */
  lemma BreadGetsBreadSize()
    ensures ItemSize("Хлеб") == BreadSize
  {
    var bread := Text.ToLower("Хлеб");
    assert bread == "хлеб" by {
      assert bread[0] == 'х';
    }
    assert Text.OccursAt(bread, "хлеб", 0);
  }

  /** What a generated shelf is given: its index, position, type and the
      goods handed to SetAvailableGoods. */
  datatype GeneratedShelf = GeneratedShelf(index: nat, position: Vec3, kind: GoodsType, goods: seq<Goods>)

  class GoodsGenerator {
    var generateOnStart: bool
    var shelfCount: int
    var shelfSpacing: Vec3
    var startPosition: Vec3
    var stock: Stock
    var generatedShelves: seq<GeneratedShelf>
    /** The shelves destroyed by ClearExistingShelves, in order. */
    var destroyed: seq<GeneratedShelf>

    /** The shelf CreateShelf and ConfigureShelf make for index i. */
    function Planned(i: nat): (s: GeneratedShelf)
      reads this`shelfSpacing, this`startPosition, this`stock
      ensures s.index == i && s.kind == ShelfType(i) && s.goods != []
    {
      GeneratedShelf(i, Placement(startPosition, shelfSpacing, i), ShelfType(i), GoodsByType(stock, ShelfType(i)))
    }

    /** The inspector defaults: five shelves 3 apart from the origin,
        generated on Start, no configured goods. */
    constructor ()
      ensures generateOnStart && shelfCount == 5
      ensures shelfSpacing == Vec3(3.0, 0.0, 3.0) && startPosition == Vec3(0.0, 0.0, 0.0)
      ensures stock == Stock([], [], [], [], [], [])
      ensures generatedShelves == [] && destroyed == []
    {
      generateOnStart := true;
      shelfCount := 5;
      shelfSpacing := Vec3(3.0, 0.0, 3.0);
      startPosition := Vec3(0.0, 0.0, 0.0);
      stock := Stock([], [], [], [], [], []);
      generatedShelves := [];
      destroyed := [];
    }

    /** ClearExistingShelves: every generated shelf is destroyed and the
        list emptied. */
    method ClearExistingShelves()
      modifies this`generatedShelves, this`destroyed
      ensures generatedShelves == []
      ensures destroyed == old(destroyed) + old(generatedShelves)
    {
      destroyed := destroyed + generatedShelves;
      generatedShelves := [];
    }

    /** GenerateShelves: one planned shelf for each index below the count
        (none for a count ≤ 0), appended in index order. */
    method GenerateShelves()
      modifies this`generatedShelves
      ensures |generatedShelves| == |old(generatedShelves)| + PositivePart(shelfCount)
      ensures generatedShelves[..|old(generatedShelves)|] == old(generatedShelves)
      ensures forall i :: 0 <= i < PositivePart(shelfCount) ==>
        generatedShelves[|old(generatedShelves)| + i] == Planned(i)
    {
      var i := 0;
      while i < shelfCount
        invariant 0 <= i <= PositivePart(shelfCount)
        invariant |generatedShelves| == |old(generatedShelves)| + i
        invariant generatedShelves[..|old(generatedShelves)|] == old(generatedShelves)
        invariant forall j :: 0 <= j < i ==> generatedShelves[|old(generatedShelves)| + j] == Planned(j)
      {
        generatedShelves := generatedShelves + [Planned(i)];
        i := i + 1;
      }
    }

    /** GenerateShop: the old shelves are destroyed, then exactly
        max(0, shelfCount) shelves are generated, shelf i being Planned(i). */
    method GenerateShop()
      modifies this`generatedShelves, this`destroyed
      ensures destroyed == old(destroyed) + old(generatedShelves)
      ensures |generatedShelves| == PositivePart(shelfCount)
      ensures forall i :: 0 <= i < |generatedShelves| ==> generatedShelves[i] == Planned(i)
    {
      ClearExistingShelves();
      GenerateShelves();
    }

    /** Start: generates the shop when so configured. */
    method Start()
      modifies this`generatedShelves, this`destroyed
      ensures !generateOnStart ==> generatedShelves == old(generatedShelves) && destroyed == old(destroyed)
      ensures generateOnStart ==>
        destroyed == old(destroyed) + old(generatedShelves)
        && |generatedShelves| == PositivePart(shelfCount)
        && forall i :: 0 <= i < |generatedShelves| ==> generatedShelves[i] == Planned(i)
    {
      if generateOnStart {
        GenerateShop();
      }
    }
  }

  /** The default shop: shelves 0–4 get Food, Alcohol, Electronics,
      Clothing and Medicine; no Luxury shelf is generated. */
  lemma DefaultShopTypes()
    ensures ShelfType(0) == Food && ShelfType(1) == Alcohol && ShelfType(2) == Electronics
    ensures ShelfType(3) == Clothing && ShelfType(4) == Medicine
    ensures forall i :: 0 <= i < 5 ==> ShelfType(i) != Luxury
  {
  }
}
