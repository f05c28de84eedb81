/**
 * The clothing catalog of one body type: a list of records per category, a
 * lookup from category to list and a random pick. The random index is a
 * parameter of the model.
 */
module Catalog {
  import opened Wrappers
  import opened Clothing

  datatype ClothingList = ClothingList(
    hairClothes: seq<ClothingRecord>,
    topClothes: seq<ClothingRecord>,
    bottomClothes: seq<ClothingRecord>,
    shoeClothes: seq<ClothingRecord>)

  /** The categories the catalog offers to a browsing UI, in display order. */
  function GetAllCategories(): (cats: seq<Category>)
    ensures |cats| == 2 && cats[0] == Top && cats[1] == Bottom
    ensures forall list: ClothingList, c :: c in cats <==> GetClothingByCategory(list, c).Some?
  {
    [Top, Bottom]
  }

  /**
   * The list for a category. Only Top and Bottom are wired up: every other
   * category gets no list at all, although the catalog stores hair and shoe lists.
   */
  function GetClothingByCategory(list: ClothingList, category: Category): (r: Option<seq<ClothingRecord>>)
    ensures r.Some? <==> category == Top || category == Bottom
    ensures category == Top ==> r == Some(list.topClothes)
    ensures category == Bottom ==> r == Some(list.bottomClothes)
  {
    match category
    case Top => Some(list.topClothes)
    case Bottom => Some(list.bottomClothes)
    case _ => None
  }

  /** The random index was drawn from [0, count) of the category's list, when it has one. */
  predicate PickInRange(list: ClothingList, category: Category, pick: nat) {
    var l := GetClothingByCategory(list, category);
    l.Some? && |l.value| > 0 ==> pick < |l.value|
  }

  /** A random record of the category, or none when the category has no list or an empty one. */
  function GetRandomClothing(list: ClothingList, category: Category, pick: nat): (r: Option<ClothingRecord>)
    requires PickInRange(list, category, pick)
    ensures var l := GetClothingByCategory(list, category);
      r.None? <==> l.None? || |l.value| == 0
    ensures r.Some? ==> r.value in GetClothingByCategory(list, category).value
    ensures r.Some? ==> r.value == GetClothingByCategory(list, category).value[pick]
  {
    var l := GetClothingByCategory(list, category);
    if l.None? || |l.value| == 0 then None else Some(l.value[pick])
  }

  /** Every record of a non-empty list is the outcome of some pick, and only those are. */
  lemma EveryRecordCanBePicked(list: ClothingList, category: Category, r: ClothingRecord)
    requires GetClothingByCategory(list, category).Some?
    ensures (exists pick: nat :: PickInRange(list, category, pick) && GetRandomClothing(list, category, pick) == Some(r))
        <==> r in GetClothingByCategory(list, category).value
  {
    var l := GetClothingByCategory(list, category).value;
    if r in l {
      var i :| 0 <= i < |l| && l[i] == r;
      assert PickInRange(list, category, i) && GetRandomClothing(list, category, i) == Some(r);
    }
  }

  /** Hair, Shoes and Outfit never yield a record, whatever the catalog holds. */
  lemma UnlistedCategoriesNeverPick(list: ClothingList, category: Category, pick: nat)
    requires category in {Hair, Shoes, Outfit}
    ensures PickInRange(list, category, pick) && GetRandomClothing(list, category, pick) == None
  {
  }
}
