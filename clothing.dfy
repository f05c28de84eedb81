/**
 * Clothing records and the clothing categories.
 *
 * A record is an authored asset: which slot it occupies, the prefab that is
 * instantiated when it is worn (a plain prop for Hair, a skinned mesh for every
 * other category) and the names of the body parts it hides while worn.
 */
module Clothing {
  import opened Wrappers

  /** The clothing slots. Outfit is a full-body item that competes with Top and Bottom. */
  datatype Category = Hair | Top | Bottom | Shoes | Outfit

  type BoneId = nat
  type MaterialId = nat
  type BindposeId = nat

  /** A mesh asset: an identity, how many sub-meshes it has, and its bind poses. */
  datatype Mesh = Mesh(id: nat, subMeshCount: nat, bindposes: seq<BindposeId>)

  /** The prototype of a skinned clothing renderer: its shared mesh (possibly none) and materials. */
  datatype SkinnedPrefab = SkinnedPrefab(id: nat, sharedMesh: Option<Mesh>, sharedMaterials: seq<MaterialId>)

  /** The prototype of a hair prop. */
  datatype HairPrefab = HairPrefab(id: nat)

  /** One clothing asset. Only the prefab that matches the category is used. */
  datatype ClothingRecord = ClothingRecord(
    name: string,
    hairPrefab: Option<HairPrefab>,
    clothingPrefab: Option<SkinnedPrefab>,
    bodyPartsToHideName: seq<string>,
    category: Category)

  /** The record carries the prefab its category instantiates (instantiating a null prefab throws). */
  predicate Spawnable(r: ClothingRecord) {
    if r.category == Hair then r.hairPrefab.Some? else r.clothingPrefab.Some?
  }

  /**
   * The categories a new item of category `c` evicts besides `c` itself:
   * an Outfit evicts Top and Bottom, a Top or a Bottom evicts Outfit.
   */
  function ConflictGroup(c: Category): (g: set<Category>)
    ensures c !in g && Hair !in g && Shoes !in g
    ensures Outfit in g <==> c == Top || c == Bottom
  {
    match c
    case Outfit => {Top, Bottom}
    case Top => {Outfit}
    case Bottom => {Outfit}
    case _ => {}
  }

  /** The conflict rule is symmetric: `d` evicts `c` exactly when `c` evicts `d`. */
  lemma ConflictIsSymmetric(c: Category, d: Category)
    ensures d in ConflictGroup(c) <==> c in ConflictGroup(d)
  {
  }
}
