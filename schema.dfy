/**
 * The constant tables of the feature encoder: the field names it reads and
 * the `FEATURE_MAPPING` dictionary, whose entries are kept in insertion order
 * because the encoder iterates over them.
 */
module FeatureSchema {

  /** A value of `FEATURE_MAPPING`: either a category list or a dictionary from
      strings to integers, the latter kept as its entries in insertion order. */
  datatype Table = List(items: seq<string>) | Dict(entries: seq<(string, int)>)

  /** The strings a `for` loop over the table yields: the items of a list, the
      keys of a dictionary. */
  function Iterated(t: Table): (r: seq<string>)
    ensures t.List? ==> r == t.items
    ensures t.Dict? ==> |r| == |t.entries| && forall i :: 0 <= i < |r| ==> r[i] == t.entries[i].0
  {
    match t
    case List(items) => items
    case Dict(entries) => seq(|entries|, i requires 0 <= i < |entries| => entries[i].0)
  }

  /** Number of slots of the feature vector the regressor was trained on. */
  const ExpectedFeatures: nat := 40

  /** The numerical fields, in the order the encoder reads them. */
  const NumericalFeatures: seq<string> :=
    ["BASE_PRICE", "PRODUCT_SIZE", "SALES_AREA_SIZE_NUM", "AVG_WEEKLY_BASKETS"]

  /** The numerical fields converted with `float`; the others go through `int`. */
  const FloatFeatures: seq<string> := ["BASE_PRICE", "PRODUCT_SIZE"]

  /** The two binary fields and the strings that switch them on. */
  const FeatureField := "FEATURE"
  const FeatureSentinel := "ON_Feature"
  const DisplayField := "DISPLAY"
  const DisplaySentinel := "ON_Display"

  /** The ordinal field, skipped by the one-hot loop and encoded last. */
  const OrdinalFeature := "SEG_VALUE_NAME"

  const Manufacturers: seq<string> :=
    ["Private Label", "General MI", "Frito Lay", "P&G", "Kellogg", "Tombstone", "Tonys", "Snyders", "Warner"]
  const Categories: seq<string> :=
    ["Bag Snacks", "Oral Hygiene", "Cold Cereal", "Frozen Pizza"]
  const SubCategories: seq<string> :=
    ["Pretzels", "Mouthwashes(Antiseptic)", "All Family Cereal", "Adult Cereal", "Pizza/Premium",
     "Mouthwash/Rinses And Sprays", "Kids Cereal"]
  const ProvinceCodes: seq<string> :=
    ["KY(Kentucky)", "TX(Texas)", "OH(Ohio)", "IN(India)"]
  const MsaCodes: seq<string> :=
    ["17140", "19100", "26420", "17780", "47540", "43300", "13140", "19380", "44220"]

  /** The ordinal table of `SEG_VALUE_NAME`, in insertion order. */
  const SegValueTable: seq<(string, int)> :=
    [("Value", 1), ("Mainstream", 2), ("Upscale", 3)]

  /** `FEATURE_MAPPING`, entries in insertion order. */
  const FeatureMapping: seq<(string, Table)> :=
    [("Manufacturer", List(Manufacturers)),
     ("Category", List(Categories)),
     ("Sub_Category", List(SubCategories)),
     ("Province_Code", List(ProvinceCodes)),
     ("MSA_CODE", List(MsaCodes)),
     (OrdinalFeature, Dict(SegValueTable))]

  /** Every form field the encoder looks at. */
  const SchemaFields: seq<string> :=
    NumericalFeatures + [FeatureField, DisplayField,
    "Manufacturer", "Category", "Sub_Category", "Province_Code", "MSA_CODE", OrdinalFeature]

  predicate NoDuplicates(s: seq<string>)
  {
    forall i, j :: 0 <= i < j < |s| ==> s[i] != s[j]
  }

  /** `FEATURE_MAPPING['SEG_VALUE_NAME']` is the ordinal table, held by the last
      entry and by no other. */
  lemma OrdinalTableInMapping()
    ensures |FeatureMapping| == 6 && FeatureMapping[5] == (OrdinalFeature, Dict(SegValueTable))
    ensures forall i :: 0 <= i < 5 ==> FeatureMapping[i].0 != OrdinalFeature && FeatureMapping[i].1.List?
  {
  }

  /** Each category list names each category once, so a one-hot block can
      hold at most one 1. */
  lemma CategoryListsHaveNoDuplicates()
    ensures NoDuplicates(Manufacturers) && NoDuplicates(Categories) && NoDuplicates(SubCategories)
    ensures NoDuplicates(ProvinceCodes) && NoDuplicates(MsaCodes)
  {
  }
}
