/**
 * The feature encoder `get_encoded_features`: a form (field name to submitted
 * string) becomes a 40-slot numeric vector, or the encoder raises an input
 * error when a numerical field is missing or does not parse.
 */
module FeatureEncoder {
  import opened Wrappers
  import opened FeatureSchema

  /** A slot of the vector: a Python `float` or a Python `int`. */
  datatype Number = Float(x: real) | Int(n: int)

  /** The submitted form: field name to submitted string. */
  type Form = map<string, string>

  /** Python's `float(str)` and `int(str)` conversions, as partial functions:
      `None` stands for the `ValueError` they raise on text they do not accept. */
  datatype Parsers = Parsers(toFloat: string -> Option<real>, toInt: string -> Option<int>)

  /** Why a numerical field was rejected: absent (`float(None)` raises
      `TypeError`) or present but not accepted by the conversion (`ValueError`). */
  datatype Problem = Missing | Malformed(text: string)

  datatype FieldError = FieldError(field: string, problem: Problem)

  /** `form_data.get(key)`. */
  function Get(form: Form, key: string): (r: Option<string>)
    ensures r.Some? <==> key in form
    ensures r.Some? ==> r.value == form[key]
  {
    if key in form then Some(form[key]) else None
  }

  /** `float(value)` when `asFloat`, else `int(value)`, for the numerical field `field`. */
  function Convert(p: Parsers, asFloat: bool, field: string, value: Option<string>): (r: Result<Number, FieldError>)
    ensures r.Success? <==>
      value.Some? && (if asFloat then p.toFloat(value.value).Some? else p.toInt(value.value).Some?)
    ensures r.Success? ==>
      r.value == if asFloat then Float(p.toFloat(value.value).value) else Int(p.toInt(value.value).value)
    ensures r.Failure? ==>
      r.error == FieldError(field, if value.None? then Missing else Malformed(value.value))
  {
    match value
    case None => Failure(FieldError(field, Missing))
    case Some(s) =>
      if asFloat then
        (match p.toFloat(s)
         case Some(x) => Success(Float(x))
         case None => Failure(FieldError(field, Malformed(s))))
      else
        (match p.toInt(s)
         case Some(n) => Success(Int(n))
         case None => Failure(FieldError(field, Malformed(s))))
  }

  /** A binary flag: 1 exactly when the field was submitted with the sentinel. */
  function Flag(value: Option<string>, sentinel: string): (n: int)
    ensures n == 0 || n == 1
    ensures n == 1 <==> value == Some(sentinel)
  {
    if value == Some(sentinel) then 1 else 0
  }

  /** The list comprehension of one one-hot block: slot j is 1 exactly when the
      submitted value equals `categories[j]`, compared as strings, and 0
      otherwise; an absent value matches nothing. */
  function OneHot(selected: Option<string>, categories: seq<string>): (v: seq<Number>)
    ensures |v| == |categories|
  {
    seq(|categories|, j requires 0 <= j < |categories| => Int(if selected == Some(categories[j]) then 1 else 0))
  }

  /** `dict.get(key, default)` on a dictionary given by its entries in insertion order. */
  function DictGet(entries: seq<(string, int)>, key: Option<string>, default: int): (r: int)
    ensures key.Some? && (exists i :: 0 <= i < |entries| && entries[i].0 == key.value)
            ==> exists i :: 0 <= i < |entries| && entries[i] == (key.value, r)
    ensures (key.None? || forall i :: 0 <= i < |entries| ==> entries[i].0 != key.value) ==> r == default
  {
    if entries == [] then default
    else if key == Some(entries[0].0) then entries[0].1
    else DictGet(entries[1..], key, default)
  }

  /** The ordinal slot: the `SEG_VALUE_NAME` table entry, or 0. `SegValueTable`
      is the dictionary `FeatureMapping` holds under `OrdinalFeature`
      (`FeatureSchema.OrdinalTableInMapping`). */
  function Ordinal(value: Option<string>): (r: int)
    ensures 0 <= r <= 3
    ensures r == 0 <==> value !in {Some("Value"), Some("Mainstream"), Some("Upscale")}
  {
    DictGet(SegValueTable, value, 0)
  }

  /**
   * The encoding, stated block by block in the order the regressor expects:
   * the numerical slots, two flags, the five one-hot blocks and the ordinal slot.
   */
  function Encoded(form: Form, p: Parsers): (r: Result<seq<Number>, FieldError>)
    ensures r.Success? <==> Numbers(form, p).Success?
    ensures r.Failure? ==> r.error == Numbers(form, p).error
    ensures r.Success? ==> |r.value| == ExpectedFeatures && r.value[..4] == Numbers(form, p).value
  {
    var numbers :- Numbers(form, p);
    Success(numbers + Flags(form) + Blocks(form) + [Int(Ordinal(Get(form, OrdinalFeature)))])
  }

  /** The four numerical slots; the first field, in schema order, that fails aborts. */
  function Numbers(form: Form, p: Parsers): (r: Result<seq<Number>, FieldError>)
    ensures r.Success? <==> forall k :: 0 <= k < 4 ==> NumericSlot(form, p, k).Success?
    ensures r.Success? ==>
      |r.value| == 4 && forall k :: 0 <= k < 4 ==> r.value[k] == NumericSlot(form, p, k).value
    ensures r.Failure? ==>
      exists k :: 0 <= k < 4 && NumericSlot(form, p, k) == Failure(r.error)
        && forall j :: 0 <= j < k ==> NumericSlot(form, p, j).Success?
  {
    NumericSlotsInEncoded(form, p);
    var basePrice :- Convert(p, true, "BASE_PRICE", Get(form, "BASE_PRICE"));
    var productSize :- Convert(p, true, "PRODUCT_SIZE", Get(form, "PRODUCT_SIZE"));
    var salesArea :- Convert(p, false, "SALES_AREA_SIZE_NUM", Get(form, "SALES_AREA_SIZE_NUM"));
    var baskets :- Convert(p, false, "AVG_WEEKLY_BASKETS", Get(form, "AVG_WEEKLY_BASKETS"));
    Success([basePrice, productSize, salesArea, baskets])
  }

  /** The two binary slots. */
  function Flags(form: Form): (v: seq<Number>)
    ensures |v| == 2
    ensures v[0] == Int(1) <==> FeatureField in form && form[FeatureField] == FeatureSentinel
    ensures v[1] == Int(1) <==> DisplayField in form && form[DisplayField] == DisplaySentinel
    ensures (v[0] == Int(0) || v[0] == Int(1)) && (v[1] == Int(0) || v[1] == Int(1))
  {
    [Int(Flag(Get(form, FeatureField), FeatureSentinel)), Int(Flag(Get(form, DisplayField), DisplaySentinel))]
  }

  /** The five one-hot blocks, in the order the regressor expects. */
  function Blocks(form: Form): (v: seq<Number>)
    ensures |v| == |Manufacturers| + |Categories| + |SubCategories| + |ProvinceCodes| + |MsaCodes| == 33
  {
    OneHot(Get(form, "Manufacturer"), Manufacturers)
    + OneHot(Get(form, "Category"), Categories)
    + OneHot(Get(form, "Sub_Category"), SubCategories)
    + OneHot(Get(form, "Province_Code"), ProvinceCodes)
    + OneHot(Get(form, "MSA_CODE"), MsaCodes)
  }

  /** The block one `FEATURE_MAPPING` entry contributes: none for the ordinal entry. */
  ghost function ItemBlock(form: Form, item: (string, Table)): seq<Number>
  {
    if item.0 == OrdinalFeature then [] else OneHot(Get(form, item.0), Iterated(item.1))
  }

  /** What the one-hot loop has appended after visiting `items`. */
  ghost function OneHotBlocks(form: Form, items: seq<(string, Table)>): seq<Number>
  {
    if items == [] then []
    else OneHotBlocks(form, items[..|items| - 1]) + ItemBlock(form, items[|items| - 1])
  }

  /** Visiting one more item appends that item's block, unless it is the ordinal one. */
  lemma OneHotBlocksStep(form: Form, items: seq<(string, Table)>, i: nat)
    requires i < |items|
    ensures OneHotBlocks(form, items[..i + 1]) == OneHotBlocks(form, items[..i]) + ItemBlock(form, items[i])
  {
    assert items[..i + 1][..i] == items[..i];
  }

  /** The blocks appended for a six-entry mapping whose last entry is the ordinal one. */
  lemma SixEntryBlocks(form: Form, m: seq<(string, Table)>)
    requires |m| == 6 && m[5].0 == OrdinalFeature
    requires forall i :: 0 <= i < 5 ==> m[i].0 != OrdinalFeature
    ensures OneHotBlocks(form, m) ==
              OneHot(Get(form, m[0].0), Iterated(m[0].1))
            + OneHot(Get(form, m[1].0), Iterated(m[1].1))
            + OneHot(Get(form, m[2].0), Iterated(m[2].1))
            + OneHot(Get(form, m[3].0), Iterated(m[3].1))
            + OneHot(Get(form, m[4].0), Iterated(m[4].1))
  {
    var b0, b1, b2 := ItemBlock(form, m[0]), ItemBlock(form, m[1]), ItemBlock(form, m[2]);
    var b3, b4 := ItemBlock(form, m[3]), ItemBlock(form, m[4]);
    assert m[..0] == [];
    OneHotBlocksStep(form, m, 0);
    assert OneHotBlocks(form, m[..1]) == b0 by { assert [] + b0 == b0; }
    OneHotBlocksStep(form, m, 1);
    OneHotBlocksStep(form, m, 2);
    OneHotBlocksStep(form, m, 3);
    OneHotBlocksStep(form, m, 4);
    assert OneHotBlocks(form, m[..5]) == b0 + b1 + b2 + b3 + b4;
    OneHotBlocksStep(form, m, 5);
    assert m[..6] == m;
    assert ItemBlock(form, m[5]) == [];
    assert OneHotBlocks(form, m) == b0 + b1 + b2 + b3 + b4 + [];
    assert b0 + b1 + b2 + b3 + b4 + [] == b0 + b1 + b2 + b3 + b4;
  }

  /** The loop over `FEATURE_MAPPING` appends the five blocks in insertion order. */
  lemma FeatureMappingBlocks(form: Form)
    ensures OneHotBlocks(form, FeatureMapping) == Blocks(form)
  {
    SixEntryBlocks(form, FeatureMapping);
  }

  lemma WholePrefix<T>(s: seq<T>)
    ensures s[..|s|] == s
  {
  }

  /** The numerical slot `k` of the loop over `NumericalFeatures`. */
  function NumericSlot(form: Form, p: Parsers, k: nat): (r: Result<Number, FieldError>)
    requires k < |NumericalFeatures|
    ensures var f := NumericalFeatures[k];
      r.Success? <==> f in form && (if k < 2 then p.toFloat(form[f]).Some? else p.toInt(form[f]).Some?)
    ensures r.Success? ==> (r.value.Float? <==> k < 2)
    ensures r.Failure? ==> r.error.field == NumericalFeatures[k]
    ensures var f := NumericalFeatures[k];
      r.Success? ==> r.value == if k < 2 then Float(p.toFloat(form[f]).value) else Int(p.toInt(form[f]).value)
    ensures var f := NumericalFeatures[k];
      r.Failure? ==> r.error.problem == if f in form then Malformed(form[f]) else Missing
  {
    var feature := NumericalFeatures[k];
    Convert(p, feature in FloatFeatures, feature, Get(form, feature))
  }

  /** The loop's numerical slots are the four conversions `Encoded` chains. */
  lemma NumericSlotsInEncoded(form: Form, p: Parsers)
    ensures NumericSlot(form, p, 0) == Convert(p, true, "BASE_PRICE", Get(form, "BASE_PRICE"))
    ensures NumericSlot(form, p, 1) == Convert(p, true, "PRODUCT_SIZE", Get(form, "PRODUCT_SIZE"))
    ensures NumericSlot(form, p, 2) == Convert(p, false, "SALES_AREA_SIZE_NUM", Get(form, "SALES_AREA_SIZE_NUM"))
    ensures NumericSlot(form, p, 3) == Convert(p, false, "AVG_WEEKLY_BASKETS", Get(form, "AVG_WEEKLY_BASKETS"))
  {
    assert "BASE_PRICE" == FloatFeatures[0] && "PRODUCT_SIZE" == FloatFeatures[1];
    assert "SALES_AREA_SIZE_NUM" !in FloatFeatures;
    assert "AVG_WEEKLY_BASKETS" !in FloatFeatures;
  }

  /**
   * `get_encoded_features`: grows the vector step by step as the source does,
   * stopping at the first numerical field that is missing or does not parse,
   * and yields the block-by-block encoding.
   */
  method GetEncodedFeatures(form: Form, p: Parsers) returns (r: Result<seq<Number>, FieldError>)
    ensures r == Encoded(form, p)
    ensures r.Success? ==> |r.value| == ExpectedFeatures
  {
    var temp: seq<Number> := [];
    for i := 0 to |NumericalFeatures|
      invariant |temp| == i
      invariant forall k :: 0 <= k < i ==> NumericSlot(form, p, k) == Success(temp[k])
    {
      var feature := NumericalFeatures[i];
      var value := Get(form, feature);
      var converted := Convert(p, feature in FloatFeatures, feature, value);
      if converted.Failure? {
        NumericSlotsInEncoded(form, p);
        return Failure(converted.error);
      }
      temp := temp + [converted.value];
    }
    NumericSlotsInEncoded(form, p);
    ghost var numeric := temp;
    assert numeric == [NumericSlot(form, p, 0).value, NumericSlot(form, p, 1).value,
                       NumericSlot(form, p, 2).value, NumericSlot(form, p, 3).value];
    temp := temp + [Int(Flag(Get(form, FeatureField), FeatureSentinel))];
    temp := temp + [Int(Flag(Get(form, DisplayField), DisplaySentinel))];
    assert temp == numeric + Flags(form);
    ghost var head := temp;
    for i := 0 to |FeatureMapping|
      invariant temp == head + OneHotBlocks(form, FeatureMapping[..i])
    {
      var (featureName, categories) := FeatureMapping[i];
      OneHotBlocksStep(form, FeatureMapping, i);
      if featureName == OrdinalFeature {
        continue;
      }
      var selectedCategory := Get(form, featureName);
      temp := temp + OneHot(selectedCategory, Iterated(categories));
    }
    WholePrefix(FeatureMapping);
    FeatureMappingBlocks(form);
    var segValue := Get(form, OrdinalFeature);
    temp := temp + [Int(DictGet(SegValueTable, segValue, 0))];
    return Success(temp);
  }
}
