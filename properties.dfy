/**
 * What the encoding promises: the numerical fields decide success, every
 * block sits at a fixed offset of a 40-slot vector, each one-hot block holds
 * at most one 1, and the flags and the ordinal slot follow their sentinel
 * rules. The encoding looks at nothing but the schema's fields.
 */
module EncoderProperties {
  import opened Wrappers
  import opened FeatureSchema
  import opened FeatureEncoder

  /** All four numerical fields are present and accepted by their conversion. */
  predicate NumericFieldsValid(form: Form, p: Parsers)
  {
    && "BASE_PRICE" in form && p.toFloat(form["BASE_PRICE"]).Some?
    && "PRODUCT_SIZE" in form && p.toFloat(form["PRODUCT_SIZE"]).Some?
    && "SALES_AREA_SIZE_NUM" in form && p.toInt(form["SALES_AREA_SIZE_NUM"]).Some?
    && "AVG_WEEKLY_BASKETS" in form && p.toInt(form["AVG_WEEKLY_BASKETS"]).Some?
  }

  /** The encoding succeeds exactly when the numerical fields are valid, and
      then has exactly `ExpectedFeatures` slots. */
  lemma EncodeSucceedsIff(form: Form, p: Parsers)
    ensures Encoded(form, p).Success? <==> NumericFieldsValid(form, p)
    ensures Encoded(form, p).Success? ==> |Encoded(form, p).value| == ExpectedFeatures
  {
  }

  /** A failure names the first numerical field, in schema order, that is
      missing or does not parse, and says which of the two it is. */
  lemma EncodeFailureNamesFirstBadField(form: Form, p: Parsers)
    requires Encoded(form, p).Failure?
    ensures var e := Encoded(form, p).error;
      exists k :: 0 <= k < |NumericalFeatures| && e.field == NumericalFeatures[k]
        && NumericSlot(form, p, k).Failure?
        && (forall j :: 0 <= j < k ==> NumericSlot(form, p, j).Success?)
    ensures var e := Encoded(form, p).error;
      && (e.problem == Missing <==> e.field !in form)
      && (e.problem.Malformed? ==> e.field in form && e.problem.text == form[e.field])
  {
    NumericSlotsInEncoded(form, p);
    var e := Encoded(form, p).error;
    if NumericSlot(form, p, 0).Failure? {
      assert e.field == NumericalFeatures[0];
    } else if NumericSlot(form, p, 1).Failure? {
      assert e.field == NumericalFeatures[1];
    } else if NumericSlot(form, p, 2).Failure? {
      assert e.field == NumericalFeatures[2];
    } else {
      assert e.field == NumericalFeatures[3];
    }
  }

  /** A form without `BASE_PRICE` produces no vector. */
  lemma MissingBasePriceFails(form: Form, p: Parsers)
    requires "BASE_PRICE" !in form
    ensures Encoded(form, p) == Failure(FieldError("BASE_PRICE", Missing))
  {
  }

  /** A four-part concatenation, taken apart again. */
  lemma {:induction false} PartsOfFour<T>(a: seq<T>, b: seq<T>, c: seq<T>, d: seq<T>)
    ensures var s := a + b + c + d;
      && s[..|a|] == a && s[|a|..|a| + |b|] == b
      && s[|a| + |b|..|a| + |b| + |c|] == c && s[|a| + |b| + |c|..] == d
  {
    var s := a + b + c + d;
    assert s[..|a|] == a;
    assert s[|a|..|a| + |b|] == b;
    assert s[|a| + |b|..|a| + |b| + |c|] == c;
    assert s[|a| + |b| + |c|..] == d;
  }

  /** A successful encoding is the four numbers, the flags, the blocks and the
      ordinal slot, at offsets 0, 4, 6 and 39. */
  lemma EncodedShape(form: Form, p: Parsers)
    requires Encoded(form, p).Success?
    ensures var v := Encoded(form, p).value;
      && |v| == ExpectedFeatures
      && v[4..6] == Flags(form) && v[6..39] == Blocks(form)
      && v[39] == Int(Ordinal(Get(form, OrdinalFeature)))
  {
    var nums := Numbers(form, p).value;
    PartsOfFour(nums, Flags(form), Blocks(form), [Int(Ordinal(Get(form, OrdinalFeature)))]);
  }

  /** Slots 0..3: the two floats and the two ints, in schema order. */
  lemma NumericSlots(form: Form, p: Parsers)
    requires NumericFieldsValid(form, p)
    ensures Encoded(form, p).Success?
    ensures Encoded(form, p).value[..4] ==
      [Float(p.toFloat(form["BASE_PRICE"]).value), Float(p.toFloat(form["PRODUCT_SIZE"]).value),
       Int(p.toInt(form["SALES_AREA_SIZE_NUM"]).value), Int(p.toInt(form["AVG_WEEKLY_BASKETS"]).value)]
  {
    var nums := [Float(p.toFloat(form["BASE_PRICE"]).value), Float(p.toFloat(form["PRODUCT_SIZE"]).value),
       Int(p.toInt(form["SALES_AREA_SIZE_NUM"]).value), Int(p.toInt(form["AVG_WEEKLY_BASKETS"]).value)];
    assert Encoded(form, p).value == nums + Flags(form) + Blocks(form) + [Int(Ordinal(Get(form, OrdinalFeature)))];
    PartsOfFour(nums, Flags(form), Blocks(form), [Int(Ordinal(Get(form, OrdinalFeature)))]);
  }

  /** Slots 4 and 5 are 1 exactly when the field was submitted with its
      sentinel, 0 otherwise (absent field included). */
  lemma FlagSlots(form: Form, p: Parsers)
    requires Encoded(form, p).Success?
    ensures var v := Encoded(form, p).value;
      && v[4] == (if FeatureField in form && form[FeatureField] == "ON_Feature" then Int(1) else Int(0))
      && v[5] == (if DisplayField in form && form[DisplayField] == "ON_Display" then Int(1) else Int(0))
  {
    EncodedShape(form, p);
    var v := Encoded(form, p).value;
    assert v[4] == v[4..6][0] && v[5] == v[4..6][1];
  }

  const ManufacturerOffset := 6
  const CategoryOffset := 15
  const SubCategoryOffset := 19
  const ProvinceCodeOffset := 26
  const MsaCodeOffset := 30
  const OrdinalOffset := 39

  /** The five one-hot blocks occupy 6..14, 15..18, 19..25, 26..29 and 30..38. */
  lemma BlockOffsets(form: Form, p: Parsers)
    requires Encoded(form, p).Success?
    ensures var v := Encoded(form, p).value;
      && v[ManufacturerOffset..CategoryOffset] == OneHot(Get(form, "Manufacturer"), Manufacturers)
      && v[CategoryOffset..SubCategoryOffset] == OneHot(Get(form, "Category"), Categories)
      && v[SubCategoryOffset..ProvinceCodeOffset] == OneHot(Get(form, "Sub_Category"), SubCategories)
      && v[ProvinceCodeOffset..MsaCodeOffset] == OneHot(Get(form, "Province_Code"), ProvinceCodes)
      && v[MsaCodeOffset..OrdinalOffset] == OneHot(Get(form, "MSA_CODE"), MsaCodes)
  {
    EncodedShape(form, p);
    BlocksAt(form, Encoded(form, p).value);
  }

  /** Any 40-slot vector holding `Blocks(form)` at 6..38 holds each block at its offset. */
  lemma BlocksAt(form: Form, v: seq<Number>)
    requires |v| == ExpectedFeatures && v[6..39] == Blocks(form)
    ensures v[ManufacturerOffset..CategoryOffset] == OneHot(Get(form, "Manufacturer"), Manufacturers)
    ensures v[CategoryOffset..SubCategoryOffset] == OneHot(Get(form, "Category"), Categories)
    ensures v[SubCategoryOffset..ProvinceCodeOffset] == OneHot(Get(form, "Sub_Category"), SubCategories)
    ensures v[ProvinceCodeOffset..MsaCodeOffset] == OneHot(Get(form, "Province_Code"), ProvinceCodes)
    ensures v[MsaCodeOffset..OrdinalOffset] == OneHot(Get(form, "MSA_CODE"), MsaCodes)
  {
    FiveBlocksAt(v, OneHot(Get(form, "Manufacturer"), Manufacturers), OneHot(Get(form, "Category"), Categories),
                 OneHot(Get(form, "Sub_Category"), SubCategories), OneHot(Get(form, "Province_Code"), ProvinceCodes),
                 OneHot(Get(form, "MSA_CODE"), MsaCodes));
  }

  lemma FiveBlocksAt<T>(v: seq<T>, b0: seq<T>, b1: seq<T>, b2: seq<T>, b3: seq<T>, b4: seq<T>)
    requires |v| == 40 && |b0| == 9 && |b1| == 4 && |b2| == 7 && |b3| == 4 && |b4| == 9
    requires v[6..39] == b0 + b1 + b2 + b3 + b4
    ensures v[6..15] == b0 && v[15..19] == b1 && v[19..26] == b2 && v[26..30] == b3 && v[30..39] == b4
  {
    PartsOfFive(b0, b1, b2, b3, b4);
    SliceOfSlice(v, 6, 39, 0, 9);
    SliceOfSlice(v, 6, 39, 9, 13);
    SliceOfSlice(v, 6, 39, 13, 20);
    SliceOfSlice(v, 6, 39, 20, 24);
    SliceOfSlice(v, 6, 39, 24, 33);
  }

  /** A five-part concatenation, taken apart again. */
  lemma PartsOfFive<T>(a: seq<T>, b: seq<T>, c: seq<T>, d: seq<T>, e: seq<T>)
    ensures var s := a + b + c + d + e;
      && s[..|a|] == a && s[|a|..|a| + |b|] == b
      && s[|a| + |b|..|a| + |b| + |c|] == c
      && s[|a| + |b| + |c|..|a| + |b| + |c| + |d|] == d
      && s[|a| + |b| + |c| + |d|..] == e
  {
    PartsOfFour(a + b, c, d, e);
    PartsOfFour(a, b, [], []);
    assert (a + b + c + d + e)[..|a|] == (a + b)[..|a|];
    assert (a + b + c + d + e)[|a|..|a| + |b|] == (a + b)[|a|..];
  }

  lemma SliceOfSlice<T>(s: seq<T>, lo: nat, hi: nat, i: nat, j: nat)
    requires lo <= hi <= |s| && i <= j <= hi - lo
    ensures s[lo..hi][i..j] == s[lo + i..lo + j]
  {
    forall k | 0 <= k < j - i
      ensures s[lo..hi][i..j][k] == s[lo + i..lo + j][k]
    {
    }
  }

  /** Number of slots holding the integer 1. */
  function CountOnes(v: seq<Number>): nat
  {
    if v == [] then 0 else (if v[0] == Int(1) then 1 else 0) + CountOnes(v[1..])
  }

  /** A block over a duplicate-free category list is all 0s and 1s, and holds
      one 1 when the submitted value is a category, none otherwise. */
  lemma {:induction false} OneHotCount(selected: Option<string>, categories: seq<string>)
    requires NoDuplicates(categories)
    ensures forall j :: 0 <= j < |categories| ==>
      OneHot(selected, categories)[j] == Int(0) || OneHot(selected, categories)[j] == Int(1)
    ensures CountOnes(OneHot(selected, categories)) ==
      if selected.Some? && selected.value in categories then 1 else 0
  {
    if categories != [] {
      var v := OneHot(selected, categories);
      OneHotCount(selected, categories[1..]);
      assert v[1..] == OneHot(selected, categories[1..]);
      if selected == Some(categories[0]) {
        assert selected.value !in categories[1..];
      }
    }
  }

  /** `block` is the one-hot encoding of `selected` over `categories`: one 0/1
      slot per category, 1 exactly at the submitted category, and as many 1s
      as the submitted value has matches (one or none). */
  ghost predicate IsOneHotOf(block: seq<Number>, selected: Option<string>, categories: seq<string>)
  {
    && |block| == |categories|
    && (forall j :: 0 <= j < |block| ==> block[j] == Int(0) || block[j] == Int(1))
    && (forall j :: 0 <= j < |block| ==> (block[j] == Int(1) <==> selected == Some(categories[j])))
    && CountOnes(block) == if selected.Some? && selected.value in categories then 1 else 0
  }

  lemma OneHotIsOneHotOf(selected: Option<string>, categories: seq<string>)
    requires NoDuplicates(categories)
    ensures IsOneHotOf(OneHot(selected, categories), selected, categories)
  {
    OneHotCount(selected, categories);
  }

  /** Every block of a successful encoding holds at most one 1: exactly one
      when the submitted value is one of its categories, none when it is
      unknown or absent. */
  lemma EncodedBlocksAreOneHot(form: Form, p: Parsers)
    requires Encoded(form, p).Success?
    ensures var v := Encoded(form, p).value;
      && IsOneHotOf(v[ManufacturerOffset..CategoryOffset], Get(form, "Manufacturer"), Manufacturers)
      && IsOneHotOf(v[CategoryOffset..SubCategoryOffset], Get(form, "Category"), Categories)
      && IsOneHotOf(v[SubCategoryOffset..ProvinceCodeOffset], Get(form, "Sub_Category"), SubCategories)
      && IsOneHotOf(v[ProvinceCodeOffset..MsaCodeOffset], Get(form, "Province_Code"), ProvinceCodes)
      && IsOneHotOf(v[MsaCodeOffset..OrdinalOffset], Get(form, "MSA_CODE"), MsaCodes)
  {
    BlockOffsets(form, p);
    CategoryListsHaveNoDuplicates();
    OneHotIsOneHotOf(Get(form, "Manufacturer"), Manufacturers);
    OneHotIsOneHotOf(Get(form, "Category"), Categories);
    OneHotIsOneHotOf(Get(form, "Sub_Category"), SubCategories);
    OneHotIsOneHotOf(Get(form, "Province_Code"), ProvinceCodes);
    OneHotIsOneHotOf(Get(form, "MSA_CODE"), MsaCodes);
  }

  /** The ordinal table: `Value`, `Mainstream`, `Upscale` rank 1, 2, 3 and
      anything else, absence included, ranks 0. */
  lemma OrdinalRanks(value: Option<string>)
    ensures Ordinal(value) ==
      if value == Some("Value") then 1
      else if value == Some("Mainstream") then 2
      else if value == Some("Upscale") then 3
      else 0
    ensures 0 <= Ordinal(value) <= 3
  {
  }

  /** The last slot is the rank of `SEG_VALUE_NAME`, always in 0..3. */
  lemma OrdinalSlot(form: Form, p: Parsers)
    requires Encoded(form, p).Success?
    ensures var v := Encoded(form, p).value; var seg := Get(form, OrdinalFeature);
      && v[OrdinalOffset] == Int(if seg == Some("Value") then 1
                                 else if seg == Some("Mainstream") then 2
                                 else if seg == Some("Upscale") then 3
                                 else 0)
      && v[OrdinalOffset].n in {0, 1, 2, 3}
  {
    EncodedShape(form, p);
    OrdinalRanks(Get(form, OrdinalFeature));
  }

  /** Forms that agree on the schema's fields encode alike: the encoder reads
      nothing else. */
  lemma EncodedReadsOnlySchemaFields(form1: Form, form2: Form, p: Parsers)
    requires forall k :: k in SchemaFields ==> Get(form1, k) == Get(form2, k)
    ensures Encoded(form1, p) == Encoded(form2, p)
  {
    var f := SchemaFields;
    assert f[0] == "BASE_PRICE" && f[1] == "PRODUCT_SIZE" && f[2] == "SALES_AREA_SIZE_NUM";
    assert f[3] == "AVG_WEEKLY_BASKETS" && f[4] == FeatureField && f[5] == DisplayField;
    assert f[6] == "Manufacturer" && f[7] == "Category" && f[8] == "Sub_Category";
    assert f[9] == "Province_Code" && f[10] == "MSA_CODE" && f[11] == OrdinalFeature;
    SameFieldsSameParts(form1, form2, p);
  }

  lemma SameFieldsSameParts(form1: Form, form2: Form, p: Parsers)
    requires Get(form1, "BASE_PRICE") == Get(form2, "BASE_PRICE")
    requires Get(form1, "PRODUCT_SIZE") == Get(form2, "PRODUCT_SIZE")
    requires Get(form1, "SALES_AREA_SIZE_NUM") == Get(form2, "SALES_AREA_SIZE_NUM")
    requires Get(form1, "AVG_WEEKLY_BASKETS") == Get(form2, "AVG_WEEKLY_BASKETS")
    requires Get(form1, FeatureField) == Get(form2, FeatureField)
    requires Get(form1, DisplayField) == Get(form2, DisplayField)
    requires Get(form1, "Manufacturer") == Get(form2, "Manufacturer")
    requires Get(form1, "Category") == Get(form2, "Category")
    requires Get(form1, "Sub_Category") == Get(form2, "Sub_Category")
    requires Get(form1, "Province_Code") == Get(form2, "Province_Code")
    requires Get(form1, "MSA_CODE") == Get(form2, "MSA_CODE")
    requires Get(form1, OrdinalFeature) == Get(form2, OrdinalFeature)
    ensures Encoded(form1, p) == Encoded(form2, p)
  {
    assert Numbers(form1, p) == Numbers(form2, p);
    assert Flags(form1) == Flags(form2);
    assert Blocks(form1) == Blocks(form2);
  }

  /** A block of `n` slots with its single 1 at `k`. */
  function UnitBlock(n: nat, k: nat): (v: seq<Number>)
    requires k < n
    ensures |v| == n
  {
    seq(n, j requires 0 <= j < n => Int(if j == k then 1 else 0))
  }

  /** A block over a duplicate-free list, for a value at index `k`, is the unit block at `k`. */
  lemma OneHotOfMember(selected: Option<string>, categories: seq<string>, k: nat)
    requires NoDuplicates(categories) && k < |categories| && selected == Some(categories[k])
    ensures OneHot(selected, categories) == UnitBlock(|categories|, k)
  {
  }

  const ExampleForm: Form := map[
    "BASE_PRICE" := "2.5", "PRODUCT_SIZE" := "12.0", "SALES_AREA_SIZE_NUM" := "36000",
    "AVG_WEEKLY_BASKETS" := "5000", "FEATURE" := "ON_Feature", "DISPLAY" := "NO_Display",
    "Manufacturer" := "Kellogg", "Category" := "Cold Cereal", "Sub_Category" := "Adult Cereal",
    "Province_Code" := "OH(Ohio)", "MSA_CODE" := "17140", "SEG_VALUE_NAME" := "Mainstream"]

  lemma ExampleBlocks(form: Form)
    requires Get(form, "Manufacturer") == Some("Kellogg") && Get(form, "Category") == Some("Cold Cereal")
    requires Get(form, "Sub_Category") == Some("Adult Cereal") && Get(form, "Province_Code") == Some("OH(Ohio)")
    requires Get(form, "MSA_CODE") == Some("17140")
    ensures Blocks(form) ==
      UnitBlock(9, 4) + UnitBlock(4, 2) + UnitBlock(7, 3) + UnitBlock(4, 2) + UnitBlock(9, 0)
  {
    CategoryListsHaveNoDuplicates();
    OneHotOfMember(Get(form, "Manufacturer"), Manufacturers, 4);
    OneHotOfMember(Get(form, "Category"), Categories, 2);
    OneHotOfMember(Get(form, "Sub_Category"), SubCategories, 3);
    OneHotOfMember(Get(form, "Province_Code"), ProvinceCodes, 2);
    OneHotOfMember(Get(form, "MSA_CODE"), MsaCodes, 0);
  }

  lemma ExampleFormFields()
    ensures Get(ExampleForm, "BASE_PRICE") == Some("2.5") && Get(ExampleForm, "PRODUCT_SIZE") == Some("12.0")
    ensures Get(ExampleForm, "SALES_AREA_SIZE_NUM") == Some("36000")
    ensures Get(ExampleForm, "AVG_WEEKLY_BASKETS") == Some("5000")
    ensures Get(ExampleForm, FeatureField) == Some("ON_Feature") && Get(ExampleForm, DisplayField) == Some("NO_Display")
    ensures Get(ExampleForm, "Manufacturer") == Some("Kellogg") && Get(ExampleForm, "Category") == Some("Cold Cereal")
    ensures Get(ExampleForm, "Sub_Category") == Some("Adult Cereal")
    ensures Get(ExampleForm, "Province_Code") == Some("OH(Ohio)")
    ensures Get(ExampleForm, "MSA_CODE") == Some("17140") && Get(ExampleForm, OrdinalFeature) == Some("Mainstream")
  {
  }

  lemma ExampleScalars(form: Form, p: Parsers)
    requires p.toFloat("2.5") == Some(2.5) && p.toFloat("12.0") == Some(12.0)
    requires p.toInt("36000") == Some(36000) && p.toInt("5000") == Some(5000)
    requires Get(form, "BASE_PRICE") == Some("2.5") && Get(form, "PRODUCT_SIZE") == Some("12.0")
    requires Get(form, "SALES_AREA_SIZE_NUM") == Some("36000") && Get(form, "AVG_WEEKLY_BASKETS") == Some("5000")
    requires Get(form, FeatureField) == Some("ON_Feature") && Get(form, DisplayField) == Some("NO_Display")
    requires Get(form, OrdinalFeature) == Some("Mainstream")
    ensures Numbers(form, p) == Success([Float(2.5), Float(12.0), Int(36000), Int(5000)])
    ensures Flags(form) == [Int(1), Int(0)]
    ensures Ordinal(Get(form, OrdinalFeature)) == 2
  {
    OrdinalRanks(Get(form, OrdinalFeature));
  }

  /** A complete form: the conversions' results, the feature flag on, the
      display flag off, one category matched in every block, rank 2. */
  lemma ExampleEncoding(p: Parsers)
    requires p.toFloat("2.5") == Some(2.5) && p.toFloat("12.0") == Some(12.0)
    requires p.toInt("36000") == Some(36000) && p.toInt("5000") == Some(5000)
    ensures Encoded(ExampleForm, p) == Success(
      [Float(2.5), Float(12.0), Int(36000), Int(5000)] + [Int(1), Int(0)]
      + (UnitBlock(9, 4) + UnitBlock(4, 2) + UnitBlock(7, 3) + UnitBlock(4, 2) + UnitBlock(9, 0))
      + [Int(2)])
  {
    ExampleFormFields();
    ExampleBlocks(ExampleForm);
    ExampleScalars(ExampleForm, p);
  }
}
