# Feature encoder of the demand-forecasting web front-end

This project models the one piece of logic in the Flask front-end of a
demand-forecasting service. The front-end reads product attributes from a form.
It encodes them into a 40-slot feature vector in the order a pre-trained
regressor expects, and asks the regressor for a prediction.

The model has four parts:

- `FeatureSchema` (`schema.dfy`): the constant tables. It holds the numerical
  field names, the two sentinel strings and `FEATURE_MAPPING`. That is a
  dictionary from field name to a category list, or, for `SEG_VALUE_NAME`, to
  a string-to-int table. Its entries are kept in insertion order, because the
  encoder iterates over them.
- `FeatureEncoder` (`encoder.dfy`): `get_encoded_features`.
  - `GetEncodedFeatures` is an imperative method that grows the vector as the
    source does. A loop converts the four numerical fields and stops at the
    first failure. Then come two flag appends. A loop over `FEATURE_MAPPING`
    skips the ordinal entry and appends the other blocks. Last comes the
    ordinal lookup.
  - The method is proved equal to `Encoded`, which states the encoding block
    by block: numbers, flags, the five one-hot blocks, the ordinal slot.
- `EncoderProperties` (`properties.dfy`): what the encoding promises.
  - The numerical fields decide success.
  - The length is 40, and each block sits at a fixed offset.
  - Each one-hot block holds at most one 1.
  - The flags and the ordinal slot follow their sentinel rules.
  - The encoding reads no field outside the schema.
  - One complete form is worked end to end.
- `PredictHandler` (`predict.dfy`): the branching of the `/predict` handler.
  - The regressor is optional (absent when loading failed).
  - It is an opaque function whose domain is the 40-slot vectors. So it can be
    called only after the length guard has passed.
  - Its result is truncated toward zero, as Python's `int()` does.

The form is a `map<string, string>`, and `form_data.get` is `Get`, which
returns an `Option`. Python's `float()` and `int()` on strings are the two
functions of a `Parsers` value. `None` stands for the `ValueError` they raise.
A missing numerical field gives `FieldError(field, Missing)`, Python's
`TypeError` from `float(None)`. A rejected one gives `Malformed(text)`. Both
end in the handler's input-error branch.

The field named in a `FieldError`, and the `RegressorRejected` cause, are the
model's record of where the exception was raised. They are not text the
program shows. Python's message for `float(None)` or `int("x")` names no field,
and app.py:84 renders encoder and regressor errors with the same template.

The comment at app.py:38 speaks of "a default of 0". The code applies no
default: a missing numerical field raises, and no vector is produced. The
model follows the code.

## Model

| member | source | states |
|---|---|---|
| `FeatureSchema.CategoryListsHaveNoDuplicates` | app.py:20-24 | no category list names a category twice |
| `FeatureSchema.Iterated` | app.py:46 | iterating a `FEATURE_MAPPING` value yields a list's items, or a dictionary's keys in insertion order |
| `FeatureSchema.OrdinalTableInMapping` | app.py:19-26 | the mapping has six entries; the last is `SEG_VALUE_NAME` with the rank table, and the first five are category lists under other names |
| `FeatureEncoder.Get` | app.py:37 | `.get` yields a value exactly when the key was submitted, and then the submitted string |
| `FeatureEncoder.Convert` | app.py:39 | conversion succeeds iff the field is present and its conversion (`float` or `int`) accepts it; then the slot is that float or int; otherwise the error names the field and says missing or malformed (with the text) |
| `FeatureEncoder.Flag` | app.py:42-43 | a flag is 0 or 1, and 1 exactly when the value equals the sentinel |
| `FeatureEncoder.OneHot` | app.py:50-51 | a block has one slot per category |
| `FeatureEncoder.DictGet` | app.py:56 | a present key yields a value stored under it; a missing key or `None` yields the default |
| `FeatureEncoder.Ordinal` | app.py:55-56 | the rank looked up in `FEATURE_MAPPING['SEG_VALUE_NAME']` lies in 0..3, and is 0 exactly when the value is none of `Value`, `Mainstream`, `Upscale`; the exact ranks are stated by `EncoderProperties.OrdinalRanks` |
| `FeatureEncoder.NumericSlot` | app.py:36-39 | one pass of the numerical loop succeeds iff its field is present and accepted by `float` (first two fields) or `int` (last two); the appended slot is that float or int of the submitted text; a failure names the field and is Missing when it is absent, Malformed with the text otherwise |
| `FeatureEncoder.Numbers` | app.py:35-39 | the numerical part succeeds iff all four passes succeed, and then holds their four values in order; otherwise it fails with the error of the first failing pass, all earlier passes succeeding |
| `FeatureEncoder.Flags` | app.py:42-43 | two slots, each 0 or 1; the first is 1 iff `FEATURE` was submitted as `ON_Feature`, the second iff `DISPLAY` was submitted as `ON_Display` |
| `FeatureEncoder.Blocks` | app.py:19-24 | the five one-hot blocks together have 9+4+7+4+9 = 33 slots |
| `FeatureEncoder.FeatureMappingBlocks` | app.py:46-52 | iterating `FEATURE_MAPPING` in insertion order and skipping `SEG_VALUE_NAME` appends the Manufacturer, Category, Sub_Category, Province_Code and MSA_CODE blocks in that order |
| `FeatureEncoder.Encoded` | app.py:28-58 | the block-by-block encoding succeeds exactly when the numerical part does, fails with its error otherwise, and on success has 40 slots beginning with the four numbers; each slot's content is stated by the `EncoderProperties` rows below |
| `FeatureEncoder.GetEncodedFeatures` | app.py:28-58 | the step-by-step construction returns exactly the block-by-block encoding, error included, and a successful result has 40 slots |
| `EncoderProperties.EncodeSucceedsIff` | app.py:35-39 | the encoder produces a vector iff all four numerical fields are present and parse, and the vector then has 40 slots |
| `EncoderProperties.EncodeFailureNamesFirstBadField` | app.py:36-39 | a failure names the first numerical field, in schema order, that fails, all earlier ones succeed, and the error says missing exactly when the field is absent |
| `EncoderProperties.MissingBasePriceFails` | app.py:37-39 | a form without `BASE_PRICE` produces no vector, only the missing-field error |
| `EncoderProperties.EncodedShape` | app.py:32-58 | a vector has 40 slots: flags at 4..5, one-hot blocks at 6..38, ordinal at 39 |
| `EncoderProperties.NumericSlots` | app.py:35-39 | slots 0..3 are `float(BASE_PRICE)`, `float(PRODUCT_SIZE)`, `int(SALES_AREA_SIZE_NUM)`, `int(AVG_WEEKLY_BASKETS)` |
| `EncoderProperties.FlagSlots` | app.py:42-43 | slot 4 is 1 iff `FEATURE` was submitted as `ON_Feature`, slot 5 is 1 iff `DISPLAY` was submitted as `ON_Display`, else 0 (absence included) |
| `EncoderProperties.BlockOffsets` | app.py:46-52 | Manufacturer at 6..14, Category at 15..18, Sub_Category at 19..25, Province_Code at 26..29, MSA_CODE at 30..38 |
| `EncoderProperties.OneHotCount` | app.py:51 | over a duplicate-free list every slot is 0 or 1, and the number of 1s is 1 if the value is a category and 0 otherwise |
| `EncoderProperties.OneHotIsOneHotOf` | app.py:51 | slot j is 1 exactly when the submitted value equals category j, and the block has at most one 1 |
| `EncoderProperties.EncodedBlocksAreOneHot` | app.py:20-52 | each of the five blocks of a vector is the one-hot encoding of its field: one 1 for a listed value, all zeros for an unknown or absent one |
| `EncoderProperties.OrdinalRanks` | app.py:25 | `Value`, `Mainstream`, `Upscale` rank 1, 2, 3, and any other value or absence ranks 0, so the rank lies in 0..3 |
| `EncoderProperties.OrdinalSlot` | app.py:55-56 | slot 39 is the rank of `SEG_VALUE_NAME` and lies in {0, 1, 2, 3} |
| `EncoderProperties.EncodedReadsOnlySchemaFields` | app.py:28-58 | two forms that agree on the twelve schema fields encode identically |
| `EncoderProperties.ExampleEncoding` | app.py:28-58 | the Kellogg / Cold Cereal / Adult Cereal / OH / 17140 / Mainstream form with feature on and display off encodes to the expected 40-slot vector |
| `PredictHandler.TruncateToInt` | app.py:79 | `int()` of a prediction truncates toward zero: below x by less than 1 when x >= 0, above x by less than 1 when x < 0 |
| `PredictHandler.Respond` | app.py:78-86 | a returned prediction becomes its truncation; a `ValueError`/`TypeError` from the regressor becomes the input error that blames the regressor call; any other exception becomes the unexpected-error response |
| `PredictHandler.Predict` | app.py:65-86 | without a regressor the answer is "model unavailable" and nothing else runs; an encoding error becomes an input error; otherwise the regressor is called on the 40-slot vector; the count-mismatch answer never occurs |

## Left out

- The Flask application, its routes and template rendering (app.py:1, 6, 60-62, 88-90) are HTTP plumbing. The model returns a `Response` value instead of a rendered page.
- Loading the model with `pickle` and the `print`/`traceback` calls (app.py:8-16) are file I/O. A regressor that is present or absent is the only trace they leave.
- The regressor's internals and `np.array` are a foreign library. The regressor is a function parameter returning a value or an exception.
- Python's `float`/`int` grammars are not modelled; the parsers are parameters. Neither is IEEE-754 arithmetic: floats are `real`, so `int()` of `nan` or `inf` raising is not modelled.
- The text of the error messages (app.py:75, 84, 86) is left out. A closed set of responses stands in for it.
- A form field submitted several times is left out. `form_data.get` returns its first value; the form here is a map with one value per field.
- `FeatureEncoder.Blocks`: its contract states only the total length 33. What the five blocks hold, and where each sits, is stated about the assembled vector by `EncoderProperties.BlockOffsets` and `EncoderProperties.EncodedBlocksAreOneHot`.
- `FeatureEncoder.OneHot`: its contract states only the block length. What each slot holds is stated by `EncoderProperties.OneHotIsOneHotOf`.
