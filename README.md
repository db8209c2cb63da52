# House price estimator: the pricing and validation layer

This project models the deterministic part of the house price web service in
`app.py`. That part surrounds an opaque regression prediction. A submitted form
is validated in two steps. The first step finds the first missing required
field. The second checks the two numbers the model is fed. The regression
model's base prediction is then multiplied by a global market adjustment
(2.5), by three table factors (property type, locality, furnishing) and by a
feature multiplier built from bedrooms, bathrooms, floor, age and parking. The
price per square foot is the final price divided by the area, truncated
toward zero.

Modules:

- `FormData` holds the form (a map from field name to text), `Option` and
  the parse boundary. Python's `int()` and `float()` are
  parameters of type `string -> Option<_>`, where `None` is a raised
  `ValueError`.
- `Multipliers` holds the three tables, `Lookup` (`dict.get(key, 1.0)`), the
  five feature terms, the specification `FeatureMultiplier` and the
  imperative `CalculateFeatureMultipliers`. The method keeps a running product
  and returns early on a parse failure.
- `Validation` holds the required-field loop `CheckRequiredFields`, proved
  against the recursive `FirstMissing`, and the numeric check `ParsePrimary`.
- `Pricing` holds the whole request as the function `Respond` and the
  imperative `Predict`, with lemmas about errors, the price per square foot,
  monotonicity and unknown categories.

Python floats are exact `real`s here. The fitted scaler and linear model are
one parameter, `baseModel: (real, real) -> real`. It maps the accepted
`total_area` and `overallqual` to any base prediction at all.

Two points about the code that the model states explicitly:

- The price per square foot uses `int()`, which truncates toward zero rather
  than flooring. The two differ for a negative estimate, and a linear
  regression can predict one. `TruncateToInt` models truncation.
- The feature multiplier is not always positive. The code has no lower bound
  on bedrooms, bathrooms or parking, so enough negative bedrooms make the
  bedroom term negative. The floor and age terms are positive for every
  integer. Positivity and monotonicity are proved for non-negative bedroom,
  bathroom and parking counts (`NonNegativeCounts`), with any floor and age.

## Model

| member | source | states |
|---|---|---|
| `Multipliers.Lookup` | app.py:120-130 | a known key gives its table value, an unknown key gives 1.0, the lookup never fails, and a table whose entries are all at least 1.0 never yields less than 1.0 |
| `Multipliers.TablesAtLeastOne` | app.py:13-40 | every factor in the locality, property-type and furnishing tables is at least 1.0 |
| `Multipliers.UnknownAreaBelowEveryKnownArea` | app.py:13-24 | an unknown locality gets factor 1.0, and every listed locality gets at least 2.8 |
| `Multipliers.UnknownKeysActAsBaseEntries` | app.py:27-40 | an unknown property type gets the same factor as "apartment", and an unknown furnishing the same as "unfurnished" |
| `Multipliers.BedroomTerm` | app.py:51 | the bedroom term is neutral exactly at one bedroom and at least 0.85 for a non-negative count |
| `Multipliers.BathroomTerm` | app.py:55 | the bathroom term is neutral exactly at one bathroom and at least 0.9 for a non-negative count |
| `Multipliers.FloorTerm` | app.py:59-62 | the floor term is 1.0 for floor 0 or below, exactly 1.2 for every floor from 10 up, and always in [1.0, 1.2] |
| `Multipliers.AgeTerm` | app.py:65-67 | the age term is never below 0.7; it is 1.0 at age 0, in [0.7, 1.0] for any age of 0 or more, exactly 0.7 from 30 years up, and above 1.0 for a negative age |
| `Multipliers.ParkingTerm` | app.py:70-71 | the parking term is neutral exactly at zero spots and at least 1.0 for a non-negative count |
| `Multipliers.AgeFloorNeverBinds` | app.py:66-67 | the `max(..., 0.7)` never changes the value, because the 30-year cap already stops at 0.7 |
| `Multipliers.CalculateFeatureMultipliers` | app.py:45-78 | the running product with early exit equals `FeatureMultiplier`: the product of the five terms when all fields parse, and exactly 1.0 otherwise |
| `Multipliers.ParseFeaturesSucceedsIff` | app.py:49-76 | the five fields parse exactly when no present field holds text that `int()` rejects; an absent field takes its default |
| `Multipliers.ParseFailureGivesOne` | app.py:74-76 | one field that fails to parse makes the whole multiplier exactly 1.0, with no partial product kept |
| `Multipliers.ParsedGivesProduct` | app.py:47-78 | when every field parses, the multiplier is the product of the five terms of the parsed values |
| `Multipliers.NeutralFeatures` | app.py:47-72 | 1 bedroom, 1 bathroom, floor 0, age 0 and no parking give exactly 1.0 |
| `Multipliers.AbsentFieldsAreNeutral` | app.py:51-70 | the `form_data.get` defaults are the neutral values, so a form with none of the five fields gives exactly 1.0 |
| `Multipliers.FeatureProductPositive` | app.py:47-72 | with non-negative counts the multiplier is positive |
| `Multipliers.FeatureProductMonotone` | app.py:47-72 | with non-negative counts, more bedrooms, bathrooms, floors or parking never lower the multiplier, and more age never raises it |
| `Validation.FirstMissing` | app.py:91-97 | no field is reported exactly when every listed field is present and non-empty; a reported field is missing and no earlier field is |
| `Validation.FirstMissingDependsOnPresence` | app.py:94-95 | the check depends only on which fields are missing, not on what the filled-in fields hold |
| `Validation.CheckRequiredFields` | app.py:91-97 | the loop over `required_fields` returns the first missing field in list order, or nothing |
| `Validation.ParsePrimary` | app.py:100-107 | the two numbers are accepted exactly when both parse, `total_area` > 0 and `overallqual` is in [1, 10]; the accepted values are the parsed ones |
| `Pricing.TruncateToInt` | app.py:138 | Python `int()` on a float: the result lies within one of the value, on the side toward zero |
| `Pricing.ApplyMultipliers` | app.py:116-135 | the price after each in-place multiplication is the base prediction times 2.5 times the three table factors times the feature multiplier |
| `Pricing.Predict` | app.py:84-138 | the handler's answer equals `Respond`: a missing-field error, the generic number error, or the composed price with its price per square foot |
| `Pricing.MissingFieldNamesFirst` | app.py:94-97 | the answer is a missing-field error exactly when some required field is missing, and it names the first such field |
| `Pricing.InvalidNumbersIff` | app.py:100-107 | with all fields filled in, the answer is the generic error exactly when a number does not parse, the area is not positive, or the quality is outside [1, 10] |
| `Pricing.ErrorsIgnoreDownstream` | app.py:94-113 | an error answer does not depend on the regression model or on the integer parser, so nothing after validation affects it |
| `Pricing.TruncatedQuotientBounds` | app.py:138 | for a positive area, `int(price / area)` times the area is at most the price and within one area of it for a non-negative price; for a negative price it is at least the price and within one area of it |
| `Pricing.PricePerSqftBounds` | app.py:138 | every estimate's price per square foot relates to its price and the accepted area as above |
| `Pricing.ComposedPriceMonotone` | app.py:116-135 | with a positive base prediction, raising any factor never lowers the final price |
| `Pricing.UnknownCategoriesAreNeutral` | app.py:119-131 | a form with a non-empty unknown property type and furnishing gets exactly the answer it would get for "apartment" and "unfurnished" |

## Left out

- `models.py` (training) is not part of this model. It loads a CSV, fits a scaler and a linear regression with library calls, and writes them out.
- The scaler and model loading and use (app.py:8-9, 111-113) are opaque library objects. They are the parameter `baseModel`, and its result is unconstrained.
- Flask routing, `render_template` and `request.form` (app.py:1-5, 80-88, 152-163) are web input and output. The form is a map from field name to text.
- The result text (app.py:141-150) is presentation only. This includes `.replace('_', ' ').title()`, the thousands separators and the `int(final_prediction)` shown to the user.
- The catch-all handler (app.py:157-160) and the `print` logging (app.py:75, 158) are left out. After validation no step of the model can fail: every needed field is present, lookups never fail and the area is positive. Float overflow and NaN, which could reach the handler in Python, do not exist with reals.
- IEEE floating point is not modelled. For example, `float('nan')` and `float('inf')` pass the comparisons at app.py:103. The `max(..., 0.7)` at app.py:67 is redundant in doubles as in reals, since `1.0 - 30 * 0.01` evaluates to the same double as `0.7`.
- The exact string grammar of `int()` and `float()` is not modelled. Each conversion is an abstract parameter. The `TypeError` case at app.py:74 cannot arise, because form values are always strings.
- `Pricing.Predict` computes the three table factors and the feature multiplier before it multiplies them in. The source interleaves the lookups with the multiplications. Every step is pure, so the order cannot change the answer.
- `Multipliers.CalculateFeatureMultipliers` does not model Python's `OverflowError`. A bedroom count of "1" followed by 400 zeros parses with `int()`, but converting `(n - 1)` to a float at app.py:51 raises `OverflowError`. The `except (ValueError, TypeError)` at app.py:74 does not catch it, so the source answers with the catch-all error of app.py:157-160, while the model returns an `Estimate`. This is the only way a feature field escapes the 1.0 fallback. The same holds for bathrooms and parking at lines 55 and 71, and for a hugely negative age at line 66. A floor never overflows: `min(floor, 10)` caps it at line 61, and a floor of 0 or below skips that line.
