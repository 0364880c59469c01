# photomeh damage-estimate pipeline in Dafny

photomeh estimates the repair cost of vehicle damage from a photo. The
browser sends the photo to the `analyze-damage` endpoint as a base64 data
URI. The endpoint:

1. checks the URI;
2. asks a vision model for a JSON estimate;
3. repairs the model's untrusted reply into a `DamageEstimate`;
4. maps every failure to an HTTP status.

The client turns any failure into an all-zero estimate. The upload form
checks the chosen file and keeps a capped, newest-first history of reports.

This project models that pipeline as pure Dafny functions over an immutable
`Json` datatype, and proves what each step promises.

Modules, one file each:

- `Wrappers`: `Option` and `Result`.
- `JsValues`: JavaScript values and the coercions the code relies on.
  - `undefined` is `Option.None`.
  - A property read on `null` is a failure carrying V8's TypeError text.
  - Truthiness, `a || b` and `Number(x)` are defined explicitly.
  - `Number(x)` follows the StringNumericLiteral grammar of section 7.1.4.1 of ECMA-262, except for `Infinity`.
  - `Number(x) || 0` is `NumberOrZero`.
  - Numbers are `NaN` or a real.
- `Validators`: `validateImageData`, `normalizeConfidence` and `validateSeverity`.
- `Sanitizer`: `sanitizeEstimate`. It throws on a null root, on a null damage, and on a truthy severity that is not a string; each is a `Result` failure carrying the error message.
- `Serialize`: the JSON form of an estimate, as the route writes it and the client reads it back.
- `SanitizerProperties`: the total reconciliation, the exact conditions under which sanitising is idempotent, and concrete inputs.
- `OpenAiClient`: the request built for an image, and the handling of the model's reply. The SDK call and `JSON.parse` are function parameters.
- `Route`: the `POST` handler as a function from the request body and those two parameters to `(status, body, no-store)`.
- `Estimator`: `getSeverityColor` and `estimateDamage`, including an end-to-end lemma from the route to what the client sees.
- `UploadForm`: the file guard, the history record, the capped prepend, and `handleUpload`.

Where the code and its own description disagree, the model follows the code:

- `normalizeConfidence` divides values above 1 by 100 and does not clamp afterwards, so a confidence above 100 leaves [0, 1].
- `sanitizeEstimate` is not total, as listed above. A root that is a number, string, boolean or array does not throw: it reads as an object without fields.
- The rebuilt total multiplies `laborHours || 0` by the rate. A truthy non-numeric `laborHours` therefore makes the total NaN, while the output `laborHours` becomes 0.
- `confidence` and `totalCost` can be NaN. NaN is serialised as `null`.
- Sanitising the serialised output again gives it back only under the conditions in `SanitizerProperties.Resanitizable`.

## Model

| member | source | states |
|---|---|---|
| JsValues.NumberOrZero | app/api/analyze-damage/utils.ts:11 | `Number(x) \|\| 0` is nonzero exactly when `Number(x)` is a nonzero number, and is then that number; NaN and 0 both give 0, negatives pass unchanged |
| JsValues.DecimalDigitsConvert | app/api/analyze-damage/utils.ts:11 | `Number` of a string of decimal digits, such as a cost the model sent as text, is the integer it spells |
| JsValues.BlankIsZero | app/api/analyze-damage/utils.ts:27 | `Number` of an empty or all-white-space string is 0, so such a labour value becomes 0 |
| Validators.ValidateImageData | app/api/analyze-damage/validators.ts:4-12 | an image is accepted exactly when it has at least 100 characters and begins with one of the four data-URI prefixes for png, jpg, jpeg and webp |
| Validators.PatternIsPrefixTest | app/api/analyze-damage/validators.ts:10-11 | the anchored pattern (common head, one of four subtypes, `;base64,`) holds exactly when the string starts with one of the four full prefixes |
| Validators.PayloadIsNotInspected | app/api/analyze-damage/validators.ts:4-12 | after an accepted header, nothing but the total length affects the verdict |
| Validators.UpperCaseSubtypeRejected | app/api/analyze-damage/validators.ts:10 | the prefix test is case-sensitive: `data:image/PNG;base64,` is refused whatever follows |
| Validators.NormalizeConfidence | app/api/analyze-damage/validators.ts:14-20 | above 1 the value is divided by 100 with no clamp; in [0, 1] it is unchanged; a negative becomes 0; the result is never negative |
| Validators.ConfidenceInUnitRangeIff | app/api/analyze-damage/validators.ts:14-20 | the result lies in [0, 1] exactly when the input is at most 100 |
| Validators.ConfidenceIdempotentIff | app/api/analyze-damage/validators.ts:14-20 | normalising twice equals normalising once exactly when the input is at most 100 |
| Validators.LowerIsCaseVariant | app/api/analyze-damage/validators.ts:23-24 | a string lower-cases to a lower-case level name exactly when it is a case variant of that name |
| Validators.ValidateSeverity | app/api/analyze-damage/validators.ts:22-28 | any case variant of `minor` or `severe` gives that level and only those do; every other string, including case variants of `moderate`, gives `moderate` |
| Validators.SeverityIdempotent | app/api/analyze-damage/validators.ts:22-28 | coercing the name of a coerced level returns the same level |
| Validators.SeverityNameRoundTrip | app/api/analyze-damage/constants.ts:1 | each of the three level names coerces back to its own level |
| Validators.ValidateSeverityValue | app/api/analyze-damage/validators.ts:23 | a severity that is not a string throws the "toLowerCase is not a function" TypeError; a string is coerced |
| Sanitizer.Round2 | app/api/analyze-damage/utils.ts:32 | rounding to cents gives a whole number of cents within half a cent of the input, halves going up |
| Sanitizer.Round2Unique | app/api/analyze-damage/utils.ts:32 | the rounded value is the only whole number of cents in (x - 0.005, x + 0.005] |
| Sanitizer.Round2Idempotent | app/api/analyze-damage/utils.ts:32 | rounding an already rounded total changes nothing |
| Sanitizer.RepairItem | app/api/analyze-damage/utils.ts:8-14 | a damage throws exactly when it is null (with the null-read TypeError for `type`) or has a truthy non-string severity (with the "toLowerCase is not a function" TypeError); otherwise a falsy type becomes "Unknown Damage" and a falsy description "No description provided" while truthy ones are kept, the severity is coerced (default `moderate`), the cost is `Number(x) \|\| 0` with negatives kept, and the location is copied |
| Sanitizer.RepairAll | app/api/analyze-damage/utils.ts:7-15 | mapping the repair over the damages fails exactly when some element throws, with the first such element's error; otherwise it keeps length and order, each element repaired independently |
| Sanitizer.ConfidenceOf | app/api/analyze-damage/utils.ts:31 | a falsy confidence gives 0; a numeric one is normalised; a truthy non-numeric one gives NaN, and only that gives NaN |
| Sanitizer.RepairDamages | app/api/analyze-damage/utils.ts:7-15 | a `damages` that is not an array becomes `[]`; an array is repaired element-wise, or throws as the whole sanitiser does, with the error of the first throwing element |
| Sanitizer.Sanitize | app/api/analyze-damage/utils.ts:5-38 | fails exactly on a null root (with the null-read TypeError for `damages`) or a throwing damage (with the error of the first throwing element); otherwise each output field is as described: damages repaired, `laborHours` is `Number(x) \|\| 0`, parts and recommendations pass through only as arrays (recommendations absent, not `[]`, otherwise), summary copied, confidence normalised, and a truthy raw total is rounded while a falsy one is rebuilt from the damage costs and the labour cost, NaN when the labour cost is NaN |
| SanitizerProperties.TotalCostReconciled | app/api/analyze-damage/utils.ts:17-32 | without a truthy raw total, and with a labour value that is falsy or numeric, the total is the rounded sum of the item costs plus the output labour hours times 100 |
| SanitizerProperties.LaborCostMatchesHours | app/api/analyze-damage/utils.ts:22-27 | the labour cost in the total equals the output `laborHours` times 100 unless the raw value is truthy and not numeric |
| SanitizerProperties.NonNumericLaborPoisonsTotal | app/api/analyze-damage/utils.ts:22-27 | a truthy non-numeric labour value gives `laborHours` 0 but a NaN rebuilt total |
| SanitizerProperties.RepairItemRoundTrip | app/api/analyze-damage/utils.ts:8-14 | a repaired damage, written as JSON and repaired again, comes back unchanged |
| SanitizerProperties.RepairAllRoundTrip | app/api/analyze-damage/utils.ts:7-15 | a list of repaired damages survives a second repair of its JSON form |
| SanitizerProperties.ConfidenceFixedPoint | app/api/analyze-damage/utils.ts:31 | a sanitised confidence read back from JSON is unchanged exactly when it is a number at most 1 |
| SanitizerProperties.TotalFixedPoint | app/api/analyze-damage/utils.ts:18-32 | a sanitised total read back from JSON is unchanged exactly when it is a nonzero number, or zero with a rebuilt total of zero |
| SanitizerProperties.ResanitizeFixedPointIff | app/api/analyze-damage/utils.ts:5-38 | every estimate of the sanitiser's output shape is a fixed point of serialise-then-sanitise exactly when it is Resanitizable |
| SanitizerProperties.SanitizeIdempotentIff | app/api/analyze-damage/utils.ts:5-38 | sanitising the serialised result of a sanitisation gives the same result exactly when that result is Resanitizable |
| SanitizerProperties.ReconciliationExample | app/api/analyze-damage/utils.ts:17-32 | one damage of 300 with 5 labour hours and no total gives the defaults for type, severity and description, and a total of 800 |
| SanitizerProperties.CostOnlyItem | app/api/analyze-damage/utils.ts:8-14 | a damage holding only a numeric cost keeps that cost and gets the default type, severity `moderate` and the default description, with no location |
| SanitizerProperties.EmptyObjectExample | app/api/analyze-damage/utils.ts:5-38 | an empty object sanitises to the all-zero estimate without summary or recommendations |
| SanitizerProperties.ThrowingObjects | app/api/analyze-damage/utils.ts:7-15 | a null damage and a numeric severity both make the sanitiser throw, with the TypeErrors' messages |
| Serialize.EncodeNumber | app/api/analyze-damage/route.ts:42-46 | a number written into the response reads back under `Number` as itself; NaN reads back as a falsy `null`, i.e. 0, so it does not survive |
| Serialize.EncodeItem | app/api/analyze-damage/route.ts:42-46 | reading a written damage's fields gives back its type, description and location (an absent location stays absent), its severity's name, and its cost under `Number(x) \|\| 0` |
| Serialize.EncodeEstimate | app/api/analyze-damage/route.ts:42-46 | reading a written estimate's fields gives back its damages, labour hours, parts, confidence and total as written numbers, and its summary; `recommendations` is an array exactly when the estimate has them |
| OpenAiClient.BuildRequest | app/api/analyze-damage/openai-client.ts:18-45 | the request carries the image as its URL, with 2000 tokens, temperature 0.1 and the JSON-object format |
| OpenAiClient.RequestDependsOnlyOnImage | app/api/analyze-damage/openai-client.ts:18-45 | two requests differ only in the image URL, and they differ whenever the images do |
| OpenAiClient.HandleContent | app/api/analyze-damage/openai-client.ts:47-63 | null or empty content fails with "Empty response from OpenAI"; unparseable text fails with "Invalid JSON response from AI model"; parsed JSON gives exactly the sanitiser's result; success implies the text parsed and sanitised to it |
| OpenAiClient.Analyze | app/api/analyze-damage/openai-client.ts:15-64 | an error of the model call propagates unchanged; otherwise the reply content is handled as above |
| OpenAiClient.UnparseableReplyFails | app/api/analyze-damage/openai-client.ts:54-61 | text that does not parse always fails with the invalid-JSON message and is never repaired |
| OpenAiClient.EmptyReplyNeverParsed | app/api/analyze-damage/openai-client.ts:47-51 | an empty reply fails the same way whatever the parser would do |
| Route.ImageField | app/api/analyze-damage/route.ts:12 | reading the field throws exactly for an unreadable body (with its message) or a null body (with the destructuring TypeError's message); otherwise it is the body's `imageBase64` |
| Route.ErrorResponse | app/api/analyze-damage/route.ts:47-78 | a connection code gives 503 with the "Service temporarily unavailable" body, and nothing else gives 503; otherwise 401 gives the configuration error and anything else 500 with the message or "Unknown error occurred"; failures never set no-store |
| Route.Post | app/api/analyze-damage/route.ts:10-79 | the status is 200, 400, 500 or 503; 200 exactly for an estimate body, which is the analysis result of an admitted image, and only then with no-store; an admitted image whose analysis succeeds always gets 200 with that estimate; 400 exactly for a readable body whose image is missing or invalid, with the matching message; analysis errors map as in ErrorResponse |
| Route.NullBodyIsAnalysisFailure | app/api/analyze-damage/route.ts:10-77 | a `null` JSON body is answered 500 with "Failed to analyze damage" and the destructuring TypeError's message, not as a connection error or a 400 |
| Route.RejectedRequestNeverAnalysed | app/api/analyze-damage/route.ts:15-38 | for a request failing either check, the response does not depend on the model call or the parser |
| Route.ConnectionErrorBeats401 | app/api/analyze-damage/route.ts:51-69 | a timeout that also carries status 401 still gives 503 |
| Estimator.SeverityColor | lib/estimator.ts:44-57 | minor, moderate and severe get the success, warning and error badges, and only they do; every other string gets the ghost badge |
| Estimator.SeverityColorsDistinct | lib/estimator.ts:47-53 | every sanitised level gets a real badge, and different levels get different badges |
| Estimator.EstimateDamage | lib/estimator.ts:7-39 | an ok response with a decodable body is returned unchanged; a non-ok response, a rejected fetch or an undecodable body gives the all-zero fallback |
| Estimator.FallbackEqualsEmptyEstimate | lib/estimator.ts:31-37 | the fallback equals the serialised sanitisation of `{}`, so a failure looks like an image with no damage |
| Estimator.ClientSeesRouteOutcome | lib/estimator.ts:10-27 | composed with the route, the client gets the serialised estimate for a 200 and the fallback for every error status |
| Estimator.GoodReplyReachesClient | app/api/analyze-damage/openai-client.ts:47-63 | an admitted image whose model reply is non-empty text that parses to a value the sanitiser accepts gets 200, and the client sees exactly the serialised sanitised estimate |
| Estimator.ThrowingReplyGivesFallback | app/api/analyze-damage/openai-client.ts:47-63 | an admitted image whose parsed reply makes the sanitiser throw gets 500, and the client sees the all-zero fallback |
| UploadForm.SelectFile | components/UploadForm.tsx:20-38 | no file changes nothing; a non-image type sets only the type error, checked before size; a file over 10 MiB sets only the size error; an image of at most 10 MiB is always selected, with the error and the previous estimate cleared |
| UploadForm.FileAcceptedIff | components/UploadForm.tsx:24-38 | a file is taken exactly when its type starts with `image/` and its size is at most 10 MiB (10 MiB itself accepted); a refused file leaves the selection and estimate as they were |
| UploadForm.DamageTypes | components/UploadForm.tsx:77 | the damage types are read in order, one per damage, and reading throws exactly when some damage is null |
| UploadForm.MakeReport | components/UploadForm.tsx:70-81 | the record holds the total as its cost, the damage types in order, the labour hours and confidence, status `analyzed`; building it throws exactly for a null estimate, non-array damages or a null damage |
| UploadForm.CapPrepend | components/UploadForm.tsx:86-91 | the new record is first, the length is min(old + 1, 50), and the earlier records follow in their order with only the oldest dropped |
| UploadForm.SaveAllIsNewestFirst | components/UploadForm.tsx:83-93 | after a run of uploads the history is the new records newest first, then the earlier history, cut to 50 |
| UploadForm.SaveAllBounded | components/UploadForm.tsx:86-91 | after at least one upload the history has between 1 and 50 records and starts with the last record saved |
| UploadForm.HandleUpload | components/UploadForm.tsx:48-104 | nothing happens exactly when there is no file or no user; otherwise the estimate comes from the client call, and the history gains the record when it can be built, or the generic error is shown when building throws |

## Left out

- The OpenAI SDK call and client singleton are a network library. The call is the parameter `complete`, and an error it throws is a `Thrown` value with an optional `code` and `status`.
- `JSON.parse` and `request.json()` are parsers over text. The first is the parameter `parse`; the second is the `RequestBody` datatype (readable JSON, or the message it rejects with).
- The prompt texts are fixed constants whose wording has no effect on the code's behaviour; they appear as the tokens `SystemPrompt` and `UserPrompt`.
- IEEE-754 doubles are not modelled. Numbers are reals, so binary rounding error, Infinity and overflow are absent; NaN is kept as its own value.
- JsValues.StringToNumber: `"Infinity"` and `"-Infinity"` give NaN instead of the infinities, because infinities are not modelled.
- JsValues.ToNumber: an object or array holding its own `toString` or `valueOf` key may throw or convert differently in JavaScript. The model converts arrays by their single element and objects to NaN.
- Sanitizer.Sanitize: because of that simplification, "fails exactly on a null root or a throwing damage" leaves out one more throwing case. In JavaScript, an object with its own non-callable `toString` key, or an array holding one at any depth, in `estimatedCost`, `laborHours`, `confidence` or a truthy `totalCost` makes the conversion to a number, and so `sanitizeEstimate` itself, throw. The model gives NaN there instead.
- Validators.ValidateImageData: the length counts characters, not UTF-16 code units; the two differ only for characters outside the Basic Multilingual Plane.
- Validators.ValidateSeverity: lower-casing is ASCII only; Unicode case mappings such as the Kelvin sign are not modelled.
- Route.Post: a truthy `imageBase64` that is not a string is always answered as an invalid format (400). JavaScript answers 500 in these cases:
  - an array of at least 100 elements whose comma-joined text starts with an accepted prefix passes the length check (its length is its element count) and the pattern, then throws in the logging call's `substring`;
  - an object with its own non-callable `toString` key passes the length check unless it has its own `length` below 100 (`undefined < 100` is false), and then throws when the pattern test converts it to a string;
  - more generally, the length comparison or the pattern test's string conversion can reach an object with its own `toString` key in other ways. Examples are an array of at least 100 elements that holds such an object at any depth, converted through `join`, and an object whose own `length` is such an object. The conversion throws "Cannot convert object to primitive value", and JavaScript answers 500.

  Every other non-string value gets the same 400 in both, including a one-element array holding a valid URI. No analysis runs in any of these cases.
- `logRequest` and `logResponse` write to the console and do not affect the response. `formatCost` is locale currency formatting.
- The route's 300 s `maxDuration` is a runtime limit, not logic.
- UploadForm.HandleUpload: the progress timers, `Date.now` ids and ISO timestamps (parameters here), FileReader previews (the `preview` parameter), the DOM event, and reading or writing localStorage are left out. The stored history is taken as already decoded.
- UploadForm.SaveAllIsNewestFirst: with no upload at all, an over-long stored history is left as it is, so that case requires the stored history to fit within 50.
- The client-side `lib/types.ts` shape, the Stripe, Backblaze and Firebase code, the pages, the middleware and the layout components are UI or thin wrappers over libraries that are not part of this model.
