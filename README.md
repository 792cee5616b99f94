# Pre-operative evaluation and article-to-Markdown core, in Dafny

This project models two small pieces of one repository and proves properties of them.

**Pre-operative evaluation.**
- `parse_patient` turns free text about a surgical patient into a patient record. It normalises the text, then takes weight, height and age from the first matching pattern of three ordered lists. Finally it classifies brain death, moribund state and the systemic-disease tier from keyword lists.
- `calculate_comorbidity_score` adds points, labels and considerations from four rules: disease, age, BMI and emergency. It then buckets the total into a risk category.
- `get_risk_recommendation` looks a category up in a fixed table.
- `determine_asa` maps a record to an ASA physical-status class, with an "E" suffix for emergencies.

**Article conversion.** This is the block loop of `convertArticleToMarkdown`, which renders the draft.js blocks of an X (Twitter) article as Markdown. It uses these helpers:
- `buildEntityMap`: the entity lookup table.
- `resolveMedia`: image links.
- `applyInlineStyles`: Bold and Italic markers.

`slugify` is modelled alongside them.

The code that the source writes as step-by-step updates is modelled as Dafny methods with loops:
- the three extraction loops and the early return of `parse_patient`;
- the score accumulator;
- the entity-map loop;
- the style loop;
- the block loop.

Each method is proved equal to a declarative specification function: `ParsedRecord`, `Assess`, `EntityMapOf`, `InlineStyled` and `RenderBlocks`. The lemmas state the rules about those specifications. Pure code (`determine_asa`, `resolveMedia`, `slugify`, `get_risk_recommendation`) is modelled as functions.

Layout, one module per file:

| file | module | models |
|---|---|---|
| options.dfy | Options | optional values (a missing dictionary key, `null`, `undefined`) |
| ascii.dfy | Ascii | ASCII character classes, `lower`, substring search, decimal digits |
| normalize.dfy | TextNormalizer | lower-casing and whitespace collapse |
| patterns.dfy | Patterns | the thirteen regular expressions as hand-written matchers, and `re.search` |
| record.dfy | PatientRecord | the patient dictionary: one optional field per key |
| parse_patient.dfy | ParsePatient | `parse_patient` (procedure and specification) |
| parse_patient_properties.dfy | ParsePatientProperties | extraction and classification rules |
| comorbidity.dfy | Comorbidity | `calculate_comorbidity_score`, `get_risk_recommendation` |
| comorbidity_properties.dfy | ComorbidityProperties | score, label and category rules |
| asa.dfy | Asa | `determine_asa` |
| jstext.dfy | JsText | JavaScript `slice` and `trim` |
| entities.dfy | Entities | `buildEntityMap`, `resolveMedia` |
| inline_styles.dfy | InlineStyles | `applyInlineStyles` |
| slug.dfy | Slug | `slugify` |
| article.dfy | Article | the block loop of `convertArticleToMarkdown` |

Where the written description of the system and the code disagree, the model follows the code:
- **Brain-dead score category.** A brain-dead record with no weight, an age under 70 and no emergency scores 10. By the thresholds 12/8/3 that is `high`, not `very_high` (`ComorbidityProperties.BrainDeadDonorIsHighRisk`).
- **ASA fallback text.** The fallback text for an unknown disease tier is returned before the emergency suffix is added, so it never carries "E". The "E" therefore appears exactly when there is an emergency *and* a class was found (`Asa.EmergencySuffixIff`).
- **The "78 year old" example.** Take the procedure "Open AAA repair" and the text "78 year old male, 190 lbs, 5'10\", septic shock, on vasopressors, ESRD". After normalisation no centimetre pattern matches. The feet-and-inches pattern `(\d)\s*'?\s*(\d{1,2})` then matches first at "78", which it reads as 7 ft 8 in = 233.68 cm. That is inside the accepted range, so the recorded height is 233.68 cm (92 in), not the 177.8 cm of "5'10\"" (`ParsePatientProperties.SampleAgeReadAsHeight`; the proof joins the text from short pieces, `SamplePieces`).

## Model

| member | source | states |
|---|---|---|
| Ascii.Lower | preop-evaluation/scripts/parse_patient.py:13 | lower-casing keeps the length, maps each character through the ASCII lower-case map, and leaves no upper-case letter |
| Ascii.LowerAppend | preop-evaluation/scripts/parse_patient.py:13 | lower-casing a concatenation concatenates the lower-cased parts |
| Ascii.LowerOfLowered | preop-evaluation/scripts/parse_patient.py:13 | text without upper-case letters is unchanged by lower-casing |
| Ascii.ContainsIffOccurs | preop-evaluation/scripts/parse_patient.py:105 | `term in text` holds exactly when the term occurs at some index |
| Ascii.NatToStringRoundTrip | x-to-markdown/scripts/parse-tweet.js:31 | the decimal text of a number reads back as that number |
| Ascii.IntToStringInjective | x-to-markdown/scripts/parse-tweet.js:31 | different integers have different decimal texts, so numeric keys below 2^53 in magnitude that differ never collide |
| TextNormalizer.Collapse | preop-evaluation/scripts/parse_patient.py:14 | the result has only single spaces as whitespace, is empty exactly when the input is, and is never longer |
| TextNormalizer.CollapseOfCollapsed | preop-evaluation/scripts/parse_patient.py:14 | collapsing already collapsed text changes nothing |
| TextNormalizer.CollapsedAppend | preop-evaluation/scripts/parse_patient.py:14 | two collapsed texts joined stay collapsed unless a space meets a space at the seam |
| TextNormalizer.NormalTextShape | preop-evaluation/scripts/parse_patient.py:13-14 | normalised text has no upper-case letter and no two adjacent spaces |
| TextNormalizer.NormalTextIdempotent | preop-evaluation/scripts/parse_patient.py:13-14 | normalising twice equals normalising once |
| Patterns.Leftmost | preop-evaluation/scripts/parse_patient.py:34 | `re.search` reports the leftmost index where the pattern matches, with what it captured, or no match anywhere |
| Patterns.HeightMatchAt | preop-evaluation/scripts/parse_patient.py:48-58 | a height match captures one group for the two centimetre patterns and two for the feet-and-inches patterns |
| Patterns.SearchWeightFinds | preop-evaluation/scripts/parse_patient.py:34 | a weight pattern matching at some index is found by the search at or before it |
| Patterns.SearchHeightFinds | preop-evaluation/scripts/parse_patient.py:56 | a height pattern matching at some index is found by the search at or before it |
| ParsePatient.Round2 | preop-evaluation/scripts/parse_patient.py:42 | `round(x, 2)` is within 0.005 of x |
| ParsePatient.Round2Within | preop-evaluation/scripts/parse_patient.py:41-42 | rounding keeps a value inside a range whose ends are multiples of 0.01 |
| ParsePatient.FirstHit | preop-evaluation/scripts/parse_patient.py:33-43 | the first pattern in list order whose search succeeds decides; every earlier pattern failed; none means all failed |
| ParsePatient.SeverityTier | preop-evaluation/scripts/parse_patient.py:175-180 | the severity keywords only ever name one of the four tiers |
| ParsePatient.Classify | preop-evaluation/scripts/parse_patient.py:117-180 | the tier is always one of the four names; brain death implies moribund and `constant_threat` |
| ParsePatient.ExtractWeight | preop-evaluation/scripts/parse_patient.py:33-43 | the loop sets `weight_kg` to the first-match specification and changes nothing else |
| ParsePatient.StoreHeight | preop-evaluation/scripts/parse_patient.py:66-70 | a height strictly between 80 and 250 cm is stored rounded in cm and in inches, otherwise neither |
| ParsePatient.ExtractHeight | preop-evaluation/scripts/parse_patient.py:55-71 | the loop sets both height fields from the first matching height pattern, or neither |
| ParsePatient.ExtractAge | preop-evaluation/scripts/parse_patient.py:83-89 | the loop sets `age` from the first matching age pattern when 0 < age < 120 |
| ParsePatient.ParsedRecord | preop-evaluation/scripts/parse_patient.py:4-182 | the declarative record: classification of the normalised text, with weight, height and age from their first-match rules (its shape is `ParsePatientProperties.ParsedRecordShape`) |
| ParsePatient.ParsePatient | preop-evaluation/scripts/parse_patient.py:4-182 | the procedure, with its early return, computes the declarative record `ParsedRecord` |
| ParsePatientProperties.ParsedRecordShape | preop-evaluation/scripts/parse_patient.py:16-20 | the three classification keys are always present; height cm and in come together; emergency and functional limitation are never set |
| ParsePatientProperties.WeightFirstMatchDecides | preop-evaluation/scripts/parse_patient.py:33-43 | the first matching weight pattern decides: pounds divided by 2.20462, kept rounded exactly when strictly between 2 and 300 |
| ParsePatientProperties.NoWeightWithoutMatch | preop-evaluation/scripts/parse_patient.py:33-43 | no matching pattern, no weight |
| ParsePatientProperties.WeightRange | preop-evaluation/scripts/parse_patient.py:41-42 | a recorded weight lies in [2, 300] |
| ParsePatientProperties.NumberKgFoundWhenWordMatches | preop-evaluation/scripts/parse_patient.py:26-28 | where `weighs?`/`weight` + number + kg matches, the bare number + kg pattern matches too |
| ParsePatientProperties.WordWeightPatternsNeverFirst | preop-evaluation/scripts/parse_patient.py:25-34 | the second and third weight patterns can never decide |
| ParsePatientProperties.HeightFirstMatchDecides | preop-evaluation/scripts/parse_patient.py:55-70 | the first matching height pattern decides; two groups are feet and inches times 2.54; kept exactly when 80 < cm < 250, with inches = cm / 2.54 |
| ParsePatientProperties.NumberCmFoundWhenWordMatches | preop-evaluation/scripts/parse_patient.py:49-50 | where `height` + number + cm matches, the bare number + cm pattern matches too |
| ParsePatientProperties.WordHeightPatternNeverFirst | preop-evaluation/scripts/parse_patient.py:48-56 | the second height pattern can never decide |
| ParsePatientProperties.FeetInchesFiresOnDigitPair | preop-evaluation/scripts/parse_patient.py:51 | the feet-and-inches pattern matches any two adjacent digits |
| ParsePatientProperties.AgeReadAsHeight | preop-evaluation/scripts/parse_patient.py:51-70 | "78 year old" reads as 7 ft 8 in = 233.68 cm, which is accepted |
| ParsePatientProperties.NoCentimetresWithoutCm | preop-evaluation/scripts/parse_patient.py:49-50 | in a text where "cm" never occurs, neither centimetre pattern is found |
| ParsePatientProperties.FirstDigitsSevenEightAreHeight | preop-evaluation/scripts/parse_patient.py:48-70 | a text without "cm" whose first digits are exactly "78" gets height 233.68 cm, 92 in |
| ParsePatientProperties.SampleNormalized | preop-evaluation/scripts/parse_patient.py:13-14 | normalising "Open AAA repair" with the sample text lower-cases it and leaves it otherwise unchanged |
| ParsePatientProperties.SampleAgeReadAsHeight | preop-evaluation/scripts/parse_patient.py:4-70 | the full "78 year old male, 190 lbs, 5'10\", …" sample is recorded with height 233.68 cm, 92 in |
| ParsePatientProperties.AgeFirstMatchDecides | preop-evaluation/scripts/parse_patient.py:83-89 | the first matching age pattern decides, kept exactly when 0 < age < 120 |
| ParsePatientProperties.BrainDeadOnlyWhenStated | preop-evaluation/scripts/parse_patient.py:117-121 | brain dead exactly when a donation term and a brain-death term both occur, and then moribund with `constant_threat` |
| ParsePatientProperties.ConstantThreatNeverDowngraded | preop-evaluation/scripts/parse_patient.py:175-176 | a constant-threat term always gives `constant_threat` |
| ParsePatientProperties.SevereNeedsNoConstantThreat | preop-evaluation/scripts/parse_patient.py:175-178 | `severe` means a severe term, no constant-threat term and no brain-death case |
| ParsePatientProperties.MildNeedsNeither | preop-evaluation/scripts/parse_patient.py:175-180 | `mild` means a mild term and neither a constant-threat nor a severe term |
| ParsePatientProperties.NoneMeansNoTerms | preop-evaluation/scripts/parse_patient.py:135-180 | `none` means no severity term and no moribund term at all |
| ParsePatientProperties.MoribundRule | preop-evaluation/scripts/parse_patient.py:135-180 | a moribund term sets moribund; the tier is `constant_threat` unless a severity term overrides it |
| ParsePatientProperties.MoribundOnlyWhenStated | preop-evaluation/scripts/parse_patient.py:117-137 | moribund is set only by the brain-death case or a moribund term |
| ParsePatientProperties.BrainDeadRecordKeepsMeasurements | preop-evaluation/scripts/parse_patient.py:33-121 | the early return keeps the weight, height and age already extracted |
| Comorbidity.RoundHalfEven | preop-evaluation/scripts/comorbidity_assessment.py:78 | the `.1f` rounding step lands within half a unit of its argument |
| Comorbidity.RiskOf | preop-evaluation/scripts/comorbidity_assessment.py:97-104 | `very_high` exactly from 12, `high` exactly from 8 to 11, `moderate` exactly from 3 to 7, `low` exactly below 3 |
| Comorbidity.AddDiseaseRisk | preop-evaluation/scripts/comorbidity_assessment.py:36-55 | the disease section adds the disease rule's points, label and considerations |
| Comorbidity.AddAgeRisk | preop-evaluation/scripts/comorbidity_assessment.py:60-67 | the age section adds the age rule's contribution |
| Comorbidity.AddBmiRisk | preop-evaluation/scripts/comorbidity_assessment.py:72-83 | the BMI section adds the BMI rule's contribution |
| Comorbidity.AddEmergencyRisk | preop-evaluation/scripts/comorbidity_assessment.py:88-92 | the emergency section adds the emergency rule's contribution |
| Comorbidity.Assess | preop-evaluation/scripts/comorbidity_assessment.py:23-111 | the score is never negative and the category is the bucket of the score (the per-rule sum is `ComorbidityProperties.AssessByRule`) |
| Comorbidity.CalculateComorbidityScore | preop-evaluation/scripts/comorbidity_assessment.py:4-111 | the accumulating procedure computes the rule-by-rule specification `Assess` |
| Comorbidity.GetRiskRecommendation | preop-evaluation/scripts/comorbidity_assessment.py:125-146 | the fallback text is returned exactly for a key outside the table |
| ComorbidityProperties.AssessByRule | preop-evaluation/scripts/comorbidity_assessment.py:23-111 | the score is the sum of the four rules' points; labels and considerations are their contributions in rule order |
| ComorbidityProperties.ScoreRange | preop-evaluation/scripts/comorbidity_assessment.py:17-92 | 0 <= score <= 15, and 15 exactly for brain dead, 80+, BMI 35+ and emergency |
| ComorbidityProperties.DiseasePoints | preop-evaluation/scripts/comorbidity_assessment.py:36-55 | each of 10, 9, 6, 4, 1, 0 points exactly under its branch condition |
| ComorbidityProperties.TierIgnoresCase | preop-evaluation/scripts/comorbidity_assessment.py:28 | the tier is lower-cased first, so its case never changes the result |
| ComorbidityProperties.AgePoints | preop-evaluation/scripts/comorbidity_assessment.py:60-67 | 2 points exactly from 80, 1 exactly from 70 to 79, 0 otherwise or when absent |
| ComorbidityProperties.AgeMonotone | preop-evaluation/scripts/comorbidity_assessment.py:60-67 | an older patient never scores lower |
| ComorbidityProperties.BmiPoints | preop-evaluation/scripts/comorbidity_assessment.py:72-83 | nothing without both weight and height; 2 points exactly from BMI 35, 1 exactly from 30 to 35; the label carries the BMI |
| ComorbidityProperties.ObesityExample | preop-evaluation/scripts/comorbidity_assessment.py:75-80 | 100 kg at 160 cm is BMI 39.0625, obese, labelled "Obesity (BMI 39.1)" |
| ComorbidityProperties.EmergencyAddsOne | preop-evaluation/scripts/comorbidity_assessment.py:88-92 | setting emergency adds exactly one point, appends its label last and its two considerations at the end |
| ComorbidityProperties.LabelsInRuleOrder | preop-evaluation/scripts/comorbidity_assessment.py:33-92 | labels appear in strict rule order, at most four |
| ComorbidityProperties.RiskMonotone | preop-evaluation/scripts/comorbidity_assessment.py:97-104 | a higher score never gives a lower category |
| ComorbidityProperties.KeysDistinct | preop-evaluation/scripts/comorbidity_assessment.py:97-104 | the four category keys are distinct |
| ComorbidityProperties.RecommendationsDistinct | preop-evaluation/scripts/comorbidity_assessment.py:125-146 | every category the scorer produces has its own recommendation, never the fallback |
| ComorbidityProperties.RecommendationCaseSensitive | preop-evaluation/scripts/comorbidity_assessment.py:146 | "Low" is not a key and gets the fallback |
| ComorbidityProperties.ParsedRecordBmiDefined | preop-evaluation/scripts/comorbidity_assessment.py:75 | a height kept by `parse_patient` is positive, so scoring its record never divides by zero |
| ComorbidityProperties.BrainDeadDonorIsHighRisk | preop-evaluation/scripts/comorbidity_assessment.py:36-100 | a parsed brain-dead donor without weight, aged under 70 and not urgent scores 10, category `high` |
| Asa.DetermineAsa | preop_evaluation/scripts/compute_asa.py:16-52 | the result is the fallback text or starts with "ASA " followed by a class (precedence in `Asa.DetermineAsaByPrecedence`) |
| Asa.ClassOf | preop_evaluation/scripts/compute_asa.py:22-47 | VI exactly when brain dead; V exactly when moribund and not brain dead |
| Asa.DetermineAsaByPrecedence | preop_evaluation/scripts/compute_asa.py:16-52 | the result is the text of the class by precedence (VI > V > IV > III > II > I) with "E" for emergency, or the fallback when no class applies |
| Asa.StatusTextInjective | preop_evaluation/scripts/compute_asa.py:22-52 | different class/emergency pairs give different texts |
| Asa.StatusTextNotUndetermined | preop_evaluation/scripts/compute_asa.py:47 | no class text equals the fallback text |
| Asa.UndeterminedIff | preop_evaluation/scripts/compute_asa.py:46-47 | the fallback exactly when neither flag is set and the tier is unknown |
| Asa.EmergencySuffixIff | preop_evaluation/scripts/compute_asa.py:49-50 | the result ends in "E" exactly when there is an emergency and a class was found |
| Asa.EmergencyKeepsClass | preop_evaluation/scripts/compute_asa.py:49-52 | an emergency only appends "E" to the same class |
| Asa.FunctionalLimitationIgnored | preop_evaluation/scripts/compute_asa.py:20 | `functional_limitation` never changes the result |
| Asa.Examples | preop_evaluation/scripts/compute_asa.py:16-52 | the empty record is "ASA I"; tier none with emergency is "ASA IE"; brain dead beats severe |
| Asa.CapitalisedTierUndetermined | preop_evaluation/scripts/compute_asa.py:39-47 | tier "Mild" is compared case-sensitively and gets the fallback, without "E" |
| Asa.ParsedRecordDetermined | preop_evaluation/scripts/compute_asa.py:43-47 | a record from `parse_patient`, with any emergency flag, always gets a class |
| Asa.BrainDeadCaseIsAsaSix | preop_evaluation/scripts/compute_asa.py:23-24 | the brain-death case of `parse_patient` is "ASA VI", or "ASA VIE" when urgent |
| Entities.EntityMapOf | x-to-markdown/scripts/parse-tweet.js:27-34 | the map has at most one key per entry and holds the last entry's key (keys and last-wins in `EntityMapKeys`, `LastEntryWins`) |
| Entities.BuildEntityMap | x-to-markdown/scripts/parse-tweet.js:27-34 | the loop builds `EntityMapOf` the entries, and an empty map for a missing array |
| Entities.EntityMapKeys | x-to-markdown/scripts/parse-tweet.js:30-32 | the keys are exactly the stringified keys of the entries |
| Entities.LastEntryWins | x-to-markdown/scripts/parse-tweet.js:30-32 | for a repeated key the value of the last entry wins |
| Entities.NumberAndStringKeysCollide | x-to-markdown/scripts/parse-tweet.js:31 | key 12 and key "12" are the same key; the later value replaces the earlier |
| Entities.FindMedia | x-to-markdown/scripts/parse-tweet.js:39 | `find` returns the first media entity whose stringified id matches, or none when no entity matches |
| Entities.ResolveMedia | x-to-markdown/scripts/parse-tweet.js:36-44 | a returned link is never empty |
| Entities.ResolveMediaSpec | x-to-markdown/scripts/parse-tweet.js:36-44 | null exactly without media items; else the image link of the first matching entity with a URL, or the placeholder exactly when that entity has no URL |
| Entities.OnlyFirstItemCounts | x-to-markdown/scripts/parse-tweet.js:38 | media items after the first never matter |
| Entities.NumericIdMatchesString | x-to-markdown/scripts/parse-tweet.js:38-39 | numeric id 7 matches media id "7" |
| JsText.Clamp | x-to-markdown/scripts/parse-tweet.js:54-56 | a `slice` index is clamped into [0, len], negative counting from the end |
| JsText.Slice | x-to-markdown/scripts/parse-tweet.js:54-55 | within bounds `slice(a, b)` is the substring from a to b |
| JsText.SliceFrom | x-to-markdown/scripts/parse-tweet.js:56 | within bounds `slice(a)` is the suffix from a |
| JsText.SlicesSplit | x-to-markdown/scripts/parse-tweet.js:54-56 | before, inner and after put the string back together |
| JsText.Trim | x-to-markdown/scripts/parse-tweet.js:86 | trimming never lengthens, and text whose ends are not whitespace is unchanged |
| JsText.TrimSpec | x-to-markdown/scripts/parse-tweet.js:86 | `trim` cuts whitespace off both ends and leaves neither end whitespace |
| JsText.TrimEnds | x-to-markdown/scripts/parse-tweet.js:86 | a trimmed text neither starts nor ends with whitespace |
| JsText.TrimEmptyIff | x-to-markdown/scripts/parse-tweet.js:86 | the trimmed text is empty exactly when the text is all whitespace |
| JsText.TrimIdempotent | x-to-markdown/scripts/parse-tweet.js:86 | trimming twice equals trimming once |
| InlineStyles.ApplyRangeWraps | x-to-markdown/scripts/parse-tweet.js:53-61 | an in-bounds range wraps exactly its span: `**` for Bold, `*` for Italic, nothing else |
| InlineStyles.SortDescSpec | x-to-markdown/scripts/parse-tweet.js:50 | the sort is descending by offset, a permutation, and stable for equal offsets |
| InlineStyles.InlineStyled | x-to-markdown/scripts/parse-tweet.js:46-64 | the specification of `applyInlineStyles`: the text unchanged without ranges, otherwise the ranges applied in descending offset order; its properties are `StyledLength`, `SeparateRangesWrapOriginal` and `StyledEnds` |
| InlineStyles.ApplyInlineStyles | x-to-markdown/scripts/parse-tweet.js:46-64 | the loop computes the specification `InlineStyled`; no ranges or empty text returns the text unchanged |
| InlineStyles.OtherStylesIgnored | x-to-markdown/scripts/parse-tweet.js:57-61 | ranges of other styles change nothing, wherever they point |
| InlineStyles.ApplyAllLength | x-to-markdown/scripts/parse-tweet.js:52-62 | in-bounds ranges add four characters per Bold and two per Italic |
| InlineStyles.StyledLength | x-to-markdown/scripts/parse-tweet.js:46-64 | the output length is the text length plus 4 per Bold and 2 per Italic range |
| InlineStyles.SeparateRangesWrapOriginal | x-to-markdown/scripts/parse-tweet.js:46-64 | separate ranges each wrap exactly their own span of the original text (reference `Marked`) |
| InlineStyles.SingleRange | x-to-markdown/scripts/parse-tweet.js:52-62 | one in-bounds range: Bold wraps its span in `**`, Italic in `*`, other styles leave the text |
| InlineStyles.StyledEnds | x-to-markdown/scripts/parse-tweet.js:52-62 | styled non-empty text is non-empty and ends with the text's last character or a marker |
| Slug.Slugify | x-to-markdown/scripts/parse-tweet.js:166-172 | a slug is at most 80 characters and never longer than its input |
| Slug.DashRuns | x-to-markdown/scripts/parse-tweet.js:169 | the replacement never lengthens and is empty exactly when its input is |
| Slug.DashRunsShape | x-to-markdown/scripts/parse-tweet.js:169 | after the replacement only `[a-z0-9]` and single dashes remain |
| Slug.TrimDashShape | x-to-markdown/scripts/parse-tweet.js:170 | dropping the end dashes keeps the shape and leaves no dash at either end |
| Slug.SlugifyShape | x-to-markdown/scripts/parse-tweet.js:166-172 | a slug is `[a-z0-9-]`, without "--", at most 80 long, without a leading dash, and ends in a dash only through the cut at 80 |
| Slug.SlugifyKeepsSlugs | x-to-markdown/scripts/parse-tweet.js:166-172 | slugifying a slug gives it back |
| Slug.SlugifyIdempotent | x-to-markdown/scripts/parse-tweet.js:166-172 | slugifying twice equals slugifying once unless the cut left a trailing dash |
| Slug.DashRunsKeeps | x-to-markdown/scripts/parse-tweet.js:169 | the replacement keeps every letter and digit in order |
| Slug.KeptTrimDash | x-to-markdown/scripts/parse-tweet.js:170 | removing end dashes removes no letter or digit |
| Slug.SlugifyKeepsLettersAndDigits | x-to-markdown/scripts/parse-tweet.js:166-172 | without the cut the slug holds exactly the letters and digits of the lower-cased text, in order |
| Slug.Example | x-to-markdown/scripts/parse-tweet.js:166-172 | "A, b" becomes "a-b" |
| Article.AppendEmbed | x-to-markdown/scripts/parse-tweet.js:89-103 | an embed appends the Markdown of the entity under its first range, or nothing |
| Article.AppendText | x-to-markdown/scripts/parse-tweet.js:107-127 | a text block appends its styled text with its type's prefix and ending |
| Article.AppendBlock | x-to-markdown/scripts/parse-tweet.js:86-127 | one pass of the loop body appends exactly that block's Markdown |
| Article.RenderBlocks | x-to-markdown/scripts/parse-tweet.js:85-128 | the specification of the block loop: the blocks' Markdown concatenated in order; its properties are `RenderBlocksAppend`, `BlankBlockInvisible` and `Article.Example` |
| Article.ConvertBlocks | x-to-markdown/scripts/parse-tweet.js:85-128 | the loop appends the rendering of all blocks, in order |
| Article.EmbedDependsOnlyOnEntity | x-to-markdown/scripts/parse-tweet.js:89-91 | two embeds whose first ranges name the same key render the same, whatever their text and styles |
| Article.BlockEmptyIff | x-to-markdown/scripts/parse-tweet.js:89-105 | a block emits nothing exactly when it is an embed of a missing or silent entity, or a non-embed of whitespace only |
| Article.EntityShape | x-to-markdown/scripts/parse-tweet.js:92-101 | every entity output ends with a blank line |
| Article.TextShape | x-to-markdown/scripts/parse-tweet.js:109-127 | headers get #, ## or ###; list items "- " or "1. " and end with one newline; the rest end with a blank line |
| Article.BlockShape | x-to-markdown/scripts/parse-tweet.js:86-127 | non-empty block output: list items end with exactly one newline, all else with a blank line; headers and list items get their prefixes |
| Article.RenderBlocksAppend | x-to-markdown/scripts/parse-tweet.js:85-128 | rendering concatenated blocks concatenates their renderings |
| Article.BlankBlockInvisible | x-to-markdown/scripts/parse-tweet.js:105 | a whitespace-only non-embed block can be removed without changing the output |
| Article.Example | x-to-markdown/scripts/parse-tweet.js:85-128 | a header "Hi" and a list item " x" render as "# Hi\n\n- x\n" |

## Left out

- Input and output: reading files, the command-line entry points, `fetchTweet` and `main` (network), and `convertTweetToMarkdown`. They are outside the modelled core.
- The article heading, author, date, source and statistics lines written before the block loop (parse-tweet.js:73-83). `ConvertBlocks` takes the text written so far as its starting value. `toLocaleString` depends on the locale.
- The other calculators of the pre-operative package (blood volume, allowable blood loss, adjusted weight): not part of this model.
- The regular expressions are modelled as one hand-written matcher per pattern (`Patterns`), following Python's greedy, backtracking semantics for these patterns. No general regular-expression engine is modelled.
- Python's `\s`, `\w`, `str.lower` and JavaScript's `toLowerCase` are modelled on ASCII only. Non-ASCII letters with case mappings (such as U+0130 and U+212A) are not modelled. JavaScript strings are modelled as sequences of characters, not UTF-16 code units.
- ParsePatient.Round2: `round(x, 2)` is modelled on exact reals with ties going up. Python's binary floating point and its round-half-to-even on the stored double are not modelled.
- Comorbidity.OneDecimal: `{bmi:.1f}` is modelled on the exact real value, rounded half to even, not on the double.
- Comorbidity.CalculateComorbidityScore: the division by a zero height, which raises in Python, is excluded by the precondition `BmiDefined`. `ParsedRecordBmiDefined` proves that `parse_patient` output always satisfies it.
- Non-string values for `systemic_disease` and non-boolean flags: the record fields are typed. Python's truthiness of other values is not modelled.
- ParsePatient.IsPoundsPattern: the pound test `"lb" in pattern or "#" in pattern` is modelled by the pattern's identity (the fourth and fifth patterns), not by searching the pattern text.
- Entities.BuildEntityMap: numeric keys are unbounded integers in the model, written in exact decimal. In JavaScript a JSON number is a double, so `String(e.key)` agrees with the model only for keys below 2^53 in magnitude. Larger numerals lose precision, and two distinct numerals can become the same key (9007199254740993 and 9007199254740992). From 10^21 on, `String` writes the exponent form ("1e+21"). Neither effect is modelled.
- Ascii.IntToStringInjective: stated for exact integers. For JavaScript numbers it holds only below 2^53 in magnitude, for the reason given in the previous line.
- Entities.BuildEntityMap: keys and ids are modelled as integers or strings. Other JSON values (fractions, booleans, objects), and the special `__proto__` key of a JavaScript object, are not modelled.
- Article.AppendEmbed: an entity without a `data` object, which throws a TypeError in JavaScript, is not modelled. An entity always carries data, and a missing `markdown` or `tweetId` is written as "undefined".
- Article.AppendText: non-string `text` values and ranges with non-numeric offsets, whose comparison gives NaN in the sort, are not modelled.
- InlineStyles.StyledLength: stated only for ranges that lie within the text. For other ranges the output is defined (JavaScript's slice clamping is modelled) but its length is not stated.
- InlineStyles.SeparateRangesWrapOriginal: stated only for ranges that are in bounds, at distinct offsets and non-overlapping. Overlapping or nested ranges are modelled but not characterised.
- Slug.SlugifyKeepsLettersAndDigits: stated only when the cut at 80 characters removes nothing.
- Slug.SlugifyIdempotent: stated only when the first slug does not end in a dash. When it does, the second pass removes that dash.
- ParsePatientProperties.WeightRange: the range is stated closed, [2, 300], because rounding may reach an end of the open source range.
