# Recipe import and tag normalisation, modelled in Dafny

This project models the decision logic of the cook_book backend: how a
HelloFresh recipe page becomes a recipe, and how tags and steps are
normalised before a recipe is stored.

- **Import** (`helloFreshParser.js`). The JSON-LD script blocks are scanned
  for a `Recipe` object (directly or inside `@graph`); when one is found it is
  mapped by `parseJsonLd`, otherwise the page's markup is read by `parseHtml`.
  Ingredient lines go through `normalizeFractions` (fifteen Unicode fraction
  glyphs to ASCII) and the `parseIngredientString` regular expression;
  ISO 8601 durations go through `parseDuration`; tags come from
  `generateTags` (time bucket, cuisine, category, protein and style rules,
  deduplicated by a `Set`, cut to six).
- **Routes** (`recipes.js`). `processTags` trims and title-cases the posted
  tags, puts the time tag in front unless it is there already and removes
  duplicates; directions are numbered from 1; ingredients keep three fields.
- **Seed** (`seed.js`). Each sample recipe gets its time tag in front of its
  own tags, and its directions are numbered from 1.

Modules, leaf first: `JsValues` (JSON values, `undefined`, truthiness,
throwing as `Failure`), `JsText` (`trim`, `\s`, case mapping, `includes`,
`split`), `JsNumbers` (`parseInt`), `Fractions`, `IngredientLine` (the
ingredient regular expression as a backtracking search and as a direct
matcher, proved equal), `IngredientExamples`, `Durations`, `TagText`
(`toTitleCase`, `getTimeTag`), `TagRules` (`generateTags`), `RecipeImport`,
`RecipeRoutes`, `Seed`. The two identical copies of `toTitleCase` (in `helloFreshParser.js` and
`recipes.js`) and the three of `getTimeTag` (those two files and `seed.js`)
are modelled once, in `TagText`.

Where the code and the project's design description disagree, the model
follows the code:

- The last JSON-LD block holding a recipe wins, not the first, because each
  block overwrites `recipeData` (`RecipeImport.LastRecipeWins`).
- Tags are deduplicated by exact string (a `Set`), not case-insensitively.
  Since every generated tag is title-cased, the two readings coincide on the
  generator's output (`TagRules.GenerateTagsTitled`).
- More than one bucket label can appear among the generated tags: a category
  such as "1 hour" title-cases to a bucket label.
- The lazy amount group `([\d./\s]+?)?` takes at most one character of a
  single-line ingredient ("1 1/2 cups rice" gives amount "1"), and units need
  no word boundary ("2 cups rice" gives unit "cup", name "s rice").
- A malformed item can make the whole import fail: an ingredient entry that
  is not a string, a `null` instruction, or a truthy title, cuisine or
  category of the wrong type makes `parseJsonLd` throw, and the import does
  not fall back to the markup. The model returns `Failure` there
  (`RecipeImport.IngredientStrings`, `RecipeImport.CollectInstructions`,
  `TagRules.GenerateTagsFails`, `RecipeImport.ImportPage`).

## Model

| member | source | states |
|---|---|---|
| JsValues.Get | backend/src/services/helloFreshParser.js:41 | reading a property is undefined exactly when the object lacks the key, and otherwise its stored value |
| JsValues.Prop | backend/src/routes/recipes.js:114 | reading a property throws exactly on `null`; a value comes back only from an object holding the key |
| JsValues.MapAll | backend/src/services/helloFreshParser.js:42-45 | a `forEach`/`map` over an array throws exactly when the callback throws on some element; otherwise one result per element, in order |
| JsValues.IntToString | backend/src/services/helloFreshParser.js:89 | `String(n)` of an integer is non-empty and starts with a minus sign exactly for negatives |
| JsText.TrimStart | backend/src/services/helloFreshParser.js:106 | `trimStart` drops a prefix made only of white space and stops at a non-space character |
| JsText.TrimEnd | backend/src/services/helloFreshParser.js:106 | `trimEnd` drops a suffix made only of white space and stops at a non-space character |
| JsText.TrimEmpty | backend/src/services/helloFreshParser.js:106-107 | a trimmed text is empty (so `if (text)` fails) exactly when the text is all white space |
| JsText.TrimUnchanged | backend/src/services/helloFreshParser.js:175 | a text with no white space at either end is its own trim |
| JsText.ToLower | backend/src/services/helloFreshParser.js:218 | `toLowerCase` keeps the length and maps each character on its own |
| JsText.Includes | backend/src/services/helloFreshParser.js:242 | `includes` holds exactly when the word occurs at some index |
| JsText.SplitOnSpace | backend/src/services/helloFreshParser.js:201 | `split(' ')` always yields at least one piece |
| JsText.Utf16Length | backend/src/services/helloFreshParser.js:115 | `text.length` counts each character once or twice (outside the Basic Multilingual Plane) |
| JsNumbers.DigitRun | backend/src/services/helloFreshParser.js:190 | the digit run `parseInt` reads is the longest prefix of digits |
| JsNumbers.DecimalDigitsValue | backend/src/services/helloFreshParser.js:190-191 | the decimal numeral of `n` is all digits and denotes `n` |
| JsNumbers.ParseIntOfDecimal | backend/src/services/helloFreshParser.js:190-191 | `parseInt` of a numeral followed by a non-digit reads back the number |
| JsNumbers.ParseIntOfIntToString | backend/src/services/helloFreshParser.js:89 | `parseInt(String(n)) == n` for every integer, negative ones included |
| JsNumbers.ParseIntOfNegative | backend/src/services/helloFreshParser.js:89 | a minus sign before an unsigned reading negates it |
| Fractions.ReplaceAll | backend/src/services/helloFreshParser.js:139 | a global one-glyph replacement leaves no copy of the glyph (when the text has none) and adds only characters of the text |
| Fractions.AsciiOf | backend/src/services/helloFreshParser.js:139-153 | a character has a replacement exactly when it is a glyph of the chain |
| Fractions.ChainIsSinglePass | backend/src/services/helloFreshParser.js:138-153 | the chain of `replace` calls equals one left-to-right pass, given no replacement text holds a glyph |
| Fractions.TableGlyphFree | backend/src/services/helloFreshParser.js:139-153 | none of the fifteen ASCII fractions holds a glyph of the chain |
| Fractions.NormalizeIsSinglePass | backend/src/services/helloFreshParser.js:136-153 | `normalizeFractions` maps each glyph to its fraction in one pass |
| Fractions.MapGlyphsRemovesGlyphs | backend/src/services/helloFreshParser.js:138-153 | no glyph survives a pass |
| Fractions.NoGlyphSurvives | backend/src/services/helloFreshParser.js:136-153 | the result of `normalizeFractions` holds no fraction glyph |
| Fractions.GlyphFreeUnchanged | backend/src/services/helloFreshParser.js:137-153 | `null`, `undefined` and glyph-free text come back unchanged |
| Fractions.Idempotent | backend/src/services/helloFreshParser.js:136-153 | normalising twice is normalising once |
| Fractions.EachGlyph | backend/src/services/helloFreshParser.js:139-153 | each glyph on its own becomes exactly its fraction from the table |
| Fractions.DistinctGlyphs | backend/src/services/helloFreshParser.js:139-153 | no glyph appears twice in the chain |
| Fractions.GlyphsAboveAscii | backend/src/services/helloFreshParser.js:139-153 | every glyph lies outside ASCII |
| Fractions.AsciiUnchanged | backend/src/services/helloFreshParser.js:136-153 | plain ASCII text is left as it is |
| IngredientLine.RunEnd | backend/src/services/helloFreshParser.js:162 | the end of the longest run of a character class: every character before it is in the class, the one at it is not |
| IngredientLine.RunEndUnique | backend/src/services/helloFreshParser.js:162 | those properties determine the run's end |
| IngredientLine.LastLineStart | backend/src/services/helloFreshParser.js:162 | where the last line starts: no line terminator after it, one just before it |
| IngredientLine.TailAtIff | backend/src/services/helloFreshParser.js:162 | `(.+)$` matches from a position exactly when a non-empty rest of the last line follows it |
| IngredientLine.DirectAfterUnit | backend/src/services/helloFreshParser.js:162 | after the unit group the name starts on the last line, past white space only |
| IngredientLine.FirstUnit | backend/src/services/helloFreshParser.js:162 | a chosen unit leaves a name on the last line |
| IngredientLine.AfterUnitIsDirect | backend/src/services/helloFreshParser.js:162 | the backtracking `\s*(.+)$` and the direct computation agree |
| IngredientLine.UnitChoiceIsDirect | backend/src/services/helloFreshParser.js:162 | the optional unit group tries the alternatives in pattern order and falls back to no unit, as computed directly |
| IngredientLine.NoUnitAtSpace | backend/src/services/helloFreshParser.js:162 | no unit starts at a white-space character |
| IngredientLine.FirstSpaceIsDirect | backend/src/services/helloFreshParser.js:162 | the greedy first `\s*` with backtracking agrees with the direct computation |
| IngredientLine.AmountChoiceIsDirect | backend/src/services/helloFreshParser.js:162 | the lazy amount group tried from one character upward agrees with the direct computation |
| IngredientLine.DirectAmount | backend/src/services/helloFreshParser.js:162 | a captured amount is a non-empty prefix of amount characters, ending before the name |
| IngredientLine.MatchLine | backend/src/services/helloFreshParser.js:162 | the match's amount is a prefix of `[\d./\s]` characters and its name starts on the last line |
| IngredientLine.MatchLineIsRegex | backend/src/services/helloFreshParser.js:162 | the direct matcher returns exactly the captures of the regular-expression search |
| IngredientLine.FromAmountSingleLine | backend/src/services/helloFreshParser.js:162 | on a single line the rest of the pattern always matches after the amount |
| IngredientLine.SingleLineMatch | backend/src/services/helloFreshParser.js:162 | a single line matches exactly when non-empty, and the amount is at most its first character |
| IngredientLine.FirstUnitIsUnit | backend/src/services/helloFreshParser.js:162 | a reported unit is one of the alternatives as spelled in the line, up to ASCII case |
| IngredientLine.MatchedUnit | backend/src/services/helloFreshParser.js:162 | the whole match's unit is one of the alternatives as spelled in the line |
| IngredientLine.FirstAmountThatFits | backend/src/services/helloFreshParser.js:162 | the lazy amount settles on the shortest length after which the rest matches, or on no amount |
| IngredientLine.ParseIngredientValue | backend/src/services/helloFreshParser.js:156-184 | parsing throws exactly on a non-string value |
| IngredientLine.CollapseSlashesStart | backend/src/services/helloFreshParser.js:169 | the slash clean-up starts with a slash exactly when white space up to a slash opens the text |
| IngredientLine.CollapseSlashesTight | backend/src/services/helloFreshParser.js:169 | after the clean-up no white space stands next to a slash |
| IngredientLine.CollapseSlashesNoSlash | backend/src/services/helloFreshParser.js:169 | text without a slash is left unchanged |
| IngredientLine.TrimKeepsTight | backend/src/services/helloFreshParser.js:169 | trimming keeps slashes tight and is idempotent |
| IngredientLine.TrimTwice | backend/src/services/helloFreshParser.js:165-169 | trimming twice is trimming once |
| IngredientLine.AmountTextShape | backend/src/services/helloFreshParser.js:165-170 | no amount exactly when group 1 is absent or blank; a reported amount is non-empty, trimmed and has tight slashes |
| IngredientLine.OneCharAmount | backend/src/services/helloFreshParser.js:165-170 | a one-character group gives that character as amount unless it is white space |
| IngredientLine.AmountIsFirstCharacter | backend/src/services/helloFreshParser.js:156-170 | on a single line the amount is the first character when it is a digit, `.` or `/` and more follows, and absent otherwise |
| IngredientLine.NameShape | backend/src/services/helloFreshParser.js:172-183 | the name is the whole line or a non-empty trimmed rest of it; no match gives `{null, null, str}` |
| IngredientLine.UnitShape | backend/src/services/helloFreshParser.js:162-174 | a reported unit is one of the alternatives as spelled in the normalised line |
| IngredientLine.ParseIngredientIsRegex | backend/src/services/helloFreshParser.js:156-184 | over the regular expression's backtracking search: no match gives `{null, null, str}`; otherwise the amount is group 1 cleaned up, the unit is group 2 as written, and the name is the trimmed group 3, or `str` when that is empty |
| IngredientExamples.CupOfRice | backend/src/services/helloFreshParser.js:156-184 | "1 cup rice" gives amount "1", unit "cup", name "rice" |
| IngredientExamples.TwelveEggs | backend/src/services/helloFreshParser.js:156-184 | "12 eggs" gives amount "1" and name "2 eggs": the lazy amount stops after one character |
| IngredientExamples.MixedNumber | backend/src/services/helloFreshParser.js:156-184 | "1 1/2 cups rice" gives amount "1" and name "1/2 cups rice" |
| IngredientExamples.CupsOfRice | backend/src/services/helloFreshParser.js:156-184 | "2 cups rice" gives unit "cup" and name "s rice": no word boundary is required |
| IngredientExamples.Garlic | backend/src/services/helloFreshParser.js:156-184 | "Garlic" gives unit "G" and name "arlic" |
| IngredientExamples.SaltToTaste | backend/src/services/helloFreshParser.js:156-184 | "salt to taste" has neither amount nor unit |
| IngredientExamples.LeadingSpace | backend/src/services/helloFreshParser.js:156-184 | " 5 eggs": the leading space trims to no amount, name "5 eggs" |
| IngredientExamples.TwoAndSpace | backend/src/services/helloFreshParser.js:156-184 | "2 " gives amount "2" and the line itself as name |
| IngredientExamples.EmptyLine | backend/src/services/helloFreshParser.js:179-183 | the empty line does not match and is its own name |
| IngredientExamples.SaltPepper | backend/src/services/helloFreshParser.js:179-183 | "salt\npepper" does not match, so the whole input is the name |
| IngredientExamples.NoMatchAcrossLines | backend/src/services/helloFreshParser.js:162 | a line starting with a letter that begins no unit, followed by more lines, does not match |
| IngredientExamples.UnitFoundAt | backend/src/services/helloFreshParser.js:162 | the first alternative written at a position, followed by a name, is the unit |
| Durations.FindFrom | backend/src/services/helloFreshParser.js:188 | the first "PT" at or after a position, or none after it |
| Durations.FindPT | backend/src/services/helloFreshParser.js:188 | the match starts at the leftmost "PT"; none exactly when the text has no "PT" |
| Durations.DigitsEnd | backend/src/services/helloFreshParser.js:188 | the end of the run of ASCII digits |
| Durations.GroupAt | backend/src/services/helloFreshParser.js:188 | a captured group is digits followed by its designator |
| Durations.GroupIsTheMatch | backend/src/services/helloFreshParser.js:188 | `(\d+)X` matches at a position exactly when the captured group is those digits |
| Durations.GroupNumberIsParseInt | backend/src/services/helloFreshParser.js:190-191 | a group's value is `parseInt(group) || 0` |
| Durations.ParseDuration | backend/src/services/helloFreshParser.js:186-195 | a parsed duration is never negative |
| Durations.ParseDurationValue | backend/src/services/helloFreshParser.js:186-188 | parsing throws exactly on a non-string, and a result is never negative |
| Durations.DurationFound | backend/src/services/helloFreshParser.js:188-194 | a duration is found exactly when "PT" occurs; otherwise `null` |
| Durations.NoDesignatorNoDuration | backend/src/services/helloFreshParser.js:188-194 | text without the letter P has no duration |
| Durations.NumeralGroup | backend/src/services/helloFreshParser.js:188-191 | a numeral followed by its designator is read as its number |
| Durations.FoundAtStart | backend/src/services/helloFreshParser.js:188 | a text opening with "PT" matches at index 0 |
| Durations.HoursMinutesRoundTrip | backend/src/services/helloFreshParser.js:186-195 | "PT<h>H<m>M" reads back as `h * 60 + m` |
| Durations.MinutesRoundTrip | backend/src/services/helloFreshParser.js:186-195 | "PT<m>M" reads back as `m` |
| Durations.ReadsBoth | backend/src/services/helloFreshParser.js:188-192 | an hours group and a minutes group after it add up to `h * 60 + m` |
| Durations.NothingRead | backend/src/services/helloFreshParser.js:188-192 | "PT" with neither group right after it reads as 0 |
| Durations.OneHourThirty | backend/src/services/helloFreshParser.js:187 | "PT1H30M" is 90 minutes |
| Durations.FortyFive | backend/src/services/helloFreshParser.js:187 | "PT45M" is 45 minutes |
| Durations.BareAndSeconds | backend/src/services/helloFreshParser.js:188-192 | "PT" and "PT30S" read as 0 |
| Durations.NotDurations | backend/src/services/helloFreshParser.js:188-194 | "garbage" and lower-case "pt5m" are `null` |
| TagText.Capitalize | backend/src/services/helloFreshParser.js:202 | capitalising keeps the length, upper-cases the first character and keeps the rest |
| TagText.CapitalizeAll | backend/src/services/helloFreshParser.js:202 | one capitalised word per word |
| TagText.CasedFrom | backend/src/services/helloFreshParser.js:198-204 | the character-wise reading keeps the length |
| TagText.SplitCapJoin | backend/src/services/helloFreshParser.js:199-203 | splitting, capitalising and joining equals the character-wise reading |
| TagText.TitleCaseChars | backend/src/services/helloFreshParser.js:198-204 | `toTitleCase` keeps the length; a character after a space or at the start is upper-cased, every other is lower-cased |
| TagText.TitleCaseIdempotent | backend/src/routes/recipes.js:6-12 | title casing a title-cased string changes nothing |
| TagText.CaseMappingSettles | backend/src/services/helloFreshParser.js:200-202 | the case mappings settle after one application and leave the space alone |
| TagText.TitleCaseFixedPoint | backend/src/services/helloFreshParser.js:198-204 | a string is its own title case exactly when every word starts with no lower-case letter and has no upper-case letter after that |
| TagText.TimeTagBuckets | backend/src/services/helloFreshParser.js:207-214 | the tag is bucket `k` exactly when the total lies above bound `k - 1` and at most bound `k` (15, 30, 45, 60) |
| TagText.TimeTagShape | backend/src/routes/recipes.js:15-22 | no tag exactly for an absent or non-positive total; every tag is one of the five labels |
| TagText.TimeTagMonotone | backend/prisma/seed.js:6-13 | a longer total never gets a shorter bucket |
| TagText.TitledAt | backend/src/routes/recipes.js:6-12 | the fixed-point condition `TitledFrom` holds at every later position |
| TagText.TitledIsFixed | backend/src/routes/recipes.js:6-12 | a string meeting `TitledFrom` is its own title case |
| TagText.BucketsPassCheck | backend/src/routes/recipes.js:15-22 | every bucket label meets `TitledFrom` |
| TagText.BucketsTitled | backend/src/routes/recipes.js:26-33 | every bucket label is its own title case, so normalised tags can hold it |
| TagText.TimeTagEdges | backend/src/services/helloFreshParser.js:208-213 | 30 and 31, 60 and 61 fall on either side of a bucket edge; 0 and `null` give no tag |
| TagText.BbqSauce | backend/src/routes/recipes.js:6-12 | "BBQ sauce" becomes "Bbq Sauce" |
| TagRules.AddTag | backend/src/services/helloFreshParser.js:224 | `set.add(t)` holds `t` and otherwise exactly what it held |
| TagRules.DedupSnoc | backend/src/services/helloFreshParser.js:217-224 | adding one more element is one more `add` |
| TagRules.DedupShape | backend/src/routes/recipes.js:36 | the set holds exactly the elements added, each once, and the first element added stays first |
| TagRules.DedupIsFirstOccurrences | backend/src/services/helloFreshParser.js:276 | the set's order is the first occurrences, in order |
| TagRules.Take6 | backend/src/services/helloFreshParser.js:276 | `slice(0, 6)` is the prefix of length at most six |
| TagRules.TitleText | backend/src/services/helloFreshParser.js:218 | lower-casing the title throws exactly when it is truthy and not a string |
| TagRules.TitleCaseOf | backend/src/services/helloFreshParser.js:229 | title casing a value throws exactly on a non-string, and otherwise is `toTitleCase` |
| TagRules.TitleCaseAll | backend/src/services/helloFreshParser.js:235 | title casing an array throws exactly when an element is not a string; otherwise one tag per element, in order |
| TagRules.GenerateTags | backend/src/services/helloFreshParser.js:216-277 | the method returns the first six distinct candidates, and throws exactly where the candidate list does |
| TagRules.AddTimeAndCuisine | backend/src/services/helloFreshParser.js:221-230 | the time tag, then the cuisine's tag, are added to an empty set |
| TagRules.AddCategory | backend/src/services/helloFreshParser.js:232-239 | the category step adds one tag per array element or the tag of a string |
| TagRules.AddEach | backend/src/services/helloFreshParser.js:235 | the loop adds the title case of each element, in order, or throws at the first non-string |
| TagRules.AddProteins | backend/src/services/helloFreshParser.js:241-254 | the four protein rules add their tags in order |
| TagRules.AddStyles | backend/src/services/helloFreshParser.js:256-274 | the six style rules add their tags in order |
| TagRules.AddIf | backend/src/services/helloFreshParser.js:242-244 | a rule adds its tag exactly when its condition holds |
| TagRules.Add | backend/src/services/helloFreshParser.js:224 | one `add` keeps the set equal to the distinct elements added |
| TagRules.GenerateTagsFails | backend/src/services/helloFreshParser.js:216-239 | the generator throws exactly when the title or cuisine is truthy and not a string, or the category is (or holds) a non-string |
| TagRules.FirstSixShape | backend/src/services/helloFreshParser.js:217-276 | the first six of a set's insertion order: at most six, none twice, each an entry, in first-occurrence order; all entries when at most six are distinct |
| TagRules.GenerateTagsShape | backend/src/services/helloFreshParser.js:216-277 | at most six tags, none twice, each a candidate, the first six distinct candidates in order; all of them when there are at most six |
| TagRules.TimeTagFirst | backend/src/services/helloFreshParser.js:221-225 | the time tag, when there is one, comes first |
| TagRules.RuleTagsPassCheck | backend/src/services/helloFreshParser.js:243-273 | each rule tag meets the fixed-point condition `TitledFrom` |
| TagRules.RulesAddRuleTags | backend/src/services/helloFreshParser.js:241-274 | the rules only ever add the ten rule tags |
| TagRules.CandidatesTitled | backend/src/services/helloFreshParser.js:216-274 | every candidate is already in title case |
| TagRules.GenerateTagsTitled | backend/src/services/helloFreshParser.js:216-277 | every returned tag is already in title case |
| TagRules.MissingLetter | backend/src/services/helloFreshParser.js:242 | a text lacking a word's first letter does not include the word |
| TagRules.SteakTitleIsNotBeef | backend/src/services/helloFreshParser.js:245 | "steak" in the title alone does not add "Beef" |
| TagRules.SteakIngredientIsBeef | backend/src/services/helloFreshParser.js:245 | "steak" among the ingredient names does |
| RecipeImport.FindRecipe | backend/src/services/helloFreshParser.js:19-20 | `find` returns a Recipe item of the graph |
| RecipeImport.BlockRecipe | backend/src/services/helloFreshParser.js:17-24 | a block contributes only a Recipe object: itself or its graph's first Recipe; a parse error or a throw contributes nothing |
| RecipeImport.SelectRecipe | backend/src/services/helloFreshParser.js:15-25 | the selected data is a Recipe object |
| RecipeImport.ScanBlocks | backend/src/services/helloFreshParser.js:15-25 | the scan loop, overwriting `recipeData`, ends with the selected recipe |
| RecipeImport.FindRecipeFirst | backend/src/services/helloFreshParser.js:20 | the first Recipe item is found when nothing before it is `null` |
| RecipeImport.FindRecipeFails | backend/src/services/helloFreshParser.js:19 | `find` throws exactly when it reaches a `null` item before any Recipe |
| RecipeImport.LastRecipeWins | backend/src/services/helloFreshParser.js:16-21 | the last block with a recipe wins, whatever comes before it |
| RecipeImport.NoRecipeFound | backend/src/services/helloFreshParser.js:27-32 | the scan finds nothing exactly when no block has a recipe |
| RecipeImport.SecondRecipeBlockWins | backend/src/services/helloFreshParser.js:16-21 | of two Recipe blocks the second is used |
| RecipeImport.IngredientStrings | backend/src/services/helloFreshParser.js:41-46 | the ingredient loop throws exactly on a non-string entry; otherwise one parsed line per entry, in order |
| RecipeImport.MapIngredients | backend/src/services/helloFreshParser.js:39-46 | the loop computes the ingredient list of the property |
| RecipeImport.IngredientsListed | backend/src/services/helloFreshParser.js:41-46 | a read ingredient array gives one parsed line per entry, in order |
| RecipeImport.InstructionText | backend/src/services/helloFreshParser.js:51-55 | a `null` instruction throws; a string is kept; an object contributes its truthy `text` |
| RecipeImport.CollectInstructions | backend/src/services/helloFreshParser.js:48-57 | the loop throws exactly on a `null` entry and keeps at most one direction per entry |
| RecipeImport.MapInstructions | backend/src/services/helloFreshParser.js:48-57 | the loop computes the direction list of the property; an array of strings and objects with a truthy `text` gives those texts, one per entry, in order |
| RecipeImport.StringInstructions | backend/src/services/helloFreshParser.js:50-52 | instructions given as strings are the directions, unchanged |
| RecipeImport.TextInstructions | backend/src/services/helloFreshParser.js:48-57 | instructions that are strings or objects with a truthy `text` give one direction each, in order: the string or the object's `text` |
| RecipeImport.RoundThird | backend/src/services/helloFreshParser.js:74 | `Math.round(total / 3)` is within a third of a unit of `total / 3` |
| RecipeImport.DurationProp | backend/src/services/helloFreshParser.js:64-71 | a read time is never negative |
| RecipeImport.ReadTimes | backend/src/services/helloFreshParser.js:60-77 | the time step computes the three times |
| RecipeImport.TimesShape | backend/src/services/helloFreshParser.js:64-80 | given times are kept; a total alone splits into a third and the rest, summing to the total, cook at least prep minus one; the tag minutes are the total when set, else prep plus cook |
| RecipeImport.ThirtyFiveText | backend/src/services/helloFreshParser.js:188-192 | "PT35M" is 35 minutes |
| RecipeImport.ThirtyFiveMinutes | backend/src/services/helloFreshParser.js:70-80 | "PT35M" alone splits into 12 and 23 and tags by 35 |
| RecipeImport.Servings | backend/src/services/helloFreshParser.js:89 | the servings are never 0 |
| RecipeImport.NumericServings | backend/src/services/helloFreshParser.js:89 | a non-zero number of servings is kept and 0 falls back to 2 |
| RecipeImport.ParseJsonLd | backend/src/services/helloFreshParser.js:38-96 | the method builds the recipe of the structured-data object |
| RecipeImport.JsonLdFields | backend/src/services/helloFreshParser.js:85-91 | the recipe has a title, non-zero servings and the step's times |
| RecipeImport.JsonLdLists | backend/src/services/helloFreshParser.js:41-57 | one parsed ingredient per listed string, in order; at most one direction per instruction, and exactly each instruction's string or `text`, in order, when every instruction carries one |
| RecipeImport.JsonLdTags | backend/src/services/helloFreshParser.js:80-83 | at most six tags, led by the time tag of the tag minutes |
| RecipeImport.CollectIngredients | backend/src/services/helloFreshParser.js:104-110 | the element loop yields the parsed non-blank trimmed texts |
| RecipeImport.CollectDirections | backend/src/services/helloFreshParser.js:112-118 | the element loop yields the trimmed texts longer than ten code units |
| RecipeImport.ParseHtml | backend/src/services/helloFreshParser.js:98-133 | the method builds the fallback recipe |
| RecipeImport.KeepCleanedSound | backend/src/services/helloFreshParser.js:105-118 | every kept element comes from an accepted cleaned text; no more elements than texts |
| RecipeImport.KeepCleanedComplete | backend/src/services/helloFreshParser.js:105-118 | every accepted cleaned text contributes its element |
| RecipeImport.HtmlDirectionsSound | backend/src/services/helloFreshParser.js:113-118 | every direction is a trimmed text longer than ten code units |
| RecipeImport.HtmlDirectionsComplete | backend/src/services/helloFreshParser.js:113-118 | every text longer than ten code units once trimmed is a direction |
| RecipeImport.HtmlIngredientsFromTexts | backend/src/services/helloFreshParser.js:105-110 | the ingredients are exactly the parses of the non-blank trimmed texts |
| RecipeImport.HtmlFields | backend/src/services/helloFreshParser.js:100-128 | the fallback has a title, two servings and no times |
| RecipeImport.HtmlCandidates | backend/src/services/helloFreshParser.js:120 | with a title, no cuisine, category or time, the candidates are the protein tags followed by the style tags |
| RecipeImport.HtmlTagsOf | backend/src/services/helloFreshParser.js:120 | tagging the fallback never throws and gives at most six rule tags |
| RecipeImport.HtmlTags | backend/src/services/helloFreshParser.js:120 | the fallback's tags are at most six rule tags: no time, cuisine or category tag |
| RecipeImport.ImportPage | backend/src/services/helloFreshParser.js:14-32 | the import maps the selected block, or the page when there is none |
| RecipeImport.ImportChoosesSource | backend/src/services/helloFreshParser.js:27-29 | once a block has a recipe, the last such block is mapped |
| RecipeImport.ImportFallsBack | backend/src/services/helloFreshParser.js:31-32 | the page is read exactly when no block has a recipe |
| RecipeRoutes.TagsOf | backend/src/routes/recipes.js:26 | `(tags || [])` throws exactly on a truthy non-array or an array with a non-string; otherwise the strings, in order |
| RecipeRoutes.ProcessTags | backend/src/routes/recipes.js:25-37 | the method, unshifting into the normalised array, returns the distinct normalised tags with the time tag |
| RecipeRoutes.AddTimeTagMembers | backend/src/routes/recipes.js:29-36 | the result holds exactly the normalised tags and the time tag, each once, with at most one more element |
| RecipeRoutes.FirstOccurrencesLength | backend/src/routes/recipes.js:36 | deduplicating never lengthens a list |
| RecipeRoutes.UnshiftTimeTag | backend/src/routes/recipes.js:31-33 | the time tag is put in front exactly when it is not already there; nothing but the time tag is added |
| RecipeRoutes.TimeTagInFront | backend/src/routes/recipes.js:31-33 | a time tag not among the tags comes first |
| RecipeRoutes.TimeTagKeepsPlace | backend/src/routes/recipes.js:31-36 | a time tag already among the tags stays where it is |
| RecipeRoutes.NormalizedOrigin | backend/src/routes/recipes.js:26-36 | every tag left after adding the time tag is the time tag or the title case of a trimmed input tag |
| RecipeRoutes.ProcessedTagOrigin | backend/src/routes/recipes.js:25-37 | every stored tag is the time tag or the title case of a trimmed input tag |
| RecipeRoutes.BlankTagKept | backend/src/routes/recipes.js:26-36 | a blank tag is kept, as "" |
| RecipeRoutes.BlankNormalized | backend/src/routes/recipes.js:26 | a blank tag normalises to "" |
| RecipeRoutes.NoTimeTag | backend/src/routes/recipes.js:29-31 | no times give no time tag |
| RecipeRoutes.StepsNumbered | backend/src/routes/recipes.js:112-115 | steps are numbered consecutively from the first number, one per element, in order |
| RecipeRoutes.DirectionText | backend/src/routes/recipes.js:114 | a `null` direction throws; a string is its own instruction |
| RecipeRoutes.DirectionStepsShape | backend/src/routes/recipes.js:111-116 | mapping directions throws exactly on a `null` entry; step `i + 1` holds the string or the object's `instruction` |
| RecipeRoutes.IngredientRowOf | backend/src/routes/recipes.js:105-109 | copying an ingredient throws exactly on `null` |
| RecipeRoutes.RowsIgnoreOtherFields | backend/src/routes/recipes.js:160-165 | two ingredients agreeing on name, amount and unit are stored alike |
| RecipeRoutes.IngredientRowsShape | backend/src/routes/recipes.js:104-110 | one row per ingredient, in order, holding its three fields; throws exactly on a `null` entry |
| Seed.AllTagsShape | backend/prisma/seed.js:263-265 | the sample's tags follow unchanged behind a time tag present exactly for a positive total |
| Seed.TimeTagRepeated | backend/prisma/seed.js:265 | a sample already carrying its time tag stores it twice: the seed does not deduplicate |
| Seed.FirstOccurrencesOfDistinct | backend/src/routes/recipes.js:36 | a list without repeats is its own deduplication |
| Seed.AddTimeTagDistinct | backend/src/routes/recipes.js:31-36 | a new time tag in front of distinct tags leaves nothing to merge |
| Seed.SeedAgreesWithRoutes | backend/prisma/seed.js:263-265 | for distinct tags without the time tag the seed stores what the create route stores |
| Seed.SeedStepsNumbered | backend/prisma/seed.js:280-283 | step `i + 1` is the `i`-th direction |
| Seed.TeriyakiTags | backend/prisma/seed.js:17-23 | 15 + 20 minutes puts "45 Minutes" before the sample's tags |
| Seed.TacoTags | backend/prisma/seed.js:75-81 | 15 + 15 minutes puts "30 Minutes" in front |
| Seed.ShrimpTags | backend/prisma/seed.js:223-229 | 5 + 10 minutes puts "15 Minutes" in front |

The functions the rows above state properties of, each the model of a
source function, followed by the members whose contracts state those
properties:

- `IngredientLine.ParseIngredient` (backend/src/services/helloFreshParser.js:156-184, `parseIngredientString`): `ParseIngredientIsRegex`, `NameShape`, `UnitShape`, `AmountIsFirstCharacter`, the `IngredientExamples` lemmas.
- `IngredientLine.RegexMatch` (backend/src/services/helloFreshParser.js:162, the regular expression's backtracking search): `MatchLineIsRegex`, `SingleLineMatch`, `FirstAmountThatFits`.
- `Fractions.NormalizeFractions` (backend/src/services/helloFreshParser.js:136-154, `normalizeFractions`): `NormalizeIsSinglePass`, `NoGlyphSurvives`, `Idempotent`, `EachGlyph`, `GlyphFreeUnchanged`.
- `TagText.TitleCase` (backend/src/services/helloFreshParser.js:198-204 and backend/src/routes/recipes.js:6-12, `toTitleCase`): `TitleCaseChars`, `TitleCaseIdempotent`, `TitleCaseFixedPoint`.
- `TagText.TimeTag` (backend/src/services/helloFreshParser.js:207-214, backend/src/routes/recipes.js:15-22 and backend/prisma/seed.js:6-13, `getTimeTag`): `TimeTagBuckets`, `TimeTagShape`, `TimeTagMonotone`, `TimeTagEdges`.
- `TagRules.GenerateTagsSpec` (backend/src/services/helloFreshParser.js:216-277, `generateTags`): `GenerateTags`, `GenerateTagsShape`, `GenerateTagsFails`, `TimeTagFirst`, `GenerateTagsTitled`.
- `RecipeImport.TimesOf` (backend/src/services/helloFreshParser.js:59-77, the time step) and `RecipeImport.TagMinutes` (backend/src/services/helloFreshParser.js:80, `calculatedTotalTime`): `ReadTimes`, `TimesShape`.
- `RecipeImport.ParseJsonLdSpec` (backend/src/services/helloFreshParser.js:38-96, `parseJsonLd`): `ParseJsonLd`, `JsonLdFields`, `JsonLdLists`, `JsonLdTags`.
- `RecipeImport.ParseHtmlSpec` (backend/src/services/helloFreshParser.js:98-133, `parseHtml`): `ParseHtml`, `HtmlFields`, `HtmlDirectionsSound`, `HtmlDirectionsComplete`, `HtmlIngredientsFromTexts`, `HtmlTags`.
- `RecipeImport.ImportSpec` (backend/src/services/helloFreshParser.js:14-32, `parseHelloFreshUrl` after the fetch): `ImportPage`, `ImportChoosesSource`, `ImportFallsBack`.
- `RecipeRoutes.ProcessTagsSpec` (backend/src/routes/recipes.js:25-37, `processTags`): `ProcessTags`, `AddTimeTagMembers`, `TimeTagInFront`, `TimeTagKeepsPlace`, `ProcessedTagOrigin`.
- `RecipeRoutes.DirectionSteps` (backend/src/routes/recipes.js:111-116, the direction map): `DirectionStepsShape`, `StepsNumbered`.
- `RecipeRoutes.IngredientRows` (backend/src/routes/recipes.js:104-110, the ingredient map): `IngredientRowsShape`, `RowsIgnoreOtherFields`.
- `Seed.AllTags` (backend/prisma/seed.js:263-265, `allTags`): `AllTagsShape`, `TimeTagRepeated`, `SeedAgreesWithRoutes`.

## Left out

- Fetching the page (axios), loading it (cheerio) and `JSON.parse` are not modelled: a script block arrives as an already parsed value or as a parse error (`None`), and the page arrives as the texts the CSS selectors pick (`Page`).
- Which elements the CSS selectors of `parseHtml` match is not modelled; the element texts are inputs, in document order.
- The Express handlers and the Prisma calls (create, update, delete, `connectOrCreate`) are left out: they store what the modelled functions compute.
- The error wrapping of `parseHelloFreshUrl` (`Failed to fetch recipe: ...`) is collapsed into one `Failure`; messages are not modelled.
- JSON numbers are integers; fractional numbers (as prep times or yields) are not modelled.
- RecipeRoutes.ProcessTags: `prepTime` and `cookTime` are numbers or absent; a string time in the request body, which JavaScript would concatenate, is not modelled.
- JsText.ToLower: case mapping covers ASCII letters only; Unicode case mapping, including letters whose case forms differ in length, is not modelled.
- JsText.Utf16Length: a character outside the Basic Multilingual Plane counts as two code units, but surrogate pairs are not otherwise modelled.
- Durations.ParseDuration: the hours and minutes are unbounded integers; `parseInt` losing precision on very long numerals is not modelled.
- Seed: the sample recipes' descriptions, images, ingredients and directions are not copied into the model; the tag and step computations are proved for any sample, and the three recipes with the listed times are checked.
- The frontend and the other routes (listing, search, tags, import route) are outside this model.
