/// What the create and update routes do to a recipe body before storing it:
/// the tags are trimmed, title-cased, given the time tag and made distinct;
/// the directions are numbered from 1; the ingredients keep three fields.
module RecipeRoutes {
  import opened JsValues
  import opened JsText
  import opened TagText
  import opened TagRules

  // ---------------------------------------------------------------------
  // Tags.
  // ---------------------------------------------------------------------

  /** `(tags || [])` ready for `.map(tag => tag.trim())`: a falsy value is no
      tags; `map` exists only on arrays and `trim` only on strings. */
  function TagsOf(tags: Option<Json>): (r: Result<seq<string>>)
    ensures r.Ok? <==>
              (!Truthy(tags) || (tags.value.JArr? && forall i :: 0 <= i < |tags.value.items| ==> tags.value.items[i].JStr?))
    ensures r.Ok? && Truthy(tags) ==>
              |r.value| == |tags.value.items| &&
              forall i :: 0 <= i < |r.value| ==> r.value[i] == tags.value.items[i].s
  {
    if !Truthy(tags) then Ok([])
    else if tags.value.JArr? then MapAll(tags.value.items, StringOf)
    else Failure
  }

  function StringOf(v: Json): Result<string> {
    if v.JStr? then Ok(v.s) else Failure
  }

  /** `tags.map(tag => toTitleCase(tag.trim()))`. */
  function NormalizeTags(tags: seq<string>): seq<string> {
    seq(|tags|, i requires 0 <= i < |tags| => TitleCase(Trim(tags[i])))
  }

  /** The time tag of `(prepTime || 0) + (cookTime || 0)`. */
  function RouteTimeTag(prepTime: Option<int>, cookTime: Option<int>): Option<string> {
    TimeTag(Some(OrZero(prepTime) + OrZero(cookTime)))
  }

  /** The normalised tags, with the time tag put in front unless it is
      already among them. */
  function WithTimeTag(normalized: seq<string>, timeTag: Option<string>): seq<string> {
    if timeTag.Some? && timeTag.value !in normalized then [timeTag.value] + normalized else normalized
  }

  /** The time tag added to the normalised tags, then `[...new Set(...)]`. */
  function AddTimeTag(normalized: seq<string>, timeTag: Option<string>): seq<string> {
    Dedup(WithTimeTag(normalized, timeTag))
  }

  /** `processTags(tags, prepTime, cookTime)`. */
  function ProcessTagsSpec(tags: Option<Json>, prepTime: Option<int>, cookTime: Option<int>): Result<seq<string>> {
    match TagsOf(tags)
    case Failure => Failure
    case Ok(ts) => Ok(AddTimeTag(NormalizeTags(ts), RouteTimeTag(prepTime, cookTime)))
  }

  /** `processTags`, unshifting the time tag into the normalised array in place. */
  method ProcessTags(tags: Option<Json>, prepTime: Option<int>, cookTime: Option<int>) returns (r: Result<seq<string>>)
    ensures r == ProcessTagsSpec(tags, prepTime, cookTime)
  {
    var given := TagsOf(tags);
    if given.Failure? {
      return Failure;
    }
    var normalizedTags := NormalizeTags(given.value);
    var totalTime := OrZero(prepTime) + OrZero(cookTime);
    var timeTag := TimeTag(Some(totalTime));
    normalizedTags := UnshiftTimeTag(normalizedTags, timeTag);
    r := Ok(Dedup(normalizedTags));
    ProcessTagsOf(tags, given.value, prepTime, cookTime);
  }

  /** `if (timeTag && !normalizedTags.includes(timeTag)) normalizedTags.unshift(timeTag)`. */
  method UnshiftTimeTag(normalizedTags: seq<string>, timeTag: Option<string>) returns (r: seq<string>)
    ensures r == WithTimeTag(normalizedTags, timeTag)
    ensures timeTag.Some? ==> timeTag.value in r
    ensures forall x :: x in r ==> x in normalizedTags || timeTag == Some(x)
  {
    r := normalizedTags;
    if timeTag.Some? && timeTag.value !in r {
      r := [timeTag.value] + r;
    }
  }

  /** The result holds exactly the normalised tags and the time tag, each
      once; nothing is dropped, so unlike the import there is no cap. */
  lemma AddTimeTagMembers(normalized: seq<string>, timeTag: Option<string>)
    ensures var r := AddTimeTag(normalized, timeTag);
            && NoDuplicates(r)
            && (forall x :: x in r <==> x in normalized || timeTag == Some(x))
            && |r| <= |normalized| + 1
  {
    var withTime := WithTimeTag(normalized, timeTag);
    DedupShape(withTime);
    DedupIsFirstOccurrences(withTime);
    FirstOccurrencesLength(withTime);
  }

  lemma {:induction false} FirstOccurrencesLength(xs: seq<string>)
    ensures |FirstOccurrences(xs)| <= |xs|
    decreases |xs|
  {
    if xs != [] {
      FirstOccurrencesLength(xs[..|xs| - 1]);
    }
  }

  /** A time tag that is not among the tags yet comes first. */
  lemma TimeTagInFront(normalized: seq<string>, timeTag: Option<string>)
    requires timeTag.Some? && timeTag.value !in normalized
    ensures AddTimeTag(normalized, timeTag) != [] && AddTimeTag(normalized, timeTag)[0] == timeTag.value
  {
    DedupShape(WithTimeTag(normalized, timeTag));
  }

  /** A time tag already among the tags stays where it is: the result is the
      normalised tags, first occurrences only, in their order. */
  lemma TimeTagKeepsPlace(normalized: seq<string>, timeTag: Option<string>)
    requires timeTag.None? || timeTag.value in normalized
    ensures AddTimeTag(normalized, timeTag) == FirstOccurrences(normalized)
  {
    DedupIsFirstOccurrences(normalized);
  }

  /** Every tag of the result is the time tag or the normalised form of a
      given tag. */
  lemma NormalizedOrigin(ts: seq<string>, timeTag: Option<string>, x: string)
    requires x in AddTimeTag(NormalizeTags(ts), timeTag)
    ensures timeTag == Some(x) || exists i :: 0 <= i < |ts| && x == TitleCase(Trim(ts[i]))
  {
    var normalized := NormalizeTags(ts);
    AddTimeTagMembers(normalized, timeTag);
    if x in normalized {
      var i :| 0 <= i < |normalized| && normalized[i] == x;
      assert x == TitleCase(Trim(ts[i]));
    }
  }

  /** Every stored tag is the time tag or the title case of a trimmed
      posted tag (`TagsOf` says which strings those are). */
  lemma ProcessedTagOrigin(tags: Option<Json>, ts: seq<string>, prepTime: Option<int>, cookTime: Option<int>, x: string)
    requires TagsOf(tags) == Ok(ts)
    requires x in AddTimeTag(NormalizeTags(ts), RouteTimeTag(prepTime, cookTime))
    ensures ProcessTagsSpec(tags, prepTime, cookTime) == Ok(AddTimeTag(NormalizeTags(ts), RouteTimeTag(prepTime, cookTime)))
    ensures RouteTimeTag(prepTime, cookTime) == Some(x) || exists i :: 0 <= i < |ts| && x == TitleCase(Trim(ts[i]))
  {
    ProcessTagsOf(tags, ts, prepTime, cookTime);
    NormalizedOrigin(ts, RouteTimeTag(prepTime, cookTime), x);
  }

  lemma ProcessTagsOf(tags: Option<Json>, ts: seq<string>, prepTime: Option<int>, cookTime: Option<int>)
    requires TagsOf(tags) == Ok(ts)
    ensures ProcessTagsSpec(tags, prepTime, cookTime) == Ok(AddTimeTag(NormalizeTags(ts), RouteTimeTag(prepTime, cookTime)))
  {
  }

  /** A tag of white space only is kept, as "". */
  lemma BlankTagKept(tags: Option<Json>, blank: string)
    requires blank == "   " && tags == Some(JArr([JStr(blank)]))
    ensures ProcessTagsSpec(tags, None, None) == Ok([""])
  {
    OneTag(tags, blank);
    ProcessTagsOf(tags, [blank], None, None);
    BlankNormalized(blank);
    NoTimeTag();
    OneEmptyTag();
  }

  lemma OneTag(tags: Option<Json>, t: string)
    requires tags == Some(JArr([JStr(t)]))
    ensures TagsOf(tags) == Ok([t])
  {
    assert tags.value.items[0].JStr?;
    var r := TagsOf(tags);
    assert r.Ok?;
    assert |r.value| == 1 && r.value[0] == t;
    assert r.value == [t];
  }

  lemma NoTimeTag()
    ensures RouteTimeTag(None, None) == None
  {
  }

  lemma OneEmptyTag()
    ensures AddTimeTag([[]], None) == [[]]
  {
    TimeTagKeepsPlace([[]], None);
    assert FirstOccurrences([[]]) == [[]];
  }

  lemma BlankNormalized(blank: string)
    requires blank == "   "
    ensures NormalizeTags([blank]) == [[]]
  {
    TrimEmpty(blank);
    assert TitleCase(Trim(blank)) == [];
  }

  // ---------------------------------------------------------------------
  // Directions and ingredients.
  // ---------------------------------------------------------------------

  /** A stored direction. */
  datatype Step<T> = Step(stepNumber: int, instruction: T)

  /** `xs.map((x, index) => ({ stepNumber: index + first, ... }))`. */
  function NumberSteps<T>(xs: seq<T>, first: int): seq<Step<T>>
    decreases |xs|
  {
    if xs == [] then [] else [Step(first, xs[0])] + NumberSteps(xs[1..], first + 1)
  }

  /** The steps are numbered consecutively from `first`, in input order,
      one per element. */
  lemma {:induction false} StepsNumbered<T>(xs: seq<T>, first: int)
    ensures |NumberSteps(xs, first)| == |xs|
    ensures forall i :: 0 <= i < |xs| ==> NumberSteps(xs, first)[i] == Step(first + i, xs[i])
    decreases |xs|
  {
    if xs != [] {
      StepsNumbered(xs[1..], first + 1);
    }
  }

  /** `typeof dir === 'string' ? dir : dir.instruction`. */
  function DirectionText(dir: Json): (r: Result<Option<Json>>)
    ensures r.Failure? <==> dir == JNull
    ensures dir.JStr? ==> r == Ok(Some(dir))
  {
    if dir.JStr? then Ok(Some(dir)) else Prop(dir, "instruction")
  }

  /** `directions?.map(...) || []`: a missing or `null` list is no steps;
      only arrays have `map`. */
  function DirectionSteps(directions: Option<Json>): Result<seq<Step<Option<Json>>>> {
    if directions.None? || directions.value == JNull then Ok([])
    else if directions.value.JArr? then
      match MapAll(directions.value.items, DirectionText)
      case Failure => Failure
      case Ok(texts) => Ok(NumberSteps(texts, 1))
    else Failure
  }

  /** Step `i + 1` holds the `i`-th direction: the string itself, or the
      `instruction` of an object; a `null` direction throws. */
  lemma DirectionStepsShape(items: seq<Json>)
    ensures DirectionSteps(Some(JArr(items))).Ok? <==> forall i :: 0 <= i < |items| ==> items[i] != JNull
    ensures DirectionSteps(Some(JArr(items))).Ok? ==>
              var steps := DirectionSteps(Some(JArr(items))).value;
              && |steps| == |items|
              && forall i :: 0 <= i < |items| ==>
                   && steps[i].stepNumber == i + 1
                   && (items[i].JStr? ==> steps[i].instruction == Some(items[i]))
                   && (items[i].JObj? ==> steps[i].instruction == Get(items[i].fields, "instruction"))
  {
    var r := MapAll(items, DirectionText);
    if r.Ok? {
      StepsNumbered(r.value, 1);
    }
  }

  /** A stored ingredient: only these three fields are copied. */
  datatype IngredientRow = IngredientRow(name: Option<Json>, amount: Option<Json>, unit: Option<Json>)

  /** `({ name: ing.name, amount: ing.amount, unit: ing.unit })`. */
  function IngredientRowOf(ing: Json): (r: Result<IngredientRow>)
    ensures r.Failure? <==> ing == JNull
  {
    match ing
    case JNull => Failure
    case JObj(fields) => Ok(IngredientRow(Get(fields, "name"), Get(fields, "amount"), Get(fields, "unit")))
    case _ => Ok(IngredientRow(None, None, None))
  }

  /** `ingredients?.map(...) || []`. */
  function IngredientRows(ingredients: Option<Json>): Result<seq<IngredientRow>> {
    if ingredients.None? || ingredients.value == JNull then Ok([])
    else if ingredients.value.JArr? then MapAll(ingredients.value.items, IngredientRowOf)
    else Failure
  }

  /** Two ingredient objects that agree on name, amount and unit are stored
      alike, whatever else they hold. */
  lemma RowsIgnoreOtherFields(a: map<string, Json>, b: map<string, Json>)
    requires Get(a, "name") == Get(b, "name") && Get(a, "amount") == Get(b, "amount")
    requires Get(a, "unit") == Get(b, "unit")
    ensures IngredientRowOf(JObj(a)) == IngredientRowOf(JObj(b))
  {
    assert Get(a, "name") == Get(b, "name");
    assert Get(a, "amount") == Get(b, "amount");
    assert Get(a, "unit") == Get(b, "unit");
  }

  /** One row per ingredient, in order. */
  lemma IngredientRowsShape(items: seq<Json>)
    ensures IngredientRows(Some(JArr(items))).Ok? <==> forall i :: 0 <= i < |items| ==> items[i] != JNull
    ensures IngredientRows(Some(JArr(items))).Ok? ==>
              var rows := IngredientRows(Some(JArr(items))).value;
              && |rows| == |items|
              && forall i :: 0 <= i < |items| && items[i].JObj? ==>
                   rows[i] == IngredientRow(Get(items[i].fields, "name"), Get(items[i].fields, "amount"),
                                            Get(items[i].fields, "unit"))
  {
  }
}
