/// `generateTags`: the tags an imported recipe gets from its total time,
/// cuisine, category, title and ingredient names, collected in an
/// insertion-ordered `Set` and cut to six.
module TagRules {
  import opened JsValues
  import opened JsText
  import opened TagText
  import opened IngredientLine

  // ---------------------------------------------------------------------
  // The insertion-ordered set.
  // ---------------------------------------------------------------------

  /** `set.add(t)` on a `Set` listed in insertion order. */
  function AddTag(tags: seq<string>, t: string): (r: seq<string>)
    ensures t in r && forall x :: x in r <==> x in tags || x == t
  {
    if t in tags then tags else tags + [t]
  }

  /** `[...new Set(xs)]`: adding the elements one after another. */
  function Dedup(xs: seq<string>): seq<string>
  {
    if xs == [] then [] else AddTag(Dedup(xs[..|xs| - 1]), xs[|xs| - 1])
  }

  predicate NoDuplicates(xs: seq<string>) {
    forall i, j :: 0 <= i < j < |xs| ==> xs[i] != xs[j]
  }

  /** The elements of `xs` that do not occur earlier in `xs`, in order: an
      independent reading of what the set keeps. */
  function FirstOccurrences(xs: seq<string>): seq<string>
  {
    if xs == [] then []
    else
      var init := xs[..|xs| - 1];
      var last := xs[|xs| - 1];
      FirstOccurrences(init) + (if last in init then [] else [last])
  }

  lemma DedupSnoc(xs: seq<string>, x: string)
    ensures Dedup(xs + [x]) == AddTag(Dedup(xs), x)
  {
    assert (xs + [x])[..|xs|] == xs;
  }

  /** The set holds exactly the elements added, each once, and the first
      element added stays first. */
  lemma {:induction false} DedupShape(xs: seq<string>)
    ensures forall x :: x in Dedup(xs) <==> x in xs
    ensures NoDuplicates(Dedup(xs))
    ensures xs != [] ==> Dedup(xs) != [] && Dedup(xs)[0] == xs[0]
    decreases |xs|
  {
    if xs != [] {
      var init := xs[..|xs| - 1];
      DedupShape(init);
      assert xs == init + [xs[|xs| - 1]];
      if init != [] {
        assert init[0] == xs[0];
      }
    }
  }

  /** Adding one after another keeps the first occurrences in order. */
  lemma {:induction false} DedupIsFirstOccurrences(xs: seq<string>)
    ensures Dedup(xs) == FirstOccurrences(xs)
    decreases |xs|
  {
    if xs != [] {
      var init := xs[..|xs| - 1];
      DedupIsFirstOccurrences(init);
      DedupShape(init);
    }
  }

  /** `slice(0, 6)`. */
  function Take6(xs: seq<string>): (r: seq<string>)
    ensures |r| == if |xs| <= 6 then |xs| else 6
    ensures r == xs[..|r|]
  {
    if |xs| <= 6 then xs else xs[..6]
  }

  // ---------------------------------------------------------------------
  // The inputs as the parser hands them over.
  // ---------------------------------------------------------------------

  /** `(title || '')` ready for `.toLowerCase()`: a falsy title is "", a
      string is itself, and anything else has no `toLowerCase` and throws. */
  function TitleText(title: Option<Json>): (r: Result<string>)
    ensures r.Failure? <==> Truthy(title) && !title.value.JStr?
  {
    if !Truthy(title) then Ok("")
    else if title.value.JStr? then Ok(title.value.s)
    else Failure
  }

  /** `toTitleCase(v)` on a JSON value: only strings have `toLowerCase`. */
  function TitleCaseOf(v: Json): (r: Result<string>)
    ensures r.Ok? <==> v.JStr?
    ensures r.Ok? ==> r.value == TitleCase(v.s)
  {
    if v.JStr? then Ok(TitleCase(v.s)) else Failure
  }

  /** `toTitleCase` on each element of an array, in order; one element
      that is not a string makes it throw. */
  function TitleCaseAll(items: seq<Json>): (r: Result<seq<string>>)
    ensures r.Ok? <==> forall i :: 0 <= i < |items| ==> items[i].JStr?
    ensures r.Ok? ==> |r.value| == |items| && forall i :: 0 <= i < |items| ==> r.value[i] == TitleCase(items[i].s)
  {
    if items == [] then Ok([])
    else
      match TitleCaseAll(items[..|items| - 1])
      case Failure => Failure
      case Ok(ts) =>
        match TitleCaseOf(items[|items| - 1])
        case Failure => Failure
        case Ok(t) => Ok(ts + [t])
  }

  /** The cuisine's tag: none when it is falsy. */
  function CuisineTags(cuisine: Option<Json>): Result<seq<string>> {
    if !Truthy(cuisine) then Ok([])
    else
      match TitleCaseOf(cuisine.value)
      case Failure => Failure
      case Ok(t) => Ok([t])
  }

  /** The category's tags: none when it is falsy, one per element of an
      array, else the one of a string. */
  function CategoryTags(category: Option<Json>): Result<seq<string>> {
    if !Truthy(category) then Ok([])
    else if category.value.JArr? then TitleCaseAll(category.value.items)
    else
      match TitleCaseOf(category.value)
      case Failure => Failure
      case Ok(t) => Ok([t])
  }

  /** `ingredients.map(i => i.name.toLowerCase()).join(' ')`. */
  function IngredientNames(ingredients: seq<Ingredient>): string {
    if ingredients == [] then []
    else if |ingredients| == 1 then ToLower(ingredients[0].name)
    else ToLower(ingredients[0].name) + " " + IngredientNames(ingredients[1..])
  }

  function Rule(condition: bool, tag: string): seq<string> {
    if condition then [tag] else []
  }

  predicate ChickenRule(titleLower: string, names: string) {
    Includes(titleLower, "chicken") || Includes(names, "chicken")
  }

  /** "steak" counts only among the ingredient names, not in the title. */
  predicate BeefRule(titleLower: string, names: string) {
    Includes(titleLower, "beef") || Includes(names, "beef") || Includes(names, "steak")
  }

  predicate PorkRule(titleLower: string, names: string) {
    Includes(titleLower, "pork") || Includes(names, "pork")
  }

  predicate SeafoodRule(titleLower: string, names: string) {
    Includes(titleLower, "shrimp") || Includes(titleLower, "salmon") || Includes(titleLower, "fish")
    || Includes(names, "shrimp") || Includes(names, "salmon") || Includes(names, "fish")
  }

  /** The protein tags, in the order the rules run. */
  function ProteinTags(titleLower: string, names: string): seq<string> {
    Rule(ChickenRule(titleLower, names), "Chicken")
    + Rule(BeefRule(titleLower, names), "Beef")
    + Rule(PorkRule(titleLower, names), "Pork")
    + Rule(SeafoodRule(titleLower, names), "Seafood")
  }

  predicate VegetarianRule(titleLower: string) {
    Includes(titleLower, "vegetarian") || Includes(titleLower, "veggie")
  }

  predicate PastaRule(titleLower: string) {
    Includes(titleLower, "pasta") || Includes(titleLower, "spaghetti")
  }

  predicate MexicanRule(titleLower: string) {
    Includes(titleLower, "taco") || Includes(titleLower, "burrito")
  }

  predicate AsianRule(titleLower: string) {
    Includes(titleLower, "stir fry") || Includes(titleLower, "teriyaki") || Includes(titleLower, "asian")
  }

  /** The style tags, read from the title alone. */
  function StyleTags(titleLower: string): seq<string> {
    Rule(VegetarianRule(titleLower), "Vegetarian")
    + Rule(Includes(titleLower, "bowl"), "Bowl")
    + Rule(Includes(titleLower, "salad"), "Salad")
    + Rule(PastaRule(titleLower), "Pasta")
    + Rule(MexicanRule(titleLower), "Mexican")
    + Rule(AsianRule(titleLower), "Asian")
  }

  function OptionTag(t: Option<string>): seq<string> {
    match t
    case None => []
    case Some(x) => [x]
  }

  /** Every tag `generateTags` adds, in the order it adds them, or the
      TypeError one of its inputs raises. */
  function Candidates(title: Option<Json>, ingredients: seq<Ingredient>, cuisine: Option<Json>,
                      category: Option<Json>, total: Option<int>): Result<seq<string>>
  {
    match TitleText(title)
    case Failure => Failure
    case Ok(t) =>
      match CuisineTags(cuisine)
      case Failure => Failure
      case Ok(cu) =>
        match CategoryTags(category)
        case Failure => Failure
        case Ok(ca) =>
          var titleLower := ToLower(t);
          var names := IngredientNames(ingredients);
          Ok(OptionTag(TimeTag(total)) + cu + ca + ProteinTags(titleLower, names) + StyleTags(titleLower))
  }

  /** What `generateTags` returns: the first six distinct candidates. */
  function GenerateTagsSpec(title: Option<Json>, ingredients: seq<Ingredient>, cuisine: Option<Json>,
                            category: Option<Json>, total: Option<int>): Result<seq<string>>
  {
    match Candidates(title, ingredients, cuisine, category, total)
    case Failure => Failure
    case Ok(xs) => Ok(Take6(Dedup(xs)))
  }

  // ---------------------------------------------------------------------
  // The generator, step by step.
  // ---------------------------------------------------------------------

  /** `generateTags(title, ingredients, cuisine, category, totalTime)`. */
  method GenerateTags(title: Option<Json>, ingredients: seq<Ingredient>, cuisine: Option<Json>,
                      category: Option<Json>, total: Option<int>) returns (r: Result<seq<string>>)
    ensures r == GenerateTagsSpec(title, ingredients, cuisine, category, total)
  {
    var titleText := TitleText(title);
    if titleText.Failure? {
      return Failure;
    }
    var titleLower := ToLower(titleText.value);
    var names := IngredientNames(ingredients);
    var ok, tags, added := AddTimeAndCuisine(total, cuisine);
    if !ok {
      return Failure;
    }
    ok, tags, added := AddCategory(tags, added, category);
    if !ok {
      return Failure;
    }
    tags, added := AddProteins(tags, added, titleLower, names);
    tags, added := AddStyles(tags, added, titleLower);
    r := Ok(Take6(tags));
  }

  /** The time tag, then the cuisine's tag, into an empty set. */
  method AddTimeAndCuisine(total: Option<int>, cuisine: Option<Json>)
    returns (ok: bool, tags: seq<string>, ghost added: seq<string>)
    ensures ok <==> CuisineTags(cuisine).Ok?
    ensures ok ==> added == OptionTag(TimeTag(total)) + CuisineTags(cuisine).value && tags == Dedup(added)
  {
    tags, added := [], [];
    var timeTag := TimeTag(total);
    if timeTag.Some? {
      tags, added := Add(tags, added, timeTag.value);
    }
    if Truthy(cuisine) {
      var t := TitleCaseOf(cuisine.value);
      if t.Failure? {
        return false, tags, added;
      }
      tags, added := Add(tags, added, t.value);
    }
    ok := true;
  }

  /** The category step: one tag per array element, or the tag of a string. */
  method AddCategory(tags0: seq<string>, ghost added0: seq<string>, category: Option<Json>)
    returns (ok: bool, tags: seq<string>, ghost added: seq<string>)
    requires tags0 == Dedup(added0)
    ensures ok <==> CategoryTags(category).Ok?
    ensures ok ==> added == added0 + CategoryTags(category).value && tags == Dedup(added)
  {
    tags, added := tags0, added0;
    if Truthy(category) {
      if category.value.JArr? {
        ok, tags, added := AddEach(tags, added, category.value.items);
        return;
      }
      var t := TitleCaseOf(category.value);
      if t.Failure? {
        return false, tags, added;
      }
      tags, added := Add(tags, added, t.value);
    }
    ok := true;
  }

  /** `category.forEach(c => tags.add(toTitleCase(c)))`. */
  method AddEach(tags0: seq<string>, ghost added0: seq<string>, items: seq<Json>)
    returns (ok: bool, tags: seq<string>, ghost added: seq<string>)
    requires tags0 == Dedup(added0)
    ensures ok <==> TitleCaseAll(items).Ok?
    ensures ok ==> added == added0 + TitleCaseAll(items).value && tags == Dedup(added)
  {
    tags, added := tags0, added0;
    for i := 0 to |items|
      invariant TitleCaseAll(items[..i]).Ok?
      invariant added == added0 + TitleCaseAll(items[..i]).value
      invariant tags == Dedup(added)
    {
      var t := TitleCaseOf(items[i]);
      if t.Failure? {
        FailureFromPrefix(items, i);
        return false, tags, added;
      }
      ghost var before := TitleCaseAll(items[..i]).value;
      TitleCaseAllStep(items, i);
      tags, added := Add(tags, added, t.value);
      AppendAssoc(added0, before, [t.value]);
    }
    assert items[..|items|] == items;
    ok := true;
  }

  lemma TitleCaseAllStep(items: seq<Json>, i: nat)
    requires i < |items| && items[i].JStr? && TitleCaseAll(items[..i]).Ok?
    ensures TitleCaseAll(items[..i + 1]).Ok?
    ensures TitleCaseAll(items[..i + 1]).value == TitleCaseAll(items[..i]).value + [TitleCase(items[i].s)]
  {
    assert items[..i + 1][..i] == items[..i];
  }

  lemma FailureFromPrefix(items: seq<Json>, i: nat)
    requires i < |items| && !items[i].JStr?
    ensures TitleCaseAll(items).Failure?
  {
  }

  lemma AppendAssoc(a: seq<string>, b: seq<string>, c: seq<string>)
    ensures a + b + c == a + (b + c)
  {
  }

  lemma AppendAssoc4(a: seq<string>, b: seq<string>, c: seq<string>, d: seq<string>, e: seq<string>)
    ensures a + b + c + d + e == a + (b + c + d + e)
  {
  }

  lemma AppendAssoc6(a: seq<string>, b: seq<string>, c: seq<string>, d: seq<string>, e: seq<string>,
                     f: seq<string>, g: seq<string>)
    ensures a + b + c + d + e + f + g == a + (b + c + d + e + f + g)
  {
  }

  /** The protein rules, each adding its tag when it fires. */
  method AddProteins(tags0: seq<string>, ghost added0: seq<string>, titleLower: string, names: string)
    returns (tags: seq<string>, ghost added: seq<string>)
    requires tags0 == Dedup(added0)
    ensures added == added0 + ProteinTags(titleLower, names)
    ensures tags == Dedup(added)
  {
    tags, added := AddIf(tags0, added0, ChickenRule(titleLower, names), "Chicken");
    tags, added := AddIf(tags, added, BeefRule(titleLower, names), "Beef");
    tags, added := AddIf(tags, added, PorkRule(titleLower, names), "Pork");
    tags, added := AddIf(tags, added, SeafoodRule(titleLower, names), "Seafood");
    AppendAssoc4(added0, Rule(ChickenRule(titleLower, names), "Chicken"), Rule(BeefRule(titleLower, names), "Beef"),
      Rule(PorkRule(titleLower, names), "Pork"), Rule(SeafoodRule(titleLower, names), "Seafood"));
  }

  /** The style rules, read from the title. */
  method AddStyles(tags0: seq<string>, ghost added0: seq<string>, titleLower: string)
    returns (tags: seq<string>, ghost added: seq<string>)
    requires tags0 == Dedup(added0)
    ensures added == added0 + StyleTags(titleLower)
    ensures tags == Dedup(added)
  {
    tags, added := AddIf(tags0, added0, VegetarianRule(titleLower), "Vegetarian");
    tags, added := AddIf(tags, added, Includes(titleLower, "bowl"), "Bowl");
    tags, added := AddIf(tags, added, Includes(titleLower, "salad"), "Salad");
    tags, added := AddIf(tags, added, PastaRule(titleLower), "Pasta");
    tags, added := AddIf(tags, added, MexicanRule(titleLower), "Mexican");
    tags, added := AddIf(tags, added, AsianRule(titleLower), "Asian");
    AppendAssoc6(added0, Rule(VegetarianRule(titleLower), "Vegetarian"), Rule(Includes(titleLower, "bowl"), "Bowl"),
      Rule(Includes(titleLower, "salad"), "Salad"), Rule(PastaRule(titleLower), "Pasta"),
      Rule(MexicanRule(titleLower), "Mexican"), Rule(AsianRule(titleLower), "Asian"));
  }

  /** `if (condition) tags.add(t)`. */
  method AddIf(tags0: seq<string>, ghost added0: seq<string>, condition: bool, t: string)
    returns (tags: seq<string>, ghost added: seq<string>)
    requires tags0 == Dedup(added0)
    ensures added == added0 + Rule(condition, t)
    ensures tags == Dedup(added)
  {
    tags, added := tags0, added0;
    if condition {
      tags, added := Add(tags, added, t);
    }
  }

  /** One `tags.add(t)`. */
  method Add(tags0: seq<string>, ghost added0: seq<string>, t: string) returns (tags: seq<string>, ghost added: seq<string>)
    requires tags0 == Dedup(added0)
    ensures added == added0 + [t] && tags == Dedup(added)
  {
    DedupSnoc(added0, t);
    tags := AddTag(tags0, t);
    added := added0 + [t];
  }

  // ---------------------------------------------------------------------
  // What the generator promises.
  // ---------------------------------------------------------------------

  /** A value present and not a string: calling a string method on it throws. */
  predicate NotAString(v: Option<Json>) {
    Truthy(v) && !v.value.JStr?
  }

  /** A category that makes the generator throw: an array holding a
      non-string, or a present value that is neither array nor string. */
  predicate BadCategory(category: Option<Json>) {
    Truthy(category) &&
    if category.value.JArr? then exists i :: 0 <= i < |category.value.items| && !category.value.items[i].JStr?
    else !category.value.JStr?
  }

  /** The generator throws exactly when the title, the cuisine or the
      category holds something other than a string where it needs one. */
  lemma GenerateTagsFails(title: Option<Json>, ingredients: seq<Ingredient>, cuisine: Option<Json>,
                          category: Option<Json>, total: Option<int>)
    ensures GenerateTagsSpec(title, ingredients, cuisine, category, total).Failure?
        <==> NotAString(title) || NotAString(cuisine) || BadCategory(category)
  {
  }

  /** At most six tags, none twice, every one of them a candidate, in the
      order of first appearance; and when there are at most six distinct
      candidates, none of them is lost. */
  lemma GenerateTagsShape(title: Option<Json>, ingredients: seq<Ingredient>, cuisine: Option<Json>,
                          category: Option<Json>, total: Option<int>)
    requires GenerateTagsSpec(title, ingredients, cuisine, category, total).Ok?
    ensures var tags := GenerateTagsSpec(title, ingredients, cuisine, category, total).value;
            var xs := Candidates(title, ingredients, cuisine, category, total).value;
            && |tags| <= 6
            && NoDuplicates(tags)
            && (forall x :: x in tags ==> x in xs)
            && tags == Take6(FirstOccurrences(xs))
            && (|FirstOccurrences(xs)| <= 6 ==> forall x :: x in xs ==> x in tags)
  {
    FirstSixShape(Candidates(title, ingredients, cuisine, category, total).value);
  }

  /** The first six distinct entries of any candidate list. */
  lemma FirstSixShape(xs: seq<string>)
    ensures var tags := Take6(Dedup(xs));
            && |tags| <= 6
            && NoDuplicates(tags)
            && (forall x :: x in tags ==> x in xs)
            && tags == Take6(FirstOccurrences(xs))
            && (|FirstOccurrences(xs)| <= 6 ==> forall x :: x in xs ==> x in tags)
  {
    DedupShape(xs);
    DedupIsFirstOccurrences(xs);
    var d := Dedup(xs);
    var tags := Take6(d);
    forall i, j | 0 <= i < j < |tags|
      ensures tags[i] != tags[j]
    {
      assert tags[i] == d[i] && tags[j] == d[j];
    }
    forall x | x in tags
      ensures x in xs
    {
      var i :| 0 <= i < |tags| && tags[i] == x;
      assert d[i] == x;
    }
  }

  /** The time tag, when there is one, comes first. */
  lemma TimeTagFirst(title: Option<Json>, ingredients: seq<Ingredient>, cuisine: Option<Json>,
                     category: Option<Json>, total: Option<int>)
    requires GenerateTagsSpec(title, ingredients, cuisine, category, total).Ok?
    requires TimeTag(total).Some?
    ensures var tags := GenerateTagsSpec(title, ingredients, cuisine, category, total).value;
            tags != [] && tags[0] == TimeTag(total).value
  {
    var xs := Candidates(title, ingredients, cuisine, category, total).value;
    assert xs[0] == TimeTag(total).value;
    DedupShape(xs);
  }

  /** The tags the rules add. */
  const RuleTags: seq<string> :=
    ["Chicken", "Beef", "Pork", "Seafood", "Vegetarian", "Bowl", "Salad", "Pasta", "Mexican", "Asian"]

  lemma RuleTagsPassCheck()
    ensures forall k :: 0 <= k < |RuleTags| ==> TitledFrom(RuleTags[k], 0)
  {
    assert TitledFrom("Chicken", 0);
    assert TitledFrom("Beef", 0);
    assert TitledFrom("Pork", 0);
    assert TitledFrom("Seafood", 0);
    assert TitledFrom("Vegetarian", 0);
    assert TitledFrom("Bowl", 0);
    assert TitledFrom("Salad", 0);
    assert TitledFrom("Pasta", 0);
    assert TitledFrom("Mexican", 0);
    assert TitledFrom("Asian", 0);
  }

  lemma RulesAddRuleTags(titleLower: string, names: string)
    ensures forall x :: x in ProteinTags(titleLower, names) ==> x in RuleTags
    ensures forall x :: x in StyleTags(titleLower) ==> x in RuleTags
  {
  }

  /** Every candidate is already in title case. */
  lemma CandidatesTitled(title: Option<Json>, ingredients: seq<Ingredient>, cuisine: Option<Json>,
                         category: Option<Json>, total: Option<int>)
    requires Candidates(title, ingredients, cuisine, category, total).Ok?
    ensures forall x :: x in Candidates(title, ingredients, cuisine, category, total).value ==> TitleCase(x) == x
  {
    var titleLower := ToLower(TitleText(title).value);
    var names := IngredientNames(ingredients);
    var cu := CuisineTags(cuisine).value;
    var ca := CategoryTags(category).value;
    RulesAddRuleTags(titleLower, names);
    RuleTagsPassCheck();
    TimeTagShape(total);
    forall x | x in Candidates(title, ingredients, cuisine, category, total).value
      ensures TitleCase(x) == x
    {
      if x in OptionTag(TimeTag(total)) {
        BucketsTitled(x);
      } else if x in cu {
        TitleCaseIdempotent(cuisine.value.s);
      } else if x in ca {
        if category.value.JArr? {
          var items := category.value.items;
          var i :| 0 <= i < |ca| && ca[i] == x;
          TitleCaseIdempotent(items[i].s);
        } else {
          TitleCaseIdempotent(category.value.s);
        }
      } else {
        assert x in RuleTags;
        TitledIsFixed(x);
      }
    }
  }

  /** Every tag the generator returns is already in title case. */
  lemma GenerateTagsTitled(title: Option<Json>, ingredients: seq<Ingredient>, cuisine: Option<Json>,
                           category: Option<Json>, total: Option<int>)
    requires GenerateTagsSpec(title, ingredients, cuisine, category, total).Ok?
    ensures forall x :: x in GenerateTagsSpec(title, ingredients, cuisine, category, total).value ==> TitleCase(x) == x
  {
    CandidatesTitled(title, ingredients, cuisine, category, total);
    GenerateTagsShape(title, ingredients, cuisine, category, total);
  }

  /** A text without the first letter of a word does not include it. */
  lemma MissingLetter(s: string, word: string)
    requires word != [] && forall i :: 0 <= i < |s| ==> s[i] != word[0]
    ensures !Includes(s, word)
  {
    forall i | 0 <= i <= |s| - |word|
      ensures !OccursAt(s, word, i)
    {
      assert s[i..i + |word|][0] == s[i];
    }
  }

  /** "steak" in a title adds no "Beef"... */
  lemma SteakTitleIsNotBeef(titleLower: string)
    requires titleLower == "steak frites"
    ensures !BeefRule(titleLower, "")
    ensures "Beef" !in Rule(BeefRule(titleLower, ""), "Beef")
  {
    MissingLetter(titleLower, "beef");
  }

  /** ...but "steak" among the ingredient names does. */
  lemma SteakIngredientIsBeef(names: string)
    requires names == "sirloin steak"
    ensures BeefRule("", names)
  {
    assert OccursAt(names, "steak", 8);
  }
}
