/// How the seed script turns each sample recipe into stored rows: the time
/// tag is put in front of the sample's own tags, and the directions are
/// numbered from 1.
module Seed {
  import opened JsValues
  import opened TagText
  import opened TagRules
  import opened RecipeRoutes

  /** The fields of a sample recipe that the seed loop computes from. */
  datatype SampleRecipe = SampleRecipe(title: string, prepTime: Option<int>, cookTime: Option<int>, tags: seq<string>)

  /** `(recipe.prepTime || 0) + (recipe.cookTime || 0)`. */
  function SeedTotal(recipe: SampleRecipe): int {
    OrZero(recipe.prepTime) + OrZero(recipe.cookTime)
  }

  /** `timeTag ? [timeTag, ...recipe.tags] : recipe.tags`. */
  function AllTags(recipe: SampleRecipe): seq<string> {
    var timeTag := TimeTag(Some(SeedTotal(recipe)));
    if timeTag.Some? then [timeTag.value] + recipe.tags else recipe.tags
  }

  /** `recipe.directions.map((instruction, index) => ...)`. */
  function SeedSteps(directions: seq<string>): seq<Step<string>> {
    NumberSteps(directions, 1)
  }

  /** The sample's tags come through unchanged and in order behind the time
      tag, which is there exactly when the total is positive; nothing is
      merged, so a sample already carrying its time tag would carry it twice. */
  lemma AllTagsShape(recipe: SampleRecipe)
    ensures var timeTag := TimeTag(Some(SeedTotal(recipe)));
            var all := AllTags(recipe);
            && (timeTag.Some? <==> SeedTotal(recipe) > 0)
            && |all| == |recipe.tags| + (if timeTag.Some? then 1 else 0)
            && all[|all| - |recipe.tags|..] == recipe.tags
            && (timeTag.Some? ==> all[0] == timeTag.value && all[0] in Buckets)
  {
    TimeTagShape(Some(SeedTotal(recipe)));
  }

  /** A sample carrying its own time tag stores it twice. */
  lemma TimeTagRepeated(recipe: SampleRecipe)
    requires SeedTotal(recipe) > 0
    requires TimeTag(Some(SeedTotal(recipe))).value in recipe.tags
    ensures !NoDuplicates(AllTags(recipe))
  {
    var all := AllTags(recipe);
    var j :| 0 <= j < |recipe.tags| && recipe.tags[j] == all[0];
    assert all[1 + j] == recipe.tags[j];
  }

  /** A list with no repeats is its own first occurrences. */
  lemma {:induction false} FirstOccurrencesOfDistinct(xs: seq<string>)
    requires NoDuplicates(xs)
    ensures FirstOccurrences(xs) == xs
    decreases |xs|
  {
    if xs != [] {
      var init := xs[..|xs| - 1];
      assert NoDuplicates(init);
      FirstOccurrencesOfDistinct(init);
      assert xs[|xs| - 1] !in init;
      assert xs == init + [xs[|xs| - 1]];
    }
  }

  /** Putting a new time tag in front of distinct tags leaves nothing for
      the set to merge. */
  lemma AddTimeTagDistinct(tags: seq<string>, timeTag: Option<string>)
    requires NoDuplicates(tags)
    requires timeTag.None? || timeTag.value !in tags
    ensures AddTimeTag(tags, timeTag) == WithTimeTag(tags, timeTag)
  {
    var all := WithTimeTag(tags, timeTag);
    assert NoDuplicates(all) by {
      forall i, j | 0 <= i < j < |all| ensures all[i] != all[j] {
        if timeTag.Some? && i == 0 {
          assert all[j] == tags[j - 1];
        }
      }
    }
    DedupIsFirstOccurrences(all);
    FirstOccurrencesOfDistinct(all);
  }

  /** For tags that are distinct and do not hold the time tag, the seed
      stores what the create route stores for already normalised tags. */
  lemma SeedAgreesWithRoutes(recipe: SampleRecipe)
    requires NoDuplicates(recipe.tags)
    requires TimeTag(Some(SeedTotal(recipe))).None? || TimeTag(Some(SeedTotal(recipe))).value !in recipe.tags
    ensures AllTags(recipe) == AddTimeTag(recipe.tags, RouteTimeTag(recipe.prepTime, recipe.cookTime))
  {
    var timeTag := TimeTag(Some(SeedTotal(recipe)));
    assert timeTag == RouteTimeTag(recipe.prepTime, recipe.cookTime);
    assert AllTags(recipe) == WithTimeTag(recipe.tags, timeTag);
    AddTimeTagDistinct(recipe.tags, timeTag);
  }

  /** Step `i + 1` is the `i`-th direction. */
  lemma SeedStepsNumbered(directions: seq<string>)
    ensures |SeedSteps(directions)| == |directions|
    ensures forall i :: 0 <= i < |directions| ==>
              SeedSteps(directions)[i].stepNumber == i + 1 && SeedSteps(directions)[i].instruction == directions[i]
  {
    StepsNumbered(directions, 1);
  }

  /** Teriyaki Chicken Bowl: 15 + 20 minutes. */
  lemma TeriyakiTags(recipe: SampleRecipe)
    requires recipe == SampleRecipe("Teriyaki Chicken Bowl", Some(15), Some(20), ["Japanese", "Quick", "Chicken", "Bowl"])
    ensures AllTags(recipe) == ["45 Minutes", "Japanese", "Quick", "Chicken", "Bowl"]
  {
    assert SeedTotal(recipe) == 35;
  }

  /** Classic Beef Tacos: 15 + 15 minutes, on the bucket's upper edge. */
  lemma TacoTags(recipe: SampleRecipe)
    requires recipe == SampleRecipe("Classic Beef Tacos", Some(15), Some(15), ["Mexican", "Quick", "Beef"])
    ensures AllTags(recipe) == ["30 Minutes", "Mexican", "Quick", "Beef"]
  {
    assert SeedTotal(recipe) == 30;
  }

  /** Honey Garlic Shrimp: 5 + 10 minutes. */
  lemma ShrimpTags(recipe: SampleRecipe)
    requires recipe == SampleRecipe("Honey Garlic Shrimp", Some(5), Some(10), ["Seafood", "Quick", "Asian"])
    ensures AllTags(recipe) == ["15 Minutes", "Seafood", "Quick", "Asian"]
  {
    assert SeedTotal(recipe) == 15;
  }
}
