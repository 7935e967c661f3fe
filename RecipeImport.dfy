/// Importing a recipe page: choosing the schema.org `Recipe` among the page's
/// JSON-LD script blocks, mapping its fields onto a recipe, and the fallback
/// that reads the recipe off the page's HTML when no block describes one.
/// The page is given as what the HTML library hands back: each script block
/// as a parsed value or a parse failure, the heading text, the meta
/// contents and the texts of the matching list elements.
module RecipeImport {
  import opened JsValues
  import opened JsText
  import opened JsNumbers
  import opened IngredientLine
  import opened Durations
  import opened TagText
  import opened TagRules

  /** The recipe the import returns. */
  datatype Recipe = Recipe(
    title: string,
    description: Json,
    imageUrl: Option<Json>,
    servings: int,
    prepTime: Option<int>,
    cookTime: Option<int>,
    ingredients: seq<Ingredient>,
    directions: seq<Json>,
    tags: seq<string>)

  // ---------------------------------------------------------------------
  // Choosing the JSON-LD block.
  // ---------------------------------------------------------------------

  /** `v['@type'] === 'Recipe'`. */
  predicate IsRecipe(v: Json) {
    v.JObj? && Get(v.fields, "@type") == Some(JStr("Recipe"))
  }

  /** `items.find(item => item['@type'] === 'Recipe')`: the first Recipe
      item, `undefined` when there is none, and a TypeError when a `null`
      item is reached before one. */
  function FindRecipe(items: seq<Json>): (r: Result<Option<Json>>)
    ensures r.Ok? && r.value.Some? ==> IsRecipe(r.value.value) && r.value.value in items
  {
    if items == [] then Ok(None)
    else if items[0] == JNull then Failure
    else if IsRecipe(items[0]) then Ok(Some(items[0]))
    else FindRecipe(items[1..])
  }

  /** What one script block contributes: nothing when it does not parse or
      when reading its properties throws; the block itself when it is a
      Recipe; else the first Recipe of its `@graph` array. */
  function BlockRecipe(block: Option<Json>): (r: Option<Json>)
    ensures r.Some? ==> IsRecipe(r.value)
  {
    match block
    case None => None
    case Some(json) =>
      if json == JNull then None
      else if IsRecipe(json) then Some(json)
      else if json.JObj? && "@graph" in json.fields && json.fields["@graph"].JArr? then
        match FindRecipe(json.fields["@graph"].items)
        case Ok(Some(item)) => Some(item)
        case _ => None
      else None
  }

  /** The recipe the scan settles on: the one of the last block that has one. */
  function SelectRecipe(blocks: seq<Option<Json>>): (r: Option<Json>)
    ensures r.Some? ==> IsRecipe(r.value)
  {
    if blocks == [] then None
    else
      match BlockRecipe(blocks[|blocks| - 1])
      case Some(data) => Some(data)
      case None => SelectRecipe(blocks[..|blocks| - 1])
  }

  /** The scan over the script blocks, overwriting `recipeData` whenever a
      block has a recipe. */
  method ScanBlocks(blocks: seq<Option<Json>>) returns (recipeData: Option<Json>)
    ensures recipeData == SelectRecipe(blocks)
  {
    recipeData := None;
    for i := 0 to |blocks|
      invariant recipeData == SelectRecipe(blocks[..i])
    {
      assert blocks[..i + 1][..i] == blocks[..i];
      var found := BlockRecipe(blocks[i]);
      if found.Some? {
        recipeData := found;
      }
    }
    assert blocks[..|blocks|] == blocks;
  }

  /** The first Recipe item, when nothing before it is `null` or a Recipe. */
  lemma {:induction false} FindRecipeFirst(items: seq<Json>, i: nat)
    requires i < |items| && IsRecipe(items[i])
    requires forall j :: 0 <= j < i ==> items[j] != JNull && !IsRecipe(items[j])
    ensures FindRecipe(items) == Ok(Some(items[i]))
  {
    if i > 0 {
      FindRecipeFirst(items[1..], i - 1);
    }
  }

  /** `find` throws exactly when it reaches a `null` item before any Recipe. */
  lemma {:induction false} FindRecipeFails(items: seq<Json>)
    ensures FindRecipe(items).Failure? <==>
              exists i :: 0 <= i < |items| && items[i] == JNull && forall j :: 0 <= j < i ==> !IsRecipe(items[j])
  {
    if items != [] && items[0] != JNull && !IsRecipe(items[0]) {
      var rest := items[1..];
      FindRecipeFails(rest);
      if FindRecipe(rest).Failure? {
        var i :| 0 <= i < |rest| && rest[i] == JNull && forall j :: 0 <= j < i ==> !IsRecipe(rest[j]);
        assert items[i + 1] == JNull;
        assert forall j :: 0 < j < i + 1 ==> items[j] == rest[j - 1];
      }
      if exists i :: 0 <= i < |items| && items[i] == JNull && forall j :: 0 <= j < i ==> !IsRecipe(items[j]) {
        var i :| 0 <= i < |items| && items[i] == JNull && forall j :: 0 <= j < i ==> !IsRecipe(items[j]);
        assert i > 0;
        assert rest[i - 1] == JNull;
        assert forall j :: 0 <= j < i - 1 ==> rest[j] == items[j + 1];
      }
    } else if items != [] && items[0] == JNull {
      assert items[0] == JNull;
    }
  }

  /** The last block with a recipe wins, whatever comes before it. */
  lemma {:induction false} LastRecipeWins(blocks: seq<Option<Json>>, i: nat)
    requires i < |blocks| && BlockRecipe(blocks[i]).Some?
    requires forall j :: i < j < |blocks| ==> BlockRecipe(blocks[j]).None?
    ensures SelectRecipe(blocks) == BlockRecipe(blocks[i])
    decreases |blocks|
  {
    if i < |blocks| - 1 {
      var init := blocks[..|blocks| - 1];
      assert forall j :: i < j < |init| ==> init[j] == blocks[j];
      LastRecipeWins(init, i);
    }
  }

  /** The scan finds nothing exactly when no block has a recipe. */
  lemma {:induction false} NoRecipeFound(blocks: seq<Option<Json>>)
    ensures SelectRecipe(blocks).None? <==> forall i :: 0 <= i < |blocks| ==> BlockRecipe(blocks[i]).None?
    decreases |blocks|
  {
    if blocks != [] {
      var init := blocks[..|blocks| - 1];
      NoRecipeFound(init);
      assert forall i :: 0 <= i < |init| ==> init[i] == blocks[i];
    }
  }

  /** Two Recipe blocks: the second one is used, not the first. */
  lemma SecondRecipeBlockWins(a: Json, b: Json)
    requires IsRecipe(a) && IsRecipe(b)
    ensures SelectRecipe([Some(a), Some(b)]) == Some(b)
  {
  }

  // ---------------------------------------------------------------------
  // The fields of a schema.org Recipe.
  // ---------------------------------------------------------------------

  /** The `recipeIngredient` property: nothing when it is falsy; `forEach`
      exists only on arrays. */
  function IngredientsOf(v: Option<Json>): Result<seq<Ingredient>> {
    if !Truthy(v) then Ok([])
    else if v.value.JArr? then MapAll(v.value.items, ParseIngredientValue)
    else Failure
  }

  /** An ingredient list is read when every entry is a string, one parsed
      line per entry. */
  lemma IngredientStrings(items: seq<Json>)
    ensures MapAll(items, ParseIngredientValue).Ok? <==> forall i :: 0 <= i < |items| ==> items[i].JStr?
    ensures MapAll(items, ParseIngredientValue).Ok? ==>
              var ps := MapAll(items, ParseIngredientValue).value;
              |ps| == |items| && forall i :: 0 <= i < |items| ==> ps[i] == ParseIngredient(items[i].s)
  {
  }

  /** `data.recipeIngredient.forEach(ing => ingredients.push(parseIngredientString(ing)))`. */
  method MapIngredients(v: Option<Json>) returns (r: Result<seq<Ingredient>>)
    ensures r == IngredientsOf(v)
  {
    var ingredients: seq<Ingredient> := [];
    if Truthy(v) {
      if !v.value.JArr? {
        return Failure;
      }
      var items := v.value.items;
      for i := 0 to |items|
        invariant MapAll(items[..i], ParseIngredientValue) == Ok(ingredients)
      {
        MapAllStep(items, i, ParseIngredientValue, ingredients);
        var parsed := ParseIngredientValue(items[i]);
        if parsed.Failure? {
          return Failure;
        }
        ingredients := ingredients + [parsed.value];
      }
      assert items[..|items|] == items;
    }
    r := Ok(ingredients);
  }

  /** One instruction: a string is kept, anything else contributes its
      `text` when that is truthy, and reading `text` of `null` throws. */
  function InstructionText(item: Json): (r: Result<Option<Json>>)
    ensures r.Failure? <==> item == JNull
    ensures r.Ok? && r.value.Some? ==>
              (item.JStr? && r.value.value == item) ||
              (item.JObj? && "text" in item.fields && Truthy(Some(item.fields["text"])) && r.value.value == item.fields["text"])
  {
    if item.JStr? then Ok(Some(item))
    else
      match Prop(item, "text")
      case Failure => Failure
      case Ok(text) => if Truthy(text) then Ok(Some(text.value)) else Ok(None)
  }

  /** The directions the instructions contribute, in order. */
  function CollectInstructions(items: seq<Json>): (r: Result<seq<Json>>)
    ensures r.Ok? <==> forall i :: 0 <= i < |items| ==> items[i] != JNull
    ensures r.Ok? ==> |r.value| <= |items|
  {
    if items == [] then Ok([])
    else
      match CollectInstructions(items[..|items| - 1])
      case Failure => Failure
      case Ok(ds) =>
        match InstructionText(items[|items| - 1])
        case Failure => Failure
        case Ok(None) => Ok(ds)
        case Ok(Some(d)) => Ok(ds + [d])
  }

  /** The `recipeInstructions` property: nothing when it is falsy; `forEach`
      exists only on arrays. */
  function DirectionsOf(v: Option<Json>): Result<seq<Json>> {
    if !Truthy(v) then Ok([])
    else if v.value.JArr? then CollectInstructions(v.value.items)
    else Failure
  }

  /** The `recipeInstructions.forEach` loop: an array of strings and objects
      with a truthy `text` gives those texts, one per entry, in order. */
  method MapInstructions(v: Option<Json>) returns (r: Result<seq<Json>>)
    ensures r == DirectionsOf(v)
    ensures v.Some? && v.value.JArr? && (forall i :: 0 <= i < |v.value.items| ==> HasText(v.value.items[i])) ==>
              r.Ok? && |r.value| == |v.value.items|
              && forall i :: 0 <= i < |v.value.items| ==> r.value[i] == TextOf(v.value.items[i])
  {
    var directions: seq<Json> := [];
    if Truthy(v) {
      if !v.value.JArr? {
        return Failure;
      }
      var items := v.value.items;
      for i := 0 to |items|
        invariant CollectInstructions(items[..i]) == Ok(directions)
      {
        assert items[..i + 1][..i] == items[..i];
        var instruction := items[i];
        if instruction.JStr? {
          directions := directions + [instruction];
        } else {
          var text := Prop(instruction, "text");
          if text.Failure? {
            return Failure;
          }
          if Truthy(text.value) {
            directions := directions + [text.value.value];
          }
        }
      }
      assert items[..|items|] == items;
    }
    r := Ok(directions);
    if v.Some? && v.value.JArr? && forall i :: 0 <= i < |v.value.items| ==> HasText(v.value.items[i]) {
      TextInstructions(v.value.items);
    }
  }

  /** Instructions given as plain strings are the directions, unchanged. */
  lemma {:induction false} StringInstructions(items: seq<Json>)
    requires forall i :: 0 <= i < |items| ==> items[i].JStr?
    ensures CollectInstructions(items) == Ok(items)
    decreases |items|
  {
    if items != [] {
      var init := items[..|items| - 1];
      StringInstructions(init);
      assert init + [items[|items| - 1]] == items;
    }
  }

  /** An instruction that contributes a direction: a string, or an object
      (a schema.org HowToStep) whose `text` is truthy. */
  predicate HasText(item: Json) {
    item.JStr? || (item.JObj? && "text" in item.fields && Truthy(Some(item.fields["text"])))
  }

  /** The direction such an instruction contributes. */
  function TextOf(item: Json): Json
    requires HasText(item)
  {
    if item.JStr? then item else item.fields["text"]
  }

  /** Instructions that each carry a text give one direction apiece, in
      their given order: the string itself or the object's `text`. */
  lemma {:induction false} TextInstructions(items: seq<Json>)
    requires forall i :: 0 <= i < |items| ==> HasText(items[i])
    ensures CollectInstructions(items).Ok?
    ensures |CollectInstructions(items).value| == |items|
    ensures forall i :: 0 <= i < |items| ==> CollectInstructions(items).value[i] == TextOf(items[i])
    decreases |items|
  {
    if items != [] {
      var init := items[..|items| - 1];
      TextInstructions(init);
      assert forall i :: 0 <= i < |init| ==> init[i] == items[i];
    }
  }

  /** `prepTime`, `cookTime` and `totalTime` after the time step; `null` is None. */
  datatype Times = Times(prep: Option<int>, cook: Option<int>, total: Option<int>)

  /** `x` as a JavaScript condition: `null` and 0 are falsy. */
  predicate IsSet(x: Option<int>) {
    x.Some? && x.value != 0
  }

  /** `Math.round(total / 3)`: a third is never halfway between two
      integers, so the nearest integer is within a third of it. */
  function RoundThird(total: int): (r: int)
    ensures -1 <= 3 * r - total <= 1
  {
    (total + 1) / 3
  }

  /** `if (data[key]) x = parseDuration(data[key])`: `null` when the
      property is falsy; only strings have `.match`. */
  function DurationProp(data: map<string, Json>, key: string): (r: Result<Option<int>>)
    ensures r.Ok? && r.value.Some? ==> r.value.value >= 0
  {
    var v := Get(data, key);
    if Truthy(v) then ParseDurationValue(v.value) else Ok(None)
  }

  /** The three times; a total alone is split a third to preparation and
      the rest to cooking. */
  function TimesOf(data: map<string, Json>): Result<Times> {
    match DurationProp(data, "prepTime")
    case Failure => Failure
    case Ok(prep) =>
      match DurationProp(data, "cookTime")
      case Failure => Failure
      case Ok(cook) =>
        match DurationProp(data, "totalTime")
        case Failure => Failure
        case Ok(total) =>
          if !IsSet(prep) && !IsSet(cook) && IsSet(total) then
            var p := RoundThird(total.value);
            Ok(Times(Some(p), Some(total.value - p), total))
          else Ok(Times(prep, cook, total))
  }

  /** The time step, reassigning `prepTime`, `cookTime` and `totalTime`. */
  method ReadTimes(data: map<string, Json>) returns (r: Result<Times>)
    ensures r == TimesOf(data)
  {
    var prepTime: Option<int> := None;
    var cookTime: Option<int> := None;
    var totalTime: Option<int> := None;
    var prep := Get(data, "prepTime");
    if Truthy(prep) {
      var d := ParseDurationValue(prep.value);
      if d.Failure? {
        return Failure;
      }
      prepTime := d.value;
    }
    assert DurationProp(data, "prepTime") == Ok(prepTime);
    var cook := Get(data, "cookTime");
    if Truthy(cook) {
      var d := ParseDurationValue(cook.value);
      if d.Failure? {
        return Failure;
      }
      cookTime := d.value;
    }
    assert DurationProp(data, "cookTime") == Ok(cookTime);
    var total := Get(data, "totalTime");
    if Truthy(total) {
      var d := ParseDurationValue(total.value);
      if d.Failure? {
        return Failure;
      }
      totalTime := d.value;
      assert DurationProp(data, "totalTime") == Ok(totalTime);
      if !IsSet(prepTime) && !IsSet(cookTime) && IsSet(totalTime) {
        prepTime := Some(RoundThird(totalTime.value));
        cookTime := Some(totalTime.value - prepTime.value);
      }
    }
    r := Ok(Times(prepTime, cookTime, totalTime));
  }

  /** `totalTime || (prepTime || 0) + (cookTime || 0)`: the minutes the
      time tag is chosen from. */
  function TagMinutes(t: Times): int {
    if IsSet(t.total) then t.total.value else OrZero(t.prep) + OrZero(t.cook)
  }

  /** Given preparation or cooking times are kept; a total alone is split
      into a preparation time within a third of a minute of a third and a
      cooking time that makes up the rest. The tag minutes are the total
      when there is one, else preparation plus cooking. */
  lemma TimesShape(data: map<string, Json>)
    requires TimesOf(data).Ok?
    ensures var t := TimesOf(data).value;
            var prep := DurationProp(data, "prepTime").value;
            var cook := DurationProp(data, "cookTime").value;
            && t.total == DurationProp(data, "totalTime").value
            && (if !IsSet(prep) && !IsSet(cook) && IsSet(t.total) then
                  && t.prep.Some? && t.cook.Some?
                  && t.prep.value + t.cook.value == t.total.value
                  && -1 <= 3 * t.prep.value - t.total.value <= 1
                  && 0 <= t.prep.value <= t.cook.value + 1
                else t.prep == prep && t.cook == cook)
            && TagMinutes(t) >= 0
            && (IsSet(t.total) ==> TagMinutes(t) == t.total.value)
            && (!IsSet(t.total) ==> TagMinutes(t) == OrZero(prep) + OrZero(cook))
  {
  }

  lemma ThirtyFiveText(s: string)
    requires s == "PT35M"
    ensures ParseDuration(s) == Some(35)
  {
    assert NatToDecimal(35) == "35";
    assert s == "PT" + NatToDecimal(35) + "M";
    MinutesRoundTrip(35);
  }

  /** "PT35M" alone: 12 minutes of preparation, 23 of cooking, tagged by 35. */
  lemma ThirtyFiveMinutes(data: map<string, Json>, s: string)
    requires s == "PT35M" && data == map["totalTime" := JStr(s)]
    ensures TimesOf(data) == Ok(Times(Some(12), Some(23), Some(35)))
    ensures TagMinutes(TimesOf(data).value) == 35
  {
    ThirtyFiveText(s);
    assert DurationProp(data, "prepTime") == Ok(None);
    assert DurationProp(data, "cookTime") == Ok(None);
    assert DurationProp(data, "totalTime") == Ok(Some(35));
  }

  /** `parseInt(data.recipeYield) || 2`. */
  function Servings(recipeYield: Option<Json>): (r: int)
    ensures r != 0
  {
    match ParseInt(ToJsString(recipeYield))
    case Some(n) => if n != 0 then n else 2
    case None => 2
  }

  /** A non-zero number of servings is taken as it is; 0 falls back to 2. */
  lemma NumericServings(n: int)
    ensures Servings(Some(JNum(n))) == if n != 0 then n else 2
  {
    ParseIntOfIntToString(n);
  }

  /** `data.name || 'Imported Recipe'`. A truthy name that is not a string
      never gets here: the tag step has already thrown on it. */
  function TitleOf(name: Option<Json>): string {
    if Truthy(name) && name.value.JStr? then name.value.s else "Imported Recipe"
  }

  /** `data.description || ''`. */
  function DescriptionOf(v: Option<Json>): Json {
    if Truthy(v) then v.value else JStr("")
  }

  /** `Array.isArray(data.image) ? data.image[0] : data.image`. */
  function ImageOf(v: Option<Json>): Option<Json> {
    match v
    case Some(JArr(items)) => if items == [] then None else Some(items[0])
    case _ => v
  }

  /** `parseJsonLd(data)` for the fields of the chosen Recipe object. */
  function ParseJsonLdSpec(data: map<string, Json>): Result<Recipe> {
    match IngredientsOf(Get(data, "recipeIngredient"))
    case Failure => Failure
    case Ok(ingredients) =>
      match DirectionsOf(Get(data, "recipeInstructions"))
      case Failure => Failure
      case Ok(directions) =>
        match TimesOf(data)
        case Failure => Failure
        case Ok(times) =>
          match GenerateTagsSpec(Get(data, "name"), ingredients, Get(data, "recipeCuisine"),
                                 Get(data, "recipeCategory"), Some(TagMinutes(times)))
          case Failure => Failure
          case Ok(tags) =>
            Ok(Recipe(TitleOf(Get(data, "name")), DescriptionOf(Get(data, "description")),
                      ImageOf(Get(data, "image")), Servings(Get(data, "recipeYield")),
                      times.prep, times.cook, ingredients, directions, tags))
  }

  /** `parseJsonLd(data)`. */
  method ParseJsonLd(data: map<string, Json>) returns (r: Result<Recipe>)
    ensures r == ParseJsonLdSpec(data)
  {
    var ingredients := MapIngredients(Get(data, "recipeIngredient"));
    if ingredients.Failure? {
      return Failure;
    }
    var directions := MapInstructions(Get(data, "recipeInstructions"));
    if directions.Failure? {
      return Failure;
    }
    var times := ReadTimes(data);
    if times.Failure? {
      return Failure;
    }
    var tags := GenerateTags(Get(data, "name"), ingredients.value, Get(data, "recipeCuisine"),
                             Get(data, "recipeCategory"), Some(TagMinutes(times.value)));
    if tags.Failure? {
      return Failure;
    }
    r := Ok(Recipe(TitleOf(Get(data, "name")), DescriptionOf(Get(data, "description")),
                   ImageOf(Get(data, "image")), Servings(Get(data, "recipeYield")),
                   times.value.prep, times.value.cook, ingredients.value, directions.value, tags.value));
  }

  /** A mapped recipe has a title, a non-zero number of servings, and the
      preparation and cooking times of the time step. */
  lemma JsonLdFields(data: map<string, Json>)
    requires ParseJsonLdSpec(data).Ok?
    ensures var recipe := ParseJsonLdSpec(data).value;
            && recipe.title != []
            && recipe.servings != 0
            && recipe.prepTime == TimesOf(data).value.prep
            && recipe.cookTime == TimesOf(data).value.cook
  {
  }

  /** One parsed ingredient per listed string, in order; at most one
      direction per instruction, and one per instruction, in order, when each
      carries a text. */
  lemma JsonLdLists(data: map<string, Json>, items: seq<Json>)
    requires ParseJsonLdSpec(data).Ok?
    ensures Get(data, "recipeIngredient") == Some(JArr(items)) ==>
              var ingredients := ParseJsonLdSpec(data).value.ingredients;
              |ingredients| == |items| && forall i :: 0 <= i < |items| ==> ingredients[i] == ParseIngredient(items[i].s)
    ensures Get(data, "recipeInstructions") == Some(JArr(items)) ==>
              |ParseJsonLdSpec(data).value.directions| <= |items|
    ensures Get(data, "recipeInstructions") == Some(JArr(items)) && (forall i :: 0 <= i < |items| ==> HasText(items[i])) ==>
              var directions := ParseJsonLdSpec(data).value.directions;
              |directions| == |items| && forall i :: 0 <= i < |items| ==> directions[i] == TextOf(items[i])
  {
    JsonLdParts(data);
    var recipe := ParseJsonLdSpec(data).value;
    if Get(data, "recipeIngredient") == Some(JArr(items)) {
      IngredientsListed(Get(data, "recipeIngredient"), items, recipe.ingredients);
    }
    if Get(data, "recipeInstructions") == Some(JArr(items)) {
      DirectionsListed(Get(data, "recipeInstructions"), items, recipe.directions);
    }
  }

  /** A read ingredient array gives one parsed line per entry. */
  lemma IngredientsListed(v: Option<Json>, items: seq<Json>, ingredients: seq<Ingredient>)
    requires v == Some(JArr(items)) && IngredientsOf(v) == Ok(ingredients)
    ensures |ingredients| == |items| && forall i :: 0 <= i < |items| ==> ingredients[i] == ParseIngredient(items[i].s)
  {
    IngredientStrings(items);
  }

  /** A read instruction array gives at most one direction per entry, and
      exactly the entries' texts in order when each entry carries one. */
  lemma DirectionsListed(v: Option<Json>, items: seq<Json>, directions: seq<Json>)
    requires v == Some(JArr(items)) && DirectionsOf(v) == Ok(directions)
    ensures |directions| <= |items|
    ensures (forall i :: 0 <= i < |items| ==> HasText(items[i])) ==>
              |directions| == |items| && forall i :: 0 <= i < |items| ==> directions[i] == TextOf(items[i])
  {
    if forall i :: 0 <= i < |items| ==> HasText(items[i]) {
      TextInstructions(items);
    }
  }

  /** A mapped recipe's lists are the ones the ingredient and instruction
      steps read. */
  lemma JsonLdParts(data: map<string, Json>)
    requires ParseJsonLdSpec(data).Ok?
    ensures IngredientsOf(Get(data, "recipeIngredient")).Ok?
    ensures ParseJsonLdSpec(data).value.ingredients == IngredientsOf(Get(data, "recipeIngredient")).value
    ensures DirectionsOf(Get(data, "recipeInstructions")).Ok?
    ensures ParseJsonLdSpec(data).value.directions == DirectionsOf(Get(data, "recipeInstructions")).value
  {
  }

  /** At most six tags, and the time tag of the tag minutes first. */
  lemma JsonLdTags(data: map<string, Json>)
    requires ParseJsonLdSpec(data).Ok?
    ensures var tags := ParseJsonLdSpec(data).value.tags;
            var minutes := TagMinutes(TimesOf(data).value);
            && |tags| <= 6
            && (TimeTag(Some(minutes)).Some? ==> tags != [] && tags[0] == TimeTag(Some(minutes)).value)
  {
    var minutes := TagMinutes(TimesOf(data).value);
    var ingredients := IngredientsOf(Get(data, "recipeIngredient")).value;
    var name, cuisine, category := Get(data, "name"), Get(data, "recipeCuisine"), Get(data, "recipeCategory");
    GenerateTagsShape(name, ingredients, cuisine, category, Some(minutes));
    if TimeTag(Some(minutes)).Some? {
      TimeTagFirst(name, ingredients, cuisine, category, Some(minutes));
    }
  }

  // ---------------------------------------------------------------------
  // The HTML fallback.
  // ---------------------------------------------------------------------

  /** What the HTML library reads off the page: the first heading's text
      ("" when there is none), the description and image meta contents,
      and the texts of the ingredient and instruction elements in document
      order. */
  datatype Page = Page(
    heading: string,
    description: Option<string>,
    image: Option<string>,
    ingredientTexts: seq<string>,
    instructionTexts: seq<string>)

  /** Each element text cleaned by `clean`; the ones `keep` accepts, mapped
      by `f`, in order. */
  function KeepCleaned<T>(texts: seq<string>, clean: string -> string, keep: string -> bool, f: string -> T): seq<T> {
    if texts == [] then []
    else
      var text := clean(texts[|texts| - 1]);
      KeepCleaned(texts[..|texts| - 1], clean, keep, f) + (if keep(text) then [f(text)] else [])
  }

  /** One more element text read. */
  lemma KeepCleanedStep<T>(texts: seq<string>, i: nat, clean: string -> string, keep: string -> bool, f: string -> T)
    requires i < |texts|
    ensures KeepCleaned(texts[..i + 1], clean, keep, f)
            == KeepCleaned(texts[..i], clean, keep, f) + (if keep(clean(texts[i])) then [f(clean(texts[i]))] else [])
  {
    assert texts[..i + 1][..i] == texts[..i];
  }

  /** `if (text)`. */
  predicate NonBlank(text: string) {
    text != []
  }

  /** `if (text && text.length > 10)`. */
  predicate LongEnough(text: string) {
    text != [] && Utf16Length(text) > 10
  }

  function AsJson(text: string): Json {
    JStr(text)
  }

  /** The ingredients read from the element texts. */
  function HtmlIngredients(texts: seq<string>): seq<Ingredient> {
    KeepCleaned(texts, Trim, NonBlank, ParseIngredient)
  }

  /** The directions read from the element texts. */
  function HtmlDirections(texts: seq<string>): seq<Json> {
    KeepCleaned(texts, Trim, LongEnough, AsJson)
  }

  /** `$('h1').first().text().trim() || 'Imported Recipe'`. */
  function HtmlTitle(heading: string): string {
    var t := Trim(heading);
    if t != [] then t else "Imported Recipe"
  }

  /** `attr('content') || ''`. */
  function ContentOrEmpty(content: Option<string>): string {
    if content.Some? then content.value else ""
  }

  /** `parseHtml($)`: the tags come from the title and the ingredients alone. */
  function ParseHtmlSpec(page: Page): Recipe {
    var title := HtmlTitle(page.heading);
    var ingredients := HtmlIngredients(page.ingredientTexts);
    var tags := GenerateTagsSpec(Some(JStr(title)), ingredients, Some(JNull), Some(JNull), None);
    Recipe(title, JStr(ContentOrEmpty(page.description)), Some(JStr(ContentOrEmpty(page.image))), 2,
           None, None, ingredients, HtmlDirections(page.instructionTexts),
           if tags.Ok? then tags.value else [])
  }

  /** The `.each` over the ingredient elements. */
  method CollectIngredients(texts: seq<string>) returns (ingredients: seq<Ingredient>)
    ensures ingredients == HtmlIngredients(texts)
  {
    ingredients := [];
    for i := 0 to |texts|
      invariant ingredients == KeepCleaned(texts[..i], Trim, NonBlank, ParseIngredient)
    {
      KeepCleanedStep(texts, i, Trim, NonBlank, ParseIngredient);
      var text := Trim(texts[i]);
      if text != [] {
        ingredients := ingredients + [ParseIngredient(text)];
      }
    }
    assert texts[..|texts|] == texts;
  }

  /** The `.each` over the instruction elements. */
  method CollectDirections(texts: seq<string>) returns (directions: seq<Json>)
    ensures directions == HtmlDirections(texts)
  {
    directions := [];
    for i := 0 to |texts|
      invariant directions == KeepCleaned(texts[..i], Trim, LongEnough, AsJson)
    {
      KeepCleanedStep(texts, i, Trim, LongEnough, AsJson);
      var text := Trim(texts[i]);
      if LongEnough(text) {
        directions := directions + [JStr(text)];
      }
    }
    assert texts[..|texts|] == texts;
  }

  /** `parseHtml($)`. */
  method ParseHtml(page: Page) returns (recipe: Recipe)
    ensures recipe == ParseHtmlSpec(page)
  {
    var title := HtmlTitle(page.heading);
    var ingredients := CollectIngredients(page.ingredientTexts);
    var directions := CollectDirections(page.instructionTexts);
    var tags := GenerateTags(Some(JStr(title)), ingredients, Some(JNull), Some(JNull), None);
    recipe := Recipe(title, JStr(ContentOrEmpty(page.description)), Some(JStr(ContentOrEmpty(page.image))), 2,
                     None, None, ingredients, directions, if tags.Ok? then tags.value else []);
  }

  /** Every element comes from a text that `keep` accepts once cleaned. */
  lemma {:induction false} KeepCleanedSound<T>(texts: seq<string>, clean: string -> string, keep: string -> bool, f: string -> T)
    ensures |KeepCleaned(texts, clean, keep, f)| <= |texts|
    ensures forall x :: x in KeepCleaned(texts, clean, keep, f) ==>
              exists i :: 0 <= i < |texts| && keep(clean(texts[i])) && x == f(clean(texts[i]))
    decreases |texts|
  {
    if texts != [] {
      var init := texts[..|texts| - 1];
      var last := clean(texts[|texts| - 1]);
      KeepCleanedSound(init, clean, keep, f);
      forall x | x in KeepCleaned(texts, clean, keep, f)
        ensures exists i :: 0 <= i < |texts| && keep(clean(texts[i])) && x == f(clean(texts[i]))
      {
        if x in KeepCleaned(init, clean, keep, f) {
          var i :| 0 <= i < |init| && keep(clean(init[i])) && x == f(clean(init[i]));
          assert init[i] == texts[i];
        } else {
          assert keep(last) && x == f(last);
        }
      }
    }
  }

  /** Every text that `keep` accepts once cleaned contributes its element. */
  lemma {:induction false} KeepCleanedComplete<T>(texts: seq<string>, clean: string -> string, keep: string -> bool, f: string -> T)
    ensures forall i :: 0 <= i < |texts| && keep(clean(texts[i])) ==> f(clean(texts[i])) in KeepCleaned(texts, clean, keep, f)
    decreases |texts|
  {
    if texts != [] {
      var init := texts[..|texts| - 1];
      KeepCleanedComplete(init, clean, keep, f);
      forall i | 0 <= i < |texts| && keep(clean(texts[i]))
        ensures f(clean(texts[i])) in KeepCleaned(texts, clean, keep, f)
      {
        if i < |init| {
          assert init[i] == texts[i];
        }
      }
    }
  }

  /** Every direction read from the page is a trimmed text longer than ten
      code units. */
  lemma HtmlDirectionsSound(texts: seq<string>)
    ensures |HtmlDirections(texts)| <= |texts|
    ensures forall d :: d in HtmlDirections(texts) ==> d.JStr? && Trim(d.s) == d.s && Utf16Length(d.s) > 10
  {
    KeepCleanedSound(texts, Trim, LongEnough, AsJson);
    forall d | d in HtmlDirections(texts)
      ensures d.JStr? && Trim(d.s) == d.s && Utf16Length(d.s) > 10
    {
      var i :| 0 <= i < |texts| && LongEnough(Trim(texts[i])) && d == AsJson(Trim(texts[i]));
      TrimTwice(texts[i]);
    }
  }

  /** Every element text longer than ten code units once trimmed gives a
      direction. */
  lemma HtmlDirectionsComplete(texts: seq<string>)
    ensures forall i :: 0 <= i < |texts| && Utf16Length(Trim(texts[i])) > 10 ==> JStr(Trim(texts[i])) in HtmlDirections(texts)
  {
    KeepCleanedComplete(texts, Trim, LongEnough, AsJson);
    forall i | 0 <= i < |texts| && Utf16Length(Trim(texts[i])) > 10
      ensures JStr(Trim(texts[i])) in HtmlDirections(texts)
    {
      assert LongEnough(Trim(texts[i]));
    }
  }

  /** Every ingredient read from the page is the parse of an element text
      that is not blank, and every such text gives one. */
  lemma HtmlIngredientsFromTexts(texts: seq<string>)
    ensures |HtmlIngredients(texts)| <= |texts|
    ensures forall x :: x in HtmlIngredients(texts) ==>
              exists i :: 0 <= i < |texts| && Trim(texts[i]) != [] && x == ParseIngredient(Trim(texts[i]))
    ensures forall i :: 0 <= i < |texts| && Trim(texts[i]) != [] ==> ParseIngredient(Trim(texts[i])) in HtmlIngredients(texts)
  {
    KeepCleanedSound(texts, Trim, NonBlank, ParseIngredient);
    KeepCleanedComplete(texts, Trim, NonBlank, ParseIngredient);
  }

  /** The fallback always produces a recipe with a title, two servings and
      no times. */
  lemma HtmlFields(page: Page)
    ensures var recipe := ParseHtmlSpec(page);
            recipe.title != [] && recipe.servings == 2 && recipe.prepTime.None? && recipe.cookTime.None?
  {
  }

  /** With a string title, `null` cuisine and category and no time, the
      candidates are the rule tags of the title and the ingredients. */
  lemma HtmlCandidates(title: string, ingredients: seq<Ingredient>)
    ensures Candidates(Some(JStr(title)), ingredients, Some(JNull), Some(JNull), None)
            == Ok(ProteinTags(ToLower(title), IngredientNames(ingredients)) + StyleTags(ToLower(title)))
  {
    var proteins := ProteinTags(ToLower(title), IngredientNames(ingredients));
    var styles := StyleTags(ToLower(title));
    assert TitleText(Some(JStr(title))) == Ok(title);
    assert CuisineTags(Some(JNull)) == Ok([]);
    assert CategoryTags(Some(JNull)) == Ok([]);
    NothingAhead(OptionTag(TimeTag(None)), proteins, styles);
  }

  lemma NothingAhead(none: seq<string>, p: seq<string>, q: seq<string>)
    requires none == []
    ensures none + [] + [] + p + q == p + q
  {
  }

  /** Tagging the fallback recipe never throws, and gives at most six rule
      tags: no time, cuisine or category tag. */
  lemma HtmlTagsOf(title: string, ingredients: seq<Ingredient>)
    ensures var r := GenerateTagsSpec(Some(JStr(title)), ingredients, Some(JNull), Some(JNull), None);
            && r.Ok?
            && |r.value| <= 6
            && forall t :: t in r.value ==> t in RuleTags
  {
    HtmlCandidates(title, ingredients);
    GenerateTagsShape(Some(JStr(title)), ingredients, Some(JNull), Some(JNull), None);
    RulesAddRuleTags(ToLower(title), IngredientNames(ingredients));
  }

  /** The fallback's tags come from the title and ingredient rules alone. */
  lemma HtmlTags(page: Page)
    ensures |ParseHtmlSpec(page).tags| <= 6
    ensures forall t :: t in ParseHtmlSpec(page).tags ==> t in RuleTags
  {
    HtmlTagsOf(HtmlTitle(page.heading), HtmlIngredients(page.ingredientTexts));
  }

  // ---------------------------------------------------------------------
  // The whole import.
  // ---------------------------------------------------------------------

  /** The recipe of the chosen block, or the page's HTML when no block has one. */
  function ImportSpec(blocks: seq<Option<Json>>, page: Page): Result<Recipe> {
    match SelectRecipe(blocks)
    case Some(data) => ParseJsonLdSpec(data.fields)
    case None => Ok(ParseHtmlSpec(page))
  }

  /** `parseHelloFreshUrl(url)` after the page has been fetched and loaded. */
  method ImportPage(blocks: seq<Option<Json>>, page: Page) returns (r: Result<Recipe>)
    ensures r == ImportSpec(blocks, page)
  {
    var recipeData := ScanBlocks(blocks);
    if recipeData.Some? {
      r := ParseJsonLd(recipeData.value.fields);
      return;
    }
    var recipe := ParseHtml(page);
    r := Ok(recipe);
  }

  /** The HTML is read only when no block has a recipe; once one does, its
      mapping is the outcome, a failure included. */
  lemma ImportChoosesSource(blocks: seq<Option<Json>>, page: Page, i: nat)
    requires i < |blocks| && BlockRecipe(blocks[i]).Some?
    requires forall j :: i < j < |blocks| ==> BlockRecipe(blocks[j]).None?
    ensures ImportSpec(blocks, page) == ParseJsonLdSpec(BlockRecipe(blocks[i]).value.fields)
  {
    LastRecipeWins(blocks, i);
  }

  lemma ImportFallsBack(blocks: seq<Option<Json>>, page: Page)
    requires forall i :: 0 <= i < |blocks| ==> BlockRecipe(blocks[i]).None?
    ensures ImportSpec(blocks, page) == Ok(ParseHtmlSpec(page))
  {
    NoRecipeFound(blocks);
  }
}
