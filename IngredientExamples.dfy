/// Worked lines for `parseIngredientString`, each proved from the model.
module IngredientExamples {
  import opened JsValues
  import opened JsText
  import opened IngredientLine
  import Fractions

  // ---------------------------------------------------------------------
  // Steps the worked lines share.
  // ---------------------------------------------------------------------

  /** Alternatives whose first letter differs from the character at `p` are passed over. */
  lemma {:induction false} SkipUnits(s: string, p: nat, us: seq<string>, j: nat)
    requires p < |s| && j <= |us|
    requires forall i :: 0 <= i < j ==> |us[i]| >= 1 && !SameLetter(s[p], us[i][0])
    ensures FirstUnit(s, p, us) == FirstUnit(s, p, us[j..])
    decreases j
  {
    if j > 0 {
      assert |us[0]| <= |s| - p ==> s[p..p + |us[0]|][0] == s[p];
      assert !UnitAt(s, p, us[0]);
      SkipUnits(s, p, us[1..], j - 1);
      assert us[1..][j - 1..] == us[j..];
    }
  }

  /** No alternative starts with the character at `p`. */
  lemma NoUnitStartsHere(s: string, p: nat)
    requires p < |s|
    requires forall i :: 0 <= i < |Units| ==> !SameLetter(s[p], Units[i][0])
    ensures FirstUnit(s, p, Units) == None
  {
    UnitsStartWithLetters();
    SkipUnits(s, p, Units, |Units|);
    assert Units[|Units|..] == [];
  }

  /** Alternative `j` is the first one written at `p` and a name follows it. */
  lemma {:induction false} UnitFoundAt(s: string, p: nat, us: seq<string>, j: nat, q: nat)
    requires p < |s| && j < |us|
    requires forall i :: 0 <= i < j ==> |us[i]| >= 1 && !SameLetter(s[p], us[i][0])
    requires UnitAt(s, p, us[j]) && DirectAfterUnit(s, p + |us[j]|) == Some(q)
    ensures FirstUnit(s, p, us) == Some(UnitHit(Some(s[p..p + |us[j]|]), q))
  {
    SkipUnits(s, p, us, j);
    assert us[j..][0] == us[j];
  }

  /** The captures of a line without line terminators whose amount group
      is followed by white space up to `e` and a unit there. */
  lemma LineWithUnit(s: string, e: nat, h: UnitHit)
    requires |s| >= 1 && forall i :: 0 <= i < |s| ==> !IsLineTerminator(s[i])
    requires var a := if |s| >= 2 && IsAmountChar(s[0]) then 1 else 0;
             a <= |s| && RunEnd(s, a, IsJsSpace) == e
    requires FirstUnit(s, e, Units) == Some(h)
    ensures MatchLine(s) == Some(Captures(if |s| >= 2 && IsAmountChar(s[0]) then Some(s[..1]) else None,
                                          h.unit, h.nameStart))
  {
    SingleLineMatch(s);
  }

  /** The same without a unit: the name starts at `q`. */
  lemma LineWithoutUnit(s: string, e: nat, q: nat)
    requires |s| >= 1 && forall i :: 0 <= i < |s| ==> !IsLineTerminator(s[i])
    requires var a := if |s| >= 2 && IsAmountChar(s[0]) then 1 else 0;
             a <= |s| && RunEnd(s, a, IsJsSpace) == e
             && (DirectAfterUnit(s, e) == Some(q) || (DirectAfterUnit(s, e) == None && a < e && DirectAfterUnit(s, e - 1) == Some(q)))
    requires FirstUnit(s, e, Units) == None
    ensures MatchLine(s) == Some(Captures(if |s| >= 2 && IsAmountChar(s[0]) then Some(s[..1]) else None,
                                          None, q))
  {
    SingleLineMatch(s);
  }

  /** The parsed line of ASCII text from its captures. */
  lemma ParsedAscii(str: string, c: Captures)
    requires forall i :: 0 <= i < |str| ==> str[i] as int < 0x80
    requires MatchLine(str) == Some(c)
    ensures c.nameStart < |str|
    ensures ParseIngredient(str) ==
              var name := Trim(str[c.nameStart..]);
              Ingredient(AmountText(c.amount), c.unit, if name == [] then str else name)
  {
    Fractions.AsciiUnchanged(str);
  }

  /** A word without white space at either end is its own trim. */
  lemma WordIsTrimmed(t: string, w: string)
    requires t == w && |w| >= 1 && !IsJsSpace(w[0]) && !IsJsSpace(w[|w| - 1])
    ensures Trim(t) == w
  {
    TrimUnchanged(t);
  }

  // ---------------------------------------------------------------------
  // The lines.
  // ---------------------------------------------------------------------

  lemma CupOfRiceFacts(s: string)
    requires s == "1 cup rice"
    ensures forall i :: 0 <= i < |s| ==> !IsLineTerminator(s[i]) && s[i] as int < 0x80
    ensures |s| >= 2 && IsAmountChar(s[0]) && s[..1] == "1"
    ensures RunEnd(s, 1, IsJsSpace) == 2
  {
  }

  lemma CupOfRiceName(s: string)
    requires s == "1 cup rice"
    ensures Trim(s[6..]) == "rice"
  {
    WordIsTrimmed(s[6..], "rice");
  }

  lemma CupOfRiceUnit(s: string)
    requires s == "1 cup rice"
    ensures FirstUnit(s, 2, Units) == Some(UnitHit(Some("cup"), 6))
  {
    assert Units[7] == "cup" && s[2..5] == "cup";
    assert RunEnd(s, 5, IsJsSpace) == 6;
    UnitFoundAt(s, 2, Units, 7, 6);
  }

  /** "1 cup rice" gives amount "1", unit "cup", name "rice". */
  lemma CupOfRice(s: string)
    requires s == "1 cup rice"
    ensures ParseIngredient(s) == Ingredient(Some("1"), Some("cup"), "rice")
  {
    CupOfRiceFacts(s);
    CupOfRiceName(s);
    CupOfRiceUnit(s);
    LineWithUnit(s, 2, UnitHit(Some("cup"), 6));
    ParsedAscii(s, Captures(Some("1"), Some("cup"), 6));
    OneCharAmount('1');
  }

  lemma TwelveEggsFacts(s: string)
    requires s == "12 eggs"
    ensures forall i :: 0 <= i < |s| ==> !IsLineTerminator(s[i]) && s[i] as int < 0x80
    ensures |s| >= 2 && IsAmountChar(s[0]) && s[..1] == "1"
    ensures RunEnd(s, 1, IsJsSpace) == 1
    ensures DirectAfterUnit(s, 1) == Some(1)
  {
  }

  lemma TwelveEggsName(s: string)
    requires s == "12 eggs"
    ensures Trim(s[1..]) == "2 eggs"
  {
    WordIsTrimmed(s[1..], "2 eggs");
  }

  lemma TwelveEggsUnit(s: string)
    requires s == "12 eggs"
    ensures FirstUnit(s, 1, Units) == None
  {
    NoUnitStartsHere(s, 1);
  }

  /** "12 eggs" gives amount "1" and name "2 eggs": the lazy amount stops after one character. */
  lemma TwelveEggs(s: string)
    requires s == "12 eggs"
    ensures ParseIngredient(s) == Ingredient(Some("1"), None, "2 eggs")
  {
    TwelveEggsFacts(s);
    TwelveEggsName(s);
    TwelveEggsUnit(s);
    LineWithoutUnit(s, 1, 1);
    ParsedAscii(s, Captures(Some("1"), None, 1));
    OneCharAmount('1');
  }

  lemma MixedNumberFacts(s: string)
    requires s == "1 1/2 cups rice"
    ensures forall i :: 0 <= i < |s| ==> !IsLineTerminator(s[i]) && s[i] as int < 0x80
    ensures |s| >= 2 && IsAmountChar(s[0]) && s[..1] == "1"
    ensures RunEnd(s, 1, IsJsSpace) == 2
    ensures DirectAfterUnit(s, 2) == Some(2)
  {
  }

  lemma MixedNumberName(s: string)
    requires s == "1 1/2 cups rice"
    ensures Trim(s[2..]) == "1/2 cups rice"
  {
    WordIsTrimmed(s[2..], "1/2 cups rice");
  }

  lemma MixedNumberUnit(s: string)
    requires s == "1 1/2 cups rice"
    ensures FirstUnit(s, 2, Units) == None
  {
    NoUnitStartsHere(s, 2);
  }

  /** "1 1/2 cups rice" gives amount "1" and name "1/2 cups rice": the rest of a mixed number is not part of the amount. */
  lemma MixedNumber(s: string)
    requires s == "1 1/2 cups rice"
    ensures ParseIngredient(s) == Ingredient(Some("1"), None, "1/2 cups rice")
  {
    MixedNumberFacts(s);
    MixedNumberName(s);
    MixedNumberUnit(s);
    LineWithoutUnit(s, 2, 2);
    ParsedAscii(s, Captures(Some("1"), None, 2));
    OneCharAmount('1');
  }

  lemma CupsOfRiceFacts(s: string)
    requires s == "2 cups rice"
    ensures forall i :: 0 <= i < |s| ==> !IsLineTerminator(s[i]) && s[i] as int < 0x80
    ensures |s| >= 2 && IsAmountChar(s[0]) && s[..1] == "2"
    ensures RunEnd(s, 1, IsJsSpace) == 2
  {
  }

  lemma CupsOfRiceName(s: string)
    requires s == "2 cups rice"
    ensures Trim(s[5..]) == "s rice"
  {
    WordIsTrimmed(s[5..], "s rice");
  }

  lemma CupsOfRiceUnit(s: string)
    requires s == "2 cups rice"
    ensures FirstUnit(s, 2, Units) == Some(UnitHit(Some("cup"), 5))
  {
    assert |Units[7]| == 3 && s[2..5] == "cup";
    assert RunEnd(s, 5, IsJsSpace) == 5;
    UnitFoundAt(s, 2, Units, 7, 5);
  }

  /** "2 cups rice" gives unit "cup" and name "s rice": "cup" is listed before "cups" and no word boundary is required. */
  lemma CupsOfRice(s: string)
    requires s == "2 cups rice"
    ensures ParseIngredient(s) == Ingredient(Some("2"), Some("cup"), "s rice")
  {
    CupsOfRiceFacts(s);
    CupsOfRiceName(s);
    CupsOfRiceUnit(s);
    LineWithUnit(s, 2, UnitHit(Some("cup"), 5));
    ParsedAscii(s, Captures(Some("2"), Some("cup"), 5));
    OneCharAmount('2');
  }

  lemma GarlicFacts(s: string)
    requires s == "Garlic"
    ensures forall i :: 0 <= i < |s| ==> !IsLineTerminator(s[i]) && s[i] as int < 0x80
    ensures !IsAmountChar(s[0])
    ensures RunEnd(s, 0, IsJsSpace) == 0
  {
  }

  lemma GarlicName(s: string)
    requires s == "Garlic"
    ensures Trim(s[1..]) == "arlic"
  {
    WordIsTrimmed(s[1..], "arlic");
  }

  lemma GarlicUnit(s: string)
    requires s == "Garlic"
    ensures FirstUnit(s, 0, Units) == Some(UnitHit(Some("G"), 1))
  {
    assert |Units[15]| == 1 && s[0..1] == "G";
    assert RunEnd(s, 1, IsJsSpace) == 1;
    UnitFoundAt(s, 0, Units, 15, 1);
  }

  /** "Garlic" gives unit "G" and name "arlic": "g" matches without regard to case and keeps the line's spelling. */
  lemma Garlic(s: string)
    requires s == "Garlic"
    ensures ParseIngredient(s) == Ingredient(None, Some("G"), "arlic")
  {
    GarlicFacts(s);
    GarlicName(s);
    GarlicUnit(s);
    LineWithUnit(s, 0, UnitHit(Some("G"), 1));
    ParsedAscii(s, Captures(None, Some("G"), 1));
  }

  lemma SaltToTasteFacts(s: string)
    requires s == "salt to taste"
    ensures forall i :: 0 <= i < |s| ==> !IsLineTerminator(s[i]) && s[i] as int < 0x80
    ensures !IsAmountChar(s[0])
    ensures RunEnd(s, 0, IsJsSpace) == 0
    ensures DirectAfterUnit(s, 0) == Some(0)
  {
  }

  lemma SaltToTasteName(s: string)
    requires s == "salt to taste"
    ensures Trim(s[0..]) == "salt to taste"
  {
    WordIsTrimmed(s[0..], "salt to taste");
  }

  lemma SaltToTasteUnit(s: string)
    requires s == "salt to taste"
    ensures FirstUnit(s, 0, Units) == None
  {
    NoUnitStartsHere(s, 0);
  }

  /** "salt to taste" has neither amount nor unit. */
  lemma SaltToTaste(s: string)
    requires s == "salt to taste"
    ensures ParseIngredient(s) == Ingredient(None, None, "salt to taste")
  {
    SaltToTasteFacts(s);
    SaltToTasteName(s);
    SaltToTasteUnit(s);
    LineWithoutUnit(s, 0, 0);
    ParsedAscii(s, Captures(None, None, 0));
  }

  lemma LeadingSpaceFacts(s: string)
    requires s == " 5 eggs"
    ensures forall i :: 0 <= i < |s| ==> !IsLineTerminator(s[i]) && s[i] as int < 0x80
    ensures |s| >= 2 && IsAmountChar(s[0]) && s[..1] == " "
    ensures RunEnd(s, 1, IsJsSpace) == 1
    ensures DirectAfterUnit(s, 1) == Some(1)
  {
  }

  lemma LeadingSpaceName(s: string)
    requires s == " 5 eggs"
    ensures Trim(s[1..]) == "5 eggs"
  {
    WordIsTrimmed(s[1..], "5 eggs");
  }

  lemma LeadingSpaceUnit(s: string)
    requires s == " 5 eggs"
    ensures FirstUnit(s, 1, Units) == None
  {
    NoUnitStartsHere(s, 1);
  }

  /** " 5 eggs": group 1 holds the leading space, which trims to nothing, so there is no amount. */
  lemma LeadingSpace(s: string)
    requires s == " 5 eggs"
    ensures ParseIngredient(s) == Ingredient(None, None, "5 eggs")
  {
    LeadingSpaceFacts(s);
    LeadingSpaceName(s);
    LeadingSpaceUnit(s);
    LineWithoutUnit(s, 1, 1);
    ParsedAscii(s, Captures(Some(" "), None, 1));
    OneCharAmount(' ');
  }

  lemma TwoAndSpaceFacts(s: string)
    requires s == "2 "
    ensures forall i :: 0 <= i < |s| ==> !IsLineTerminator(s[i]) && s[i] as int < 0x80
    ensures |s| >= 2 && IsAmountChar(s[0]) && s[..1] == "2"
    ensures RunEnd(s, 1, IsJsSpace) == 2
  {
  }

  lemma TwoAndSpaceTail(s: string)
    requires s == "2 "
    ensures DirectAfterUnit(s, 2) == None && DirectAfterUnit(s, 1) == Some(1)
  {
    assert LastLineStart(s) == 0;
    assert RunEnd(s, 1, IsJsSpace) == 2;
  }

  lemma TwoAndSpaceName(s: string)
    requires s == "2 "
    ensures Trim(s[1..]) == []
  {
    assert IsJsSpace(s[1..][0]) && |s[1..]| == 1;
    TrimEmpty(s[1..]);
  }

  /** "2 " gives amount "2" and, since the rest trims to nothing, the line itself as name. */
  lemma TwoAndSpace(s: string)
    requires s == "2 "
    ensures ParseIngredient(s) == Ingredient(Some("2"), None, "2 ")
  {
    TwoAndSpaceFacts(s);
    TwoAndSpaceTail(s);
    TwoAndSpaceName(s);
    UnitsStartWithLetters();
    NoUnitAtEnd(s, Units);
    LineWithoutUnit(s, 2, 1);
    ParsedAscii(s, Captures(Some("2"), None, 1));
    OneCharAmount('2');
  }

  /** The empty line does not match: the name is the line itself. */
  lemma EmptyLine()
    ensures ParseIngredient("") == Ingredient(None, None, "")
  {
    SingleLineMatch("");
    Fractions.AsciiUnchanged("");
    NameShape("");
  }

  /** A line that starts with neither an amount character, white space nor a
      unit cannot match when a line terminator follows: `(.+)$` would have to
      cross it. */
  lemma NoMatchAcrossLines(s: string)
    requires |s| >= 1 && !IsAmountChar(s[0]) && !IsJsSpace(s[0])
    requires FirstUnit(s, 0, Units) == None
    requires LastLineStart(s) > 0
    ensures MatchLine(s) == None
  {
    NoMatchFromStart(s, Units);
  }

  lemma NoMatchFromStart(s: string, us: seq<string>)
    requires |s| >= 1 && !IsAmountChar(s[0]) && !IsJsSpace(s[0])
    requires FirstUnit(s, 0, us) == None
    requires LastLineStart(s) > 0
    ensures RunEnd(s, 0, IsAmountChar) == 0
    ensures DirectAmount(s, us, 1) == None
  {
    assert RunEnd(s, 0, IsJsSpace) == 0;
    assert DirectAfterUnit(s, 0) == None;
    assert DirectFromAmount(s, us, 0) == None;
  }

  lemma SaltPepperFacts(s: string)
    requires s == "salt\npepper"
    ensures forall i :: 0 <= i < |s| ==> s[i] as int < 0x80
    ensures !IsAmountChar(s[0]) && !IsJsSpace(s[0]) && IsLineTerminator(s[4])
  {
  }

  /** "salt\npepper" does not match, so the whole input is the name. */
  lemma SaltPepper(s: string)
    requires s == "salt\npepper"
    ensures ParseIngredient(s) == Ingredient(None, None, "salt\npepper")
  {
    SaltPepperFacts(s);
    NoUnitStartsHere(s, 0);
    NoMatchAcrossLines(s);
    Fractions.AsciiUnchanged(s);
    NameShape(s);
  }
}
