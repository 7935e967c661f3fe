/// `parseIngredientString`: one free-text ingredient line becomes an amount,
/// a unit and a name by matching
///
///   /^([\d./\s]+?)?\s*(oz|ounce|…|units)?\s*(.+)$/i
///
/// against the line after fraction normalisation. The match is modelled
/// twice: `RegexMatch` walks the engine's backtracking search choice by
/// choice, and `MatchLine` computes the same captures stage by stage without
/// backtracking; `MatchLineIsRegex` proves them equal on every string.
module IngredientLine {
  import opened JsValues
  import opened JsText
  import Fractions

  /** A parsed line. */
  datatype Ingredient = Ingredient(amount: Option<string>, unit: Option<string>, name: string)

  /** The unit alternatives, in the order the pattern lists them. */
  const Units: seq<string> := [
    "oz", "ounce", "ounces", "lb", "lbs", "pound", "pounds", "cup", "cups", "tbsp", "tsp",
    "tablespoon", "tablespoons", "teaspoon", "teaspoons", "g", "kg", "ml", "l",
    "piece", "pieces", "clove", "cloves", "unit", "units"
  ]

  /** What the unit group and the rest of the pattern produced: group 2 as
      it is written in the line, and where group 3 starts (it runs to the end). */
  datatype UnitHit = UnitHit(unit: Option<string>, nameStart: nat)

  /** The three groups of a successful match; group 1 is undefined when the
      optional amount group was skipped. */
  datatype Captures = Captures(amount: Option<string>, unit: Option<string>, nameStart: nat)

  /** `[\d./\s]` */
  predicate IsAmountChar(c: char) {
    IsDigit(c) || c == '.' || c == '/' || IsJsSpace(c)
  }

  /** `.` without the `s` flag. */
  predicate IsDotChar(c: char) {
    !IsLineTerminator(c)
  }

  /** End of the longest run of characters satisfying `P` from `p`. */
  function RunEnd(s: string, p: nat, P: char -> bool): (e: nat)
    requires p <= |s|
    ensures p <= e <= |s|
    ensures forall i :: p <= i < e ==> P(s[i])
    ensures e < |s| ==> !P(s[e])
    decreases |s| - p
  {
    if p < |s| && P(s[p]) then RunEnd(s, p + 1, P) else p
  }

  /** Those three properties pin the run's end down. */
  lemma RunEndUnique(s: string, p: nat, P: char -> bool, e: nat)
    requires p <= e <= |s|
    requires forall i :: p <= i < e ==> P(s[i])
    requires e < |s| ==> !P(s[e])
    ensures RunEnd(s, p, P) == e
  {
  }

  /** A run that starts inside another run ends where it ends. */
  lemma RunEndInside(s: string, a: nat, p: nat, P: char -> bool)
    requires a <= p <= |s|
    requires p <= RunEnd(s, a, P)
    ensures RunEnd(s, p, P) == RunEnd(s, a, P)
  {
    RunEndUnique(s, p, P, RunEnd(s, a, P));
  }

  /** `c` equals the pattern letter `x` under `/i`. Without the `u` flag the
      engine compares upper-case forms and never maps a non-ASCII character
      to an ASCII one, so only ASCII letters can equal a unit's letters. */
  predicate SameLetter(c: char, x: char) {
    UpperChar(c) == UpperChar(x)
  }

  /** `a` spells `b` up to ASCII case. */
  predicate SameLetters(a: string, b: string) {
    |a| == |b| && (a == [] || (SameLetter(a[0], b[0]) && SameLetters(a[1..], b[1..])))
  }

  /** Unit `u` is written at index `p` of `s`. */
  predicate UnitAt(s: string, p: nat, u: string) {
    p + |u| <= |s| && SameLetters(s[p..p + |u|], u)
  }

  // ---------------------------------------------------------------------
  // The engine's search. Each function tries the choices of one part of the
  // pattern in the engine's order and hands the rest to the next part.
  // ---------------------------------------------------------------------

  /** `(.+)$` at `q` with `.+` holding `n` characters: `$` needs the end of
      the input (no `m` flag); failing that, `.+` gives one back, down to one. */
  function DotPlusThenEnd(s: string, q: nat, n: nat): bool
    requires q + n <= |s|
    decreases n
  {
    n >= 1 && (q + n == |s| || DotPlusThenEnd(s, q, n - 1))
  }

  /** Group 3 and `$` from `q`: greedy `.+` starts with every character up to
      the next line terminator. */
  predicate TailAt(s: string, q: nat)
    requires q <= |s|
  {
    DotPlusThenEnd(s, q, RunEnd(s, q, IsDotChar) - q)
  }

  /** The second `\s*` holding `n` white-space characters from `p`, then
      fewer: the first count for which the tail matches. */
  function SecondSpace(s: string, p: nat, n: nat): Option<nat>
    requires p + n <= |s|
    decreases n
  {
    if TailAt(s, p + n) then Some(p + n)
    else if n == 0 then None
    else SecondSpace(s, p, n - 1)
  }

  /** Everything after the unit group, from `p`: greedy `\s*` starts with the
      whole run of white space. */
  function AfterUnit(s: string, p: nat): Option<nat>
    requires p <= |s|
  {
    SecondSpace(s, p, RunEnd(s, p, IsJsSpace) - p)
  }

  /** The optional unit group at `p`: the alternatives of `us` in order, and
      after them the empty choice. */
  function UnitChoice(s: string, p: nat, us: seq<string>): Option<UnitHit>
    requires p <= |s|
    decreases |us|
  {
    if us == [] then
      match AfterUnit(s, p)
      case Some(q) => Some(UnitHit(None, q))
      case None => None
    else if UnitAt(s, p, us[0]) then
      match AfterUnit(s, p + |us[0]|)
      case Some(q) => Some(UnitHit(Some(s[p..p + |us[0]|]), q))
      case None => UnitChoice(s, p, us[1..])
    else UnitChoice(s, p, us[1..])
  }

  /** The first `\s*` holding `n` white-space characters after index `a`,
      then fewer. */
  function FirstSpace(s: string, us: seq<string>, a: nat, n: nat): Option<UnitHit>
    requires a + n <= |s|
    decreases n
  {
    match UnitChoice(s, a + n, us)
    case Some(h) => Some(h)
    case None => if n == 0 then None else FirstSpace(s, us, a, n - 1)
  }

  /** The optional group `([\d./\s]+?)?` holding `k` characters: a greedy `?`
      tries the group before skipping it, and a lazy `+?` tries one
      character, then two, and so on while the characters fit the class. */
  function AmountChoice(s: string, us: seq<string>, k: nat): Option<Captures>
    requires 1 <= k <= RunEnd(s, 0, IsAmountChar) + 1
    decreases RunEnd(s, 0, IsAmountChar) + 1 - k
  {
    if k <= RunEnd(s, 0, IsAmountChar) then
      match FirstSpace(s, us, k, RunEnd(s, k, IsJsSpace) - k)
      case Some(h) => Some(Captures(Some(s[..k]), h.unit, h.nameStart))
      case None => AmountChoice(s, us, k + 1)
    else
      match FirstSpace(s, us, 0, RunEnd(s, 0, IsJsSpace))
      case Some(h) => Some(Captures(None, h.unit, h.nameStart))
      case None => None
  }

  /** `normalized.match(re)`: `^` without the `m` flag only matches at index
      0, so the search is the one started there; None is `null`. */
  function RegexMatch(s: string): Option<Captures> {
    AmountChoice(s, Units, 1)
  }

  // ---------------------------------------------------------------------
  // The same match computed directly.
  // ---------------------------------------------------------------------

  /** Where the last line of `s` begins: no line terminator at or after it. */
  function LastLineStart(s: string): (b: nat)
    ensures b <= |s|
    ensures forall i :: b <= i < |s| ==> !IsLineTerminator(s[i])
    ensures b > 0 ==> IsLineTerminator(s[b - 1])
  {
    if s == [] || IsLineTerminator(s[|s| - 1]) then |s|
    else
      var b := LastLineStart(s[..|s| - 1]);
      assert forall i :: b <= i < |s| - 1 ==> s[i] == s[..|s| - 1][i];
      b
  }

  /** Where group 3 starts once the unit group has ended at `p`: as far on as
      the white space allows, but on a character of the last line. */
  function DirectAfterUnit(s: string, p: nat): (r: Option<nat>)
    requires p <= |s|
    ensures r.Some? ==> p <= r.value < |s| && LastLineStart(s) <= r.value
    ensures r.Some? && r.value > p ==> forall i :: p <= i < r.value ==> IsJsSpace(s[i])
  {
    var top := if RunEnd(s, p, IsJsSpace) < |s| then RunEnd(s, p, IsJsSpace) else |s| - 1;
    if p < |s| && LastLineStart(s) <= top then Some(top) else None
  }

  /** The first unit of `us` written at `p` that leaves a tail that matches. */
  function FirstUnit(s: string, p: nat, us: seq<string>): (r: Option<UnitHit>)
    requires p <= |s|
    ensures r.Some? ==> p <= r.value.nameStart < |s| && LastLineStart(s) <= r.value.nameStart
    decreases |us|
  {
    if us == [] then None
    else if UnitAt(s, p, us[0]) && DirectAfterUnit(s, p + |us[0]|).Some? then
      Some(UnitHit(Some(s[p..p + |us[0]|]), DirectAfterUnit(s, p + |us[0]|).value))
    else FirstUnit(s, p, us[1..])
  }

  function NoUnit(q: Option<nat>): Option<UnitHit> {
    match q
    case Some(n) => Some(UnitHit(None, n))
    case None => None
  }

  /** Everything after an amount group that ended at `a`: a unit where the
      white space ends, else no unit there, else (when the white space runs
      to the end of the input) a name made of its last character. */
  function DirectFromAmount(s: string, us: seq<string>, a: nat): (r: Option<UnitHit>)
    requires a <= |s|
    ensures r.Some? ==> a <= r.value.nameStart < |s| && LastLineStart(s) <= r.value.nameStart
  {
    var e := RunEnd(s, a, IsJsSpace);
    match FirstUnit(s, e, us)
    case Some(h) => Some(h)
    case None =>
      if DirectAfterUnit(s, e).Some? then NoUnit(DirectAfterUnit(s, e))
      else if a < e then NoUnit(DirectAfterUnit(s, e - 1))
      else None
  }

  /** The shortest amount of `k` or more characters after which the rest
      matches, else no amount. */
  function DirectAmount(s: string, us: seq<string>, k: nat): (r: Option<Captures>)
    requires 1 <= k <= RunEnd(s, 0, IsAmountChar) + 1
    ensures r.Some? ==> r.value.nameStart < |s| && LastLineStart(s) <= r.value.nameStart
    ensures r.Some? && r.value.amount.Some? ==>
              var x := r.value.amount.value;
              k <= |x| <= r.value.nameStart && x == s[..|x|]
              && forall i :: 0 <= i < |x| ==> IsAmountChar(s[i])
    decreases RunEnd(s, 0, IsAmountChar) + 1 - k
  {
    if k <= RunEnd(s, 0, IsAmountChar) then
      match DirectFromAmount(s, us, k)
      case Some(h) => Some(Captures(Some(s[..k]), h.unit, h.nameStart))
      case None => DirectAmount(s, us, k + 1)
    else
      match DirectFromAmount(s, us, 0)
      case Some(h) => Some(Captures(None, h.unit, h.nameStart))
      case None => None
  }

  /** The match, computed without backtracking. */
  function MatchLine(s: string): (r: Option<Captures>)
    ensures r.Some? ==> r.value.nameStart < |s| && LastLineStart(s) <= r.value.nameStart
    ensures r.Some? && r.value.amount.Some? ==>
              var x := r.value.amount.value;
              1 <= |x| <= r.value.nameStart && x == s[..|x|]
              && forall i :: 0 <= i < |x| ==> IsAmountChar(s[i])
  {
    DirectAmount(s, Units, 1)
  }

  // ---------------------------------------------------------------------
  // The two agree.
  // ---------------------------------------------------------------------

  lemma {:induction false} DotPlusThenEndIff(s: string, q: nat, n: nat)
    requires q + n <= |s|
    ensures DotPlusThenEnd(s, q, n) <==> q < |s| && |s| - q <= n
    decreases n
  {
    if n >= 1 && q + n != |s| {
      DotPlusThenEndIff(s, q, n - 1);
    }
  }

  /** Group 3 with `$` matches from `q` exactly on a non-empty part of the last line. */
  lemma TailAtIff(s: string, q: nat)
    requires q <= |s|
    ensures TailAt(s, q) <==> LastLineStart(s) <= q < |s|
  {
    var e := RunEnd(s, q, IsDotChar);
    DotPlusThenEndIff(s, q, e - q);
    var b := LastLineStart(s);
    if q < b {
      assert !IsDotChar(s[b - 1]);
    }
  }

  lemma {:induction false} SecondSpaceDirect(s: string, p: nat, n: nat)
    requires p + n <= |s|
    ensures var top := if p + n < |s| then p + n else |s| - 1;
            SecondSpace(s, p, n) == if p < |s| && LastLineStart(s) <= top then Some(top) else None
    decreases n
  {
    TailAtIff(s, p + n);
    if n > 0 {
      SecondSpaceDirect(s, p, n - 1);
    }
  }

  lemma AfterUnitIsDirect(s: string, p: nat)
    requires p <= |s|
    ensures AfterUnit(s, p) == DirectAfterUnit(s, p)
  {
    SecondSpaceDirect(s, p, RunEnd(s, p, IsJsSpace) - p);
  }

  lemma {:induction false} UnitChoiceIsDirect(s: string, p: nat, us: seq<string>)
    requires p <= |s|
    ensures UnitChoice(s, p, us) ==
            match FirstUnit(s, p, us)
            case Some(h) => Some(h)
            case None => NoUnit(DirectAfterUnit(s, p))
    decreases |us|
  {
    if us == [] {
      AfterUnitIsDirect(s, p);
    } else {
      UnitChoiceIsDirect(s, p, us[1..]);
      if UnitAt(s, p, us[0]) {
        AfterUnitIsDirect(s, p + |us[0]|);
      }
    }
  }

  /** Every alternative of `us` begins with a lower-case ASCII letter. */
  predicate LetterInitial(us: seq<string>) {
    forall i :: 0 <= i < |us| ==> |us[i]| >= 1 && 'a' <= us[i][0] <= 'z'
  }

  lemma UnitsStartWithLetters()
    ensures LetterInitial(Units)
  {
  }

  /** No unit is written where a white-space character stands. */
  lemma {:induction false} NoUnitAtSpace(s: string, p: nat, us: seq<string>)
    requires p < |s| && IsJsSpace(s[p])
    requires LetterInitial(us)
    ensures FirstUnit(s, p, us) == None
    decreases |us|
  {
    if us != [] {
      assert !SameLetter(s[p], us[0][0]);
      assert |us[0]| <= |s| - p ==> s[p..p + |us[0]|][0] == s[p];
      assert !UnitAt(s, p, us[0]);
      NoUnitAtSpace(s, p, us[1..]);
    }
  }

  /** At a white-space character only the empty unit choice can match. */
  lemma UnitChoiceAtSpace(s: string, us: seq<string>, p: nat)
    requires p < |s| && IsJsSpace(s[p])
    requires LetterInitial(us)
    ensures UnitChoice(s, p, us) == NoUnit(DirectAfterUnit(s, p))
  {
    NoUnitAtSpace(s, p, us);
    UnitChoiceIsDirect(s, p, us);
  }

  /** Inside a run of white space the rest of the pattern ends the same way
      wherever the unit group is tried. */
  lemma SameAfterInRun(s: string, a: nat, p: nat)
    requires a <= |s|
    requires a <= p < RunEnd(s, a, IsJsSpace)
    ensures DirectAfterUnit(s, p) == DirectAfterUnit(s, RunEnd(s, a, IsJsSpace) - 1)
  {
    RunEndInside(s, a, p, IsJsSpace);
    RunEndInside(s, a, RunEnd(s, a, IsJsSpace) - 1, IsJsSpace);
  }

  /** Inside a run of white space every shorter first `\s*` ends in the
      same place: the tail starts where the run's last character allows. */
  lemma FirstSpaceInsideRun(s: string, us: seq<string>, a: nat, n: nat)
    requires a <= |s| && LetterInitial(us)
    requires a + n < RunEnd(s, a, IsJsSpace)
    ensures FirstSpace(s, us, a, n) == NoUnit(DirectAfterUnit(s, RunEnd(s, a, IsJsSpace) - 1))
  {
    var x := NoUnit(DirectAfterUnit(s, RunEnd(s, a, IsJsSpace) - 1));
    forall p | a <= p <= a + n
      ensures UnitChoice(s, p, us) == x
    {
      UnitChoiceAtSpace(s, us, p);
      SameAfterInRun(s, a, p);
    }
    FirstSpaceSame(s, us, a, n, x);
  }

  /** When every white-space count up to `n` gives the same unit choice, the
      first `\s*` gives it too. */
  lemma {:induction false} FirstSpaceSame(s: string, us: seq<string>, a: nat, n: nat, x: Option<UnitHit>)
    requires a + n <= |s|
    requires forall p :: a <= p <= a + n ==> UnitChoice(s, p, us) == x
    ensures FirstSpace(s, us, a, n) == x
    decreases n
  {
    assert UnitChoice(s, a + n, us) == x;
    if n > 0 {
      FirstSpaceSame(s, us, a, n - 1, x);
    }
  }

  lemma FirstSpaceIsDirect(s: string, us: seq<string>, a: nat)
    requires a <= |s| && LetterInitial(us)
    ensures FirstSpace(s, us, a, RunEnd(s, a, IsJsSpace) - a) == DirectFromAmount(s, us, a)
  {
    if a < RunEnd(s, a, IsJsSpace) {
      FirstSpaceAfterRun(s, us, a);
    } else {
      FirstSpaceNoRun(s, us, a);
    }
  }

  /** No white space after the amount: the unit choice at `a` decides. */
  lemma FirstSpaceNoRun(s: string, us: seq<string>, a: nat)
    requires a <= |s| && a == RunEnd(s, a, IsJsSpace)
    ensures FirstSpace(s, us, a, 0) == DirectFromAmount(s, us, a)
  {
    UnitChoiceIsDirect(s, a, us);
  }

  /** White space after the amount: the unit choice where it ends, else the
      choice one character back. */
  lemma FirstSpaceAfterRun(s: string, us: seq<string>, a: nat)
    requires a <= |s| && LetterInitial(us) && a < RunEnd(s, a, IsJsSpace)
    ensures FirstSpace(s, us, a, RunEnd(s, a, IsJsSpace) - a) == DirectFromAmount(s, us, a)
  {
    var e := RunEnd(s, a, IsJsSpace);
    UnitChoiceIsDirect(s, e, us);
    FirstSpaceInsideRun(s, us, a, e - a - 1);
  }

  lemma {:induction false} AmountChoiceIsDirect(s: string, us: seq<string>, k: nat)
    requires LetterInitial(us)
    requires 1 <= k <= RunEnd(s, 0, IsAmountChar) + 1
    ensures AmountChoice(s, us, k) == DirectAmount(s, us, k)
    decreases RunEnd(s, 0, IsAmountChar) + 1 - k
  {
    if k <= RunEnd(s, 0, IsAmountChar) {
      AmountChoiceIsDirect(s, us, k + 1);
      AmountTried(s, us, k);
    } else {
      AmountSkipped(s, us, k);
    }
  }

  lemma AmountTried(s: string, us: seq<string>, k: nat)
    requires LetterInitial(us)
    requires 1 <= k <= RunEnd(s, 0, IsAmountChar)
    requires AmountChoice(s, us, k + 1) == DirectAmount(s, us, k + 1)
    ensures AmountChoice(s, us, k) == DirectAmount(s, us, k)
  {
    FirstSpaceIsDirect(s, us, k);
  }

  lemma AmountSkipped(s: string, us: seq<string>, k: nat)
    requires LetterInitial(us)
    requires k == RunEnd(s, 0, IsAmountChar) + 1
    ensures AmountChoice(s, us, k) == DirectAmount(s, us, k)
  {
    FirstSpaceIsDirect(s, us, 0);
    SkippedWith(s, us, k, DirectFromAmount(s, us, 0));
  }

  /** Both searches skip the amount group with the same rest of the match. */
  lemma SkippedWith(s: string, us: seq<string>, k: nat, x: Option<UnitHit>)
    requires k == RunEnd(s, 0, IsAmountChar) + 1
    requires FirstSpace(s, us, 0, RunEnd(s, 0, IsJsSpace)) == x && DirectFromAmount(s, us, 0) == x
    ensures AmountChoice(s, us, k) == DirectAmount(s, us, k)
  {
    var r := match x case Some(h) => Some(Captures(None, h.unit, h.nameStart)) case None => None;
    assert AmountChoice(s, us, k) == r;
    assert DirectAmount(s, us, k) == r;
  }

  /** The direct matcher finds exactly the captures of the engine's search. */
  lemma MatchLineIsRegex(s: string)
    ensures MatchLine(s) == RegexMatch(s)
  {
    UnitsStartWithLetters();
    AmountChoiceIsDirect(s, Units, 1);
  }

  // ---------------------------------------------------------------------
  // What the match gives on a single line.
  // ---------------------------------------------------------------------

  lemma {:induction false} NoUnitAtEnd(s: string, us: seq<string>)
    requires LetterInitial(us)
    ensures FirstUnit(s, |s|, us) == None
    decreases |us|
  {
    if us != [] {
      NoUnitAtEnd(s, us[1..]);
    }
  }

  /** Nothing is left for group 3 once the amount has taken every character. */
  lemma FromAmountAtEnd(s: string, us: seq<string>)
    requires LetterInitial(us)
    ensures DirectFromAmount(s, us, |s|) == None
  {
    NoUnitAtEnd(s, us);
  }

  /** On a line without line terminators the rest of the pattern matches
      after any amount group that leaves a character. */
  lemma FromAmountSingleLine(s: string, us: seq<string>, a: nat)
    requires LastLineStart(s) == 0 && a < |s|
    ensures DirectFromAmount(s, us, a).Some?
  {
    var e := RunEnd(s, a, IsJsSpace);
    if e == |s| {
      RunEndInside(s, a, e - 1, IsJsSpace);
    }
  }

  /** On a line without line terminators the search fails only on the empty
      line, and group 1 is the first character when that is a digit, '.',
      '/' or white space and something follows it; otherwise it is skipped. */
  lemma SingleLineAmount(s: string, us: seq<string>)
    requires LetterInitial(us)
    requires LastLineStart(s) == 0
    ensures DirectAmount(s, us, 1).Some? <==> s != []
    ensures s != [] ==>
              var a := if |s| >= 2 && IsAmountChar(s[0]) then 1 else 0;
              DirectFromAmount(s, us, a).Some? &&
              DirectAmount(s, us, 1) == Some(Captures(if a == 1 then Some(s[..1]) else None,
                                                      DirectFromAmount(s, us, a).value.unit,
                                                      DirectFromAmount(s, us, a).value.nameStart))
  {
    if s == [] {
      FromAmountAtEnd(s, us);
    } else if IsAmountChar(s[0]) && |s| >= 2 {
      FromAmountSingleLine(s, us, 1);
    } else if IsAmountChar(s[0]) {
      FromAmountAtEnd(s, us);
      FromAmountSingleLine(s, us, 0);
    } else {
      FromAmountSingleLine(s, us, 0);
    }
  }

  /** The amount is at most the first character: the lazy group gives way to
      the catch-all name as soon as one character is taken. */
  lemma SingleLineMatch(s: string)
    requires forall i :: 0 <= i < |s| ==> !IsLineTerminator(s[i])
    ensures MatchLine(s).Some? <==> s != []
    ensures s != [] ==>
              MatchLine(s).value.amount == if |s| >= 2 && IsAmountChar(s[0]) then Some(s[..1]) else None
    ensures s != [] ==>
              var a := if |s| >= 2 && IsAmountChar(s[0]) then 1 else 0;
              DirectFromAmount(s, Units, a).Some? &&
              MatchLine(s).value.unit == DirectFromAmount(s, Units, a).value.unit &&
              MatchLine(s).value.nameStart == DirectFromAmount(s, Units, a).value.nameStart
  {
    UnitsStartWithLetters();
    SingleLineAmount(s, Units);
  }

  /** A unit the match reports is one of the alternatives, spelled as in the
      line (its case is kept). */
  lemma FirstUnitIsUnit(s: string, p: nat, us: seq<string>)
    requires p <= |s| && FirstUnit(s, p, us).Some?
    ensures exists i :: 0 <= i < |us| && UnitAt(s, p, us[i])
                        && FirstUnit(s, p, us).value.unit == Some(s[p..p + |us[i]|])
  {
    var i := FirstUnitIndex(s, p, us);
  }

  /** Which alternative `FirstUnit` reports. */
  lemma {:induction false} FirstUnitIndex(s: string, p: nat, us: seq<string>) returns (i: nat)
    requires p <= |s| && FirstUnit(s, p, us).Some?
    ensures i < |us| && UnitAt(s, p, us[i]) && FirstUnit(s, p, us).value.unit == Some(s[p..p + |us[i]|])
    decreases |us|
  {
    if UnitAt(s, p, us[0]) && DirectAfterUnit(s, p + |us[0]|).Some? {
      i := 0;
    } else {
      var j := FirstUnitIndex(s, p, us[1..]);
      assert us[1..][j] == us[j + 1];
      i := j + 1;
    }
  }

  /** The same for the whole match: group 2 is one of the alternatives, in
      the case the line writes it. */
  lemma MatchedUnit(s: string, us: seq<string>)
    requires DirectAmount(s, us, 1).Some? && DirectAmount(s, us, 1).value.unit.Some?
    ensures exists p: nat, i :: 0 <= i < |us| && p <= |s| && UnitAt(s, p, us[i])
                                && DirectAmount(s, us, 1).value.unit == Some(s[p..p + |us[i]|])
  {
    var e := SettledUnit(s, us);
    var i := FirstUnitIndex(s, e, us);
    UnitWritten(s, us, DirectAmount(s, us, 1).value.unit, e, i);
  }

  /** Where the unit the match reports is written. */
  lemma SettledUnit(s: string, us: seq<string>) returns (e: nat)
    requires DirectAmount(s, us, 1).Some? && DirectAmount(s, us, 1).value.unit.Some?
    ensures e <= |s| && FirstUnit(s, e, us).Some?
    ensures DirectAmount(s, us, 1).value.unit == FirstUnit(s, e, us).value.unit
  {
    var a := SettledAmount(s, us);
    e := RunEnd(s, a, IsJsSpace);
    FromAmountUnit(s, us, a);
  }

  lemma UnitWritten(s: string, us: seq<string>, u: Option<string>, p: nat, i: nat)
    requires i < |us| && p <= |s| && UnitAt(s, p, us[i]) && u == Some(s[p..p + |us[i]|])
    ensures exists p': nat, i' :: 0 <= i' < |us| && p' <= |s| && UnitAt(s, p', us[i']) && u == Some(s[p'..p' + |us[i']|])
  {
  }

  /** Where the amount group the match settles on ends. */
  lemma SettledAmount(s: string, us: seq<string>) returns (a: nat)
    requires DirectAmount(s, us, 1).Some?
    ensures a <= |s| && DirectFromAmount(s, us, a).Some?
    ensures DirectAmount(s, us, 1).value.unit == DirectFromAmount(s, us, a).value.unit
  {
    var k := FirstAmountThatFits(s, us, 1);
    a := if k <= RunEnd(s, 0, IsAmountChar) then k else 0;
  }

  /** A unit after the amount comes from the first unit where the white space ends. */
  lemma FromAmountUnit(s: string, us: seq<string>, a: nat)
    requires a <= |s| && DirectFromAmount(s, us, a).Some? && DirectFromAmount(s, us, a).value.unit.Some?
    ensures FirstUnit(s, RunEnd(s, a, IsJsSpace), us).Some?
    ensures DirectFromAmount(s, us, a).value.unit == FirstUnit(s, RunEnd(s, a, IsJsSpace), us).value.unit
  {
  }

  /** The amount length `DirectAmount` settles on, or one past the amount
      run when it skips the group. */
  function FirstAmountThatFits(s: string, us: seq<string>, k: nat): (j: nat)
    requires 1 <= k <= RunEnd(s, 0, IsAmountChar) + 1
    ensures k <= j <= RunEnd(s, 0, IsAmountChar) + 1
    ensures DirectAmount(s, us, k) ==
              var a := if j <= RunEnd(s, 0, IsAmountChar) then j else 0;
              match DirectFromAmount(s, us, a)
              case Some(h) => Some(Captures(if a == 0 then None else Some(s[..a]), h.unit, h.nameStart))
              case None => None
    decreases RunEnd(s, 0, IsAmountChar) + 1 - k
  {
    if k <= RunEnd(s, 0, IsAmountChar) && DirectFromAmount(s, us, k).None? then
      FirstAmountThatFits(s, us, k + 1)
    else k
  }

  // ---------------------------------------------------------------------
  // The line as `parseIngredientString` returns it.
  // ---------------------------------------------------------------------

  /** `amount.replace(/\s*\/\s*\/g, '/')`: a slash with the white space
      on both sides of it becomes a bare slash. The engine takes the
      leftmost match from each position, so white space not followed by a
      slash is kept. */
  function CollapseSlashes(s: string): string
    decreases |s|
  {
    if s == [] then []
    else
      var e := RunEnd(s, 0, IsJsSpace);
      if e < |s| && s[e] == '/' then "/" + CollapseSlashes(s[RunEnd(s, e + 1, IsJsSpace)..])
      else [s[0]] + CollapseSlashes(s[1..])
  }

  /** No white space stands next to a slash. */
  predicate SlashesTight(s: string) {
    forall i :: 0 <= i < |s| - 1 ==> !(IsJsSpace(s[i]) && s[i + 1] == '/') && !(s[i] == '/' && IsJsSpace(s[i + 1]))
  }

  /** What `amount.match(...)?.trim() || null` and the slash clean-up make of group 1. */
  function AmountText(group: Option<string>): Option<string> {
    match group
    case None => None
    case Some(t) =>
      var a := Trim(t);
      if a == [] then None else Some(Trim(CollapseSlashes(a)))
  }

  /** `normalizeFractions(str)` for a string. */
  function NormalizedLine(str: string): string {
    Fractions.NormalizeFractions(Some(str)).value
  }

  /** `parseIngredientString(str)` for a string argument. */
  function ParseIngredient(str: string): Ingredient {
    var normalized := NormalizedLine(str);
    match MatchLine(normalized)
    case None => Ingredient(None, None, str)
    case Some(c) =>
      var name := Trim(normalized[c.nameStart..]);
      Ingredient(AmountText(c.amount), c.unit, if name == [] then str else name)
  }

  /** `parseIngredientString(v)` for any JSON value: `normalizeFractions`
      hands `null`, `false` and `0` back and `.match` on them throws; on any
      other non-string `.replace` throws. */
  function ParseIngredientValue(v: Json): (r: Result<Ingredient>)
    ensures r.Ok? <==> v.JStr?
  {
    match v
    case JStr(s) => Ok(ParseIngredient(s))
    case _ => Failure
  }

  // ---------------------------------------------------------------------
  // Properties of the parsed line.
  // ---------------------------------------------------------------------

  /** A run measured in a suffix is the same run measured in the whole string. */
  lemma RunEndShift(s: string, k: nat, P: char -> bool)
    requires k <= |s|
    ensures RunEnd(s[k..], 0, P) + k == RunEnd(s, k, P)
  {
    var t := s[k..];
    var e := RunEnd(t, 0, P);
    assert forall i :: k <= i < e + k ==> s[i] == t[i - k];
    RunEndUnique(s, k, P, e + k);
  }

  /** The first character of the clean-up: a slash where white space up to a
      slash starts the string, the string's own first character otherwise. */
  lemma CollapseSlashesStart(s: string)
    requires s != []
    ensures CollapseSlashes(s) != []
    ensures CollapseSlashes(s)[0] == '/' <==>
              RunEnd(s, 0, IsJsSpace) < |s| && s[RunEnd(s, 0, IsJsSpace)] == '/'
    ensures CollapseSlashes(s)[0] != '/' ==> CollapseSlashes(s)[0] == s[0]
  {
  }

  /** After the clean-up no white space stands next to a slash. */
  lemma {:induction false} CollapseSlashesTight(s: string)
    ensures SlashesTight(CollapseSlashes(s))
    decreases |s|
  {
    if s != [] {
      var e := RunEnd(s, 0, IsJsSpace);
      var r := CollapseSlashes(s);
      if e < |s| && s[e] == '/' {
        var f := RunEnd(s, e + 1, IsJsSpace);
        var t := s[f..];
        CollapseSlashesTight(t);
        var rest := CollapseSlashes(t);
        assert r == "/" + rest;
        if t != [] {
          CollapseSlashesStart(t);
          assert !IsJsSpace(rest[0]);
        }
        forall i | 0 <= i < |r| - 1
          ensures !(IsJsSpace(r[i]) && r[i + 1] == '/') && !(r[i] == '/' && IsJsSpace(r[i + 1]))
        {
          if i > 0 {
            assert r[i] == rest[i - 1] && r[i + 1] == rest[i];
          }
        }
      } else {
        var t := s[1..];
        CollapseSlashesTight(t);
        var rest := CollapseSlashes(t);
        assert r == [s[0]] + rest;
        assert s[0] != '/';
        if t != [] && IsJsSpace(s[0]) && rest[0] == '/' {
          CollapseSlashesStart(t);
          RunEndShift(s, 1, IsJsSpace);
          assert false;
        }
        forall i | 0 <= i < |r| - 1
          ensures !(IsJsSpace(r[i]) && r[i + 1] == '/') && !(r[i] == '/' && IsJsSpace(r[i + 1]))
        {
          if i > 0 {
            assert r[i] == rest[i - 1] && r[i + 1] == rest[i];
          }
        }
      }
    }
  }

  /** Without a slash there is nothing to clean up. */
  lemma {:induction false} CollapseSlashesNoSlash(s: string)
    requires forall i :: 0 <= i < |s| ==> s[i] != '/'
    ensures CollapseSlashes(s) == s
    decreases |s|
  {
    if s != [] {
      CollapseSlashesNoSlash(s[1..]);
    }
  }

  /** A slice of a string without white space next to a slash has none either. */
  lemma TightSlice(s: string, i: nat, j: nat)
    requires SlashesTight(s) && i <= j <= |s|
    ensures SlashesTight(s[i..j])
  {
    var t := s[i..j];
    forall k | 0 <= k < |t| - 1
      ensures !(IsJsSpace(t[k]) && t[k + 1] == '/') && !(t[k] == '/' && IsJsSpace(t[k + 1]))
    {
      assert t[k] == s[i + k] && t[k + 1] == s[i + k + 1];
    }
  }

  /** `trim` keeps a string free of white space next to slashes, and
      trimming twice is trimming once. */
  lemma TrimKeepsTight(s: string)
    requires SlashesTight(s)
    ensures SlashesTight(Trim(s))
    ensures Trim(Trim(s)) == Trim(s)
  {
    var t := TrimStart(s);
    TightSlice(s, |s| - |t|, |s|);
    TightSlice(t, 0, |TrimEnd(t)|);
    TrimTwice(s);
  }

  lemma TrimTwice(s: string)
    ensures Trim(Trim(s)) == Trim(s)
  {
    var t := TrimStart(s);
    var r := TrimEnd(t);
    if r != [] {
      assert r[0] == t[0];
    }
    TrimUnchanged(r);
  }

  /** The amount `parseIngredientString` reports: absent exactly when group
      1 is undefined or only white space; otherwise non-empty, trimmed, and
      with no white space left next to a slash. */
  lemma AmountTextShape(group: Option<string>)
    ensures AmountText(group).None? <==>
              group.None? || forall i :: 0 <= i < |group.value| ==> IsJsSpace(group.value[i])
    ensures AmountText(group).Some? ==>
              var x := AmountText(group).value;
              x != [] && Trim(x) == x && SlashesTight(x)
  {
    if group.Some? {
      var a := Trim(group.value);
      TrimEmpty(group.value);
      if a != [] {
        var c := CollapseSlashes(a);
        TrimEmpty(a);
        var k :| 0 <= k < |a| && !IsJsSpace(a[k]);
        CollapseSlashesStart(a);
        assert !IsJsSpace(a[0]) by {
          TrimTwice(group.value);
          TrimEmpty(a);
          assert TrimStart(a) == TrimStart(TrimEnd(TrimStart(group.value)));
        }
        assert !IsJsSpace(c[0]);
        TrimEmpty(c);
        CollapseSlashesTight(a);
        TrimKeepsTight(c);
      }
    }
  }

  /** A single character amount: white space is dropped, anything else
      other than a slash stays as it is. */
  lemma OneCharAmount(c: char)
    ensures AmountText(Some([c])) == if IsJsSpace(c) then None else Some([c])
  {
    AmountTextShape(Some([c]));
    if !IsJsSpace(c) {
      TrimUnchanged([c]);
      if c != '/' {
        CollapseSlashesNoSlash([c]);
      } else {
        assert RunEnd([c], 0, IsJsSpace) == 0;
        assert RunEnd([c], 1, IsJsSpace) == 1;
        assert [c][1..] == [];
        assert CollapseSlashes([c]) == "/" + CollapseSlashes([]);
      }
      TrimUnchanged(CollapseSlashes([c]));
    }
  }

  /** The amount is at most the first character. When the normalised line has
      no line terminator, the amount is its first character if that is a
      digit, '.' or '/' and something follows, and absent otherwise. */
  lemma AmountIsFirstCharacter(str: string)
    requires forall i :: 0 <= i < |NormalizedLine(str)| ==> !IsLineTerminator(NormalizedLine(str)[i])
    ensures var n := NormalizedLine(str);
            ParseIngredient(str).amount ==
              if |n| >= 2 && (IsDigit(n[0]) || n[0] == '.' || n[0] == '/') then Some(n[..1]) else None
  {
    ParsedParts(str);
    AmountOfLine(NormalizedLine(str));
  }

  lemma AmountOfLine(n: string)
    requires forall i :: 0 <= i < |n| ==> !IsLineTerminator(n[i])
    ensures (match MatchLine(n) case None => None case Some(c) => AmountText(c.amount)) ==
              if |n| >= 2 && (IsDigit(n[0]) || n[0] == '.' || n[0] == '/') then Some(n[..1]) else None
  {
    SingleLineMatch(n);
    if n != [] {
      FirstCharAmount(n, MatchLine(n).value.amount);
    }
  }

  /** What the clean-up makes of a group 1 that is the first character. */
  lemma FirstCharAmount(n: string, amount: Option<string>)
    requires n != [] && amount == if |n| >= 2 && IsAmountChar(n[0]) then Some(n[..1]) else None
    ensures AmountText(amount) == if |n| >= 2 && (IsDigit(n[0]) || n[0] == '.' || n[0] == '/') then Some(n[..1]) else None
  {
    if |n| >= 2 && IsAmountChar(n[0]) {
      var c := n[0];
      assert n[..1] == [c];
      OneCharAmount(c);
    }
  }

  /** A non-empty name: the trimmed rest of the line, or, when the match
      fails or the rest is only white space, the line as given (before
      fraction normalisation). */
  lemma NameShape(str: string)
    ensures var r := ParseIngredient(str);
            r.name == str || (r.name != [] && Trim(r.name) == r.name)
    ensures MatchLine(NormalizedLine(str)).None? ==> ParseIngredient(str) == Ingredient(None, None, str)
  {
    var n := NormalizedLine(str);
    ParsedParts(str);
    if MatchLine(n).Some? {
      TrimTwice(n[MatchLine(n).value.nameStart..]);
    }
  }

  /** A unit is one of the pattern's alternatives, in the case the line
      writes it; the amount obeys `AmountTextShape`. */
  lemma UnitShape(str: string)
    ensures var r := ParseIngredient(str);
            var n := NormalizedLine(str);
            r.unit.Some? ==> exists p: nat, i :: 0 <= i < |Units| && p <= |n| && UnitAt(n, p, Units[i])
                                                 && r.unit.value == n[p..p + |Units[i]|]
  {
    var n := NormalizedLine(str);
    ParsedParts(str);
    if MatchLine(n).Some? && MatchLine(n).value.unit.Some? {
      MatchLineUnit(n);
    }
  }

  lemma MatchLineUnit(n: string)
    requires MatchLine(n).Some? && MatchLine(n).value.unit.Some?
    ensures exists p: nat, i :: 0 <= i < |Units| && p <= |n| && UnitAt(n, p, Units[i])
                                && MatchLine(n).value.unit.value == n[p..p + |Units[i]|]
  {
    MatchedUnit(n, Units);
  }

  /** `parseIngredientString` in terms of the regular expression's own
      backtracking search: no match gives `{null, null, str}`; otherwise the
      amount is the cleaned-up group 1, the unit is group 2 as written, and
      the name is the trimmed group 3, or `str` when that is empty. */
  lemma ParseIngredientIsRegex(str: string)
    ensures var n := NormalizedLine(str);
            RegexMatch(n).Some? ==> RegexMatch(n).value.nameStart <= |n|
    ensures var n := NormalizedLine(str);
            var r := ParseIngredient(str);
            match RegexMatch(n)
            case None => r == Ingredient(None, None, str)
            case Some(c) => r.amount == AmountText(c.amount) && r.unit == c.unit
                            && r.name == if Trim(n[c.nameStart..]) == [] then str else Trim(n[c.nameStart..])
  {
    var n := NormalizedLine(str);
    MatchLineIsRegex(n);
    PartsFrom(str, n, RegexMatch(n));
  }

  /** The fields, for any name `m` of the direct matcher's result. */
  lemma PartsFrom(str: string, n: string, m: Option<Captures>)
    requires n == NormalizedLine(str) && m == MatchLine(n)
    ensures var r := ParseIngredient(str);
            match m
            case None => r == Ingredient(None, None, str)
            case Some(c) => r.amount == AmountText(c.amount) && r.unit == c.unit
                            && r.name == if Trim(n[c.nameStart..]) == [] then str else Trim(n[c.nameStart..])
  {
    ParsedParts(str);
  }

  /** How the three fields come from the direct matcher. */
  lemma ParsedParts(str: string)
    ensures var n := NormalizedLine(str);
            var r := ParseIngredient(str);
            match MatchLine(n)
            case None => r == Ingredient(None, None, str)
            case Some(c) => r.amount == AmountText(c.amount) && r.unit == c.unit
                            && r.name == if Trim(n[c.nameStart..]) == [] then str else Trim(n[c.nameStart..])
  {
  }
}
