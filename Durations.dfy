/// `parseDuration`: the time part of a designator duration (section 4.4.3.2
/// of ISO 8601:2004), as the pattern `PT(?:(\d+)H)?(?:(\d+)M)?` finds it
/// anywhere in a string, converted to whole minutes.
module Durations {
  import opened JsValues
  import opened JsText
  import opened JsNumbers

  /** The first index at or after `k` where "PT" is written, if any. */
  function FindFrom(s: string, k: nat): (r: Option<nat>)
    ensures r.Some? ==> k <= r.value && OccursAt(s, "PT", r.value)
    ensures r.Some? ==> forall j :: k <= j < r.value ==> !OccursAt(s, "PT", j)
    ensures r.None? ==> forall j :: k <= j ==> !OccursAt(s, "PT", j)
    decreases |s| - k
  {
    if k + 2 > |s| then None
    else if s[k] == 'P' && s[k + 1] == 'T' then
      assert s[k..k + 2] == "PT";
      Some(k)
    else
      FindFrom(s, k + 1)
  }

  /** Where the pattern matches: the leftmost "PT", since both groups after
      it are optional and can always match nothing. */
  function FindPT(s: string): (r: Option<nat>)
    ensures r.Some? ==> OccursAt(s, "PT", r.value) && forall j :: 0 <= j < r.value ==> !OccursAt(s, "PT", j)
    ensures r.None? <==> !Includes(s, "PT")
  {
    FindFrom(s, 0)
  }

  /** Where the run of ASCII digits that starts at `p` ends. */
  function DigitsEnd(s: string, p: nat): (e: nat)
    requires p <= |s|
    ensures p <= e <= |s|
    ensures forall i :: p <= i < e ==> IsDigit(s[i])
    ensures e < |s| ==> !IsDigit(s[e])
    decreases |s| - p
  {
    if p < |s| && IsDigit(s[p]) then DigitsEnd(s, p + 1) else p
  }

  /** `(\d+)X` matches at `p` taking `n` digits: the regular-expression
      relation, before any choice among its solutions. */
  predicate DesignatorAt(s: string, p: nat, n: nat, designator: char) {
    n >= 1 && p + n < |s| && s[p + n] == designator && forall i :: p <= i < p + n ==> IsDigit(s[i])
  }

  /** The optional group `(?:(\d+)X)?` at `p`: greedy `\d+` takes the whole
      run of digits and gives back only if the designator is not next, but
      giving back leaves a digit where the designator must be. */
  function GroupAt(s: string, p: nat, designator: char): (r: Option<string>)
    requires p <= |s|
    ensures r.Some? ==> DesignatorAt(s, p, |r.value|, designator) && r.value == s[p..p + |r.value|]
  {
    var e := DigitsEnd(s, p);
    if p < e < |s| && s[e] == designator then Some(s[p..e]) else None
  }

  /** `parseInt(group) || 0` as the source writes it: an absent group reads
      as `parseInt(undefined)`, which is NaN. */
  function ParseIntOrZero(g: Option<string>): int {
    match g
    case None => 0
    case Some(ds) =>
      match ParseInt(ds)
      case Some(v) => if v == 0 then 0 else v
      case None => 0
  }

  /** The number a captured group stands for: its decimal value, or 0 when
      the group did not take part (`GroupNumberIsParseInt` shows this is
      `parseInt(group) || 0`). */
  function GroupNumber(g: Option<string>): nat {
    match g
    case None => 0
    case Some(ds) => DigitsValue(ds, 10)
  }

  /** `parseDuration(s)` for a string: `null` (None) when "PT" does not occur;
      otherwise hours * 60 + minutes with a missing part counting as 0. */
  function ParseDuration(s: string): (r: Option<int>)
    ensures r.Some? ==> r.value >= 0
  {
    match FindPT(s)
    case None => None
    case Some(i) =>
      var hours := GroupAt(s, i + 2, 'H');
      var after := if hours.Some? then i + 2 + |hours.value| + 1 else i + 2;
      var minutes := GroupAt(s, after, 'M');
      Some(GroupNumber(hours) * 60 + GroupNumber(minutes))
  }

  /** `parseDuration(v)` for a JSON value: only strings have `.match`. */
  function ParseDurationValue(v: Json): (r: Result<Option<int>>)
    ensures r.Ok? <==> v.JStr?
    ensures r.Ok? && r.value.Some? ==> r.value.value >= 0
  {
    match v
    case JStr(s) => Ok(ParseDuration(s))
    case _ => Failure
  }

  // ---------------------------------------------------------------------
  // Properties.
  // ---------------------------------------------------------------------

  /** A run of digits ends where a non-digit (or the end) follows it. */
  lemma {:induction false} DigitsEndAt(s: string, p: nat, e: nat)
    requires p <= e <= |s|
    requires forall i :: p <= i < e ==> IsDigit(s[i])
    requires e < |s| ==> !IsDigit(s[e])
    ensures DigitsEnd(s, p) == e
    decreases e - p
  {
    if p < e {
      DigitsEndAt(s, p + 1, e);
    }
  }

  /** The group match is the only solution of `(\d+)X` at `p`. */
  lemma GroupIsTheMatch(s: string, p: nat, n: nat, designator: char)
    requires p <= |s| && !IsDigit(designator)
    ensures DesignatorAt(s, p, n, designator) <==> p + n <= |s| && GroupAt(s, p, designator) == Some(s[p..p + n])
  {
    var e := DigitsEnd(s, p);
  }

  /** A string of digits reads as its decimal value. */
  lemma DigitsParse(ds: string)
    requires ds != [] && forall i :: 0 <= i < |ds| ==> IsDigit(ds[i])
    ensures ParseInt(ds) == Some(DigitsValue(ds, 10) as int)
  {
    DigitsUnsigned(ds);
    ParseIntOfUnsigned(ds, DigitsValue(ds, 10));
  }

  lemma DigitsUnsigned(ds: string)
    requires ds != [] && forall i :: 0 <= i < |ds| ==> IsDigit(ds[i])
    ensures ParseUnsigned(ds) == Some(DigitsValue(ds, 10) as int)
  {
    assert !(|ds| >= 2 && ds[0] == '0' && (ds[1] == 'x' || ds[1] == 'X'));
    assert forall i :: 0 <= i < |ds| ==> DigitValue(ds[i], 10) < 10;
    assert DigitRun(ds, 10) == |ds|;
    assert ds[..|ds|] == ds;
  }

  /** The value a group contributes is `parseInt(group) || 0`. */
  lemma GroupNumberIsParseInt(s: string, p: nat, designator: char)
    requires p <= |s|
    ensures GroupNumber(GroupAt(s, p, designator)) == ParseIntOrZero(GroupAt(s, p, designator))
  {
    match GroupAt(s, p, designator)
    case None =>
    case Some(ds) =>
      assert forall i :: 0 <= i < |ds| ==> ds[i] == s[p + i];
      DigitsParse(ds);
  }

  /** A duration is found exactly when "PT" occurs. */
  lemma DurationFound(s: string)
    ensures ParseDuration(s).Some? <==> Includes(s, "PT")
  {
  }

  /** A string without the letter P has no duration, e.g. "garbage" or
      "pt5m" (the pattern is case-sensitive). */
  lemma NoDesignatorNoDuration(s: string)
    requires forall i :: 0 <= i < |s| ==> s[i] != 'P'
    ensures ParseDuration(s) == None
  {
    forall i | 0 <= i <= |s| - 2
      ensures !OccursAt(s, "PT", i)
    {
      assert s[i..i + 2][0] == s[i];
    }
  }

  /** The pattern reads a numeral followed by its designator. */
  lemma NumeralGroup(s: string, p: nat, n: nat, designator: char)
    requires !IsDigit(designator)
    requires p + |NatToDecimal(n)| < |s|
    requires s[p..p + |NatToDecimal(n)|] == NatToDecimal(n) && s[p + |NatToDecimal(n)|] == designator
    ensures DigitsEnd(s, p) == p + |NatToDecimal(n)|
    ensures GroupAt(s, p, designator) == Some(NatToDecimal(n))
    ensures GroupNumber(GroupAt(s, p, designator)) == n
  {
    var d := NatToDecimal(n);
    assert forall i :: p <= i < p + |d| ==> s[i] == d[i - p];
    DigitsEndAt(s, p, p + |d|);
    DecimalDigitsValue(n);
  }

  /** Where "PT" opens the string, the pattern matches there. */
  lemma FoundAtStart(s: string)
    requires |s| >= 2 && s[0] == 'P' && s[1] == 'T'
    ensures FindPT(s) == Some(0)
  {
  }

  /** Hours and minutes written out read back as their total in minutes. */
  lemma HoursMinutesRoundTrip(h: nat, m: nat)
    ensures ParseDuration("PT" + NatToDecimal(h) + "H" + NatToDecimal(m) + "M") == Some(h * 60 + m)
  {
    var dh, dm := NatToDecimal(h), NatToDecimal(m);
    Layout(dh, dm);
    ReadsLaidOut("PT" + dh + "H" + dm + "M", h, m);
  }

  /** A string laid out as "PT<h>H<m>M" reads as `h * 60 + m`. */
  lemma ReadsLaidOut(s: string, h: nat, m: nat)
    requires var dh, dm := NatToDecimal(h), NatToDecimal(m);
             |s| == 4 + |dh| + |dm| && s[0] == 'P' && s[1] == 'T'
             && s[2..2 + |dh|] == dh && s[2 + |dh|] == 'H'
             && s[3 + |dh|..3 + |dh| + |dm|] == dm && s[3 + |dh| + |dm|] == 'M'
    ensures ParseDuration(s) == Some(h * 60 + m)
  {
    var dh := NatToDecimal(h);
    FoundAtStart(s);
    NumeralGroup(s, 2, h, 'H');
    NumeralGroup(s, 3 + |dh|, m, 'M');
    ReadsBoth(s, 2 + |dh|, h, m);
  }

  /** Where the parts of "PT<h>H<m>M" stand. */
  lemma Layout(dh: string, dm: string)
    ensures var s := "PT" + dh + "H" + dm + "M";
            |s| == 4 + |dh| + |dm| && s[0] == 'P' && s[1] == 'T'
            && s[2..2 + |dh|] == dh && s[2 + |dh|] == 'H'
            && s[3 + |dh|..3 + |dh| + |dm|] == dm && s[3 + |dh| + |dm|] == 'M'
  {
  }

  /** With "PT" at the start, an hours group ending at `q` and a minutes
      group after it, the duration is their total. */
  lemma ReadsBoth(s: string, q: nat, h: nat, m: nat)
    requires FindPT(s) == Some(0)
    requires 2 <= q < |s|
    requires GroupAt(s, 2, 'H').Some? && 2 + |GroupAt(s, 2, 'H').value| == q
    requires GroupNumber(GroupAt(s, 2, 'H')) == h
    requires GroupNumber(GroupAt(s, q + 1, 'M')) == m
    ensures ParseDuration(s) == Some(h * 60 + m)
  {
  }

  /** Minutes alone read back as themselves. */
  lemma MinutesRoundTrip(m: nat)
    ensures ParseDuration("PT" + NatToDecimal(m) + "M") == Some(m)
  {
    var dm := NatToDecimal(m);
    var s := "PT" + dm + "M";
    assert |s| == 3 + |dm| && s[0] == 'P' && s[1] == 'T' && s[2..2 + |dm|] == dm && s[2 + |dm|] == 'M';
    FoundAtStart(s);
    NumeralGroup(s, 2, m, 'M');
    assert GroupAt(s, 2, 'H') == None;
    ReadsMinutes(s, m);
  }

  /** With "PT" at the start and no hours group, the duration is the minutes group. */
  lemma ReadsMinutes(s: string, m: nat)
    requires FindPT(s) == Some(0) && |s| >= 2
    requires GroupAt(s, 2, 'H') == None
    requires GroupNumber(GroupAt(s, 2, 'M')) == m
    ensures ParseDuration(s) == Some(m)
  {
  }

  /** Where neither group can be taken right after "PT" (no digits, or
      digits followed by another designator, as in "PT30S"), the duration
      is zero. */
  lemma NothingRead(s: string)
    requires |s| >= 2 && s[0] == 'P' && s[1] == 'T'
    requires var e := DigitsEnd(s, 2); e == |s| || (s[e] != 'H' && s[e] != 'M')
    ensures ParseDuration(s) == Some(0)
  {
    FoundAtStart(s);
  }

  lemma SmallNumerals()
    ensures NatToDecimal(1) == "1" && NatToDecimal(30) == "30" && NatToDecimal(45) == "45"
  {
  }

  /** "PT1H30M" is 90 minutes. */
  lemma OneHourThirty(s: string)
    requires s == "PT1H30M"
    ensures ParseDuration(s) == Some(90)
  {
    OneHourThirtyText(s);
    HoursMinutesRoundTrip(1, 30);
  }

  lemma OneHourThirtyText(s: string)
    requires s == "PT1H30M"
    ensures s == "PT" + NatToDecimal(1) + "H" + NatToDecimal(30) + "M"
  {
    SmallNumerals();
  }

  /** "PT45M" is 45 minutes. */
  lemma FortyFive(s: string)
    requires s == "PT45M"
    ensures ParseDuration(s) == Some(45)
  {
    FortyFiveText(s);
    MinutesRoundTrip(45);
  }

  lemma FortyFiveText(s: string)
    requires s == "PT45M"
    ensures s == "PT" + NatToDecimal(45) + "M"
  {
    SmallNumerals();
  }

  lemma BareAndSeconds()
    ensures ParseDuration("PT") == Some(0)
    ensures ParseDuration("PT30S") == Some(0)
  {
    NothingRead("PT");
    var s := "PT30S";
    DigitsEndAt(s, 2, 4);
    NothingRead(s);
  }

  lemma NotDurations()
    ensures ParseDuration("garbage") == None
    ensures ParseDuration("pt5m") == None
  {
    NoDesignatorNoDuration("garbage");
    NoDesignatorNoDuration("pt5m");
  }
}
