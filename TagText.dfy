/// `toTitleCase` and `getTimeTag`. The parser, the recipe routes and the
/// seed script each carry an identical copy of both; they are modelled once.
module TagText {
  import opened JsValues
  import opened JsText

  /** `word.charAt(0).toUpperCase() + word.slice(1)`: an empty piece stays empty. */
  function Capitalize(w: string): (r: string)
    ensures |r| == |w|
    ensures w != [] ==> r[0] == UpperChar(w[0]) && r[1..] == w[1..]
  {
    if w == [] then [] else [UpperChar(w[0])] + w[1..]
  }

  function CapitalizeAll(ws: seq<string>): (r: seq<string>)
    ensures |r| == |ws|
  {
    if ws == [] then [] else [Capitalize(ws[0])] + CapitalizeAll(ws[1..])
  }

  /** `toTitleCase(str)`: lower-case everything, split on single spaces,
      capitalize each piece, join with single spaces. */
  function TitleCase(s: string): string {
    JoinWithSpace(CapitalizeAll(SplitOnSpace(ToLower(s))))
  }

  /** Character `i` starts a piece: it is first, or a space precedes it. */
  predicate StartsPiece(s: string, i: int)
    requires 0 <= i < |s|
  {
    i == 0 || s[i - 1] == ' '
  }

  /** The character-by-character reading of a title-cased string: every
      character that starts a piece is upper-cased, the others lower-cased. */
  function TitleChar(s: string, i: int): char
    requires 0 <= i < |s|
  {
    if StartsPiece(s, i) then UpperChar(LowerChar(s[i])) else LowerChar(s[i])
  }

  /** `t` with its first character upper-cased when `first` holds and
      every character after a space upper-cased. */
  function CasedFrom(t: string, first: bool): (r: string)
    ensures |r| == |t|
  {
    seq(|t|, i requires 0 <= i < |t| =>
      if (i == 0 && first) || (i > 0 && t[i - 1] == ' ') then UpperChar(t[i]) else t[i])
  }

  // ---------------------------------------------------------------------
  // Split, capitalize and join is character-wise.
  // ---------------------------------------------------------------------

  lemma JoinFrontChar(c: char, w: string, ws: seq<string>)
    ensures JoinWithSpace([[c] + w] + ws) == [c] + JoinWithSpace([w] + ws)
  {
    if ws != [] {
      assert ([[c] + w] + ws)[1..] == ws;
      assert ([w] + ws)[1..] == ws;
    }
  }

  /** `CasedFrom` one character at a time. */
  lemma CasedShift(t: string, first: bool)
    requires t != []
    ensures CasedFrom(t, first) == [if first then UpperChar(t[0]) else t[0]] + CasedFrom(t[1..], t[0] == ' ')
  {
    var r := [if first then UpperChar(t[0]) else t[0]] + CasedFrom(t[1..], t[0] == ' ');
    forall i | 0 <= i < |t|
      ensures CasedFrom(t, first)[i] == r[i]
    {
      if i > 0 {
        assert r[i] == CasedFrom(t[1..], t[0] == ' ')[i - 1];
        assert t[1..][i - 1] == t[i];
        assert i - 1 > 0 ==> t[1..][i - 2] == t[i - 1];
      }
    }
  }

  lemma JoinFrontEmpty(ws: seq<string>)
    requires ws != []
    ensures JoinWithSpace([[]] + ws) == " " + JoinWithSpace(ws)
  {
    assert ([[]] + ws)[1..] == ws;
  }

  /** The pieces of `t`, with the first capitalized only when `first`
      holds, join back into `CasedFrom(t, first)`. */
  lemma {:induction false} SplitCapJoin(t: string, first: bool)
    ensures var ws := SplitOnSpace(t);
            JoinWithSpace([if first then Capitalize(ws[0]) else ws[0]] + CapitalizeAll(ws[1..])) == CasedFrom(t, first)
    decreases |t|
  {
    if t != [] {
      SplitCapJoin(t[1..], t[0] == ' ');
      if t[0] == ' ' {
        SpaceStep(t, first);
      } else {
        LetterStep(t, first);
      }
    }
  }

  /** A leading space makes an empty first piece and capitalizes the next one. */
  lemma SpaceStep(t: string, first: bool)
    requires t != [] && t[0] == ' '
    requires var rs := SplitOnSpace(t[1..]);
             JoinWithSpace([Capitalize(rs[0])] + CapitalizeAll(rs[1..])) == CasedFrom(t[1..], true)
    ensures var ws := SplitOnSpace(t);
            JoinWithSpace([if first then Capitalize(ws[0]) else ws[0]] + CapitalizeAll(ws[1..])) == CasedFrom(t, first)
  {
    var rs := SplitOnSpace(t[1..]);
    var ws := SplitOnSpace(t);
    assert ws == [[]] + rs;
    var tail := CapitalizeAll(rs);
    assert tail == [Capitalize(rs[0])] + CapitalizeAll(rs[1..]);
    JoinFrontEmpty(tail);
    CasedShift(t, first);
  }

  /** Any other leading character joins the first piece of the rest. */
  lemma LetterStep(t: string, first: bool)
    requires t != [] && t[0] != ' '
    requires var rs := SplitOnSpace(t[1..]);
             JoinWithSpace([rs[0]] + CapitalizeAll(rs[1..])) == CasedFrom(t[1..], false)
    ensures var ws := SplitOnSpace(t);
            JoinWithSpace([if first then Capitalize(ws[0]) else ws[0]] + CapitalizeAll(ws[1..])) == CasedFrom(t, first)
  {
    var rs := SplitOnSpace(t[1..]);
    var ws := SplitOnSpace(t);
    assert ws == [[t[0]] + rs[0]] + rs[1..];
    var x := if first then UpperChar(t[0]) else t[0];
    assert (if first then Capitalize(ws[0]) else ws[0]) == [x] + rs[0];
    JoinFrontChar(x, rs[0], CapitalizeAll(rs[1..]));
    CasedShift(t, first);
  }

  /** `toTitleCase` read character by character: the length is kept, and
      character `i` is upper-cased where it starts a piece and lower-cased
      elsewhere. */
  lemma TitleCaseChars(s: string)
    ensures |TitleCase(s)| == |s|
    ensures forall i :: 0 <= i < |s| ==> TitleCase(s)[i] == TitleChar(s, i)
  {
    var t := ToLower(s);
    var ws := SplitOnSpace(t);
    SplitCapJoin(t, true);
    assert CapitalizeAll(ws) == [Capitalize(ws[0])] + CapitalizeAll(ws[1..]);
    assert forall j :: 0 <= j < |s| ==> (t[j] == ' ' <==> s[j] == ' ');
  }

  /** Title casing a title-cased string changes nothing (for the ASCII case
      mapping modelled here). */
  lemma TitleCaseIdempotent(s: string)
    ensures TitleCase(TitleCase(s)) == TitleCase(s)
  {
    var t := TitleCase(s);
    TitleCaseChars(s);
    TitleCaseChars(t);
    forall i | 0 <= i < |t|
      ensures TitleCase(t)[i] == t[i]
    {
      CaseMappingSettles(s[i]);
      if i > 0 { CaseMappingSettles(s[i - 1]); }
    }
  }

  /** The case mappings settle after one application and leave the space alone. */
  lemma CaseMappingSettles(c: char)
    ensures UpperChar(LowerChar(UpperChar(LowerChar(c)))) == UpperChar(LowerChar(c))
    ensures LowerChar(LowerChar(c)) == LowerChar(c)
    ensures UpperChar(LowerChar(c)) == ' ' <==> c == ' '
    ensures LowerChar(c) == ' ' <==> c == ' '
  {
  }

  /** A string is its own title case exactly when no piece starts with a
      lower-case letter and no other character is an upper-case letter. */
  lemma TitleCaseFixedPoint(t: string)
    ensures TitleCase(t) == t <==>
              forall i :: 0 <= i < |t| ==>
                if StartsPiece(t, i) then !('a' <= t[i] <= 'z') else !('A' <= t[i] <= 'Z')
  {
    TitleCaseChars(t);
    FixedPointIff(t, TitleCase(t));
  }

  /** The same for any string read character by character as `t`'s title case. */
  lemma FixedPointIff(t: string, r: string)
    requires |r| == |t| && forall i :: 0 <= i < |t| ==> r[i] == TitleChar(t, i)
    ensures r == t <==>
              forall i :: 0 <= i < |t| ==>
                if StartsPiece(t, i) then !('a' <= t[i] <= 'z') else !('A' <= t[i] <= 'Z')
  {
    if r == t {
      forall i | 0 <= i < |t|
        ensures if StartsPiece(t, i) then !('a' <= t[i] <= 'z') else !('A' <= t[i] <= 'Z')
      {
        assert r[i] == TitleChar(t, i);
      }
    }
  }

  // ---------------------------------------------------------------------
  // getTimeTag.
  // ---------------------------------------------------------------------

  /** `getTimeTag(totalMinutes)`: no tag for an absent, zero or negative
      total; otherwise the first bucket whose upper bound (inclusive) is not
      below the total. */
  function TimeTag(total: Option<int>): Option<string> {
    match total
    case None => None
    case Some(t) =>
      if t <= 0 then None
      else if t <= 15 then Some("15 Minutes")
      else if t <= 30 then Some("30 Minutes")
      else if t <= 45 then Some("45 Minutes")
      else if t <= 60 then Some("1 Hour")
      else Some("1 Hour+")
  }

  /** The bucket labels, shortest first. */
  const Buckets: seq<string> := ["15 Minutes", "30 Minutes", "45 Minutes", "1 Hour", "1 Hour+"]

  /** The inclusive upper bound of bucket `k` (none for the last). */
  function BucketBound(k: nat): int
    requires k < 4
  {
    15 * (k + 1)
  }

  /** The reference reading of the buckets: the tag is bucket `k` exactly
      when the total lies above bound `k - 1` and at most bound `k`. */
  lemma TimeTagBuckets(t: int, k: nat)
    requires k < |Buckets|
    ensures TimeTag(Some(t)) == Some(Buckets[k]) <==>
              (if k == 0 then 1 <= t else BucketBound(k - 1) < t) && (k == 4 || t <= BucketBound(k))
  {
  }

  /** No tag exactly for absent or non-positive totals, and every tag is a bucket label. */
  lemma TimeTagShape(total: Option<int>)
    ensures TimeTag(total).None? <==> total.None? || total.value <= 0
    ensures TimeTag(total).Some? ==> TimeTag(total).value in Buckets
  {
  }

  /** The index of a bucket label. */
  function BucketIndex(tag: string): nat {
    if tag == "15 Minutes" then 0
    else if tag == "30 Minutes" then 1
    else if tag == "45 Minutes" then 2
    else if tag == "1 Hour" then 3
    else 4
  }

  /** A longer total never gets a shorter bucket. */
  lemma TimeTagMonotone(t1: int, t2: int)
    requires 0 < t1 <= t2
    ensures TimeTag(Some(t1)).Some? && TimeTag(Some(t2)).Some?
    ensures BucketIndex(TimeTag(Some(t1)).value) <= BucketIndex(TimeTag(Some(t2)).value)
  {
  }

  /** The fixed-point condition checked from character `i` on. */
  predicate TitledFrom(t: string, i: nat)
    requires i <= |t|
    decreases |t| - i
  {
    i == |t| ||
    ((if StartsPiece(t, i) then !('a' <= t[i] <= 'z') else !('A' <= t[i] <= 'Z')) && TitledFrom(t, i + 1))
  }

  lemma {:induction false} TitledAt(t: string, i: nat, j: nat)
    requires i <= j < |t| && TitledFrom(t, i)
    ensures if StartsPiece(t, j) then !('a' <= t[j] <= 'z') else !('A' <= t[j] <= 'Z')
    decreases j - i
  {
    if i < j {
      TitledAt(t, i + 1, j);
    }
  }

  /** A string meeting the fixed-point condition `TitledFrom` is its own title case. */
  lemma TitledIsFixed(t: string)
    requires TitledFrom(t, 0)
    ensures TitleCase(t) == t
  {
    forall j | 0 <= j < |t|
      ensures if StartsPiece(t, j) then !('a' <= t[j] <= 'z') else !('A' <= t[j] <= 'Z')
    {
      TitledAt(t, 0, j);
    }
    TitleCaseFixedPoint(t);
  }

  /** Every bucket label meets the fixed-point condition `TitledFrom`. */
  lemma BucketsPassCheck()
    ensures forall k :: 0 <= k < |Buckets| ==> TitledFrom(Buckets[k], 0)
  {
    assert TitledFrom("15 Minutes", 0);
    assert TitledFrom("30 Minutes", 0);
    assert TitledFrom("45 Minutes", 0);
    assert TitledFrom("1 Hour", 0);
    assert TitledFrom("1 Hour+", 0);
  }

  /** Every bucket label is its own title case. */
  lemma BucketsTitled(b: string)
    requires b in Buckets
    ensures TitleCase(b) == b
  {
    BucketsPassCheck();
    TitledIsFixed(b);
  }

  /** The edges of the buckets: 30 and 31, 60 and 61. */
  lemma TimeTagEdges()
    ensures TimeTag(Some(30)) == Some("30 Minutes") && TimeTag(Some(31)) == Some("45 Minutes")
    ensures TimeTag(Some(60)) == Some("1 Hour") && TimeTag(Some(61)) == Some("1 Hour+")
    ensures TimeTag(Some(0)) == None && TimeTag(None) == None
  {
  }

  /** "BBQ sauce" becomes "Bbq Sauce". */
  lemma BbqSauce(s: string)
    requires s == "BBQ sauce"
    ensures TitleCase(s) == "Bbq Sauce"
  {
    TitleCaseChars(s);
    var t := TitleCase(s);
    assert t[0] == 'B' && t[1] == 'b' && t[2] == 'q' && t[3] == ' ' && t[4] == 'S';
    assert t[5] == 'a' && t[6] == 'u' && t[7] == 'c' && t[8] == 'e';
  }
}
