/// `normalizeFractions`: the fifteen Unicode vulgar-fraction glyphs become
/// their ASCII "n/d" spelling, one `replace` call per glyph, in the order
/// the importer lists them.
module Fractions {
  import opened JsValues

  /** One `.replace(/glyph/g, ascii)` step of the chain. */
  datatype Replacement = Replacement(glyph: char, ascii: string)

  /** The chain, in source order. */
  const Replacements: seq<Replacement> := [
    Replacement('\U{BC}', "1/4"), Replacement('\U{BD}', "1/2"), Replacement('\U{BE}', "3/4"),
    Replacement('\U{2153}', "1/3"), Replacement('\U{2154}', "2/3"), Replacement('\U{215B}', "1/8"),
    Replacement('\U{215C}', "3/8"), Replacement('\U{215D}', "5/8"), Replacement('\U{215E}', "7/8"),
    Replacement('\U{2155}', "1/5"), Replacement('\U{2156}', "2/5"), Replacement('\U{2157}', "3/5"),
    Replacement('\U{2158}', "4/5"), Replacement('\U{2159}', "1/6"), Replacement('\U{215A}', "5/6")
  ]

  /** `c` is the glyph of some step of `rs`. */
  predicate IsGlyphOf(c: char, rs: seq<Replacement>) {
    exists i :: 0 <= i < |rs| && rs[i].glyph == c
  }

  predicate IsGlyph(c: char) {
    IsGlyphOf(c, Replacements)
  }

  /** `s.replace(/g/g, t)` for a one-character pattern `g`. */
  function ReplaceAll(s: string, g: char, t: string): (r: string)
    ensures g !in t ==> g !in r
    ensures forall c :: c in r ==> c in s || c in t
  {
    if s == [] then [] else (if s[0] == g then t else [s[0]]) + ReplaceAll(s[1..], g, t)
  }

  /** The `replace` calls of `rs` applied one after another. */
  function ReplaceChain(s: string, rs: seq<Replacement>): string
    decreases |rs|
  {
    if rs == [] then s else ReplaceChain(ReplaceAll(s, rs[0].glyph, rs[0].ascii), rs[1..])
  }

  /** `normalizeFractions(str)`: `null`, `undefined` and "" are returned as
      they are (`if (!str) return str`); anything else goes through the chain. */
  function NormalizeFractions(str: Option<string>): Option<string> {
    if str.None? || str.value == "" then str else Some(ReplaceChain(str.value, Replacements))
  }

  /** The ASCII text of the first step of `rs` whose glyph is `c`, if any. */
  function AsciiOf(c: char, rs: seq<Replacement>): (r: Option<string>)
    ensures r.Some? <==> IsGlyphOf(c, rs)
  {
    if rs == [] then None
    else if rs[0].glyph == c then Some(rs[0].ascii)
    else
      var r := AsciiOf(c, rs[1..]);
      assert IsGlyphOf(c, rs[1..]) ==> IsGlyphOf(c, rs) by {
        if IsGlyphOf(c, rs[1..]) {
          var i :| 0 <= i < |rs| - 1 && rs[1..][i].glyph == c;
          assert rs[i + 1].glyph == c;
        }
      }
      r
  }

  /** A single left-to-right pass: every glyph of `rs` becomes its ASCII text,
      every other character stays. */
  function MapGlyphs(s: string, rs: seq<Replacement>): string {
    if s == [] then []
    else
      (match AsciiOf(s[0], rs) case Some(t) => t case None => [s[0]]) + MapGlyphs(s[1..], rs)
  }

  /** No step's ASCII text contains a glyph of the chain. */
  predicate AsciiTextsGlyphFree(rs: seq<Replacement>) {
    forall i, c :: 0 <= i < |rs| && c in rs[i].ascii ==> !IsGlyphOf(c, rs)
  }

  lemma {:induction false} MapGlyphsAppend(a: string, b: string, rs: seq<Replacement>)
    ensures MapGlyphs(a + b, rs) == MapGlyphs(a, rs) + MapGlyphs(b, rs)
  {
    if a != [] {
      assert (a + b)[1..] == a[1..] + b;
      MapGlyphsAppend(a[1..], b, rs);
    } else {
      assert a + b == b;
    }
  }

  lemma {:induction false} MapGlyphsIdentity(s: string, rs: seq<Replacement>)
    requires forall c :: c in s ==> !IsGlyphOf(c, rs)
    ensures MapGlyphs(s, rs) == s
  {
    if s != [] {
      assert s[0] in s;
      MapGlyphsIdentity(s[1..], rs);
    }
  }

  /** Replacing the first glyph and then mapping the rest of the table is
      the same as mapping the whole table. */
  lemma {:induction false} FirstStepThenRest(s: string, rs: seq<Replacement>)
    requires rs != [] && AsciiTextsGlyphFree(rs)
    ensures MapGlyphs(ReplaceAll(s, rs[0].glyph, rs[0].ascii), rs[1..]) == MapGlyphs(s, rs)
  {
    if s != [] {
      var g, t := rs[0].glyph, rs[0].ascii;
      var head := if s[0] == g then t else [s[0]];
      assert ReplaceAll(s, g, t) == head + ReplaceAll(s[1..], g, t);
      MapGlyphsAppend(head, ReplaceAll(s[1..], g, t), rs[1..]);
      FirstStepThenRest(s[1..], rs);
      if s[0] == g {
        forall c | c in t ensures !IsGlyphOf(c, rs[1..]) {
          assert !IsGlyphOf(c, rs);
        }
        MapGlyphsIdentity(t, rs[1..]);
      } else {
        assert [s[0]][1..] == [];
      }
    }
  }

  lemma {:induction false} TailGlyphFree(rs: seq<Replacement>)
    requires rs != [] && AsciiTextsGlyphFree(rs)
    ensures AsciiTextsGlyphFree(rs[1..])
  {
    forall i, c | 0 <= i < |rs| - 1 && c in rs[1..][i].ascii ensures !IsGlyphOf(c, rs[1..]) {
      assert rs[1..][i] == rs[i + 1];
      assert !IsGlyphOf(c, rs);
    }
  }

  /** The chain of `replace` calls is one left-to-right pass, provided no
      replacement text brings in a glyph that a later step would rewrite. */
  lemma {:induction false} ChainIsSinglePass(s: string, rs: seq<Replacement>)
    requires AsciiTextsGlyphFree(rs)
    ensures ReplaceChain(s, rs) == MapGlyphs(s, rs)
    decreases |rs|
  {
    if rs == [] {
      MapGlyphsIdentity(s, rs);
    } else {
      TailGlyphFree(rs);
      ChainIsSinglePass(ReplaceAll(s, rs[0].glyph, rs[0].ascii), rs[1..]);
      FirstStepThenRest(s, rs);
    }
  }

  /** The importer's texts are plain ASCII, so its chain qualifies. */
  lemma TableGlyphFree()
    ensures AsciiTextsGlyphFree(Replacements)
  {
    GlyphsAboveAscii();
    TextsAreLow();
  }

  /** Every text of the table is written in ASCII. */
  lemma TextsAreLow()
    ensures forall i, c :: 0 <= i < |Replacements| && c in Replacements[i].ascii ==> c as int < 0x80
  {
    forall i, c | 0 <= i < |Replacements| && c in Replacements[i].ascii
      ensures c as int < 0x80
    {
      assert c == '/' || '0' <= c <= '9';
    }
  }

  /** What `normalizeFractions` does to a non-empty string: each glyph
      becomes its ASCII fraction, every other character is kept. */
  lemma NormalizeIsSinglePass(s: string)
    ensures NormalizeFractions(Some(s)) == Some(MapGlyphs(s, Replacements))
  {
    TableGlyphFree();
    ChainIsSinglePass(s, Replacements);
  }

  /** No glyph of the table survives a single pass. */
  lemma {:induction false} MapGlyphsRemovesGlyphs(s: string, rs: seq<Replacement>)
    requires AsciiTextsGlyphFree(rs)
    ensures forall c :: c in MapGlyphs(s, rs) ==> !IsGlyphOf(c, rs)
  {
    if s != [] {
      MapGlyphsRemovesGlyphs(s[1..], rs);
      match AsciiOf(s[0], rs)
      case Some(t) =>
        var i :| 0 <= i < |rs| && rs[i].glyph == s[0];
        assert t == AsciiOfIs(s[0], rs);
      case None =>
    }
  }

  /** The ASCII text `AsciiOf` returns is the text of some step. */
  function AsciiOfIs(c: char, rs: seq<Replacement>): (t: string)
    requires IsGlyphOf(c, rs)
    ensures exists i :: 0 <= i < |rs| && rs[i].ascii == t
    ensures AsciiOf(c, rs) == Some(t)
  {
    if rs[0].glyph == c then rs[0].ascii
    else
      assert IsGlyphOf(c, rs[1..]) by {
        var i :| 0 <= i < |rs| && rs[i].glyph == c;
        assert i != 0 && rs[1..][i - 1].glyph == c;
      }
      var t := AsciiOfIs(c, rs[1..]);
      var j :| 0 <= j < |rs| - 1 && rs[1..][j].ascii == t;
      assert rs[j + 1].ascii == t;
      t
  }

  /** `normalizeFractions` leaves no glyph behind. */
  lemma NoGlyphSurvives(s: string)
    ensures NormalizeFractions(Some(s)).Some?
    ensures forall c :: c in NormalizeFractions(Some(s)).value ==> !IsGlyph(c)
  {
    NormalizeIsSinglePass(s);
    TableGlyphFree();
    MapGlyphsRemovesGlyphs(s, Replacements);
  }

  /** A string without glyphs comes back unchanged, `null` and `undefined`
      included. */
  lemma GlyphFreeUnchanged(str: Option<string>)
    requires str.Some? ==> forall c :: c in str.value ==> !IsGlyph(c)
    ensures NormalizeFractions(str) == str
  {
    if str.Some? {
      NormalizeIsSinglePass(str.value);
      MapGlyphsIdentity(str.value, Replacements);
    }
  }

  /** Normalising twice is normalising once. */
  lemma Idempotent(str: Option<string>)
    ensures NormalizeFractions(NormalizeFractions(str)) == NormalizeFractions(str)
  {
    if str.Some? {
      NoGlyphSurvives(str.value);
      GlyphFreeUnchanged(NormalizeFractions(str));
    }
  }

  /** The step at index `i` is the first with its glyph. */
  lemma {:induction false} AsciiOfFirst(rs: seq<Replacement>, i: nat)
    requires i < |rs|
    requires forall j :: 0 <= j < i ==> rs[j].glyph != rs[i].glyph
    ensures AsciiOf(rs[i].glyph, rs) == Some(rs[i].ascii)
  {
    if i > 0 {
      AsciiOfFirst(rs[1..], i - 1);
    }
  }

  lemma DistinctGlyphs(i: nat)
    requires i < |Replacements|
    ensures forall j :: 0 <= j < i ==> Replacements[j].glyph != Replacements[i].glyph
  {
    var gs := seq(|Replacements|, k requires 0 <= k < |Replacements| => Replacements[k].glyph as int);
    assert gs == [0xBC, 0xBD, 0xBE, 0x2153, 0x2154, 0x215B, 0x215C, 0x215D, 0x215E,
                  0x2155, 0x2156, 0x2157, 0x2158, 0x2159, 0x215A];
  }

  /** Each glyph on its own becomes its ASCII fraction. */
  lemma EachGlyph(i: nat)
    requires i < |Replacements|
    ensures NormalizeFractions(Some([Replacements[i].glyph])) == Some(Replacements[i].ascii)
  {
    var g := Replacements[i].glyph;
    NormalizeIsSinglePass([g]);
    DistinctGlyphs(i);
    AsciiOfFirst(Replacements, i);
    SingleGlyph(g, Replacements[i].ascii);
  }

  lemma SingleGlyph(g: char, t: string)
    requires AsciiOf(g, Replacements) == Some(t)
    ensures MapGlyphs([g], Replacements) == t
  {
    assert MapGlyphs([g], Replacements) == t + MapGlyphs([], Replacements);
  }

  /** Every glyph of the table lies outside ASCII. */
  lemma GlyphsAboveAscii()
    ensures forall i :: 0 <= i < |Replacements| ==> Replacements[i].glyph as int >= 0xBC
  {
    var gs := seq(|Replacements|, k requires 0 <= k < |Replacements| => Replacements[k].glyph as int);
    assert gs == [0xBC, 0xBD, 0xBE, 0x2153, 0x2154, 0x215B, 0x215C, 0x215D, 0x215E,
                  0x2155, 0x2156, 0x2157, 0x2158, 0x2159, 0x215A];
  }

  /** Plain ASCII text comes back as it is. */
  lemma AsciiUnchanged(s: string)
    requires forall i :: 0 <= i < |s| ==> s[i] as int < 0x80
    ensures NormalizeFractions(Some(s)) == Some(s)
  {
    GlyphsAboveAscii();
    GlyphFreeUnchanged(Some(s));
  }
}
