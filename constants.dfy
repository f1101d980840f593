/**
 * The predefined manga attribute tags, grouped in four categories, and the
 * lookups of a tag's display label and display color. A tag that is not in
 * the table gets a color picked from a fixed palette by a 32-bit string hash.
 */
module Constants {
  import opened Wrappers
  import Js

  datatype Attribute = Attribute(tagLabel: string, value: string, color: string)

  const Emotion: seq<Attribute> := [
    Attribute("糖度", "sweetness", "pink.4"),
    Attribute("刀度", "angst", "grape.6"),
    Attribute("治愈度", "healing", "teal.4"),
    Attribute("致郁度", "depressing", "gray.6"),
    Attribute("催泪度", "tearjerker", "blue.4"),
    Attribute("搞笑度", "funny", "yellow.4")]

  const Yuri: seq<Attribute> := [
    Attribute("百合度", "yuri", "red.4"),
    Attribute("扭曲度", "twisted", "violet.6"),
    Attribute("暧昧度", "ambiguous", "pink.3"),
    Attribute("后宫度", "harem", "pink.6")]

  const Plot: seq<Attribute> := [
    Attribute("烧脑度", "brainburn", "indigo.5"),
    Attribute("狗血度", "drama", "red.8"),
    Attribute("生活气息", "sliceoflife", "lime.6"),
    Attribute("悬疑度", "suspense", "cyan.7"),
    Attribute("热血度", "hype", "orange.6"),
    Attribute("胃痛度", "stomachache", "orange.8")]

  const Other: seq<Attribute> := [
    Attribute("色气度", "eroticism", "red.6"),
    Attribute("电波度", "denpa", "grape.5"),
    Attribute("硬核度", "hardcore", "dark.4")]

  /** The categories 情感, 百合, 剧情 and 其他, in the order `Object.values` yields them. */
  const Categories: seq<seq<Attribute>> := [Emotion, Yuri, Plot, Other]

  /** The colors a tag outside the table can get. */
  const Palette: seq<string> := [
    "blue.4", "cyan.4", "teal.4", "green.4", "lime.4", "yellow.4",
    "orange.4", "red.4", "pink.4", "grape.4", "violet.4", "indigo.4"]

  predicate MatchesValueOrLabel(a: Attribute, key: string) {
    a.value == key || a.tagLabel == key
  }

  /** `category.find(attr => attr.value === key || attr.label === key)`. */
  function FindForColor(attrs: seq<Attribute>, key: string): (r: Option<Attribute>)
    ensures r.Some? ==> r.value in attrs && MatchesValueOrLabel(r.value, key)
    ensures r.None? <==> forall a :: a in attrs ==> !MatchesValueOrLabel(a, key)
  {
    if attrs == [] then None
    else if MatchesValueOrLabel(attrs[0], key) then Some(attrs[0])
    else FindForColor(attrs[1..], key)
  }

  /** `category.find(attr => attr.value === key)`. */
  function FindByValue(attrs: seq<Attribute>, key: string): (r: Option<Attribute>)
    ensures r.Some? ==> r.value in attrs && r.value.value == key
    ensures r.None? <==> forall a :: a in attrs ==> a.value != key
  {
    if attrs == [] then None
    else if attrs[0].value == key then Some(attrs[0])
    else FindByValue(attrs[1..], key)
  }

  /** The first category holding a match gives the answer. */
  function FindForColorIn(cats: seq<seq<Attribute>>, key: string): (r: Option<Attribute>)
    ensures r.Some? ==> MatchesValueOrLabel(r.value, key) && exists c :: c in cats && r.value in c
    ensures r.None? <==> forall c, a :: c in cats && a in c ==> !MatchesValueOrLabel(a, key)
  {
    if cats == [] then None
    else
      var found := FindForColor(cats[0], key);
      if found.Some? then found else FindForColorIn(cats[1..], key)
  }

  function FindByValueIn(cats: seq<seq<Attribute>>, key: string): (r: Option<Attribute>)
    ensures r.Some? ==> r.value.value == key && exists c :: c in cats && r.value in c
    ensures r.None? <==> forall c, a :: c in cats && a in c ==> a.value != key
  {
    if cats == [] then None
    else
      var found := FindByValue(cats[0], key);
      if found.Some? then found else FindByValueIn(cats[1..], key)
  }

  /** `getAttributeLabel`: the label of the entry whose value is the key, else the key itself. */
  function LabelOf(key: string): (shown: string)
    ensures FindByValueIn(Categories, key).None? ==> shown == key
  {
    match FindByValueIn(Categories, key)
    case Some(a) => a.tagLabel
    case None => key
  }

  /** One step of the hash loop: `code + ((hash << 5) - hash)`; `hash` itself is not wrapped. */
  function HashStep(hash: int, code: int): int {
    code + (Js.ShiftLeft5(hash) - hash)
  }

  /** The hash of a sequence of UTF-16 code units, folded from the left starting at 0. */
  function HashUnits(units: seq<int>): int {
    if units == [] then 0 else HashStep(HashUnits(units[..|units| - 1]), units[|units| - 1])
  }

  function Abs(x: int): nat {
    if x < 0 then -x else x
  }

  /** The palette color of a tag outside the table: `colors[Math.abs(hash) % 12]`. */
  function PaletteColor(key: string): (c: string)
    ensures c in Palette
  {
    Palette[Abs(HashUnits(Js.Utf16(key))) % |Palette|]
  }

  /** `getAttributeColor`: the color of the first entry matching by value or label, else a palette color. */
  function ColorOf(key: string): string {
    match FindForColorIn(Categories, key)
    case Some(a) => a.color
    case None => PaletteColor(key)
  }

  /** `getAttributeColor` as the code runs it: a scan of the categories with an early return, then the hash loop. */
  method GetAttributeColor(key: string) returns (color: string)
    ensures color == ColorOf(key)
  {
    var ci := 0;
    while ci < |Categories|
      invariant 0 <= ci <= |Categories|
      invariant FindForColorIn(Categories, key) == FindForColorIn(Categories[ci..], key)
    {
      var found := FindForColor(Categories[ci], key);
      if found.Some? {
        return found.value.color;
      }
      assert Categories[ci..][1..] == Categories[ci + 1..];
      ci := ci + 1;
    }
    var units := Js.Utf16(key);
    var hash := 0;
    var i := 0;
    while i < |units|
      invariant 0 <= i <= |units|
      invariant hash == HashUnits(units[..i])
    {
      assert units[..i + 1][..i] == units[..i];
      hash := units[i] + (Js.ShiftLeft5(hash) - hash);
      i := i + 1;
    }
    assert units[..i] == units;
    color := Palette[Abs(hash) % |Palette|];
  }

  /** A tag outside the table always gets one of the twelve palette colors. */
  lemma UnknownTagColorInPalette(key: string)
    requires forall c, a :: c in Categories && a in c ==> a.value != key && a.tagLabel != key
    ensures ColorOf(key) in Palette
  {
  }

  /** An entry of the table, by category and position. */
  predicate IsEntry(p: int, i: int) {
    0 <= p < |Categories| && 0 <= i < |Categories[p]|
  }

  /** No entry has an empty value or an empty label. */
  predicate NoEmptyKeys(x: seq<Attribute>) {
    forall i :: 0 <= i < |x| ==> x[i].value != "" && x[i].tagLabel != ""
  }

  /** Within one category, values and labels are all different and no label is a value. */
  predicate Internal(x: seq<Attribute>) {
    DistinctValues(x) && DistinctLabels(x) && LabelsAreNotValues(x)
  }

  predicate DistinctValues(x: seq<Attribute>) {
    forall i, j :: 0 <= i < j < |x| ==> x[i].value != x[j].value
  }

  predicate DistinctLabels(x: seq<Attribute>) {
    forall i, j :: 0 <= i < j < |x| ==> x[i].tagLabel != x[j].tagLabel
  }

  predicate LabelsAreNotValues(x: seq<Attribute>) {
    forall i, j :: 0 <= i < |x| && 0 <= j < |x| ==> x[i].tagLabel != x[j].value
  }

  /** Across two categories, no value or label of one equals a value or label of the other. */
  predicate Apart(x: seq<Attribute>, y: seq<Attribute>) {
    forall i, j :: 0 <= i < |x| && 0 <= j < |y| ==>
      && x[i].value != y[j].value && x[i].tagLabel != y[j].tagLabel
      && x[i].value != y[j].tagLabel && x[i].tagLabel != y[j].value
  }

  lemma EmotionNoEmptyKeys() ensures NoEmptyKeys(Emotion) {}
  lemma EmotionDistinctValues() ensures DistinctValues(Emotion) {}
  lemma EmotionDistinctLabels() ensures DistinctLabels(Emotion) {}
  lemma EmotionLabelsAreNotValues() ensures LabelsAreNotValues(Emotion) {}
  lemma YuriNoEmptyKeys() ensures NoEmptyKeys(Yuri) {}
  lemma YuriDistinctValues() ensures DistinctValues(Yuri) {}
  lemma YuriDistinctLabels() ensures DistinctLabels(Yuri) {}
  lemma YuriLabelsAreNotValues() ensures LabelsAreNotValues(Yuri) {}
  lemma PlotNoEmptyKeys() ensures NoEmptyKeys(Plot) {}
  lemma PlotDistinctValues() ensures DistinctValues(Plot) {}
  lemma PlotDistinctLabels() ensures DistinctLabels(Plot) {}
  lemma PlotLabelsAreNotValues() ensures LabelsAreNotValues(Plot) {}
  lemma OtherNoEmptyKeys() ensures NoEmptyKeys(Other) {}
  lemma OtherDistinctValues() ensures DistinctValues(Other) {}
  lemma OtherDistinctLabels() ensures DistinctLabels(Other) {}
  lemma OtherLabelsAreNotValues() ensures LabelsAreNotValues(Other) {}

  lemma CategoriesInternal()
    ensures forall p :: 0 <= p < |Categories| ==> Internal(Categories[p]) && NoEmptyKeys(Categories[p])
  {
    EmotionNoEmptyKeys(); EmotionDistinctValues(); EmotionDistinctLabels(); EmotionLabelsAreNotValues();
    YuriNoEmptyKeys(); YuriDistinctValues(); YuriDistinctLabels(); YuriLabelsAreNotValues();
    PlotNoEmptyKeys(); PlotDistinctValues(); PlotDistinctLabels(); PlotLabelsAreNotValues();
    OtherNoEmptyKeys(); OtherDistinctValues(); OtherDistinctLabels(); OtherLabelsAreNotValues();
  }

  lemma EmotionYuriApart() ensures Apart(Emotion, Yuri) {}
  lemma EmotionPlotApart() ensures Apart(Emotion, Plot) {}
  lemma EmotionOtherApart() ensures Apart(Emotion, Other) {}
  lemma YuriPlotApart() ensures Apart(Yuri, Plot) {}
  lemma YuriOtherApart() ensures Apart(Yuri, Other) {}
  lemma PlotOtherApart() ensures Apart(Plot, Other) {}

  /** The whole table is unambiguous: each value and each label names exactly one entry, and never both kinds. */
  lemma TableUnambiguous(p: int, i: int, q: int, j: int)
    requires IsEntry(p, i) && IsEntry(q, j)
    ensures Categories[p][i].tagLabel != Categories[q][j].value
    ensures Categories[p][i].value != ""
    ensures (p, i) != (q, j) ==>
      Categories[p][i].value != Categories[q][j].value && Categories[p][i].tagLabel != Categories[q][j].tagLabel
  {
    CategoriesInternal();
    EmotionYuriApart();
    EmotionPlotApart();
    EmotionOtherApart();
    YuriPlotApart();
    YuriOtherApart();
    PlotOtherApart();
    var x, y := Categories[p], Categories[q];
    if p < q {
      assert Apart(x, y);
    } else if q < p {
      assert Apart(y, x);
    }
  }

  /** Every entry of a list of categories is found at some index. */
  lemma EntryIndex(c: seq<Attribute>, e: Attribute) returns (p: int, i: int)
    requires c in Categories && e in c
    ensures IsEntry(p, i) && Categories[p][i] == e
  {
    p :| 0 <= p < |Categories| && Categories[p] == c;
    i :| 0 <= i < |c| && c[i] == e;
  }

  /** No entry has the empty string as value or label. */
  lemma NoEntryForEmptyKey()
    ensures FindForColorIn(Categories, "").None?
  {
    forall c, a | c in Categories && a in c
      ensures !MatchesValueOrLabel(a, "")
    {
      var p, i := EntryIndex(c, a);
      CategoriesInternal();
    }
  }

  /** The empty key matches no entry, hashes to 0 and gets the first palette color. */
  lemma EmptyKeyColor()
    ensures ColorOf("") == "blue.4"
  {
    NoEntryForEmptyKey();
    EmptyKeyPaletteColor();
  }

  lemma EmptyKeyPaletteColor()
    ensures PaletteColor("") == "blue.4"
  {
    var u := Js.Utf16("");
    assert u == [];
    assert HashUnits(u) == 0;
  }

  /** When exactly one entry matches, the scan over the categories finds that entry. */
  lemma {:induction false} FindsTheOnlyColorMatch(cats: seq<seq<Attribute>>, key: string, a: Attribute)
    requires MatchesValueOrLabel(a, key) && exists c :: c in cats && a in c
    requires forall c, e :: c in cats && e in c && MatchesValueOrLabel(e, key) ==> e == a
    ensures FindForColorIn(cats, key) == Some(a)
  {
    if a in cats[0] {
    } else {
      assert forall c :: c in cats && c != cats[0] ==> c in cats[1..];
      FindsTheOnlyColorMatch(cats[1..], key, a);
    }
  }

  lemma {:induction false} FindsTheOnlyValueMatch(cats: seq<seq<Attribute>>, key: string, a: Attribute)
    requires a.value == key && exists c :: c in cats && a in c
    requires forall c, e :: c in cats && e in c && e.value == key ==> e == a
    ensures FindByValueIn(cats, key) == Some(a)
  {
    if a in cats[0] {
    } else {
      assert forall c :: c in cats && c != cats[0] ==> c in cats[1..];
      FindsTheOnlyValueMatch(cats[1..], key, a);
    }
  }

  /** A predefined entry is found by its value and by its label for its color, and by its value for its label. */
  lemma PredefinedLookups(p: int, i: int)
    requires IsEntry(p, i)
    ensures LabelOf(Categories[p][i].value) == Categories[p][i].tagLabel
    ensures ColorOf(Categories[p][i].value) == Categories[p][i].color
    ensures ColorOf(Categories[p][i].tagLabel) == Categories[p][i].color
    ensures LabelOf(Categories[p][i].tagLabel) == Categories[p][i].tagLabel
  {
    var a := Categories[p][i];
    assert Categories[p] in Categories && a in Categories[p];
    forall c, e | c in Categories && e in c
      ensures MatchesValueOrLabel(e, a.value) ==> e == a
      ensures MatchesValueOrLabel(e, a.tagLabel) ==> e == a
      ensures e.value == a.value ==> e == a
      ensures e.value != a.tagLabel
    {
      var q, j := EntryIndex(c, e);
      TableUnambiguous(p, i, q, j);
      TableUnambiguous(q, j, p, i);
    }
    FindsTheOnlyColorMatch(Categories, a.value, a);
    FindsTheOnlyColorMatch(Categories, a.tagLabel, a);
    FindsTheOnlyValueMatch(Categories, a.value, a);
  }

  /** The color of a predefined value's label is the value's color. */
  lemma ColorOfLabelIsColorOfValue(p: int, i: int)
    requires IsEntry(p, i)
    ensures ColorOf(LabelOf(Categories[p][i].value)) == ColorOf(Categories[p][i].value)
  {
    PredefinedLookups(p, i);
  }

  /** The label lookup never matches by label: a label, as a key, is shown as itself. */
  lemma LabelNeverMatchesLabel(p: int, i: int)
    requires IsEntry(p, i)
    ensures LabelOf(Categories[p][i].tagLabel) == Categories[p][i].tagLabel
    ensures LabelOf("糖度") == "糖度" && LabelOf("sweetness") == "糖度"
  {
    PredefinedLookups(p, i);
    PredefinedLookups(0, 0);
  }
}
