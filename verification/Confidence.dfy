/** The confidence indicator: integer thresholds that split a score into
    three bands, a total size table, and the optional label suffix. */
module Confidence {

  datatype Band = Low | Medium | High

  /** Position of a band in the order low < medium < high. */
  function Rank(b: Band): nat {
    match b
    case Low => 0
    case Medium => 1
    case High => 2
  }

  const HighThreshold: int := 80
  const MediumThreshold: int := 60

  /** The if-chain of the indicator: 80 and above is high, 60 to 79 medium,
      anything lower low. The three bands partition the integers. */
  function BandOf(value: int): (b: Band)
    ensures b == High <==> value >= 80
    ensures b == Medium <==> 60 <= value < 80
    ensures b == Low <==> value < 60
  {
    if value >= HighThreshold then High
    else if value >= MediumThreshold then Medium
    else Low
  }

  /** A higher score never falls in a lower band. */
  lemma BandMonotone(x: int, y: int)
    requires x <= y
    ensures Rank(BandOf(x)) <= Rank(BandOf(y))
  {
  }

  /** The boundary scores. */
  lemma BandBoundaries()
    ensures BandOf(80) == High && BandOf(79) == Medium
    ensures BandOf(60) == Medium && BandOf(59) == Low
  {
  }

  datatype Size = Sm | Md | Lg

  /** The component's defaults: a missing `showLabel` is true, a missing `size` is md. */
  const DefaultShowLabel: bool := true
  const DefaultSize: Size := Md

  /** The text-size table, total over the three sizes and one class per size. */
  function SizeClass(size: Size): (cls: string)
    ensures cls in {"text-xs", "text-sm", "text-base"}
    ensures size == DefaultSize ==> cls == "text-sm"
  {
    match size
    case Sm => "text-xs"
    case Md => "text-sm"
    case Lg => "text-base"
  }

  lemma SizeClassInjective(a: Size, b: Size)
    requires a != b
    ensures SizeClass(a) != SizeClass(b)
  {
  }

  const Suffix: string := " confidence"

  predicate EndsWith(s: string, suffix: string) {
    |suffix| <= |s| && s[|s| - |suffix|..] == suffix
  }

  /** The indicator's text: the rendered score, a percent sign, and the
      " confidence" suffix exactly when the label is shown. */
  function Label(valueText: string, showLabel: bool): (text: string)
    ensures |text| > |valueText| && text[..|valueText|] == valueText && text[|valueText|] == '%'
    ensures text == valueText + "%" + (if showLabel then Suffix else "")
    ensures EndsWith(text, Suffix) <==> showLabel
    ensures showLabel == DefaultShowLabel ==> EndsWith(text, Suffix)
  {
    var percent := valueText + "%";
    var text := if showLabel then percent + Suffix else percent;
    assert text[..|percent|] == percent;
    assert !showLabel ==> text[|text| - 1] == '%' && Suffix[|Suffix| - 1] == 'e';
    text
  }
}
