/** The fee summary shown on the fee settings button: "buy / sell", with a dash for a fee that is off. */
module FeeLabels {
  import opened Options

  /** The fee settings as typed: whether each fee is on, and its percentage as text. */
  datatype FeeText = FeeText(buyFeeEnabled: bool, buyFeePercentage: string,
                             sellFeeEnabled: bool, sellFeePercentage: string)

  /** The label before it is first computed. */
  const InitialFeeTitle: string := "- / -"

  /** The percentage text both fees start with. */
  const DefaultFeePercentage: string := "0.02"

  /** What the label shows for one fee: its text when it is on, a dash when it is off. */
  function Shown(enabled: bool, percentage: string): (shown: string)
    ensures enabled ==> shown == percentage
    ensures !enabled ==> shown == "-"
  {
    if enabled then percentage else "-"
  }

  /** The label: the buy part, a spaced slash, then the sell part. */
  function FeeLabel(t: FeeText): (title: string)
    ensures |title| == |Shown(t.buyFeeEnabled, t.buyFeePercentage)| + 3 + |Shown(t.sellFeeEnabled, t.sellFeePercentage)|
    ensures !t.buyFeeEnabled && !t.sellFeeEnabled ==> title == InitialFeeTitle
  {
    Shown(t.buyFeeEnabled, t.buyFeePercentage) + " / " + Shown(t.sellFeeEnabled, t.sellFeePercentage)
  }

  /** The position of the last '/' in `s`, or -1 when there is none. */
  function LastSlash(s: string): (k: int)
    ensures -1 <= k < |s|
    ensures k >= 0 ==> s[k] == '/'
    ensures forall j | k < j < |s| :: s[j] != '/'
    decreases |s|
  {
    if s == [] then -1
    else if s[|s| - 1] == '/' then |s| - 1
    else LastSlash(s[..|s| - 1])
  }

  /** Reads a label back into its buy and sell parts, splitting at the last spaced slash. */
  function LabelParts(text: string): (r: Option<(string, string)>)
    ensures r.Some? ==> text == r.value.0 + " / " + r.value.1 && '/' !in r.value.1
  {
    var k := LastSlash(text);
    if 1 <= k && k + 1 < |text| && text[k - 1] == ' ' && text[k + 1] == ' ' then
      assert text == text[..k - 1] + " / " + text[k + 2..];
      Some((text[..k - 1], text[k + 2..]))
    else None
  }

  /**
   * A label is read back into the two texts it was built from whenever the sell
   * part holds no '/'; the buy part may hold any text.
   */
  lemma LabelRoundTrip(t: FeeText)
    requires '/' !in Shown(t.sellFeeEnabled, t.sellFeePercentage)
    ensures LabelParts(FeeLabel(t))
         == Some((Shown(t.buyFeeEnabled, t.buyFeePercentage), Shown(t.sellFeeEnabled, t.sellFeePercentage)))
  {
    SplitJoined(Shown(t.buyFeeEnabled, t.buyFeePercentage), Shown(t.sellFeeEnabled, t.sellFeePercentage));
  }

  /** Joining two texts with a spaced slash and splitting again gives them back, when the second has no '/'. */
  lemma SplitJoined(b: string, c: string)
    requires '/' !in c
    ensures LabelParts(b + " / " + c) == Some((b, c))
  {
    var text := b + " / " + c;
    assert text[|b| + 1] == '/';
    assert forall j | |b| + 3 <= j < |text| :: text[j] == c[j - |b| - 3];
    assert LastSlash(text) == |b| + 1;
    assert text[..|b|] == b;
    assert text[|b| + 3..] == c;
  }

  /** With both fees off the label is the initial title; with both at their defaults it is "0.02 / 0.02". */
  lemma LabelExamples(buy: string, sell: string)
    ensures FeeLabel(FeeText(false, buy, false, sell)) == InitialFeeTitle
    ensures FeeLabel(FeeText(true, DefaultFeePercentage, true, DefaultFeePercentage)) == "0.02 / 0.02"
    ensures LabelParts(FeeLabel(FeeText(true, buy, false, sell))) == Some((buy, "-"))
  {
    LabelRoundTrip(FeeText(true, buy, false, sell));
  }
}
