/** The results view's severity chart: the ordinal each symptom severity is
    plotted at, the badge classes it is shown with, and the labels of the
    chart's y axis. Severities arrive as strings; anything outside the four
    known ones falls to the `default` arm of each switch. */
module MedicalResultsView {
  import opened Wrappers
  import opened MedicalExtractionModel
  import opened ClinicalRecordModel
  import opened Oracles
  import MedicalInfoExtractor

  /** The four severities, mildest first. */
  const SeverityNames: seq<string> := ["mild", "moderate", "severe", "critical"]

  /** `getSeverityValue`: the position of the severity in `SeverityNames`,
      counted from 1, or 0 for anything else. */
  function SeverityValue(s: string): (r: int)
    ensures 0 <= r <= 4
    ensures r == 0 <==> s !in SeverityNames
    ensures r > 0 ==> SeverityNames[r - 1] == s
  {
    if s == "mild" then 1
    else if s == "moderate" then 2
    else if s == "severe" then 3
    else if s == "critical" then 4
    else 0
  }

  /** The ordinal is strictly increasing along the four severities. */
  lemma SeverityValueIncreasing(i: nat, j: nat)
    requires i < j < |SeverityNames|
    ensures 0 < SeverityValue(SeverityNames[i]) < SeverityValue(SeverityNames[j])
  {
  }

  /** The chart's data: one ordinal per symptom, in order. */
  function ChartValues(severities: seq<string>): (r: seq<int>)
    ensures |r| == |severities|
    ensures forall i :: 0 <= i < |r| ==> 0 <= r[i] <= 4 && (r[i] == 0 <==> severities[i] !in SeverityNames)
  {
    if severities == [] then [] else [SeverityValue(severities[0])] + ChartValues(severities[1..])
  }

  const GrayBadge := "bg-gray-100 text-gray-800 border-gray-200"

  /** `getSeverityColor`: a badge class per severity, gray for anything
      else. */
  function SeverityColor(s: string): (r: string)
    ensures r == GrayBadge <==> s !in SeverityNames
  {
    if s == "mild" then "bg-green-100 text-green-800 border-green-200"
    else if s == "moderate" then "bg-yellow-100 text-yellow-800 border-yellow-200"
    else if s == "severe" then "bg-orange-100 text-orange-800 border-orange-200"
    else if s == "critical" then "bg-red-100 text-red-800 border-red-200"
    else GrayBadge
  }

  /** Different severities get different badges. */
  lemma SeverityColorsDistinct(i: nat, j: nat)
    requires i < j < |SeverityNames|
    ensures SeverityColor(SeverityNames[i]) != SeverityColor(SeverityNames[j])
  {
    var a, b := SeverityColor(SeverityNames[i]), SeverityColor(SeverityNames[j]);
    if |a| == |b| {
      assert i == 1 && j == 2;
      assert a == "bg-yellow-100 text-yellow-800 border-yellow-200";
      assert b == "bg-orange-100 text-orange-800 border-orange-200";
    }
  }

  /** The y-axis tick callback: the capitalised severity at 1..4, empty
      elsewhere. */
  function TickLabel(v: int): (r: string)
    ensures r == "" <==> !(1 <= v <= 4)
  {
    if v == 1 then "Mild"
    else if v == 2 then "Moderate"
    else if v == 3 then "Severe"
    else if v == 4 then "Critical"
    else ""
  }

  /** ASCII upper case of one character. */
  function Upper(c: char): char {
    if 'a' <= c <= 'z' then (c as int - 32) as char else c
  }

  /** A word with its first letter upper-cased. */
  function Capitalized(s: string): (r: string)
    ensures |r| == |s|
    ensures |s| > 0 ==> r[1..] == s[1..]
  {
    if s == [] then [] else [Upper(s[0])] + s[1..]
  }

  /** The axis labels the bar of every known severity with that severity's
      own name, capitalised: the tick callback undoes `getSeverityValue`. */
  lemma TickNamesSeverity(s: string)
    requires s in SeverityNames
    ensures TickLabel(SeverityValue(s)) == Capitalized(s)
  {
    if s == "mild" {
      assert Capitalized(s) == "Mild";
    } else if s == "moderate" {
      assert Capitalized(s) == "Moderate";
    } else if s == "severe" {
      assert Capitalized(s) == "Severe";
    } else {
      assert Capitalized(s) == "Critical";
    }
  }

  /** Every severity the extraction stage can attach to a symptom is one the
      chart plots above zero and badges in colour. */
  lemma ClassifiedSeverityIsCharted(caps: Capabilities, sym: Symptom)
    requires MedicalInfoExtractor.ClassifyOne(caps, sym).Success?
    ensures var c := MedicalInfoExtractor.ClassifyOne(caps, sym).value;
      && c.severity.Some?
      && 1 <= SeverityValue(c.severity.value) <= 4
      && SeverityColor(c.severity.value) != GrayBadge
      && TickLabel(SeverityValue(c.severity.value)) != ""
  {
    MedicalInfoExtractor.ClassifyOneMeaning(caps, sym);
  }
}
