/** `transformToDocuments` of server/urdb.js: every Utility Rate Database record becomes one
    document whose text lists the record's fields line by line. */
module Urdb {
  import opened Wrappers
  import opened Strings
  import opened Json
  import opened Messages

  /** A rate record. A field that is `undefined` is `None`. The text fields hold strings; the
      numeric fields tested with `!== undefined` hold the text a template literal renders them
      as (`0` renders as "0", `null` as "null"). `flatdemandstructure` is any JSON value; `recordLabel` is the field `label`. */
  datatype Record = Record(
    utility: Option<string>,
    name: Option<string>,
    sector: Option<string>,
    description: Option<string>,
    basicInformationComments: Option<string>,
    uri: Option<string>,
    peakKwCapacityMin: Option<string>,
    peakKwCapacityMax: Option<string>,
    fixedMonthlyCharge: Option<string>,
    minMonthlyCharge: Option<string>,
    annualMinCharge: Option<string>,
    voltageMinimum: Option<string>,
    voltageMaximum: Option<string>,
    flatDemandUnit: Option<string>,
    flatDemandStructure: Option<Json>,
    recordLabel: Option<string>)

  /** A string field is truthy when it is present and not empty. */
  predicate Truthy(o: Option<string>) {
    o.Some? && o.value != ""
  }

  /** `field || fallback`. */
  function Or(o: Option<string>, fallback: string): string {
    if Truthy(o) then o.value else fallback
  }

  /** A line for a field tested with `!== undefined`. */
  function DefinedLine(caption: string, o: Option<string>): string {
    if o.Some? then caption + o.value else ""
  }

  const MetadataSource := "URDB"
  const UnknownId := "unknown_id"

  function UtilityText(r: Record): string { Or(r.utility, "Unknown Utility") }
  function NameText(r: Record): string { Or(r.name, "No Name Provided") }
  function SectorText(r: Record): string { Or(r.sector, "N/A") }
  function DescriptionText(r: Record): string { Or(r.description, "No Description available.") }
  function UriText(r: Record): string { Or(r.uri, "No URI provided") }

  /** The fifteen candidate lines, in the order the source lists them: the four head lines, the
      ten optional ones (empty when their test fails) and the URI line. */
  function Components(r: Record, stringify: Json -> string): (c: seq<string>)
    ensures |c| == 15 && c[..4] == HeadLines(r) && c[14] == UriLine(r)
  {
    [ "Utility: " + UtilityText(r),
      "Name: " + NameText(r),
      "Sector: " + SectorText(r),
      "Description: " + DescriptionText(r) ] +
    OptionalComponentsOf(r, stringify) +
    [ "URI: " + UriText(r) ]
  }

  /** The ten candidate lines between the description and the URI. */
  function OptionalComponentsOf(r: Record, stringify: Json -> string): seq<string> {
    var basicInfo := Or(r.basicInformationComments, "");
    var flatDemandUnit := if Truthy(r.flatDemandUnit) then "Flat Demand Unit: " + r.flatDemandUnit.value else "";
    var flatDemandStructureSummary :=
      if r.flatDemandStructure.Some? && r.flatDemandStructure.value.JArray? && |r.flatDemandStructure.value.items| > 0
      then "Flat Demand Structure (first period): " + stringify(r.flatDemandStructure.value.items[0])
      else "";
    [ if basicInfo == "" then "" else "Basic Info: " + basicInfo,
      DefinedLine("Peak kW Min: ", r.peakKwCapacityMin),
      DefinedLine("Peak kW Max: ", r.peakKwCapacityMax),
      DefinedLine("Fixed Monthly Charge: ", r.fixedMonthlyCharge),
      DefinedLine("Min Monthly Charge: ", r.minMonthlyCharge),
      DefinedLine("Annual Min Charge: ", r.annualMinCharge),
      DefinedLine("Voltage Minimum: ", r.voltageMinimum),
      DefinedLine("Voltage Maximum: ", r.voltageMaximum),
      flatDemandUnit,
      flatDemandStructureSummary ]
  }

  /** `filter(Boolean)` on strings: drop the empty ones, keep the rest in order. */
  function NonEmpty(s: seq<string>): (r: seq<string>)
    ensures forall i :: 0 <= i < |r| ==> r[i] != ""
    ensures forall x :: x in r <==> x in s && x != ""
    decreases |s|
  {
    if |s| == 0 then [] else (if s[0] == "" then [] else [s[0]]) + NonEmpty(s[1..])
  }

  lemma {:induction false} NonEmptyAppend(a: seq<string>, b: seq<string>)
    ensures NonEmpty(a + b) == NonEmpty(a) + NonEmpty(b)
    decreases |a|
  {
    if |a| > 0 {
      assert (a + b)[1..] == a[1..] + b;
      NonEmptyAppend(a[1..], b);
    } else {
      assert a + b == b;
    }
  }

  /** The lines of a record's text. */
  function Lines(r: Record, stringify: Json -> string): (l: seq<string>)
    ensures forall i :: 0 <= i < |l| ==> l[i] != ""
    ensures forall x {:trigger x in l} :: x in l <==> x in Components(r, stringify) && x != ""
    ensures |l| > 0 && l[0] == "Utility: " + UtilityText(r)
  {
    NonEmpty(Components(r, stringify))
  }

  /** A record's text: its lines joined by newlines. */
  function PageContent(r: Record, stringify: Json -> string): (p: string)
    ensures StartsWith(p, "Utility: " + UtilityText(r))
  {
    JoinStartsWithFirst(Lines(r, stringify), "\n");
    Join(Lines(r, stringify), "\n")
  }

  /** The document for one record. */
  function TransformRecord(r: Record, stringify: Json -> string): (d: Document)
    ensures d.metadata.source == "URDB"
    ensures d.metadata.id == if Truthy(r.recordLabel) then r.recordLabel.value else "unknown_id"
    ensures d.pageContent == PageContent(r, stringify)
  {
    Document(PageContent(r, stringify), Metadata(MetadataSource, Or(r.recordLabel, UnknownId)))
  }

  /** `transformToDocuments`: one document per record, in the records' order. */
  function TransformToDocuments(data: seq<Record>, stringify: Json -> string): (docs: seq<Document>)
    ensures |docs| == |data|
    ensures forall i :: 0 <= i < |data| ==> docs[i] == TransformRecord(data[i], stringify)
    ensures forall i :: 0 <= i < |docs| ==> docs[i].metadata.source == "URDB"
  {
    seq(|data|, i requires 0 <= i < |data| => TransformRecord(data[i], stringify))
  }

  // ---------------------------------------------------------------------------
  // An independent description of the lines

  /** The four lines every record's text opens with, defaults filled in. */
  function HeadLines(r: Record): seq<string> {
    [ "Utility: " + (if Truthy(r.utility) then r.utility.value else "Unknown Utility"),
      "Name: " + (if Truthy(r.name) then r.name.value else "No Name Provided"),
      "Sector: " + (if Truthy(r.sector) then r.sector.value else "N/A"),
      "Description: " + (if Truthy(r.description) then r.description.value else "No Description available.") ]
  }

  /** The line every record's text closes with. */
  function UriLine(r: Record): string {
    "URI: " + (if Truthy(r.uri) then r.uri.value else "No URI provided")
  }

  /** The ten optional lines, each `Some` exactly when the source's test for it passes:
      basic information, the flat-demand unit when truthy; the capacity, charge and voltage
      fields when not `undefined`; the flat-demand summary when the field is a non-empty array,
      shown through its first element only. */
  function OptionalLine(r: Record, stringify: Json -> string, k: nat): Option<string>
    requires k < 10
  {
    match k
    case 0 => if Truthy(r.basicInformationComments) then Some("Basic Info: " + r.basicInformationComments.value) else None
    case 1 => if r.peakKwCapacityMin.Some? then Some("Peak kW Min: " + r.peakKwCapacityMin.value) else None
    case 2 => if r.peakKwCapacityMax.Some? then Some("Peak kW Max: " + r.peakKwCapacityMax.value) else None
    case 3 => if r.fixedMonthlyCharge.Some? then Some("Fixed Monthly Charge: " + r.fixedMonthlyCharge.value) else None
    case 4 => if r.minMonthlyCharge.Some? then Some("Min Monthly Charge: " + r.minMonthlyCharge.value) else None
    case 5 => if r.annualMinCharge.Some? then Some("Annual Min Charge: " + r.annualMinCharge.value) else None
    case 6 => if r.voltageMinimum.Some? then Some("Voltage Minimum: " + r.voltageMinimum.value) else None
    case 7 => if r.voltageMaximum.Some? then Some("Voltage Maximum: " + r.voltageMaximum.value) else None
    case 8 => if Truthy(r.flatDemandUnit) then Some("Flat Demand Unit: " + r.flatDemandUnit.value) else None
    case _ =>
      match r.flatDemandStructure
      case Some(JArray(items)) =>
        if |items| > 0 then Some("Flat Demand Structure (first period): " + stringify(items[0])) else None
      case _ => None
  }

  /** The optional lines from index `k` on that are present, in order. */
  function PresentLines(r: Record, stringify: Json -> string, k: nat): seq<string>
    requires k <= 10
    decreases 10 - k
  {
    if k == 10 then []
    else (match OptionalLine(r, stringify, k) case Some(l) => [l] case None => []) + PresentLines(r, stringify, k + 1)
  }

  /** The lines of a record are its four head lines, then exactly the optional lines whose
      test passes, in the fixed order, then the URI line; none of them is empty. */
  lemma LinesLayout(r: Record, stringify: Json -> string)
    ensures Lines(r, stringify) == HeadLines(r) + PresentLines(r, stringify, 0) + [UriLine(r)]
    ensures forall i :: 0 <= i < |Lines(r, stringify)| ==> Lines(r, stringify)[i] != ""
  {
    var opt := OptionalComponentsOf(r, stringify);
    assert Components(r, stringify) == HeadLines(r) + opt + [UriLine(r)];
    NonEmptyAppend(HeadLines(r) + opt, [UriLine(r)]);
    NonEmptyAppend(HeadLines(r), opt);
    HeadAndUriKept(r);
    OptionalComponents(r, stringify, 0);
  }

  /** The head lines and the URI line are never empty, so the filter keeps them. */
  lemma HeadAndUriKept(r: Record)
    ensures NonEmpty(HeadLines(r)) == HeadLines(r)
    ensures NonEmpty([UriLine(r)]) == [UriLine(r)]
  {
    NonEmptyKeepsAll(HeadLines(r));
    NonEmptyKeepsAll([UriLine(r)]);
  }

  lemma {:induction false} NonEmptyKeepsAll(s: seq<string>)
    requires forall i :: 0 <= i < |s| ==> s[i] != ""
    ensures NonEmpty(s) == s
    decreases |s|
  {
    if |s| > 0 {
      NonEmptyKeepsAll(s[1..]);
    }
  }

  /** Optional component k is optional line k, or empty when that line is absent. */
  lemma ComponentIsOptionalLine(r: Record, stringify: Json -> string, k: nat)
    requires k < 10
    ensures var o := OptionalLine(r, stringify, k);
      NonEmpty([OptionalComponentsOf(r, stringify)[k]]) == (match o case Some(l) => [l] case None => [])
  {
    var o := OptionalLine(r, stringify, k);
    assert o.Some? ==> |o.value| > 0;
    var line := OptionalComponentsOf(r, stringify)[k];
    assert line == (match o case Some(l) => l case None => "");
    assert [line][1..] == [];
  }

  /** The optional components from position k on keep exactly the present optional lines. */
  lemma {:induction false} OptionalComponents(r: Record, stringify: Json -> string, k: nat)
    requires k <= 10
    ensures NonEmpty(OptionalComponentsOf(r, stringify)[k..]) == PresentLines(r, stringify, k)
    decreases 10 - k
  {
    var c := OptionalComponentsOf(r, stringify);
    if k < 10 {
      assert c[k..] == [c[k]] + c[k + 1..];
      NonEmptyAppend([c[k]], c[k + 1..]);
      OptionalComponents(r, stringify, k + 1);
      ComponentIsOptionalLine(r, stringify, k);
    } else {
      assert c[10..] == [];
    }
  }

  /** A record's text opens with the Utility, Name, Sector and Description lines, in that order,
      and closes with the URI line; between them stand the present optional lines, each on its own
      line. */
  lemma PageContentLayout(r: Record, stringify: Json -> string)
    ensures var opt := PresentLines(r, stringify, 0);
      PageContent(r, stringify) ==
        Join(HeadLines(r), "\n") + "\n" +
        (if |opt| == 0 then "" else Join(opt, "\n") + "\n") +
        UriLine(r)
  {
    LinesLayout(r, stringify);
    var opt := PresentLines(r, stringify, 0);
    var h := HeadLines(r);
    if |opt| == 0 {
      assert Lines(r, stringify) == h + [UriLine(r)];
      JoinAppend(h, [UriLine(r)], "\n");
    } else {
      assert Lines(r, stringify) == h + (opt + [UriLine(r)]);
      JoinAppend(h, opt + [UriLine(r)], "\n");
      JoinAppend(opt, [UriLine(r)], "\n");
    }
  }

  /** A field tested with `!== undefined` yields its line even when its value renders as "0". */
  lemma ZeroStillShown(r: Record, stringify: Json -> string)
    requires r.peakKwCapacityMin == Some("0")
    ensures "Peak kW Min: 0" in Lines(r, stringify)
  {
    LinesLayout(r, stringify);
    assert OptionalComponentsOf(r, stringify)[1] == "Peak kW Min: 0";
  }
}
