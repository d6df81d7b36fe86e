/** Band-condition grades from the solar report: which report range a band
    falls in, the lookup of its day or night grade, and the loop that
    collects the grades from the report's band elements. */
module Solar {
  import opened Common

  /** The report range that covers a band, or None for a band the report
      does not grade. */
  function BandRange(bandName: string): (r: Option<string>)
    ensures r.Some? <==> bandName in {"80m", "40m", "30m", "20m", "17m", "15m", "12m", "10m"}
    ensures r.Some? ==> r.value in {"80m-40m", "30m-20m", "17m-15m", "12m-10m"}
  {
    match bandName
    case "80m" => Some("80m-40m")
    case "40m" => Some("80m-40m")
    case "30m" => Some("30m-20m")
    case "20m" => Some("30m-20m")
    case "17m" => Some("17m-15m")
    case "15m" => Some("17m-15m")
    case "12m" => Some("12m-10m")
    case "10m" => Some("12m-10m")
    case _ => None
  }

  /** The day and night grade tables, each keyed by report range; a table
      the report lacks is None. */
  datatype BandConditions = BandConditions(day: Option<map<string, string>>, night: Option<map<string, string>>)

  /** The part of the solar report the classifier reads. */
  datatype SolarData = SolarData(bandConditions: Option<BandConditions>)

  /** The grade of `bandName` in the day or night table, or None when the
      report, its tables, the range or the grade is missing or empty. */
  function GetBandCondition(solarData: Option<SolarData>, bandName: string, isDaytime: bool): (r: Option<string>)
    ensures solarData.None? || solarData.value.bandConditions.None? ==> r.None?
    ensures BandRange(bandName).None? ==> r.None?
    ensures r.Some? <==>
      solarData.Some? && solarData.value.bandConditions.Some? && BandRange(bandName).Some? &&
      var bc := solarData.value.bandConditions.value;
      var table := if isDaytime then bc.day else bc.night;
      table.Some? && BandRange(bandName).value in table.value && table.value[BandRange(bandName).value] != ""
    ensures r.Some? ==> (
      var bc := solarData.value.bandConditions.value;
      r.value != "" && r.value == (if isDaytime then bc.day else bc.night).value[BandRange(bandName).value])
  {
    if solarData.None? || solarData.value.bandConditions.None? then None
    else
      var rangeKey := BandRange(bandName);
      if rangeKey.None? then None
      else
        var bc := solarData.value.bandConditions.value;
        var conditions := if isDaytime then bc.day else bc.night;
        if conditions.Some? && rangeKey.value in conditions.value && conditions.value[rangeKey.value] != ""
        then Some(conditions.value[rangeKey.value])
        else None
  }

  /** Two bands the report grades together always get the same answer. */
  lemma {:induction false} SharedRangeSameCondition(solarData: Option<SolarData>, a: string, b: string, isDaytime: bool)
    requires BandRange(a) == BandRange(b)
    ensures GetBandCondition(solarData, a, isDaytime) == GetBandCondition(solarData, b, isDaytime)
  {
  }

  /** A `<band>` element of the report: its `name` and `time` attributes
      (None when absent) and its text. */
  datatype BandElement = BandElement(name: Option<string>, time: Option<string>, text: string)

  /** Whether the loop records `e` in the table for `time`. */
  predicate Records(e: BandElement, time: string)
  {
    Truthy(e.name) && Truthy(e.time) && e.text != "" && e.time.value == time && time in {"day", "night"}
  }

  /** The table for `time` after the loop has seen `es`: each element
      recorded for that time overwrites the grade under its name. */
  ghost function Conditions(es: seq<BandElement>, time: string): map<string, string>
  {
    if es == [] then map[]
    else
      var m := Conditions(es[..|es| - 1], time);
      var e := es[|es| - 1];
      if Records(e, time) then m[e.name.value := e.text] else m
  }

  /** The grade-collection loop over the report's band elements. */
  method CollectBandConditions(elements: seq<BandElement>) returns (day: map<string, string>, night: map<string, string>)
    ensures day == Conditions(elements, "day")
    ensures night == Conditions(elements, "night")
  {
    day, night := map[], map[];
    for i := 0 to |elements|
      invariant day == Conditions(elements[..i], "day")
      invariant night == Conditions(elements[..i], "night")
    {
      var e := elements[i];
      assert elements[..i + 1][..i] == elements[..i];
      if Truthy(e.name) && Truthy(e.time) && e.text != "" {
        if e.time.value == "day" {
          day := day[e.name.value := e.text];
        } else if e.time.value == "night" {
          night := night[e.name.value := e.text];
        }
      }
    }
    assert elements[..|elements|] == elements;
  }

  /** One more element: it overwrites the grade under its name when it is
      recorded, and every other name keeps its grade. */
  lemma ConditionsSnoc(es: seq<BandElement>, time: string, name: string)
    requires es != []
    ensures var init, e := es[..|es| - 1], es[|es| - 1];
      if Records(e, time) && e.name.value == name then
        name in Conditions(es, time) && Conditions(es, time)[name] == e.text
      else
        (name in Conditions(es, time) <==> name in Conditions(init, time)) &&
        (name in Conditions(es, time) ==> Conditions(es, time)[name] == Conditions(init, time)[name])
  {
  }

  /** A name is in a table exactly when some element was recorded under it
      for that time, and its grade is the text of the last such element. */
  lemma {:induction false} ConditionsLastWriter(es: seq<BandElement>, time: string, name: string)
    ensures name in Conditions(es, time) <==>
      exists i :: 0 <= i < |es| && Records(es[i], time) && es[i].name.value == name
    ensures name in Conditions(es, time) ==>
      exists i :: 0 <= i < |es| && Records(es[i], time) && es[i].name.value == name &&
        Conditions(es, time)[name] == es[i].text &&
        forall j :: i < j < |es| ==> !(Records(es[j], time) && es[j].name.value == name)
  {
    if es != [] {
      var init := es[..|es| - 1];
      var e := es[|es| - 1];
      ConditionsLastWriter(init, time, name);
      ConditionsSnoc(es, time, name);
      if Records(e, time) && e.name.value == name {
        var i := |es| - 1;
        assert Records(es[i], time) && es[i].name.value == name && Conditions(es, time)[name] == es[i].text;
      } else if name in Conditions(init, time) {
        var i :| 0 <= i < |init| && Records(init[i], time) && init[i].name.value == name &&
          Conditions(init, time)[name] == init[i].text &&
          forall j :: i < j < |init| ==> !(Records(init[j], time) && init[j].name.value == name);
        assert es[i] == init[i];
        forall j | i < j < |es|
          ensures !(Records(es[j], time) && es[j].name.value == name)
        {
          if j < |init| { assert es[j] == init[j]; }
        }
      } else {
        forall i | 0 <= i < |es|
          ensures !(Records(es[i], time) && es[i].name.value == name)
        {
          if i < |init| { assert es[i] == init[i]; }
        }
      }
    }
  }

  /** Elements with another time, an empty attribute or empty text leave a
      table as it was. */
  lemma {:induction false} ConditionsIgnores(es: seq<BandElement>, e: BandElement, time: string)
    requires !Records(e, time)
    ensures Conditions(es + [e], time) == Conditions(es, time)
  {
    assert (es + [e])[..|es + [e]| - 1] == es;
  }
}
