/** `load_soltab_debug` of pynhm/utils/prms5util.py as the source writes it:
    one pass over the lines that updates the HRU index, the section key and
    the line count and appends to the per-HRU dictionaries, a check of every
    list's length, and the two result tables filled column by column. It is
    proved to compute LoadSoltab. */
module Prms5Util {
  import opened Wrappers
  import opened Text
  import opened SoltabDebug

  /** The loop after line `i` is the loop up to it and one step. */
  lemma ScanStep(lines: seq<string>, i: nat, st: ScanState)
    requires i < |lines| && ScanFrom(Initial, lines[..i]) == Ok(st)
    ensures ScanFrom(Initial, lines[..i + 1]) == Step(st, lines[i])
  {
    assert lines[..i + 1][..i] == lines[..i];
  }

  /** A failure after line `i` is the failure of the whole file. */
  lemma ScanStops(lines: seq<string>, i: nat, e: SoltabError)
    requires i < |lines| && ScanFrom(Initial, lines[..i + 1]) == Err(e)
    ensures Scan(lines) == Err(e)
  {
    ScanAppend(Initial, lines[..i + 1], lines[i + 1..]);
    assert lines[..i + 1] + lines[i + 1..] == lines;
  }

  /** One pass of the loop body on line `ll`, with the reader's variables
      given and returned as a state. */
  method ReadLine(st: ScanState, ll: string) returns (r: Result<ScanState, SoltabError>)
    ensures r == Step(st, ll)
  {
    var dataList, hruInd, key, accumCount := st.records, st.hruInd, st.key, st.accumCount;
    if StartsWith(ll, HruPrefix) {
      var n := HruIndex(ll);
      if n.Err? {
        return Err(n.error);
      }
      hruInd := Some(n.value);
      dataList := dataList + [map[]];
    } else if StartsWith(ll, SunhrsHeader) || StartsWith(ll, PotswHeader) {
      var k := if StartsWith(ll, SunhrsHeader) then SunhrsKey else PotswKey;
      key := Some(k);
      if hruInd.None? {
        return Err(UnboundLocal);
      }
      var j := PyIndex(|dataList|, hruInd.value);
      if j.None? {
        return Err(IndexOutOfRange);
      }
      dataList := dataList[j.value := dataList[j.value][k := []]];
      accumCount := Some(0);
    } else {
      if accumCount.None? {
        return Err(UnboundLocal);
      }
      accumCount := Some(accumCount.value + 1);
      if accumCount.value <= LinesPerSection {
        var strVals := DataValues(ll);
        if hruInd.None? {
          return Err(UnboundLocal);
        }
        var j := PyIndex(|dataList|, hruInd.value);
        if j.None? {
          return Err(IndexOutOfRange);
        }
        if key.None? {
          return Err(UnboundLocal);
        }
        var rec := dataList[j.value];
        if key.value !in rec {
          return Err(MissingKey);
        }
        if !Converts(strVals) {
          return Err(BadNumber);
        }
        dataList := dataList[j.value := rec[key.value := rec[key.value] + strVals]];
      }
    }
    return Ok(ScanState(dataList, hruInd, key, accumCount));
  }

  /** The loop over the lines: the per-HRU dictionaries it builds. */
  method ScanLines(lines: seq<string>) returns (r: Result<seq<HruRecord>, SoltabError>)
    ensures Scan(lines).Err? <==> r.Err?
    ensures r.Err? ==> r.error == Scan(lines).error
    ensures r.Ok? ==> r.value == Scan(lines).value.records
  {
    var st := Initial;
    for i := 0 to |lines|
      invariant ScanFrom(Initial, lines[..i]) == Ok(st)
    {
      var next := ReadLine(st, lines[i]);
      ScanStep(lines, i, st);
      if next.Err? {
        ScanStops(lines, i, next.error);
        return Err(next.error);
      }
      st := next.value;
    }
    assert lines[..|lines|] == lines;
    return Ok(st.records);
  }

  /** The length check after the loop: whether every list of every record
      holds one value per day. */
  method AllListsFull(dataList: seq<HruRecord>) returns (ok: bool)
    ensures ok == AllFullYears(dataList)
  {
    for h := 0 to |dataList|
      invariant forall h', k :: 0 <= h' < h && k in dataList[h'] ==> |dataList[h'][k]| == DaysPerYear
    {
      var keys := dataList[h].Keys;
      while keys != {}
        invariant keys <= dataList[h].Keys
        invariant forall k :: k in dataList[h] && k !in keys ==> |dataList[h][k]| == DaysPerYear
        decreases |keys|
      {
        var k :| k in keys;
        if |dataList[h][k]| != DaysPerYear {
          return false;
        }
        keys := keys - {k};
      }
    }
    return true;
  }

  /** Filling the two tables column by column from the records' lists. */
  method FillTables(dataList: seq<HruRecord>) returns (r: Result<(array2<string>, array2<string>), SoltabError>)
    requires AllFullYears(dataList)
    ensures r.Ok? <==> HasBothSections(dataList)
    ensures r.Err? ==> r.error == MissingKey
    ensures r.Ok? ==>
      var (potentialSwRad, sunHrs) := r.value;
      && fresh(potentialSwRad) && fresh(sunHrs)
      && potentialSwRad.Length0 == DaysPerYear && sunHrs.Length0 == DaysPerYear
      && potentialSwRad.Length1 == |dataList| && sunHrs.Length1 == |dataList|
      && (forall d, h :: 0 <= d < DaysPerYear && 0 <= h < |dataList| ==>
            potentialSwRad[d, h] == dataList[h][PotswKey][d] && sunHrs[d, h] == dataList[h][SunhrsKey][d])
  {
    var nHru := |dataList|;
    var potentialSwRad := new string[DaysPerYear, nHru];
    var sunHrs := new string[DaysPerYear, nHru];
    for hh := 0 to nHru
      invariant forall h :: 0 <= h < hh ==> PotswKey in dataList[h] && SunhrsKey in dataList[h]
      invariant forall d, h :: 0 <= d < DaysPerYear && 0 <= h < hh ==>
        potentialSwRad[d, h] == dataList[h][PotswKey][d] && sunHrs[d, h] == dataList[h][SunhrsKey][d]
    {
      if PotswKey !in dataList[hh] || SunhrsKey !in dataList[hh] {
        return Err(MissingKey);
      }
      var potsw := dataList[hh][PotswKey];
      var sunhrs := dataList[hh][SunhrsKey];
      for d := 0 to DaysPerYear
        invariant forall d', h :: 0 <= d' < DaysPerYear && 0 <= h < hh ==>
          potentialSwRad[d', h] == dataList[h][PotswKey][d'] && sunHrs[d', h] == dataList[h][SunhrsKey][d']
        invariant forall d' :: 0 <= d' < d ==> potentialSwRad[d', hh] == potsw[d'] && sunHrs[d', hh] == sunhrs[d']
      {
        potentialSwRad[d, hh] := potsw[d];
        sunHrs[d, hh] := sunhrs[d];
      }
    }
    return Ok((potentialSwRad, sunHrs));
  }

  /** `load_soltab_debug`: the two tables, potential solar radiation and
      hours of sun, with one row per day of the year and one column per HRU
      line. */
  method LoadSoltabDebug(lines: seq<string>) returns (r: Result<(array2<string>, array2<string>), SoltabError>)
    ensures LoadSoltab(lines).Err? <==> r.Err?
    ensures r.Err? ==> r.error == LoadSoltab(lines).error
    ensures r.Ok? ==>
      var (potentialSwRad, sunHrs) := r.value;
      var t := LoadSoltab(lines).value;
      && fresh(potentialSwRad) && fresh(sunHrs)
      && potentialSwRad.Length0 == DaysPerYear && sunHrs.Length0 == DaysPerYear
      && potentialSwRad.Length1 == CountHru(lines) && sunHrs.Length1 == CountHru(lines)
      && (forall d, h :: 0 <= d < DaysPerYear && 0 <= h < CountHru(lines) ==>
            && d < |t.potentialSwRad| && h < |t.potentialSwRad[d]| && potentialSwRad[d, h] == t.potentialSwRad[d][h]
            && d < |t.sunHrs| && h < |t.sunHrs[d]| && sunHrs[d, h] == t.sunHrs[d][h])
  {
    ScanRecords(lines);
    var scanned := ScanLines(lines);
    if scanned.Err? {
      return Err(scanned.error);
    }
    var full := AllListsFull(scanned.value);
    if !full {
      return Err(WrongLength);
    }
    r := FillTables(scanned.value);
  }
}
