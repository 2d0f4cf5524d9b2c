/** The parameter reader of pynhm/utils/parameters.py as the source writes
    it: one cursor (`lineNum`, the number of lines consumed) moved forward
    line by line through the dimension section and then the parameter
    section, dictionaries updated in place, and the `PrmsParameters` object
    that holds the four dictionaries. Every method is proved to compute the
    functions of module PrmsParameterFile, whose properties are proved
    there. */
module Parameters {
  import opened Wrappers
  import opened Text
  import opened PrmsParameterFile

  /** The `n` dimension names of a record, one per line from line `start`,
      collected in a fresh array. */
  method ReadDimensionNames(lines: seq<string>, start: nat, n: nat) returns (names: seq<string>)
    ensures names == LinesFrom(lines, start, n)
  {
    var pd := new string[n];
    var lineNum := start;
    for ii := 0 to n
      invariant lineNum == start + ii
      invariant pd[..ii] == LinesFrom(lines, start, ii)
    {
      pd[ii] := LineAt(lines, lineNum);
      lineNum := lineNum + 1;
      assert pd[..ii + 1] == pd[..ii] + [pd[ii]];
    }
    assert pd[..] == pd[..n];
    return pd[..];
  }

  /** The lines that open a parameter record, read with the cursor on its
      name line: the name (up to the first space), the dimension count, that
      many dimension names, the value count and the type code. */
  method ReadParameterHeader(lines: seq<string>, p: nat) returns (r: Result<Header, ParseError>)
    ensures r == ReadHeader(lines, p)
  {
    var lineNum := p;
    var line := LineAt(lines, lineNum);
    var paramName := SplitName(line);
    lineNum := lineNum + 1;

    line := LineAt(lines, lineNum);
    lineNum := lineNum + 1;
    var numDims := ParseInt(line);
    if numDims.None? {
      return Err(ParseError(lineNum, None));
    }
    var pd := ReadDimensionNames(lines, lineNum, if numDims.value < 0 then 0 else numDims.value);
    lineNum := lineNum + |pd|;
    assert ReadHeader(lines, p) == HeaderAfterCount(lines, p, numDims.value);
    assert lineNum == p + 2 + (if numDims.value < 0 then 0 else numDims.value);

    line := LineAt(lines, lineNum);
    lineNum := lineNum + 1;
    var numVals := ParseInt(line);
    if numVals.None? {
      return Err(ParseError(lineNum, None));
    }
    line := LineAt(lines, lineNum);
    lineNum := lineNum + 1;
    var tp := ParseInt(line);
    if tp.None? {
      return Err(ParseError(lineNum, None));
    }
    return Ok(Header(paramName, pd, numVals.value, tp.value));
  }

  /** The values of a record, read from line `start` into a fresh array of
      the header's count, then shaped (size of the second dimension, size of
      the first) when the record names two dimensions. */
  method ReadParameterValues(lines: seq<string>, start: nat, h: Header, dims: map<string, int>)
    returns (r: Result<(Record, nat), ParseError>)
    ensures r == ReadBody(lines, start, h, dims)
  {
    if h.numVals < 0 {
      // numpy refuses an array of negative size
      return Err(ParseError(start, None));
    }
    var vs := new Value[h.numVals];
    var lineNum := start;
    for jj := 0 to vs.Length
      invariant lineNum == start + jj
      invariant ConvertValues(lines, start, jj, h.typeCode) == Ok(vs[..jj])
    {
      var line := LineAt(lines, lineNum);
      lineNum := lineNum + 1;
      var v := Convert(line, h.typeCode);
      if v.None? {
        assert ConvertValues(lines, start, jj + 1, h.typeCode) == Err(lineNum);
        ConvertValuesErrorPersists(lines, start, jj + 1, h.numVals, h.typeCode, lineNum);
        return Err(ParseError(lineNum, None));
      }
      vs[jj] := v.value;
      assert vs[..jj + 1] == vs[..jj] + [vs[jj]];
    }
    assert vs[..] == vs[..vs.Length];

    var shape := Flat;
    if |h.dimNames| == 2 {
      if !(h.dimNames[1] in dims && h.dimNames[0] in dims) {
        // a dimension the file never declared: KeyError
        return Err(ParseError(lineNum, None));
      }
      var s := Reshape(h.numVals, dims[h.dimNames[1]], dims[h.dimNames[0]]);
      if s.None? {
        return Err(ParseError(lineNum, None));
      }
      shape := s.value;
    }
    return Ok((Record(h.name, h.dimNames, h.typeCode, ParamArray(shape, vs[..])), lineNum));
  }

  /** One parameter record, read with the cursor on its name line. */
  method ReadParameter(lines: seq<string>, p: nat, dims: map<string, int>)
    returns (r: Result<(Record, nat), ParseError>)
    ensures r == ReadRecord(lines, p, dims)
  {
    var h := ReadParameterHeader(lines, p);
    if h.Err? {
      return Err(h.error);
    }
    r := ReadParameterValues(lines, p + 4 + |h.value.dimNames|, h.value, dims);
  }

  /** The dimension section: from the start of the file to the line after
      the Parameters marker, or to the end of the file. Yields the sizes and
      the number of lines consumed. */
  method ReadDimensions(lines: seq<string>) returns (r: Result<(map<string, int>, nat), ParseError>)
    ensures r == DimsPhase(lines, 0, map[], false)
  {
    var lineNum: nat := 0;
    var dims: map<string, int> := map[];
    var readingDims := false;
    var done := false;
    while !done && lineNum < |lines|
      invariant !done ==> DimsPhase(lines, lineNum, dims, readingDims) == DimsPhase(lines, 0, map[], false)
      invariant done ==> DimsPhase(lines, 0, map[], false) == Ok((dims, lineNum))
      decreases !done, Remaining(lines, lineNum)
    {
      ghost var pos, dims0, reading0 := lineNum, dims, readingDims;
      var line := lines[lineNum];
      lineNum := lineNum + 1;
      if line == DimensionsMarker {
        readingDims := true;
        line := LineAt(lines, lineNum);
        lineNum := lineNum + 1;
      }
      if line == ParametersMarker {
        readingDims := false;
        done := true;
      } else if readingDims {
        var dimName := LineAt(lines, lineNum);
        lineNum := lineNum + 1;
        var size := LineAt(lines, lineNum);
        lineNum := lineNum + 1;
        var step := AddDimension(dims, dimName, size, lineNum);
        assert DimsPhase(lines, pos, dims0, reading0) ==
          match step
          case Err(e) => Err(e)
          case Ok(dims') => DimsPhase(lines, lineNum, dims', true);
        if step.Err? {
          return Err(step.error);
        }
        dims := step.value;
      }
    }
    return Ok((dims, lineNum));
  }

  /** `_load_prms_parameters`: the dimension section, then every record of
      the parameter section. A record whose name was seen before keeps the
      earlier values and is reported; its dimension names and type code
      replace the earlier ones. */
  method LoadPrmsParameters(lines: seq<string>) returns (r: Result<Loaded, ParseError>)
    ensures r == Load(lines)
    ensures r.Ok? ==> Consistent(r.value.tables)
  {
    LoadConsistent(lines);
    var d := ReadDimensions(lines);
    if d.Err? {
      return Err(d.error);
    }
    var (dims, pos) := d.value;
    var lineNum := pos;
    var vals: map<string, ParamArray> := map[];
    var paramDims: map<string, seq<string>> := map[];
    var paramType: map<string, int> := map[];
    var notices: seq<string> := [];
    while lineNum < |lines|
      invariant ParamsPhase(lines, lineNum, dims, Acc(vals, paramDims, paramType, notices))
             == ParamsPhase(lines, pos, dims, EmptyAcc)
      decreases Remaining(lines, lineNum)
    {
      ghost var acc := Acc(vals, paramDims, paramType, notices);
      ghost var at := lineNum;
      var line := lines[lineNum];
      lineNum := lineNum + 1;
      if line == RecordMarker {
        var rr := ReadParameter(lines, lineNum, dims);
        if rr.Err? {
          return Err(rr.error);
        }
        var (rec, next) := rr.value;
        assert ParamsPhase(lines, at, dims, acc) == ParamsPhase(lines, next, dims, Store(acc, rec));
        paramDims := paramDims[rec.name := rec.dimNames];
        paramType := paramType[rec.name := rec.typeCode];
        if rec.name in vals {
          notices := notices + [rec.name];
        } else {
          vals := vals[rec.name := rec.data];
        }
        lineNum := next;
      }
    }
    return Ok(Loaded(Tables(dims, vals, paramDims, paramType), notices));
  }

  /** `PrmsParameters`: the four dictionaries of one parameter file. */
  class PrmsParameters {
    const dimensions: map<string, int>
    const parameterData: map<string, ParamArray>
    const parameterDimensions: map<string, seq<string>>
    const parameterTypes: map<string, int>

    /** The dictionaries agree on the parameter names, and every array is
        well shaped and of one kind. */
    ghost predicate Valid()
    {
      Consistent(Tables(dimensions, parameterData, parameterDimensions, parameterTypes))
    }

    constructor (t: Tables)
      requires Consistent(t)
      ensures dimensions == t.dimensions && parameterData == t.parameterData
      ensures parameterDimensions == t.parameterDimensions && parameterTypes == t.parameterTypes
      ensures Valid()
    {
      dimensions := t.dimensions;
      parameterData := t.parameterData;
      parameterDimensions := t.parameterDimensions;
      parameterTypes := t.parameterTypes;
    }

    /** The declared dimension sizes. */
    function GetDimensions(): (r: map<string, int>)
      ensures r == dimensions
    {
      dimensions
    }

    /** The parameter arrays: every one of them is well shaped and of one
        kind, and they are named exactly as the parameter dimensions. */
    function GetParameterData(): (r: map<string, ParamArray>)
      requires Valid()
      ensures r.Keys == parameterDimensions.Keys
      ensures forall name :: name in r ==> WellShaped(r[name]) && Homogeneous(r[name])
    {
      parameterData
    }

    /** The dimension names of every parameter, named exactly as the
        parameter types. */
    function GetParameterDimensions(): (r: map<string, seq<string>>)
      requires Valid()
      ensures r.Keys == parameterTypes.Keys
    {
      parameterDimensions
    }

    /** The type code of every parameter, named exactly as the parameter
        arrays. */
    function GetParameterTypes(): (r: map<string, int>)
      requires Valid()
      ensures r.Keys == parameterData.Keys
    {
      parameterTypes
    }
  }

  /** `PrmsParameters(parameter_file)`: the object holding what the reader
      returned, or the reader's error. */
  method NewPrmsParameters(lines: seq<string>) returns (r: Result<PrmsParameters, ParseError>)
    ensures Load(lines).Err? <==> r.Err?
    ensures r.Err? ==> r.error == Load(lines).error
    ensures r.Ok? ==> fresh(r.value) && r.value.Valid()
    ensures r.Ok? ==>
      var t := Load(lines).value.tables;
      && r.value.GetDimensions() == t.dimensions
      && r.value.parameterData == t.parameterData
      && r.value.parameterDimensions == t.parameterDimensions
      && r.value.parameterTypes == t.parameterTypes
  {
    var loaded := LoadPrmsParameters(lines);
    if loaded.Err? {
      return Err(loaded.error);
    }
    var p := new PrmsParameters(loaded.value.tables);
    return Ok(p);
  }
}
