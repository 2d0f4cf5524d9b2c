/** The PRMS parameter-file reader of pynhm/utils/parameters.py stated as
    functions over the file's lines (each line already right-stripped): the
    dimension phase, one parameter record, the parameter phase and the whole
    load, with the properties the reader promises proved about them. The
    imperative reader in module Parameters is proved equal to `Load`. */
module PrmsParameterFile {
  import opened Wrappers
  import opened Text

  const DimensionsMarker := "** Dimensions **"
  const ParametersMarker := "** Parameters **"
  const RecordMarker := "####"

  /** Type codes of a parameter record; every other code means text. */
  const IntegerType := 1
  const FloatType := 2

  /** The range of numpy's default integer dtype, which holds type-1 values. */
  const Int64Min := -0x8000_0000_0000_0000
  const Int64Max := 0x7FFF_FFFF_FFFF_FFFF

  /** One element of a parameter array. Floating-point values are kept as the
      text they were read from. */
  datatype Value = IntVal(i: int) | FloatVal(text: string) | StrVal(text: string)

  /** A numpy shape: one-dimensional, or `rows` by `cols`. */
  datatype Shape = Flat | Grid(rows: nat, cols: nat)

  datatype ParamArray = ParamArray(shape: Shape, elems: seq<Value>)

  /** The four dictionaries the reader returns. */
  datatype Tables = Tables(
    dimensions: map<string, int>,
    parameterData: map<string, ParamArray>,
    parameterDimensions: map<string, seq<string>>,
    parameterTypes: map<string, int>)

  /** A successful load: the tables and, in order, the names of the repeated
      parameters the reader reported. */
  datatype Loaded = Loaded(tables: Tables, notices: seq<string>)

  /** The `ValueError` the reader raises: the line number reached, and, in the
      dimension phase only, the text of the offending line. */
  datatype ParseError = ParseError(lineNum: nat, line: Option<string>)

  /** How far the cursor still is from the end of the file. */
  function Remaining(lines: seq<string>, pos: nat): nat
  {
    if pos <= |lines| then |lines| - pos else 0
  }

  // ---------------------------------------------------------------------
  // Phase 1: dimensions
  // ---------------------------------------------------------------------

  /** One name/size pair of the dimension section: a name already declared
      keeps its size; a new name gets the size its size line reads as. A size
      line that is not an integer raises, with `lineNum` and that line. */
  function AddDimension(dims: map<string, int>, name: string, size: string, lineNum: nat)
    : (r: Result<map<string, int>, ParseError>)
    ensures r.Ok? ==> r.value.Keys == dims.Keys + {name}
    ensures r.Ok? ==> forall d :: d in dims ==> r.value[d] == dims[d]
    ensures r.Ok? && name !in dims ==> ParseInt(size) == Some(r.value[name])
    ensures r.Err? <==> name !in dims && !IsIntText(size)
    ensures r.Err? ==> r.error == ParseError(lineNum, Some(size))
  {
    ParseIntMeaning(size);
    if name in dims then Ok(dims)
    else
      match ParseInt(size)
      case None => Err(ParseError(lineNum, Some(size)))
      case Some(n) => Ok(dims[name := n])
  }

  /** The dimension phase from cursor `pos`, with the sizes read so far and
      whether a Dimensions marker has been seen. It ends at the end of the
      file or just after a Parameters marker, yielding the sizes and the
      cursor. Each iteration of the source's loop is one unfolding. */
  function DimsPhase(lines: seq<string>, pos: nat, dims: map<string, int>, reading: bool)
    : Result<(map<string, int>, nat), ParseError>
    decreases Remaining(lines, pos)
  {
    if pos >= |lines| then Ok((dims, pos))
    else
      var isMarker := lines[pos] == DimensionsMarker;
      var line := if isMarker then LineAt(lines, pos + 1) else lines[pos];
      var p := if isMarker then pos + 2 else pos + 1;
      if line == ParametersMarker then Ok((dims, p))
      else if !(reading || isMarker) then DimsPhase(lines, p, dims, false)
      else
        match AddDimension(dims, LineAt(lines, p), LineAt(lines, p + 1), p + 2)
        case Err(e) => Err(e)
        case Ok(dims') => DimsPhase(lines, p + 2, dims', true)
  }

  // ---------------------------------------------------------------------
  // One parameter record
  // ---------------------------------------------------------------------

  /** The element kind a type code selects. */
  predicate HasKind(v: Value, typeCode: int)
  {
    if typeCode == FloatType then v.FloatVal? && IsFloatText(v.text)
    else if typeCode == IntegerType then v.IntVal? && Int64Min <= v.i <= Int64Max
    else v.StrVal?
  }

  /** `v` is what its line `text` reads as. */
  predicate Spells(v: Value, text: string)
  {
    match v
    case IntVal(i) => ParseInt(text) == Some(i)
    case FloatVal(t) => t == text
    case StrVal(t) => t == text
  }

  /** Storing one value line into the array: `float(line)` for code 2,
      `int(line)` into a 64-bit integer for code 1, the line itself
      otherwise. `None` where the source raises. */
  function Convert(text: string, typeCode: int): (v: Option<Value>)
    ensures v.Some? ==> HasKind(v.value, typeCode) && Spells(v.value, text)
    ensures v.None? ==> typeCode == FloatType || typeCode == IntegerType
    ensures typeCode == FloatType ==> (v.Some? <==> IsFloatText(text))
    ensures typeCode == IntegerType ==>
              (v.Some? <==> ParseInt(text).Some? && Int64Min <= ParseInt(text).value <= Int64Max)
    ensures typeCode == IntegerType && !IsIntText(text) ==> v.None?
  {
    if typeCode == FloatType then
      if IsFloatText(text) then Some(FloatVal(text)) else None
    else if typeCode == IntegerType then
      ParseIntMeaning(text);
      match ParseInt(text)
      case None => None
      case Some(i) => if Int64Min <= i <= Int64Max then Some(IntVal(i)) else None
    else Some(StrVal(text))
  }

  /** The first `n` value lines from `start` converted in order; on failure,
      the line number reached when the first bad line was read. What the
      result holds is stated by ConvertValuesOk and ConvertValuesErr. */
  function ConvertValues(lines: seq<string>, start: nat, n: nat, typeCode: int)
    : (r: Result<seq<Value>, nat>)
    ensures r.Ok? ==> |r.value| == n
    ensures r.Err? ==> start < r.error <= start + n
    decreases n
  {
    if n == 0 then Ok([])
    else
      match ConvertValues(lines, start, n - 1, typeCode)
      case Err(e) => Err(e)
      case Ok(vs) =>
        match Convert(LineAt(lines, start + n - 1), typeCode)
        case None => Err(start + n)
        case Some(v) => Ok(vs + [v])
  }

  /** Converting `n` values succeeds only when every one of the `n` lines
      converts, and then holds their conversions in file order. */
  lemma {:induction false} ConvertValuesOk(lines: seq<string>, start: nat, n: nat, typeCode: int, vs: seq<Value>)
    requires ConvertValues(lines, start, n, typeCode) == Ok(vs)
    ensures forall i :: start <= i < start + n ==> Convert(LineAt(lines, i), typeCode) == Some(vs[i - start])
    decreases n
  {
    if n > 0 {
      var prev := ConvertValues(lines, start, n - 1, typeCode);
      assert prev.Ok?;
      ConvertValuesOk(lines, start, n - 1, typeCode, prev.value);
      assert vs == prev.value + [vs[n - 1]];
    }
  }

  /** A failed conversion of `n` values names the first line that does not
      convert: the line number is that line's, and every line before it
      converts. */
  lemma {:induction false} ConvertValuesErr(lines: seq<string>, start: nat, n: nat, typeCode: int, e: nat)
    requires ConvertValues(lines, start, n, typeCode) == Err(e)
    ensures start < e <= start + n
    ensures Convert(LineAt(lines, e - 1), typeCode).None?
    ensures forall i :: start <= i < e - 1 ==> Convert(LineAt(lines, i), typeCode).Some?
    decreases n
  {
    var prev := ConvertValues(lines, start, n - 1, typeCode);
    match prev
    case Err(e') =>
      ConvertValuesErr(lines, start, n - 1, typeCode, e');
    case Ok(vs) =>
      ConvertValuesOk(lines, start, n - 1, typeCode, vs);
  }

  /** `count` consecutive lines from `start`, in file order. */
  function LinesFrom(lines: seq<string>, start: nat, count: nat): (r: seq<string>)
    ensures |r| == count
    ensures forall i :: 0 <= i < count ==> r[i] == LineAt(lines, start + i)
    decreases count
  {
    if count == 0 then [] else LinesFrom(lines, start, count - 1) + [LineAt(lines, start + count - 1)]
  }

  /** Assigning `(rows, cols)` to the `shape` of a flat numpy array of `count`
      elements. A size of -1 is inferred from the other one; `None` where
      numpy raises `ValueError`. */
  function Reshape(count: nat, rows: int, cols: int): (s: Option<Shape>)
    ensures s.Some? ==> s.value.Grid? && s.value.rows * s.value.cols == count
    ensures rows >= 0 && cols >= 0 ==> (s.Some? <==> rows * cols == count)
    ensures s.Some? && rows >= 0 ==> s.value.rows == rows
    ensures s.Some? && cols >= 0 ==> s.value.cols == cols
  {
    if rows >= 0 && cols >= 0 then
      if rows * cols == count then Some(Grid(rows, cols)) else None
    else if rows == -1 && cols > 0 && count % cols == 0 then
      Some(Grid(count / cols, cols))
    else if cols == -1 && rows > 0 && count % rows == 0 then
      Some(Grid(rows, count / rows))
    else None
  }

  /** One parameter record as read: its name, dimension names, type code and
      (possibly reshaped) values. */
  datatype Record = Record(name: string, dimNames: seq<string>, typeCode: int, data: ParamArray)

  predicate WellShaped(a: ParamArray)
  {
    a.shape.Grid? ==> a.shape.rows * a.shape.cols == |a.elems|
  }

  /** The shape the record's values get: flat unless the record names exactly
      two dimensions, and then (size of the second, size of the first), both
      of which must be declared. */
  function ShapeOf(dims: map<string, int>, dimNames: seq<string>, count: nat): (s: Option<Shape>)
    ensures s.Some? ==> (s.value.Grid? <==> |dimNames| == 2)
    ensures s.Some? && s.value.Grid? ==> s.value.rows * s.value.cols == count
    ensures s.Some? && |dimNames| == 2 ==>
      && dimNames[0] in dims && dimNames[1] in dims
      && (dims[dimNames[1]] >= 0 ==> s.value.rows == dims[dimNames[1]])
      && (dims[dimNames[0]] >= 0 ==> s.value.cols == dims[dimNames[0]])
    ensures |dimNames| != 2 ==> s == Some(Flat)
    ensures |dimNames| == 2 ==>
      (s.Some? <==> dimNames[0] in dims && dimNames[1] in dims
                    && Reshape(count, dims[dimNames[1]], dims[dimNames[0]]).Some?)
  {
    if |dimNames| != 2 then Some(Flat)
    else if dimNames[1] in dims && dimNames[0] in dims then
      Reshape(count, dims[dimNames[1]], dims[dimNames[0]])
    else None
  }

  /** The lines that open a record after its "####" line: the name, the
      dimension count and that many dimension names, the value count and the
      type code. */
  datatype Header = Header(name: string, dimNames: seq<string>, numVals: int, typeCode: int)

  /** Reading a record's header with the cursor `p` on its name line. The
      name is the text before the first space; a negative dimension count
      reads no dimension names. The values start at `p + 4 + |dimNames|`.
      A dimension count that is not an integer fails at `p + 2`; with `q`
      the line after the dimension names, a value count at `q + 1` and a
      type code at `q + 2`. */
  function ReadHeader(lines: seq<string>, p: nat): (r: Result<Header, ParseError>)
    ensures r.Err? ==> r.error.line.None? && p + 2 <= r.error.lineNum
    ensures ParseInt(LineAt(lines, p + 1)).None? ==> r == Err(ParseError(p + 2, None))
    ensures ParseInt(LineAt(lines, p + 1)).Some? ==>
      var n := if ParseInt(LineAt(lines, p + 1)).value < 0 then 0 else ParseInt(LineAt(lines, p + 1)).value;
      var q := p + 2 + n;
      && (r.Ok? <==> ParseInt(LineAt(lines, q)).Some? && ParseInt(LineAt(lines, q + 1)).Some?)
      && (ParseInt(LineAt(lines, q)).None? ==> r == Err(ParseError(q + 1, None)))
      && (ParseInt(LineAt(lines, q)).Some? && ParseInt(LineAt(lines, q + 1)).None? ==> r == Err(ParseError(q + 2, None)))
      && (r.Ok? ==>
            && r.value.name == SplitName(LineAt(lines, p))
            && r.value.dimNames == LinesFrom(lines, p + 2, n)
            && ParseInt(LineAt(lines, q)) == Some(r.value.numVals)
            && ParseInt(LineAt(lines, q + 1)) == Some(r.value.typeCode))
    ensures r.Ok? ==> ParseInt(LineAt(lines, p + 1)).Some?
  {
    match ParseInt(LineAt(lines, p + 1))
    case None => Err(ParseError(p + 2, None))
    case Some(numDims) => HeaderAfterCount(lines, p, numDims)
  }

  /** The rest of a header once its dimension count `numDims` has read. */
  function HeaderAfterCount(lines: seq<string>, p: nat, numDims: int): (r: Result<Header, ParseError>)
    ensures
      var n := if numDims < 0 then 0 else numDims;
      var q := p + 2 + n;
      && (r.Ok? <==> ParseInt(LineAt(lines, q)).Some? && ParseInt(LineAt(lines, q + 1)).Some?)
      && (ParseInt(LineAt(lines, q)).None? ==> r == Err(ParseError(q + 1, None)))
      && (ParseInt(LineAt(lines, q)).Some? && ParseInt(LineAt(lines, q + 1)).None? ==> r == Err(ParseError(q + 2, None)))
      && (r.Ok? ==>
            && r.value.name == SplitName(LineAt(lines, p))
            && r.value.dimNames == LinesFrom(lines, p + 2, n)
            && ParseInt(LineAt(lines, q)) == Some(r.value.numVals)
            && ParseInt(LineAt(lines, q + 1)) == Some(r.value.typeCode))
  {
    var n := if numDims < 0 then 0 else numDims;
    var q := p + 2 + n;
    match ParseInt(LineAt(lines, q))
    case None => Err(ParseError(q + 1, None))
    case Some(numVals) =>
      match ParseInt(LineAt(lines, q + 1))
      case None => Err(ParseError(q + 2, None))
      case Some(typeCode) => Ok(Header(SplitName(LineAt(lines, p)), LinesFrom(lines, p + 2, n), numVals, typeCode))
  }

  /** The values of a record whose header is `h`, starting at line `start`:
      as many lines as the header's count, converted under its type code and
      shaped by its dimension names. A negative count raises. */
  function ReadBody(lines: seq<string>, start: nat, h: Header, dims: map<string, int>)
    : (r: Result<(Record, nat), ParseError>)
    ensures r.Ok? ==>
      && r.value.0 == Record(h.name, h.dimNames, h.typeCode, r.value.0.data)
      && |r.value.0.data.elems| == h.numVals
      && r.value.1 == start + h.numVals
      && ConvertValues(lines, start, |r.value.0.data.elems|, r.value.0.typeCode) == Ok(r.value.0.data.elems)
      && ShapeOf(dims, r.value.0.dimNames, |r.value.0.data.elems|) == Some(r.value.0.data.shape)
    ensures r.Err? ==> r.error.line.None? && r.error.lineNum >= start
  {
    if h.numVals < 0 then Err(ParseError(start, None))
    else
      match ConvertValues(lines, start, h.numVals, h.typeCode)
      case Err(n) => Err(ParseError(n, None))
      case Ok(vs) =>
        match ShapeOf(dims, h.dimNames, h.numVals)
        case None => Err(ParseError(start + h.numVals, None))
        case Some(shape) => Ok((Record(h.name, h.dimNames, h.typeCode, ParamArray(shape, vs)), start + h.numVals))
  }

  /** The record that starts after a "####" line, with the cursor `p` on its
      name line; yields the record and the cursor after its last value. The
      record carries its header's name, dimension names and type code; its
      values are the header's count of lines after the header, converted
      under the type code; its shape is the one ShapeOf gives its dimension
      names. A failure lies past the cursor and carries no line text. */
  function ReadRecord(lines: seq<string>, p: nat, dims: map<string, int>)
    : (r: Result<(Record, nat), ParseError>)
    ensures r.Ok? ==>
      && ReadHeader(lines, p) == Ok(Header(r.value.0.name, r.value.0.dimNames, |r.value.0.data.elems|, r.value.0.typeCode))
      && r.value.1 == p + 4 + |r.value.0.dimNames| + |r.value.0.data.elems|
      && ConvertValues(lines, p + 4 + |r.value.0.dimNames|, |r.value.0.data.elems|, r.value.0.typeCode) == Ok(r.value.0.data.elems)
      && ShapeOf(dims, r.value.0.dimNames, |r.value.0.data.elems|) == Some(r.value.0.data.shape)
    ensures r.Err? ==> r.error.line.None? && r.error.lineNum > p
  {
    match ReadHeader(lines, p)
    case Err(e) => Err(e)
    case Ok(h) =>
      var b := ReadBody(lines, p + 4 + |h.dimNames|, h, dims);
      assert b.Ok? ==> h == Header(b.value.0.name, b.value.0.dimNames, |b.value.0.data.elems|, b.value.0.typeCode);
      b
  }

  /** When the values of a record read, and the line each failure names: a
      negative count fails at `start`; a value that does not convert fails
      at its own line, every value line before it converting; a shape that
      does not fit fails after the last value. */
  lemma ReadBodyOutcome(lines: seq<string>, start: nat, h: Header, dims: map<string, int>)
    ensures ReadBody(lines, start, h, dims).Ok? <==>
      h.numVals >= 0 && ConvertValues(lines, start, h.numVals, h.typeCode).Ok?
      && ShapeOf(dims, h.dimNames, h.numVals).Some?
    ensures h.numVals < 0 ==> ReadBody(lines, start, h, dims) == Err(ParseError(start, None))
    ensures h.numVals >= 0 && ConvertValues(lines, start, h.numVals, h.typeCode).Err? ==>
      var e := ConvertValues(lines, start, h.numVals, h.typeCode).error;
      && ReadBody(lines, start, h, dims) == Err(ParseError(e, None))
      && start < e <= start + h.numVals
      && Convert(LineAt(lines, e - 1), h.typeCode).None?
      && forall i :: start <= i < e - 1 ==> Convert(LineAt(lines, i), h.typeCode).Some?
    ensures h.numVals >= 0 && ConvertValues(lines, start, h.numVals, h.typeCode).Ok?
            && ShapeOf(dims, h.dimNames, h.numVals).None? ==>
      ReadBody(lines, start, h, dims) == Err(ParseError(start + h.numVals, None))
  {
    if h.numVals >= 0 {
      var c := ConvertValues(lines, start, h.numVals, h.typeCode);
      if c.Err? {
        ConvertValuesErr(lines, start, h.numVals, h.typeCode, c.error);
      }
    }
  }

  /** A record reads exactly when its header reads and then its values do;
      a failure is the header's or the values'. */
  lemma ReadRecordOutcome(lines: seq<string>, p: nat, dims: map<string, int>)
    ensures ReadHeader(lines, p).Err? ==> ReadRecord(lines, p, dims) == Err(ReadHeader(lines, p).error)
    ensures ReadHeader(lines, p).Ok? ==>
      var h := ReadHeader(lines, p).value;
      ReadRecord(lines, p, dims) == ReadBody(lines, p + 4 + |h.dimNames|, h, dims)
  {
  }

  // ---------------------------------------------------------------------
  // Phase 2: parameters
  // ---------------------------------------------------------------------

  /** The parameter dictionaries being filled, and the repeated names
      reported so far. */
  datatype Acc = Acc(
    vals: map<string, ParamArray>,
    paramDims: map<string, seq<string>>,
    paramTypes: map<string, int>,
    notices: seq<string>)

  const EmptyAcc := Acc(map[], map[], map[], [])

  /** Entering a record: its dimension names and type code always replace
      earlier ones; its values are stored only under a new name, and a
      repeated name is reported instead. */
  function Store(acc: Acc, rec: Record): Acc
  {
    var repeated := rec.name in acc.vals;
    Acc(
      if repeated then acc.vals else acc.vals[rec.name := rec.data],
      acc.paramDims[rec.name := rec.dimNames],
      acc.paramTypes[rec.name := rec.typeCode],
      if repeated then acc.notices + [rec.name] else acc.notices)
  }

  /** The parameter phase from cursor `pos` to the end of the file: a line
      "####" starts a record, every other line is passed over. */
  function ParamsPhase(lines: seq<string>, pos: nat, dims: map<string, int>, acc: Acc)
    : Result<Acc, ParseError>
    decreases Remaining(lines, pos)
  {
    if pos >= |lines| then Ok(acc)
    else if lines[pos] != RecordMarker then ParamsPhase(lines, pos + 1, dims, acc)
    else
      match ReadRecord(lines, pos + 1, dims)
      case Err(e) => Err(e)
      case Ok((rec, next)) => ParamsPhase(lines, next, dims, Store(acc, rec))
  }

  /** `_load_prms_parameters`: both phases over one cursor. */
  function Load(lines: seq<string>): Result<Loaded, ParseError>
  {
    match DimsPhase(lines, 0, map[], false)
    case Err(e) => Err(e)
    case Ok((dims, pos)) =>
      match ParamsPhase(lines, pos, dims, EmptyAcc)
      case Err(e) => Err(e)
      case Ok(acc) => Ok(Loaded(Tables(dims, acc.vals, acc.paramDims, acc.paramTypes), acc.notices))
  }

  // ---------------------------------------------------------------------
  // Properties
  // ---------------------------------------------------------------------

  /** Every one of `vs` has the kind `typeCode` selects. */
  predicate AllOfKind(vs: seq<Value>, typeCode: int)
    decreases |vs|
  {
    vs == [] || (AllOfKind(vs[..|vs| - 1], typeCode) && HasKind(vs[|vs| - 1], typeCode))
  }

  lemma {:induction false} AllOfKindMeaning(vs: seq<Value>, typeCode: int)
    ensures AllOfKind(vs, typeCode) <==> forall v <- vs :: HasKind(v, typeCode)
    decreases |vs|
  {
    if vs != [] {
      var init := vs[..|vs| - 1];
      AllOfKindMeaning(init, typeCode);
      assert vs == init + [vs[|vs| - 1]];
    }
  }

  /** A type code other than 1 and 2, whose values are kept as text. */
  const TextType := 4

  /** Every stored array holds elements of one kind. */
  predicate Homogeneous(a: ParamArray)
  {
    AllOfKind(a.elems, IntegerType) || AllOfKind(a.elems, FloatType) || AllOfKind(a.elems, TextType)
  }

  /** What a successful load guarantees about its tables: the three parameter
      dictionaries have the same names, and every array is of one kind and,
      when two-dimensional, holds rows times columns elements. */
  predicate Consistent(t: Tables)
  {
    && t.parameterData.Keys == t.parameterDimensions.Keys
    && t.parameterDimensions.Keys == t.parameterTypes.Keys
    && forall name :: name in t.parameterData ==>
         WellShaped(t.parameterData[name]) && Homogeneous(t.parameterData[name])
  }

  predicate AccConsistent(acc: Acc)
  {
    Consistent(Tables(map[], acc.vals, acc.paramDims, acc.paramTypes))
  }

  /** Converted values have the kind their type code selects. */
  lemma {:induction false} ConvertValuesKind(lines: seq<string>, start: nat, n: nat, typeCode: int, vs: seq<Value>)
    requires ConvertValues(lines, start, n, typeCode) == Ok(vs)
    ensures AllOfKind(vs, typeCode)
    decreases n
  {
    if n > 0 {
      var prev := ConvertValues(lines, start, n - 1, typeCode);
      ConvertValuesKind(lines, start, n - 1, typeCode, prev.value);
      assert vs[..|vs| - 1] == prev.value;
    }
  }

  /** A record whose values are converted lines is of one kind. */
  lemma RecordHomogeneous(lines: seq<string>, start: nat, rec: Record)
    requires ConvertValues(lines, start, |rec.data.elems|, rec.typeCode) == Ok(rec.data.elems)
    ensures Homogeneous(rec.data)
  {
    ConvertValuesKind(lines, start, |rec.data.elems|, rec.typeCode, rec.data.elems);
    if rec.typeCode != IntegerType && rec.typeCode != FloatType {
      TextKind(rec.data.elems, rec.typeCode);
    }
  }

  /** All codes other than 1 and 2 select the same kind. */
  lemma {:induction false} TextKind(vs: seq<Value>, typeCode: int)
    requires typeCode != IntegerType && typeCode != FloatType
    requires AllOfKind(vs, typeCode)
    ensures AllOfKind(vs, TextType)
    decreases |vs|
  {
    if vs != [] {
      TextKind(vs[..|vs| - 1], typeCode);
    }
  }

  /** Storing a record of converted lines, shaped by its dimension names,
      keeps the tables consistent. */
  lemma StoreConsistent(lines: seq<string>, start: nat, dims: map<string, int>, acc: Acc, rec: Record)
    requires AccConsistent(acc)
    requires ConvertValues(lines, start, |rec.data.elems|, rec.typeCode) == Ok(rec.data.elems)
    requires ShapeOf(dims, rec.dimNames, |rec.data.elems|) == Some(rec.data.shape)
    ensures AccConsistent(Store(acc, rec))
  {
    RecordHomogeneous(lines, start, rec);
    assert WellShaped(rec.data);
    var acc' := Store(acc, rec);
    assert acc'.vals.Keys == acc.vals.Keys + {rec.name};
    assert acc'.paramDims.Keys == acc.paramDims.Keys + {rec.name};
    assert acc'.paramTypes.Keys == acc.paramTypes.Keys + {rec.name};
  }

  lemma RecordStoreConsistent(lines: seq<string>, p: nat, dims: map<string, int>, acc: Acc, rec: Record, next: nat)
    requires AccConsistent(acc)
    requires ReadRecord(lines, p, dims) == Ok((rec, next))
    ensures AccConsistent(Store(acc, rec))
  {
    StoreConsistent(lines, p + 4 + |rec.dimNames|, dims, acc, rec);
  }

  /** The parameter phase keeps the tables consistent. */
  lemma {:induction false} ParamsPhaseConsistent(lines: seq<string>, pos: nat, dims: map<string, int>, acc: Acc)
    requires AccConsistent(acc)
    ensures ParamsPhase(lines, pos, dims, acc).Ok? ==> AccConsistent(ParamsPhase(lines, pos, dims, acc).value)
    decreases Remaining(lines, pos)
  {
    if pos < |lines| {
      if lines[pos] != RecordMarker {
        assert ParamsPhase(lines, pos, dims, acc) == ParamsPhase(lines, pos + 1, dims, acc);
        ParamsPhaseConsistent(lines, pos + 1, dims, acc);
      } else {
        var r := ReadRecord(lines, pos + 1, dims);
        if r.Ok? {
          var (rec, next) := r.value;
          assert ParamsPhase(lines, pos, dims, acc) == ParamsPhase(lines, next, dims, Store(acc, rec));
          RecordStoreConsistent(lines, pos + 1, dims, acc, rec, next);
          ParamsPhaseConsistent(lines, next, dims, Store(acc, rec));
        }
      }
    }
  }

  /** A successful load yields consistent tables. */
  lemma LoadConsistent(lines: seq<string>)
    ensures Load(lines).Ok? ==> Consistent(Load(lines).value.tables)
  {
    match DimsPhase(lines, 0, map[], false)
    case Err(_) =>
    case Ok((dims, pos)) =>
      ParamsPhaseConsistent(lines, pos, dims, EmptyAcc);
  }

  /** Every two-dimensional parameter names declared dimensions. */
  predicate DimsDeclared(dims: map<string, int>, paramDims: map<string, seq<string>>)
  {
    forall name :: name in paramDims && |paramDims[name]| == 2 ==>
      paramDims[name][0] in dims && paramDims[name][1] in dims
  }

  /** What the tables say of a parameter read once, that is, not among the
      reported repeats: its values have the kind its type code selects, and
      its shape is the one its dimension names give. */
  predicate ReadOnceTyped(dims: map<string, int>, acc: Acc)
  {
    && DimsDeclared(dims, acc.paramDims)
    && forall name :: name in acc.vals && name !in acc.notices ==>
         && name in acc.paramDims && name in acc.paramTypes
         && AllOfKind(acc.vals[name].elems, acc.paramTypes[name])
         && ShapeOf(dims, acc.paramDims[name], |acc.vals[name].elems|) == Some(acc.vals[name].shape)
  }

  /** Storing a record of converted lines, shaped by its dimension names,
      keeps the tables typed: a new name is typed by the record, and a
      repeated name joins the reported repeats. */
  lemma StoreTyped(lines: seq<string>, start: nat, dims: map<string, int>, acc: Acc, rec: Record)
    requires ReadOnceTyped(dims, acc)
    requires ConvertValues(lines, start, |rec.data.elems|, rec.typeCode) == Ok(rec.data.elems)
    requires ShapeOf(dims, rec.dimNames, |rec.data.elems|) == Some(rec.data.shape)
    ensures ReadOnceTyped(dims, Store(acc, rec))
  {
    ConvertValuesKind(lines, start, |rec.data.elems|, rec.typeCode, rec.data.elems);
    var acc' := Store(acc, rec);
    forall name | name in acc'.vals && name !in acc'.notices
      ensures && name in acc'.paramDims && name in acc'.paramTypes
              && AllOfKind(acc'.vals[name].elems, acc'.paramTypes[name])
              && ShapeOf(dims, acc'.paramDims[name], |acc'.vals[name].elems|) == Some(acc'.vals[name].shape)
    {
      if name != rec.name {
        assert name in acc.vals && name !in acc.notices;
      }
    }
  }

  lemma RecordStoreTyped(lines: seq<string>, p: nat, dims: map<string, int>, acc: Acc, rec: Record, next: nat)
    requires ReadOnceTyped(dims, acc)
    requires ReadRecord(lines, p, dims) == Ok((rec, next))
    ensures ReadOnceTyped(dims, Store(acc, rec))
  {
    StoreTyped(lines, p + 4 + |rec.dimNames|, dims, acc, rec);
  }

  /** The parameter phase keeps the tables typed. */
  lemma {:induction false} ParamsPhaseTyped(lines: seq<string>, pos: nat, dims: map<string, int>, acc: Acc)
    requires ReadOnceTyped(dims, acc)
    ensures ParamsPhase(lines, pos, dims, acc).Ok? ==> ReadOnceTyped(dims, ParamsPhase(lines, pos, dims, acc).value)
    decreases Remaining(lines, pos)
  {
    if pos < |lines| {
      if lines[pos] != RecordMarker {
        assert ParamsPhase(lines, pos, dims, acc) == ParamsPhase(lines, pos + 1, dims, acc);
        ParamsPhaseTyped(lines, pos + 1, dims, acc);
      } else {
        var r := ReadRecord(lines, pos + 1, dims);
        if r.Ok? {
          var (rec, next) := r.value;
          assert ParamsPhase(lines, pos, dims, acc) == ParamsPhase(lines, next, dims, Store(acc, rec));
          RecordStoreTyped(lines, pos + 1, dims, acc, rec, next);
          ParamsPhaseTyped(lines, next, dims, Store(acc, rec));
        }
      }
    }
  }

  /** After a successful load, every two-dimensional parameter names declared
      dimensions, and a parameter read once holds values of the kind its
      type code selects, shaped (size of its second dimension, size of its
      first) when it has two. */
  lemma LoadTyped(lines: seq<string>)
    ensures Load(lines).Ok? ==>
      var t := Load(lines).value.tables;
      DimsDeclared(t.dimensions, t.parameterDimensions)
    ensures Load(lines).Ok? ==>
      var t := Load(lines).value.tables;
      forall name :: name in t.parameterData && name !in Load(lines).value.notices ==>
        && name in t.parameterTypes && name in t.parameterDimensions
        && AllOfKind(t.parameterData[name].elems, t.parameterTypes[name])
        && var pd := t.parameterDimensions[name];
           var a := t.parameterData[name];
           (|pd| != 2 ==> a.shape == Flat)
           && (|pd| == 2 ==>
                 && pd[0] in t.dimensions && pd[1] in t.dimensions
                 && a.shape.Grid? && a.shape.rows * a.shape.cols == |a.elems|
                 && (t.dimensions[pd[1]] >= 0 ==> a.shape.rows == t.dimensions[pd[1]])
                 && (t.dimensions[pd[0]] >= 0 ==> a.shape.cols == t.dimensions[pd[0]]))
  {
    match DimsPhase(lines, 0, map[], false)
    case Err(_) =>
    case Ok((dims, pos)) =>
      ParamsPhaseTyped(lines, pos, dims, EmptyAcc);
  }

  /** A file that declares parameter `p` twice, first with type code 1 and
      the value 7, then with type code 2 and the value 7.5. */
  const RetypedFile := [ParametersMarker, RecordMarker, "p", "0", "1", "1", "7",
                        RecordMarker, "p", "0", "1", "2", "7.5"]

  /** The lines of RetypedFile, one by one. */
  predicate RetypedLines(lines: seq<string>)
  {
    && |lines| == 13
    && lines[0] == ParametersMarker && lines[1] == RecordMarker
    && lines[2] == "p" && lines[3] == "0" && lines[4] == "1" && lines[5] == "1" && lines[6] == "7"
    && lines[7] == RecordMarker
    && lines[8] == "p" && lines[9] == "0" && lines[10] == "1" && lines[11] == "2" && lines[12] == "7.5"
  }

  /** The integers RetypedFile's headers and values use. */
  lemma SmallInts()
    ensures ParseInt("0") == Some(0) && ParseInt("1") == Some(1)
    ensures ParseInt("2") == Some(2) && ParseInt("7") == Some(7)
  {
    assert DigitsValue("7") == 7;
  }

  /** The first record of RetypedFile: `p`, type code 1, the integer 7. */
  lemma RetypedFirst(lines: seq<string>)
    requires RetypedLines(lines)
    ensures ReadRecord(lines, 2, map[]) == Ok((Record("p", [], 1, ParamArray(Flat, [IntVal(7)])), 7))
  {
    SmallInts();
    assert LineAt(lines, 2) == "p" && LineAt(lines, 3) == "0" && LineAt(lines, 4) == "1" && LineAt(lines, 5) == "1";
    assert SplitName("p") == "p";
    var h := Header("p", [], 1, 1);
    assert ReadHeader(lines, 2) == Ok(h);
    assert LineAt(lines, 6) == "7" && Convert("7", 1) == Some(IntVal(7));
    assert ConvertValues(lines, 6, 0, 1) == Ok([]);
    assert [] + [IntVal(7)] == [IntVal(7)];
    assert ConvertValues(lines, 6, 1, 1) == Ok([IntVal(7)]);
    assert ReadRecord(lines, 2, map[]) == ReadBody(lines, 6, h, map[]);
  }

  /** The second record of RetypedFile: `p` again, type code 2, 7.5. */
  lemma RetypedSecond(lines: seq<string>)
    requires RetypedLines(lines)
    ensures ReadRecord(lines, 8, map[]) == Ok((Record("p", [], 2, ParamArray(Flat, [FloatVal("7.5")])), 13))
  {
    SmallInts();
    assert LineAt(lines, 8) == "p" && LineAt(lines, 9) == "0" && LineAt(lines, 10) == "1" && LineAt(lines, 11) == "2";
    assert SplitName("p") == "p";
    var h := Header("p", [], 1, 2);
    assert ReadHeader(lines, 8) == Ok(h);
    assert LineAt(lines, 12) == "7.5" && IsFloatText("7.5");
    assert Convert("7.5", 2) == Some(FloatVal("7.5"));
    assert ConvertValues(lines, 12, 0, 2) == Ok([]);
    assert [] + [FloatVal("7.5")] == [FloatVal("7.5")];
    assert ConvertValues(lines, 12, 1, 2) == Ok([FloatVal("7.5")]);
    assert ReadRecord(lines, 8, map[]) == ReadBody(lines, 12, h, map[]);
  }

  /** A parameter phase over exactly two records, the first right after the
      section marker and the second ending the file, stores both in order. */
  lemma PhaseOverTwoRecords(lines: seq<string>, rec1: Record, rec2: Record, mid: nat)
    requires 1 < mid < |lines| && lines[1] == RecordMarker && lines[mid] == RecordMarker
    requires ReadRecord(lines, 2, map[]) == Ok((rec1, mid))
    requires ReadRecord(lines, mid + 1, map[]) == Ok((rec2, |lines|))
    ensures ParamsPhase(lines, 1, map[], EmptyAcc) == Ok(Store(Store(EmptyAcc, rec1), rec2))
  {
    assert ParamsPhase(lines, 1, map[], EmptyAcc) == ParamsPhase(lines, mid, map[], Store(EmptyAcc, rec1));
  }

  /** Storing the two records of RetypedFile: the values of the first `p`,
      the dimension names and type code of the second, and one notice. */
  lemma RetypedStores()
    ensures Store(Store(EmptyAcc, Record("p", [], 1, ParamArray(Flat, [IntVal(7)]))),
                  Record("p", [], 2, ParamArray(Flat, [FloatVal("7.5")]))) ==
      Acc(map["p" := ParamArray(Flat, [IntVal(7)])], map["p" := []], map["p" := 2], ["p"])
  {
    var acc1 := Acc(map["p" := ParamArray(Flat, [IntVal(7)])], map["p" := []], map["p" := 1], []);
    assert Store(EmptyAcc, Record("p", [], 1, ParamArray(Flat, [IntVal(7)]))) == acc1;
    assert acc1.paramTypes["p" := 2] == map["p" := 2];
    assert acc1.paramDims["p" := []] == map["p" := []];
  }

  /** The duplicate rule can leave a parameter's type code disagreeing with
      its values: RetypedFile keeps the integer values of `p` under type
      code 2. */
  lemma RepeatedNameRetyped()
    ensures Load(RetypedFile) ==
      Ok(Loaded(Tables(map[], map["p" := ParamArray(Flat, [IntVal(7)])], map["p" := []], map["p" := 2]), ["p"]))
    ensures !AllOfKind([IntVal(7)], FloatType)
  {
    assert RetypedLines(RetypedFile);
    RetypedLoad(RetypedFile);
    assert [IntVal(7)][..0] == [];
  }

  /** Loading a file with the lines of RetypedFile. */
  lemma RetypedLoad(lines: seq<string>)
    requires RetypedLines(lines)
    ensures Load(lines) ==
      Ok(Loaded(Tables(map[], map["p" := ParamArray(Flat, [IntVal(7)])], map["p" := []], map["p" := 2]), ["p"]))
  {
    RetypedDims(lines);
    RetypedParams(lines);
  }

  /** RetypedFile declares no dimensions. */
  lemma RetypedDims(lines: seq<string>)
    requires RetypedLines(lines)
    ensures DimsPhase(lines, 0, map[], false) == Ok((map[], 1))
  {
    assert lines[0] == ParametersMarker;
  }

  /** The parameter phase of RetypedFile. */
  lemma RetypedParams(lines: seq<string>)
    requires RetypedLines(lines)
    ensures ParamsPhase(lines, 1, map[], EmptyAcc) ==
      Ok(Acc(map["p" := ParamArray(Flat, [IntVal(7)])], map["p" := []], map["p" := 2], ["p"]))
  {
    RetypedFirst(lines);
    RetypedSecond(lines);
    assert |lines| == 13 && lines[1] == RecordMarker && lines[7] == RecordMarker;
    PhaseOverTwoRecords(lines, Record("p", [], 1, ParamArray(Flat, [IntVal(7)])),
                        Record("p", [], 2, ParamArray(Flat, [FloatVal("7.5")])), 7);
    RetypedStores();
  }

  /** `m2` holds every entry of `m1` unchanged. */
  ghost predicate Extends<K, V>(m1: map<K, V>, m2: map<K, V>)
  {
    forall k :: k in m1 ==> k in m2 && m2[k] == m1[k]
  }

  lemma ExtendsTransitive<K, V>(m1: map<K, V>, m2: map<K, V>, m3: map<K, V>)
    requires Extends(m1, m2) && Extends(m2, m3)
    ensures Extends(m1, m3)
  {
  }

  /** One iteration of the dimension loop from cursor `pos`: either the
      phase ends there (the Parameters marker or a bad size) with the sizes
      it had, or it goes on from a later cursor with sizes that keep the
      ones it had. */
  lemma DimsPhaseAdvance(lines: seq<string>, pos: nat, dims: map<string, int>, reading: bool)
    returns (next: Option<(nat, map<string, int>, bool)>)
    requires pos < |lines|
    ensures next.None? ==>
      DimsPhase(lines, pos, dims, reading).Ok? ==> DimsPhase(lines, pos, dims, reading).value.0 == dims
    ensures next.Some? ==>
      && next.value.0 > pos
      && Extends(dims, next.value.1)
      && DimsPhase(lines, pos, dims, reading) == DimsPhase(lines, next.value.0, next.value.1, next.value.2)
  {
    var isMarker := lines[pos] == DimensionsMarker;
    var line := if isMarker then LineAt(lines, pos + 1) else lines[pos];
    var p := if isMarker then pos + 2 else pos + 1;
    next := None;
    if line == ParametersMarker {
      assert DimsPhase(lines, pos, dims, reading) == Ok((dims, p));
    } else if !(reading || isMarker) {
      next := Some((p, dims, false));
      assert DimsPhase(lines, pos, dims, reading) == DimsPhase(lines, p, dims, false);
    } else {
      var step := AddDimension(dims, LineAt(lines, p), LineAt(lines, p + 1), p + 2);
      if step.Ok? {
        next := Some((p + 2, step.value, true));
        assert DimsPhase(lines, pos, dims, reading) == DimsPhase(lines, p + 2, step.value, true);
      } else {
        assert DimsPhase(lines, pos, dims, reading) == Err(step.error);
      }
    }
  }

  /** A dimension, once declared, keeps its first size: later declarations of
      the same name change nothing. */
  lemma {:induction false} DimsPhaseKeepsFirst(lines: seq<string>, pos: nat, dims: map<string, int>, reading: bool)
    ensures DimsPhase(lines, pos, dims, reading).Ok? ==>
      Extends(dims, DimsPhase(lines, pos, dims, reading).value.0)
    decreases Remaining(lines, pos)
  {
    if pos < |lines| {
      var next := DimsPhaseAdvance(lines, pos, dims, reading);
      if next.Some? {
        var (p, dims', reading') := next.value;
        DimsPhaseKeepsFirst(lines, p, dims', reading');
        var rest := DimsPhase(lines, p, dims', reading');
        if rest.Ok? {
          ExtendsTransitive(dims, dims', rest.value.0);
        }
      }
    }
  }

  /** A dimension record read at cursor `pos` ends up in the final sizes: a
      name declared before keeps its size, and a new name gets the integer
      its size line reads as. */
  lemma DimsRecordEntered(lines: seq<string>, pos: nat, dims: map<string, int>, reading: bool)
    requires pos < |lines|
    ensures
      var isMarker := lines[pos] == DimensionsMarker;
      var line := if isMarker then LineAt(lines, pos + 1) else lines[pos];
      var p := if isMarker then pos + 2 else pos + 1;
      var name := LineAt(lines, p);
      var r := DimsPhase(lines, pos, dims, reading);
      r.Ok? && line != ParametersMarker && (reading || isMarker) ==>
        && name in r.value.0
        && (name in dims ==> r.value.0[name] == dims[name])
        && (name !in dims ==> ParseInt(LineAt(lines, p + 1)) == Some(r.value.0[name]))
  {
    var isMarker := lines[pos] == DimensionsMarker;
    var line := if isMarker then LineAt(lines, pos + 1) else lines[pos];
    var p := if isMarker then pos + 2 else pos + 1;
    if line != ParametersMarker && (reading || isMarker) {
      var step := AddDimension(dims, LineAt(lines, p), LineAt(lines, p + 1), p + 2);
      if step.Ok? {
        assert DimsPhase(lines, pos, dims, reading) == DimsPhase(lines, p + 2, step.value, true);
        DimsPhaseKeepsFirst(lines, p + 2, step.value, true);
      } else {
        assert DimsPhase(lines, pos, dims, reading) == Err(step.error);
      }
    }
  }

  /** A parameter's values, once stored, are never replaced. */
  lemma {:induction false} ParamsPhaseKeepsFirstValues(lines: seq<string>, pos: nat, dims: map<string, int>, acc: Acc)
    ensures ParamsPhase(lines, pos, dims, acc).Ok? ==>
      Extends(acc.vals, ParamsPhase(lines, pos, dims, acc).value.vals)
    decreases Remaining(lines, pos)
  {
    if pos < |lines| {
      if lines[pos] != RecordMarker {
        assert ParamsPhase(lines, pos, dims, acc) == ParamsPhase(lines, pos + 1, dims, acc);
        ParamsPhaseKeepsFirstValues(lines, pos + 1, dims, acc);
      } else {
        match ReadRecord(lines, pos + 1, dims)
        case Err(_) =>
        case Ok((rec, next)) =>
          var acc' := Store(acc, rec);
          assert ParamsPhase(lines, pos, dims, acc) == ParamsPhase(lines, next, dims, acc');
          assert Extends(acc.vals, acc'.vals);
          ParamsPhaseKeepsFirstValues(lines, next, dims, acc');
          if ParamsPhase(lines, next, dims, acc').Ok? {
            ExtendsTransitive(acc.vals, acc'.vals, ParamsPhase(lines, next, dims, acc').value.vals);
          }
      }
    }
  }

  /** A "####" line and the record after it: the record's dimension names
      and type code replace any earlier ones; its values are stored under a
      new name, while a repeated name keeps its first values and is
      reported. */
  lemma RecordEntered(lines: seq<string>, pos: nat, dims: map<string, int>, acc: Acc, rec: Record, next: nat)
    requires pos < |lines| && lines[pos] == RecordMarker
    requires ReadRecord(lines, pos + 1, dims) == Ok((rec, next))
    ensures rec.name in acc.vals ==>
      ParamsPhase(lines, pos, dims, acc) ==
        ParamsPhase(lines, next, dims, Acc(acc.vals, acc.paramDims[rec.name := rec.dimNames],
                                           acc.paramTypes[rec.name := rec.typeCode], acc.notices + [rec.name]))
    ensures rec.name !in acc.vals ==>
      ParamsPhase(lines, pos, dims, acc) ==
        ParamsPhase(lines, next, dims, Acc(acc.vals[rec.name := rec.data], acc.paramDims[rec.name := rec.dimNames],
                                           acc.paramTypes[rec.name := rec.typeCode], acc.notices))
  {
  }

  /** A dimension-phase error names the size line that is not an integer: its
      line number is the number of lines consumed, and its text is that
      line's. */
  lemma DimsPhaseErrorLocated(lines: seq<string>, pos: nat, dims: map<string, int>, reading: bool)
    ensures DimsPhase(lines, pos, dims, reading).Err? ==>
      var e := DimsPhase(lines, pos, dims, reading).error;
      && e.lineNum > pos
      && e.line == Some(LineAt(lines, e.lineNum - 1))
      && !IsIntText(e.line.value)
  {
    var k := DimsPhaseErrorLine(lines, pos, dims, reading, DimsPhase(lines, pos, dims, reading));
  }

  /** The index `k` of the size line a dimension-phase error comes from. */
  lemma {:induction false} DimsPhaseErrorLine(lines: seq<string>, pos: nat, dims: map<string, int>, reading: bool,
                                             r: Result<(map<string, int>, nat), ParseError>)
    returns (k: nat)
    requires DimsPhase(lines, pos, dims, reading) == r
    ensures r.Err? ==> k >= pos && r.error == ParseError(k + 1, Some(LineAt(lines, k))) && !IsIntText(LineAt(lines, k))
    decreases Remaining(lines, pos)
  {
    k := pos;
    if pos < |lines| {
      var isMarker := lines[pos] == DimensionsMarker;
      var line := if isMarker then LineAt(lines, pos + 1) else lines[pos];
      var p := if isMarker then pos + 2 else pos + 1;
      if line == ParametersMarker {
      } else if !(reading || isMarker) {
        assert DimsPhase(lines, pos, dims, reading) == DimsPhase(lines, p, dims, false);
        k := DimsPhaseErrorLine(lines, p, dims, false, r);
      } else {
        var step := AddDimension(dims, LineAt(lines, p), LineAt(lines, p + 1), p + 2);
        if step.Err? {
          assert r == Err(step.error);
          k := p + 1;
        } else {
          assert DimsPhase(lines, pos, dims, reading) == DimsPhase(lines, p + 2, step.value, true);
          k := DimsPhaseErrorLine(lines, p + 2, step.value, true, r);
        }
      }
    }
  }

  /** A parameter-phase error carries only a line number, past the cursor. */
  lemma {:induction false} ParamsPhaseErrorLocated(lines: seq<string>, pos: nat, dims: map<string, int>, acc: Acc)
    ensures ParamsPhase(lines, pos, dims, acc).Err? ==>
      var e := ParamsPhase(lines, pos, dims, acc).error;
      e.lineNum > pos && e.line.None?
    decreases Remaining(lines, pos)
  {
    if pos < |lines| {
      if lines[pos] != RecordMarker {
        assert ParamsPhase(lines, pos, dims, acc) == ParamsPhase(lines, pos + 1, dims, acc);
        ParamsPhaseErrorLocated(lines, pos + 1, dims, acc);
      } else {
        match ReadRecord(lines, pos + 1, dims)
        case Err(_) =>
        case Ok((rec, next)) =>
          assert ParamsPhase(lines, pos, dims, acc) == ParamsPhase(lines, next, dims, Store(acc, rec));
          ParamsPhaseErrorLocated(lines, next, dims, Store(acc, rec));
      }
    }
  }

  /** One iteration of the parameter loop from cursor `pos`: either the
      record after a "####" line at `pos` fails with `e`, and so does the
      phase, or the phase goes on from a later cursor. */
  lemma ParamsPhaseAdvance(lines: seq<string>, pos: nat, dims: map<string, int>, acc: Acc)
    returns (next: Option<(nat, Acc)>, e: ParseError)
    requires pos < |lines|
    ensures next.None? ==>
      && lines[pos] == RecordMarker && ReadRecord(lines, pos + 1, dims) == Err(e)
      && ParamsPhase(lines, pos, dims, acc) == Err(e)
    ensures next.Some? ==>
      next.value.0 > pos && ParamsPhase(lines, pos, dims, acc) == ParamsPhase(lines, next.value.0, dims, next.value.1)
  {
    e := ParseError(0, None);
    if lines[pos] != RecordMarker {
      next := Some((pos + 1, acc));
    } else {
      match ReadRecord(lines, pos + 1, dims)
      case Err(err) =>
        next, e := None, err;
      case Ok((rec, n)) =>
        next := Some((n, Store(acc, rec)));
    }
  }

  /** A parameter-phase error is the failure of the record after some
      "####" line `k` at or after the cursor. */
  lemma {:induction false} ParamsPhaseErrorRecord(lines: seq<string>, pos: nat, dims: map<string, int>, acc: Acc,
                                                 r: Result<Acc, ParseError>)
    returns (k: nat)
    requires ParamsPhase(lines, pos, dims, acc) == r
    ensures r.Err? ==> pos <= k < |lines| && lines[k] == RecordMarker && ReadRecord(lines, k + 1, dims) == Err(r.error)
    decreases Remaining(lines, pos)
  {
    k := pos;
    if pos < |lines| {
      var next, e := ParamsPhaseAdvance(lines, pos, dims, acc);
      if next.Some? {
        k := ParamsPhaseErrorRecord(lines, next.value.0, dims, next.value.1, r);
      }
    }
  }

  /** A failed load carries a line number of at least 1; it carries the line's
      text exactly when it failed in the dimension phase, and that text is the
      line at that number, which is not an integer. */
  lemma LoadErrorLocated(lines: seq<string>)
    ensures Load(lines).Err? ==>
      var e := Load(lines).error;
      && e.lineNum >= 1
      && (e.line.Some? <==> DimsPhase(lines, 0, map[], false).Err?)
      && (e.line.Some? ==> e.line.value == LineAt(lines, e.lineNum - 1) && !IsIntText(e.line.value))
  {
    DimsPhaseErrorLocated(lines, 0, map[], false);
    match DimsPhase(lines, 0, map[], false)
    case Err(_) =>
    case Ok((dims, pos)) =>
      ParamsPhaseErrorLocated(lines, pos, dims, EmptyAcc);
  }

  /** Before the first Dimensions marker, lines that are neither marker are
      passed over. */
  lemma {:induction false} SkipPreamble(lines: seq<string>, pos: nat, k: nat)
    requires pos <= k <= |lines|
    requires forall i :: pos <= i < k ==> lines[i] != DimensionsMarker && lines[i] != ParametersMarker
    ensures DimsPhase(lines, pos, map[], false) == DimsPhase(lines, k, map[], false)
    decreases k - pos
  {
    if pos < k {
      SkipPreamble(lines, pos + 1, k);
    }
  }

  /** A Parameters marker right after the Dimensions marker ends the
      dimension phase with no dimensions. */
  lemma NoDimensions(lines: seq<string>, k: nat)
    requires k + 1 < |lines|
    requires forall i :: 0 <= i < k ==> lines[i] != DimensionsMarker && lines[i] != ParametersMarker
    requires lines[k] == DimensionsMarker && lines[k + 1] == ParametersMarker
    ensures DimsPhase(lines, 0, map[], false) == Ok((map[], k + 2))
  {
    SkipPreamble(lines, 0, k);
  }

  /** A first dimension whose size is not an integer fails the load at the
      size line, with that line's number and text. */
  lemma BadFirstDimensionSize(lines: seq<string>, k: nat)
    requires k + 3 < |lines|
    requires forall i :: 0 <= i < k ==> lines[i] != DimensionsMarker && lines[i] != ParametersMarker
    requires lines[k] == DimensionsMarker && lines[k + 1] != ParametersMarker
    requires !IsIntText(lines[k + 3])
    ensures Load(lines) == Err(ParseError(k + 4, Some(lines[k + 3])))
  {
    SkipPreamble(lines, 0, k);
  }

  /** In the parameter phase, lines other than "####" are passed over. */
  lemma {:induction false} SkipUnmarked(lines: seq<string>, pos: nat, k: nat, dims: map<string, int>, acc: Acc)
    requires pos <= k <= |lines|
    requires forall i :: pos <= i < k ==> lines[i] != RecordMarker
    ensures ParamsPhase(lines, pos, dims, acc) == ParamsPhase(lines, k, dims, acc)
    decreases k - pos
  {
    if pos < k {
      SkipUnmarked(lines, pos + 1, k, dims, acc);
    }
  }

  /** A conversion failure among the first `k` values is the failure of all
      `n >= k` of them. */
  lemma {:induction false} ConvertValuesErrorPersists(lines: seq<string>, start: nat, k: nat, n: nat, typeCode: int, e: nat)
    requires k <= n
    requires ConvertValues(lines, start, k, typeCode) == Err(e)
    ensures ConvertValues(lines, start, n, typeCode) == Err(e)
    decreases n - k
  {
    if k < n {
      ConvertValuesErrorPersists(lines, start, k, n - 1, typeCode, e);
    }
  }

}
