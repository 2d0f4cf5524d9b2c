/** What `load_soltab_debug` (pynhm/utils/prms5util.py) computes from the
    lines of a PRMS 5.2.1 `soltab_debug` file, stated as functions: a left
    fold of one step per line over the reader's state, and the assembly of
    the two 366-by-HRU tables. Lines are taken as `readlines()` gives them,
    each with its line break. Numeric fields are kept as their text. */
module SoltabDebug {
  import opened Wrappers
  import opened Text

  /** The data are 8 characters wide, 13 per line. */
  const Width := 8
  const FieldsPerLine := 13
  /** 28 full lines and a final line of 2: the lines of one section that
      are read; later ones are passed over. */
  const LinesPerSection := 29
  const DaysPerYear := 366

  const HruPrefix := " HRU:"
  const SunhrsHeader := " ***Soltab_sunhrs***"
  const PotswHeader := " ***Soltab_potsw***"
  const SunhrsKey := "sunhrs"
  const PotswKey := "potsw"

  /** The exception the reader raises. */
  datatype SoltabError =
    | UnboundLocal     // a section or data line before any HRU line or section line set the name it uses
    | IndexOutOfRange  // the HRU index names no record, or an HRU line has no field after ':'
    | MissingKey       // a data line for a section the current record has not opened, or a record without both sections
    | BadNumber        // `int()` or `float()` refused a field
    | WrongLength      // a section that does not hold 366 values

  /** The per-HRU dictionary: section key to the values read so far. */
  type HruRecord = map<string, seq<string>>

  /** The reader's variables; `None` while a local is still unbound. */
  datatype ScanState = ScanState(
    records: seq<HruRecord>,
    hruInd: Option<int>,
    key: Option<string>,
    accumCount: Option<int>)

  const Initial := ScanState([], None, None, None)

  /** The two tables of the result, indexed [day][hru]. */
  datatype Soltab = Soltab(potentialSwRad: seq<seq<string>>, sunHrs: seq<seq<string>>)

  // ---------------------------------------------------------------------
  // Fields of a line
  // ---------------------------------------------------------------------

  /** `s[lo:hi]` for `0 <= lo <= hi`: Python clamps both ends to the string. */
  function PySlice(s: string, lo: nat, hi: nat): string
    requires lo <= hi
  {
    var a := if lo <= |s| then lo else |s|;
    var b := if hi <= |s| then hi else |s|;
    s[a..b]
  }

  /** The 13 fixed-width columns `[8i, 8i+8)` of a line. */
  function Columns(line: string): (r: seq<string>)
    ensures |r| == FieldsPerLine
  {
    seq(FieldsPerLine, i requires 0 <= i < FieldsPerLine => PySlice(line, i * Width, i * Width + Width))
  }

  /** A column that is not in `not_data`. */
  predicate IsData(field: string)
  {
    field != "" && field != "\n"
  }

  /** The columns that hold data, in order. */
  function DataFields(cols: seq<string>): seq<string>
    decreases |cols|
  {
    if cols == [] then []
    else DataFields(cols[..|cols| - 1]) + (if IsData(cols[|cols| - 1]) then [cols[|cols| - 1]] else [])
  }

  /** Filtering keeps only data columns, each one a column of the line. */
  lemma {:induction false} DataFieldsMeaning(cols: seq<string>)
    ensures |DataFields(cols)| <= |cols|
    ensures forall i :: 0 <= i < |DataFields(cols)| ==> IsData(DataFields(cols)[i]) && DataFields(cols)[i] in cols
    decreases |cols|
  {
    if cols != [] {
      DataFieldsMeaning(cols[..|cols| - 1]);
    }
  }

  /** The values a data line contributes. */
  function DataValues(line: string): seq<string>
  {
    DataFields(Columns(line))
  }

  /** `float()` accepts every one of the fields (it ignores surrounding
      whitespace). */
  predicate Converts(vals: seq<string>)
  {
    forall i :: 0 <= i < |vals| ==> IsFloatText(Strip(vals[i]))
  }

  /** `data_list[i]` for a list of length `n`: negative indices count from
      the end; `None` where Python raises `IndexError`. */
  function PyIndex(n: nat, i: int): (r: Option<nat>)
    ensures r.Some? <==> -(n as int) <= i < n
    ensures r.Some? ==> r.value < n && (r.value == i || r.value == n + i)
  {
    if 0 <= i < n then Some(i)
    else if -(n as int) <= i < 0 then Some(n + i)
    else None
  }

  /** The text between the first and the second ':' of an HRU line once it
      is stripped and its spaces are removed. */
  function HruField(line: string): Option<string>
  {
    SecondField(RemoveSpaces(Strip(line)), ':')
  }

  /** The record index an HRU line selects:
      `int(line.strip().replace(" ", "").split(":")[1]) - 1`. */
  function HruIndex(line: string): Result<int, SoltabError>
  {
    match HruField(line)
    case None => Err(IndexOutOfRange)
    case Some(field) =>
      match ParseInt(field)
      case None => Err(BadNumber)
      case Some(n) => Ok(n - 1)
  }

  // ---------------------------------------------------------------------
  // One line, and the whole file
  // ---------------------------------------------------------------------

  predicate IsHruLine(line: string)
  {
    StartsWith(line, HruPrefix)
  }

  /** A line the reader takes for data: none of the three prefixes. */
  predicate IsDataLine(line: string)
  {
    !StartsWith(line, HruPrefix) && !StartsWith(line, SunhrsHeader) && !StartsWith(line, PotswHeader)
  }

  /** A section line: the current record's list under `key` starts empty and
      the line count restarts. */
  function StartSection(st: ScanState, key: string): Result<ScanState, SoltabError>
  {
    match st.hruInd
    case None => Err(UnboundLocal)
    case Some(i) =>
      match PyIndex(|st.records|, i)
      case None => Err(IndexOutOfRange)
      case Some(j) =>
        Ok(st.(records := st.records[j := st.records[j][key := []]], key := Some(key), accumCount := Some(0)))
  }

  /** A data line: counted, and, while at most 29 lines of the section have
      been counted, its values are appended to the current list. */
  function DataLine(st: ScanState, line: string): Result<ScanState, SoltabError>
  {
    match st.accumCount
    case None => Err(UnboundLocal)
    case Some(c) =>
      if c + 1 > LinesPerSection then Ok(st.(accumCount := Some(c + 1)))
      else
        match st.hruInd
        case None => Err(UnboundLocal)
        case Some(i) =>
          match PyIndex(|st.records|, i)
          case None => Err(IndexOutOfRange)
          case Some(j) =>
            match st.key
            case None => Err(UnboundLocal)
            case Some(k) =>
              if k !in st.records[j] then Err(MissingKey)
              else if !Converts(DataValues(line)) then Err(BadNumber)
              else
                var rec := st.records[j];
                Ok(ScanState(st.records[j := rec[k := rec[k] + DataValues(line)]], st.hruInd, st.key, Some(c + 1)))
  }

  /** One iteration of the reader's loop. */
  function Step(st: ScanState, line: string): Result<ScanState, SoltabError>
  {
    if StartsWith(line, HruPrefix) then
      match HruIndex(line)
      case Err(e) => Err(e)
      case Ok(i) => Ok(st.(records := st.records + [map[]], hruInd := Some(i)))
    else if StartsWith(line, SunhrsHeader) then StartSection(st, SunhrsKey)
    else if StartsWith(line, PotswHeader) then StartSection(st, PotswKey)
    else DataLine(st, line)
  }

  /** The reader's state after the loop has gone on from state `st` over
      `lines`. */
  function ScanFrom(st: ScanState, lines: seq<string>): Result<ScanState, SoltabError>
    decreases |lines|
  {
    if lines == [] then Ok(st)
    else
      match ScanFrom(st, lines[..|lines| - 1])
      case Err(e) => Err(e)
      case Ok(st') => Step(st', lines[|lines| - 1])
  }

  /** The reader's state after the loop over `lines`. */
  function Scan(lines: seq<string>): Result<ScanState, SoltabError>
  {
    ScanFrom(Initial, lines)
  }

  /** Every list of every record holds one value per day of the year. */
  predicate AllFullYears(records: seq<HruRecord>)
  {
    forall h, k :: 0 <= h < |records| && k in records[h] ==> |records[h][k]| == DaysPerYear
  }

  predicate HasBothSections(records: seq<HruRecord>)
  {
    forall h :: 0 <= h < |records| ==> PotswKey in records[h] && SunhrsKey in records[h]
  }

  /** After the loop: every list must hold 366 values, every record must
      hold both sections, and column `h` of each table is record `h`'s list. */
  function Assemble(records: seq<HruRecord>): (r: Result<Soltab, SoltabError>)
    ensures r.Ok? <==> AllFullYears(records) && HasBothSections(records)
    ensures r.Err? && !AllFullYears(records) ==> r.error == WrongLength
    ensures r.Err? && AllFullYears(records) ==> r.error == MissingKey
    ensures r.Ok? ==>
      && |r.value.potentialSwRad| == DaysPerYear && |r.value.sunHrs| == DaysPerYear
      && (forall d :: 0 <= d < DaysPerYear ==>
            |r.value.potentialSwRad[d]| == |records| && |r.value.sunHrs[d]| == |records|)
      && (forall d, h :: 0 <= d < DaysPerYear && 0 <= h < |records| ==>
            && r.value.potentialSwRad[d][h] == records[h][PotswKey][d]
            && r.value.sunHrs[d][h] == records[h][SunhrsKey][d])
  {
    if !AllFullYears(records) then Err(WrongLength)
    else if !HasBothSections(records) then Err(MissingKey)
    else
      Ok(Soltab(
        seq(DaysPerYear, d requires 0 <= d < DaysPerYear =>
          seq(|records|, h requires 0 <= h < |records| => records[h][PotswKey][d])),
        seq(DaysPerYear, d requires 0 <= d < DaysPerYear =>
          seq(|records|, h requires 0 <= h < |records| => records[h][SunhrsKey][d]))))
  }

  /** `load_soltab_debug` on the lines of a file. */
  function LoadSoltab(lines: seq<string>): Result<Soltab, SoltabError>
  {
    match Scan(lines)
    case Err(e) => Err(e)
    case Ok(st) => Assemble(st.records)
  }

  // ---------------------------------------------------------------------
  // Properties
  // ---------------------------------------------------------------------

  /** The loop over `lines + [line]` is the loop over `lines`, then one step. */
  lemma ScanSnoc(st: ScanState, lines: seq<string>, line: string)
    ensures ScanFrom(st, lines + [line]) ==
      match ScanFrom(st, lines)
      case Err(e) => Err(e)
      case Ok(st') => Step(st', line)
  {
    assert (lines + [line])[..|lines|] == lines;
  }

  /** The loop over `a + b` is the loop over `a`, then the loop over `b`. */
  lemma {:induction false} ScanAppend(st: ScanState, a: seq<string>, b: seq<string>)
    ensures ScanFrom(st, a + b) ==
      match ScanFrom(st, a)
      case Err(e) => Err(e)
      case Ok(st') => ScanFrom(st', b)
    decreases |b|
  {
    if b == [] {
      assert a + b == a;
    } else {
      var init := b[..|b| - 1];
      ScanAppend(st, a, init);
      assert a + b == (a + init) + [b[|b| - 1]];
      ScanSnoc(st, a + init, b[|b| - 1]);
    }
  }

  /** The number of HRU lines among `lines`. */
  function CountHru(lines: seq<string>): nat
    decreases |lines|
  {
    if lines == [] then 0
    else CountHru(lines[..|lines| - 1]) + (if IsHruLine(lines[|lines| - 1]) then 1 else 0)
  }

  /** One record per HRU line, and only the two section keys ever appear. */
  lemma {:induction false} ScanRecords(lines: seq<string>)
    ensures Scan(lines).Ok? ==> |Scan(lines).value.records| == CountHru(lines)
    ensures Scan(lines).Ok? ==> forall h, k :: 0 <= h < |Scan(lines).value.records| && k in Scan(lines).value.records[h]
                                 ==> k == PotswKey || k == SunhrsKey
    decreases |lines|
  {
    if lines != [] {
      ScanRecords(lines[..|lines| - 1]);
    }
  }

  /** The tables are 366 rows by one column per HRU line. */
  lemma LoadShape(lines: seq<string>)
    ensures LoadSoltab(lines).Ok? ==>
      && |LoadSoltab(lines).value.potentialSwRad| == DaysPerYear
      && |LoadSoltab(lines).value.sunHrs| == DaysPerYear
      && forall d :: 0 <= d < DaysPerYear ==>
           |LoadSoltab(lines).value.potentialSwRad[d]| == CountHru(lines)
           && |LoadSoltab(lines).value.sunHrs[d]| == CountHru(lines)
  {
    ScanRecords(lines);
  }

  /** Filtering a concatenation filters each part. */
  lemma {:induction false} DataFieldsAppend(a: seq<string>, b: seq<string>)
    ensures DataFields(a + b) == DataFields(a) + DataFields(b)
    decreases |b|
  {
    if b == [] {
      assert a + b == a;
    } else {
      assert (a + b)[..|a + b| - 1] == a + b[..|b| - 1];
      DataFieldsAppend(a, b[..|b| - 1]);
    }
  }

  /** Filtering keeps a data column and drops "" and "\n". */
  lemma DataFieldsSingle(f: string)
    ensures DataFields([f]) == if IsData(f) then [f] else []
  {
    assert [f][..0] == [];
  }

  /** The values of `lines` read in order, as the data lines of one section
      contribute them. */
  function SectionValues(lines: seq<string>): seq<string>
    decreases |lines|
  {
    if lines == [] then [] else SectionValues(lines[..|lines| - 1]) + DataValues(lines[|lines| - 1])
  }

  /** One data line of an open section (list `k` of record `j`) before its
      29th line: its values are appended to that list. */
  lemma DataStepCollects(st: ScanState, line: string, j: nat, k: string, c: nat)
    requires st.hruInd.Some? && PyIndex(|st.records|, st.hruInd.value) == Some(j)
    requires st.key == Some(k) && k in st.records[j] && st.accumCount == Some(c)
    requires c < LinesPerSection
    requires IsDataLine(line) && Converts(DataValues(line))
    ensures Step(st, line) == Ok(st.(records := Appended(st.records, j, k, DataValues(line)), accumCount := Some(c + 1)))
  {
  }

  /** With a section open (list `k` of record `j`) and `c` of its lines
      counted, data lines up to the 29th append their values, in order, to
      that list and change nothing else. */
  lemma {:induction false} SectionCollects(st: ScanState, more: seq<string>, j: nat, k: string, c: nat)
    requires st.hruInd.Some? && PyIndex(|st.records|, st.hruInd.value) == Some(j)
    requires st.key == Some(k) && k in st.records[j] && st.accumCount == Some(c)
    requires c + |more| <= LinesPerSection
    requires forall i :: 0 <= i < |more| ==> IsDataLine(more[i]) && Converts(DataValues(more[i]))
    ensures ScanFrom(st, more) == Ok(st.(records := Appended(st.records, j, k, SectionValues(more)), accumCount := Some(c + |more|)))
    decreases |more|
  {
    if more == [] {
      RecordsAppend(st.records, j, k, [], []);
    } else {
      var init := more[..|more| - 1];
      var last := more[|more| - 1];
      SectionCollects(st, init, j, k, c);
      var st1 := st.(records := Appended(st.records, j, k, SectionValues(init)), accumCount := Some(c + |init|));
      DataStepCollects(st1, last, j, k, c + |init|);
      RecordsAppend(st.records, j, k, SectionValues(init), DataValues(last));
    }
  }

  /** The records with `vals` appended to list `k` of record `j`. */
  function Appended(records: seq<HruRecord>, j: nat, k: string, vals: seq<string>): seq<HruRecord>
    requires j < |records| && k in records[j]
  {
    records[j := records[j][k := records[j][k] + vals]]
  }

  /** Appending twice to one list is appending once. */
  lemma RecordsAppend(records: seq<HruRecord>, j: nat, k: string, a: seq<string>, b: seq<string>)
    requires j < |records| && k in records[j]
    ensures Appended(Appended(records, j, k, a), j, k, b) == Appended(records, j, k, a + b)
    ensures Appended(records, j, k, []) == records
  {
    assert records[j][k] + [] == records[j][k];
    assert records[j][k := records[j][k]] == records[j];
    var r1 := Appended(records, j, k, a);
    var m := records[j][k := records[j][k] + (a + b)];
    assert r1[j][k] + b == records[j][k] + (a + b);
    assert r1[j][k := r1[j][k] + b] == m;
    assert r1[j := m] == records[j := m];
  }

  /** A data line of a section past its 29th line is only counted. */
  lemma DataStepCapped(st: ScanState, line: string, c: nat)
    requires st.accumCount == Some(c) && c >= LinesPerSection
    requires IsDataLine(line)
    ensures Step(st, line) == Ok(st.(accumCount := Some(c + 1)))
  {
  }

  /** Past its 29th line, the data lines of a section are only counted. */
  lemma {:induction false} SectionCap(st: ScanState, more: seq<string>, c: nat)
    requires st.accumCount == Some(c) && c >= LinesPerSection
    requires forall i :: 0 <= i < |more| ==> IsDataLine(more[i])
    ensures ScanFrom(st, more) == Ok(st.(accumCount := Some(c + |more|)))
    decreases |more|
  {
    if more != [] {
      var init := more[..|more| - 1];
      SectionCap(st, init, c);
      DataStepCapped(st.(accumCount := Some(c + |init|)), more[|more| - 1], c + |init|);
    }
  }

  /** An HRU line whose field after ':' reads as `n` appends an empty record
      and selects index `n - 1`; nothing else changes. */
  lemma HruLineStep(st: ScanState, line: string, field: string, n: int)
    requires IsHruLine(line) && HruField(line) == Some(field) && ParseInt(field) == Some(n)
    ensures Step(st, line) == Ok(st.(records := st.records + [map[]], hruInd := Some(n - 1)))
  {
  }

  /** A section line, once an HRU line has selected record `j`, selects its
      key, empties that key's list in record `j` and restarts the line
      count. */
  lemma SectionLineStep(st: ScanState, line: string, j: nat)
    requires StartsWith(line, SunhrsHeader) || StartsWith(line, PotswHeader)
    requires st.hruInd.Some? && PyIndex(|st.records|, st.hruInd.value) == Some(j)
    ensures var k := if StartsWith(line, SunhrsHeader) then SunhrsKey else PotswKey;
      Step(st, line) == Ok(st.(records := st.records[j := st.records[j][k := []]], key := Some(k), accumCount := Some(0)))
  {
    assert line[1] == '*';
  }

  /** A failure inside the loop is the failure of the whole file. */
  lemma {:induction false} ScanErrorPersists(lines: seq<string>, more: seq<string>, e: SoltabError)
    requires Scan(lines) == Err(e)
    ensures Scan(lines + more) == Err(e)
    ensures LoadSoltab(lines + more) == Err(e)
  {
    ScanAppend(Initial, lines, more);
  }
}
