/** A layout of the `soltab_debug` file that `load_soltab_debug` accepts,
    following what its comments say of the file (values 8 characters wide,
    13 to a line, and only 29 lines of a section read): per HRU an HRU line,
    then a potential-radiation section and a sun-hours section, each a
    header line and the 366 values of the year (28 full lines and a final
    line of 2). PRMS's own writer is not part of this model. Reading a file
    rendered in this layout gives back the rendered values. */
module SoltabFormat {
  import opened Wrappers
  import opened Text
  import opened SoltabDebug

  /** A value as the file holds it: eight characters without a line break
      that spell a number once surrounding whitespace is dropped. */
  predicate IsField(f: string)
  {
    |f| == Width && '\n' !in f && IsFloatText(Strip(f))
  }

  predicate AllFields(vals: seq<string>)
  {
    forall i :: 0 <= i < |vals| ==> IsField(vals[i])
  }

  /** Every field is eight characters wide. */
  predicate Widths(vals: seq<string>)
  {
    forall i :: 0 <= i < |vals| ==> |vals[i]| == Width
  }

  /** The values of one section: a full year of fields. */
  predicate IsYear(vals: seq<string>)
  {
    |vals| == DaysPerYear && AllFields(vals)
  }

  /** The fields written side by side. */
  function Concat(fs: seq<string>): string
    decreases |fs|
  {
    if fs == [] then [] else Concat(fs[..|fs| - 1]) + fs[|fs| - 1]
  }

  /** The value lines of a section: 13 fields to a line, the rest on a
      last, shorter line; every line ends with a line break. */
  function ValueLines(vals: seq<string>): (r: seq<string>)
    requires |vals| > 0
    ensures |r| == (|vals| + FieldsPerLine - 1) / FieldsPerLine
    decreases |vals|
  {
    if |vals| <= FieldsPerLine then [Concat(vals) + "\n"]
    else [Concat(vals[..FieldsPerLine]) + "\n"] + ValueLines(vals[FieldsPerLine..])
  }

  function SectionLines(header: string, vals: seq<string>): seq<string>
    requires |vals| > 0
  {
    [header + "\n"] + ValueLines(vals)
  }

  /** The HRU line of record `h`; the file numbers HRUs from 1. */
  function HruLine(h: nat): string
  {
    HruPrefix + NatToString(h + 1) + "\n"
  }

  /** All lines of HRU `h`. */
  function HruLines(h: nat, potsw: seq<string>, sunhrs: seq<string>): seq<string>
    requires IsYear(potsw) && IsYear(sunhrs)
  {
    [HruLine(h)] + SectionLines(PotswHeader, potsw) + SectionLines(SunhrsHeader, sunhrs)
  }

  /** The file for HRUs `0 .. |potsw| - 1`, the values of HRU `h` being
      `potsw[h]` and `sunhrs[h]`. */
  function Render(potsw: seq<seq<string>>, sunhrs: seq<seq<string>>): seq<string>
    requires |potsw| == |sunhrs|
    requires forall h :: 0 <= h < |potsw| ==> IsYear(potsw[h]) && IsYear(sunhrs[h])
    decreases |potsw|
  {
    if potsw == [] then []
    else
      var n := |potsw| - 1;
      Render(potsw[..n], sunhrs[..n]) + HruLines(n, potsw[n], sunhrs[n])
  }

  /** The record the reader builds for one HRU of the file. */
  function FullRecord(potsw: seq<string>, sunhrs: seq<string>): HruRecord
  {
    map[PotswKey := potsw, SunhrsKey := sunhrs]
  }

  // ---------------------------------------------------------------------
  // A value line
  // ---------------------------------------------------------------------

  /** A scan that has met a character no spelling of a number holds
      rejects. */
  lemma {:induction false} RejectStays(s: string)
    ensures ScanFloat(s, Reject) == Reject
    decreases |s|
  {
    if s != [] {
      RejectStays(s[1..]);
    }
  }

  lemma {:induction false} ScanRejects(s: string, st: FloatScan, k: nat)
    requires k < |s| && (s[k] == 'H' || s[k] == '*')
    ensures ScanFloat(s, st) == Reject
    decreases k
  {
    if k == 0 {
      assert FloatStep(st, s[0]) == Reject;
      RejectStays(s[1..]);
    } else {
      ScanRejects(s[1..], FloatStep(st, s[0]), k - 1);
    }
  }

  /** The second character of a field is neither 'H' nor '*', so a value
      line never starts like an HRU line or a section line. */
  lemma FieldSecondChar(f: string)
    requires IsField(f)
    ensures f[1] != 'H' && f[1] != '*'
  {
    if f[1] == 'H' || f[1] == '*' {
      var g := StripRight(f);
      StripRightMeaning(f);
      assert 1 < |g| && g[1] == f[1];
      var r := StripLeft(g);
      StripLeftMeaning(g);
      var cut := |g| - |r|;
      assert cut <= 1;
      assert r[1 - cut] == f[1];
      ScanRejects(r, Start, 1 - cut);
      assert false;
    }
  }

  lemma {:induction false} ConcatSlices(c: seq<string>)
    requires forall j :: 0 <= j < |c| ==> |c[j]| == Width
    ensures |Concat(c)| == Width * |c|
    ensures forall i :: 0 <= i < |c| ==> Concat(c)[Width * i..Width * i + Width] == c[i]
    decreases |c|
  {
    if c != [] {
      var init := c[..|c| - 1];
      ConcatSlices(init);
      var a := Concat(init);
      forall i | 0 <= i < |c|
        ensures Concat(c)[Width * i..Width * i + Width] == c[i]
      {
        if i < |init| {
          assert (a + c[|c| - 1])[Width * i..Width * i + Width] == a[Width * i..Width * i + Width];
        } else {
          assert (a + c[|c| - 1])[Width * i..Width * i + Width] == c[|c| - 1];
        }
      }
    }
  }

  /** The columns after the fields of a line of `k` fields: the line break,
      then empty slices. */
  function ColumnTail(k: nat): seq<string>
    requires k <= FieldsPerLine
  {
    if k == FieldsPerLine then [] else ["\n"] + seq(FieldsPerLine - 1 - k, _ => "")
  }

  /** Column `i` of a line of `|c|` fields: field `i`, the line break
      right after the last field, or nothing. */
  lemma ColumnOf(c: seq<string>, i: nat)
    requires 1 <= |c| <= FieldsPerLine && Widths(c)
    requires i < FieldsPerLine
    ensures Columns(Concat(c) + "\n")[i] == (c + ColumnTail(|c|))[i]
  {
    if i < |c| {
      ColumnIsField(c, i);
    } else if i == |c| {
      ColumnIsBreak(c);
    } else {
      ColumnIsEmpty(c, i);
    }
  }

  lemma ColumnIsField(c: seq<string>, i: nat)
    requires Widths(c) && i < |c| <= FieldsPerLine
    ensures Columns(Concat(c) + "\n")[i] == c[i]
  {
    ConcatSlice(c, i);
    ColumnField(Concat(c), c[i], i * Width);
    ColumnIsSlice(Concat(c) + "\n", i);
  }

  lemma ColumnIsBreak(c: seq<string>)
    requires Widths(c) && |c| < FieldsPerLine
    ensures Columns(Concat(c) + "\n")[|c|] == "\n"
    ensures ColumnTail(|c|)[0] == "\n"
  {
    ConcatSlice(c, |c|);
    ColumnBreak(Concat(c));
    ColumnIsSlice(Concat(c) + "\n", |c|);
  }

  lemma ColumnIsEmpty(c: seq<string>, i: nat)
    requires Widths(c) && |c| < i < FieldsPerLine
    ensures Columns(Concat(c) + "\n")[i] == ""
    ensures ColumnTail(|c|)[i - |c|] == ""
  {
    ConcatSlice(c, i);
    ColumnPastEnd(Concat(c) + "\n", i);
  }

  /** Column `i` of any line is its slice `[8i, 8i+8)`. */
  lemma ColumnIsSlice(line: string, i: nat)
    requires i < FieldsPerLine
    ensures Columns(line)[i] == PySlice(line, i * Width, i * Width + Width)
  {
  }

  /** A column that starts past the end of the line is empty. */
  lemma ColumnPastEnd(line: string, i: nat)
    requires |line| <= i * Width && i < FieldsPerLine
    ensures Columns(line)[i] == ""
  {
    ColumnIsSlice(line, i);
  }

  /** Where field `i` sits in a line. */
  lemma ConcatSlice(c: seq<string>, i: nat)
    requires Widths(c)
    ensures |Concat(c)| == |c| * Width
    ensures i < |c| ==> i * Width + Width <= |Concat(c)| && Concat(c)[i * Width..i * Width + Width] == c[i]
    ensures i == |c| ==> i * Width == |Concat(c)|
    ensures i > |c| ==> i * Width > |Concat(c)| + 1
  {
    ConcatSlices(c);
    if i < |c| {
      assert Width * i == i * Width;
    }
  }

  lemma ColumnField(s: string, f: string, lo: nat)
    requires lo + Width <= |s| && s[lo..lo + Width] == f
    ensures PySlice(s + "\n", lo, lo + Width) == f
  {
    assert (s + "\n")[lo..lo + Width] == s[lo..lo + Width];
  }

  lemma ColumnBreak(s: string)
    ensures PySlice(s + "\n", |s|, |s| + Width) == "\n"
  {
  }

  /** The 13 columns of a line of `|c|` fields. */
  lemma ChunkColumns(c: seq<string>)
    requires 1 <= |c| <= FieldsPerLine && Widths(c)
    ensures Columns(Concat(c) + "\n") == c + ColumnTail(|c|)
  {
    var cols := Columns(Concat(c) + "\n");
    var want := c + ColumnTail(|c|);
    forall i | 0 <= i < FieldsPerLine
      ensures cols[i] == want[i]
    {
      ColumnOf(c, i);
    }
  }

  lemma {:induction false} DataFieldsAllData(c: seq<string>)
    requires forall j :: 0 <= j < |c| ==> IsData(c[j])
    ensures DataFields(c) == c
    decreases |c|
  {
    if c != [] {
      DataFieldsAllData(c[..|c| - 1]);
      assert c[..|c| - 1] + [c[|c| - 1]] == c;
    }
  }

  lemma {:induction false} DataFieldsNoData(c: seq<string>)
    requires forall j :: 0 <= j < |c| ==> !IsData(c[j])
    ensures DataFields(c) == []
    decreases |c|
  {
    if c != [] {
      DataFieldsNoData(c[..|c| - 1]);
    }
  }

  /** A line that differs from `prefix` at position `i` does not start
      with it. */
  lemma NotStartsWith(line: string, prefix: string, i: nat)
    requires i < |prefix| && i < |line| && line[i] != prefix[i]
    ensures !StartsWith(line, prefix)
  {
    if |prefix| <= |line| {
      assert line[..|prefix|][i] == line[i];
    }
  }

  /** A line of 1 to 13 fields yields exactly those fields. */
  lemma ChunkValues(c: seq<string>)
    requires 1 <= |c| <= FieldsPerLine && Widths(c)
    ensures DataValues(Concat(c) + "\n") == c
  {
    var tail := ColumnTail(|c|);
    FieldsAreData(c);
    TailIsNoData(|c|);
    ChunkColumns(c);
    DataFieldsAppend(c, tail);
    assert c + [] == c;
  }

  lemma FieldsAreData(c: seq<string>)
    requires Widths(c)
    ensures DataFields(c) == c
  {
    DataFieldsAllData(c);
  }

  lemma TailIsNoData(k: nat)
    requires k <= FieldsPerLine
    ensures DataFields(ColumnTail(k)) == []
  {
    DataFieldsNoData(ColumnTail(k));
  }

  /** The first field of a line starts it. */
  lemma ConcatFirst(c: seq<string>)
    requires 1 <= |c| && Widths(c)
    ensures Width <= |Concat(c)| && Concat(c)[1] == c[0][1]
  {
    ConcatSlices(c);
    assert Concat(c)[Width * 0..Width * 0 + Width] == c[0];
  }

  /** A line whose second character is neither 'H' nor '*' is a data
      line. */
  lemma SecondCharData(line: string)
    requires 1 < |line| && line[1] != 'H' && line[1] != '*'
    ensures IsDataLine(line)
  {
    NotStartsWith(line, HruPrefix, 1);
    NotStartsWith(line, SunhrsHeader, 1);
    NotStartsWith(line, PotswHeader, 1);
  }

  /** A line of fields is taken for a data line. */
  lemma ChunkIsDataLine(c: seq<string>)
    requires 1 <= |c| && Widths(c) && c[0][1] != 'H' && c[0][1] != '*'
    ensures IsDataLine(Concat(c) + "\n")
  {
    ConcatFirst(c);
    var line := Concat(c) + "\n";
    assert line[1] == c[0][1];
    SecondCharData(line);
  }

  lemma {:induction false} SectionValuesAppend(a: seq<string>, b: seq<string>)
    ensures SectionValues(a + b) == SectionValues(a) + SectionValues(b)
    decreases |b|
  {
    if b == [] {
      assert a + b == a;
    } else {
      var init, last := b[..|b| - 1], b[|b| - 1];
      assert (a + b)[..|a + b| - 1] == a + init && (a + b)[|a + b| - 1] == last;
      SectionValuesAppend(a, init);
      assert SectionValues(a + b) == SectionValues(a + init) + DataValues(last);
    }
  }

  /** The value lines of a section, read in order, give back the
      section's values. */
  lemma {:induction false} ValueLinesValues(vals: seq<string>)
    requires |vals| > 0 && Widths(vals)
    ensures SectionValues(ValueLines(vals)) == vals
    decreases |vals|
  {
    if |vals| <= FieldsPerLine {
      ChunkValues(vals);
      assert SectionValues([Concat(vals) + "\n"]) == SectionValues([]) + DataValues(Concat(vals) + "\n");
    } else {
      var head := vals[..FieldsPerLine];
      var rest := vals[FieldsPerLine..];
      ChunkValues(head);
      ValueLinesValues(rest);
      var first := [Concat(head) + "\n"];
      SectionValuesAppend(first, ValueLines(rest));
      assert SectionValues(first) == SectionValues([]) + DataValues(Concat(head) + "\n");
      assert head + rest == vals;
    }
  }

  /** A line of 1 to 13 fields is a data line whose fields convert. */
  lemma ChunkReadable(c: seq<string>)
    requires 1 <= |c| <= FieldsPerLine && AllFields(c)
    ensures IsDataLine(Concat(c) + "\n") && Converts(DataValues(Concat(c) + "\n"))
  {
    assert Widths(c);
    ChunkValues(c);
    FieldSecondChar(c[0]);
    ChunkIsDataLine(c);
  }

  /** Every value line of a section is a data line whose fields convert. */
  lemma {:induction false} ValueLinesData(vals: seq<string>)
    requires |vals| > 0 && AllFields(vals)
    ensures forall i :: 0 <= i < |ValueLines(vals)| ==>
      IsDataLine(ValueLines(vals)[i]) && Converts(DataValues(ValueLines(vals)[i]))
    decreases |vals|
  {
    if |vals| <= FieldsPerLine {
      ChunkReadable(vals);
    } else {
      var head := vals[..FieldsPerLine];
      var rest := vals[FieldsPerLine..];
      assert AllFields(head) && AllFields(rest);
      ChunkReadable(head);
      ValueLinesData(rest);
      var lines := ValueLines(vals);
      assert lines == [Concat(head) + "\n"] + ValueLines(rest);
      forall i | 0 <= i < |lines|
        ensures IsDataLine(lines[i]) && Converts(DataValues(lines[i]))
      {
        if i > 0 {
          assert lines[i] == ValueLines(rest)[i - 1];
        }
      }
    }
  }

  // ---------------------------------------------------------------------
  // The HRU and section lines
  // ---------------------------------------------------------------------

  lemma StripNumberLine(digits: string)
    requires |digits| > 0 && AllDigits(digits)
    ensures Strip(HruPrefix + digits + "\n") == "HRU:" + digits
  {
    var s := HruPrefix + digits + "\n";
    var g := StripRight(s);
    StripRightMeaning(s);
    assert IsDigit(digits[|digits| - 1]) && s[|s| - 2] == digits[|digits| - 1];
    assert |g| == |s| - 1;
    assert g == " HRU:" + digits;
    var r := StripLeft(g);
    StripLeftMeaning(g);
    assert g[0] == ' ' && g[1] == 'H' && !IsWhitespace('H');
    assert |g| - |r| == 1;
    assert r == g[1..];
  }

  lemma DigitsHaveNoSeparators(digits: string)
    requires AllDigits(digits)
    ensures ':' !in digits && ' ' !in digits
  {
    forall i | 0 <= i < |digits|
      ensures digits[i] != ':' && digits[i] != ' '
    {
      assert IsDigit(digits[i]);
    }
  }

  /** The field after ':' of an HRU line, read as `n`, selects `n - 1`. */
  lemma HruIndexOfField(line: string, field: string, n: int)
    requires HruField(line) == Some(field)
    requires ParseInt(field) == Some(n)
    ensures HruIndex(line) == Ok(n - 1)
  {
  }

  /** The HRU line of record `h` selects index `h`. */
  lemma HruLineIndex(h: nat)
    ensures IsHruLine(HruLine(h))
    ensures HruIndex(HruLine(h)) == Ok(h)
  {
    var digits := NatToString(h + 1);
    StripNumberLine(digits);
    DigitsHaveNoSeparators(digits);
    var stripped := "HRU" + [':'] + digits;
    assert "HRU:" + digits == stripped;
    assert ' ' !in stripped;
    RemoveSpacesMeaning(stripped);
    assert HruField(HruLine(h)) == SecondField(stripped, ':');
    SecondFieldOfJoin("HRU", ':', digits);
    ParseIntOfIntToString(h + 1);
    assert IntToString(h + 1) == digits;
    HruIndexOfField(HruLine(h), digits, h + 1);
    assert HruLine(h)[..|HruPrefix|] == HruPrefix;
  }

  lemma HeaderLines()
    ensures !StartsWith(PotswHeader + "\n", HruPrefix)
    ensures !StartsWith(PotswHeader + "\n", SunhrsHeader)
    ensures StartsWith(PotswHeader + "\n", PotswHeader)
    ensures !StartsWith(SunhrsHeader + "\n", HruPrefix)
    ensures StartsWith(SunhrsHeader + "\n", SunhrsHeader)
  {
    assert (PotswHeader + "\n")[1] == '*';
    assert (SunhrsHeader + "\n")[1] == '*';
    assert (PotswHeader + "\n")[11] == 'p';
    assert (PotswHeader + "\n")[..|PotswHeader|] == PotswHeader;
    assert (SunhrsHeader + "\n")[..|SunhrsHeader|] == SunhrsHeader;
  }

  // ---------------------------------------------------------------------
  // Round trip
  // ---------------------------------------------------------------------

  /** The loop over a single line is one step. */
  lemma ScanOne(st: ScanState, line: string)
    ensures ScanFrom(st, [line]) == Step(st, line)
  {
    assert [line][..0] == [];
  }

  /** 29 data lines whose fields convert, read into a section just opened
      (list `k` of record `j`, empty, no line counted), fill that list with
      their values. */
  lemma LinesCollected(st: ScanState, lines: seq<string>, j: nat, k: string, vals: seq<string>)
    requires st.hruInd.Some? && PyIndex(|st.records|, st.hruInd.value) == Some(j)
    requires st.key == Some(k) && k in st.records[j] && st.records[j][k] == [] && st.accumCount == Some(0)
    requires |lines| == LinesPerSection && SectionValues(lines) == vals
    requires forall i :: 0 <= i < |lines| ==> IsDataLine(lines[i]) && Converts(DataValues(lines[i]))
    ensures ScanFrom(st, lines) ==
      Ok(st.(records := st.records[j := st.records[j][k := vals]], accumCount := Some(LinesPerSection)))
  {
    SectionCollects(st, lines, j, k, 0);
    assert st.records[j][k] + vals == vals;
  }

  /** The value lines of a section just opened fill its list with the
      values and count 29 lines. */
  lemma ValuesRead(st: ScanState, j: nat, k: string, vals: seq<string>)
    requires IsYear(vals)
    requires st.hruInd.Some? && PyIndex(|st.records|, st.hruInd.value) == Some(j)
    requires st.key == Some(k) && k in st.records[j] && st.records[j][k] == [] && st.accumCount == Some(0)
    ensures ScanFrom(st, ValueLines(vals)) ==
      Ok(st.(records := st.records[j := st.records[j][k := vals]], accumCount := Some(LinesPerSection)))
  {
    ValueLinesValues(vals);
    ValueLinesData(vals);
    LinesCollected(st, ValueLines(vals), j, k, vals);
  }

  /** Two updates of one list of one record are the last of them. */
  lemma UpdateTwice(records: seq<HruRecord>, j: nat, k: string, a: seq<string>, b: seq<string>)
    requires j < |records|
    ensures records[j := records[j][k := a]][j := records[j := records[j][k := a]][j][k := b]]
         == records[j := records[j][k := b]]
  {
    assert records[j][k := a][k := b] == records[j][k := b];
  }

  /** A section written after its header: the reader's list for the section
      holds the values, and all 29 lines have been counted. */
  lemma SectionRead(st: ScanState, j: nat, header: string, k: string, vals: seq<string>)
    requires IsYear(vals)
    requires st.hruInd.Some? && PyIndex(|st.records|, st.hruInd.value) == Some(j)
    requires ScanFrom(st, [header + "\n"]) ==
      Ok(st.(records := st.records[j := st.records[j][k := []]], key := Some(k), accumCount := Some(0)))
    ensures ScanFrom(st, SectionLines(header, vals)) ==
      Ok(st.(records := st.records[j := st.records[j][k := vals]], key := Some(k), accumCount := Some(LinesPerSection)))
  {
    var st1 := st.(records := st.records[j := st.records[j][k := []]], key := Some(k), accumCount := Some(0));
    ValuesRead(st1, j, k, vals);
    var st2 := st1.(records := st1.records[j := st1.records[j][k := vals]], accumCount := Some(LinesPerSection));
    assert ScanFrom(st1, ValueLines(vals)) == Ok(st2);
    UpdateTwice(st.records, j, k, [], vals);
    assert st2 == st.(records := st.records[j := st.records[j][k := vals]], key := Some(k), accumCount := Some(LinesPerSection));
    ScanAppend(st, [header + "\n"], ValueLines(vals));
    assert ScanFrom(st, [header + "\n"] + ValueLines(vals)) == Ok(st2);
  }

  /** A section header line opens list `k` of the current record. */
  lemma HeaderRead(st: ScanState, j: nat, header: string, k: string)
    requires (header, k) == (PotswHeader, PotswKey) || (header, k) == (SunhrsHeader, SunhrsKey)
    requires st.hruInd.Some? && PyIndex(|st.records|, st.hruInd.value) == Some(j)
    ensures ScanFrom(st, [header + "\n"]) ==
      Ok(st.(records := st.records[j := st.records[j][k := []]], key := Some(k), accumCount := Some(0)))
  {
    HeaderLines();
    ScanOne(st, header + "\n");
  }

  /** The HRU line of record `h`, read once `h` records exist, adds an
      empty record and selects it. */
  lemma HruLineRead(st: ScanState, h: nat)
    requires |st.records| == h
    ensures ScanFrom(st, [HruLine(h)]) == Ok(st.(records := st.records + [map[]], hruInd := Some(h)))
  {
    HruLineIndex(h);
    ScanOne(st, HruLine(h));
  }

  /** The loop over three pieces, one after the other. */
  lemma ScanThree(st: ScanState, a: seq<string>, b: seq<string>, c: seq<string>, st1: ScanState, st2: ScanState, st3: ScanState)
    requires ScanFrom(st, a) == Ok(st1) && ScanFrom(st1, b) == Ok(st2) && ScanFrom(st2, c) == Ok(st3)
    ensures ScanFrom(st, a + b + c) == Ok(st3)
  {
    ScanAppend(st, a, b);
    ScanAppend(st, a + b, c);
  }

  /** An empty record filled with its two lists is the full record. */
  lemma RecordFilled(records: seq<HruRecord>, potsw: seq<string>, sunhrs: seq<string>)
    ensures var r1 := records + [map[]];
            var r2 := r1[|records| := r1[|records|][PotswKey := potsw]];
            r2[|records| := r2[|records|][SunhrsKey := sunhrs]] == records + [FullRecord(potsw, sunhrs)]
  {
  }

  /** The lines of HRU `h`, read once `h` records exist, add the record of
      its two sections. */
  lemma HruRead(st: ScanState, h: nat, potsw: seq<string>, sunhrs: seq<string>)
    requires IsYear(potsw) && IsYear(sunhrs)
    requires |st.records| == h
    ensures ScanFrom(st, HruLines(h, potsw, sunhrs)) ==
      Ok(ScanState(st.records + [FullRecord(potsw, sunhrs)], Some(h), Some(SunhrsKey), Some(LinesPerSection)))
  {
    var st1 := st.(records := st.records + [map[]], hruInd := Some(h));
    HruLineRead(st, h);
    HeaderRead(st1, h, PotswHeader, PotswKey);
    SectionRead(st1, h, PotswHeader, PotswKey, potsw);
    var st2 := st1.(records := st1.records[h := st1.records[h][PotswKey := potsw]], key := Some(PotswKey), accumCount := Some(LinesPerSection));
    HeaderRead(st2, h, SunhrsHeader, SunhrsKey);
    SectionRead(st2, h, SunhrsHeader, SunhrsKey, sunhrs);
    var st3 := st2.(records := st2.records[h := st2.records[h][SunhrsKey := sunhrs]], key := Some(SunhrsKey), accumCount := Some(LinesPerSection));
    ScanThree(st, [HruLine(h)], SectionLines(PotswHeader, potsw), SectionLines(SunhrsHeader, sunhrs), st1, st2, st3);
    RecordFilled(st.records, potsw, sunhrs);
  }

  /** The records the reader builds for the whole file. */
  function Records(potsw: seq<seq<string>>, sunhrs: seq<seq<string>>): (r: seq<HruRecord>)
    requires |potsw| == |sunhrs|
    ensures |r| == |potsw|
    ensures forall h :: 0 <= h < |r| ==> r[h] == FullRecord(potsw[h], sunhrs[h])
  {
    seq(|potsw|, h requires 0 <= h < |potsw| => FullRecord(potsw[h], sunhrs[h]))
  }

  lemma RecordsSnoc(potsw: seq<seq<string>>, sunhrs: seq<seq<string>>)
    requires |potsw| == |sunhrs| && |potsw| > 0
    ensures var n := |potsw| - 1;
            Records(potsw[..n], sunhrs[..n]) + [FullRecord(potsw[n], sunhrs[n])] == Records(potsw, sunhrs)
  {
    var n := |potsw| - 1;
    assert Records(potsw[..n], sunhrs[..n]) + [FullRecord(potsw[n], sunhrs[n])] == Records(potsw, sunhrs);
  }

  /** The reader's records for a written file: one full record per HRU, in
      order. */
  lemma {:induction false} RenderScanned(potsw: seq<seq<string>>, sunhrs: seq<seq<string>>)
    requires |potsw| == |sunhrs|
    requires forall h :: 0 <= h < |potsw| ==> IsYear(potsw[h]) && IsYear(sunhrs[h])
    ensures Scan(Render(potsw, sunhrs)).Ok?
    ensures Scan(Render(potsw, sunhrs)).value.records == Records(potsw, sunhrs)
    ensures potsw != [] ==> Scan(Render(potsw, sunhrs)).value.accumCount == Some(LinesPerSection)
    decreases |potsw|
  {
    if potsw != [] {
      var n := |potsw| - 1;
      var front := Render(potsw[..n], sunhrs[..n]);
      var last := HruLines(n, potsw[n], sunhrs[n]);
      assert Render(potsw, sunhrs) == front + last;
      RenderScanned(potsw[..n], sunhrs[..n]);
      var st := Scan(front).value;
      HruRead(st, n, potsw[n], sunhrs[n]);
      ScanAppend(Initial, front, last);
      RecordsSnoc(potsw, sunhrs);
    }
  }

  /** Reading a rendered file gives back the rendered values: row `d`,
      column `h` of each table is day `d` of HRU `h`. Lines after the last
      section that are neither HRU nor section lines (the reader expects
      two) are only counted, once an HRU has been read. */
  lemma LoadRender(potsw: seq<seq<string>>, sunhrs: seq<seq<string>>, trailer: seq<string>)
    requires |potsw| == |sunhrs|
    requires forall h :: 0 <= h < |potsw| ==> IsYear(potsw[h]) && IsYear(sunhrs[h])
    requires forall i :: 0 <= i < |trailer| ==> IsDataLine(trailer[i])
    requires potsw != [] || trailer == []
    ensures LoadSoltab(Render(potsw, sunhrs) + trailer).Ok?
    ensures
      var t := LoadSoltab(Render(potsw, sunhrs) + trailer).value;
      && |t.potentialSwRad| == DaysPerYear && |t.sunHrs| == DaysPerYear
      && forall d, h :: 0 <= d < DaysPerYear && 0 <= h < |potsw| ==>
           && |t.potentialSwRad[d]| == |potsw| && t.potentialSwRad[d][h] == potsw[h][d]
           && |t.sunHrs[d]| == |potsw| && t.sunHrs[d][h] == sunhrs[h][d]
  {
    RenderScanned(potsw, sunhrs);
    var file := Render(potsw, sunhrs);
    var st := Scan(file).value;
    ScanAppend(Initial, file, trailer);
    if potsw == [] {
      assert file + trailer == file;
    } else {
      SectionCap(st, trailer, LinesPerSection);
    }
    assert Scan(file + trailer).value.records == st.records;
    var records := Records(potsw, sunhrs);
    assert AllFullYears(records);
    assert HasBothSections(records);
  }
}
