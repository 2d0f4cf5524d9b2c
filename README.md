# PRMS parameter file and soltab debug file readers

This project models two readers of pynhm, a Python port of the USGS PRMS
hydrologic model, and proves what they compute.

- **The parameter-file reader** `_load_prms_parameters`
  (`pynhm/utils/parameters.py`) and the `PrmsParameters` object built from
  it. A legacy PRMS parameter file is read with one cursor in two phases:
  - The dimension phase: lines before `** Dimensions **` are passed over.
    After the marker, each dimension is a three-line record (a leading line,
    the name, the size). The first declaration of a name wins.
  - The parameter phase: after `** Parameters **`, every `####` line opens a
    record. A record holds a name (up to the first space), a dimension
    count, that many dimension names, a value count, a type code and the
    values. Code 1 means integers, code 2 floats, any other code the raw
    text of the lines. A two-dimension record is shaped (size of the second
    dimension, size of the first).
  - A repeated parameter keeps its first values and is reported, but its
    dimension names and type code are replaced. Its type code and dimension
    names may then no longer describe its values: a parameter read first as
    type 1 and then as type 2 keeps integer values under type code 2
    (`RepeatedNameRetyped`). Only parameters read once are proved typed by
    their code and shaped by their dimension names (`LoadTyped`).
  - Every failure becomes a `ValueError` carrying the line number reached.
    In the dimension phase it also carries the offending line.
- **The soltab debug reader** `load_soltab_debug`
  (`pynhm/utils/prms5util.py`). It reads the `soltab_debug` file of PRMS
  5.2.1 with a small state machine:
  - An ` HRU:` line opens a new per-HRU record and selects it by the number
    after the colon, minus one.
  - A section line (` ***Soltab_sunhrs***` or ` ***Soltab_potsw***`)
    empties that section's list and restarts the line count.
  - Every other line is cut into thirteen 8-character columns. Only the
    first 29 lines of a section contribute, and empty columns and line
    breaks are dropped.
  - Every list must end with 366 values. The result is two tables of 366
    rows by one column per HRU.

Each reader has two layers:

- The imperative code is modelled as methods with loops, arrays and maps
  updated in place: modules `Parameters` and `Prms5Util`.
- Each method is proved equal to a specification function over the file's
  lines: modules `PrmsParameterFile` and `SoltabDebug`.

The reader's properties are proved as lemmas about those functions.
Module `SoltabFormat` defines a layout of the soltab file that the reader
accepts, following what the reader's comments say of the file
(`pynhm/utils/prms5util.py` lines 236-237 and 258-259: 8-character values,
13 to a line, 29 lines a section). It proves that reading a file rendered
in that layout gives back the rendered values. PRMS's own writer is not
part of this model.

Lines are given as a sequence of strings:

- For the parameter file, every line is already right-stripped, as the
  source does with `rstrip()`. Reading past the end yields `""`, as
  `readline()` does at the end of a file.
- For the soltab file, lines keep their line break, as `readlines()` gives
  them.

The error position is the number of lines consumed. The model keeps
numeric values as the text they were read from, except integer values of
type 1, which are parsed.

## Model

| member | source | states |
|---|---|---|
| Parameters.LoadPrmsParameters | pynhm/utils/parameters.py:36-155 | The single-cursor loop over both phases, with dictionaries updated in place, returns exactly `Load(lines)`. Its tables are consistent: the three parameter dictionaries share their names, and every array is well shaped and of one kind. |
| Parameters.ReadDimensions | pynhm/utils/parameters.py:48-81 | The dimension loop (marker tests, the three-line records and the line count) returns exactly `DimsPhase(lines, 0, {}, false)`: the sizes and the number of lines consumed, or the error. |
| Parameters.ReadParameter | pynhm/utils/parameters.py:89-138 | Reading one record after `####` returns exactly `ReadRecord`: the record and the cursor after its last value, or the error. |
| Parameters.ReadParameterHeader | pynhm/utils/parameters.py:89-114 | Reading the name, the dimension count, the dimension names, the value count and the type code returns exactly `ReadHeader`. |
| Parameters.ReadDimensionNames | pynhm/utils/parameters.py:99-106 | The array `pd` filled line by line holds the `num_dims` lines after the count, in file order. |
| Parameters.ReadParameterValues | pynhm/utils/parameters.py:116-138 | Filling `vs` line by line under the type code, then assigning its shape, returns exactly `ReadBody`, whose success condition and error lines ReadBodyOutcome states. |
| Parameters.PrmsParameters.constructor | pynhm/utils/parameters.py:11-17 | The object holds the reader's four dictionaries unchanged and is valid, because the tables are consistent. |
| Parameters.PrmsParameters.GetDimensions | pynhm/utils/parameters.py:19-21 | Returns the dimension sizes. |
| Parameters.PrmsParameters.GetParameterData | pynhm/utils/parameters.py:23-25 | Returns the arrays. They are named exactly as the parameter dimensions, and each one is well shaped and of one kind. |
| Parameters.PrmsParameters.GetParameterDimensions | pynhm/utils/parameters.py:27-29 | Returns the dimension names. They are named exactly as the type codes. |
| Parameters.PrmsParameters.GetParameterTypes | pynhm/utils/parameters.py:31-33 | Returns the type codes. They are named exactly as the arrays. |
| Parameters.NewPrmsParameters | pynhm/utils/parameters.py:11-17 | `PrmsParameters(file)` fails exactly when the load fails, with the same error. Otherwise it yields a fresh valid object holding the loaded tables. |
| PrmsParameterFile.AddDimension | pynhm/utils/parameters.py:63-75 | One dimension record. A declared name leaves the sizes unchanged. A new name gets the integer its size line reads as. It fails exactly when the name is new and the size line is not an integer, and then carries the line count and that line's text. |
| PrmsParameterFile.DimsPhaseKeepsFirst | pynhm/utils/parameters.py:72-75 | Over the whole dimension phase, a declared dimension keeps its first size: the final sizes extend the sizes held at any point. |
| PrmsParameterFile.DimsPhaseAdvance | pynhm/utils/parameters.py:50-75 | One iteration of the dimension loop either ends the phase with the sizes it had, or goes on from a later cursor with sizes that keep every earlier size. |
| PrmsParameterFile.DimsRecordEntered | pynhm/utils/parameters.py:63-75 | A dimension record read during a successful phase ends up in the final sizes: a name declared before keeps its size, and a new name has the integer its size line reads as. |
| PrmsParameterFile.SkipPreamble | pynhm/utils/parameters.py:54-63 | Lines before the first marker that are neither marker are passed over. |
| PrmsParameterFile.NoDimensions | pynhm/utils/parameters.py:54-61 | `** Parameters **` right after `** Dimensions **` ends phase 1 with no dimensions, two lines past the marker. |
| PrmsParameterFile.BadFirstDimensionSize | pynhm/utils/parameters.py:54-81 | A first dimension whose size line is not an integer fails the whole load. The error carries that line's number and text. |
| PrmsParameterFile.DimsPhaseErrorLine | pynhm/utils/parameters.py:63-81 | A dimension-phase error comes from a size line at or after the cursor. Its line number is that line's (lines consumed), its text is that line, and that text is not an integer. |
| PrmsParameterFile.DimsPhaseErrorLocated | pynhm/utils/parameters.py:76-81 | A dimension-phase error lies past the cursor. It carries the text of the line at its line number, and that text is not an integer. |
| PrmsParameterFile.ParamsPhaseErrorLocated | pynhm/utils/parameters.py:150-153 | A parameter-phase error lies past the cursor and carries only a line number. |
| PrmsParameterFile.ParamsPhaseAdvance | pynhm/utils/parameters.py:84-148 | One iteration of the parameter loop: either the record after the `####` line at the cursor fails and so does the phase, with the same error, or the phase goes on from a later cursor. |
| PrmsParameterFile.ParamsPhaseErrorRecord | pynhm/utils/parameters.py:84-153 | A parameter-phase error is the failure of the record after some `####` line at or after the cursor. |
| PrmsParameterFile.LoadErrorLocated | pynhm/utils/parameters.py:76-153 | A failed load carries a line number of at least 1. It carries the line's text exactly when the dimension phase failed, and that text is the line at that number. |
| PrmsParameterFile.SkipUnmarked | pynhm/utils/parameters.py:84-89 | In the parameter phase, every line other than exactly `####` is passed over. |
| PrmsParameterFile.ReadHeader | pynhm/utils/parameters.py:89-114 | A header reads exactly when its dimension count, value count and type code lines are integers. A bad dimension count fails at its own line, `p + 2`; with `q` the line after the dimension names, a bad value count fails at `q + 1` and a bad type code at `q + 2`. A header read holds the name line up to its first space, as many following lines as the count reads (none for a negative count) as dimension names, in order, and the next two lines as integers. |
| PrmsParameterFile.HeaderAfterCount | pynhm/utils/parameters.py:99-114 | Once the dimension count `n` has read, with `q` the line after the dimension names: the header reads exactly when lines `q` and `q + 1` are integers; a bad value count fails at `q + 1`, a bad type code at `q + 2`; a header read holds the name before the first space, the `n` dimension lines in order (none for a negative count) and those two integers. |
| PrmsParameterFile.LinesFrom | pynhm/utils/parameters.py:100-104 | Exactly `count` lines, line `i` being the one at `start + i`. Past the end it reads `""`. |
| PrmsParameterFile.Convert | pynhm/utils/parameters.py:116-135 | A converted value has the kind its code selects and spells its line. Code 2 converts exactly the float spellings; code 1 exactly the integers within 64 bits; any other code always succeeds, with the raw text (so `""` past the end). |
| PrmsParameterFile.ConvertValues | pynhm/utils/parameters.py:116-135 | `n` lines convert to exactly `n` values. A failure's line number lies within the `n` lines read. |
| PrmsParameterFile.ConvertValuesOk | pynhm/utils/parameters.py:118-135 | A successful conversion holds, in file order, the conversion of every one of its lines. |
| PrmsParameterFile.ConvertValuesErr | pynhm/utils/parameters.py:118-135 | A failed conversion names the first line that does not convert. Every line before it converts. |
| PrmsParameterFile.ConvertValuesErrorPersists | pynhm/utils/parameters.py:118-128 | A failure among the first `k` values is the failure of reading any `n >= k` values. |
| PrmsParameterFile.ConvertValuesKind | pynhm/utils/parameters.py:116-135 | Every converted value has the kind its type code selects. |
| PrmsParameterFile.TextKind | pynhm/utils/parameters.py:130-135 | All type codes other than 1 and 2 select the same kind, raw text. |
| PrmsParameterFile.RecordHomogeneous | pynhm/utils/parameters.py:116-135 | A record whose values are converted lines holds elements of one kind. |
| PrmsParameterFile.Reshape | pynhm/utils/parameters.py:137-138 | Assigning `(rows, cols)` to a flat array of `count` elements yields a grid of exactly `count` cells. With non-negative sizes it succeeds exactly when `rows * cols == count`, and keeps them. |
| PrmsParameterFile.ShapeOf | pynhm/utils/parameters.py:137-138 | A record naming other than two dimensions is flat. With two, a shape exists exactly when both are declared and (size of the second, size of the first) reshapes the values; it is then a grid of those sizes (where not -1) with as many cells as values. |
| PrmsParameterFile.ReadBody | pynhm/utils/parameters.py:116-138 | The record keeps the header's name, dimension names and type code. It holds exactly `num_vals` values, the conversions of the lines that follow, shaped by its dimension names. The cursor ends after the last value. |
| PrmsParameterFile.ReadBodyOutcome | pynhm/utils/parameters.py:116-153 | The values read exactly when the count is not negative, every value line converts and the shape fits. A negative count fails at the first value line; a value that does not convert fails at its own line, every earlier one converting; a shape that does not fit fails after the last value. |
| PrmsParameterFile.ReadRecord | pynhm/utils/parameters.py:89-138 | The record is what its header announces. Its values are the header's count of converted lines after the header, and its shape is the one its dimension names give. |
| PrmsParameterFile.ReadRecordOutcome | pynhm/utils/parameters.py:89-138 | A record reads exactly when its header reads and then its values do; a failure is the header's, else the values'. |
| PrmsParameterFile.RecordEntered | pynhm/utils/parameters.py:106-148 | A record's dimension names and type code always replace earlier ones. Its values are stored under a new name. A repeated name keeps its first values and is added to the notices. |
| PrmsParameterFile.ParamsPhaseKeepsFirstValues | pynhm/utils/parameters.py:140-148 | Once stored, a parameter's values are never replaced by a later record of the same name. |
| PrmsParameterFile.StoreConsistent | pynhm/utils/parameters.py:106-148 | Storing a record of converted, shaped values keeps the three dictionaries on the same names and every array well shaped and of one kind. |
| PrmsParameterFile.ParamsPhaseConsistent | pynhm/utils/parameters.py:84-153 | The parameter phase keeps the tables consistent. |
| PrmsParameterFile.LoadConsistent | pynhm/utils/parameters.py:36-155 | A successful load yields consistent tables: the three parameter dictionaries share their names, and every array is well shaped and of one kind (which kind, and which shape, LoadTyped states). |
| PrmsParameterFile.StoreTyped | pynhm/utils/parameters.py:106-148 | Storing a record of converted lines, shaped by its dimension names, keeps every parameter read once typed by its type code and shaped by its dimension names. A repeated name joins the reported names instead. |
| PrmsParameterFile.ParamsPhaseTyped | pynhm/utils/parameters.py:84-153 | The parameter phase keeps the tables typed in that sense. |
| PrmsParameterFile.LoadTyped | pynhm/utils/parameters.py:36-155 | After a successful load every two-dimensional parameter names declared dimensions. A parameter not reported as repeated holds values of the kind its type code selects; it is flat unless it names two dimensions, and then a grid of (size of the second, size of the first), each where not -1. |
| PrmsParameterFile.RepeatedNameRetyped | pynhm/utils/parameters.py:106-148 | A file declaring `p` first as type 1 with value 7, then as type 2 with value 7.5, loads with the integer value 7 kept under type code 2, which does not describe it. |
| PrmsParameterFile.AllOfKindMeaning | pynhm/utils/parameters.py:116-135 | "Of one kind" means every element has the kind its code selects. |
| Text.ParseIntMeaning | pynhm/utils/parameters.py:75 | `int()` succeeds exactly on an optional sign followed by digits, and yields their value, negated after `-`. |
| Text.ParseIntOfIntToString | pynhm/utils/prms5util.py:247 | The decimal spelling of an integer reads back as that integer. |
| Text.IntTextIsFloatText | pynhm/utils/parameters.py:121 | Every integer spelling is a float spelling, and the empty line (end of file) is neither. |
| Text.SplitName | pynhm/utils/parameters.py:91-94 | `split(" ", 1)[0]`: a prefix of the line without spaces, ending at the first space. |
| Text.SecondField | pynhm/utils/prms5util.py:247 | `split(":")[1]`: missing exactly when there is no colon; otherwise the text after the first colon up to the next colon or the end, which holds no colon. |
| Text.StripRightMeaning | pynhm/utils/prms5util.py:247 | `rstrip()`: a prefix of the line that does not end in whitespace, with only whitespace after it. |
| Text.StripLeftMeaning | pynhm/utils/prms5util.py:247 | `lstrip()`: a suffix of the line that does not start with whitespace, with only whitespace before it. |
| Text.RemoveSpacesMeaning | pynhm/utils/prms5util.py:247 | `replace(" ", "")` leaves no space, and leaves text without spaces unchanged. |
| Text.RemoveSpacesAppend | pynhm/utils/prms5util.py:247 | `replace` works on two parts of a text separately: the result for `a + b` is the result for `a`, then for `b`. |
| Text.RemoveSpacesChar | pynhm/utils/prms5util.py:247 | One character is dropped exactly when it is a space; with RemoveSpacesAppend, every other character is kept in order. |
| SoltabDebug.PyIndex | pynhm/utils/prms5util.py:251 | `data_list[i]` succeeds exactly for `-n <= i < n`, selecting `i` or `n + i`. |
| SoltabDebug.DataFieldsMeaning | pynhm/utils/prms5util.py:263-266 | Filtering keeps only columns that are neither `""` nor a line break, each one a column of the line. |
| SoltabDebug.DataFieldsAppend | pynhm/utils/prms5util.py:263-266 | Filtering columns keeps their order: filtering a concatenation filters each part. |
| SoltabDebug.DataFieldsSingle | pynhm/utils/prms5util.py:240 | A single column is kept exactly when it is not in `not_data`. |
| SoltabDebug.HruLineStep | pynhm/utils/prms5util.py:246-248 | An HRU line whose field after the colon reads as `n` appends an empty record and selects index `n - 1`. Nothing else changes. |
| SoltabDebug.SectionLineStep | pynhm/utils/prms5util.py:249-256 | A section line selects its key, empties that key's list in the current record and restarts the count at 0. |
| SoltabDebug.DataStepCollects | pynhm/utils/prms5util.py:257-266 | A data line within the first 29 lines of a section appends its values to the current list and counts one line. |
| SoltabDebug.SectionCollects | pynhm/utils/prms5util.py:257-266 | Up to the 29th line of a section, data lines append their values in order to the current list, and change nothing else. |
| SoltabDebug.DataStepCapped | pynhm/utils/prms5util.py:258-262 | A data line past the 29th line of a section is only counted. |
| SoltabDebug.SectionCap | pynhm/utils/prms5util.py:258-262 | Past the 29th line of a section, any number of data lines only raise the count. |
| SoltabDebug.ScanAppend | pynhm/utils/prms5util.py:245-266 | The loop over two pieces of a file is the loop over the first, then over the second from the state it reached. |
| SoltabDebug.ScanErrorPersists | pynhm/utils/prms5util.py:245-266 | A failure inside the loop is the failure of the whole file, whatever follows. |
| SoltabDebug.ScanRecords | pynhm/utils/prms5util.py:246-268 | After the loop there is one record per HRU line (`n_hru`), and only the keys `potsw` and `sunhrs` occur. |
| SoltabDebug.Assemble | pynhm/utils/prms5util.py:273-283 | Assembly succeeds exactly when every list holds 366 values and every record has both sections (else `WrongLength`, then `MissingKey`). Both tables are then 366 by `n_hru`, and column `hh` is record `hh`'s list. |
| SoltabDebug.LoadShape | pynhm/utils/prms5util.py:268-283 | Both tables have 366 rows of one column per HRU line. |
| Prms5Util.ReadLine | pynhm/utils/prms5util.py:245-266 | One pass of the loop body, on the reader's variables, is exactly `Step`. |
| Prms5Util.ScanLines | pynhm/utils/prms5util.py:244-266 | The loop over the lines fails exactly when `Scan` does, with its error, and otherwise builds `Scan`'s records. |
| Prms5Util.AllListsFull | pynhm/utils/prms5util.py:273-276 | The nested length check passes exactly when every list of every record holds 366 values. |
| Prms5Util.FillTables | pynhm/utils/prms5util.py:278-283 | Two fresh 366-by-`n_hru` arrays. Column `hh` holds record `hh`'s `potsw` and `sunhrs` lists; a record without both fails with `MissingKey`. |
| Prms5Util.LoadSoltabDebug | pynhm/utils/prms5util.py:222-285 | Fails exactly when `LoadSoltab` does, with its error. Otherwise it returns two fresh 366-by-(number of HRU lines) arrays holding `LoadSoltab`'s tables. |
| SoltabFormat.ChunkColumns | pynhm/utils/prms5util.py:236-240 | The 13 columns of a line of 1 to 13 fields are the fields, then the line break, then empty columns. |
| SoltabFormat.ChunkValues | pynhm/utils/prms5util.py:263-266 | A line of 1 to 13 fields contributes exactly those fields. |
| SoltabFormat.FieldSecondChar | pynhm/utils/prms5util.py:246-253 | A field that spells a number never has `H` or `*` second, so a value line is never taken for an HRU or section line. |
| SoltabFormat.ValueLinesValues | pynhm/utils/prms5util.py:236-237 | The value lines of a section (13 fields a line, the rest on a last line), read in order, give back its values. |
| SoltabFormat.ValueLinesData | pynhm/utils/prms5util.py:257-266 | Every value line of a section is a data line whose fields convert. |
| SoltabFormat.HruLineIndex | pynhm/utils/prms5util.py:246-247 | The HRU line numbering HRU `h + 1` is an HRU line and selects index `h`. |
| SoltabFormat.SectionRead | pynhm/utils/prms5util.py:249-266 | A section header and its 366 values, read with an HRU selected, set that section's list to the values and count all 29 lines. |
| SoltabFormat.HruRead | pynhm/utils/prms5util.py:246-266 | The lines of one HRU add one record holding its two sections' values. |
| SoltabFormat.RenderScanned | pynhm/utils/prms5util.py:245-266 | Reading a rendered file succeeds, with one full record per HRU in order, and with the line count of the last section at 29. |
| SoltabFormat.LoadRender | pynhm/utils/prms5util.py:222-285 | Reading a rendered file, followed by any lines that are neither HRU nor section lines (the reader expects two at the end), gives back the rendered values: both tables are 366 by the number of HRUs, and row `d`, column `h` is day `d` of HRU `h`. |

## Left out

- File handling is left out: opening and closing, and the buffered cursor shared by `for line in f` and `f.readline()`. The model takes the file as a sequence of lines with one index.
- ParseInt: a simplified decimal parser standing for Python's `int()`. It takes an optional sign and ASCII digits. It refuses the leading and trailing whitespace, underscores and non-ASCII digits that `int()` accepts.
- Convert: floating-point conversion is modelled as a syntax check. The value is kept as its text, not as a number. `float()` also accepts surrounding whitespace and underscores; the model does not.
- Convert: numpy dtypes are not modelled beyond the 64-bit range of type-1 integers. Every type code other than 1 and 2 keeps the raw line.
- Reshape: numpy's inference of a size of `-1` is modelled. Any other negative size is refused.
- The duplicate-parameter `print` is modelled as an appended list of the repeated names. Its text and destination are left out.
- The Python exception types are folded into `ParseError` (line number and, in the dimension phase, the line) and into `SoltabError` (UnboundLocal, IndexOutOfRange, MissingKey, BadNumber, WrongLength). The exception messages are left out.
- Converts: the `float()` of each soltab field is modelled as the same syntax check after stripping. The converted numbers are kept as text, and the result arrays hold those texts.
- Whitespace for `strip()` and `rstrip()` is ASCII whitespace only.
- SoltabDebug.HruIndex has no contract of its own. What it computes is stated by SoltabDebug.HruLineStep and SoltabFormat.HruLineIndex.
- The other functions of `pynhm/utils/prms5util.py` (`unit_conversion`, `load_prms_input`, `load_prms_output`, `load_prms_statscsv`, `load_wbl_output`) are left out. They are pandas and file-system plumbing outside this model.
- There is no writer for the parameter file. Its layout is stated only through what the reader accepts.
