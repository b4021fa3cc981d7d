/** The batch runner's part of the core: `CSV_FIELDS`, `_bands`, `prepare_csv_row`, which
    flattens an extracted dict into one CSV row, and the check that decides an
    extraction returned no relevant data. The extracted dict is an entry list (any
    `dict`, not only a normalised record); the lemmas at the end apply the row to the
    records `_normalize` returns. */
module CsvRow {
  import opened Text
  import opened JsonValue
  import F = Fields

  /** The three tolerance tables, as the column names call them. */
  datatype Table = General | Machining | Welded

  /** The four length bands of a tolerance table. */
  datatype Band = Upto20 | Upto200 | Upto2000 | Over2000

  /** `("0-20", "20-200", "200-2000", ">2000")`, the order of the band loop. */
  const BandOrder: seq<Band> := [Upto20, Upto200, Upto2000, Over2000]

  /** The band's key in a table's `bands` dict. */
  function BandKey(b: Band): string {
    match b
    case Upto20 => "0-20"
    case Upto200 => "20-200"
    case Upto2000 => "200-2000"
    case Over2000 => ">2000"
  }

  /** The record key the table is read from. */
  function TableKey(t: Table): string {
    match t
    case General => "Tolerances_General_Linear"
    case Machining => "Tolerances_Machining"
    case Welded => "Tolerances_Welded_Sheetmetal"
  }

  /** The word the table's columns carry. */
  function TableLabel(t: Table): string {
    match t
    case General => "General"
    case Machining => "Machining"
    case Welded => "Welded"
  }

  /** A column of the CSV file. */
  datatype Column =
    | PdfFilename
    | DrawingNumber
    | Revision
    | RoughnessStandard
    | RoughnessParameter
    | RoughnessValue
    | RoughnessUnit
    | GdtStandard
    | GdtScope
    | DimStandard
    | DimScope
    | BreakSharpEdges
    | GroovesSharp
    | WeldingNotes
    | WeldingDesignation
    | WeldFinish
    | PostTreatment
    | MaterialGrade
    | Tol(table: Table, band: Band)
    | Notes

  /** The column's name in the header; the tolerance columns are named with the
      f-string `f"Tol_General_{band}"` and its two companions. */
  function Header(c: Column): string {
    match c
    case PdfFilename => "PDF_Filename"
    case DrawingNumber => "Drawing_Number"
    case Revision => "Revision"
    case RoughnessStandard => "Surface_Roughness_Standard"
    case RoughnessParameter => "Surface_Roughness_Parameter"
    case RoughnessValue => "Surface_Roughness_Value"
    case RoughnessUnit => "Surface_Roughness_Unit"
    case GdtStandard => "Geometrical_Tolerancing_Standard"
    case GdtScope => "Geometrical_Tolerancing_Scope"
    case DimStandard => "Dimensional_Tolerancing_Standard"
    case DimScope => "Dimensional_Tolerancing_Scope"
    case BreakSharpEdges => "Break_Sharp_Edges"
    case GroovesSharp => "Retaining_Ring_Grooves_Sharp"
    case WeldingNotes => "Welding_Notes"
    case WeldingDesignation => "Welding_Designation"
    case WeldFinish => "Weld_Finish"
    case PostTreatment => "Post_Treatment"
    case MaterialGrade => "Material_Grade"
    case Tol(t, b) => "Tol_" + TableLabel(t) + "_" + BandKey(b)
    case Notes => "Notes"
  }

  /** The columns in the order of `CSV_FIELDS`. */
  const CsvColumns: seq<Column> := [
    PdfFilename, DrawingNumber, Revision,
    RoughnessStandard, RoughnessParameter, RoughnessValue, RoughnessUnit,
    GdtStandard, GdtScope, DimStandard, DimScope,
    BreakSharpEdges, GroovesSharp, WeldingNotes, WeldingDesignation, WeldFinish, PostTreatment, MaterialGrade,
    Tol(General, Upto20), Tol(General, Upto200), Tol(General, Upto2000), Tol(General, Over2000),
    Tol(Machining, Upto20), Tol(Machining, Upto200), Tol(Machining, Upto2000), Tol(Machining, Over2000),
    Tol(Welded, Upto20), Tol(Welded, Upto200), Tol(Welded, Upto2000), Tol(Welded, Over2000),
    Notes
  ]

  /** The headers of `cols`, in order. */
  function Headers(cols: seq<Column>): (hs: seq<string>)
    ensures |hs| == |cols|
    ensures forall i :: 0 <= i < |cols| ==> hs[i] == Header(cols[i])
  {
    seq(|cols|, i requires 0 <= i < |cols| => Header(cols[i]))
  }

  /** `CSV_FIELDS`: the headers of the columns, in order. */
  const CsvFields: seq<string> := Headers(CsvColumns)

  /** The place of a band in the band loop. */
  function BandPos(b: Band): (i: nat)
    ensures i < |BandOrder| && BandOrder[i] == b
  {
    match b
    case Upto20 => 0
    case Upto200 => 1
    case Upto2000 => 2
    case Over2000 => 3
  }

  /** `BandPos` is the inverse of `BandOrder`. */
  lemma BandPosOrder(i: nat)
    requires i < |BandOrder|
    ensures BandPos(BandOrder[i]) == i
  {
    if i == 0 {
    } else if i == 1 {
    } else if i == 2 {
    } else {
    }
  }

  /** The place of a table among the tolerance columns. */
  function TablePos(t: Table): (i: nat)
    ensures i < 3
  {
    match t
    case General => 0
    case Machining => 1
    case Welded => 2
  }

  /** A column's place in `CSV_FIELDS`: every column is there. */
  function Pos(c: Column): (i: nat)
    ensures i < |CsvColumns| && CsvColumns[i] == c
  {
    match c
    case PdfFilename => 0
    case DrawingNumber => 1
    case Revision => 2
    case RoughnessStandard => 3
    case RoughnessParameter => 4
    case RoughnessValue => 5
    case RoughnessUnit => 6
    case GdtStandard => 7
    case GdtScope => 8
    case DimStandard => 9
    case DimScope => 10
    case BreakSharpEdges => 11
    case GroovesSharp => 12
    case WeldingNotes => 13
    case WeldingDesignation => 14
    case WeldFinish => 15
    case PostTreatment => 16
    case MaterialGrade => 17
    case Tol(t, b) => 18 + 4 * TablePos(t) + BandPos(b)
    case Notes => 30
  }

  /** The tolerance headers the f-strings build. */
  lemma TolHeaders()
    ensures Header(Tol(General, Upto20)) == "Tol_General_0-20"
    ensures Header(Tol(Machining, Upto2000)) == "Tol_Machining_200-2000"
    ensures Header(Tol(Welded, Over2000)) == "Tol_Welded_>2000"
  {
    GeneralHeader();
    MachiningHeader();
    WeldedHeader();
  }

  /** The header of the first general-linear column. */
  lemma GeneralHeader()
    ensures Header(Tol(General, Upto20)) == "Tol_General_0-20"
  {
  }

  /** The header of the third machining column. */
  lemma MachiningHeader()
    ensures Header(Tol(Machining, Upto2000)) == "Tol_Machining_200-2000"
  {
  }

  /** The header of the last welded column. */
  lemma WeldedHeader()
    ensures Header(Tol(Welded, Over2000)) == "Tol_Welded_>2000"
  {
  }

  // ---------------------------------------------------------------------------
  // Cells
  // ---------------------------------------------------------------------------

  /** `_bands(d, key)`: `""` for anything that is no dict; otherwise the band of
      `d.get("bands") or {}`, through `str`, or `""` when it is missing or falsy. A truthy
      `bands` that is no dict has no `.get` and raises `AttributeError`. */
  function BandOf(d: Json, key: string): (r: Py<string>)
    ensures !d.JObj? ==> r == Ok("")
    ensures d.JObj? && !Truthy(Get(d.entries, "bands")) ==> r == Ok("")
    ensures d.JObj? && Truthy(Get(d.entries, "bands")) && !Get(d.entries, "bands").JObj? ==>
      r == Raise(AttributeError)
    ensures d.JObj? && Get(d.entries, "bands").JObj? ==>
      var v := Get(Get(d.entries, "bands").entries, key);
      r == Ok(if Truthy(v) then PyStr(v) else "")
  {
    if !d.JObj? then Ok("")
    else
      var b := Or(Get(d.entries, "bands"), JObj([]));
      if !b.JObj? then Raise(AttributeError)
      else Ok(PyStr(Or(GetOr(b.entries, key, JStr("")), JStr(""))))
  }

  /** Whether `_bands` raises does not depend on the band asked for. */
  lemma BandOfRaises(d: Json, k1: string, k2: string)
    ensures BandOf(d, k1).Raise? == BandOf(d, k2).Raise?
  {
  }

  /** `t.get(key, "") if isinstance(t, dict) else ""`. */
  function SubField(t: Json, key: string): (r: Json)
    ensures !t.JObj? ==> r == JStr("")
    ensures t.JObj? && Has(t.entries, key) ==> r == Get(t.entries, key)
    ensures t.JObj? && !Has(t.entries, key) ==> r == JStr("")
  {
    if t.JObj? then GetOr(t.entries, key, JStr("")) else JStr("")
  }

  /** `str(bool(v))`. */
  function Flag(v: Json): (r: Json)
    ensures r == JStr("True") || r == JStr("False")
    ensures r == JStr("True") <==> Truthy(v)
  {
    JStr(if Truthy(v) then "True" else "False")
  }

  /** The texts of a list of strings. */
  function Texts(items: seq<Json>): (ts: seq<string>)
    requires forall i :: 0 <= i < |items| ==> items[i].JStr?
    ensures |ts| == |items|
    ensures forall i :: 0 <= i < |items| ==> ts[i] == items[i].s
  {
    seq(|items|, i requires 0 <= i < |items| => items[i].s)
  }

  /** `" | ".join(v) if isinstance(v, list) else (v or "")`: joining a list with an item
      that is no string raises `TypeError`. */
  function JoinNotes(v: Json): (r: Py<Json>)
    ensures v.JArr? && (forall i :: 0 <= i < |v.items| ==> v.items[i].JStr?) ==>
      r == Ok(JStr(Join(Texts(v.items), " | ")))
    ensures v.JArr? && (exists i :: 0 <= i < |v.items| && !v.items[i].JStr?) ==> r == Raise(TypeError)
    ensures !v.JArr? && Truthy(v) ==> r == Ok(v)
    ensures !v.JArr? && !Truthy(v) ==> r == Ok(JStr(""))
  {
    if v.JArr? then
      if forall i :: 0 <= i < |v.items| ==> v.items[i].JStr? then Ok(JStr(Join(Texts(v.items), " | ")))
      else Raise(TypeError)
    else Ok(Or(v, JStr("")))
  }

  /** Joining puts `" | "` between neighbours. */
  lemma JoinNotesPair(a: string, b: string)
    ensures JoinNotes(JArr([JStr(a), JStr(b)])) == Ok(JStr(a + " | " + b))
    ensures JoinNotes(JArr([JStr(a)])) == Ok(JStr(a))
    ensures JoinNotes(JArr([])) == Ok(JStr(""))
  {
    var v := JArr([JStr(a), JStr(b)]);
    assert Texts(v.items) == [a, b];
    assert Texts(v.items)[1..] == [b];
  }

  /** The key of the extracted dict that column `c` is read from. */
  function Key(c: Column): string
    requires !c.PdfFilename?
  {
    match c
    case DrawingNumber => "Drawing_Number"
    case Revision => "Revision"
    case RoughnessStandard | RoughnessParameter | RoughnessValue | RoughnessUnit => "Surface_Roughness"
    case GdtStandard | GdtScope => "Geometrical_Tolerancing"
    case DimStandard | DimScope => "Dimensional_Tolerancing"
    case BreakSharpEdges => "Break_Sharp_Edges"
    case GroovesSharp => "Retaining_Ring_Grooves_Sharp"
    case WeldingNotes => "Welding_Notes"
    case WeldingDesignation => "Welding_Designation"
    case WeldFinish => "Weld_Finish"
    case PostTreatment => "Post_Treatment"
    case MaterialGrade => "Material_Grade"
    case Tol(t, _) => TableKey(t)
    case Notes => "Notes"
  }

  /** The default of the `.get` that reads column `c`; `None` where the source calls
      `.get` with one argument. */
  function Default(c: Column): Json {
    match c
    case DrawingNumber | Revision | WeldingDesignation | WeldFinish | PostTreatment | MaterialGrade => JStr("")
    case BreakSharpEdges | GroovesSharp => JBool(false)
    case WeldingNotes | Notes => JArr([])
    case _ => JNull
  }

  /** What column `c` makes of the value `v` read for it. */
  function Convert(c: Column, v: Json): (r: Py<Json>)
    requires !c.PdfFilename?
    ensures r.Raise? ==> c.WeldingNotes? || c.Notes? || c.Tol?
    ensures c.Tol? && r.Ok? ==> r.value.JStr?
  {
    match c
    case DrawingNumber | Revision => Ok(v)
    case RoughnessStandard => Ok(SubField(Or(v, JObj([])), "standard"))
    case RoughnessParameter => Ok(SubField(Or(v, JObj([])), "parameter"))
    case RoughnessValue => Ok(SubField(Or(v, JObj([])), "value"))
    case RoughnessUnit => Ok(SubField(Or(v, JObj([])), "unit"))
    case GdtStandard | DimStandard => Ok(SubField(Or(v, JObj([])), "standard"))
    case GdtScope | DimScope => Ok(SubField(Or(v, JObj([])), "scope"))
    case BreakSharpEdges | GroovesSharp => Ok(Flag(v))
    case WeldingNotes | Notes => JoinNotes(v)
    case WeldingDesignation | WeldFinish | PostTreatment | MaterialGrade => Ok(Or(v, JStr("")))
    case Tol(_, b) =>
      var s :- BandOf(v, BandKey(b));
      Ok(JStr(s))
  }

  /** The value stored in column `c` of the row for the dict `d` of the file named
      `name`: the file name, or the value read for the column, converted. */
  function Cell(name: string, d: Entries, c: Column): (r: Py<Json>)
    ensures r.Raise? ==> c.WeldingNotes? || c.Notes? || c.Tol?
  {
    if c.PdfFilename? then Ok(JStr(name)) else Convert(c, GetOr(d, Key(c), Default(c)))
  }

  /** The exception `prepare_csv_row` raises, if any, in the order of its assignments:
      joining `Welding_Notes`, then the band loop, whose first pass meets every table that
      raises, then joining `Notes`. */
  function RowError(d: Entries): (r: Option<PyError>)
    ensures r.Some? ==> r.value == TypeError || r.value == AttributeError
  {
    if JoinNotes(GetOr(d, "Welding_Notes", JArr([]))).Raise? then Some(TypeError)
    else if exists t: Table :: BandOf(Get(d, TableKey(t)), "0-20").Raise? then Some(AttributeError)
    else if JoinNotes(GetOr(d, "Notes", JArr([]))).Raise? then Some(TypeError)
    else None
  }

  /** A tolerance cell is `_bands` of its table and band. */
  lemma TolCell(name: string, d: Entries, t: Table, b: Band)
    ensures Cell(name, d, Tol(t, b)).Raise? <==> BandOf(Get(d, TableKey(t)), BandKey(b)).Raise?
    ensures Cell(name, d, Tol(t, b)).Ok? ==> Cell(name, d, Tol(t, b)).value == JStr(BandOf(Get(d, TableKey(t)), BandKey(b)).value)
  {
    GetOrNone(d, TableKey(t));
  }

  /** Without an exception in the welding notes, the tables or the notes, the row is
      built. */
  lemma RowBuilt(name: string, d: Entries)
    requires d != [] && JoinNotes(GetOr(d, "Welding_Notes", JArr([]))).Ok?
    requires forall t: Table :: BandOf(Get(d, TableKey(t)), "0-20").Ok?
    requires JoinNotes(GetOr(d, "Notes", JArr([]))).Ok?
    ensures RowSpec(name, d).Ok?
  {
    assert RowError(d).None?;
  }

  /** The row has an exception exactly when one of its cells does. */
  lemma RowErrorCells(name: string, d: Entries)
    ensures RowError(d).None? <==> forall c :: Cell(name, d, c).Ok?
  {
    if RowError(d).Some? {
      RowErrorCell(name, d);
    } else {
      CellsOk(name, d);
    }
  }

  /** The exception of the row is that of a cell. */
  lemma RowErrorCell(name: string, d: Entries)
    requires RowError(d).Some?
    ensures exists c :: Cell(name, d, c).Raise?
  {
    CellNotes(name, d);
    if JoinNotes(GetOr(d, "Welding_Notes", JArr([]))).Raise? {
      assert Cell(name, d, WeldingNotes).Raise?;
    } else if exists t: Table :: BandOf(Get(d, TableKey(t)), "0-20").Raise? {
      var t: Table :| BandOf(Get(d, TableKey(t)), "0-20").Raise?;
      TolCell(name, d, t, Upto20);
      assert Cell(name, d, Tol(t, Upto20)).Raise?;
    } else {
      assert Cell(name, d, Notes).Raise?;
    }
  }

  /** Without an exception of the row, no cell raises. */
  lemma CellsOk(name: string, d: Entries)
    requires RowError(d).None?
    ensures forall c :: Cell(name, d, c).Ok?
  {
    CellNotes(name, d);
    forall c ensures Cell(name, d, c).Ok? {
      if c.Tol? {
        TolCell(name, d, c.table, c.band);
        BandOfRaises(Get(d, TableKey(c.table)), "0-20", BandKey(c.band));
      }
    }
  }

  /** The row for an empty dict: every column `""`. */
  function BlankRow(): (r: Entries)
    ensures |r| == |CsvFields|
    ensures forall i :: 0 <= i < |r| ==> r[i] == (CsvFields[i], JStr(""))
  {
    seq(|CsvFields|, i requires 0 <= i < |CsvFields| => (CsvFields[i], JStr("")))
  }

  /** Every column of `CSV_FIELDS`, in order, with its cell, when no cell raises. */
  function FullRow(name: string, d: Entries): (r: Entries)
    requires forall c :: Cell(name, d, c).Ok?
    ensures |r| == |CsvColumns|
    ensures forall i :: 0 <= i < |r| ==> r[i] == (CsvFields[i], Cell(name, d, CsvColumns[i]).value)
  {
    seq(|CsvColumns|, i requires 0 <= i < |CsvColumns| => (CsvFields[i], Cell(name, d, CsvColumns[i]).value))
  }

  /** `prepare_csv_row(pdf_path, extracted_data)` for a file named `name`: the blank row
      for an empty dict; otherwise the exception of the first assignment that raises, or
      every column of `CSV_FIELDS`, in order, with its cell. */
  function RowSpec(name: string, d: Entries): (r: Py<Entries>)
    ensures d == [] ==> r == Ok(BlankRow())
    ensures d != [] ==> (r.Raise? <==> exists c :: Cell(name, d, c).Raise?)
    ensures r.Raise? ==> r.error == TypeError || r.error == AttributeError
    ensures r.Ok? ==> |r.value| == |CsvFields| && forall i :: 0 <= i < |r.value| ==> r.value[i].0 == CsvFields[i]
  {
    if d == [] then Ok(BlankRow())
    else
      match RowError(d)
      case Some(e) =>
        RowErrorCells(name, d);
        Raise(e)
      case None =>
        RowErrorCells(name, d);
        Ok(FullRow(name, d))
  }

  // ---------------------------------------------------------------------------
  // prepare_csv_row
  // ---------------------------------------------------------------------------

  /** Every column `row` holds holds its cell. The trigger keeps the cells out of sight
      until a column of the row is read. */
  ghost predicate Filled(name: string, d: Entries, row: map<Column, Json>) {
    forall c {:trigger row[c]} :: c in row ==> Cell(name, d, c).Ok? && row[c] == Cell(name, d, c).value
  }

  /** Storing a column's cell keeps the row filled. */
  lemma FilledPut(name: string, d: Entries, row: map<Column, Json>, c: Column, v: Json)
    requires Filled(name, d, row)
    requires Cell(name, d, c) == Ok(v)
    ensures Filled(name, d, row[c := v])
  {
    var row' := row[c := v];
    forall c' | c' in row' ensures Cell(name, d, c').Ok? && row'[c'] == Cell(name, d, c').value {
      if c' != c {
        assert row'[c'] == row[c'];
      }
    }
  }

  /** The file name column holds the name; the drawing number and the revision are read
      with the default `""` and stored as they are, `None` included. */
  lemma CellHead(name: string, d: Entries)
    ensures Cell(name, d, PdfFilename) == Ok(JStr(name))
    ensures Cell(name, d, DrawingNumber) == Ok(GetOr(d, "Drawing_Number", JStr("")))
    ensures Cell(name, d, Revision) == Ok(GetOr(d, "Revision", JStr("")))
  {
  }

  /** The surface roughness columns are the fields of `d.get("Surface_Roughness") or {}`,
      `""` when it is no dict or lacks the field. */
  lemma CellRoughness(name: string, d: Entries)
    ensures var sr := Or(Get(d, "Surface_Roughness"), JObj([]));
      && Cell(name, d, RoughnessStandard) == Ok(SubField(sr, "standard"))
      && Cell(name, d, RoughnessParameter) == Ok(SubField(sr, "parameter"))
      && Cell(name, d, RoughnessValue) == Ok(SubField(sr, "value"))
      && Cell(name, d, RoughnessUnit) == Ok(SubField(sr, "unit"))
  {
    KeySub();
    CellSub(name, d, RoughnessStandard, "standard");
    CellSub(name, d, RoughnessParameter, "parameter");
    CellSub(name, d, RoughnessValue, "value");
    CellSub(name, d, RoughnessUnit, "unit");
  }

  /** The keys the sub-field columns are read from. */
  lemma KeySub()
    ensures Key(RoughnessStandard) == "Surface_Roughness" && Key(RoughnessParameter) == "Surface_Roughness"
    ensures Key(RoughnessValue) == "Surface_Roughness" && Key(RoughnessUnit) == "Surface_Roughness"
    ensures Key(GdtStandard) == "Geometrical_Tolerancing" && Key(GdtScope) == "Geometrical_Tolerancing"
    ensures Key(DimStandard) == "Dimensional_Tolerancing" && Key(DimScope) == "Dimensional_Tolerancing"
  {
  }

  /** A sub-field column reads field `f` of `d.get(key) or {}`. */
  lemma CellSub(name: string, d: Entries, c: Column, f: string)
    requires || (c.RoughnessStandard? && f == "standard") || (c.RoughnessParameter? && f == "parameter")
             || (c.RoughnessValue? && f == "value") || (c.RoughnessUnit? && f == "unit")
             || ((c.GdtStandard? || c.DimStandard?) && f == "standard")
             || ((c.GdtScope? || c.DimScope?) && f == "scope")
    ensures Cell(name, d, c) == Ok(SubField(Or(Get(d, Key(c)), JObj([])), f))
  {
    GetOrNone(d, Key(c));
    assert Default(c) == JNull;
  }

  /** The geometrical tolerancing columns read the standard and the scope of
      `d.get("Geometrical_Tolerancing") or {}`. */
  lemma CellGdt(name: string, d: Entries)
    ensures var gt := Or(Get(d, "Geometrical_Tolerancing"), JObj([]));
      && Cell(name, d, GdtStandard) == Ok(SubField(gt, "standard"))
      && Cell(name, d, GdtScope) == Ok(SubField(gt, "scope"))
  {
    KeySub();
    CellSub(name, d, GdtStandard, "standard");
    CellSub(name, d, GdtScope, "scope");
  }

  /** The dimensional tolerancing columns read the standard and the scope of
      `d.get("Dimensional_Tolerancing") or {}`. */
  lemma CellDim(name: string, d: Entries)
    ensures var dt := Or(Get(d, "Dimensional_Tolerancing"), JObj([]));
      && Cell(name, d, DimStandard) == Ok(SubField(dt, "standard"))
      && Cell(name, d, DimScope) == Ok(SubField(dt, "scope"))
  {
    KeySub();
    CellSub(name, d, DimStandard, "standard");
    CellSub(name, d, DimScope, "scope");
  }

  /** The boolean columns are `str(bool(...))` of their values, a missing one counting as
      `False`. */
  lemma CellFlags(name: string, d: Entries)
    ensures Cell(name, d, BreakSharpEdges) == Ok(Flag(GetOr(d, "Break_Sharp_Edges", JBool(false))))
    ensures Cell(name, d, GroovesSharp) == Ok(Flag(GetOr(d, "Retaining_Ring_Grooves_Sharp", JBool(false))))
  {
    assert Key(BreakSharpEdges) == "Break_Sharp_Edges" && Key(GroovesSharp) == "Retaining_Ring_Grooves_Sharp";
    CellFlag(name, d, BreakSharpEdges);
    CellFlag(name, d, GroovesSharp);
  }

  /** A flag column is `str(bool(d.get(key, False)))`. */
  lemma CellFlag(name: string, d: Entries, c: Column)
    requires c.BreakSharpEdges? || c.GroovesSharp?
    ensures Cell(name, d, c) == Ok(Flag(GetOr(d, Key(c), JBool(false))))
  {
    assert Default(c) == JBool(false);
  }

  /** The welding designation and weld finish columns turn a falsy value, `None`
      included, into `""`. */
  lemma CellWeld(name: string, d: Entries)
    ensures Cell(name, d, WeldingDesignation) == Ok(Or(GetOr(d, "Welding_Designation", JStr("")), JStr("")))
    ensures Cell(name, d, WeldFinish) == Ok(Or(GetOr(d, "Weld_Finish", JStr("")), JStr("")))
  {
    KeyText();
    CellText(name, d, WeldingDesignation);
    CellText(name, d, WeldFinish);
  }

  /** The keys the text columns are read from. */
  lemma KeyText()
    ensures Key(WeldingDesignation) == "Welding_Designation" && Key(WeldFinish) == "Weld_Finish"
    ensures Key(PostTreatment) == "Post_Treatment" && Key(MaterialGrade) == "Material_Grade"
  {
  }

  /** A text column is `d.get(key, "") or ""`. */
  lemma CellText(name: string, d: Entries, c: Column)
    requires c.WeldingDesignation? || c.WeldFinish? || c.PostTreatment? || c.MaterialGrade?
    ensures Cell(name, d, c) == Ok(Or(GetOr(d, Key(c), JStr("")), JStr("")))
  {
    assert Default(c) == JStr("");
  }

  /** The post-treatment and material grade columns turn a falsy value, `None` included,
      into `""`. */
  lemma CellMaterial(name: string, d: Entries)
    ensures Cell(name, d, PostTreatment) == Ok(Or(GetOr(d, "Post_Treatment", JStr("")), JStr("")))
    ensures Cell(name, d, MaterialGrade) == Ok(Or(GetOr(d, "Material_Grade", JStr("")), JStr("")))
  {
    KeyText();
    CellText(name, d, PostTreatment);
    CellText(name, d, MaterialGrade);
  }

  /** The two note columns join their lists, read with the default `[]`. */
  lemma CellNotes(name: string, d: Entries)
    ensures Cell(name, d, WeldingNotes) == JoinNotes(GetOr(d, "Welding_Notes", JArr([])))
    ensures Cell(name, d, Notes) == JoinNotes(GetOr(d, "Notes", JArr([])))
  {
    CellJoined(name, d, WeldingNotes);
    CellJoined(name, d, Notes);
    assert Key(WeldingNotes) == "Welding_Notes" && Key(Notes) == "Notes";
  }

  /** A notes column is its list joined. */
  lemma CellJoined(name: string, d: Entries, c: Column)
    requires c.WeldingNotes? || c.Notes?
    ensures Cell(name, d, c) == JoinNotes(GetOr(d, Key(c), JArr([])))
  {
    assert Default(c) == JArr([]);
  }

  /** The file name, the drawing number and the revision are their cells. */
  lemma FilledHead(name: string, d: Entries)
    ensures Filled(name, d, map[][PdfFilename := JStr(name)][DrawingNumber := GetOr(d, "Drawing_Number", JStr(""))]
                                 [Revision := GetOr(d, "Revision", JStr(""))])
  {
    CellHead(name, d);
    var row: map<Column, Json> := map[];
    FilledPut(name, d, row, PdfFilename, JStr(name));
    row := row[PdfFilename := JStr(name)];
    FilledPut(name, d, row, DrawingNumber, GetOr(d, "Drawing_Number", JStr("")));
    row := row[DrawingNumber := GetOr(d, "Drawing_Number", JStr(""))];
    FilledPut(name, d, row, Revision, GetOr(d, "Revision", JStr("")));
  }

  /** The four surface roughness columns are their cells. */
  lemma FilledRoughness(name: string, d: Entries, row: map<Column, Json>)
    requires Filled(name, d, row)
    ensures var sr := Or(Get(d, "Surface_Roughness"), JObj([]));
      Filled(name, d, row[RoughnessStandard := SubField(sr, "standard")][RoughnessParameter := SubField(sr, "parameter")]
                         [RoughnessValue := SubField(sr, "value")][RoughnessUnit := SubField(sr, "unit")])
  {
    CellRoughness(name, d);
    var sr := Or(Get(d, "Surface_Roughness"), JObj([]));
    var r1 := row[RoughnessStandard := SubField(sr, "standard")];
    var r2 := r1[RoughnessParameter := SubField(sr, "parameter")];
    var r3 := r2[RoughnessValue := SubField(sr, "value")];
    FilledPut(name, d, row, RoughnessStandard, SubField(sr, "standard"));
    FilledPut(name, d, r1, RoughnessParameter, SubField(sr, "parameter"));
    FilledPut(name, d, r2, RoughnessValue, SubField(sr, "value"));
    FilledPut(name, d, r3, RoughnessUnit, SubField(sr, "unit"));
  }

  /** The geometrical and dimensional tolerancing columns are their cells. */
  lemma FilledStandards(name: string, d: Entries, row: map<Column, Json>)
    requires Filled(name, d, row)
    ensures var gt := Or(Get(d, "Geometrical_Tolerancing"), JObj([]));
      var dt := Or(Get(d, "Dimensional_Tolerancing"), JObj([]));
      Filled(name, d, row[GdtStandard := SubField(gt, "standard")][GdtScope := SubField(gt, "scope")]
                         [DimStandard := SubField(dt, "standard")][DimScope := SubField(dt, "scope")])
  {
    CellGdt(name, d);
    CellDim(name, d);
    var gt := Or(Get(d, "Geometrical_Tolerancing"), JObj([]));
    var dt := Or(Get(d, "Dimensional_Tolerancing"), JObj([]));
    var r1 := row[GdtStandard := SubField(gt, "standard")];
    var r2 := r1[GdtScope := SubField(gt, "scope")];
    var r3 := r2[DimStandard := SubField(dt, "standard")];
    FilledPut(name, d, row, GdtStandard, SubField(gt, "standard"));
    FilledPut(name, d, r1, GdtScope, SubField(gt, "scope"));
    FilledPut(name, d, r2, DimStandard, SubField(dt, "standard"));
    FilledPut(name, d, r3, DimScope, SubField(dt, "scope"));
  }

  /** The two boolean columns are their cells. */
  lemma FilledFlags(name: string, d: Entries, row: map<Column, Json>)
    requires Filled(name, d, row)
    ensures Filled(name, d, row[BreakSharpEdges := Flag(GetOr(d, "Break_Sharp_Edges", JBool(false)))]
                               [GroovesSharp := Flag(GetOr(d, "Retaining_Ring_Grooves_Sharp", JBool(false)))])
  {
    CellFlags(name, d);
    FilledPut(name, d, row, BreakSharpEdges, Flag(GetOr(d, "Break_Sharp_Edges", JBool(false))));
    FilledPut(name, d, row[BreakSharpEdges := Flag(GetOr(d, "Break_Sharp_Edges", JBool(false)))],
      GroovesSharp, Flag(GetOr(d, "Retaining_Ring_Grooves_Sharp", JBool(false))));
  }

  /** The joined welding notes is its cell. */
  lemma FilledWeldingNotes(name: string, d: Entries, row: map<Column, Json>, weldingNotes: Json)
    requires Filled(name, d, row)
    requires JoinNotes(GetOr(d, "Welding_Notes", JArr([]))) == Ok(weldingNotes)
    ensures Filled(name, d, row[WeldingNotes := weldingNotes])
  {
    CellNotes(name, d);
    FilledPut(name, d, row, WeldingNotes, weldingNotes);
  }

  /** The four text columns that turn a falsy value into `""` are their cells. */
  lemma FilledTexts(name: string, d: Entries, row: map<Column, Json>)
    requires Filled(name, d, row)
    ensures Filled(name, d, row[WeldingDesignation := Or(GetOr(d, "Welding_Designation", JStr("")), JStr(""))]
                               [WeldFinish := Or(GetOr(d, "Weld_Finish", JStr("")), JStr(""))]
                               [PostTreatment := Or(GetOr(d, "Post_Treatment", JStr("")), JStr(""))]
                               [MaterialGrade := Or(GetOr(d, "Material_Grade", JStr("")), JStr(""))])
  {
    CellWeld(name, d);
    CellMaterial(name, d);
    var r1 := row[WeldingDesignation := Or(GetOr(d, "Welding_Designation", JStr("")), JStr(""))];
    var r2 := r1[WeldFinish := Or(GetOr(d, "Weld_Finish", JStr("")), JStr(""))];
    var r3 := r2[PostTreatment := Or(GetOr(d, "Post_Treatment", JStr("")), JStr(""))];
    FilledPut(name, d, row, WeldingDesignation, Or(GetOr(d, "Welding_Designation", JStr("")), JStr("")));
    FilledPut(name, d, r1, WeldFinish, Or(GetOr(d, "Weld_Finish", JStr("")), JStr("")));
    FilledPut(name, d, r2, PostTreatment, Or(GetOr(d, "Post_Treatment", JStr("")), JStr("")));
    FilledPut(name, d, r3, MaterialGrade, Or(GetOr(d, "Material_Grade", JStr("")), JStr("")));
  }

  /** The three tolerance columns of a band are their cells. */
  lemma FilledBand(name: string, d: Entries, row: map<Column, Json>, band: Band, g: string, m: string, w: string)
    requires Filled(name, d, row)
    requires BandOf(Get(d, "Tolerances_General_Linear"), BandKey(band)) == Ok(g)
    requires BandOf(Get(d, "Tolerances_Machining"), BandKey(band)) == Ok(m)
    requires BandOf(Get(d, "Tolerances_Welded_Sheetmetal"), BandKey(band)) == Ok(w)
    ensures Filled(name, d, row[Tol(General, band) := JStr(g)][Tol(Machining, band) := JStr(m)][Tol(Welded, band) := JStr(w)])
  {
    TolCell(name, d, General, band);
    TolCell(name, d, Machining, band);
    TolCell(name, d, Welded, band);
    FilledPut(name, d, row, Tol(General, band), JStr(g));
    FilledPut(name, d, row[Tol(General, band) := JStr(g)], Tol(Machining, band), JStr(m));
    FilledPut(name, d, row[Tol(General, band) := JStr(g)][Tol(Machining, band) := JStr(m)], Tol(Welded, band), JStr(w));
  }

  /** The joined notes is its cell. */
  lemma FilledNotes(name: string, d: Entries, row: map<Column, Json>, notes: Json)
    requires Filled(name, d, row)
    requires JoinNotes(GetOr(d, "Notes", JArr([]))) == Ok(notes)
    ensures Filled(name, d, row[Notes := notes])
  {
    CellNotes(name, d);
    FilledPut(name, d, row, Notes, notes);
  }

  /** The row holds every column but `Notes` and the tolerance columns of the bands from
      the `i`-th on. */
  ghost predicate Covers(row: map<Column, Json>, i: nat) {
    forall c: Column :: (c.Tol? ==> BandPos(c.band) < i) && !c.Notes? ==> c in row
  }

  /** The straight-line assignments leave every column but `Notes` and the tolerance
      columns in the row. */
  lemma CoversPlain(row: map<Column, Json>)
    requires {PdfFilename, DrawingNumber, Revision, RoughnessStandard, RoughnessParameter, RoughnessValue,
              RoughnessUnit, GdtStandard, GdtScope, DimStandard, DimScope, BreakSharpEdges, GroovesSharp,
              WeldingNotes, WeldingDesignation, WeldFinish, PostTreatment, MaterialGrade} <= row.Keys
    ensures Covers(row, 0)
  {
  }

  /** A pass of the band loop adds its band's three columns. */
  lemma CoversBand(row: map<Column, Json>, band: Band, g: Json, m: Json, w: Json)
    requires Covers(row, BandPos(band))
    ensures Covers(row[Tol(General, band) := g][Tol(Machining, band) := m][Tol(Welded, band) := w], BandPos(band) + 1)
  {
    var row' := row[Tol(General, band) := g][Tol(Machining, band) := m][Tol(Welded, band) := w];
    forall c: Column | (c.Tol? ==> BandPos(c.band) < BandPos(band) + 1) && !c.Notes? ensures c in row' {
      if c.Tol? && BandPos(c.band) == BandPos(band) {
        BandPosOrder(BandPos(band));
        BandPosOrder(BandPos(c.band));
        assert c.band == band;
        if c.table == General {
          assert c == Tol(General, band);
        } else if c.table == Machining {
          assert c == Tol(Machining, band);
        } else {
          assert c == Tol(Welded, band);
        }
      } else {
        assert c in row;
      }
    }
  }

  /** After the band loop and `Notes`, the row holds every column. */
  lemma CoversAll(row: map<Column, Json>)
    requires Covers(row, |BandOrder|) && Notes in row
    ensures forall c: Column :: c in row
  {
    forall c: Column ensures c in row {
      if c.Tol? {
        assert BandPos(c.band) < |BandOrder|;
      }
    }
  }

  /** `{field: "" for field in CSV_FIELDS}`. */
  method BlankRowLoop() returns (blank: Entries)
    ensures blank == BlankRow()
  {
    blank := [];
    for i := 0 to |CsvFields|
      invariant blank == BlankRow()[..i]
    {
      blank := blank + [(CsvFields[i], JStr(""))];
    }
    assert BlankRow()[..|CsvFields|] == BlankRow();
  }

  /** `prepare_csv_row`: the row is filled assignment by assignment, the tolerance columns
      by the band loop, and the final row takes the columns in the order of
      `CSV_FIELDS`. */
  method PrepareCsvRow(name: string, d: Entries) returns (r: Py<Entries>)
    ensures r == RowSpec(name, d)
  {
    if d == [] {
      var blank := BlankRowLoop();
      return Ok(blank);
    }
    var row: map<Column, Json> := map[];
    row := row[PdfFilename := JStr(name)];
    row := row[DrawingNumber := GetOr(d, "Drawing_Number", JStr(""))];
    row := row[Revision := GetOr(d, "Revision", JStr(""))];
    FilledHead(name, d);
    var sr := Or(Get(d, "Surface_Roughness"), JObj([]));
    FilledRoughness(name, d, row);
    row := row[RoughnessStandard := SubField(sr, "standard")];
    row := row[RoughnessParameter := SubField(sr, "parameter")];
    row := row[RoughnessValue := SubField(sr, "value")];
    row := row[RoughnessUnit := SubField(sr, "unit")];
    var gt := Or(Get(d, "Geometrical_Tolerancing"), JObj([]));
    var dt := Or(Get(d, "Dimensional_Tolerancing"), JObj([]));
    FilledStandards(name, d, row);
    row := row[GdtStandard := SubField(gt, "standard")];
    row := row[GdtScope := SubField(gt, "scope")];
    row := row[DimStandard := SubField(dt, "standard")];
    row := row[DimScope := SubField(dt, "scope")];
    FilledFlags(name, d, row);
    row := row[BreakSharpEdges := Flag(GetOr(d, "Break_Sharp_Edges", JBool(false)))];
    row := row[GroovesSharp := Flag(GetOr(d, "Retaining_Ring_Grooves_Sharp", JBool(false)))];
    var weldingNotes := JoinNotes(GetOr(d, "Welding_Notes", JArr([])));
    if weldingNotes.Raise? {
      return Raise(weldingNotes.error);
    }
    FilledWeldingNotes(name, d, row, weldingNotes.value);
    row := row[WeldingNotes := weldingNotes.value];
    FilledTexts(name, d, row);
    row := row[WeldingDesignation := Or(GetOr(d, "Welding_Designation", JStr("")), JStr(""))];
    row := row[WeldFinish := Or(GetOr(d, "Weld_Finish", JStr("")), JStr(""))];
    row := row[PostTreatment := Or(GetOr(d, "Post_Treatment", JStr("")), JStr(""))];
    row := row[MaterialGrade := Or(GetOr(d, "Material_Grade", JStr("")), JStr(""))];
    CoversPlain(row);
    r := TolerancesAndNotes(name, d, row);
  }

  /** The rest of `prepare_csv_row` once the straight-line columns are in: the band loop,
      `Notes`, and the final row. */
  method TolerancesAndNotes(name: string, d: Entries, row0: map<Column, Json>) returns (r: Py<Entries>)
    requires d != [] && !JoinNotes(GetOr(d, "Welding_Notes", JArr([]))).Raise?
    requires Filled(name, d, row0) && Covers(row0, 0)
    ensures r == RowSpec(name, d)
  {
    var row := row0;
    var banded := BandLoop(name, d, row);
    if banded.Raise? {
      return Raise(banded.error);
    }
    row := banded.value;
    var notes := JoinNotes(GetOr(d, "Notes", JArr([])));
    NotesDecide(name, d);
    if notes.Raise? {
      return Raise(notes.error);
    }
    FilledNotes(name, d, row, notes.value);
    row := row[Notes := notes.value];
    CoversAll(row);
    r := FinalRow(name, d, row);
  }

  /** Once the welding notes and the tables are through, joining `Notes` decides the row. */
  lemma NotesDecide(name: string, d: Entries)
    requires d != [] && !JoinNotes(GetOr(d, "Welding_Notes", JArr([]))).Raise?
    requires forall t: Table :: !BandOf(Get(d, TableKey(t)), "0-20").Raise?
    ensures var notes := JoinNotes(GetOr(d, "Notes", JArr([])));
      && (notes.Raise? ==> RowSpec(name, d) == Raise(notes.error))
      && (notes.Ok? ==> RowError(d).None?)
  {
  }

  /** The band loop: the three tolerance columns of each band, in the order of
      `BandOrder`. It raises as the row does when a table raises; otherwise it fills every
      tolerance column and no table raises. */
  method BandLoop(name: string, d: Entries, row0: map<Column, Json>) returns (res: Py<map<Column, Json>>)
    requires d != [] && !JoinNotes(GetOr(d, "Welding_Notes", JArr([]))).Raise?
    requires Filled(name, d, row0) && Covers(row0, 0)
    ensures res.Raise? ==> RowSpec(name, d) == Raise(res.error)
    ensures res.Ok? ==> Filled(name, d, res.value) && Covers(res.value, |BandOrder|)
    ensures res.Ok? ==> forall t: Table :: !BandOf(Get(d, TableKey(t)), "0-20").Raise?
  {
    var row := row0;
    var tg := Get(d, "Tolerances_General_Linear");
    var tm := Get(d, "Tolerances_Machining");
    var tw := Get(d, "Tolerances_Welded_Sheetmetal");
    TableKeys();
    for i := 0 to |BandOrder|
      invariant Filled(name, d, row) && Covers(row, i)
      invariant 0 < i ==> forall t: Table :: !BandOf(Get(d, TableKey(t)), "0-20").Raise?
    {
      var band := BandOrder[i];
      BandPosOrder(i);
      var g := BandOf(tg, BandKey(band));
      if g.Raise? {
        TableRaises(name, d, General, BandKey(band));
        return Raise(g.error);
      }
      var m := BandOf(tm, BandKey(band));
      if m.Raise? {
        TableRaises(name, d, Machining, BandKey(band));
        return Raise(m.error);
      }
      var w := BandOf(tw, BandKey(band));
      if w.Raise? {
        TableRaises(name, d, Welded, BandKey(band));
        return Raise(w.error);
      }
      FilledBand(name, d, row, band, g.value, m.value, w.value);
      CoversBand(row, band, JStr(g.value), JStr(m.value), JStr(w.value));
      row := row[Tol(General, band) := JStr(g.value)];
      row := row[Tol(Machining, band) := JStr(m.value)];
      row := row[Tol(Welded, band) := JStr(w.value)];
      BandsNoRaise(d, band);
    }
    return Ok(row);
  }

  /** `{field: row.get(field, "") for field in CSV_FIELDS}` once every column is filled. */
  method FinalRow(name: string, d: Entries, row: map<Column, Json>) returns (r: Py<Entries>)
    requires d != [] && RowError(d).None?
    requires Filled(name, d, row)
    requires forall c: Column :: c in row
    ensures r == RowSpec(name, d)
  {
    var out := RowEntries(row);
    FilledFull(name, d, row);
    assert out == FullRow(name, d);
    return Ok(out);
  }

  /** The loop of the comprehension: each column of `CSV_FIELDS`, in order, with what
      `row` holds for it. */
  method RowEntries(row: map<Column, Json>) returns (out: Entries)
    requires forall c: Column :: c in row
    ensures |out| == |CsvColumns|
    ensures forall j :: 0 <= j < |CsvColumns| ==> out[j] == (CsvFields[j], row[CsvColumns[j]])
  {
    out := [];
    for i := 0 to |CsvColumns|
      invariant |out| == i
      invariant forall j :: 0 <= j < i ==> out[j] == (CsvFields[j], row[CsvColumns[j]])
    {
      var c := CsvColumns[i];
      ghost var prev := out;
      out := out + [(CsvFields[i], if c in row then row[c] else JStr(""))];
      assert forall j :: 0 <= j < i ==> out[j] == prev[j];
    }
  }

  /** A row holding every column holds every cell of the full row. */
  lemma FilledFull(name: string, d: Entries, row: map<Column, Json>)
    requires RowError(d).None?
    requires Filled(name, d, row)
    requires forall c: Column :: c in row
    ensures forall c :: Cell(name, d, c).Ok?
    ensures forall j :: 0 <= j < |CsvColumns| ==> FullRow(name, d)[j] == (CsvFields[j], row[CsvColumns[j]])
  {
    RowErrorCells(name, d);
  }

  /** The keys of the three tables. */
  lemma TableKeys()
    ensures TableKey(General) == "Tolerances_General_Linear"
    ensures TableKey(Machining) == "Tolerances_Machining"
    ensures TableKey(Welded) == "Tolerances_Welded_Sheetmetal"
  {
  }

  /** A table that raises in the band loop raises the row, the welding notes being through. */
  lemma TableRaises(name: string, d: Entries, t: Table, k: string)
    requires d != [] && !JoinNotes(GetOr(d, "Welding_Notes", JArr([]))).Raise?
    requires BandOf(Get(d, TableKey(t)), k).Raise?
    ensures RowSpec(name, d) == Raise(BandOf(Get(d, TableKey(t)), k).error)
  {
    BandOfRaises(Get(d, TableKey(t)), k, "0-20");
  }

  /** A pass of the band loop that raises nowhere shows that no table raises. */
  lemma BandsNoRaise(d: Entries, band: Band)
    requires !BandOf(Get(d, "Tolerances_General_Linear"), BandKey(band)).Raise?
    requires !BandOf(Get(d, "Tolerances_Machining"), BandKey(band)).Raise?
    requires !BandOf(Get(d, "Tolerances_Welded_Sheetmetal"), BandKey(band)).Raise?
    ensures forall t: Table :: !BandOf(Get(d, TableKey(t)), "0-20").Raise?
  {
    TableKeys();
    forall t: Table ensures !BandOf(Get(d, TableKey(t)), "0-20").Raise? {
      BandOfRaises(Get(d, TableKey(t)), BandKey(band), "0-20");
    }
  }

  // ---------------------------------------------------------------------------
  // What the row holds
  // ---------------------------------------------------------------------------

  /** Every row `prepare_csv_row` returns has exactly the keys of `CSV_FIELDS`, in order. */
  lemma RowKeys(name: string, d: Entries)
    ensures RowSpec(name, d).Ok? ==> Keys(RowSpec(name, d).value) == CsvFields
  {
    if d == [] {
      assert Keys(BlankRow()) == CsvFields;
    } else if RowError(d).None? {
      RowErrorCells(name, d);
      assert Keys(FullRow(name, d)) == CsvFields;
    }
  }

  /** The row of an empty dict is all `""`, the file name column included. */
  lemma EmptyDictRow(name: string)
    ensures RowSpec(name, []) == Ok(BlankRow())
    ensures BlankRow()[Pos(PdfFilename)] == ("PDF_Filename", JStr(""))
    ensures forall i :: 0 <= i < |BlankRow()| ==> BlankRow()[i].1 == JStr("")
  {
  }

  /** A row that does not raise holds each column's cell at the column's place in
      `CSV_FIELDS`; the file name column holds the name. */
  lemma RowColumn(name: string, d: Entries, c: Column)
    requires d != [] && RowSpec(name, d).Ok?
    ensures Cell(name, d, c).Ok? && RowSpec(name, d).value[Pos(c)] == (Header(c), Cell(name, d, c).value)
    ensures RowSpec(name, d).value[Pos(PdfFilename)] == ("PDF_Filename", JStr(name))
  {
    RowErrorCells(name, d);
  }

  /** The boolean columns are `"True"` or `"False"`, `"True"` exactly for a truthy
      value; a missing key reads as `False`. */
  lemma FlagCells(name: string, d: Entries)
    ensures Cell(name, d, BreakSharpEdges) == Ok(JStr("True")) || Cell(name, d, BreakSharpEdges) == Ok(JStr("False"))
    ensures Cell(name, d, BreakSharpEdges) == Ok(JStr("True")) <==> Has(d, "Break_Sharp_Edges") && Truthy(Get(d, "Break_Sharp_Edges"))
    ensures Cell(name, d, GroovesSharp) == Ok(JStr("True")) <==>
      Has(d, "Retaining_Ring_Grooves_Sharp") && Truthy(Get(d, "Retaining_Ring_Grooves_Sharp"))
  {
    CellFlags(name, d);
  }

  /** `None` stays `None` in the drawing number and revision columns. */
  lemma NonePassesThrough(name: string, d: Entries)
    ensures Has(d, "Drawing_Number") && Get(d, "Drawing_Number") == JNull ==> Cell(name, d, DrawingNumber) == Ok(JNull)
    ensures Has(d, "Revision") && Get(d, "Revision") == JNull ==> Cell(name, d, Revision) == Ok(JNull)
    ensures !Has(d, "Drawing_Number") ==> Cell(name, d, DrawingNumber) == Ok(JStr(""))
  {
    CellHead(name, d);
  }

  /** `None`, like a missing key, becomes `""` in the designation, finish, post-treatment
      and grade columns. */
  lemma NoneBecomesEmpty(name: string, d: Entries)
    ensures Get(d, "Welding_Designation") == JNull ==> Cell(name, d, WeldingDesignation) == Ok(JStr(""))
    ensures Get(d, "Weld_Finish") == JNull ==> Cell(name, d, WeldFinish) == Ok(JStr(""))
    ensures Get(d, "Post_Treatment") == JNull ==> Cell(name, d, PostTreatment) == Ok(JStr(""))
    ensures Get(d, "Material_Grade") == JNull ==> Cell(name, d, MaterialGrade) == Ok(JStr(""))
  {
    CellWeld(name, d);
    CellMaterial(name, d);
  }

  // ---------------------------------------------------------------------------
  // No relevant data
  // ---------------------------------------------------------------------------

  /** `v is None or (isinstance(v, (list, str)) and not v)`. */
  predicate Blank(v: Json): (r: bool)
    ensures r ==> !Truthy(v)
  {
    v == JNull || v == JArr([]) || v == JStr("")
  }

  /** The check of `process_single_pdf`: the dict is empty, or every value under a key of
      `TARGET_KEYS` is blank. */
  predicate NoRelevantData(d: Entries): (r: bool)
    ensures r <==> forall i :: 0 <= i < |d| && d[i].0 in F.TargetNames ==> Blank(d[i].1)
  {
    d == [] || forall i :: 0 <= i < |d| && d[i].0 in F.TargetNames ==> Blank(d[i].1)
  }

  /** Only `None`, `[]` and `""` are blank: `False`, `0` and an empty dict are data. */
  lemma BlankValues(v: Json)
    ensures Blank(v) <==> v.JNull? || (v.JArr? && v.items == []) || (v.JStr? && v.s == "")
    ensures !Blank(JBool(false)) && !Blank(JNum("0")) && !Blank(JObj([]))
  {
  }

  /** A record has no relevant data exactly when each of its sixteen fields is blank. */
  lemma RecordNoData(m: F.Record)
    ensures NoRelevantData(F.AsDict(m)) <==> forall f :: Blank(F.At(m, f))
  {
    var d := F.AsDict(m);
    assert d == F.EntriesOf(m, F.TargetKeys);
    assert d != [];
    if NoRelevantData(d) {
      forall f ensures Blank(F.At(m, f)) {
        var i := F.Index(f);
        assert d[i].0 == F.TargetNames[i];
      }
    } else {
      var i :| 0 <= i < |d| && d[i].0 in F.TargetNames && !Blank(d[i].1);
      assert !Blank(F.At(m, F.TargetKeys[i]));
    }
  }

  /** A record whose only non-blank field is a `False` flag still has relevant data. */
  lemma FalseFlagIsData(m: F.Record)
    requires m.breakSharpEdges == JBool(false)
    ensures !NoRelevantData(F.AsDict(m))
  {
    FlagAt(m);
    FieldIsData(m, F.BreakSharpEdges);
  }

  /** The break-sharp-edges field of a record. */
  lemma FlagAt(m: F.Record)
    ensures F.At(m, F.BreakSharpEdges) == m.breakSharpEdges
  {
  }

  /** One field that is not blank makes the record's dict relevant. */
  lemma FieldIsData(m: F.Record, f: F.Field)
    requires !Blank(F.At(m, f))
    ensures !NoRelevantData(F.AsDict(m))
  {
    RecordNoData(m);
  }
}
