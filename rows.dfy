/** How the batch runner treats what the extractor returns: `empty_result` counts as no
    relevant data, and the row of a normalised record raises only for notes that are not
    strings. */
module RecordRows {
  import opened Text
  import opened JsonValue
  import F = Fields
  import N = Normalize
  import O = Orchestrator
  import opened CsvRow

  /** `empty_result`, the extractor's answer when every attempt fails, has no relevant
      data, so the batch runner skips the file. */
  lemma EmptyResultNoData()
    ensures NoRelevantData(F.AsDict(O.EmptyResult))
  {
    RecordNoData(O.EmptyResult);
    forall f ensures Blank(F.At(O.EmptyResult, f)) {
      O.EmptyResultFields(f);
    }
  }

  /** A field of a record reads as its value from the record's dict. */
  lemma DictField(m: F.Record, f: F.Field, default: Json)
    ensures Has(F.AsDict(m), F.Name(f)) && GetOr(F.AsDict(m), F.Name(f), default) == F.At(m, f)
  {
    HasKeys(F.AsDict(m), F.Name(f));
  }

  /** Notes `" | ".join` accepts: a list of strings, or anything that is no list. */
  predicate Joinable(v: Json) {
    v.JArr? ==> forall i :: 0 <= i < |v.items| ==> v.items[i].JStr?
  }

  /** A normalised table has a dict of bands, or is `None`: `_bands` never raises on it. */
  lemma NormalizedTable(v: Json, key: string)
    requires N.TableOk(v)
    ensures BandOf(v, key).Ok?
  {
  }

  /** Welding notes as `_normalize` leaves them, a list of strings or falsy: joining them
      never raises. */
  lemma NormalizedWeldingNotes(v: Json)
    requires Truthy(v) ==> N.DistinctNotes(v)
    ensures JoinNotes(v).Ok?
  {
    if v.JArr? && !Truthy(v) {
      assert v.items == [];
    }
  }

  /** The key `prepare_csv_row` reads the welding notes from is the field's. */
  lemma WeldingNotesKey(d: Entries, x: Json)
    ensures GetOr(d, F.Name(F.WeldingNotes), x) == GetOr(d, "Welding_Notes", x)
  {
    assert F.Name(F.WeldingNotes) == "Welding_Notes";
  }

  /** The key `prepare_csv_row` reads the notes from is the field's. */
  lemma NotesKey(d: Entries, x: Json)
    ensures GetOr(d, F.Name(F.Notes), x) == GetOr(d, "Notes", x)
  {
    assert F.Name(F.Notes) == "Notes";
  }

  /** The field of a tolerance table. */
  function TableField(t: Table): (f: F.Field)
    ensures F.Name(f) == TableKey(t)
  {
    match t
    case General => F.TolerancesGeneralLinear
    case Machining => F.TolerancesMachining
    case Welded => F.TolerancesWeldedSheetmetal
  }

  /** The tables of a normalised record never make `_bands` raise. */
  lemma NormalizedTables(m: F.Record, t: Table)
    requires N.TablesShaped(m)
    ensures BandOf(Get(F.AsDict(m), TableKey(t)), "0-20").Ok?
  {
    var f := TableField(t);
    ShapedTable(m, t);
    NormalizedTable(F.At(m, f), "0-20");
    assert Get(F.AsDict(m), F.Name(f)) == F.At(m, f);
  }

  /** Each table of a record whose tables are shaped is `None` or normalised. */
  lemma ShapedTable(m: F.Record, t: Table)
    requires N.TablesShaped(m)
    ensures N.TableOk(F.At(m, TableField(t)))
  {
  }

  /** The parts of a normalised record that `prepare_csv_row` can trip over: its welding
      notes, its tables and its notes. */
  ghost predicate RowReady(m: F.Record) {
    && (Truthy(m.weldingNotes) ==> N.DistinctNotes(m.weldingNotes))
    && N.TablesShaped(m)
  }

  /** A normalised record is ready for its row. */
  lemma NormalizedReady(m: F.Record)
    requires N.Normalized(m)
    ensures RowReady(m)
  {
  }

  /** What `prepare_csv_row` reads from the dict of a record ready for its row. */
  lemma ReadyDict(m: F.Record)
    requires RowReady(m)
    ensures var d := F.AsDict(m);
      && d != []
      && JoinNotes(GetOr(d, "Welding_Notes", JArr([]))).Ok?
      && (forall t: Table :: BandOf(Get(d, TableKey(t)), "0-20").Ok?)
      && GetOr(d, "Notes", JArr([])) == m.notes
  {
    ReadyWeldingNotes(m);
    ReadyNotes(m);
    ReadyTables(m);
    assert |F.AsDict(m)| == |F.TargetNames|;
  }

  /** The welding notes of the dict are those of the record, and they join. */
  lemma ReadyWeldingNotes(m: F.Record)
    requires Truthy(m.weldingNotes) ==> N.DistinctNotes(m.weldingNotes)
    ensures JoinNotes(GetOr(F.AsDict(m), "Welding_Notes", JArr([]))).Ok?
  {
    DictWeldingNotes(m);
    NormalizedWeldingNotes(m.weldingNotes);
  }

  /** `d.get("Welding_Notes", [])` of the dict of a record. */
  lemma DictWeldingNotes(m: F.Record)
    ensures GetOr(F.AsDict(m), "Welding_Notes", JArr([])) == m.weldingNotes
  {
    DictField(m, F.WeldingNotes, JArr([]));
    WeldingNotesKey(F.AsDict(m), JArr([]));
    NotesAt(m);
  }

  /** The notes of the dict are those of the record. */
  lemma ReadyNotes(m: F.Record)
    ensures GetOr(F.AsDict(m), "Notes", JArr([])) == m.notes
  {
    DictField(m, F.Notes, JArr([]));
    NotesKey(F.AsDict(m), JArr([]));
    NotesAt(m);
  }

  /** The two note fields of a record. */
  lemma NotesAt(m: F.Record)
    ensures F.At(m, F.WeldingNotes) == m.weldingNotes && F.At(m, F.Notes) == m.notes
  {
  }

  /** No table of the dict makes `_bands` raise. */
  lemma ReadyTables(m: F.Record)
    requires N.TablesShaped(m)
    ensures forall t: Table :: BandOf(Get(F.AsDict(m), TableKey(t)), "0-20").Ok?
  {
    forall t: Table ensures BandOf(Get(F.AsDict(m), TableKey(t)), "0-20").Ok? {
      NormalizedTables(m, t);
    }
  }

  /** The row of a record ready for it raises only at the notes, with `TypeError`. */
  lemma RowOfReady(name: string, m: F.Record)
    requires RowReady(m)
    ensures RowSpec(name, F.AsDict(m)).Ok? <==> JoinNotes(m.notes).Ok?
    ensures JoinNotes(m.notes).Raise? ==> RowSpec(name, F.AsDict(m)) == Raise(TypeError)
  {
    var d := F.AsDict(m);
    ReadyDict(m);
    if JoinNotes(m.notes).Ok? {
      RowBuilt(name, d);
    } else {
      assert RowError(d) == Some(TypeError);
    }
  }

  /** The row of a normalised record whose notes are strings never raises. */
  lemma RowOfNormalized(name: string, m: F.Record)
    requires N.Normalized(m) && Joinable(m.notes)
    ensures RowSpec(name, F.AsDict(m)).Ok?
  {
    NormalizedReady(m);
    RowOfReady(name, m);
  }

  /** A note the model gave as a number makes the row raise `TypeError`, even for a
      normalised record. */
  lemma NumberNoteRaises(name: string, m: F.Record)
    requires N.Normalized(m) && m.notes == JArr([JNum("1")])
    ensures RowSpec(name, F.AsDict(m)) == Raise(TypeError)
  {
    NormalizedReady(m);
    RowOfReady(name, m);
    assert !m.notes.items[0].JStr?;
  }
}
