/** `TARGET_KEYS` and the normalised record. `_normalize` builds its result with one
    entry per target key and afterwards only assigns to those keys, so the record has
    exactly the sixteen fields; `AsDict` gives the dict, in the order of `TARGET_KEYS`,
    that the extractor returns. */
module Fields {
  import opened JsonValue

  datatype Field =
    | MaterialGrade
    | SurfaceRoughness
    | GeometricalTolerancing
    | DimensionalTolerancing
    | BreakSharpEdges
    | RetainingRingGroovesSharp
    | WeldingNotes
    | TolerancesGeneralLinear
    | TolerancesMachining
    | TolerancesWeldedSheetmetal
    | WeldingDesignation
    | WeldFinish
    | PostTreatment
    | Notes
    | DrawingNumber
    | Revision

  /** The fields in the order of `TARGET_KEYS`. */
  const TargetKeys: seq<Field> := [
    MaterialGrade, SurfaceRoughness, GeometricalTolerancing, DimensionalTolerancing,
    BreakSharpEdges, RetainingRingGroovesSharp, WeldingNotes, TolerancesGeneralLinear,
    TolerancesMachining, TolerancesWeldedSheetmetal, WeldingDesignation, WeldFinish,
    PostTreatment, Notes, DrawingNumber, Revision
  ]

  /** The key strings of `TARGET_KEYS`, in order. */
  const TargetNames: seq<string> := [
    "Material_Grade",
    "Surface_Roughness",
    "Geometrical_Tolerancing",
    "Dimensional_Tolerancing",
    "Break_Sharp_Edges",
    "Retaining_Ring_Grooves_Sharp",
    "Welding_Notes",
    "Tolerances_General_Linear",
    "Tolerances_Machining",
    "Tolerances_Welded_Sheetmetal",
    "Welding_Designation",
    "Weld_Finish",
    "Post_Treatment",
    "Notes",
    "Drawing_Number",
    "Revision"
  ]

  /** The three tolerance tables, in the order `_normalize` visits them. */
  const TableFields: seq<Field> := [TolerancesGeneralLinear, TolerancesMachining, TolerancesWeldedSheetmetal]

  /** The sixteen fields of `TARGET_KEYS` are distinct. */
  lemma TargetKeysDistinct()
    ensures forall i, j :: 0 <= i < j < |TargetKeys| ==> TargetKeys[i] != TargetKeys[j]
  {
    IndexOfTargetKeys();
    forall i, j | 0 <= i < j < |TargetKeys| ensures TargetKeys[i] != TargetKeys[j] {
      assert Index(TargetKeys[i]) == i && Index(TargetKeys[j]) == j;
    }
  }

  /** The field at each place of `TARGET_KEYS` has that place as its index. */
  lemma IndexOfTargetKeys()
    ensures forall k :: 0 <= k < |TargetKeys| ==> Index(TargetKeys[k]) == k
  {
    forall k | 0 <= k < |TargetKeys| ensures Index(TargetKeys[k]) == k {
      if k < 8 {
        if k < 4 { assert k == 0 || k == 1 || k == 2 || k == 3; }
        else { assert k == 4 || k == 5 || k == 6 || k == 7; }
      } else {
        if k < 12 { assert k == 8 || k == 9 || k == 10 || k == 11; }
        else { assert k == 12 || k == 13 || k == 14 || k == 15; }
      }
    }
  }

  /** A field's place in `TARGET_KEYS`. */
  function Index(f: Field): (i: nat)
    ensures i < |TargetKeys| && TargetKeys[i] == f
  {
    match f
    case MaterialGrade => 0
    case SurfaceRoughness => 1
    case GeometricalTolerancing => 2
    case DimensionalTolerancing => 3
    case BreakSharpEdges => 4
    case RetainingRingGroovesSharp => 5
    case WeldingNotes => 6
    case TolerancesGeneralLinear => 7
    case TolerancesMachining => 8
    case TolerancesWeldedSheetmetal => 9
    case WeldingDesignation => 10
    case WeldFinish => 11
    case PostTreatment => 12
    case Notes => 13
    case DrawingNumber => 14
    case Revision => 15
  }

  /** The dict key of a field. */
  function Name(f: Field): string {
    TargetNames[Index(f)]
  }

  /** The keys that `_normalize` names on their own. */
  lemma KeyNames()
    ensures Name(BreakSharpEdges) == "Break_Sharp_Edges"
    ensures Name(RetainingRingGroovesSharp) == "Retaining_Ring_Grooves_Sharp"
    ensures Name(Notes) == "Notes" && Name(PostTreatment) == "Post_Treatment"
    ensures Name(DrawingNumber) == "Drawing_Number" && Name(Revision) == "Revision"
    ensures Name(TolerancesGeneralLinear) == "Tolerances_General_Linear"
    ensures Name(TolerancesMachining) == "Tolerances_Machining"
    ensures Name(TolerancesWeldedSheetmetal) == "Tolerances_Welded_Sheetmetal"
  {
  }

  /** The sixteen key names are distinct. */
  lemma TargetNamesDistinct()
    ensures forall i, j :: 0 <= i < j < |TargetNames| ==> TargetNames[i] != TargetNames[j]
  {
    forall i, j | 0 <= i < j < |TargetNames| ensures TargetNames[i] != TargetNames[j] {
      var a, b := TargetNames[i], TargetNames[j];
      assert a[..3] != b[..3] || |a| != |b| || a[|a| - 1] != b[|b| - 1] || a[5] != b[5];
    }
  }

  /** Different fields have different keys. */
  lemma NameInjective(f: Field, g: Field)
    requires f != g
    ensures Name(f) != Name(g)
  {
    TargetNamesDistinct();
    assert Index(f) != Index(g);
  }

  /** The record: one value per target key. */
  datatype Record = Record(
    materialGrade: Json,
    surfaceRoughness: Json,
    geometricalTolerancing: Json,
    dimensionalTolerancing: Json,
    breakSharpEdges: Json,
    retainingRingGroovesSharp: Json,
    weldingNotes: Json,
    tolerancesGeneralLinear: Json,
    tolerancesMachining: Json,
    tolerancesWeldedSheetmetal: Json,
    weldingDesignation: Json,
    weldFinish: Json,
    postTreatment: Json,
    notes: Json,
    drawingNumber: Json,
    revision: Json)

  /** `out[k]` for the key of `f`. */
  function At(m: Record, f: Field): Json {
    match f
    case MaterialGrade => m.materialGrade
    case SurfaceRoughness => m.surfaceRoughness
    case GeometricalTolerancing => m.geometricalTolerancing
    case DimensionalTolerancing => m.dimensionalTolerancing
    case BreakSharpEdges => m.breakSharpEdges
    case RetainingRingGroovesSharp => m.retainingRingGroovesSharp
    case WeldingNotes => m.weldingNotes
    case TolerancesGeneralLinear => m.tolerancesGeneralLinear
    case TolerancesMachining => m.tolerancesMachining
    case TolerancesWeldedSheetmetal => m.tolerancesWeldedSheetmetal
    case WeldingDesignation => m.weldingDesignation
    case WeldFinish => m.weldFinish
    case PostTreatment => m.postTreatment
    case Notes => m.notes
    case DrawingNumber => m.drawingNumber
    case Revision => m.revision
  }

  /** `out[k] = v` for the key of `f`. */
  function With(m: Record, f: Field, v: Json): (r: Record)
    ensures At(r, f) == v
    ensures forall g :: g != f ==> At(r, g) == At(m, g)
  {
    match f
    case MaterialGrade => m.(materialGrade := v)
    case SurfaceRoughness => m.(surfaceRoughness := v)
    case GeometricalTolerancing => m.(geometricalTolerancing := v)
    case DimensionalTolerancing => m.(dimensionalTolerancing := v)
    case BreakSharpEdges => m.(breakSharpEdges := v)
    case RetainingRingGroovesSharp => m.(retainingRingGroovesSharp := v)
    case WeldingNotes => m.(weldingNotes := v)
    case TolerancesGeneralLinear => m.(tolerancesGeneralLinear := v)
    case TolerancesMachining => m.(tolerancesMachining := v)
    case TolerancesWeldedSheetmetal => m.(tolerancesWeldedSheetmetal := v)
    case WeldingDesignation => m.(weldingDesignation := v)
    case WeldFinish => m.(weldFinish := v)
    case PostTreatment => m.(postTreatment := v)
    case Notes => m.(notes := v)
    case DrawingNumber => m.(drawingNumber := v)
    case Revision => m.(revision := v)
  }

  /** The record holding `g(f)` in every field `f`. */
  function Tabulate(g: Field -> Json): (r: Record)
    ensures forall f :: At(r, f) == g(f)
  {
    Record(
      g(MaterialGrade), g(SurfaceRoughness), g(GeometricalTolerancing),
      g(DimensionalTolerancing), g(BreakSharpEdges), g(RetainingRingGroovesSharp),
      g(WeldingNotes), g(TolerancesGeneralLinear), g(TolerancesMachining),
      g(TolerancesWeldedSheetmetal), g(WeldingDesignation), g(WeldFinish),
      g(PostTreatment), g(Notes), g(DrawingNumber), g(Revision))
  }

  /** Two records that agree on every field are equal. */
  lemma RecordsEqual(a: Record, b: Record)
    requires forall f :: At(a, f) == At(b, f)
    ensures a == b
  {
    assert a.materialGrade == b.materialGrade by { assert At(a, MaterialGrade) == At(b, MaterialGrade); }
    assert a.surfaceRoughness == b.surfaceRoughness by { assert At(a, SurfaceRoughness) == At(b, SurfaceRoughness); }
    assert a.geometricalTolerancing == b.geometricalTolerancing by { assert At(a, GeometricalTolerancing) == At(b, GeometricalTolerancing); }
    assert a.dimensionalTolerancing == b.dimensionalTolerancing by { assert At(a, DimensionalTolerancing) == At(b, DimensionalTolerancing); }
    assert a.breakSharpEdges == b.breakSharpEdges by { assert At(a, BreakSharpEdges) == At(b, BreakSharpEdges); }
    assert a.retainingRingGroovesSharp == b.retainingRingGroovesSharp by { assert At(a, RetainingRingGroovesSharp) == At(b, RetainingRingGroovesSharp); }
    assert a.weldingNotes == b.weldingNotes by { assert At(a, WeldingNotes) == At(b, WeldingNotes); }
    assert a.tolerancesGeneralLinear == b.tolerancesGeneralLinear by { assert At(a, TolerancesGeneralLinear) == At(b, TolerancesGeneralLinear); }
    assert a.tolerancesMachining == b.tolerancesMachining by { assert At(a, TolerancesMachining) == At(b, TolerancesMachining); }
    assert a.tolerancesWeldedSheetmetal == b.tolerancesWeldedSheetmetal by { assert At(a, TolerancesWeldedSheetmetal) == At(b, TolerancesWeldedSheetmetal); }
    assert a.weldingDesignation == b.weldingDesignation by { assert At(a, WeldingDesignation) == At(b, WeldingDesignation); }
    assert a.weldFinish == b.weldFinish by { assert At(a, WeldFinish) == At(b, WeldFinish); }
    assert a.postTreatment == b.postTreatment by { assert At(a, PostTreatment) == At(b, PostTreatment); }
    assert a.notes == b.notes by { assert At(a, Notes) == At(b, Notes); }
    assert a.drawingNumber == b.drawingNumber by { assert At(a, DrawingNumber) == At(b, DrawingNumber); }
    assert a.revision == b.revision by { assert At(a, Revision) == At(b, Revision); }
  }

  /** The entries `(name, value)` of the fields `fs` of a record, in order. */
  function EntriesOf(m: Record, fs: seq<Field>): (r: Entries)
    ensures |r| == |fs|
    ensures forall i :: 0 <= i < |fs| ==> r[i].0 == Name(fs[i])
    ensures forall i :: 0 <= i < |fs| ==> r[i].1 == At(m, fs[i])
  {
    if fs == [] then [] else [(Name(fs[0]), At(m, fs[0]))] + EntriesOf(m, fs[1..])
  }

  /** The record as the dict the extractor returns: the keys of `TARGET_KEYS`, in order,
      each with its field's value. */
  function AsDict(m: Record): (r: Entries)
    ensures Keys(r) == TargetNames
    ensures DistinctKeys(r)
    ensures forall f :: Get(r, Name(f)) == At(m, f)
  {
    AsDictKeys(m);
    forall f ensures Get(EntriesOf(m, TargetKeys), Name(f)) == At(m, f) {
      AsDictGet(m, f);
    }
    EntriesOf(m, TargetKeys)
  }

  /** The dict of a record has the key names, in order and without repeats. */
  lemma AsDictKeys(m: Record)
    ensures Keys(EntriesOf(m, TargetKeys)) == TargetNames
    ensures DistinctKeys(EntriesOf(m, TargetKeys))
  {
    var r := EntriesOf(m, TargetKeys);
    IndexOfTargetKeys();
    forall i | 0 <= i < |r| ensures r[i].0 == TargetNames[i] {
      assert Index(TargetKeys[i]) == i;
    }
    TargetNamesDistinct();
  }

  /** Looking up a field's name in the dict of a record gives the field. */
  lemma AsDictGet(m: Record, f: Field)
    requires Keys(EntriesOf(m, TargetKeys)) == TargetNames
    requires DistinctKeys(EntriesOf(m, TargetKeys))
    ensures Get(EntriesOf(m, TargetKeys), Name(f)) == At(m, f)
  {
    FindDistinct(EntriesOf(m, TargetKeys), Index(f));
  }
}
