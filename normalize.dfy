/** `_normalize(data, raw_text)`: the clean-up that turns the dict the language model
    returned into a record holding exactly the sixteen target fields. Each step of the
    source is a function on the record, `NormalizeSpec` composes them in the source's
    order, and the method `Normalize` performs them as the source does, loops included. */
module Normalize {
  import opened Text
  import opened JsonValue
  import opened Patterns
  import opened Fields
  import opened ExtractorHelpers

  // ---------------------------------------------------------------------------
  // Projection onto the target keys
  // ---------------------------------------------------------------------------

  /** Every field, taken from `data` with `data.get(k)`. */
  function Project(d: Entries): (r: Record)
    ensures forall f :: At(r, f) == Get(d, Name(f))
  {
    Tabulate(f => Get(d, Name(f)))
  }

  // ---------------------------------------------------------------------------
  // strings cleanup / lists
  // ---------------------------------------------------------------------------

  /** One element of `[re.sub(r"\s+", " ", str(x)).strip() for x in v if str(x).strip()]`:
      dropped when `str(x).strip()` is empty. */
  function CleanItem(x: Json): (r: Option<string>)
    ensures r.None? <==> Strip(PyStr(x)) == []
    ensures r.Some? ==> r.value == NoteText(x)
  {
    if Strip(PyStr(x)) == [] then None else Some(NoteText(x))
  }

  /** The list comprehension of the clean-up loop. */
  function CleanList(xs: seq<Json>): (r: seq<Json>)
    ensures |r| <= |xs|
    ensures forall i :: 0 <= i < |r| ==> r[i].JStr?
  {
    if xs == [] then []
    else
      var rest := CleanList(xs[1..]);
      var item := CleanItem(xs[0]);
      if item.None? then rest else ConsString(item.value, rest)
  }

  /** The comprehension of one item: its tidied text, or nothing when `str(x).strip()` is empty. */
  lemma CleanListOne(x: Json)
    ensures CleanList([x]) == if Strip(PyStr(x)) == [] then [] else [JStr(NoteText(x))]
  {
    assert [x][1..] == [];
  }

  /** The comprehension of a non-empty list: its first item's, then the rest's. */
  lemma CleanListHead(xs: seq<Json>)
    requires xs != []
    ensures CleanList(xs) == CleanList([xs[0]]) + CleanList(xs[1..])
  {
    CleanListOne(xs[0]);
    var rest := CleanList(xs[1..]);
    if CleanItem(xs[0]).None? {
      assert [] + rest == rest;
    } else {
      var r := CleanList(xs);
      assert r == [r[0]] + r[1..];
    }
  }

  /** The comprehension of a concatenation is the comprehension of each part, in order. */
  lemma {:induction false} CleanListAppend(a: seq<Json>, b: seq<Json>)
    ensures CleanList(a + b) == CleanList(a) + CleanList(b)
    decreases |a|
  {
    if a == [] {
      assert a + b == b;
    } else {
      var h := CleanList([a[0]]);
      ConcatHeadTail(a, b);
      CleanListHead(a + b);
      CleanListHead(a);
      CleanListAppend(a[1..], b);
      ConcatRegroup(CleanList(a + b), CleanList(a), h, CleanList(a[1..]), CleanList(b));
    }
  }

  /** `[t] + rest` as a list of JSON strings. */
  function ConsString(t: string, rest: seq<Json>): (r: seq<Json>)
    requires forall i :: 0 <= i < |rest| ==> rest[i].JStr?
    ensures |r| == |rest| + 1 && r[0] == JStr(t) && r[1..] == rest
    ensures forall i :: 0 <= i < |r| ==> r[i].JStr?
  {
    var r := [JStr(t)] + rest;
    assert forall i :: 0 < i < |r| ==> r[i] == rest[i - 1];
    r
  }

  /** What the clean-up loop stores for one value: a string with its line breaks turned
      into blanks and stripped (`None` once empty), a list through `CleanList`, anything
      else unchanged. */
  function CleanValue(v: Json): (r: Json)
    ensures v == JNull ==> r == JNull
    ensures r.JStr? ==> v.JStr? && r.s != [] && !IsSpace(r.s[0]) && !IsSpace(r.s[|r.s| - 1])
    ensures !v.JStr? && !v.JArr? ==> r == v
    ensures r.JObj? <==> v.JObj?
  {
    match v
    case JStr(s) =>
      var vv := Strip(ReplaceChar(ReplaceChar(s, '\r', ' '), '\n', ' '));
      if vv == [] then JNull else JStr(vv)
    case JArr(xs) => JArr(CleanList(xs))
    case _ => v
  }

  /** The first loop of `_normalize`, over every field. */
  function CleanScalars(m: Record): (r: Record)
    ensures forall f :: At(r, f) == CleanValue(At(m, f))
  {
    Tabulate(f => CleanValue(At(m, f)))
  }

  /** `for k, v in list(out.items())`: each string or list field rewritten in turn. */
  method CleanScalarsLoop(m: Record) returns (out: Record)
    ensures out == CleanScalars(m)
  {
    out := m;
    var i := 0;
    while i < |TargetKeys|
      invariant 0 <= i <= |TargetKeys|
      invariant forall f :: At(out, f) == if Index(f) < i then CleanValue(At(m, f)) else At(m, f)
    {
      var k := TargetKeys[i];
      var v := At(out, k);
      IndexOf(k, i);
      ghost var prev := out;
      if v != JNull && (v.JStr? || v.JArr?) {
        out := With(out, k, CleanValue(v));
      }
      CleanStep(m, prev, out, i, k);
      i := i + 1;
    }
    RecordsEqual(out, CleanScalars(m));
  }

  /** One pass of the clean-up loop, at the field `k` of index `i`. */
  lemma CleanStep(m: Record, out: Record, next: Record, i: nat, k: Field)
    requires Index(k) == i
    requires forall f :: At(out, f) == if Index(f) < i then CleanValue(At(m, f)) else At(m, f)
    requires At(next, k) == CleanValue(At(out, k))
    requires forall g :: g != k ==> At(next, g) == At(out, g)
    ensures forall f :: At(next, f) == if Index(f) < i + 1 then CleanValue(At(m, f)) else At(m, f)
  {
    forall f ensures At(next, f) == if Index(f) < i + 1 then CleanValue(At(m, f)) else At(m, f) {
      if f != k {
        assert Index(f) != i;
      }
    }
  }

  /** The field at position `i` of `TARGET_KEYS` has index `i`. */
  lemma IndexOf(k: Field, i: nat)
    requires i < |TargetKeys| && TargetKeys[i] == k
    ensures Index(k) == i
  {
    IndexOfTargetKeys();
  }

  // ---------------------------------------------------------------------------
  // Material_Grade
  // ---------------------------------------------------------------------------

  /** The characters `.strip(" -_,")` removes. */
  predicate IsGradeTrim(c: char) {
    c == ' ' || c == '-' || c == '_' || c == ','
  }

  /** A string grade loses its form words and the separators left at its ends; it becomes
      `None` when nothing remains. */
  function StripFormWords(m: Record): (r: Record)
    ensures r == m.(materialGrade := r.materialGrade)
    ensures !m.materialGrade.JStr? ==> r == m
    ensures r.materialGrade.JStr? ==>
      var g := r.materialGrade.s; g != [] && !IsGradeTrim(g[0]) && !IsGradeTrim(g[|g| - 1])
    ensures m.materialGrade.JStr? ==> var w := SubFormWords(m.materialGrade.s);
      && (r.materialGrade == JNull <==> forall i :: 0 <= i < |w| ==> IsGradeTrim(w[i]))
      && (r.materialGrade.JStr? ==> exists a :: OccursAt(w, r.materialGrade.s, a))
  {
    match m.materialGrade
    case JStr(mg) =>
      StripWhereCut(SubFormWords(mg), IsGradeTrim);
      var c := StripWhere(SubFormWords(mg), IsGradeTrim);
      m.(materialGrade := if c == [] then JNull else JStr(c))
    case _ => m
  }

  /** `m.group(1).upper().replace(" ", "")`. */
  function GradeText(g: string): (r: string)
    ensures ' ' !in r
    ensures g != [] && g[0] != ' ' ==> r != []
  {
    var r := RemoveChar(Upper(g), ' ');
    assert multiset(r)[' '] == 0;
    assert g != [] && g[0] != ' ' ==> Upper(g)[0] in multiset(r);
    r
  }

  /** A missing grade is taken from the first grade pattern in the raw text. */
  function InferGrade(m: Record, raw: string): (r: Record)
    ensures r == m.(materialGrade := r.materialGrade)
    ensures Truthy(m.materialGrade) || GradeMatch(raw).None? ==> r == m
    ensures !Truthy(m.materialGrade) && GradeMatch(raw).Some? ==>
      r.materialGrade == JStr(GradeText(GradeMatch(raw).value))
  {
    if Truthy(m.materialGrade) then m
    else match GradeMatch(raw)
      case Some(g) => m.(materialGrade := JStr(GradeText(g)))
      case None => m
  }

  // ---------------------------------------------------------------------------
  // Post_Treatment
  // ---------------------------------------------------------------------------

  /** A post-treatment naming a grade is dropped, and the grade it names, as matched,
      fills a missing `Material_Grade`. A truthy value that is not a string makes
      `re.search` raise `TypeError`. */
  function PostTreatmentStep(m: Record): (r: Py<Record>)
    ensures r.Raise? <==> Truthy(m.postTreatment) && !m.postTreatment.JStr?
    ensures r.Raise? ==> r.error == TypeError
    ensures r.Ok? ==> r.value == m.(materialGrade := r.value.materialGrade, postTreatment := r.value.postTreatment)
    ensures r.Ok? && Truthy(m.materialGrade) ==> r.value.materialGrade == m.materialGrade
    ensures r.Ok? && Truthy(r.value.postTreatment) ==>
      r.value.postTreatment == m.postTreatment && GradeMatch(m.postTreatment.s).None?
    ensures r.Ok? && m.postTreatment.JStr? && GradeMatch(m.postTreatment.s).Some? ==>
      && r.value.postTreatment == JNull
      && (!Truthy(m.materialGrade) ==> r.value.materialGrade == JStr(GradeMatch(m.postTreatment.s).value))
  {
    var pt := m.postTreatment;
    if !Truthy(pt) then Ok(m)
    else if !pt.JStr? then Raise(TypeError)
    else match GradeMatch(pt.s)
      case None => Ok(m)
      case Some(g) =>
        var m1 := if !Truthy(m.materialGrade) then m.(materialGrade := JStr(g)) else m;
        Ok(m1.(postTreatment := JNull))
  }

  // ---------------------------------------------------------------------------
  // Welding_Notes vs Welding_Designation
  // ---------------------------------------------------------------------------

  /** A list of strings no two of which are equal after lower-casing: the shape
      `_clean_welding_notes` returns. */
  predicate DistinctNotes(v: Json) {
    && v.JArr?
    && (forall i :: 0 <= i < |v.items| ==> v.items[i].JStr?)
    && (forall i, j :: 0 <= i < j < |v.items| ==> Lower(v.items[i].s) != Lower(v.items[j].s))
  }

  /** The list `_clean_welding_notes(ns)` returns, as a value. */
  function NotesValue(ns: seq<Json>): (v: Json)
    ensures DistinctNotes(v)
  {
    CleanNotesSpec(ns);
    JArr(StrItems(CleanNotes(ns)))
  }

  /** Truthy welding notes are replaced by their cleaned list; iterating over a truthy
      number or `True` raises `TypeError`. */
  function WeldingNotesStep(m: Record): (r: Py<Record>)
    ensures r.Raise? <==> Truthy(m.weldingNotes) && Iterate(m.weldingNotes).Raise?
    ensures r.Raise? ==> r.error == TypeError
    ensures r.Ok? ==> r.value == m.(weldingNotes := r.value.weldingNotes)
    ensures r.Ok? && Truthy(m.weldingNotes) ==> r.value.weldingNotes == NotesValue(Iterate(m.weldingNotes).value)
    ensures r.Ok? && !Truthy(m.weldingNotes) ==> r.value == m
  {
    var wn := m.weldingNotes;
    if !Truthy(wn) then Ok(m)
    else
      var ns :- Iterate(wn);
      Ok(m.(weldingNotes := NotesValue(ns)))
  }

  /** The designation is a string holding one of the welding words as a whole word. */
  predicate Moves(m: Record) {
    var wd := m.weldingDesignation;
    wd.JStr? && wd.s != [] && HasWeldingKeyword(wd.s)
  }

  /** `w.append(designation)` followed by `_clean_welding_notes(w)`, where `w` is the notes
      list, and the designation set to `None`. */
  function AppendDesignation(m: Record): (r: Record)
    requires Or(m.weldingNotes, JArr([])).JArr?
    ensures r.weldingDesignation == JNull
    ensures DistinctNotes(r.weldingNotes)
    ensures r.weldingNotes == NotesValue(Or(m.weldingNotes, JArr([])).items + [m.weldingDesignation])
    ensures r == m.(weldingNotes := r.weldingNotes, weldingDesignation := r.weldingDesignation)
  {
    var w := Or(m.weldingNotes, JArr([]));
    m.(weldingNotes := NotesValue(w.items + [m.weldingDesignation]), weldingDesignation := JNull)
  }

  /** A designation written as a sentence moves into the notes, which are cleaned again.
      A truthy designation that is not a string makes `re.search` raise `TypeError`;
      truthy notes that are not a list have no `append` (`AttributeError`). */
  function MoveDesignation(m: Record): (r: Py<Record>)
    ensures Truthy(m.weldingDesignation) && !m.weldingDesignation.JStr? ==> r == Raise(TypeError)
    ensures Moves(m) && !Or(m.weldingNotes, JArr([])).JArr? ==> r == Raise(AttributeError)
    ensures Moves(m) && Or(m.weldingNotes, JArr([])).JArr? ==> r == Ok(AppendDesignation(m))
    ensures r.Ok? && !Moves(m) ==> r.value == m
    ensures r.Ok? ==> !Moves(r.value)
    ensures r.Ok? ==> r.value == m.(weldingNotes := r.value.weldingNotes, weldingDesignation := r.value.weldingDesignation)
    ensures r.Ok? ==> r.value.weldingNotes == m.weldingNotes || DistinctNotes(r.value.weldingNotes)
  {
    if Truthy(m.weldingDesignation) && !m.weldingDesignation.JStr? then Raise(TypeError)
    else if !Moves(m) then Ok(m)
    else if !Or(m.weldingNotes, JArr([])).JArr? then Raise(AttributeError)
    else Ok(AppendDesignation(m))
  }

  /** A designation "Continuous weld, grind smooth at corners" beside missing notes is
      moved: the notes become the cleaned one-element list and the designation `None`. */
  lemma ContinuousWeldMoved(m: Record)
    requires m.weldingDesignation == JStr("Continuous weld, grind smooth at corners")
    requires m.weldingNotes == JNull
    ensures MoveDesignation(m).Ok?
    ensures MoveDesignation(m).value.weldingDesignation == JNull
    ensures MoveDesignation(m).value.weldingNotes == NotesValue([m.weldingDesignation])
  {
    var s := m.weldingDesignation.s;
    assert s[..11] == "Continuous ";
    ContinuousWeldSentence(s);
    MovedIntoMissingNotes(m);
  }

  /** A designation that moves, beside missing notes, becomes the one-element notes list. */
  lemma MovedIntoMissingNotes(m: Record)
    requires Moves(m) && m.weldingNotes == JNull
    ensures MoveDesignation(m) == Ok(AppendDesignation(m))
    ensures AppendDesignation(m).weldingNotes == NotesValue([m.weldingDesignation])
  {
    var w := Or(m.weldingNotes, JArr([]));
    assert w == JArr([]);
    assert w.items + [m.weldingDesignation] == [m.weldingDesignation];
  }

  // ---------------------------------------------------------------------------
  // Booleans from the raw text
  // ---------------------------------------------------------------------------

  /** `for k, v in bools.items(): if out.get(k) is None: out[k] = v`. */
  function FillFlags(m: Record, bs: seq<(Field, Json)>): (r: Record)
    ensures forall f :: At(m, f) != JNull ==> At(r, f) == At(m, f)
    decreases |bs|
  {
    if bs == [] then m
    else
      var (k, v) := bs[0];
      var m1 := if At(m, k) == JNull then With(m, k, v) else m;
      FillFlags(m1, bs[1..])
  }

  /** A field the flags loop does not name is untouched. */
  lemma {:induction false} FillFlagsOther(m: Record, bs: seq<(Field, Json)>, f: Field)
    requires forall i :: 0 <= i < |bs| ==> bs[i].0 != f
    ensures At(FillFlags(m, bs), f) == At(m, f)
    decreases |bs|
  {
    if bs != [] {
      var (k, v) := bs[0];
      var m1 := if At(m, k) == JNull then With(m, k, v) else m;
      assert forall i :: 0 <= i < |bs| - 1 ==> bs[1..][i] == bs[i + 1];
      FillFlagsOther(m1, bs[1..], f);
    }
  }

  /** A field that is not `None` is never overridden by the flags loop. */
  lemma {:induction false} FillFlagsKeeps(m: Record, bs: seq<(Field, Json)>, f: Field)
    requires At(m, f) != JNull
    ensures At(FillFlags(m, bs), f) == At(m, f)
    decreases |bs|
  {
    if bs != [] {
      var (k, v) := bs[0];
      var m1 := if At(m, k) == JNull then With(m, k, v) else m;
      FillFlagsKeeps(m1, bs[1..], f);
    }
  }

  /** The flags loop with the two flags `_extract_booleans` reads off the raw text: each
      one that was `None` takes the value found there, and nothing else changes. */
  lemma FlagsFromRaw(m: Record, raw: string)
    ensures FillFlags(m, ExtractBooleans(raw)) == m.(
      breakSharpEdges := FlagValue(m.breakSharpEdges, MentionsAny(Lower(raw), BreakEdgesPhrases)),
      retainingRingGroovesSharp := FlagValue(m.retainingRingGroovesSharp, MentionsAny(Lower(raw), GroovesSharpPhrases)))
  {
    var bs := ExtractBooleans(raw);
    var m1 := if m.breakSharpEdges == JNull then m.(breakSharpEdges := bs[0].1) else m;
    var m2 := if m1.retainingRingGroovesSharp == JNull then m1.(retainingRingGroovesSharp := bs[1].1) else m1;
    assert bs[1..] == [bs[1]];
    assert FillFlags(m, bs) == FillFlags(m1, [bs[1]]);
    assert [bs[1]][1..] == [];
    assert FillFlags(m1, [bs[1]]) == m2;
  }

  /** A flag after the flags loop: `None` takes the value `found`, anything else is kept. */
  function FlagValue(before: Json, found: bool): (r: Json)
    ensures r != JNull
    ensures before != JNull ==> r == before
    ensures before == JNull ==> r == JBool(found)
  {
    if before == JNull then JBool(found) else before
  }

  /** The flags loop. */
  method FillFlagsLoop(m: Record, bs: seq<(Field, Json)>) returns (out: Record)
    ensures out == FillFlags(m, bs)
  {
    out := m;
    var i := 0;
    while i < |bs|
      invariant 0 <= i <= |bs|
      invariant FillFlags(out, bs[i..]) == FillFlags(m, bs)
    {
      var (k, v) := bs[i];
      assert bs[i..][1..] == bs[i + 1..];
      if At(out, k) == JNull {
        out := With(out, k, v);
      }
      i := i + 1;
    }
  }

  // ---------------------------------------------------------------------------
  // Surface_Roughness
  // ---------------------------------------------------------------------------

  /** The unit rewrite: the Greek mu becomes the micro sign, and any spelling of
      micrometre becomes "µm"; any other unit is kept as given. */
  function RoughnessUnit(u: string): string {
    var v := ReplaceChar(u, '\U{3BC}', '\U{B5}');
    if Lower(v) in {"um", "\U{B5}m", "\U{3BC}m"} then "\U{B5}m" else u
  }

  /** The unit is either kept or written "µm"; every case spelling of "um" becomes "µm"
      and "mm" is kept. */
  lemma RoughnessUnitMicro(u: string)
    ensures RoughnessUnit(u) == u || RoughnessUnit(u) == "\U{B5}m"
    ensures Lower(u) == "um" ==> RoughnessUnit(u) == "\U{B5}m"
    ensures Lower(u) == "mm" ==> RoughnessUnit(u) == u
  {
    var v := ReplaceChar(u, '\U{3BC}', '\U{B5}');
    if Lower(u) == "um" || Lower(u) == "mm" {
      assert |u| == 2;
      assert LowerChar(u[0]) == Lower(u)[0] && LowerChar(u[1]) == Lower(u)[1];
      assert v == u;
    }
  }

  /** The string rewrites applied to the entries of the roughness and standards dicts. */
  datatype Rewrite = UnitRewrite | DecimalRewrite | StripRewrite | TidyRewrite

  /** The rewrite `w` applied to a string. */
  function Apply(w: Rewrite, s: string): string {
    match w
    case UnitRewrite => RoughnessUnit(s)
    case DecimalRewrite => DecimalValue(s)
    case StripRewrite => Strip(s)
    case TidyRewrite => Tidy(s)
  }

  /** `d[key] = rewrite(d[key])` when `d.get(key)` is a string. */
  function MapString(d: Entries, key: string, w: Rewrite): (r: Entries)
    ensures Get(d, key).JStr? ==> Get(r, key) == JStr(Apply(w, Get(d, key).s))
    ensures !Get(d, key).JStr? ==> r == d
    ensures forall k :: k != key ==> Get(r, k) == Get(d, k)
    ensures Keys(r) == Keys(d)
  {
    match Get(d, key)
    case JStr(s) => Set(d, key, JStr(Apply(w, s)))
    case _ => d
  }

  /** `_DEC_COMMA.sub(r"\1.\2", s).strip()`. */
  function DecimalValue(s: string): (r: string)
    ensures r != [] ==> !IsSpace(r[0]) && !IsSpace(r[|r| - 1])
  {
    Strip(DecComma(s))
  }

  /** The four rewrites of a roughness dict: unit, value, parameter and standard. */
  function RoughnessFields(d: Entries): Entries {
    var d1 := MapString(d, "unit", UnitRewrite);
    var d2 := MapString(d1, "value", DecimalRewrite);
    var d3 := MapString(d2, "parameter", StripRewrite);
    MapString(d3, "standard", TidyRewrite)
  }

  /** A string unit is rewritten by `RoughnessUnit`, a string value gets a decimal point
      and loses its blanks at the ends. */
  lemma RoughnessUnitValue(d: Entries)
    ensures Get(d, "unit").JStr? ==> Get(RoughnessFields(d), "unit") == JStr(RoughnessUnit(Get(d, "unit").s))
    ensures Get(d, "value").JStr? ==> Get(RoughnessFields(d), "value") == JStr(DecimalValue(Get(d, "value").s))
  {
    var d1 := MapString(d, "unit", UnitRewrite);
    var d2 := MapString(d1, "value", DecimalRewrite);
    RoughnessKeys();
    if Get(d, "unit").JStr? {
      ApplyUnit(Get(d, "unit").s);
    }
    if Get(d, "value").JStr? {
      ApplyDecimal(Get(d, "value").s);
      assert Get(d1, "value") == Get(d, "value");
    }
    assert Get(RoughnessFields(d), "unit") == Get(d1, "unit");
    assert Get(RoughnessFields(d), "value") == Get(d2, "value");
  }

  /** A string parameter is stripped. */
  lemma RoughnessParameter(d: Entries)
    ensures Get(d, "parameter").JStr? ==> Get(RoughnessFields(d), "parameter") == JStr(Strip(Get(d, "parameter").s))
  {
    var d1 := MapString(d, "unit", UnitRewrite);
    var d2 := MapString(d1, "value", DecimalRewrite);
    var d3 := MapString(d2, "parameter", StripRewrite);
    RoughnessKeys();
    if Get(d, "parameter").JStr? {
      ApplyStrip(Get(d, "parameter").s);
      assert Get(d2, "parameter") == Get(d, "parameter");
    }
    assert Get(RoughnessFields(d), "parameter") == Get(d3, "parameter");
  }

  /** A string standard has its blanks collapsed and stripped. */
  lemma RoughnessStandard(d: Entries)
    ensures Get(d, "standard").JStr? ==> Get(RoughnessFields(d), "standard") == JStr(Tidy(Get(d, "standard").s))
  {
    var d1 := MapString(d, "unit", UnitRewrite);
    var d2 := MapString(d1, "value", DecimalRewrite);
    var d3 := MapString(d2, "parameter", StripRewrite);
    RoughnessKeys();
    if Get(d, "standard").JStr? {
      ApplyTidy(Get(d, "standard").s);
      assert Get(d3, "standard") == Get(d, "standard");
    }
  }

  /** Every other key of the roughness dict keeps its value. */
  lemma RoughnessFieldsOther(d: Entries, k: string)
    requires k != "unit" && k != "value" && k != "parameter" && k != "standard"
    ensures Get(RoughnessFields(d), k) == Get(d, k)
  {
    var d1 := MapString(d, "unit", UnitRewrite);
    var d2 := MapString(d1, "value", DecimalRewrite);
    var d3 := MapString(d2, "parameter", StripRewrite);
    assert Get(d3, k) == Get(d, k);
  }

  /** The four keys of a roughness dict differ. */
  lemma RoughnessKeys()
    ensures "unit" != "value" && "unit" != "parameter" && "unit" != "standard"
    ensures "value" != "parameter" && "value" != "standard" && "parameter" != "standard"
  {
  }

  /** The unit rewrite is `RoughnessUnit`. */
  lemma ApplyUnit(s: string)
    ensures Apply(UnitRewrite, s) == RoughnessUnit(s)
  {
  }

  /** The value rewrite is `DecimalValue`. */
  lemma ApplyDecimal(s: string)
    ensures Apply(DecimalRewrite, s) == DecimalValue(s)
  {
  }

  /** The parameter rewrite is `Strip`. */
  lemma ApplyStrip(s: string)
    ensures Apply(StripRewrite, s) == Strip(s)
  {
  }

  /** The standard rewrite is `Tidy`. */
  lemma ApplyTidy(s: string)
    ensures Apply(TidyRewrite, s) == Tidy(s)
  {
  }

  /** A roughness dict is rewritten in place; any other value than `None` is dropped. */
  function NormRoughness(m: Record): (r: Record)
    ensures r == m.(surfaceRoughness := r.surfaceRoughness)
    ensures r.surfaceRoughness == JNull || r.surfaceRoughness.JObj?
    ensures m.surfaceRoughness.JObj? ==> r.surfaceRoughness == JObj(RoughnessFields(m.surfaceRoughness.entries))
    ensures !m.surfaceRoughness.JObj? ==> r.surfaceRoughness == JNull
  {
    var sr := m.surfaceRoughness;
    if sr.JObj? then m.(surfaceRoughness := JObj(RoughnessFields(sr.entries)))
    else if sr != JNull then m.(surfaceRoughness := JNull)
    else m
  }

  // ---------------------------------------------------------------------------
  // Geometrical / Dimensional standards
  // ---------------------------------------------------------------------------

  /** The two standards fields, in the order `_normalize` visits them. */
  const StandardFields: seq<Field> := [GeometricalTolerancing, DimensionalTolerancing]

  /** The standard and scope of a standards dict, tidied. */
  function StandardEntries(e: Entries): (r: Entries)
    ensures Keys(r) == Keys(e)
    ensures Get(e, "standard").JStr? ==> Get(r, "standard") == JStr(Tidy(Get(e, "standard").s))
    ensures Get(e, "scope").JStr? ==> Get(r, "scope") == JStr(Tidy(Get(e, "scope").s))
    ensures forall k :: k != "standard" && k != "scope" ==> Get(r, k) == Get(e, k)
  {
    var e1 := MapString(e, "standard", TidyRewrite);
    var r := MapString(e1, "scope", TidyRewrite);
    TidiedAt(e, "standard");
    TidiedAt(e1, "scope");
    assert "standard" != "scope";
    r
  }

  /** `MapString` with `TidyRewrite` tidies the string at `key`. */
  lemma TidiedAt(d: Entries, key: string)
    ensures Get(d, key).JStr? ==> Get(MapString(d, key, TidyRewrite), key) == JStr(Tidy(Get(d, key).s))
  {
    if Get(d, key).JStr? {
      ApplyTidy(Get(d, key).s);
    }
  }

  /** One standards field: a dict has its standard and scope tidied, any other value
      than `None` is dropped. */
  function NormStandard(m: Record, key: Field): (r: Record)
    ensures r == With(m, key, At(r, key))
    ensures At(m, key).JObj? ==> At(r, key) == JObj(StandardEntries(At(m, key).entries))
    ensures !At(m, key).JObj? ==> At(r, key) == JNull
  {
    var obj := At(m, key);
    if obj.JObj? then With(m, key, JObj(StandardEntries(obj.entries)))
    else if obj != JNull then With(m, key, JNull)
    else m
  }

  /** The sub-records `keys`, normalised one after another. */
  function NormStandards(m: Record, keys: seq<Field>): (r: Record)
    ensures forall f :: f !in keys ==> At(r, f) == At(m, f)
    decreases |keys|
  {
    if keys == [] then m
    else NormStandards(NormStandard(m, keys[0]), keys[1..])
  }

  /** A field outside `keys` is untouched by the standards loop. */
  lemma {:induction false} NormStandardsOther(m: Record, keys: seq<Field>, f: Field)
    requires f !in keys
    ensures At(NormStandards(m, keys), f) == At(m, f)
    decreases |keys|
  {
    if keys != [] {
      assert f != keys[0] && f !in keys[1..];
      NormStandardsOther(NormStandard(m, keys[0]), keys[1..], f);
    }
  }

  /** For the two standards fields the loop is its two steps. */
  lemma StandardsSteps(m: Record)
    ensures NormStandards(m, StandardFields) ==
      NormStandard(NormStandard(m, GeometricalTolerancing), DimensionalTolerancing)
  {
    assert StandardFields[1..] == [DimensionalTolerancing];
    assert [DimensionalTolerancing][1..] == [];
  }

  /** `for key in ("Geometrical_Tolerancing", "Dimensional_Tolerancing")`. */
  method NormStandardsLoop(m: Record, keys: seq<Field>) returns (out: Record)
    ensures out == NormStandards(m, keys)
  {
    out := m;
    var i := 0;
    while i < |keys|
      invariant 0 <= i <= |keys|
      invariant NormStandards(out, keys[i..]) == NormStandards(m, keys)
    {
      assert keys[i..][1..] == keys[i + 1..];
      out := NormStandard(out, keys[i]);
      i := i + 1;
    }
  }

  // ---------------------------------------------------------------------------
  // Tolerance tables
  // ---------------------------------------------------------------------------

  /** A truthy table goes through `_normalize_tables`. */
  function NormTolerance(m: Record, key: Field): (r: Py<Record>)
    ensures r.Ok? ==> r.value == With(m, key, At(r.value, key))
    ensures !Truthy(At(m, key)) ==> r == Ok(m)
    ensures Truthy(At(m, key)) ==> (r.Raise? <==> NormalizeTablesSpec(At(m, key)).Raise?)
    ensures Truthy(At(m, key)) && r.Ok? ==> At(r.value, key) == NormalizeTablesSpec(At(m, key)).value
  {
    if Truthy(At(m, key)) then
      var t :- NormalizeTablesSpec(At(m, key));
      Ok(With(m, key, t))
    else Ok(m)
  }

  /** The tables `keys`, each normalised by `_normalize_tables` when truthy, one after another. */
  function NormTolerances(m: Record, keys: seq<Field>): (r: Py<Record>)
    ensures r.Ok? ==> forall f :: f !in keys ==> At(r.value, f) == At(m, f)
    decreases |keys|
  {
    if keys == [] then Ok(m)
    else
      var m1 :- NormTolerance(m, keys[0]);
      NormTolerances(m1, keys[1..])
  }

  /** A field outside `keys` is untouched by the tolerances loop. */
  lemma {:induction false} NormTolerancesOther(m: Record, keys: seq<Field>, f: Field)
    requires f !in keys
    ensures NormTolerances(m, keys).Ok? ==> At(NormTolerances(m, keys).value, f) == At(m, f)
    decreases |keys|
  {
    if keys != [] && NormTolerance(m, keys[0]).Ok? {
      assert f != keys[0] && f !in keys[1..];
      NormTolerancesOther(NormTolerance(m, keys[0]).value, keys[1..], f);
    }
  }

  /** `for key in (...): if out.get(key): out[key] = _normalize_tables(out[key])`. */
  method NormTolerancesLoop(m: Record, keys: seq<Field>) returns (r: Py<Record>)
    ensures r == NormTolerances(m, keys)
  {
    var out := m;
    var i := 0;
    while i < |keys|
      invariant 0 <= i <= |keys|
      invariant NormTolerances(out, keys[i..]) == NormTolerances(m, keys)
    {
      NormTolerancesHead(out, keys[i..]);
      assert keys[i..][1..] == keys[i + 1..];
      out :- NormToleranceStep(out, keys[i]);
      i := i + 1;
    }
    return Ok(out);
  }

  /** One pass of the tolerances loop: `if out.get(key): out[key] = _normalize_tables(out[key])`. */
  method NormToleranceStep(m: Record, key: Field) returns (r: Py<Record>)
    ensures r == NormTolerance(m, key)
  {
    if Truthy(At(m, key)) {
      var t :- NormalizeTables(At(m, key));
      return Ok(With(m, key, t));
    }
    return Ok(m);
  }

  /** The tolerances loop over a non-empty key list: the first table, then the rest. */
  lemma NormTolerancesHead(m: Record, keys: seq<Field>)
    requires keys != []
    ensures NormTolerance(m, keys[0]).Raise? ==>
      NormTolerances(m, keys) == Raise(NormTolerance(m, keys[0]).error)
    ensures NormTolerance(m, keys[0]).Ok? ==>
      NormTolerances(m, keys) == NormTolerances(NormTolerance(m, keys[0]).value, keys[1..])
  {
  }

  /** An old-style `Tolerances_Table` fills a missing general table. */
  function LegacyTable(m: Record, legacy: Json): (r: Py<Record>)
    ensures r.Ok? ==> r.value == m.(tolerancesGeneralLinear := r.value.tolerancesGeneralLinear)
    ensures Truthy(m.tolerancesGeneralLinear) || !Truthy(legacy) ==> r == Ok(m)
    ensures !Truthy(m.tolerancesGeneralLinear) && Truthy(legacy) ==>
      && (r.Ok? <==> NormalizeTablesSpec(legacy).Ok?)
      && (r.Ok? ==> r.value.tolerancesGeneralLinear == NormalizeTablesSpec(legacy).value)
  {
    if Truthy(legacy) && !Truthy(m.tolerancesGeneralLinear) then
      var t :- NormalizeTablesSpec(legacy);
      Ok(m.(tolerancesGeneralLinear := t))
    else Ok(m)
  }

  /** `out[key] = norm_table(out.get(key)) if out.get(key) else None`. */
  function NormTableField(m: Record, key: Field): (r: Py<Record>)
    ensures r.Ok? ==> r.value == With(m, key, At(r.value, key))
    ensures r.Ok? ==> At(r.value, key) == JNull || TableShape(At(r.value, key))
    ensures r.Ok? && !At(m, key).JObj? ==> At(r.value, key) == JNull
    ensures r.Raise? <==> Truthy(At(m, key)) && NormTableSpec(At(m, key)).Raise?
  {
    if Truthy(At(m, key)) then
      var t :- NormTableSpec(At(m, key));
      Ok(With(m, key, t))
    else Ok(With(m, key, JNull))
  }

  /** The tables `keys`, each passed through `norm_table`, one after another. */
  function NormTables(m: Record, keys: seq<Field>): (r: Py<Record>)
    ensures r.Ok? ==> forall f :: f !in keys ==> At(r.value, f) == At(m, f)
    decreases |keys|
  {
    if keys == [] then Ok(m)
    else
      var m1 :- NormTableField(m, keys[0]);
      NormTables(m1, keys[1..])
  }

  /** A field outside `keys` is untouched by the `norm_table` loop. */
  lemma {:induction false} NormTablesOther(m: Record, keys: seq<Field>, f: Field)
    requires f !in keys
    ensures NormTables(m, keys).Ok? ==> At(NormTables(m, keys).value, f) == At(m, f)
    decreases |keys|
  {
    if keys != [] && NormTableField(m, keys[0]).Ok? {
      assert f != keys[0] && f !in keys[1..];
      NormTablesOther(NormTableField(m, keys[0]).value, keys[1..], f);
    }
  }

  /** For the three tables each loop is its three steps. */
  lemma TableSteps(m: Record)
    ensures NormTolerances(m, TableFields) ==
      var p1 :- NormTolerance(m, TolerancesGeneralLinear);
      var p2 :- NormTolerance(p1, TolerancesMachining);
      NormTolerance(p2, TolerancesWeldedSheetmetal)
    ensures NormTables(m, TableFields) ==
      var p1 :- NormTableField(m, TolerancesGeneralLinear);
      var p2 :- NormTableField(p1, TolerancesMachining);
      NormTableField(p2, TolerancesWeldedSheetmetal)
  {
    assert TableFields[1..] == [TolerancesMachining, TolerancesWeldedSheetmetal];
    assert TableFields[1..][1..] == [TolerancesWeldedSheetmetal];
    assert [TolerancesWeldedSheetmetal][1..] == [];
  }

  /** The `norm_table` loop over the three tables. */
  method NormTablesLoop(m: Record, keys: seq<Field>) returns (r: Py<Record>)
    ensures r == NormTables(m, keys)
  {
    var out := m;
    var i := 0;
    while i < |keys|
      invariant 0 <= i <= |keys|
      invariant NormTables(out, keys[i..]) == NormTables(m, keys)
    {
      assert keys[i..][1..] == keys[i + 1..];
      var key := keys[i];
      if Truthy(At(out, key)) {
        var t :- NormTable(At(out, key));
        out := With(out, key, t);
      } else {
        out := With(out, key, JNull);
      }
      i := i + 1;
    }
    return Ok(out);
  }

  // ---------------------------------------------------------------------------
  // Drawing number, revision and notes
  // ---------------------------------------------------------------------------

  /** A missing value is taken from the first labelled token of the raw text. */
  function FillLabel(m: Record, key: Field, raw: string, kind: Label): (r: Record)
    ensures r == With(m, key, At(r, key))
    ensures Truthy(At(m, key)) || LabelledToken(raw, kind).None? ==> r == m
    ensures !Truthy(At(m, key)) && LabelledToken(raw, kind).Some? ==> At(r, key) == JStr(LabelledToken(raw, kind).value)
  {
    if Truthy(At(m, key)) then m
    else match LabelledToken(raw, kind)
      case Some(t) => With(m, key, JStr(t))
      case None => m
  }

  /** `Notes` as a list, from the value the earlier steps passed on: `None` becomes the
      empty list, a string the list of its stripped text (empty when blank); a list or
      any other value is kept. */
  function NotesValueOf(n: Json): (r: Json)
    ensures r != JNull && !r.JStr?
    ensures n == JNull ==> r == JArr([])
    ensures n.JStr? && Strip(n.s) == [] ==> r == JArr([])
    ensures n.JStr? && Strip(n.s) != [] ==> r == JArr([JStr(Strip(n.s))])
    ensures n != JNull && !n.JStr? ==> r == n
  {
    if n == JNull then JArr([])
    else if n.JStr? then
      var s := Strip(n.s);
      if s == [] then JArr([]) else JArr([JStr(s)])
    else n
  }

  /** The last step: `Notes` becomes a list. */
  function NotesList(m: Record): (r: Record)
    ensures r == m.(notes := NotesValueOf(m.notes))
  {
    m.(notes := NotesValueOf(m.notes))
  }

  // ---------------------------------------------------------------------------
  // _normalize
  // ---------------------------------------------------------------------------

  /** The record after the projection, the clean-up loop and the form-word step. */
  function Cleaned(d: Entries): Record {
    StripFormWords(CleanScalars(Project(d)))
  }

  /** The post-treatment and welding steps. */
  function Welding(m: Record): (r: Py<Record>)
    ensures r.Ok? ==> r.value == m.(materialGrade := r.value.materialGrade, postTreatment := r.value.postTreatment,
      weldingNotes := r.value.weldingNotes, weldingDesignation := r.value.weldingDesignation)
  {
    var m5 :- PostTreatmentStep(m);
    var m6 :- WeldingNotesStep(m5);
    MoveDesignation(m6)
  }

  /** The flags, the roughness dict and the two standards dicts. */
  function FlagsAndObjects(m: Record, raw: string): (r: Record)
    ensures r == m.(breakSharpEdges := r.breakSharpEdges, retainingRingGroovesSharp := r.retainingRingGroovesSharp,
      surfaceRoughness := r.surfaceRoughness, geometricalTolerancing := r.geometricalTolerancing,
      dimensionalTolerancing := r.dimensionalTolerancing)
  {
    var m8 := FillFlags(m, ExtractBooleans(raw));
    FlagsFromRaw(m, raw);
    StandardsSteps(NormRoughness(m8));
    NormStandards(NormRoughness(m8), StandardFields)
  }

  /** The three tolerance tables, with the legacy table in between. */
  function Tables(m: Record, legacy: Json): (r: Py<Record>)
    ensures r.Ok? ==> r.value == m.(tolerancesGeneralLinear := r.value.tolerancesGeneralLinear,
      tolerancesMachining := r.value.tolerancesMachining, tolerancesWeldedSheetmetal := r.value.tolerancesWeldedSheetmetal)
  {
    TableSteps(m);
    var m11 :- NormTolerances(m, TableFields);
    var m12 :- LegacyTable(m11, legacy);
    TableSteps(m12);
    NormTables(m12, TableFields)
  }

  /** The drawing number, the revision and the notes. */
  function Finish(m: Record, raw: string): (r: Record)
    ensures r == m.(drawingNumber := r.drawingNumber, revision := r.revision, notes := r.notes)
  {
    NotesList(FillLabel(FillLabel(m, DrawingNumber, raw, DrawingLabel), Revision, raw, RevisionLabel))
  }

  /** `_normalize(data, raw_text)`: calling `.get` on anything but a dict raises
      `AttributeError`. */
  function NormalizeSpec(data: Json, raw: string): (r: Py<Record>)
    ensures !data.JObj? ==> r == Raise(AttributeError)
  {
    if !data.JObj? then Raise(AttributeError)
    else Pipeline(InferGrade(Cleaned(data.entries), raw), raw, Get(data.entries, "Tolerances_Table"))
  }

  /** The steps after the material grade, from the post-treatment check to the notes. */
  function Pipeline(c: Record, raw: string, legacy: Json): (r: Py<Record>)
    ensures Welding(c).Raise? ==> r == Raise(Welding(c).error)
    ensures Welding(c).Ok? ==> r.Raise? == Tables(FlagsAndObjects(Welding(c).value, raw), legacy).Raise?
  {
    var w :- Welding(c);
    var t :- Tables(FlagsAndObjects(w, raw), legacy);
    Ok(Finish(t, raw))
  }

  /** `out["Welding_Notes"] = _clean_welding_notes(out["Welding_Notes"])` when the notes are truthy. */
  method WeldingNotesSteps(m: Record) returns (r: Py<Record>)
    ensures r == WeldingNotesStep(m)
  {
    if !Truthy(m.weldingNotes) {
      return Ok(m);
    }
    var notes :- CleanWeldingNotes(m.weldingNotes);
    return Ok(m.(weldingNotes := JArr(StrItems(notes))));
  }

  /** The designation test, `w.append` and `_clean_welding_notes(w)`. */
  method MoveDesignationSteps(m: Record) returns (r: Py<Record>)
    ensures r == MoveDesignation(m)
  {
    var wd := m.weldingDesignation;
    if !Truthy(wd) {
      return Ok(m);
    }
    if !wd.JStr? {
      return Raise(TypeError);
    }
    if !HasWeldingKeyword(wd.s) {
      assert !Moves(m);
      return Ok(m);
    }
    assert Moves(m);
    var w := Or(m.weldingNotes, JArr([]));
    if !w.JArr? {
      return Raise(AttributeError);
    }
    var notes := CleanWeldingNotes(JArr(w.items + [wd]));
    assert notes == Ok(CleanNotes(w.items + [wd]));
    r := Ok(m.(weldingNotes := JArr(StrItems(notes.value)), weldingDesignation := JNull));
    assert r.value == AppendDesignation(m);
  }

  /** The tolerance-table loops of `_normalize`, in place on `out`. */
  method TablesSteps(m: Record, legacy: Json) returns (r: Py<Record>)
    ensures r == Tables(m, legacy)
  {
    var out :- NormTolerancesLoop(m, TableFields);
    if Truthy(legacy) && !Truthy(out.tolerancesGeneralLinear) {
      var t :- NormalizeTables(legacy);
      out := out.(tolerancesGeneralLinear := t);
    }
    r := NormTablesLoop(out, TableFields);
  }

  /** `_normalize(data, raw_text)`, step by step on one record `out`. */
  method Normalize(data: Json, raw: string) returns (r: Py<Record>)
    ensures r == NormalizeSpec(data, raw)
  {
    if !data.JObj? {
      return Raise(AttributeError);
    }
    var out := Project(data.entries);
    out := CleanScalarsLoop(out);
    out := StripFormWords(out);
    out := InferGrade(out, raw);
    out :- PostTreatmentStep(out);
    out :- WeldingNotesSteps(out);
    out :- MoveDesignationSteps(out);
    out := FillFlagsLoop(out, ExtractBooleans(raw));
    out := NormRoughness(out);
    out := NormStandardsLoop(out, StandardFields);
    out :- TablesSteps(out, Get(data.entries, "Tolerances_Table"));
    out := FillLabel(out, DrawingNumber, raw, DrawingLabel);
    out := FillLabel(out, Revision, raw, RevisionLabel);
    out := NotesList(out);
    return Ok(out);
  }

  // ---------------------------------------------------------------------------
  // What each stage guarantees
  // ---------------------------------------------------------------------------

  /** The welding and post-treatment promises: no designation is left that reads as a
      welding sentence, truthy notes are a de-duplicated list of strings, and a truthy
      post-treatment names no material grade. */
  predicate WeldShape(m: Record) {
    && !Moves(m)
    && (Truthy(m.weldingNotes) ==> DistinctNotes(m.weldingNotes))
    && (Truthy(m.postTreatment) ==> m.postTreatment.JStr? && GradeMatch(m.postTreatment.s).None?)
  }

  /** The welding steps leave the promised shape. */
  lemma WeldingProps(m: Record)
    ensures var r := Welding(m); r.Ok? ==> WeldShape(r.value)
  {
    var p5 := PostTreatmentStep(m);
    if p5.Ok? {
      var p6 := WeldingNotesStep(p5.value);
      if p6.Ok? {
        assert Welding(m) == MoveDesignation(p6.value);
      }
    }
  }

  /** The grade and the post-treatment as the later stages leave them: a truthy grade is
      kept; a post-treatment naming a grade is dropped, and the grade it names fills a
      grade that was missing. */
  predicate GradeFrom(c: Record, r: Record) {
    && (Truthy(c.materialGrade) ==> r.materialGrade == c.materialGrade)
    && (c.postTreatment.JStr? && GradeMatch(c.postTreatment.s).Some? ==>
          && r.postTreatment == JNull
          && (!Truthy(c.materialGrade) ==> r.materialGrade == JStr(GradeMatch(c.postTreatment.s).value)))
  }

  /** The welding steps leave the grade and the post-treatment as the post-treatment
      step left them. */
  lemma WeldingGrade(m: Record)
    ensures Welding(m).Ok? ==> GradeFrom(m, Welding(m).value)
  {
    var p5 := PostTreatmentStep(m);
    if p5.Ok? {
      var p6 := WeldingNotesStep(p5.value);
      if p6.Ok? {
        assert Welding(m) == MoveDesignation(p6.value);
      }
    }
  }

  /** The roughness dict and the two standards dicts are dicts or `None`. */
  predicate ObjectShape(m: Record) {
    && (m.surfaceRoughness == JNull || m.surfaceRoughness.JObj?)
    && (m.geometricalTolerancing == JNull || m.geometricalTolerancing.JObj?)
    && (m.dimensionalTolerancing == JNull || m.dimensionalTolerancing.JObj?)
  }

  /** The roughness and standards steps: a dict is rewritten, anything else becomes
      `None`. */
  lemma ObjectsProps(m: Record)
    ensures var r := NormStandards(NormRoughness(m), StandardFields);
      && ObjectShape(r)
      && (m.surfaceRoughness.JObj? ==> r.surfaceRoughness == JObj(RoughnessFields(m.surfaceRoughness.entries)))
      && (m.geometricalTolerancing.JObj? ==>
            r.geometricalTolerancing == JObj(StandardEntries(m.geometricalTolerancing.entries)))
      && (m.dimensionalTolerancing.JObj? ==>
            r.dimensionalTolerancing == JObj(StandardEntries(m.dimensionalTolerancing.entries)))
  {
    StandardsSteps(NormRoughness(m));
  }

  /** Each flag that was `None` takes the raw-text value and any other is kept, and the
      sub-objects take their shapes. */
  lemma FlagsAndObjectsProps(m: Record, raw: string)
    ensures var r := FlagsAndObjects(m, raw);
      && ObjectShape(r)
      && r.breakSharpEdges == FlagValue(m.breakSharpEdges, MentionsAny(Lower(raw), BreakEdgesPhrases))
      && r.retainingRingGroovesSharp == FlagValue(m.retainingRingGroovesSharp, MentionsAny(Lower(raw), GroovesSharpPhrases))
  {
    FlagsFromRaw(m, raw);
    ObjectsProps(FillFlags(m, ExtractBooleans(raw)));
  }

  /** A tolerance table as `norm_table` leaves it: `None` or a `{"unit", "bands"}` dict. */
  predicate TableOk(v: Json) {
    v == JNull || TableShape(v)
  }

  /** All three tolerance tables are `None` or normalised dicts. */
  predicate TablesShaped(m: Record) {
    TableOk(m.tolerancesGeneralLinear) && TableOk(m.tolerancesMachining) && TableOk(m.tolerancesWeldedSheetmetal)
  }

  /** The `_normalize_tables` loop leaves a falsy table as it is, a non-empty dict a
      non-empty dict and anything else no dict. */
  lemma TolerancesProps(m: Record)
    ensures var p := NormTolerances(m, TableFields); p.Ok? ==>
      && (!Truthy(m.tolerancesGeneralLinear) ==> p.value.tolerancesGeneralLinear == m.tolerancesGeneralLinear)
      && (m.tolerancesGeneralLinear.JObj? && m.tolerancesGeneralLinear.entries != [] ==>
            p.value.tolerancesGeneralLinear.JObj? && p.value.tolerancesGeneralLinear.entries != [])
      && (!m.tolerancesGeneralLinear.JObj? ==> !p.value.tolerancesGeneralLinear.JObj?)
      && (!m.tolerancesMachining.JObj? ==> !p.value.tolerancesMachining.JObj?)
      && (!m.tolerancesWeldedSheetmetal.JObj? ==> !p.value.tolerancesWeldedSheetmetal.JObj?)
  {
    TableSteps(m);
    var p1 := NormTolerance(m, TolerancesGeneralLinear);
    ToleranceKept(m, TolerancesGeneralLinear);
    if p1.Ok? {
      var p2 := NormTolerance(p1.value, TolerancesMachining);
      ToleranceKept(p1.value, TolerancesMachining);
      if p2.Ok? {
        var p3 := NormTolerance(p2.value, TolerancesWeldedSheetmetal);
        ToleranceKept(p2.value, TolerancesWeldedSheetmetal);
        if p3.Ok? {
          assert TolKept(m, p2.value);
          assert TolKept(m, p3.value);
        }
      }
    }
  }

  /** What the tolerances loop keeps of the tables from `m` to `p`. */
  predicate TolKept(m: Record, p: Record) {
    && (!Truthy(m.tolerancesGeneralLinear) ==> p.tolerancesGeneralLinear == m.tolerancesGeneralLinear)
    && (m.tolerancesGeneralLinear.JObj? && m.tolerancesGeneralLinear.entries != [] ==>
          p.tolerancesGeneralLinear.JObj? && p.tolerancesGeneralLinear.entries != [])
    && (!m.tolerancesGeneralLinear.JObj? ==> !p.tolerancesGeneralLinear.JObj?)
    && (!m.tolerancesMachining.JObj? ==> !p.tolerancesMachining.JObj?)
    && (!m.tolerancesWeldedSheetmetal.JObj? ==> !p.tolerancesWeldedSheetmetal.JObj?)
  }

  /** One pass of the tolerances loop keeps what `TolKept` says. */
  lemma ToleranceKept(m: Record, key: Field)
    requires key == TolerancesGeneralLinear || key == TolerancesMachining || key == TolerancesWeldedSheetmetal
    ensures var r := NormTolerance(m, key); r.Ok? ==> TolKept(m, r.value)
  {
    var r := NormTolerance(m, key);
    ToleranceStep(m, key);
    if r.Ok? {
      TablesAt(m);
      TablesAt(r.value);
    }
  }

  /** The three tables of a record. */
  lemma TablesAt(m: Record)
    ensures At(m, TolerancesGeneralLinear) == m.tolerancesGeneralLinear
    ensures At(m, TolerancesMachining) == m.tolerancesMachining
    ensures At(m, TolerancesWeldedSheetmetal) == m.tolerancesWeldedSheetmetal
  {
  }

  /** One pass of the `_normalize_tables` loop, at the table `key`. */
  lemma ToleranceStep(m: Record, key: Field)
    ensures var r := NormTolerance(m, key); r.Ok? ==>
      && (!Truthy(At(m, key)) ==> At(r.value, key) == At(m, key))
      && (At(m, key).JObj? && At(m, key).entries != [] ==> At(r.value, key).JObj? && At(r.value, key).entries != [])
      && (!At(m, key).JObj? ==> !At(r.value, key).JObj?)
      && (forall g :: g != key ==> At(r.value, g) == At(m, g))
  {
  }

  /** The `norm_table` loop leaves each table `None` or normalised; one that is no dict
      or falsy becomes `None`. */
  lemma NormTablesProps(m: Record)
    ensures var q := NormTables(m, TableFields); q.Ok? ==>
      && TablesShaped(q.value)
      && (!m.tolerancesMachining.JObj? ==> q.value.tolerancesMachining == JNull)
      && (!m.tolerancesWeldedSheetmetal.JObj? ==> q.value.tolerancesWeldedSheetmetal == JNull)
      && (!m.tolerancesGeneralLinear.JObj? ==> q.value.tolerancesGeneralLinear == JNull)
      && (!Truthy(m.tolerancesGeneralLinear) ==> q.value.tolerancesGeneralLinear == JNull)
      && (Truthy(m.tolerancesGeneralLinear) ==>
            NormTableSpec(m.tolerancesGeneralLinear).Ok? &&
            q.value.tolerancesGeneralLinear == NormTableSpec(m.tolerancesGeneralLinear).value)
  {
    TableSteps(m);
  }

  /** Each tolerance table ends as `None` or a normalised `{"unit", "bands"}` dict; one
      that is no dict ends as `None`, the general table only when the legacy table is no
      dict either. */
  lemma TablesProps(m: Record, legacy: Json)
    ensures var r := Tables(m, legacy); r.Ok? ==>
      && TablesShaped(r.value)
      && (!m.tolerancesMachining.JObj? ==> r.value.tolerancesMachining == JNull)
      && (!m.tolerancesWeldedSheetmetal.JObj? ==> r.value.tolerancesWeldedSheetmetal == JNull)
      && (!m.tolerancesGeneralLinear.JObj? && !legacy.JObj? ==> r.value.tolerancesGeneralLinear == JNull)
  {
    var p11 := NormTolerances(m, TableFields);
    TolerancesProps(m);
    if p11.Ok? {
      var p12 := LegacyTable(p11.value, legacy);
      if p12.Ok? {
        NormTablesProps(p12.value);
      }
    }
  }

  /** A general table that is a non-empty dict is normalised on its own: the legacy
      table makes no difference. */
  lemma LegacyIgnored(m: Record, legacy: Json, other: Json)
    requires m.tolerancesGeneralLinear.JObj? && m.tolerancesGeneralLinear.entries != []
    ensures Tables(m, legacy) == Tables(m, other)
  {
    var p11 := NormTolerances(m, TableFields);
    TolerancesProps(m);
    if p11.Ok? {
      LegacyKept(p11.value, legacy);
      LegacyKept(p11.value, other);
    }
  }

  /** A non-empty general table is kept whatever the legacy table. */
  lemma LegacyKept(m: Record, legacy: Json)
    requires m.tolerancesGeneralLinear.JObj? && m.tolerancesGeneralLinear.entries != []
    ensures LegacyTable(m, legacy) == Ok(m)
  {
  }

  /** A missing general table is filled from a truthy legacy table, normalised by both
      `_normalize_tables` and `norm_table`. */
  lemma LegacyFills(m: Record, legacy: Json)
    requires !Truthy(m.tolerancesGeneralLinear) && Truthy(legacy)
    ensures var r := Tables(m, legacy); r.Ok? ==>
      && NormalizeTablesSpec(legacy).Ok?
      && NormTableSpec(NormalizeTablesSpec(legacy).value).Ok?
      && r.value.tolerancesGeneralLinear == NormTableSpec(NormalizeTablesSpec(legacy).value).value
  {
    var p11 := NormTolerances(m, TableFields);
    TolerancesProps(m);
    if p11.Ok? {
      var p12 := LegacyTable(p11.value, legacy);
      if p12.Ok? {
        NormTablesProps(p12.value);
      }
    }
  }

  /** A label field as the last steps leave it: a truthy value is kept, else the token
      after the label in the raw text, when there is one. */
  predicate LabelFrom(before: Json, after: Json, token: Option<string>) {
    && (Truthy(before) || token.None? ==> after == before)
    && (!Truthy(before) && token.Some? ==> after == JStr(token.value))
  }

  /** The last steps fill a missing drawing number and revision from the raw text and
      make `Notes` a list. */
  lemma FinishProps(m: Record, raw: string)
    ensures var r := Finish(m, raw);
      && LabelFrom(m.drawingNumber, r.drawingNumber, LabelledToken(raw, DrawingLabel))
      && LabelFrom(m.revision, r.revision, LabelledToken(raw, RevisionLabel))
      && r.notes == NotesValueOf(m.notes)
  {
    var m1 := FillLabel(m, DrawingNumber, raw, DrawingLabel);
    var m2 := FillLabel(m1, Revision, raw, RevisionLabel);
    assert m1 == m.(drawingNumber := m1.drawingNumber);
    assert m2 == m1.(revision := m2.revision);
  }

  // ---------------------------------------------------------------------------
  // What `_normalize` guarantees
  // ---------------------------------------------------------------------------

  /** Everything `_normalize` promises about the shape of its result. */
  predicate Normalized(m: Record) {
    && WeldShape(m)
    && ObjectShape(m)
    && TablesShaped(m)
    && m.breakSharpEdges != JNull && m.retainingRingGroovesSharp != JNull
    && m.notes != JNull && !m.notes.JStr?
  }

  /** Every result of `_normalize` has the promised shape. */
  lemma NormalizeShape(data: Json, raw: string)
    ensures NormalizeSpec(data, raw).Ok? ==> Normalized(NormalizeSpec(data, raw).value)
  {
    if data.JObj? {
      PipelineShape(InferGrade(Cleaned(data.entries), raw), raw, Get(data.entries, "Tolerances_Table"));
    }
  }

  /** The later stages leave the promised shape, whatever record they start from. */
  lemma PipelineShape(c: Record, raw: string, legacy: Json)
    ensures Pipeline(c, raw, legacy).Ok? ==> Normalized(Pipeline(c, raw, legacy).value)
  {
    if Pipeline(c, raw, legacy).Ok? {
      var w := Welding(c).value;
      var fo := FlagsAndObjects(w, raw);
      var t := Tables(fo, legacy).value;
      WeldingProps(c);
      FlagsAndObjectsProps(w, raw);
      TablesProps(fo, legacy);
      FinishProps(t, raw);
    }
  }

  // ---------------------------------------------------------------------------
  // What `_normalize` makes of particular inputs
  // ---------------------------------------------------------------------------

  /** Before the later stages every field but the grade holds its cleaned input. */
  lemma StartValue(d: Entries, raw: string, f: Field)
    requires f != MaterialGrade
    ensures At(InferGrade(Cleaned(d), raw), f) == CleanValue(Get(d, Name(f)))
  {
    var p := Project(d);
    var c := CleanScalars(p);
    var s := StripFormWords(c);
    assert s == c.(materialGrade := s.materialGrade);
    assert InferGrade(s, raw) == s.(materialGrade := InferGrade(s, raw).materialGrade);
  }

  /** The later stages set a `None` flag from the raw text and keep any other. */
  lemma PipelineFlags(c: Record, raw: string, legacy: Json)
    ensures var r := Pipeline(c, raw, legacy); r.Ok? ==>
      && r.value.breakSharpEdges == FlagValue(c.breakSharpEdges, MentionsAny(Lower(raw), BreakEdgesPhrases))
      && r.value.retainingRingGroovesSharp == FlagValue(c.retainingRingGroovesSharp, MentionsAny(Lower(raw), GroovesSharpPhrases))
  {
    if Pipeline(c, raw, legacy).Ok? {
      FlagsAndObjectsProps(Welding(c).value, raw);
    }
  }

  /** The later stages make `Notes` a list. */
  lemma PipelineNotes(c: Record, raw: string, legacy: Json)
    ensures var r := Pipeline(c, raw, legacy); r.Ok? ==> r.value.notes == NotesValueOf(c.notes)
  {
    if Pipeline(c, raw, legacy).Ok? {
      var w := Welding(c).value;
      FinishProps(Tables(FlagsAndObjects(w, raw), legacy).value, raw);
    }
  }

  /** The later stages fill a missing drawing number and revision from the raw text. */
  lemma PipelineLabels(c: Record, raw: string, legacy: Json)
    ensures var r := Pipeline(c, raw, legacy); r.Ok? ==>
      && LabelFrom(c.drawingNumber, r.value.drawingNumber, LabelledToken(raw, DrawingLabel))
      && LabelFrom(c.revision, r.value.revision, LabelledToken(raw, RevisionLabel))
  {
    if Pipeline(c, raw, legacy).Ok? {
      var w := Welding(c).value;
      FinishProps(Tables(FlagsAndObjects(w, raw), legacy).value, raw);
    }
  }

  /** The later stages keep a truthy grade and move a grade out of the post-treatment. */
  lemma PipelineGrade(c: Record, raw: string, legacy: Json)
    ensures Pipeline(c, raw, legacy).Ok? ==> GradeFrom(c, Pipeline(c, raw, legacy).value)
  {
    WeldingGrade(c);
  }

  /** The later stages turn a table that is no dict into `None`. */
  lemma PipelineTables(c: Record, raw: string, legacy: Json)
    ensures var r := Pipeline(c, raw, legacy); r.Ok? ==>
      && (!c.tolerancesMachining.JObj? ==> r.value.tolerancesMachining == JNull)
      && (!c.tolerancesWeldedSheetmetal.JObj? ==> r.value.tolerancesWeldedSheetmetal == JNull)
      && (!c.tolerancesGeneralLinear.JObj? && !legacy.JObj? ==> r.value.tolerancesGeneralLinear == JNull)
  {
    if Pipeline(c, raw, legacy).Ok? {
      TablesProps(FlagsAndObjects(Welding(c).value, raw), legacy);
    }
  }

  /** A flag given as `True` or `False` is never overridden; a missing or `None` flag is
      read off the raw text. */
  lemma NormalizeFlags(data: Json, raw: string)
    requires data.JObj?
    ensures var r := NormalizeSpec(data, raw); r.Ok? ==>
      var b := Get(data.entries, "Break_Sharp_Edges");
      var g := Get(data.entries, "Retaining_Ring_Grooves_Sharp");
      && (b.JBool? ==> r.value.breakSharpEdges == b)
      && (b == JNull ==> r.value.breakSharpEdges == JBool(MentionsAny(Lower(raw), BreakEdgesPhrases)))
      && (g.JBool? ==> r.value.retainingRingGroovesSharp == g)
      && (g == JNull ==> r.value.retainingRingGroovesSharp == JBool(MentionsAny(Lower(raw), GroovesSharpPhrases)))
  {
    PipelineFlags(InferGrade(Cleaned(data.entries), raw), raw, Get(data.entries, "Tolerances_Table"));
    StartValue(data.entries, raw, BreakSharpEdges);
    StartValue(data.entries, raw, RetainingRingGroovesSharp);
    KeyNames();
  }

  /** `Notes` ends as a list: `[]` when missing, `None` or blank, the one cleaned line of a
      string, and the cleaned items of a list. */
  lemma NormalizeNotes(data: Json, raw: string)
    requires data.JObj?
    ensures var r := NormalizeSpec(data, raw); r.Ok? ==>
      var n := Get(data.entries, "Notes");
      && (n == JNull ==> r.value.notes == JArr([]))
      && (n.JStr? ==>
            var v := Strip(ReplaceChar(ReplaceChar(n.s, '\r', ' '), '\n', ' '));
            r.value.notes == if v == [] then JArr([]) else JArr([JStr(v)]))
      && (n.JArr? ==> r.value.notes == JArr(CleanList(n.items)))
  {
    PipelineNotes(InferGrade(Cleaned(data.entries), raw), raw, Get(data.entries, "Tolerances_Table"));
    StartValue(data.entries, raw, Notes);
    KeyNames();
    NotesOfCleaned(Get(data.entries, "Notes"));
  }

  /** The notes list made from a cleaned notes value. */
  lemma NotesOfCleaned(n: Json)
    ensures n == JNull ==> NotesValueOf(CleanValue(n)) == JArr([])
    ensures n.JStr? ==>
      var v := Strip(ReplaceChar(ReplaceChar(n.s, '\r', ' '), '\n', ' '));
      NotesValueOf(CleanValue(n)) == if v == [] then JArr([]) else JArr([JStr(v)])
    ensures n.JArr? ==> NotesValueOf(CleanValue(n)) == JArr(CleanList(n.items))
  {
    if n.JStr? {
      StripIdempotent(ReplaceChar(ReplaceChar(n.s, '\r', ' '), '\n', ' '));
    }
  }

  /** A drawing number or revision the model returned is kept; a missing one is read off
      the raw text after its label. */
  lemma NormalizeLabels(data: Json, raw: string)
    requires data.JObj?
    ensures var r := NormalizeSpec(data, raw); r.Ok? ==>
      && LabelFrom(CleanValue(Get(data.entries, "Drawing_Number")), r.value.drawingNumber, LabelledToken(raw, DrawingLabel))
      && LabelFrom(CleanValue(Get(data.entries, "Revision")), r.value.revision, LabelledToken(raw, RevisionLabel))
  {
    PipelineLabels(InferGrade(Cleaned(data.entries), raw), raw, Get(data.entries, "Tolerances_Table"));
    StartValue(data.entries, raw, DrawingNumber);
    StartValue(data.entries, raw, Revision);
    KeyNames();
  }

  /** A grade the raw text supplies is never blank. */
  lemma InferGradeTruthy(m: Record, raw: string)
    ensures !Truthy(m.materialGrade) && GradeMatch(raw).Some? ==> Truthy(InferGrade(m, raw).materialGrade)
    ensures !Truthy(m.materialGrade) && GradeMatch(raw).None? ==> !Truthy(InferGrade(m, raw).materialGrade)
  {
  }

  /** A grade left after the clean-up is kept; a missing one comes from the raw text
      when it names a grade, and else from a post-treatment that names one, which is
      then dropped. */
  lemma NormalizeGrade(data: Json, raw: string)
    requires data.JObj?
    ensures var r := NormalizeSpec(data, raw); r.Ok? ==>
      var g := Cleaned(data.entries).materialGrade;
      var pt := CleanValue(Get(data.entries, "Post_Treatment"));
      && (Truthy(g) ==> r.value.materialGrade == g)
      && (!Truthy(g) && GradeMatch(raw).Some? ==> r.value.materialGrade == JStr(GradeText(GradeMatch(raw).value)))
      && (!Truthy(g) && GradeMatch(raw).None? && pt.JStr? && GradeMatch(pt.s).Some? ==>
            r.value.materialGrade == JStr(GradeMatch(pt.s).value) && r.value.postTreatment == JNull)
  {
    PipelineGrade(InferGrade(Cleaned(data.entries), raw), raw, Get(data.entries, "Tolerances_Table"));
    StartValue(data.entries, raw, PostTreatment);
    KeyNames();
    InferGradeTruthy(Cleaned(data.entries), raw);
  }

  /** A tolerance table that is no dict ends as `None`; the general table when the legacy
      `Tolerances_Table` is no dict either. */
  lemma NormalizeTablesNonDict(data: Json, raw: string)
    requires data.JObj?
    ensures var r := NormalizeSpec(data, raw); r.Ok? ==>
      && (!Get(data.entries, "Tolerances_Machining").JObj? ==> r.value.tolerancesMachining == JNull)
      && (!Get(data.entries, "Tolerances_Welded_Sheetmetal").JObj? ==> r.value.tolerancesWeldedSheetmetal == JNull)
      && (!Get(data.entries, "Tolerances_General_Linear").JObj? && !Get(data.entries, "Tolerances_Table").JObj? ==>
            r.value.tolerancesGeneralLinear == JNull)
  {
    PipelineTables(InferGrade(Cleaned(data.entries), raw), raw, Get(data.entries, "Tolerances_Table"));
    StartValue(data.entries, raw, TolerancesMachining);
    StartValue(data.entries, raw, TolerancesWeldedSheetmetal);
    StartValue(data.entries, raw, TolerancesGeneralLinear);
    KeyNames();
  }
}
