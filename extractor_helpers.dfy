/** The helpers of src/llm_extractor.py (lines 59-138) and the inner `norm_table`
    of `_normalize`. */
module ExtractorHelpers {
  import opened Text
  import opened JsonValue
  import opened Patterns
  import opened Fields

  // ---------------------------------------------------------------------------
  // _norm_pm
  // ---------------------------------------------------------------------------

  /** A piece cut out of a string free of "+-" and "+/-" is free of them too. */
  lemma NoPlusMinusInPiece(s: string, r: string, a: int)
    requires NoPlusMinusSpelling(s) && OccursAt(s, r, a)
    ensures NoPlusMinusSpelling(r)
  {
    assert forall i :: 0 <= i < |r| ==> r[i] == s[a + i];
  }

  /** `_norm_pm(s)`: the empty string unchanged; otherwise decimal commas become
      points, every plus-minus spelling becomes '±', and the ends are trimmed. */
  function NormPm(s: string): (r: string)
    ensures s == [] ==> r == []
    ensures s != [] ==> r == Strip(PmSub(DecComma(s)))
    ensures NoPlusMinusSpelling(r)
    ensures r != [] ==> !IsSpace(r[0]) && !IsSpace(r[|r| - 1])
    ensures |r| <= |s|
  {
    if s == [] then s
    else
      var p := PmSub(DecComma(s));
      var r := Strip(p);
      assert NoPlusMinusSpelling(r) by {
        StripCut(p);
        var a :| OccursAt(p, r, a);
        NoPlusMinusInPiece(p, r, a);
      }
      r
  }

  /** `_norm_pm("+/-0,2")` gives "±0.2". */
  lemma NormPmSlashExample()
    ensures NormPm("+/-0,2") == "\U{B1}0.2"
  {
    DecCommaSlash();
    PmSubSlash();
    StripNoop("\U{B1}0.2");
  }

  /** A string with neither '+' nor ',' is only trimmed. */
  lemma NormPmPlain(s: string)
    requires '+' !in s && ',' !in s
    ensures NormPm(s) == Strip(s)
  {
    if s != [] {
      DecCommaOnlyCommas(s);
      assert forall m :: 0 <= m < |s| ==> !CommaBetweenDigits(s, m) by {
        forall m | 0 <= m < |s| ensures !CommaBetweenDigits(s, m) {
          assert s[m] != ',' by { assert s[m] in s; }
        }
      }
      assert DecComma(s) == s;
      PmSubNoPlus(s);
    }
  }

  /** The decimal-comma step on "+/-0,2". */
  lemma DecCommaSlash()
    ensures DecComma("+/-0,2") == "+/-0.2"
  {
    DecCommaOnlyCommas("+/-0,2");
    assert CommaBetweenDigits("+/-0,2", 4);
    DecCommaConverts("+/-0,2", 4);
  }

  /** The plus-minus step on "+/-0.2". */
  lemma PmSubSlash()
    ensures PmSub("+/-0.2") == "\U{B1}0.2"
  {
  }

  /** `_norm_pm("±1,5")` gives "±1.5": the sign is kept. */
  lemma NormPmSignExample()
    ensures NormPm("\U{B1}1,5") == "\U{B1}1.5"
  {
    DecCommaSign();
    PmSubSign();
    StripNoop("\U{B1}1.5");
  }

  /** The decimal-comma step on "±1,5". */
  lemma DecCommaSign()
    ensures DecComma("\U{B1}1,5") == "\U{B1}1.5"
  {
    var t := "\U{B1}1,5";
    DecCommaOnlyCommas(t);
    assert CommaBetweenDigits(t, 2);
    DecCommaConverts(t, 2);
  }

  /** The plus-minus step on "±1.5": the sign is kept. */
  lemma PmSubSign()
    ensures PmSub("\U{B1}1.5") == "\U{B1}1.5"
  {
  }

  // ---------------------------------------------------------------------------
  // _coerce_json
  // ---------------------------------------------------------------------------

  /** The span `re.search(r"\{[\s\S]*\}", s)` finds: from the first '{' to the last
      '}', when that one comes later. */
  function JsonBlock(s: string): (r: Option<(nat, nat)>)
    ensures r.Some? ==> r.value.0 < r.value.1 <= |s| && s[r.value.0] == '{' && s[r.value.1 - 1] == '}'
    ensures r.Some? ==> '{' !in s[..r.value.0] && '}' !in s[r.value.1..]
  {
    var first, last := IndexOf(s, '{'), LastIndexOf(s, '}');
    if first.Some? && last.Some? && first.value < last.value then Some((first.value, last.value + 1))
    else None
  }

  /** There is no block exactly when no '{' comes before a '}'. */
  lemma JsonBlockNone(s: string)
    ensures JsonBlock(s).None? <==> forall i, j :: 0 <= i < j < |s| ==> !(s[i] == '{' && s[j] == '}')
  {
    var first, last := IndexOf(s, '{'), LastIndexOf(s, '}');
    if first.Some? && last.Some? {
      NotInPrefix(s, '{', first.value);
      NotInSuffix(s, '}', last.value + 1);
    }
  }

  /** The block runs from a '{' with none before it to a later '}' with none after it. */
  lemma JsonBlockAt(t: string, i: nat, j: nat)
    requires i < j < |t| && t[i] == '{' && t[j] == '}'
    requires '{' !in t[..i] && '}' !in t[j + 1..]
    ensures JsonBlock(t) == Some((i, j + 1))
  {
    IndexOfAt(t, '{', i);
    LastIndexOfAt(t, '}', j);
  }

  /** `_coerce_json(s)`, with `json.loads` given as `parse` (`None` standing for a
      `JSONDecodeError`). Blank input gives `{}`; a text that parses whole gives its
      value; otherwise the block from the first '{' to the last '}' is parsed, and
      when there is none or it does not parse a `ValueError` is raised. */
  function CoerceJson(parse: string -> Option<Json>, s: string): (r: Py<Json>)
    ensures Strip(s) == [] ==> r == Ok(JObj([]))
    ensures Strip(s) != [] && parse(Strip(s)).Some? ==> r == Ok(parse(Strip(s)).value)
    ensures r.Raise? ==> r.error == ValueError
    ensures r.Raise? <==>
      && Strip(s) != []
      && parse(Strip(s)).None?
      && (JsonBlock(Strip(s)).None? || parse(Strip(s)[JsonBlock(Strip(s)).value.0..JsonBlock(Strip(s)).value.1]).None?)
  {
    CoerceStripped(parse, Strip(s))
  }

  /** `_coerce_json` once the text is stripped to `t`. */
  function CoerceStripped(parse: string -> Option<Json>, t: string): (r: Py<Json>)
    ensures r.Raise? ==> r.error == ValueError
  {
    if t == [] then Ok(JObj([]))
    else match parse(t)
      case Some(v) => Ok(v)
      case None =>
        match JsonBlock(t)
        case None => Raise(ValueError)
        case Some((a, b)) =>
          match parse(t[a..b])
          case Some(v) => Ok(v)
          case None => Raise(ValueError)
  }

  /** A reply with prose around one JSON object, where the whole reply does not parse but
      the object does, coerces to that object: the prose before it holds no '{', the prose
      after it no '}'. */
  lemma CoerceEmbeddedObject(parse: string -> Option<Json>, t: string, i: nat, j: nat, v: Json)
    requires t != [] && !IsSpace(t[0]) && !IsSpace(t[|t| - 1])
    requires i < j < |t| && t[i] == '{' && t[j] == '}'
    requires '{' !in t[..i] && '}' !in t[j + 1..]
    requires parse(t).None? && parse(t[i..j + 1]) == Some(v)
    ensures CoerceJson(parse, t) == Ok(v)
  {
    StripNoop(t);
    EmbeddedBlock(parse, t, i, j, v);
  }

  /** The block of such a reply is the object, and it parses. */
  lemma EmbeddedBlock(parse: string -> Option<Json>, t: string, i: nat, j: nat, v: Json)
    requires t != []
    requires i < j < |t| && t[i] == '{' && t[j] == '}'
    requires '{' !in t[..i] && '}' !in t[j + 1..]
    requires parse(t).None? && parse(t[i..j + 1]) == Some(v)
    ensures CoerceStripped(parse, t) == Ok(v)
  {
    JsonBlockAt(t, i, j);
    CoerceBlock(parse, t, i, j + 1);
  }

  /** A text that is already stripped and does not parse whole coerces to what its block
      parses to. */
  lemma CoerceBlock(parse: string -> Option<Json>, t: string, a: nat, b: nat)
    requires t != [] && parse(t).None?
    requires JsonBlock(t) == Some((a, b)) && a <= b <= |t|
    ensures CoerceStripped(parse, t) == if parse(t[a..b]).Some? then Ok(parse(t[a..b]).value) else Raise(ValueError)
  {
  }

  // ---------------------------------------------------------------------------
  // _pick
  // ---------------------------------------------------------------------------

  /** The value reached from `cur` by the keys of one dotted path, if every step finds
      its key in a dict. */
  function Resolve(cur: Json, keys: seq<string>): (r: Option<Json>)
    ensures keys == [] ==> r == Some(cur)
    decreases |keys|
  {
    if keys == [] then Some(cur)
    else if cur.JObj? && Has(cur.entries, keys[0]) then Resolve(Get(cur.entries, keys[0]), keys[1..])
    else None
  }

  /** The value of the first of `paths` that resolves in `s`. */
  function FirstResolved(s: Json, paths: seq<string>): (r: Option<Json>)
    ensures r.Some? ==> exists i :: 0 <= i < |paths| && Resolve(s, Split(paths[i], '.')) == r
    ensures r.None? <==> forall i :: 0 <= i < |paths| ==> Resolve(s, Split(paths[i], '.')).None?
    decreases |paths|
  {
    if paths == [] then None
    else match Resolve(s, Split(paths[0], '.'))
      case Some(v) => Some(v)
      case None =>
        var r := FirstResolved(s, paths[1..]);
        assert forall i :: 1 <= i < |paths| ==> paths[1..][i - 1] == paths[i];
        r
  }

  /** `_pick(s, *paths)` as specified: `None` unless `s` is a dict and some path
      resolves, and then the value of the first path that does (even if it is `None`). */
  function PickSpec(s: Json, paths: seq<string>): (r: Json)
    ensures !s.JObj? ==> r == JNull
    ensures s.JObj? && r != JNull ==> exists i :: 0 <= i < |paths| && Resolve(s, Split(paths[i], '.')) == Some(r)
    ensures (forall i :: 0 <= i < |paths| ==> Resolve(s, Split(paths[i], '.')).None?) ==> r == JNull
  {
    if !s.JObj? then JNull
    else match FirstResolved(s, paths)
      case Some(v) => v
      case None => JNull
  }

  /** `_pick(s, *paths)`: for each path, walks the dotted keys from `s` and returns
      where the first complete walk ends. */
  method Pick(s: Json, paths: seq<string>) returns (r: Json)
    ensures r == PickSpec(s, paths)
  {
    if !s.JObj? {
      return JNull;
    }
    var i := 0;
    while i < |paths|
      invariant 0 <= i <= |paths|
      invariant FirstResolved(s, paths) == FirstResolved(s, paths[i..])
    {
      var keys := Split(paths[i], '.');
      var cur := s;
      var ok := true;
      var j := 0;
      while j < |keys|
        invariant 0 <= j <= |keys|
        invariant ok
        invariant Resolve(s, keys) == Resolve(cur, keys[j..])
      {
        if cur.JObj? && Has(cur.entries, keys[j]) {
          assert keys[j..][1..] == keys[j + 1..];
          cur := Get(cur.entries, keys[j]);
          j := j + 1;
        } else {
          ok := false;
          break;
        }
      }
      if ok {
        assert keys[j..] == [];
        return cur;
      }
      assert paths[i..][1..] == paths[i + 1..];
      i := i + 1;
    }
    return JNull;
  }

  // ---------------------------------------------------------------------------
  // _clean_welding_notes
  // ---------------------------------------------------------------------------

  /** The items `for n in v or []` visits: a list's elements, a string's characters, a
      dict's keys; nothing for a falsy value; a `TypeError` for a truthy number or `True`. */
  function Iterate(v: Json): (r: Py<seq<Json>>)
    ensures r.Raise? <==> Truthy(v) && (v.JNum? || v.JBool?)
    ensures r.Raise? ==> r.error == TypeError
    ensures v.JArr? ==> r == Ok(v.items)
    ensures !Truthy(v) ==> r == Ok([])
  {
    if !Truthy(v) then Ok([])
    else match v
      case JArr(items) => Ok(items)
      case JStr(s) => Ok(CharItems(s))
      case JObj(e) => Ok(StrItems(Keys(e)))
      case _ => Raise(TypeError)
  }

  /** The one-character strings of `s`, as iterating over a `str` yields them. */
  function CharItems(s: string): (r: seq<Json>)
    ensures |r| == |s|
    ensures forall i :: 0 <= i < |s| ==> r[i] == JStr([s[i]])
  {
    if s == [] then [] else [JStr([s[0]])] + CharItems(s[1..])
  }

  /** The strings `ss` as values. */
  function StrItems(ss: seq<string>): (r: seq<Json>)
    ensures |r| == |ss|
    ensures forall i :: 0 <= i < |ss| ==> r[i] == JStr(ss[i])
  {
    if ss == [] then [] else [JStr(ss[0])] + StrItems(ss[1..])
  }

  /** `re.sub(r"\s+", " ", str(n)).strip()`. */
  function NoteText(n: Json): (t: string)
    ensures Tidied(t)
    ensures NonSpaces(t) == NonSpaces(PyStr(n))
  {
    Tidy(PyStr(n))
  }

  /** A welding note whose words are separated by a whitespace run keeps them apart with
      exactly one blank: `"Stitch\t \nweld"` becomes `"Stitch weld"`. */
  lemma NoteTextRun(a: string, w: string, b: string)
    requires a != [] && !IsSpace(a[|a| - 1])
    requires w != [] && forall i :: 0 <= i < |w| ==> IsSpace(w[i])
    requires b != [] && !IsSpace(b[0])
    ensures NoteText(JStr(a + w + b)) == Tidy(a) + " " + Tidy(b)
  {
    var s := a + w + b;
    assert NoteText(JStr(s)) == Tidy(s);
    TidyRun(a, w, b);
  }

  /** A welding note without whitespace is kept exactly as written. */
  lemma NoteTextNoSpaces(s: string)
    requires forall i :: 0 <= i < |s| ==> !IsSpace(s[i])
    ensures NoteText(JStr(s)) == s
  {
    TidyNoSpaces(s);
  }

  /** The lower-cased forms of the strings in `out`: the `seen` set. */
  function LowerSet(out: seq<string>): set<string> {
    set i | 0 <= i < |out| :: Lower(out[i])
  }

  /** The cleaned texts of the truthy items, in order: what the loop would add if it
      kept every one. */
  function NoteTexts(ns: seq<Json>): (ts: seq<string>)
    ensures |ts| <= |ns|
    decreases |ns|
  {
    if ns == [] then []
    else
      var n := ns[|ns| - 1];
      NoteTexts(ns[..|ns| - 1]) + (if Truthy(n) then [NoteText(n)] else [])
  }

  /** Keeps each text unless one equal to it after lower-casing was kept before. */
  function DedupCI(ts: seq<string>): (out: seq<string>)
    ensures |out| <= |ts|
    decreases |ts|
  {
    if ts == [] then []
    else
      var prev := DedupCI(ts[..|ts| - 1]);
      var t := ts[|ts| - 1];
      if Lower(t) in LowerSet(prev) then prev else prev + [t]
  }

  /** `_clean_welding_notes` on the items `ns`. */
  function CleanNotes(ns: seq<Json>): (out: seq<string>)
    ensures |out| <= |ns|
  {
    DedupCI(NoteTexts(ns))
  }

  /** `_clean_welding_notes(notes)`: one pass over the items, appending each new text
      to `out` and its lower-cased form to `seen`. */
  method CleanWeldingNotes(notes: Json) returns (r: Py<seq<string>>)
    ensures Iterate(notes).Raise? ==> r == Raise(Iterate(notes).error)
    ensures Iterate(notes).Ok? ==> r == Ok(CleanNotes(Iterate(notes).value))
  {
    var ns :- Iterate(notes);
    var out := CleanItems(ns);
    return Ok(out);
  }

  /** The loop of `_clean_welding_notes` over the items `ns`. */
  method CleanItems(ns: seq<Json>) returns (out: seq<string>)
    ensures out == CleanNotes(ns)
  {
    var seen: set<string> := {};
    out := [];
    var i := 0;
    while i < |ns|
      invariant 0 <= i <= |ns|
      invariant out == DedupCI(NoteTexts(ns[..i]))
      invariant seen == LowerSet(out)
    {
      var n := ns[i];
      NoteStep(ns, i, out);
      if Truthy(n) {
        var t := NoteText(n);
        var tl := Lower(t);
        if tl !in seen {
          out := out + [t];
          seen := seen + {tl};
        }
      }
      i := i + 1;
    }
    assert ns[..|ns|] == ns;
  }

  /** One pass of the loop: the kept texts of one more item, and their `seen` set. */
  lemma NoteStep(ns: seq<Json>, i: nat, out: seq<string>)
    requires i < |ns| && out == DedupCI(NoteTexts(ns[..i]))
    ensures var n := ns[i];
      DedupCI(NoteTexts(ns[..i + 1])) ==
        if Truthy(n) && Lower(NoteText(n)) !in LowerSet(out) then out + [NoteText(n)] else out
    ensures Truthy(ns[i]) ==> LowerSet(out + [NoteText(ns[i])]) == LowerSet(out) + {Lower(NoteText(ns[i]))}
  {
    var before := NoteTexts(ns[..i]);
    NoteTextsStep(ns, i);
    if Truthy(ns[i]) {
      var t := NoteText(ns[i]);
      assert NoteTexts(ns[..i + 1]) == before + [t];
      DedupCILast(before, t);
      LowerSetAppend(out, t);
    } else {
      assert NoteTexts(ns[..i + 1]) == before;
    }
  }

  /** One more item of the notes: its text is added when it is truthy. */
  lemma NoteTextsStep(ns: seq<Json>, i: nat)
    requires i < |ns|
    ensures NoteTexts(ns[..i + 1]) == NoteTexts(ns[..i]) + (if Truthy(ns[i]) then [NoteText(ns[i])] else [])
  {
    assert ns[..i + 1][..i] == ns[..i];
  }

  /** De-duplicating one more text keeps it exactly when its lower-case form is new. */
  lemma DedupCILast(ts: seq<string>, t: string)
    ensures DedupCI(ts + [t]) == if Lower(t) in LowerSet(DedupCI(ts)) then DedupCI(ts) else DedupCI(ts) + [t]
  {
    assert (ts + [t])[..|ts|] == ts;
  }

  /** The lower-case forms of a list with one more text. */
  lemma LowerSetAppend(out: seq<string>, t: string)
    ensures LowerSet(out + [t]) == LowerSet(out) + {Lower(t)}
  {
    assert forall j :: 0 <= j < |out| ==> (out + [t])[j] == out[j];
    assert (out + [t])[|out|] == t;
  }

  /** Every kept text is one of the inputs, and every input's class is kept. */
  lemma {:induction false} DedupCISeen(ts: seq<string>)
    ensures forall i :: 0 <= i < |DedupCI(ts)| ==> DedupCI(ts)[i] in ts
    ensures forall k :: 0 <= k < |ts| ==> Lower(ts[k]) in LowerSet(DedupCI(ts))
    decreases |ts|
  {
    if ts != [] {
      var p := ts[..|ts| - 1];
      var t := ts[|ts| - 1];
      var prev := DedupCI(p);
      DedupCISeen(p);
      assert ts == p + [t];
      DedupCILast(p, t);
      var out := DedupCI(ts);
      if Lower(t) !in LowerSet(prev) {
        LowerSetAppend(prev, t);
        assert out == prev + [t];
      } else {
        assert out == prev;
      }
      assert forall k :: 0 <= k < |p| ==> ts[k] == p[k];
    }
  }

  /** No two kept texts are equal after lower-casing. */
  lemma {:induction false} DedupCIDistinct(ts: seq<string>)
    ensures var out := DedupCI(ts);
      forall i, j :: 0 <= i < j < |out| ==> Lower(out[i]) != Lower(out[j])
    decreases |ts|
  {
    if ts != [] {
      var p := ts[..|ts| - 1];
      var t := ts[|ts| - 1];
      var prev := DedupCI(p);
      DedupCIDistinct(p);
      assert ts == p + [t];
      DedupCILast(p, t);
      assert forall i :: 0 <= i < |prev| ==> Lower(prev[i]) in LowerSet(prev);
    }
  }

  /** Text `k` has no earlier text equal to it after lower-casing. */
  predicate IsFirstOfClass(ts: seq<string>, k: nat)
    requires k < |ts|
  {
    forall m :: 0 <= m < k ==> Lower(ts[m]) != Lower(ts[k])
  }

  /** The first text of each class, in the order of the inputs. */
  function FirstOfClass(ts: seq<string>): seq<string>
    decreases |ts|
  {
    if ts == [] then []
    else FirstOfClass(ts[..|ts| - 1]) + (if IsFirstOfClass(ts, |ts| - 1) then [ts[|ts| - 1]] else [])
  }

  /** The one-pass de-duplication keeps, in first-seen order and with its own casing,
      exactly the first text of each class. */
  lemma {:induction false} DedupCIFirst(ts: seq<string>)
    ensures DedupCI(ts) == FirstOfClass(ts)
    decreases |ts|
  {
    if ts != [] {
      var p := ts[..|ts| - 1];
      var t := ts[|ts| - 1];
      DedupCIFirst(p);
      assert ts == p + [t];
      DedupCIFirstStep(p, t);
    }
  }

  /** The step of `DedupCIFirst`: one more text is kept exactly when it opens a class. */
  lemma DedupCIFirstStep(p: seq<string>, t: string)
    requires DedupCI(p) == FirstOfClass(p)
    ensures DedupCI(p + [t]) == FirstOfClass(p + [t])
  {
    var ts := p + [t];
    assert ts[..|ts| - 1] == p;
    DedupCILast(p, t);
    FirstOfClassSeen(p, t);
  }

  /** A text opens a new class exactly when its lower-cased form is not yet seen. */
  lemma FirstOfClassSeen(p: seq<string>, t: string)
    ensures IsFirstOfClass(p + [t], |p|) <==> Lower(t) !in LowerSet(DedupCI(p))
  {
    var ts := p + [t];
    var prev := DedupCI(p);
    DedupCISeen(p);
    assert forall k :: 0 <= k < |p| ==> ts[k] == p[k];
    assert ts[|p|] == t;
    if Lower(t) in LowerSet(prev) {
      var i :| 0 <= i < |prev| && Lower(prev[i]) == Lower(t);
      var m :| 0 <= m < |p| && p[m] == prev[i];
      assert Lower(ts[m]) == Lower(t);
    }
  }

  /** `_clean_welding_notes` keeps one text per class, distinct up to case, covering every
      truthy item, in first-seen order. */
  lemma CleanNotesSpec(ns: seq<Json>)
    ensures var out := CleanNotes(ns);
      && (forall i, j :: 0 <= i < j < |out| ==> Lower(out[i]) != Lower(out[j]))
      && (forall i :: 0 <= i < |out| ==> out[i] in NoteTexts(ns))
      && (forall k :: 0 <= k < |NoteTexts(ns)| ==> Lower(NoteTexts(ns)[k]) in LowerSet(out))
      && out == FirstOfClass(NoteTexts(ns))
  {
    DedupCIDistinct(NoteTexts(ns));
    DedupCISeen(NoteTexts(ns));
    DedupCIFirst(NoteTexts(ns));
  }

  /** Every text `NoteTexts` yields comes from a truthy item. */
  lemma {:induction false} NoteTextsFrom(ns: seq<Json>)
    ensures forall t :: t in NoteTexts(ns) ==> exists k :: 0 <= k < |ns| && Truthy(ns[k]) && t == NoteText(ns[k])
    decreases |ns|
  {
    if ns != [] {
      var p := ns[..|ns| - 1];
      NoteTextsFrom(p);
      assert forall k :: 0 <= k < |p| ==> ns[k] == p[k];
    }
  }

  // ---------------------------------------------------------------------------
  // _extract_booleans
  // ---------------------------------------------------------------------------

  /** `_extract_booleans(raw_text)`: each flag is whether one of its phrases occurs in the
      lower-cased text. The dict's two keys are the keys of the two flag fields. */
  function ExtractBooleans(raw: string): (r: seq<(Field, Json)>)
    ensures |r| == 2 && r[0].0 == BreakSharpEdges && r[1].0 == RetainingRingGroovesSharp
    ensures r[0].1 == JBool(MentionsAny(Lower(raw), BreakEdgesPhrases))
    ensures r[1].1 == JBool(MentionsAny(Lower(raw), GroovesSharpPhrases))
  {
    var lt := Lower(raw);
    [(BreakSharpEdges, JBool(MentionsAny(lt, BreakEdgesPhrases))),
     (RetainingRingGroovesSharp, JBool(MentionsAny(lt, GroovesSharpPhrases)))]
  }

  /** Lower-casing commutes with slicing. */
  lemma LowerSlice(s: string, i: nat, j: nat)
    requires i <= j <= |s|
    ensures Lower(s)[i..j] == Lower(s[i..j])
  {
  }

  /** A phrase written anywhere in the text, in any letter case, sets its flag. */
  lemma PhraseSetsFlag(raw: string, phrases: seq<string>, p: string, i: nat)
    requires p in phrases && IsLower(p)
    requires i + |p| <= |raw| && Lower(raw[i..i + |p|]) == p
    ensures MentionsAny(Lower(raw), phrases)
  {
    LowerSlice(raw, i, i + |p|);
    assert OccursAt(Lower(raw), p, i);
  }

  /** "Please Deburr Edges" mentions the deburring phrase. */
  lemma DeburrExample()
    ensures ExtractBooleans("Please Deburr Edges")[0].1 == JBool(true)
  {
    var raw := "Please Deburr Edges";
    assert Lower(raw[7..19]) == "deburr edges";
    PhraseSetsFlag(raw, BreakEdgesPhrases, "deburr edges", 7);
  }

  // ---------------------------------------------------------------------------
  // _normalize_tables and norm_table
  // ---------------------------------------------------------------------------

  /** `s.strip().lower()`: lower case, with no space at either end. */
  function StripLower(s: string): (r: string)
    ensures IsLower(r)
    ensures r != [] ==> !IsSpace(r[0]) && !IsSpace(r[|r| - 1])
  {
    var t := Strip(s);
    LowerIsLower(t);
    if t == [] then [] else LowerKeepsEnds(t); Lower(t)
  }

  /** `str(obj.get("unit", "mm")).strip().lower() or "mm"`: never empty, lower case,
      with no space at either end. */
  function TableUnit(obj: Entries): (u: string)
    ensures u != [] && IsLower(u)
    ensures !IsSpace(u[0]) && !IsSpace(u[|u| - 1])
  {
    var s := StripLower(PyStr(GetOr(obj, "unit", JStr("mm"))));
    if s == [] then "mm" else s
  }

  /** `(obj.get("bands", {}) or {}).items()`: the entries of a dict, nothing for a falsy
      value, and an `AttributeError` for any other truthy value. */
  function TableBands(obj: Entries): (r: Py<Entries>)
    ensures r.Raise? <==> Truthy(Get(obj, "bands")) && !Get(obj, "bands").JObj?
    ensures r.Raise? ==> r.error == AttributeError
    ensures Get(obj, "bands").JObj? ==> r == Ok(Get(obj, "bands").entries)
  {
    var b := Or(GetOr(obj, "bands", JObj([])), JObj([]));
    if b.JObj? then Ok(b.entries) else Raise(AttributeError)
  }

  /** The band loop of `_normalize_tables`: each string value, normalised by `_norm_pm`,
      stored under its key; other values skipped. */
  function StringBands(b: Entries): (r: Entries)
    ensures DistinctKeys(r)
    decreases |b|
  {
    if b == [] then []
    else
      var prev := StringBands(b[..|b| - 1]);
      var (k, v) := b[|b| - 1];
      if v.JStr? then Set(prev, k, JStr(NormPm(v.s))) else prev
  }

  /** `_normalize_tables(obj)`. */
  function NormalizeTablesSpec(obj: Json): (r: Py<Json>)
    ensures !obj.JObj? ==> r == Ok(JNull)
    ensures obj.JObj? && r.Ok? ==> r.value.JObj? && |r.value.entries| == 2 && r.value.entries[0].0 == "unit"
  {
    if !obj.JObj? then Ok(JNull)
    else
      var bands :- TableBands(obj.entries);
      Ok(JObj([("unit", JStr(TableUnit(obj.entries))), ("bands", JObj(StringBands(bands)))]))
  }

  /** `_normalize_tables(obj)`: `None` for a non-dict, otherwise the unit and the bands. */
  method NormalizeTables(obj: Json) returns (r: Py<Json>)
    ensures r == NormalizeTablesSpec(obj)
  {
    if !obj.JObj? {
      return Ok(JNull);
    }
    var unit := TableUnit(obj.entries);
    var bands :- TableBands(obj.entries);
    var outBands := StringBandsLoop(bands);
    return Ok(JObj([("unit", JStr(unit)), ("bands", JObj(outBands))]));
  }

  /** The loop of `_normalize_tables` filling `out_bands`. */
  method StringBandsLoop(bands: Entries) returns (outBands: Entries)
    ensures outBands == StringBands(bands)
  {
    outBands := [];
    var i := 0;
    while i < |bands|
      invariant 0 <= i <= |bands|
      invariant outBands == StringBands(bands[..i])
    {
      var (k, v) := bands[i];
      assert bands[..i + 1][..i] == bands[..i];
      if v.JStr? {
        var val := NormPm(v.s);
        outBands := Set(outBands, k, JStr(val));
      }
      i := i + 1;
    }
    assert bands[..|bands|] == bands;
  }

  /** With distinct input keys, the result holds exactly the string bands, each passed
      through `_norm_pm`. */
  lemma {:induction false} StringBandsGet(b: Entries, k: string)
    requires DistinctKeys(b)
    ensures Has(StringBands(b), k) <==> Has(b, k) && Get(b, k).JStr?
    ensures Has(StringBands(b), k) ==> Get(StringBands(b), k) == JStr(NormPm(Get(b, k).s))
    decreases |b|
  {
    if b != [] {
      var p := b[..|b| - 1];
      var (k', v) := b[|b| - 1];
      assert DistinctKeys(p);
      StringBandsGet(p, k);
      LastEntry(b, k);
    }
  }

  /** Looking `k` up in `b`, split at its last entry. */
  lemma LastEntry(b: Entries, k: string)
    requires b != [] && DistinctKeys(b)
    ensures var p := b[..|b| - 1];
      && (b[|b| - 1].0 == k ==> !Has(p, k) && Has(b, k) && Get(b, k) == b[|b| - 1].1)
      && (b[|b| - 1].0 != k ==> Has(b, k) == Has(p, k) && Get(b, k) == Get(p, k))
  {
    var p := b[..|b| - 1];
    FindLast(b, k);
    if Find(p, k).Some? {
      assert p[Find(p, k).value] == b[Find(p, k).value];
    }
  }

  /** Where `k` is found in `b`, split at its last entry. */
  lemma FindLast(b: Entries, k: string)
    requires b != [] && DistinctKeys(b)
    ensures var p := b[..|b| - 1];
      && (b[|b| - 1].0 == k ==> Find(p, k).None? && Find(b, k) == Some(|b| - 1))
      && (b[|b| - 1].0 != k ==> Find(b, k) == Find(p, k))
  {
    var p, n := b[..|b| - 1], |b| - 1;
    assert forall j :: 0 <= j < |p| ==> p[j] == b[j];
    var rb, rp := Find(b, k), Find(p, k);
    if b[n].0 == k {
      assert forall j :: 0 <= j < |p| ==> p[j].0 != k;
      assert rb.Some? && !(rb.value < n);
    } else if rb.Some? && rp.Some? {
      assert !(rb.value < rp.value) && !(rp.value < rb.value);
    }
  }

  /** The bands loop of `norm_table`: every value other than `None` becomes
      `_norm_pm(str(v))`. */
  function AllBands(b: Entries): (r: Entries)
    ensures DistinctKeys(r)
    ensures forall i :: 0 <= i < |r| ==> BandValue(r[i].1)
    decreases |b|
  {
    if b == [] then []
    else
      var prev := AllBands(b[..|b| - 1]);
      var (k, v) := b[|b| - 1];
      var nv := if v != JNull then JStr(NormPm(PyStr(v))) else JNull;
      SetValues(prev, k, nv);
      Set(prev, k, nv)
  }

  /** A band value after `norm_table`: `None`, or a string with every plus-minus spelling
      turned into the sign. */
  predicate BandValue(v: Json) {
    v == JNull || (v.JStr? && NoPlusMinusSpelling(v.s))
  }

  /** The shape `norm_table` returns: a dict with the unit string and the bands. */
  predicate TableShape(v: Json) {
    && v.JObj? && |v.entries| == 2
    && v.entries[0].0 == "unit" && v.entries[0].1.JStr?
    && v.entries[1].0 == "bands" && v.entries[1].1.JObj?
    && (forall i :: 0 <= i < |v.entries[1].1.entries| ==> BandValue(v.entries[1].1.entries[i].1))
  }

  /** `norm_table(tbl)`. */
  function NormTableSpec(tbl: Json): (r: Py<Json>)
    ensures r.Ok? ==> r.value == JNull || TableShape(r.value)
    ensures r.Raise? ==> r.error == AttributeError
  {
    if !tbl.JObj? then Ok(JNull)
    else
      var bands :- TableBands(tbl.entries);
      var unit := Or(GetOr(tbl.entries, "unit", JStr("mm")), JStr("mm"));
      Ok(JObj([("unit", JStr(StripLower(PyStr(unit)))), ("bands", JObj(AllBands(bands)))]))
  }

  /** `norm_table(tbl)`: `None` for a non-dict, otherwise the bands and the unit. */
  method NormTable(tbl: Json) returns (r: Py<Json>)
    ensures r == NormTableSpec(tbl)
  {
    if !tbl.JObj? {
      return Ok(JNull);
    }
    var bands :- TableBands(tbl.entries);
    var outB := AllBandsLoop(bands);
    var unit := Or(GetOr(tbl.entries, "unit", JStr("mm")), JStr("mm"));
    return Ok(JObj([("unit", JStr(StripLower(PyStr(unit)))), ("bands", JObj(outB))]));
  }

  /** The loop of `norm_table` filling `out_b`. */
  method AllBandsLoop(bands: Entries) returns (outB: Entries)
    ensures outB == AllBands(bands)
  {
    outB := [];
    var i := 0;
    while i < |bands|
      invariant 0 <= i <= |bands|
      invariant outB == AllBands(bands[..i])
    {
      var (k, v) := bands[i];
      assert bands[..i + 1][..i] == bands[..i];
      outB := Set(outB, k, if v != JNull then JStr(NormPm(PyStr(v))) else JNull);
      i := i + 1;
    }
    assert bands[..|bands|] == bands;
  }

  /** With distinct input keys, `norm_table` keeps every band and normalises each
      non-`None` value. */
  lemma {:induction false} AllBandsGet(b: Entries, k: string)
    requires DistinctKeys(b)
    ensures Has(AllBands(b), k) <==> Has(b, k)
    ensures Has(b, k) ==> Get(AllBands(b), k) == if Get(b, k) != JNull then JStr(NormPm(PyStr(Get(b, k)))) else JNull
    decreases |b|
  {
    if b != [] {
      var p := b[..|b| - 1];
      assert DistinctKeys(p);
      AllBandsGet(p, k);
      LastEntry(b, k);
    }
  }

  /** A table in the shape `_normalize_tables` produces passes `norm_table` with the same
      unit and its bands re-normalised by the `norm_table` loop. */
  lemma NormTableAfterNormalize(u: string, sb: Entries)
    requires u != [] && IsLower(u) && !IsSpace(u[0]) && !IsSpace(u[|u| - 1])
    ensures NormTableSpec(JObj([("unit", JStr(u)), ("bands", JObj(sb))]))
      == Ok(JObj([("unit", JStr(u)), ("bands", JObj(AllBands(sb)))]))
  {
    var tbl := [("unit", JStr(u)), ("bands", JObj(sb))];
    assert Find(tbl, "unit") == Some(0);
    assert Find(tbl, "bands") == Some(1);
    assert TableBands(tbl) == Ok(sb);
    assert Or(GetOr(tbl, "unit", JStr("mm")), JStr("mm")) == JStr(u);
    StripNoop(u);
    LowerNoop(u);
    assert StripLower(u) == u;
  }

  /** Across both loops, a band survives exactly when its value is a string, and ends up
      normalised twice. */
  lemma DoubleNormBands(bands: Entries, k: string)
    requires DistinctKeys(bands)
    ensures Has(AllBands(StringBands(bands)), k) <==> Has(bands, k) && Get(bands, k).JStr?
    ensures Has(AllBands(StringBands(bands)), k) ==>
      Get(AllBands(StringBands(bands)), k) == JStr(NormPm(NormPm(Get(bands, k).s)))
  {
    StringBandsGet(bands, k);
    AllBandsGet(StringBands(bands), k);
  }
}
