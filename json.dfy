/** Python values as `json.loads` and `yaml.safe_load` produce them, Python's
    exceptions as values, and the `dict` operations the extractor uses:
    `d.get(k)`, `d.get(k, default)`, `d[k] = v`, `d.update(u)`, `str(v)` and
    `json.dumps(v, ensure_ascii=False)`. */
module JsonValue {
  import opened Text

  /** A parsed value. `JNum` keeps the text that Python's `str()` gives the
      number (the model never computes with numbers). `JObj` keeps its entries
      in insertion order, as a Python `dict` does. */
  datatype Json =
    | JNull
    | JBool(b: bool)
    | JNum(text: string)
    | JStr(s: string)
    | JArr(items: seq<Json>)
    | JObj(entries: seq<(string, Json)>)

  type Entries = seq<(string, Json)>

  /** The exceptions the modelled code can raise. */
  datatype PyError = TypeError | AttributeError | ValueError

  /** The outcome of a Python expression: a value, or an exception. */
  datatype Py<+T> = Ok(value: T) | Raise(error: PyError) {
    predicate IsFailure() { Raise? }
    function PropagateFailure<U>(): Py<U> requires Raise? { Raise(error) }
    function Extract(): T requires Ok? { value }
  }

  /** Python's `bool(v)`: the falsy values are exactly `None`, `False`, a zero, `""`,
      `[]` and `{}`. */
  predicate Truthy(v: Json): (r: bool)
    ensures !r <==> v in [JNull, JBool(false), JNum("0"), JNum("0.0"), JNum("-0.0"), JStr(""), JArr([]), JObj([])]
  {
    match v
    case JNull => false
    case JBool(b) => b
    case JNum(t) => t != "0" && t != "0.0" && t != "-0.0"
    case JStr(s) => s != ""
    case JArr(a) => a != []
    case JObj(e) => e != []
  }

  /** `v or alt`. */
  function Or(v: Json, alt: Json): (r: Json)
    ensures Truthy(v) ==> r == v
    ensures !Truthy(v) ==> r == alt
  {
    if Truthy(v) then v else alt
  }

  // ---------------------------------------------------------------------------
  // dict
  // ---------------------------------------------------------------------------

  /** Position of the entry for `k` (the first one, should keys repeat). */
  function Find(e: Entries, k: string): (r: Option<nat>)
    ensures r.Some? ==> r.value < |e| && e[r.value].0 == k
    ensures r.Some? ==> forall j :: 0 <= j < r.value ==> e[j].0 != k
    ensures r.None? <==> forall j :: 0 <= j < |e| ==> e[j].0 != k
  {
    if e == [] then None
    else if e[0].0 == k then Some(0)
    else match Find(e[1..], k)
      case None => None
      case Some(i) => Some(i + 1)
  }

  /** `k in d`. */
  predicate Has(e: Entries, k: string): (r: bool)
    ensures r <==> exists j :: 0 <= j < |e| && e[j].0 == k
  {
    Find(e, k).Some?
  }

  /** `d.get(k)`: `None` when the key is missing. */
  function Get(e: Entries, k: string): (r: Json)
    ensures Has(e, k) ==> exists j :: (0 <= j < |e| && e[j].0 == k && r == e[j].1
      && forall i :: 0 <= i < j ==> e[i].0 != k)
    ensures !Has(e, k) ==> r == JNull
  {
    match Find(e, k)
    case Some(i) => e[i].1
    case None => JNull
  }

  /** `d.get(k, default)`. */
  function GetOr(e: Entries, k: string, default: Json): (r: Json)
    ensures Has(e, k) ==> r == Get(e, k)
    ensures !Has(e, k) ==> r == default
  {
    if Has(e, k) then Get(e, k) else default
  }

  /** `d.get(k, None)` is `d.get(k)`. */
  lemma GetOrNone(e: Entries, k: string)
    ensures GetOr(e, k, JNull) == Get(e, k)
  {
  }

  /** The keys, in insertion order: `list(d)`. */
  function Keys(e: Entries): (ks: seq<string>)
    ensures |ks| == |e|
    ensures forall i :: 0 <= i < |e| ==> ks[i] == e[i].0
  {
    seq(|e|, i requires 0 <= i < |e| => e[i].0)
  }

  /** A key is present exactly when it is among the keys. */
  lemma HasKeys(e: Entries, k: string)
    ensures Has(e, k) <==> k in Keys(e)
  {
    if k in Keys(e) {
      var i :| 0 <= i < |e| && Keys(e)[i] == k;
      assert e[i].0 == k;
    }
  }

  /** No key occurs twice, as in every `dict`. */
  predicate DistinctKeys(e: Entries) {
    forall i, j :: 0 <= i < j < |e| ==> e[i].0 != e[j].0
  }

  /** Two entry lists with the key `k` at the same positions find it at the same place. */
  lemma FindSamePositions(e1: Entries, e2: Entries, k: string)
    requires |e1| == |e2|
    requires forall j :: 0 <= j < |e1| ==> (e1[j].0 == k <==> e2[j].0 == k)
    ensures Find(e1, k) == Find(e2, k)
  {
    var r1, r2 := Find(e1, k), Find(e2, k);
    if r1.Some? && r2.Some? {
      assert !(r1.value < r2.value) && !(r2.value < r1.value);
    }
  }

  /** In a distinct-keyed list the entry at `i` is the one found for its key. */
  lemma FindDistinct(e: Entries, i: nat)
    requires DistinctKeys(e) && i < |e|
    ensures Find(e, e[i].0) == Some(i)
  {
  }

  /** `d[k] = v`: replaces the value in place, or appends a new entry. */
  function Set(e: Entries, k: string, v: Json): (r: Entries)
    ensures Has(r, k) && Get(r, k) == v
    ensures forall k' :: k' != k ==> Has(r, k') == Has(e, k') && Get(r, k') == Get(e, k')
    ensures Has(e, k) ==> Keys(r) == Keys(e)
    ensures !Has(e, k) ==> Keys(r) == Keys(e) + [k]
    ensures DistinctKeys(e) ==> DistinctKeys(r)
  {
    match Find(e, k)
    case Some(i) =>
      var r := e[i := (k, v)];
      forall k' | k' != k ensures Find(r, k') == Find(e, k') { FindSamePositions(r, e, k'); }
      FindSamePositions(r, e, k);
      r
    case None =>
      var r := e + [(k, v)];
      assert r[|e|].0 == k;
      assert forall j :: 0 <= j < |e| ==> r[j] == e[j];
      forall k' | k' != k ensures Find(r, k') == Find(e, k') {
        if Find(e, k').Some? {
          FindSamePositions(r[..|e|], e, k');
          assert r[..|e|] == e;
        }
      }
      r
  }

  /** Every value after `d[k] = v` is `v` or a value `d` already held. */
  lemma SetValues(e: Entries, k: string, v: Json)
    ensures var r := Set(e, k, v);
      forall i :: 0 <= i < |r| ==> r[i].1 == v || exists j :: 0 <= j < |e| && r[i].1 == e[j].1
  {
    var r := Set(e, k, v);
    match Find(e, k)
    case Some(n) =>
      assert forall i :: 0 <= i < |r| && i != n ==> r[i] == e[i];
    case None =>
      assert forall i :: 0 <= i < |e| ==> r[i] == e[i];
  }

  /** `d.update(u)`: the entries of `u`, in order, each stored with `Set`. */
  function Update(e: Entries, u: Entries): (r: Entries)
    decreases |u|
  {
    if u == [] then e else Update(Set(e, u[0].0, u[0].1), u[1..])
  }

  /** After `d.update(u)` a key of `u` maps to its value in `u` and any other key keeps
      its old value; the old keys keep their places and the new ones follow. */
  lemma {:induction false} UpdateGet(e: Entries, u: Entries, k: string)
    requires DistinctKeys(u)
    ensures Has(Update(e, u), k) <==> Has(e, k) || Has(u, k)
    ensures Get(Update(e, u), k) == if Has(u, k) then Get(u, k) else Get(e, k)
    ensures Keys(e) <= Keys(Update(e, u))
    ensures DistinctKeys(e) ==> DistinctKeys(Update(e, u))
    decreases |u|
  {
    if u != [] {
      var e' := Set(e, u[0].0, u[0].1);
      var u' := u[1..];
      assert DistinctKeys(u');
      UpdateGet(e', u', k);
      FindTail(u, k);
      PrefixTrans(Keys(e), Keys(e'), Keys(Update(e', u')));
    }
  }

  /** A prefix of a prefix is a prefix. */
  lemma PrefixTrans(a: seq<string>, b: seq<string>, c: seq<string>)
    requires a <= b && b <= c
    ensures a <= c
  {
    assert forall i :: 0 <= i < |a| ==> a[i] == b[i] == c[i];
  }

  /** Looking `k` up past the first entry, when that entry is not `k`'s. */
  lemma FindTail(u: Entries, k: string)
    requires u != []
    requires DistinctKeys(u)
    ensures u[0].0 == k ==> !Has(u[1..], k) && Get(u, k) == u[0].1
    ensures u[0].0 != k ==> Has(u, k) == Has(u[1..], k) && Get(u, k) == Get(u[1..], k)
  {
    assert forall j :: 0 <= j < |u| - 1 ==> u[1..][j] == u[j + 1];
  }

  // ---------------------------------------------------------------------------
  // str() and json.dumps
  // ---------------------------------------------------------------------------

  /** `repr(v)`. Strings are shown between single quotes without escaping. */
  function Repr(v: Json): (r: string)
    ensures !v.JNum? ==> r != []
    ensures v.JStr? ==> r == "'" + v.s + "'"
    ensures v.JArr? ==> r[0] == '[' && r[|r| - 1] == ']'
    ensures v.JObj? ==> r[0] == '{' && r[|r| - 1] == '}'
    decreases v
  {
    match v
    case JNull => "None"
    case JBool(b) => if b then "True" else "False"
    case JNum(t) => t
    case JStr(s) => "'" + s + "'"
    case JArr(a) => "[" + Join(seq(|a|, i requires 0 <= i < |a| => Repr(a[i])), ", ") + "]"
    case JObj(e) =>
      "{" + Join(seq(|e|, i requires 0 <= i < |e| => "'" + e[i].0 + "': " + Repr(e[i].1)), ", ") + "}"
  }

  /** `str(v)`: a string is itself, anything else its `repr`. */
  function PyStr(v: Json): (r: string)
    ensures v.JStr? ==> r == v.s
    ensures v == JNull ==> r == "None"
    ensures v.JBool? ==> r == if v.b then "True" else "False"
    ensures v.JNum? ==> r == v.text
    ensures v.JArr? || v.JObj? ==> r == Repr(v)
  {
    match v
    case JStr(s) => s
    case _ => Repr(v)
  }

  /** The hexadecimal digit of `n`, lower case. */
  function HexDigit(n: nat): char
    requires n < 16
  {
    if n < 10 then ('0' as int + n) as char else ('a' as int + n - 10) as char
  }

  /** How `json.dumps(..., ensure_ascii=False)` writes one character of a string. */
  function EscapeChar(c: char): (r: string)
    ensures r != []
    ensures c != '"' && c != '\\' && c as int >= 0x20 ==> r == [c]
  {
    if c == '"' then "\\\""
    else if c == '\\' then "\\\\"
    else if c == '\n' then "\\n"
    else if c == '\r' then "\\r"
    else if c == '\t' then "\\t"
    else if c == '\U{8}' then "\\b"
    else if c == '\U{C}' then "\\f"
    else if c as int < 0x20 then "\\u00" + [HexDigit(c as int / 16), HexDigit(c as int % 16)]
    else [c]
  }

  /** The escaped text of a string: as long as the string at least, and the string
      itself when it holds no quote, backslash or control character. */
  function Escape(s: string): (r: string)
    ensures |r| >= |s|
    ensures (forall i :: 0 <= i < |s| ==> s[i] != '"' && s[i] != '\\' && s[i] as int >= 0x20) ==> r == s
  {
    if s == [] then "" else EscapeChar(s[0]) + Escape(s[1..])
  }

  /** `json.dumps(v, ensure_ascii=False)` with the default separators. */
  function Dumps(v: Json): (r: string)
    ensures r != []
    decreases v
  {
    match v
    case JNull => "null"
    case JBool(b) => if b then "true" else "false"
    case JNum(t) => if t == "" then "0" else t
    case JStr(s) => "\"" + Escape(s) + "\""
    case JArr(a) => "[" + Join(seq(|a|, i requires 0 <= i < |a| => Dumps(a[i])), ", ") + "]"
    case JObj(e) =>
      "{" + Join(seq(|e|, i requires 0 <= i < |e| => "\"" + Escape(e[i].0) + "\": " + Dumps(e[i].1)), ", ") + "}"
  }
}
