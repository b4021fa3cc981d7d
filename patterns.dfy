/** Hand-written recognisers for the fixed regular expressions of
    src/llm_extractor.py. Each follows the leftmost, greedy, backtracking
    search that Python's `re` performs for that one pattern; `\b` is taken
    over `[A-Za-z0-9_]`, `\d` over ASCII digits, `\s` as `str.isspace()` and
    `re.I` as ASCII case folding. */
module Patterns {
  import opened Text

  const PlusMinus: char := '\U{B1}'

  // ---------------------------------------------------------------------------
  // Scanning helpers
  // ---------------------------------------------------------------------------

  /** End of the run of digits starting at `i`. */
  function DigitRunEnd(s: string, i: nat): (j: nat)
    requires i <= |s|
    ensures i <= j <= |s|
    ensures forall k :: i <= k < j ==> IsDigit(s[k])
    ensures j < |s| ==> !IsDigit(s[j])
    decreases |s| - i
  {
    if i < |s| && IsDigit(s[i]) then DigitRunEnd(s, i + 1) else i
  }

  /** End of the run of space characters starting at `i`: where `\s*` stops. */
  function SkipSpaces(s: string, i: nat): (j: nat)
    requires i <= |s|
    ensures i <= j <= |s|
    ensures forall k :: i <= k < j ==> IsSpace(s[k])
    ensures j < |s| ==> !IsSpace(s[j])
    decreases |s| - i
  {
    if i < |s| && IsSpace(s[i]) then SkipSpaces(s, i + 1) else i
  }

  /** The lower-case word `w` occurs at `i`, ignoring ASCII case. */
  predicate LitCI(s: string, i: nat, w: string)
    ensures LitCI(s, i, w) ==> i + |w| <= |s|
    decreases |w|
  {
    if w == [] then i <= |s| else i < |s| && LowerChar(s[i]) == w[0] && LitCI(s, i + 1, w[1..])
  }

  /** `\b` before position `i`, where `s[i]` is a word character. */
  predicate StartBoundary(s: string, i: nat)
    requires i <= |s|
  {
    i == 0 || !IsWordChar(s[i - 1])
  }

  /** `\b` after position `e - 1`, where `s[e - 1]` is a word character. */
  predicate EndBoundary(s: string, e: nat)
    requires e <= |s|
  {
    e == |s| || !IsWordChar(s[e])
  }

  // ---------------------------------------------------------------------------
  // Decimal commas: a comma between two digit runs becomes a point
  // ---------------------------------------------------------------------------

  /** The rewrite of `s[i..]` when the search for `(\d+),(\d+)` stands at `i`:
      a match's comma becomes a point and the search resumes behind the digits
      after it; a digit run not followed by ",digit" is passed over whole (no
      later start inside it can match either). */
  function DecCommaFrom(s: string, i: nat): (r: string)
    requires i <= |s|
    ensures |r| == |s| - i
    decreases |s| - i
  {
    if i == |s| then []
    else if IsDigit(s[i]) then
      var j := DigitRunEnd(s, i);
      if j + 1 < |s| && s[j] == ',' && IsDigit(s[j + 1]) then
        var k := DigitRunEnd(s, j + 1);
        s[i..j] + "." + s[j + 1..k] + DecCommaFrom(s, k)
      else
        s[i..j] + DecCommaFrom(s, j)
    else
      [s[i]] + DecCommaFrom(s, i + 1)
  }

  /** The decimal-comma rewrite of the whole of `s`. */
  function DecComma(s: string): (r: string)
    ensures |r| == |s|
  {
    DecCommaFrom(s, 0)
  }

  /** Where the search resumes after standing at `i` (a match, a digit run or one character). */
  function DecCommaNext(s: string, i: nat): (e: nat)
    requires i < |s|
    ensures i < e <= |s|
    ensures DecCommaFrom(s, i)[e - i..] == DecCommaFrom(s, e)
  {
    if IsDigit(s[i]) then
      var j := DigitRunEnd(s, i);
      if j + 1 < |s| && s[j] == ',' && IsDigit(s[j + 1]) then
        var k := DigitRunEnd(s, j + 1);
        DecCommaMatch(s, i, j, k);
        k
      else
        DecCommaRun(s, i, j);
        j
    else
      i + 1
  }

  /** A match at `i`: the digits, a point, the digits after the comma, then the rest. */
  lemma DecCommaMatch(s: string, i: nat, j: nat, k: nat)
    requires i < |s| && IsDigit(s[i]) && j == DigitRunEnd(s, i)
    requires j + 1 < |s| && s[j] == ',' && IsDigit(s[j + 1]) && k == DigitRunEnd(s, j + 1)
    ensures |s[i..j] + "." + s[j + 1..k]| == k - i
    ensures DecCommaFrom(s, i) == s[i..j] + "." + s[j + 1..k] + DecCommaFrom(s, k)
    ensures DecCommaFrom(s, i)[k - i..] == DecCommaFrom(s, k)
  {
    var r := DecCommaFrom(s, i);
    assert r == s[i..j] + "." + s[j + 1..k] + DecCommaFrom(s, k);
  }

  /** A digit run at `i` with no match: the run, then the rest. */
  lemma DecCommaRun(s: string, i: nat, j: nat)
    requires i < |s| && IsDigit(s[i]) && j == DigitRunEnd(s, i)
    requires !(j + 1 < |s| && s[j] == ',' && IsDigit(s[j + 1]))
    ensures DecCommaFrom(s, i) == s[i..j] + DecCommaFrom(s, j)
    ensures DecCommaFrom(s, i)[j - i..] == DecCommaFrom(s, j)
  {
  }

  /** Position `k` holds a comma between two digits. */
  predicate CommaBetweenDigits(s: string, k: nat) {
    0 < k < |s| - 1 && s[k] == ',' && IsDigit(s[k - 1]) && IsDigit(s[k + 1])
  }

  /** The decimal-comma rewrite changes nothing but commas between digits, which
      become points. */
  lemma {:induction false} DecCommaOnlyCommasFrom(s: string, i: nat)
    requires i <= |s|
    ensures forall m :: i <= m < |s| ==>
      DecCommaFrom(s, i)[m - i] == s[m] || (CommaBetweenDigits(s, m) && DecCommaFrom(s, i)[m - i] == '.')
    decreases |s| - i
  {
    if i < |s| {
      var r := DecCommaFrom(s, i);
      var e := DecCommaNext(s, i);
      var rest := DecCommaFrom(s, e);
      DecCommaOnlyCommasFrom(s, e);
      forall m | i <= m < |s|
        ensures r[m - i] == s[m] || (CommaBetweenDigits(s, m) && r[m - i] == '.')
      {
        if m >= e {
          assert r[m - i] == r[e - i..][m - e];
        } else {
          ConvertedIsPoint(s, i, e, m);
        }
      }
    }
  }

  /** Within one step of the search, a character is kept or is a comma between digits made a point. */
  lemma ConvertedIsPoint(s: string, i: nat, e: nat, m: nat)
    requires i <= m < e <= |s| && e == DecCommaNext(s, i)
    ensures DecCommaFrom(s, i)[m - i] == s[m] || (CommaBetweenDigits(s, m) && DecCommaFrom(s, i)[m - i] == '.')
  {
    var j := DigitRunEnd(s, i);
    var r := DecCommaFrom(s, i);
    if IsDigit(s[i]) && j + 1 < |s| && s[j] == ',' && IsDigit(s[j + 1]) {
      ConvertedInMatch(s, i, j, DigitRunEnd(s, j + 1), m);
    } else if IsDigit(s[i]) {
      DecCommaRun(s, i, j);
      assert r[m - i] == s[i..j][m - i];
    } else {
      assert r[0] == s[i];
    }
  }

  /** Within a match, the digits are kept and the comma is made a point. */
  lemma ConvertedInMatch(s: string, i: nat, j: nat, k: nat, m: nat)
    requires i < |s| && IsDigit(s[i]) && j == DigitRunEnd(s, i)
    requires j + 1 < |s| && s[j] == ',' && IsDigit(s[j + 1]) && k == DigitRunEnd(s, j + 1)
    requires i <= m < k
    ensures DecCommaFrom(s, i)[m - i] == s[m] || (CommaBetweenDigits(s, m) && DecCommaFrom(s, i)[m - i] == '.')
  {
    DecCommaMatch(s, i, j, k);
    var r := DecCommaFrom(s, i);
    if m < j {
      assert r[m - i] == s[i..j][m - i];
    } else if m == j {
      assert r[m - i] == '.' && IsDigit(s[j - 1]);
    } else {
      assert r[m - i] == s[j + 1..k][m - j - 1];
    }
  }

  /** Start of the run of digits that ends just before position `k`. */
  function DigitRunStart(s: string, k: nat): (p: nat)
    requires k <= |s|
    ensures p <= k
    ensures forall m :: p <= m < k ==> IsDigit(s[m])
    ensures p > 0 ==> !IsDigit(s[p - 1])
  {
    if k > 0 && IsDigit(s[k - 1]) then DigitRunStart(s, k - 1) else k
  }

  /** A comma between digits becomes a point once the search reaches the digits
      before it, provided no comma precedes those digits (else they may be the
      tail of an earlier match, as in "1,2,3", where only the first comma changes). */
  lemma {:induction false} DecCommaConvertsFrom(s: string, i: nat, k: nat)
    requires CommaBetweenDigits(s, k)
    requires var p := DigitRunStart(s, k); i <= p && (p == 0 || s[p - 1] != ',')
    ensures DecCommaFrom(s, i)[k - i] == '.'
    decreases k - i
  {
    var p := DigitRunStart(s, k);
    if i == p {
      ConvertAtRunStart(s, i, k);
    } else {
      var e := DecCommaNext(s, i);
      NextStaysBefore(s, i, k);
      DecCommaConvertsFrom(s, e, k);
      assert DecCommaFrom(s, i)[k - i] == DecCommaFrom(s, i)[e - i..][k - e];
    }
  }

  /** A search standing at the first of the digits before the comma at `k` matches there. */
  lemma ConvertAtRunStart(s: string, i: nat, k: nat)
    requires CommaBetweenDigits(s, k)
    requires i == DigitRunStart(s, k)
    ensures DecCommaFrom(s, i)[k - i] == '.'
  {
    var j := DigitRunEnd(s, i);
    assert j == k;
    var e := DigitRunEnd(s, k + 1);
    assert DecCommaFrom(s, i) == s[i..j] + "." + s[j + 1..e] + DecCommaFrom(s, e);
  }

  /** The search cannot jump over the start of a digit run that no comma precedes. */
  lemma NextStaysBefore(s: string, i: nat, k: nat)
    requires k <= |s|
    requires var p := DigitRunStart(s, k); i < p && s[p - 1] != ','
    ensures DecCommaNext(s, i) <= DigitRunStart(s, k)
  {
    var p := DigitRunStart(s, k);
    var j := DigitRunEnd(s, i);
    if IsDigit(s[i]) {
      assert j < p;
      if j + 1 < |s| && s[j] == ',' && IsDigit(s[j + 1]) {
        assert j + 1 < p;
      }
    }
  }

  /** A comma between digits whose digit run no earlier comma precedes becomes a point. */
  lemma DecCommaConverts(s: string, k: nat)
    requires CommaBetweenDigits(s, k)
    requires var p := DigitRunStart(s, k); p == 0 || s[p - 1] != ','
    ensures DecComma(s)[k] == '.'
  {
    DecCommaConvertsFrom(s, 0, k);
  }

  /** The decimal-comma rewrite changes nothing but commas between digits, into points. */
  lemma DecCommaOnlyCommas(s: string)
    ensures forall m :: 0 <= m < |s| ==>
      DecComma(s)[m] == s[m] || (CommaBetweenDigits(s, m) && DecComma(s)[m] == '.')
  {
    DecCommaOnlyCommasFrom(s, 0);
  }

  // ---------------------------------------------------------------------------
  // Plus-minus spellings: "+-" and "+/-" become the plus-minus sign
  // ---------------------------------------------------------------------------

  /** No "+-" and no "+/-" anywhere in `s`. */
  predicate NoPlusMinusSpelling(s: string) {
    && (forall i :: 0 <= i < |s| - 1 ==> !(s[i] == '+' && s[i + 1] == '-'))
    && (forall i :: 0 <= i < |s| - 2 ==> !(s[i] == '+' && s[i + 1] == '/' && s[i + 2] == '-'))
  }

  /** Replaces every "±", "+/-" and "+-" by "±". */
  function PmSub(s: string): (r: string)
    ensures NoPlusMinusSpelling(r)
    ensures |r| <= |s|
    ensures r == [] <==> s == []
    ensures r != [] && r[0] != PlusMinus ==> r[0] == s[0]
    ensures |r| >= 2 && r[0] != PlusMinus && r[1] != PlusMinus ==> |s| >= 2 && r[1] == s[1]
    ensures forall c :: c != PlusMinus && c in r ==> c in s
    decreases |s|
  {
    if s == [] then []
    else if s[0] == PlusMinus then [PlusMinus] + PmSub(s[1..])
    else if s[0] == '+' && |s| >= 3 && s[1] == '/' && s[2] == '-' then [PlusMinus] + PmSub(s[3..])
    else if s[0] == '+' && |s| >= 2 && s[1] == '-' then [PlusMinus] + PmSub(s[2..])
    else
      var rest := PmSub(s[1..]);
      var r := [s[0]] + rest;
      assert forall i :: 1 <= i < |r| ==> r[i] == rest[i - 1];
      r
  }

  /** A string without '+' is left as it is. */
  lemma {:induction false} PmSubNoPlus(s: string)
    requires '+' !in s
    ensures PmSub(s) == s
    decreases |s|
  {
    if s != [] {
      assert '+' !in s[1..] by { assert forall c :: c in s[1..] ==> c in s; }
      PmSubNoPlus(s[1..]);
      assert s == [s[0]] + s[1..];
    }
  }

  /** `a` does not end in the start of a plus-minus spelling ("+" or "+/"), so no
      spelling can straddle the end of `a`. */
  predicate NoSpellingCut(a: string) {
    a == [] || (a[|a| - 1] != '+' && !(|a| >= 2 && a[|a| - 2] == '+' && a[|a| - 1] == '/'))
  }

  /** How many characters the substitution consumes at the start of `s`. */
  function PmStep(s: string): (n: nat)
    requires s != []
    ensures 1 <= n <= |s|
  {
    if s[0] == PlusMinus then 1
    else if s[0] == '+' && |s| >= 3 && s[1] == '/' && s[2] == '-' then 3
    else if s[0] == '+' && |s| >= 2 && s[1] == '-' then 2
    else 1
  }

  /** One step of the substitution: the head it writes, then the rest. */
  lemma PmSubHead(s: string)
    requires s != []
    ensures PmSub(s) == [if PmStep(s) > 1 then PlusMinus else s[0]] + PmSub(s[PmStep(s)..])
  {
  }

  /** Appending after a piece that cuts no spelling leaves the first step alone. */
  lemma PmStepAppend(a: string, b: string)
    requires a != [] && NoSpellingCut(a)
    ensures (a + b)[0] == a[0] && PmStep(a + b) == PmStep(a)
    ensures (a + b)[PmStep(a)..] == a[PmStep(a)..] + b
    ensures NoSpellingCut(a[PmStep(a)..])
  {
    var ab := a + b;
    assert ab[..|a|] == a;
    var n := PmStep(a);
    assert a[n..] == [] || a[n..][|a[n..]| - 1] == a[|a| - 1];
  }

  /** The substitution works piece by piece when no spelling is cut in two. */
  lemma {:induction false} PmSubAppend(a: string, b: string)
    requires NoSpellingCut(a)
    ensures PmSub(a + b) == PmSub(a) + PmSub(b)
    decreases |a|
  {
    if a == [] {
      assert a + b == b;
    } else {
      PmStepAppend(a, b);
      PmSubAppend(a[PmStep(a)..], b);
      PmSubAppendStep(a, b);
    }
  }

  /** The inductive step of `PmSubAppend`: the first spelling of `a + b` is that of `a`. */
  lemma PmSubAppendStep(a: string, b: string)
    requires a != [] && NoSpellingCut(a)
    requires PmSub(a[PmStep(a)..] + b) == PmSub(a[PmStep(a)..]) + PmSub(b)
    ensures PmSub(a + b) == PmSub(a) + PmSub(b)
  {
    var n := PmStep(a);
    var h := [if n > 1 then PlusMinus else a[0]];
    PmSubHead(a);
    PmSubAppendHead(a, b);
    ConcatRegroup(PmSub(a + b), PmSub(a), h, PmSub(a[n..]), PmSub(b));
  }


  /** The first step on `a + b` is the first step on `a`. */
  lemma PmSubAppendHead(a: string, b: string)
    requires a != [] && NoSpellingCut(a)
    ensures PmSub(a + b) == [if PmStep(a) > 1 then PlusMinus else a[0]] + PmSub(a[PmStep(a)..] + b)
  {
    PmStepAppend(a, b);
    PmSubHead(a + b);
  }

  /** The spellings themselves. */
  lemma PmSubAtoms(c: char)
    ensures PmSub("+/-") == [PlusMinus]
    ensures PmSub("+-") == [PlusMinus]
    ensures PmSub([c]) == [c]
  {
  }

  // ---------------------------------------------------------------------------
  // Form words (sheet, plate, tube, pipe, round/square/flat bar) removed from a grade
  // ---------------------------------------------------------------------------

  /** Where `\s*bar\b` ending a two-word form starting before `j` stops. */
  function BarEnd(s: string, j: nat): (r: Option<nat>)
    requires j <= |s|
    ensures r.Some? ==> j < r.value <= |s|
  {
    var a := SkipSpaces(s, j);
    if LitCI(s, a, "bar") then Some(a + 3) else None
  }

  /** End of a whole form word at `i`: sheet, plate, tube or pipe, or round, square or flat
      followed by optional spaces and bar. */
  function FormWordEnd(s: string, i: nat): (r: Option<nat>)
    requires i <= |s|
    ensures r.Some? ==> i < r.value <= |s| && EndBoundary(s, r.value)
  {
    if !StartBoundary(s, i) then None
    else
      var e :=
        if LitCI(s, i, "sheet") || LitCI(s, i, "plate") then Some(i + 5)
        else if LitCI(s, i, "round") then BarEnd(s, i + 5)
        else if LitCI(s, i, "square") then BarEnd(s, i + 6)
        else if LitCI(s, i, "flat") then BarEnd(s, i + 4)
        else if LitCI(s, i, "tube") || LitCI(s, i, "pipe") then Some(i + 4)
        else None;
      if e.Some? && EndBoundary(s, e.value) then e else None
  }

  /** The text from `i` on with every form word deleted. */
  function SubFormWordsFrom(s: string, i: nat): (r: string)
    requires i <= |s|
    ensures |r| <= |s| - i
    ensures forall c :: c in r ==> c in s[i..]
    decreases |s| - i
  {
    if i == |s| then []
    else match FormWordEnd(s, i)
      case Some(e) => SubFormWordsFrom(s, e)
      case None =>
        var rest := SubFormWordsFrom(s, i + 1);
        assert forall c :: c in rest ==> c in s[i..] by {
          assert s[i..] == [s[i]] + s[i + 1..];
        }
        [s[i]] + rest
  }

  /** Where the next form word at or after `i` starts, if one does. */
  function FirstFormWord(s: string, i: nat): (r: Option<nat>)
    requires i <= |s|
    ensures r.Some? ==> i <= r.value < |s| && FormWordEnd(s, r.value).Some?
    decreases |s| - i
  {
    if i == |s| then None
    else if FormWordEnd(s, i).Some? then Some(i)
    else FirstFormWord(s, i + 1)
  }

  /** No form word starts before the one `FirstFormWord` finds, and none at all when it
      finds nothing. */
  lemma {:induction false} FirstFormWordLeftmost(s: string, i: nat)
    requires i <= |s|
    ensures var r := FirstFormWord(s, i);
      forall j :: i <= j < (if r.Some? then r.value else |s|) ==> FormWordEnd(s, j).None?
    decreases |s| - i
  {
    if i < |s| && FormWordEnd(s, i).None? {
      FirstFormWordLeftmost(s, i + 1);
      assert FirstFormWord(s, i) == FirstFormWord(s, i + 1);
    }
  }

  /** The deletion copies the text up to the leftmost form word, drops the word,
      and goes on after it; with no form word left the text is copied whole. */
  lemma {:induction false} SubFormWordsFirst(s: string, i: nat)
    requires i <= |s|
    ensures FirstFormWord(s, i).None? ==> SubFormWordsFrom(s, i) == s[i..]
    ensures FirstFormWord(s, i).Some? ==>
      var j := FirstFormWord(s, i).value;
      SubFormWordsFrom(s, i) == s[i..j] + SubFormWordsFrom(s, FormWordEnd(s, j).value)
    decreases |s| - i
  {
    if i == |s| {
    } else if FormWordEnd(s, i).Some? {
      assert FirstFormWord(s, i) == Some(i);
      assert s[i..i] == [];
      assert SubFormWordsFrom(s, i) == SubFormWordsFrom(s, FormWordEnd(s, i).value);
    } else {
      SubFormWordsFirst(s, i + 1);
      SubFormWordsSkip(s, i);
    }
  }

  /** The step of `SubFormWordsFirst` past a character that starts no form word. */
  lemma SubFormWordsSkip(s: string, i: nat)
    requires i < |s| && FormWordEnd(s, i).None?
    requires FirstFormWord(s, i + 1).None? ==> SubFormWordsFrom(s, i + 1) == s[i + 1..]
    requires FirstFormWord(s, i + 1).Some? ==>
      var j := FirstFormWord(s, i + 1).value;
      SubFormWordsFrom(s, i + 1) == s[i + 1..j] + SubFormWordsFrom(s, FormWordEnd(s, j).value)
    ensures FirstFormWord(s, i) == FirstFormWord(s, i + 1)
    ensures FirstFormWord(s, i).None? ==> SubFormWordsFrom(s, i) == s[i..]
    ensures FirstFormWord(s, i).Some? ==>
      var j := FirstFormWord(s, i).value;
      SubFormWordsFrom(s, i) == s[i..j] + SubFormWordsFrom(s, FormWordEnd(s, j).value)
  {
    var rest := SubFormWordsFrom(s, i + 1);
    assert SubFormWordsFrom(s, i) == [s[i]] + rest;
    match FirstFormWord(s, i + 1)
    case None =>
      SliceHead(s, i, |s|);
      assert s[i..] == s[i..|s|] && s[i + 1..] == s[i + 1..|s|];
    case Some(j) =>
      SliceHead(s, i, j);
      ConcatRegroup(SubFormWordsFrom(s, i), s[i..j], [s[i]], s[i + 1..j],
        SubFormWordsFrom(s, FormWordEnd(s, j).value));
  }

  /** A slice is its first character followed by the rest. */
  lemma SliceHead(s: string, i: nat, j: nat)
    requires i < j <= |s|
    ensures s[i..j] == [s[i]] + s[i + 1..j]
  {
  }

  /** The material grade with every form word deleted. */
  function SubFormWords(s: string): (r: string)
    ensures |r| <= |s|
  {
    SubFormWordsFrom(s, 0)
  }

  // ---------------------------------------------------------------------------
  // Material grade notations, as whole words in any case
  // ---------------------------------------------------------------------------

  predicate DigitsAt(s: string, i: nat, n: nat) {
    i + n <= |s| && forall k :: i <= k < i + n ==> IsDigit(s[k])
  }

  /** End of a match of the material-grade pattern at `i`, alternatives tried in order. */
  function GradeEnd(s: string, i: nat): (r: Option<nat>)
    requires i <= |s|
    ensures r.Some? ==> i < r.value <= |s| && StartBoundary(s, i) && EndBoundary(s, r.value)
    ensures r.Some? ==> LowerChar(s[i]) != ' '
  {
    if !StartBoundary(s, i) then None
    else if LitCI(s, i, "304") || LitCI(s, i, "316") then
      if LitCI(s, i + 3, "l") && EndBoundary(s, i + 4) then Some(i + 4)
      else if EndBoundary(s, i + 3) then Some(i + 3)
      else None
    else if (LitCI(s, i, "a2") || LitCI(s, i, "a4")) && EndBoundary(s, i + 2) then Some(i + 2)
    else if LitCI(s, i, "s") then
      var j := SkipSpaces(s, i + 1);
      if DigitsAt(s, j, 3) && EndBoundary(s, j + 3) then Some(j + 3) else None
    else if LitCI(s, i, "1.") then
      if DigitsAt(s, i + 2, 4) && EndBoundary(s, i + 6) then Some(i + 6) else None
    else if LitCI(s, i, "en") then
      var j := SkipSpaces(s, i + 2);
      if LitCI(s, j, "aw-") && DigitsAt(s, j + 3, 1) then
        var k := DigitRunEnd(s, j + 3);
        if EndBoundary(s, k) then Some(k) else None
      else None
    else if LitCI(s, i, "almg") && DigitsAt(s, i + 4, 1) && EndBoundary(s, i + 5) then Some(i + 5)
    else None
  }

  /** `re.search` of the grade pattern from `i` on: the leftmost match, as (start, end). */
  function FindGradeFrom(s: string, i: nat): (r: Option<(nat, nat)>)
    requires i <= |s|
    ensures r.Some? ==> i <= r.value.0 <= |s| && GradeEnd(s, r.value.0) == Some(r.value.1)
    ensures r.Some? ==> forall j :: i <= j < r.value.0 ==> GradeEnd(s, j).None?
    ensures r.None? ==> forall j :: i <= j <= |s| ==> GradeEnd(s, j).None?
    decreases |s| - i
  {
    match GradeEnd(s, i)
    case Some(e) => Some((i, e))
    case None => if i == |s| then None else FindGradeFrom(s, i + 1)
  }

  /** `m.group(1)` of the first grade match in `s`, if any. */
  function GradeMatch(s: string): (r: Option<string>)
    ensures r.Some? ==> r.value != [] && exists i :: OccursAt(s, r.value, i) && i <= |s| && GradeEnd(s, i) == Some(i + |r.value|)
    ensures r.Some? ==> r.value[0] != ' '
    ensures r.None? <==> forall j :: 0 <= j <= |s| ==> GradeEnd(s, j).None?
  {
    match FindGradeFrom(s, 0)
    case Some((a, b)) => assert OccursAt(s, s[a..b], a); Some(s[a..b])
    case None => None
  }

  // ---------------------------------------------------------------------------
  // Narrative welding keywords, as whole words in any case
  // ---------------------------------------------------------------------------

  const WeldingKeywords: seq<string> :=
    ["weld", "grind", "smooth", "finish", "corner", "length", "stitch", "continuous"]

  /** One of the words `ws` starts at `i`, case-insensitively, and ends at a word boundary. */
  predicate WordAt(s: string, i: nat, ws: seq<string>)
    decreases |ws|
  {
    ws != [] && ((LitCI(s, i, ws[0]) && EndBoundary(s, i + |ws[0]|)) || WordAt(s, i, ws[1..]))
  }

  /** One of the words `ws` stands as a whole word at `i`. */
  predicate KeywordAt(s: string, i: nat, ws: seq<string>) {
    i <= |s| && StartBoundary(s, i) && WordAt(s, i, ws)
  }

  /** The scan of `re.search` for `\b(w1|w2|...)\b` from `i` on. */
  predicate KeywordFrom(s: string, i: nat, ws: seq<string>)
    requires i <= |s|
    decreases |s| - i
  {
    KeywordAt(s, i, ws) || (i < |s| && KeywordFrom(s, i + 1, ws))
  }

  /** The alternation matches at `i` when its `k`-th word does. */
  lemma {:induction false} WordAtMember(s: string, i: nat, ws: seq<string>, k: nat)
    requires k < |ws| && LitCI(s, i, ws[k]) && EndBoundary(s, i + |ws[k]|)
    ensures WordAt(s, i, ws)
    decreases k
  {
    if k > 0 {
      assert ws[1..][k - 1] == ws[k];
      WordAtMember(s, i, ws[1..], k - 1);
    }
  }

  /** `re.search` of the welding-narrative pattern succeeds. */
  predicate HasWeldingKeyword(s: string) {
    KeywordFrom(s, 0, WeldingKeywords)
  }

  /** The alternation: some word of the list matches at `i`. */
  lemma {:induction false} WordAtSome(s: string, i: nat, ws: seq<string>)
    ensures WordAt(s, i, ws) <==> exists k :: 0 <= k < |ws| && LitCI(s, i, ws[k]) && EndBoundary(s, i + |ws[k]|)
    decreases |ws|
  {
    if ws != [] {
      WordAtSome(s, i, ws[1..]);
      if WordAt(s, i, ws[1..]) {
        var k :| 0 <= k < |ws[1..]| && LitCI(s, i, ws[1..][k]) && EndBoundary(s, i + |ws[1..][k]|);
        assert ws[k + 1] == ws[1..][k];
      }
      if exists k :: 0 <= k < |ws| && LitCI(s, i, ws[k]) && EndBoundary(s, i + |ws[k]|) {
        var k :| 0 <= k < |ws| && LitCI(s, i, ws[k]) && EndBoundary(s, i + |ws[k]|);
        if k > 0 {
          assert ws[1..][k - 1] == ws[k];
        }
      }
    }
  }

  /** The scan from `i` succeeds exactly when the pattern matches at some position from
      `i` on. */
  lemma {:induction false} KeywordFromSome(s: string, i: nat, ws: seq<string>)
    requires i <= |s|
    ensures KeywordFrom(s, i, ws) <==> exists j :: i <= j <= |s| && KeywordAt(s, j, ws)
    decreases |s| - i
  {
    if i < |s| {
      KeywordFromSome(s, i + 1, ws);
      if KeywordFrom(s, i + 1, ws) {
        var j :| i + 1 <= j <= |s| && KeywordAt(s, j, ws);
        assert i <= j;
      }
      if exists j :: i <= j <= |s| && KeywordAt(s, j, ws) {
        var j :| i <= j <= |s| && KeywordAt(s, j, ws);
        assert j == i || (i + 1 <= j && KeywordFrom(s, i + 1, ws));
      }
    }
  }

  /** `re.search` succeeds exactly when a welding word stands as a whole word somewhere. */
  lemma HasWeldingKeywordSome(s: string)
    ensures HasWeldingKeyword(s) <==> exists j :: 0 <= j <= |s| && KeywordAt(s, j, WeldingKeywords)
  {
    KeywordFromSome(s, 0, WeldingKeywords);
  }

  /** A text that opens with the word "Continuous", such as "Continuous weld, grind smooth
      at corners", reads as a welding sentence. */
  lemma ContinuousWeldSentence(s: string)
    requires |s| > 10 && s[..11] == "Continuous "
    ensures HasWeldingKeyword(s)
  {
    ContinuousAtStart(s);
    assert WeldingKeywords[7] == "continuous";
    WordAtMember(s, 0, WeldingKeywords, 7);
    assert KeywordAt(s, 0, WeldingKeywords);
  }

  /** A word whose letters each match, ignoring case, occurs at `i`. */
  lemma {:induction false} LitCIFrom(s: string, i: nat, w: string)
    requires i + |w| <= |s|
    requires forall k :: 0 <= k < |w| ==> LowerChar(s[i + k]) == w[k]
    ensures LitCI(s, i, w)
    decreases |w|
  {
    if w != [] {
      assert LowerChar(s[i + 0]) == w[0];
      forall k | 0 <= k < |w[1..]|
        ensures LowerChar(s[i + 1 + k]) == w[1..][k]
      {
        assert LowerChar(s[i + (k + 1)]) == w[k + 1];
      }
      LitCIFrom(s, i + 1, w[1..]);
    }
  }

  /** The word "continuous" stands at the start of a text that begins with "Continuous ". */
  lemma ContinuousAtStart(s: string)
    requires |s| > 10 && s[..11] == "Continuous "
    ensures LitCI(s, 0, "continuous") && EndBoundary(s, 10)
  {
    ContinuousLetters(s);
    LitCIFrom(s, 0, "continuous");
  }

  /** The letters of "Continuous ", lower-cased, spell "continuous". */
  lemma ContinuousLetters(s: string)
    requires |s| > 10 && s[..11] == "Continuous "
    ensures forall k :: 0 <= k < 10 ==> LowerChar(s[k]) == "continuous"[k]
    ensures s[10] == ' '
  {
    forall k | 0 <= k < 11
      ensures s[k] == "Continuous "[k]
    {
      assert s[k] == s[..11][k];
    }
  }

  // ---------------------------------------------------------------------------
  // Keyword phrases of _extract_booleans, searched in the lower-cased text
  // ---------------------------------------------------------------------------

  /** The alternatives of the break-sharp-edges pattern. */
  const BreakEdgesPhrases: seq<string> :=
    ["break sharp edges", "scherpe kanten breken", "deburr edges", "remove sharp edges"]

  /** The alternatives of the grooves pattern; `seegerring-?groeven` spelt out both ways. */
  const GroovesSharpPhrases: seq<string> :=
    ["retaining ring grooves sharp", "seegerring-groeven scherp", "seegerringgroeven scherp", "keep ring grooves sharp"]

  /** `re.search` of an alternation of plain phrases succeeds in `lt`. */
  predicate MentionsAny(lt: string, phrases: seq<string>) {
    exists p | p in phrases :: Contains(lt, p)
  }

  // ---------------------------------------------------------------------------
  // Drawing number and revision labels, in any case, each followed by an optional
  // colon or dash and the token after it
  // ---------------------------------------------------------------------------

  datatype Label = DrawingLabel | RevisionLabel

  /** The captured character class: the drawing number also admits '/'. */
  predicate TokenChar(c: char, kind: Label) {
    IsWordChar(c) || c == '-' || c == '.' || (kind == DrawingLabel && c == '/')
  }

  lemma TokenCharNotSpace(c: char, kind: Label)
    requires TokenChar(c, kind)
    ensures !IsSpace(c)
  {
  }

  /** End of the run of token characters starting at `i`. */
  function TokenEnd(s: string, i: nat, kind: Label): (j: nat)
    requires i <= |s|
    ensures i <= j <= |s|
    ensures forall k :: i <= k < j ==> TokenChar(s[k], kind)
    ensures j < |s| ==> !TokenChar(s[j], kind)
    decreases |s| - i
  {
    if i < |s| && TokenChar(s[i], kind) then TokenEnd(s, i + 1, kind) else i
  }

  /** A captured token: a non-empty, maximal run of token characters. */
  predicate IsToken(s: string, a: nat, b: nat, kind: Label) {
    a < b <= |s| && (forall k :: a <= k < b ==> TokenChar(s[k], kind)) && (b < |s| ==> !TokenChar(s[b], kind))
  }

  /** `\s*[:\-]?\s*(token+)` after a label ending at `e`, with the backtracking the
      regex does: when nothing follows a '-' taken as the separator, the '-' itself
      is captured. */
  function TailToken(s: string, e: nat, kind: Label): (r: Option<(nat, nat)>)
    requires e <= |s|
    ensures r.Some? ==> e <= r.value.0 && IsToken(s, r.value.0, r.value.1, kind)
  {
    var a := SkipSpaces(s, e);
    if a < |s| && (s[a] == ':' || s[a] == '-') then
      var c := SkipSpaces(s, a + 1);
      if c < |s| && TokenChar(s[c], kind) then Some((c, TokenEnd(s, c, kind)))
      else if s[a] == '-' then Some((a, TokenEnd(s, a, kind)))
      else None
    else if a < |s| && TokenChar(s[a], kind) then Some((a, TokenEnd(s, a, kind)))
    else None
  }

  /** A match of the label pattern that starts at `i`, as the captured (start, end). */
  function LabelAt(s: string, i: nat, kind: Label): (r: Option<(nat, nat)>)
    requires i <= |s|
    ensures r.Some? ==> i < r.value.0 && IsToken(s, r.value.0, r.value.1, kind)
  {
    match kind
    case DrawingLabel =>
      if LitCI(s, i, "drawing") then
        var a := SkipSpaces(s, i + 7);
        if LitCI(s, a, "number") then TailToken(s, a + 6, kind) else None
      else if LitCI(s, i, "tekening") then
        var a := SkipSpaces(s, i + 8);
        var withNummer := if LitCI(s, a, "nummer") then TailToken(s, a + 6, kind) else None;
        if withNummer.Some? then withNummer else TailToken(s, i + 8, kind)
      else None
    case RevisionLabel =>
      if LitCI(s, i, "rev") then
        var withIsion := if LitCI(s, i + 3, "ision") then TailToken(s, i + 8, kind) else None;
        var short := TailToken(s, i + 3, kind);
        if withIsion.Some? then withIsion
        else if short.Some? then short
        else if LitCI(s, i, "revisie") then TailToken(s, i + 7, kind)
        else None
      else None
  }

  /** `re.search` of the label pattern from `i` on: where the leftmost match starts. */
  function FindLabelFrom(s: string, i: nat, kind: Label): (r: Option<nat>)
    requires i <= |s|
    ensures r.Some? ==> i <= r.value <= |s| && LabelAt(s, r.value, kind).Some?
    decreases |s| - i
  {
    if LabelAt(s, i, kind).Some? then Some(i)
    else if i == |s| then None
    else FindLabelFrom(s, i + 1, kind)
  }

  /** The search finds the leftmost match: none starts between `i` and the one found, and
      none at all when it finds nothing. */
  lemma {:induction false} FindLabelFromLeftmost(s: string, i: nat, kind: Label)
    requires i <= |s|
    ensures var r := FindLabelFrom(s, i, kind);
      forall m :: i <= m < (if r.Some? then r.value else |s| + 1) ==> LabelAt(s, m, kind).None?
    decreases |s| - i
  {
    if LabelAt(s, i, kind).None? && i < |s| {
      var r := FindLabelFrom(s, i + 1, kind);
      var bound := if r.Some? then r.value else |s| + 1;
      FindLabelFromLeftmost(s, i + 1, kind);
      assert forall m :: i < m < bound ==> LabelAt(s, m, kind).None?;
      assert FindLabelFrom(s, i, kind) == r;
    }
  }

  /** `m.group(1).strip()` of the first label match in `s`, if any: a non-empty run of
      token characters. */
  function LabelledToken(s: string, kind: Label): (r: Option<string>)
    ensures r.Some? ==> r.value != [] && forall c :: c in r.value ==> TokenChar(c, kind)
    ensures r.None? <==> forall m :: 0 <= m <= |s| ==> LabelAt(s, m, kind).None?
  {
    FindLabelFromLeftmost(s, 0, kind);
    match FindLabelFrom(s, 0, kind)
    case Some(j) =>
      var (a, b) := LabelAt(s, j, kind).value;
      var t := s[a..b];
      assert forall c :: c in t ==> TokenChar(c, kind);
      TokenCharNotSpace(t[0], kind);
      TokenCharNotSpace(t[|t| - 1], kind);
      StripNoop(t);
      Some(Strip(t))
    case None => None
  }
}
