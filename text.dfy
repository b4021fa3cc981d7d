/** The parts of Python's `str` that the extractor relies on: whitespace as
    `str.isspace()` defines it (which is also what `\s` matches and what
    `strip()` removes), ASCII case mapping, stripping, whitespace collapsing,
    substring search, `join` and `split`. */
module Text {

  datatype Option<+T> = None | Some(value: T)

  /** Python's `str.isspace()`. */
  predicate IsSpace(c: char) {
    || c == ' '
    || ('\t' <= c <= '\r')
    || ('\U{1C}' <= c <= '\U{1F}')
    || c == '\U{85}' || c == '\U{A0}' || c == '\U{1680}'
    || ('\U{2000}' <= c <= '\U{200A}')
    || c == '\U{2028}' || c == '\U{2029}' || c == '\U{202F}' || c == '\U{205F}' || c == '\U{3000}'
  }

  predicate IsDigit(c: char) { '0' <= c <= '9' }

  predicate IsAsciiLetter(c: char) { 'a' <= c <= 'z' || 'A' <= c <= 'Z' }

  /** A word character for `\b`, taken as `[A-Za-z0-9_]`. */
  predicate IsWordChar(c: char) { IsAsciiLetter(c) || IsDigit(c) || c == '_' }

  function LowerChar(c: char): (r: char)
    ensures IsAsciiLetter(c) ==> 'a' <= r <= 'z'
    ensures !('A' <= c <= 'Z') ==> r == c
  {
    if 'A' <= c <= 'Z' then (c as int + 32) as char else c
  }

  function UpperChar(c: char): (r: char)
    ensures IsAsciiLetter(c) ==> 'A' <= r <= 'Z'
    ensures !('a' <= c <= 'z') ==> r == c
  {
    if 'a' <= c <= 'z' then (c as int - 32) as char else c
  }

  /** `s.lower()` with ASCII case mapping. */
  function Lower(s: string): (r: string)
    ensures |r| == |s|
    ensures forall i :: 0 <= i < |s| ==> r[i] == LowerChar(s[i])
  {
    seq(|s|, i requires 0 <= i < |s| => LowerChar(s[i]))
  }

  /** `s.upper()` with ASCII case mapping. */
  function Upper(s: string): (r: string)
    ensures |r| == |s|
    ensures forall i :: 0 <= i < |s| ==> r[i] == UpperChar(s[i])
  {
    seq(|s|, i requires 0 <= i < |s| => UpperChar(s[i]))
  }

  predicate IsLower(s: string) {
    forall i :: 0 <= i < |s| ==> !('A' <= s[i] <= 'Z')
  }

  /** Lower-casing gives a lower-case string and is idempotent. */
  lemma LowerIsLower(s: string)
    ensures IsLower(Lower(s))
    ensures Lower(Lower(s)) == Lower(s)
  {
  }

  /** Lower-casing keeps a non-space character non-space. */
  lemma LowerKeepsEnds(s: string)
    requires s != [] && !IsSpace(s[0]) && !IsSpace(s[|s| - 1])
    ensures !IsSpace(Lower(s)[0]) && !IsSpace(Lower(s)[|s| - 1])
  {
  }

  /** A string already in lower case is its own lower-casing. */
  lemma LowerNoop(s: string)
    requires IsLower(s)
    ensures Lower(s) == s
  {
  }

  /** `s.replace(a, b)` for single characters. */
  function ReplaceChar(s: string, a: char, b: char): (r: string)
    ensures |r| == |s|
    ensures forall i :: 0 <= i < |s| ==> r[i] == (if s[i] == a then b else s[i])
  {
    seq(|s|, i requires 0 <= i < |s| => if s[i] == a then b else s[i])
  }

  /** `s.replace(c, "")` for a single character: `s` with every `c` deleted. */
  function RemoveChar(s: string, c: char): (r: string)
    ensures multiset(r) == multiset(s)[c := 0]
    ensures |r| <= |s|
  {
    if s == [] then []
    else
      var rest := RemoveChar(s[1..], c);
      assert s == [s[0]] + s[1..];
      if s[0] == c then rest else [s[0]] + rest
  }

  /** Deleting a character from a concatenation deletes it from each part, so the kept
      characters stay in their order. */
  lemma {:induction false} RemoveCharAppend(a: string, b: string, c: char)
    ensures RemoveChar(a + b, c) == RemoveChar(a, c) + RemoveChar(b, c)
    decreases |a|
  {
    if a != [] {
      RemoveCharAppend(a[1..], b, c);
      var x, y := RemoveChar(a[1..], c), RemoveChar(b, c);
      assert (a + b)[0] == a[0] && (a + b)[1..] == a[1..] + b;
      if a[0] != c {
        assert [a[0]] + (x + y) == ([a[0]] + x) + y;
      }
    } else {
      assert a + b == b;
    }
  }

  /** One character is deleted when it is `c` and kept otherwise. */
  lemma RemoveCharOne(x: char, c: char)
    ensures RemoveChar([x], c) == if x == c then [] else [x]
  {
  }

  /** Number of leading characters of `s` that `drop` accepts. */
  function LeadCount(s: string, drop: char -> bool): (n: nat)
    ensures n <= |s|
    ensures forall i :: 0 <= i < n ==> drop(s[i])
    ensures n < |s| ==> !drop(s[n])
  {
    if s == [] || !drop(s[0]) then 0 else 1 + LeadCount(s[1..], drop)
  }

  /** The leading run `LeadCount` measures is made of accepted characters. */
  lemma LeadRun(s: string, drop: char -> bool)
    ensures AllChars(s[..LeadCount(s, drop)], drop)
  {
    var h := s[..LeadCount(s, drop)];
    assert forall i :: 0 <= i < |h| ==> h[i] == s[i];
  }

  /** Number of trailing characters of `s` that `drop` accepts. */
  function TrailCount(s: string, drop: char -> bool): (n: nat)
    ensures n <= |s|
    ensures forall i :: |s| - n <= i < |s| ==> drop(s[i])
    ensures n < |s| ==> !drop(s[|s| - n - 1])
  {
    if s == [] || !drop(s[|s| - 1]) then 0 else 1 + TrailCount(s[..|s| - 1], drop)
  }

  /** Removes the characters `drop` accepts from both ends, as `str.strip` does. */
  function StripWhere(s: string, drop: char -> bool): (r: string)
    ensures |r| <= |s|
    ensures r != [] ==> !drop(r[0]) && !drop(r[|r| - 1])
    ensures r == [] <==> forall i :: 0 <= i < |s| ==> drop(s[i])
  {
    var a := LeadCount(s, drop);
    var rest := s[a..];
    rest[..|rest| - TrailCount(rest, drop)]
  }

  /** `strip(chars)` cuts off stripped characters only: the result occurs in `s` with
      nothing but stripped characters before and after it. */
  lemma StripWhereCut(s: string, drop: char -> bool)
    ensures var r := StripWhere(s, drop);
      exists a :: OccursAt(s, r, a) && AllChars(s[..a], drop) && AllChars(s[a + |r|..], drop)
  {
    StripWherePiece(s, drop);
  }

  /** The piece `StripWhere` keeps sits at the end of the leading run, and what follows it
      is the trailing run. */
  lemma StripWherePiece(s: string, drop: char -> bool)
    ensures var a := LeadCount(s, drop);
      var rest := s[a..];
      var r := rest[..|rest| - TrailCount(rest, drop)];
      OccursAt(s, r, a) && AllChars(s[..a], drop) && AllChars(s[a + |r|..], drop)
  {
    var a := LeadCount(s, drop);
    var rest := s[a..];
    var t := TrailCount(rest, drop);
    var r := rest[..|rest| - t];
    assert OccursAt(s, r, a);
    LeadRun(s, drop);
    assert AllChars(s[a + |r|..], drop) by {
      var suffix := s[a + |r|..];
      assert forall i :: 0 <= i < |suffix| ==> suffix[i] == rest[|r| + i];
    }
  }

  /** `s.strip()`. */
  function Strip(s: string): (r: string)
    ensures |r| <= |s|
    ensures r != [] ==> !IsSpace(r[0]) && !IsSpace(r[|r| - 1])
    ensures r == [] <==> forall i :: 0 <= i < |s| ==> IsSpace(s[i])
  {
    StripWhere(s, IsSpace)
  }

  /** `strip()` cuts off whitespace only: the result occurs in `s` with nothing but
      whitespace before and after it. */
  lemma StripCut(s: string)
    ensures var r := Strip(s);
      exists a :: OccursAt(s, r, a) && AllChars(s[..a], IsSpace) && AllChars(s[a + |r|..], IsSpace)
  {
    StripWhereCut(s, IsSpace);
  }

  /** Trimming twice is trimming once. */
  lemma StripIdempotent(s: string)
    ensures Strip(Strip(s)) == Strip(s)
  {
    var r := Strip(s);
    if r != [] {
      assert LeadCount(r, IsSpace) == 0;
      assert TrailCount(r, IsSpace) == 0;
    }
  }

  /** A string with no space character at either end is its own strip. */
  lemma StripNoop(s: string)
    requires s != [] ==> !IsSpace(s[0]) && !IsSpace(s[|s| - 1])
    ensures Strip(s) == s
  {
    if s != [] {
      assert LeadCount(s, IsSpace) == 0;
      assert TrailCount(s, IsSpace) == 0;
    }
  }

  /** `re.sub(r"\s+", " ", s)`: every maximal run of space characters becomes one blank. */
  function CollapseSpaces(s: string): (r: string)
    ensures forall i :: 0 <= i < |r| && IsSpace(r[i]) ==> r[i] == ' '
    ensures forall i, j :: 0 <= i < j < |r| && j == i + 1 ==> !(IsSpace(r[i]) && IsSpace(r[j]))
    ensures |r| <= |s|
    ensures r == [] <==> s == []
    ensures s != [] && IsSpace(s[0]) <==> r != [] && IsSpace(r[0])
    ensures s != [] && IsSpace(s[|s| - 1]) <==> r != [] && IsSpace(r[|r| - 1])
    decreases |s|
  {
    if s == [] then []
    else if IsSpace(s[0]) then
      var n := LeadCount(s, IsSpace);
      " " + CollapseSpaces(s[n..])
    else [s[0]] + CollapseSpaces(s[1..])
  }

  /** Collapsing whitespace keeps every other character, in order. */
  lemma {:induction false} CollapseNonSpaces(s: string)
    ensures NonSpaces(CollapseSpaces(s)) == NonSpaces(s)
    decreases |s|
  {
    if s != [] {
      if IsSpace(s[0]) {
        CollapseNonSpaces(s[LeadCount(s, IsSpace)..]);
        CollapseRunNonSpaces(s);
      } else {
        CollapseNonSpaces(s[1..]);
        CollapseCharNonSpaces(s);
      }
    }
  }

  /** The step of `CollapseNonSpaces` over a leading run of whitespace. */
  lemma CollapseRunNonSpaces(s: string)
    requires s != [] && IsSpace(s[0])
    requires var n := LeadCount(s, IsSpace); NonSpaces(CollapseSpaces(s[n..])) == NonSpaces(s[n..])
    ensures NonSpaces(CollapseSpaces(s)) == NonSpaces(s)
  {
    var n := LeadCount(s, IsSpace);
    var rest := CollapseSpaces(s[n..]);
    assert NonSpaces(CollapseSpaces(s)) == NonSpaces(rest) by {
      assert CollapseSpaces(s) == " " + rest;
      NonSpacesAppend(" ", rest);
      assert NonSpaces(" ") == [];
    }
    assert NonSpaces(s[..n]) == [] by {
      LeadRun(s, IsSpace);
      NonSpacesOfSpaces(s[..n]);
    }
    NonSpacesDropHead(s, n);
  }

  /** The step of `CollapseNonSpaces` over a leading character that is not whitespace. */
  lemma CollapseCharNonSpaces(s: string)
    requires s != [] && !IsSpace(s[0])
    requires NonSpaces(CollapseSpaces(s[1..])) == NonSpaces(s[1..])
    ensures NonSpaces(CollapseSpaces(s)) == NonSpaces(s)
  {
    var rest := CollapseSpaces(s[1..]);
    assert CollapseSpaces(s) == [s[0]] + rest;
    assert ([s[0]] + rest)[0] == s[0] && ([s[0]] + rest)[1..] == rest;
  }

  /** The characters of `s` that are not whitespace, in order. */
  function NonSpaces(s: string): (r: string)
    ensures |r| <= |s|
    decreases |s|
  {
    if s == [] then [] else (if IsSpace(s[0]) then [] else [s[0]]) + NonSpaces(s[1..])
  }

  /** The non-whitespace characters of a concatenation are those of its parts. */
  lemma {:induction false} NonSpacesAppend(a: string, b: string)
    ensures NonSpaces(a + b) == NonSpaces(a) + NonSpaces(b)
    decreases |a|
  {
    if a != [] {
      var ab := a + b;
      assert ab[0] == a[0] && ab[1..] == a[1..] + b;
      NonSpacesAppend(a[1..], b);
      var h := if IsSpace(a[0]) then [] else [a[0]];
      assert NonSpaces(ab) == h + NonSpaces(a[1..] + b);
      assert NonSpaces(a) == h + NonSpaces(a[1..]);
    } else {
      assert a + b == b;
    }
  }

  /** A run of whitespace has no non-whitespace characters. */
  lemma {:induction false} NonSpacesOfSpaces(s: string)
    requires AllChars(s, IsSpace)
    ensures NonSpaces(s) == []
    decreases |s|
  {
    if s != [] {
      assert AllChars(s[1..], IsSpace) by {
        assert forall i :: 0 <= i < |s| - 1 ==> s[1..][i] == s[i + 1];
      }
      NonSpacesOfSpaces(s[1..]);
    }
  }

  /** Trimming removes only whitespace: the other characters stay, in order. */
  lemma StripNonSpaces(s: string)
    ensures NonSpaces(Strip(s)) == NonSpaces(s)
  {
    var r := Strip(s);
    StripCut(s);
    var a :| OccursAt(s, r, a) && AllChars(s[..a], IsSpace) && AllChars(s[a + |r|..], IsSpace);
    assert NonSpaces(s[..a]) == [] by { NonSpacesOfSpaces(s[..a]); }
    assert NonSpaces(s[a + |r|..]) == [] by { NonSpacesOfSpaces(s[a + |r|..]); }
    NonSpacesPieceAt(s, r, a);
  }

  /** `NonSpacesPiece` for a piece given by where it occurs. */
  lemma NonSpacesPieceAt(s: string, r: string, a: nat)
    requires OccursAt(s, r, a)
    requires NonSpaces(s[..a]) == [] && NonSpaces(s[a + |r|..]) == []
    ensures NonSpaces(r) == NonSpaces(s)
  {
    NonSpacesPiece(s, a, a + |r|);
    assert s[a..a + |r|] == r;
  }

  /** Trimming a string whose whitespace is single ' ' characters leaves it so. */
  lemma StripSingleSpaces(s: string)
    requires forall i :: 0 <= i < |s| && IsSpace(s[i]) ==> s[i] == ' '
    requires forall i, j :: 0 <= i < j < |s| && j == i + 1 ==> !(IsSpace(s[i]) && IsSpace(s[j]))
    ensures Tidied(Strip(s))
  {
    var r := Strip(s);
    StripCut(s);
    var a :| OccursAt(s, r, a);
    PieceSingleSpaces(s, r, a);
  }

  /** A piece of a string whose whitespace is single ' ' characters is such a string. */
  lemma PieceSingleSpaces(s: string, r: string, a: nat)
    requires OccursAt(s, r, a)
    requires forall i :: 0 <= i < |s| && IsSpace(s[i]) ==> s[i] == ' '
    requires forall i, j :: 0 <= i < j < |s| && j == i + 1 ==> !(IsSpace(s[i]) && IsSpace(s[j]))
    ensures forall i :: 0 <= i < |r| && IsSpace(r[i]) ==> r[i] == ' '
    ensures forall i, j :: 0 <= i < j < |r| && j == i + 1 ==> !(IsSpace(r[i]) && IsSpace(r[j]))
  {
    assert forall i :: 0 <= i < |r| ==> r[i] == s[a + i];
  }

  /** Text as `re.sub(r"\s+", " ", s).strip()` leaves it: no whitespace at the ends, and
      every whitespace character a single ' ' with no whitespace next to it. */
  ghost predicate Tidied(r: string) {
    && (r != [] ==> !IsSpace(r[0]) && !IsSpace(r[|r| - 1]))
    && (forall i :: 0 <= i < |r| && IsSpace(r[i]) ==> r[i] == ' ')
    && (forall i, j :: 0 <= i < j < |r| && j == i + 1 ==> !(IsSpace(r[i]) && IsSpace(r[j])))
  }

  /** `re.sub(r"\s+", " ", s).strip()` is tidied text that keeps the other characters of
      `s` in their order. */
  lemma CollapseStrip(s: string)
    ensures var r := Strip(CollapseSpaces(s));
      Tidied(r) && NonSpaces(r) == NonSpaces(s)
  {
    var c := CollapseSpaces(s);
    StripSingleSpaces(c);
    StripNonSpaces(c);
    CollapseNonSpaces(s);
  }

  /** `re.sub(r"\s+", " ", s).strip()`. */
  function Tidy(s: string): (r: string)
    ensures Tidied(r)
    ensures NonSpaces(r) == NonSpaces(s)
  {
    CollapseStrip(s);
    Strip(CollapseSpaces(s))
  }

  /** Text without whitespace is left as it is by the collapse. */
  lemma {:induction false} CollapseNoSpaces(s: string)
    requires forall i :: 0 <= i < |s| ==> !IsSpace(s[i])
    ensures CollapseSpaces(s) == s
    decreases |s|
  {
    if s != [] {
      var t := s[1..];
      forall i | 0 <= i < |t|
        ensures !IsSpace(t[i])
      {
        assert t[i] == s[i + 1];
      }
      CollapseNoSpaces(t);
      assert CollapseSpaces(s) == [s[0]] + CollapseSpaces(t);
      assert [s[0]] + t == s;
    }
  }

  /** A leading run that stops inside `u` stops at the same place in `u + v`. */
  lemma {:induction false} LeadCountAppend(u: string, v: string, drop: char -> bool)
    requires LeadCount(u, drop) < |u|
    ensures LeadCount(u + v, drop) == LeadCount(u, drop)
    decreases |u|
  {
    ConcatHeadTail(u, v);
    if drop(u[0]) {
      LeadCountAppend(u[1..], v, drop);
    }
  }

  /** A trailing run that stops inside `v` stops at the same place in `u + v`. */
  lemma {:induction false} TrailCountPrepend(u: string, v: string, drop: char -> bool)
    requires TrailCount(v, drop) < |v|
    ensures TrailCount(u + v, drop) == TrailCount(v, drop)
    decreases |v|
  {
    var s := u + v;
    assert s[|s| - 1] == v[|v| - 1];
    if drop(v[|v| - 1]) {
      assert s[..|s| - 1] == u + v[..|v| - 1];
      TrailCountPrepend(u, v[..|v| - 1], drop);
    }
  }

  /** The leading run of `w + b` is all of `w` when `w` is made of accepted characters
      and `b` does not start with one. */
  lemma {:induction false} LeadCountRun(w: string, b: string, drop: char -> bool)
    requires forall i :: 0 <= i < |w| ==> drop(w[i])
    requires b != [] ==> !drop(b[0])
    ensures LeadCount(w + b, drop) == |w|
    decreases |w|
  {
    if w == [] {
      assert w + b == b;
    } else {
      ConcatHeadTail(w, b);
      assert forall i :: 0 <= i < |w| - 1 ==> w[1..][i] == w[i + 1];
      LeadCountRun(w[1..], b, drop);
    }
  }

  /** After a piece that ends in a non-whitespace character, the collapse starts afresh. */
  lemma {:induction false} CollapseAppend(a: string, b: string)
    requires a != [] ==> !IsSpace(a[|a| - 1])
    ensures CollapseSpaces(a + b) == CollapseSpaces(a) + CollapseSpaces(b)
    decreases |a|
  {
    if a == [] {
      assert a + b == b;
    } else {
      ConcatHeadTail(a, b);
      var n := if IsSpace(a[0]) then LeadCount(a, IsSpace) else 1;
      var h := if IsSpace(a[0]) then " " else [a[0]];
      if IsSpace(a[0]) {
        LeadCountAppend(a, b, IsSpace);
        assert (a + b)[n..] == a[n..] + b;
      }
      assert CollapseSpaces(a + b) == h + CollapseSpaces(a[n..] + b);
      assert CollapseSpaces(a) == h + CollapseSpaces(a[n..]);
      CollapseAppend(a[n..], b);
      ConcatRegroup(CollapseSpaces(a + b), CollapseSpaces(a), h, CollapseSpaces(a[n..]), CollapseSpaces(b));
    }
  }

  /** `re.sub(r"\s+", " ", s)` turns a whitespace run between two pieces into one blank:
      the run neither vanishes nor survives longer. */
  lemma CollapseRun(a: string, w: string, b: string)
    requires a != [] ==> !IsSpace(a[|a| - 1])
    requires w != [] && forall i :: 0 <= i < |w| ==> IsSpace(w[i])
    requires b != [] ==> !IsSpace(b[0])
    ensures CollapseSpaces(a + w + b) == CollapseSpaces(a) + " " + CollapseSpaces(b)
  {
    var t := w + b;
    assert a + w + b == a + t;
    CollapseLeadRun(w, b);
    CollapseAppend(a, t);
    ConcatSplice(CollapseSpaces(a + t), CollapseSpaces(a), CollapseSpaces(t), " ", CollapseSpaces(b));
  }

  /** A leading whitespace run becomes one blank before the collapse of the rest. */
  lemma CollapseLeadRun(w: string, b: string)
    requires w != [] && forall i :: 0 <= i < |w| ==> IsSpace(w[i])
    requires b != [] ==> !IsSpace(b[0])
    ensures CollapseSpaces(w + b) == " " + CollapseSpaces(b)
  {
    var t := w + b;
    LeadCountRun(w, b, IsSpace);
    assert t[0] == w[0];
    assert t[|w|..] == b;
  }

  /** Cutting the ends off two pieces joined by a blank cuts the outer ends only. */
  lemma {:induction false} StripJoin(x: string, y: string)
    requires x != [] && !IsSpace(x[|x| - 1])
    requires y != [] && !IsSpace(y[0])
    ensures Strip(x + " " + y) == Strip(x) + " " + Strip(y)
  {
    StripWhereJoin(x, " ", y, IsSpace);
  }

  /** `strip(chars)` of `x + m + y` cuts only into `x` and `y` when each of them holds a
      kept character at its inner end. */
  lemma {:induction false} StripWhereJoin(x: string, m: string, y: string, drop: char -> bool)
    requires x != [] && !drop(x[|x| - 1])
    requires y != [] && !drop(y[0])
    ensures StripWhere(x + m + y, drop) == StripWhere(x, drop) + m + StripWhere(y, drop)
  {
    var p := LeadCount(x, drop);
    var q := TrailCount(y, drop);
    StripWhereWhole(x, m, y, drop);
    StripWhereLeft(x, drop);
    StripWhereRight(y, drop);
    SliceJoin(x, m, y, p, q);
  }

  /** The strip of `x + m + y` cuts the leading run of `x` and the trailing run of `y`. */
  lemma {:induction false} StripWhereWhole(x: string, m: string, y: string, drop: char -> bool)
    requires x != [] && !drop(x[|x| - 1])
    requires y != [] && !drop(y[0])
    ensures var s := x + m + y;
      StripWhere(s, drop) == s[LeadCount(x, drop)..|s| - TrailCount(y, drop)]
  {
    var p := LeadCount(x, drop);
    var s := x + m + y;
    assert s == x + (m + y);
    LeadCountAppend(x, m + y, drop);
    SliceJoin(x, m, y, p, 0);
    assert s[p..] == (x[p..] + m) + y;
    TrailCountPrepend(x[p..] + m, y, drop);
    StripWhereAt(s, drop, p, TrailCount(y, drop));
  }

  /** A piece ending in a kept character loses only its leading run. */
  lemma {:induction false} StripWhereLeft(x: string, drop: char -> bool)
    requires x != [] && !drop(x[|x| - 1])
    ensures StripWhere(x, drop) == x[LeadCount(x, drop)..]
  {
    var p := LeadCount(x, drop);
    assert x[p..] != [] && x[p..][|x[p..]| - 1] == x[|x| - 1];
    StripWhereAt(x, drop, p, 0);
    assert x[p..|x| - 0] == x[p..];
  }

  /** A piece starting with a kept character loses only its trailing run. */
  lemma {:induction false} StripWhereRight(y: string, drop: char -> bool)
    requires y != [] && !drop(y[0])
    ensures StripWhere(y, drop) == y[..|y| - TrailCount(y, drop)]
  {
    var q := TrailCount(y, drop);
    assert y[0..] == y;
    StripWhereAt(y, drop, 0, q);
    assert y[0..|y| - q] == y[..|y| - q];
  }

  /** `strip(chars)` in terms of the lengths of the runs it cuts off. */
  lemma {:induction false} StripWhereAt(s: string, drop: char -> bool, p: nat, q: nat)
    requires p == LeadCount(s, drop)
    requires q == TrailCount(s[p..], drop)
    ensures p + q <= |s| && StripWhere(s, drop) == s[p..|s| - q]
  {
    SliceOfSuffix(s, p, |s| - q);
  }

  /** What `StripWhere` keeps: the rest after the leading run, less the trailing run. */
  lemma {:induction false} StripWhereCuts(s: string, drop: char -> bool)
    ensures var rest := s[LeadCount(s, drop)..];
      StripWhere(s, drop) == rest[..|rest| - TrailCount(rest, drop)]
  {
  }

  /** The middle of `x + m + y` once `p` characters of `x` and `q` of `y` are cut off. */
  lemma SliceJoin<T>(x: seq<T>, m: seq<T>, y: seq<T>, p: nat, q: nat)
    requires p <= |x| && q <= |y|
    ensures (x + m + y)[p..] == x[p..] + m + y
    ensures (x + m + y)[p..|x + m + y| - q] == x[p..] + m + y[..|y| - q]
  {
  }

  /** Tidied text joins two words with one blank, whatever whitespace run separated them. */
  lemma TidyRun(a: string, w: string, b: string)
    requires a != [] && !IsSpace(a[|a| - 1])
    requires w != [] && forall i :: 0 <= i < |w| ==> IsSpace(w[i])
    requires b != [] && !IsSpace(b[0])
    ensures Tidy(a + w + b) == Tidy(a) + " " + Tidy(b)
  {
    CollapseRun(a, w, b);
    StripJoin(CollapseSpaces(a), CollapseSpaces(b));
  }

  /** Text without whitespace is its own tidied form. */
  lemma TidyNoSpaces(s: string)
    requires forall i :: 0 <= i < |s| ==> !IsSpace(s[i])
    ensures Tidy(s) == s
  {
    CollapseNoSpaces(s);
    StripNoop(s);
  }

  /** A piece of `s` with nothing but whitespace cut off on either side has the
      non-whitespace characters of `s`. */
  lemma NonSpacesPiece(s: string, a: nat, b: nat)
    requires a <= b <= |s|
    requires NonSpaces(s[..a]) == [] && NonSpaces(s[b..]) == []
    ensures NonSpaces(s[a..b]) == NonSpaces(s)
  {
    var t := s[a..];
    NonSpacesDropHead(s, a);
    SliceOfSuffix(s, a, b);
    NonSpacesDropTail(t, b - a);
  }

  /** Slicing the suffix from `a` at `b - a` gives the pieces of `s` around `b`. */
  lemma SliceOfSuffix(s: string, a: nat, b: nat)
    requires a <= b <= |s|
    ensures s[a..][..b - a] == s[a..b] && s[a..][b - a..] == s[b..]
  {
  }

  /** Cutting off a prefix without non-whitespace keeps the non-whitespace characters. */
  lemma NonSpacesDropHead(s: string, k: nat)
    requires k <= |s| && NonSpaces(s[..k]) == []
    ensures NonSpaces(s[k..]) == NonSpaces(s)
  {
    NonSpacesSplit(s, k);
    assert [] + NonSpaces(s[k..]) == NonSpaces(s[k..]);
  }

  /** Cutting off a suffix without non-whitespace keeps the non-whitespace characters. */
  lemma NonSpacesDropTail(s: string, k: nat)
    requires k <= |s| && NonSpaces(s[k..]) == []
    ensures NonSpaces(s[..k]) == NonSpaces(s)
  {
    NonSpacesSplit(s, k);
    assert NonSpaces(s[..k]) + [] == NonSpaces(s[..k]);
  }

  /** The non-whitespace characters of `s` are those before `k`, then those after. */
  lemma NonSpacesSplit(s: string, k: nat)
    requires k <= |s|
    ensures NonSpaces(s) == NonSpaces(s[..k]) + NonSpaces(s[k..])
  {
    assert s == s[..k] + s[k..];
    NonSpacesAppend(s[..k], s[k..]);
  }

  /** `h + (x + y)` regrouped as `(h + x) + y`. */
  lemma ConcatRegroup<T>(p: seq<T>, q: seq<T>, h: seq<T>, x: seq<T>, y: seq<T>)
    requires p == h + (x + y) && q == h + x
    ensures p == q + y
  {
  }

  /** `x + y` with `y` spelled out as `h + z`. */
  lemma ConcatSplice<T>(p: seq<T>, x: seq<T>, y: seq<T>, h: seq<T>, z: seq<T>)
    requires p == x + y && y == h + z
    ensures p == x + h + z
  {
  }

  /** The head and the tail of a concatenation whose first part is not empty. */
  lemma ConcatHeadTail<T>(a: seq<T>, b: seq<T>)
    requires a != []
    ensures (a + b)[0] == a[0] && (a + b)[1..] == a[1..] + b
  {
  }

  /** Every character of `t` satisfies `p`. */
  predicate AllChars(t: string, p: char -> bool) {
    forall i :: 0 <= i < |t| ==> p(t[i])
  }

  /** `sub` occurs in `s` at position `i`. */
  predicate OccursAt(s: string, sub: string, i: int) {
    0 <= i && i + |sub| <= |s| && s[i..i + |sub|] == sub
  }

  /** `sub in s`, and also `re.search` of a pattern without special characters. */
  predicate Contains(s: string, sub: string) {
    exists i | 0 <= i <= |s| :: OccursAt(s, sub, i)
  }

  /** First position of `c` in `s`, as `s.find(c)`. */
  function IndexOf(s: string, c: char): (r: Option<nat>)
    ensures r.Some? ==> r.value < |s| && s[r.value] == c && c !in s[..r.value]
    ensures r.None? <==> c !in s
  {
    if s == [] then None
    else if s[0] == c then Some(0)
    else match IndexOf(s[1..], c)
      case None => None
      case Some(i) => assert s[1..][..i] == s[1..i + 1]; Some(i + 1)
  }

  /** Last position of `c` in `s`, as `s.rfind(c)`. */
  function LastIndexOf(s: string, c: char): (r: Option<nat>)
    ensures r.Some? ==> r.value < |s| && s[r.value] == c && c !in s[r.value + 1..]
    ensures r.None? <==> c !in s
  {
    if s == [] then None
    else if s[|s| - 1] == c then Some(|s| - 1)
    else
      assert s == s[..|s| - 1] + [s[|s| - 1]];
      match LastIndexOf(s[..|s| - 1], c)
      case None => None
      case Some(i) => assert s[i + 1..] == s[..|s| - 1][i + 1..] + [s[|s| - 1]]; Some(i)
  }

  /** `sep.join(parts)`. */
  function Join(parts: seq<string>, sep: string): (r: string)
    ensures parts == [] ==> r == ""
    ensures |parts| == 1 ==> r == parts[0]
  {
    if parts == [] then ""
    else if |parts| == 1 then parts[0]
    else parts[0] + sep + Join(parts[1..], sep)
  }

  /** One more part is joined on with one more separator. */
  lemma {:induction false} JoinAppend(parts: seq<string>, p: string, sep: string)
    requires parts != []
    ensures Join(parts + [p], sep) == Join(parts, sep) + sep + p
    decreases |parts|
  {
    if |parts| > 1 {
      assert (parts + [p])[1..] == parts[1..] + [p];
      JoinAppend(parts[1..], p, sep);
    }
  }

  /** `s.split(sep)` for a one-character separator: the pieces between the separators. */
  function Split(s: string, sep: char): (parts: seq<string>)
    ensures |parts| >= 1
    ensures sep !in s ==> parts == [s]
    decreases |s|
  {
    match IndexOf(s, sep)
    case None => [s]
    case Some(i) => [s[..i]] + Split(s[i + 1..], sep)
  }

  /** No piece of a split contains the separator. */
  lemma {:induction false} SplitPiecesFree(s: string, sep: char)
    ensures forall p :: p in Split(s, sep) ==> sep !in p
    decreases |s|
  {
    match IndexOf(s, sep)
    case None =>
    case Some(i) => SplitPiecesFree(s[i + 1..], sep);
  }

  /** Joining the pieces of a split with the separator gives back the string. */
  lemma {:induction false} JoinSplit(s: string, sep: char)
    ensures Join(Split(s, sep), [sep]) == s
    decreases |s|
  {
    match IndexOf(s, sep)
    case None =>
    case Some(i) =>
      var tail := s[i + 1..];
      var rest := Split(tail, sep);
      var parts := [s[..i]] + rest;
      JoinSplit(tail, sep);
      assert Split(s, sep) == parts;
      assert parts[1..] == rest;
      assert Join(parts, [sep]) == s[..i] + [sep] + Join(rest, [sep]);
      Around(s, i);
  }

  /** A string is what comes before a position, the character there and what follows. */
  lemma Around(s: string, i: nat)
    requires i < |s|
    ensures s == s[..i] + [s[i]] + s[i + 1..]
  {
  }

  /** The first position of `c` is the one position holding `c` with no `c` before it. */
  lemma IndexOfAt(s: string, c: char, k: nat)
    requires k < |s| && s[k] == c && c !in s[..k]
    ensures IndexOf(s, c) == Some(k)
  {
    assert s[k] in s;
    assert forall j, m :: 0 <= j < m <= |s| ==> s[j] in s[..m];
  }

  /** The last position of `c` is the one position holding `c` with no `c` after it. */
  lemma LastIndexOfAt(s: string, c: char, k: nat)
    requires k < |s| && s[k] == c && c !in s[k + 1..]
    ensures LastIndexOf(s, c) == Some(k)
  {
    assert s[k] in s;
    assert forall j, m :: 0 <= m <= j < |s| ==> s[j] in s[m..];
  }

  /** `c !in s[..k]`, pointwise. */
  lemma NotInPrefix(s: string, c: char, k: nat)
    requires k <= |s| && c !in s[..k]
    ensures forall j :: 0 <= j < k ==> s[j] != c
  {
    assert forall j :: 0 <= j < k ==> s[j] == s[..k][j];
  }

  /** `c !in s[k..]`, pointwise. */
  lemma NotInSuffix(s: string, c: char, k: nat)
    requires k <= |s| && c !in s[k..]
    ensures forall j :: k <= j < |s| ==> s[j] != c
  {
    assert forall j :: k <= j < |s| ==> s[j] == s[k..][j - k];
  }

  /** Splitting a joined list of separator-free pieces gives back the pieces. */
  lemma {:induction false} SplitJoin(parts: seq<string>, sep: char)
    requires |parts| >= 1
    requires forall p :: p in parts ==> sep !in p
    ensures Split(Join(parts, [sep]), sep) == parts
    decreases |parts|
  {
    if |parts| > 1 {
      var head := parts[0];
      var tail := Join(parts[1..], [sep]);
      var s := head + [sep] + tail;
      assert Join(parts, [sep]) == s;
      assert head in parts;
      assert s[..|head|] == head;
      IndexOfAt(s, sep, |head|);
      assert s[|head| + 1..] == tail;
      forall p | p in parts[1..] ensures sep !in p { assert p in parts; }
      SplitJoin(parts[1..], sep);
      assert Split(s, sep) == [head] + parts[1..];
      assert parts == [head] + parts[1..];
    }
  }
}
