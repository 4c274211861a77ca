/**
  * The JavaScript string operations the panels are built from, over Dafny strings
  * (one `char` per Unicode scalar value; where a count of UTF-16 code units matters it
  * is written out): `trim`, `split` with a literal separator, `join`, `filter`,
  * `toLowerCase`, the `[^a-zA-Z0-9]` sanitiser and the decimal rendering of a counter
  * or an index.
  */
module Text {

  datatype Option<+T> = None | Some(value: T)

  /** A JavaScript string is truthy when it is not empty; null is falsy. */
  predicate Truthy(s: Option<string>) {
    s.Some? && s.value != ""
  }

  // ---------------------------------------------------------------------------
  // Whitespace and trim
  // ---------------------------------------------------------------------------

  /** The characters `String.prototype.trim` removes: the ECMAScript WhiteSpace
      (tab, vertical tab, form feed, space, no-break space, byte order mark and the
      space separators of Unicode category Zs) and LineTerminator characters. */
  predicate IsWhitespace(c: char) {
    c == '\t' || c == '\n' || c == '\U{B}' || c == '\U{C}' || c == '\r' || c == ' '
    || c == '\U{A0}' || c == '\U{1680}' || ('\U{2000}' <= c <= '\U{200A}')
    || c == '\U{2028}' || c == '\U{2029}' || c == '\U{202F}' || c == '\U{205F}'
    || c == '\U{3000}' || c == '\U{FEFF}'
  }

  /** `s` with its leading whitespace removed. */
  function TrimStart(s: string): (r: string)
    ensures |r| <= |s| && r == s[|s| - |r|..]
    ensures r == [] || !IsWhitespace(r[0])
    ensures forall i :: 0 <= i < |s| - |r| ==> IsWhitespace(s[i])
  {
    if |s| > 0 && IsWhitespace(s[0]) then TrimStart(s[1..]) else s
  }

  /** `s` with its trailing whitespace removed. */
  function TrimEnd(s: string): (r: string)
    ensures |r| <= |s| && r == s[..|r|]
    ensures r == [] || !IsWhitespace(r[|r| - 1])
    ensures forall i :: |r| <= i < |s| ==> IsWhitespace(s[i])
  {
    if |s| > 0 && IsWhitespace(s[|s| - 1]) then TrimEnd(s[..|s| - 1]) else s
  }

  /** `String.prototype.trim`. */
  function Trim(s: string): string {
    TrimEnd(TrimStart(s))
  }

  /** The source's `!s.trim()` / `s.trim() === ''`. */
  predicate IsBlank(s: string) {
    Trim(s) == ""
  }

  /** Trim keeps a contiguous middle part of its input, removes only whitespace,
      and leaves no whitespace at either end. */
  lemma TrimIsInfix(s: string)
    ensures exists i, j :: (0 <= i <= j <= |s| && Trim(s) == s[i..j]
                            && (forall k :: 0 <= k < i ==> IsWhitespace(s[k]))
                            && (forall k :: j <= k < |s| ==> IsWhitespace(s[k])))
    ensures Trim(s) == [] || (!IsWhitespace(Trim(s)[0]) && !IsWhitespace(Trim(s)[|Trim(s)| - 1]))
  {
    var i, j := TrimBounds(s);
    var t := TrimStart(s);
    var e := TrimEnd(t);
    if e != [] {
      assert e[0] == t[0];
    }
  }

  /** Where `Trim(s)` starts and ends inside `s`. */
  lemma TrimBounds(s: string) returns (i: nat, j: nat)
    ensures i <= j <= |s| && Trim(s) == s[i..j]
    ensures forall k :: 0 <= k < i ==> IsWhitespace(s[k])
    ensures forall k :: j <= k < |s| ==> IsWhitespace(s[k])
  {
    var t := TrimStart(s);
    var e := TrimEnd(t);
    i := |s| - |t|;
    j := i + |e|;
    PrefixOfSuffix(s, i, |e|);
    SuffixWhitespace(s, i, |e|);
  }

  lemma PrefixOfSuffix(s: string, i: nat, m: nat)
    requires i + m <= |s|
    ensures s[i..][..m] == s[i..i + m]
  {
  }

  /** Whitespace after `m` characters of `s[i..]` is whitespace after `i + m` in `s`. */
  lemma SuffixWhitespace(s: string, i: nat, m: nat)
    requires i + m <= |s|
    requires forall k :: m <= k < |s| - i ==> IsWhitespace(s[i..][k])
    ensures forall k :: i + m <= k < |s| ==> IsWhitespace(s[k])
  {
    forall k | i + m <= k < |s| ensures IsWhitespace(s[k]) {
      assert s[k] == s[i..][k - i];
    }
  }

  /** A string is blank exactly when every character of it is whitespace. */
  lemma BlankIffAllWhitespace(s: string)
    ensures IsBlank(s) <==> forall k :: 0 <= k < |s| ==> IsWhitespace(s[k])
  {
    var t := TrimStart(s);
    assert t == [] || t[0] == s[|s| - |t|];
  }

  /** A string with no whitespace at either end is its own trim. */
  lemma TrimFixed(s: string)
    requires s == [] || (!IsWhitespace(s[0]) && !IsWhitespace(s[|s| - 1]))
    ensures Trim(s) == s
  {
  }

  /** Trimming twice is trimming once. */
  lemma TrimIdempotent(s: string)
    ensures Trim(Trim(s)) == Trim(s)
  {
    TrimIsInfix(s);
    TrimFixed(Trim(s));
  }

  /** A non-empty string with no whitespace at either end: what a non-empty `trim`
      result looks like. */
  predicate TrimmedNonEmpty(s: string) {
    s != "" && !IsWhitespace(s[0]) && !IsWhitespace(s[|s| - 1])
  }

  /** A trim that is not empty is trimmed and non-empty, and such a string is its own trim. */
  lemma TrimmedNonEmptyIsTrim(s: string)
    ensures Trim(s) != "" ==> TrimmedNonEmpty(Trim(s))
    ensures TrimmedNonEmpty(s) ==> Trim(s) == s
  {
    TrimIsInfix(s);
    if TrimmedNonEmpty(s) {
      TrimFixed(s);
    }
  }

  predicate HasNonWhitespace(s: string) {
    exists k :: 0 <= k < |s| && !IsWhitespace(s[k])
  }

  /** Leading whitespace is all in `a` when `a` has something else in it. */
  lemma {:induction false} TrimStartAppend(a: string, y: string)
    requires HasNonWhitespace(a)
    ensures TrimStart(a + y) == TrimStart(a) + y
    decreases |a|
  {
    assert (a + y)[0] == a[0];
    if IsWhitespace(a[0]) {
      var k :| 0 <= k < |a| && !IsWhitespace(a[k]);
      assert a[1..][k - 1] == a[k];
      assert (a + y)[1..] == a[1..] + y;
      TrimStartAppend(a[1..], y);
    }
  }

  /** Trailing whitespace is all in `b` when `b` has something else in it. */
  lemma {:induction false} TrimEndPrepend(y: string, b: string)
    requires HasNonWhitespace(b)
    ensures TrimEnd(y + b) == y + TrimEnd(b)
    decreases |b|
  {
    if IsWhitespace(b[|b| - 1]) {
      var k :| 0 <= k < |b| && !IsWhitespace(b[k]);
      var init := b[..|b| - 1];
      assert init[k] == b[k];
      TrimEndPrepend(y, init);
      assert (y + b)[..|y + b| - 1] == y + init;
    }
  }

  /** Trimming a text whose first and last parts are not blank only touches those parts:
      the middle survives verbatim. */
  lemma TrimKeepsMiddle(a: string, x: string, b: string)
    requires HasNonWhitespace(a) && HasNonWhitespace(b)
    ensures Trim(a + x + b) == TrimStart(a) + x + TrimEnd(b)
  {
    TrimStartAppend(a, x + b);
    TrimEndPrepend(TrimStart(a) + x, b);
    Associative(a, x, b);
    Associative(TrimStart(a), x, b);
  }

  lemma Associative(a: string, b: string, c: string)
    ensures a + b + c == a + (b + c)
  {
  }

  // ---------------------------------------------------------------------------
  // split and join with a literal separator
  // ---------------------------------------------------------------------------

  /** `sep` occurs in `s` starting at index `i`. */
  predicate OccursAt(s: string, sep: string, i: int) {
    0 <= i && i + |sep| <= |s| && s[i..i + |sep|] == sep
  }

  /** `sub` occurs somewhere in `s`. */
  ghost predicate Contains(s: string, sub: string) {
    exists i :: OccursAt(s, sub, i)
  }

  /** A piece placed between two others occurs right after the first. */
  lemma OccursBetween(a: string, x: string, b: string)
    ensures OccursAt(a + x + b, x, |a|)
    ensures Contains(a + x + b, x)
  {
    assert (a + x + b)[|a|..|a| + |x|] == x;
    assert OccursAt(a + x + b, x, |a|);
  }

  /** Both pieces placed between three others occur in the whole. */
  lemma OccursBetweenTwo(a: string, x: string, b: string, y: string, c: string)
    ensures Contains(a + x + b + y + c, x) && Contains(a + x + b + y + c, y)
  {
    OccursBetween(a, x, b + y + c);
    assert a + x + (b + y + c) == a + x + b + y + c;
    OccursBetween(a + x + b, y, c);
  }

  /** The index of the first occurrence of `sep` in `s`, as `indexOf` finds it. */
  function IndexOf(s: string, sep: string): (r: Option<nat>)
    requires |sep| > 0
    ensures r.Some? ==> OccursAt(s, sep, r.value)
    ensures r.Some? ==> forall j :: 0 <= j < r.value ==> !OccursAt(s, sep, j)
    ensures r.None? ==> forall j :: !OccursAt(s, sep, j)
    decreases |s|
  {
    if |s| < |sep| then None
    else if s[..|sep|] == sep then Some(0)
    else
      match IndexOf(s[1..], sep)
      case None =>
        assert forall j :: 1 <= j ==> OccursAt(s, sep, j) == OccursAt(s[1..], sep, j - 1);
        None
      case Some(k) =>
        assert forall j :: 1 <= j ==> OccursAt(s, sep, j) == OccursAt(s[1..], sep, j - 1);
        Some(k + 1)
  }

  /** `String.prototype.split` with a non-empty literal separator. */
  function Split(s: string, sep: string): (r: seq<string>)
    requires |sep| > 0
    ensures |r| >= 1
    decreases |s|
  {
    match IndexOf(s, sep)
    case None => [s]
    case Some(i) => [s[..i]] + Split(s[i + |sep|..], sep)
  }

  /** `Array.prototype.join`. */
  function Join(xs: seq<string>, sep: string): string
  {
    if |xs| == 0 then ""
    else if |xs| == 1 then xs[0]
    else xs[0] + sep + Join(xs[1..], sep)
  }

  /** Joining the pieces of a split with the same separator gives back the input. */
  lemma {:induction false} JoinSplit(s: string, sep: string)
    requires |sep| > 0
    ensures Join(Split(s, sep), sep) == s
    decreases |s|
  {
    match IndexOf(s, sep)
    case None =>
    case Some(i) =>
      var rest := s[i + |sep|..];
      var pieces := Split(rest, sep);
      assert Split(s, sep) == [s[..i]] + pieces;
      JoinSplit(rest, sep);
      JoinCons(s[..i], pieces, sep);
      assert s[i..i + |sep|] == sep;
      assert s == s[..i] + s[i..i + |sep|] + rest;
  }

  /** Joining a list of two or more items puts the separator after the first one. */
  lemma JoinCons(x: string, xs: seq<string>, sep: string)
    requires |xs| >= 1
    ensures Join([x] + xs, sep) == x + sep + Join(xs, sep)
  {
    assert ([x] + xs)[1..] == xs;
  }


  /** No piece of a split contains the separator. */
  lemma {:induction false} SplitPiecesLackSeparator(s: string, sep: string)
    requires |sep| > 0
    ensures forall k :: 0 <= k < |Split(s, sep)| ==> !Contains(Split(s, sep)[k], sep)
    decreases |s|
  {
    match IndexOf(s, sep)
    case None =>
    case Some(i) =>
      var rest := s[i + |sep|..];
      SplitPiecesLackSeparator(rest, sep);
      var head := s[..i];
      assert !Contains(head, sep) by {
        forall j | OccursAt(head, sep, j) ensures false {
          assert s[j..j + |sep|] == head[j..j + |sep|];
          assert OccursAt(s, sep, j);
        }
      }
      assert Split(s, sep) == [head] + Split(rest, sep);
  }

  /** Join over a concatenation of two non-empty lists. */
  lemma {:induction false} JoinAppend(xs: seq<string>, ys: seq<string>, sep: string)
    requires |xs| > 0 && |ys| > 0
    ensures Join(xs + ys, sep) == Join(xs, sep) + sep + Join(ys, sep)
    decreases |xs|
  {
    if |xs| == 1 {
      assert (xs + ys)[1..] == ys;
    } else {
      JoinAppend(xs[1..], ys, sep);
      assert (xs + ys)[1..] == xs[1..] + ys;
    }
  }

  /** Occurrence is transitive. */
  lemma ContainsTrans(a: string, b: string, c: string)
    requires Contains(a, b) && Contains(b, c)
    ensures Contains(a, c)
  {
    var i :| OccursAt(a, b, i);
    var j :| OccursAt(b, c, j);
    forall k | 0 <= k < |c| ensures a[i + j + k] == c[k] {
      assert a[i + j + k] == a[i..i + |b|][j + k];
      assert c[k] == b[j..j + |c|][k];
    }
    assert a[i + j..i + j + |c|] == c;
    assert OccursAt(a, c, i + j);
  }

  /** Every item occurs in the joined text. */
  lemma {:induction false} JoinContainsEach(xs: seq<string>, sep: string, i: nat)
    requires i < |xs|
    ensures Contains(Join(xs, sep), xs[i])
    decreases |xs|
  {
    if |xs| == 1 {
      OccursBetween("", xs[0], "");
      assert "" + xs[0] + "" == xs[0];
    } else if i == 0 {
      OccursBetween("", xs[0], sep + Join(xs[1..], sep));
      assert "" + xs[0] + (sep + Join(xs[1..], sep)) == Join(xs, sep);
    } else {
      JoinContainsEach(xs[1..], sep, i - 1);
      OccursBetween(xs[0] + sep, Join(xs[1..], sep), "");
      assert xs[0] + sep + Join(xs[1..], sep) + "" == Join(xs, sep);
      ContainsTrans(Join(xs, sep), Join(xs[1..], sep), xs[i]);
    }
  }

  /** A joined text starts with its first item. */
  lemma JoinStartsWithFirst(xs: seq<string>, sep: string)
    requires |xs| > 0
    ensures xs[0] <= Join(xs, sep)
  {
    if |xs| > 1 {
      assert Join(xs, sep) == xs[0] + (sep + Join(xs[1..], sep));
    }
  }

  lemma PrefixExtend(a: string, b: string, c: string)
    requires b <= c
    ensures a + b <= a + c
  {
    assert (a + c)[..|a + b|] == a + b;
  }

  /** In a joined text the items come in order: item i follows the join of the items
      before it and one separator, immediately. */
  lemma JoinPlacesEach(xs: seq<string>, sep: string, i: nat)
    requires 0 < i < |xs|
    ensures Join(xs[..i], sep) + sep + xs[i] <= Join(xs, sep)
  {
    JoinAppend(xs[..i], xs[i..], sep);
    assert xs[..i] + xs[i..] == xs;
    JoinStartsWithFirst(xs[i..], sep);
    PrefixExtend(Join(xs[..i], sep) + sep, xs[i], Join(xs[i..], sep));
  }

  /** With a one-character separator that no item contains, splitting the joined text
      gives back the items. */
  lemma {:induction false} SplitJoin(xs: seq<string>, sep: string)
    requires |sep| == 1 && |xs| >= 1
    requires forall k :: 0 <= k < |xs| ==> !Contains(xs[k], sep)
    ensures Split(Join(xs, sep), sep) == xs
    decreases |xs|
  {
    var x := xs[0];
    if |xs| == 1 {
      assert IndexOf(x, sep) == None;
    } else {
      var rest := Join(xs[1..], sep);
      var s := x + sep + rest;
      assert s[|x|..|x| + 1] == sep;
      forall j | 0 <= j < |x| ensures !OccursAt(s, sep, j) {
        assert x[j..j + 1] == s[j..j + 1];
        assert !OccursAt(x, sep, j);
      }
      assert OccursAt(s, sep, |x|);
      assert IndexOf(s, sep) == Some(|x|);
      assert s[..|x|] == x && s[|x| + 1..] == rest;
      SplitJoin(xs[1..], sep);
    }
  }

  // ---------------------------------------------------------------------------
  // Template literals: text pieces written one after another
  // ---------------------------------------------------------------------------

  /** The pieces in order, with nothing between them. */
  function Concat(parts: seq<string>): string
    decreases |parts|
  {
    if parts == [] then "" else parts[0] + Concat(parts[1..])
  }

  /** The whole is what comes before piece `k`, piece `k`, and what comes after it. */
  lemma {:induction false} ConcatSplit(parts: seq<string>, k: nat)
    requires k < |parts|
    ensures Concat(parts) == Concat(parts[..k]) + parts[k] + Concat(parts[k + 1..])
    decreases k
  {
    if k == 0 {
      assert parts[..0] == [];
      assert parts[1..] == parts[k + 1..];
    } else {
      var t := parts[1..];
      ConcatSplit(t, k - 1);
      assert t[..k - 1] == parts[1..k] && t[k - 1] == parts[k] && t[k..] == parts[k + 1..];
      assert parts[..k][1..] == parts[1..k];
      var a, x, b := Concat(parts[1..k]), parts[k], Concat(parts[k + 1..]);
      assert Concat(parts[..k]) == parts[0] + a;
      PrependAssociative(parts[0], a, x, b);
    }
  }

  lemma PrependAssociative(p: string, a: string, x: string, b: string)
    ensures p + (a + x + b) == p + a + x + b
  {
  }

  /** A piece that starts with a non-whitespace character makes the whole non-blank. */
  lemma ConcatHasNonWhitespace(parts: seq<string>, j: nat)
    requires j < |parts| && |parts[j]| > 0 && !IsWhitespace(parts[j][0])
    ensures HasNonWhitespace(Concat(parts))
  {
    ConcatSplit(parts, j);
    var before := Concat(parts[..j]);
    assert Concat(parts)[|before|] == parts[j][0];
  }

  /** Trimming a template keeps verbatim every piece that lies between two pieces starting
      with a non-whitespace character. */
  lemma TrimKeepsPart(parts: seq<string>, k: nat, i: nat, j: nat)
    requires i < k < j < |parts|
    requires |parts[i]| > 0 && !IsWhitespace(parts[i][0])
    requires |parts[j]| > 0 && !IsWhitespace(parts[j][0])
    ensures Contains(Trim(Concat(parts)), parts[k])
  {
    ConcatSplit(parts, k);
    var a, b := Concat(parts[..k]), Concat(parts[k + 1..]);
    assert parts[..k][i] == parts[i];
    ConcatHasNonWhitespace(parts[..k], i);
    assert parts[k + 1..][j - k - 1] == parts[j];
    ConcatHasNonWhitespace(parts[k + 1..], j - k - 1);
    TrimKeepsMiddle(a, parts[k], b);
    OccursBetween(TrimStart(a), parts[k], TrimEnd(b));
  }

  // ---------------------------------------------------------------------------
  // Array.prototype.filter
  // ---------------------------------------------------------------------------

  /** The elements of `xs` that `keep` accepts, in their original order. */
  function Filter<T>(xs: seq<T>, keep: T -> bool): (r: seq<T>)
    ensures |r| <= |xs|
  {
    if xs == [] then []
    else (if keep(xs[0]) then [xs[0]] else []) + Filter(xs[1..], keep)
  }

  /** What `filter` keeps: only elements of the input that pass, and every one that does. */
  lemma {:induction false} FilterMembers<T>(xs: seq<T>, keep: T -> bool)
    ensures forall k :: 0 <= k < |Filter(xs, keep)| ==> Filter(xs, keep)[k] in xs && keep(Filter(xs, keep)[k])
    ensures forall k :: 0 <= k < |xs| && keep(xs[k]) ==> xs[k] in Filter(xs, keep)
  {
    if xs != [] {
      FilterMembers(xs[1..], keep);
      var head := if keep(xs[0]) then [xs[0]] else [];
      var r, tail := Filter(xs, keep), Filter(xs[1..], keep);
      assert r == head + tail;
      forall k | 0 <= k < |r| ensures r[k] in xs && keep(r[k]) {
        if k >= |head| {
          assert r[k] == tail[k - |head|];
        }
      }
      forall k | 0 <= k < |xs| && keep(xs[k]) ensures xs[k] in r {
        if k > 0 {
          assert xs[k] == xs[1..][k - 1];
        }
      }
    }
  }

  /** Filtering distributes over concatenation, so the kept elements keep their order. */
  lemma {:induction false} FilterAppend<T>(xs: seq<T>, ys: seq<T>, keep: T -> bool)
    ensures Filter(xs + ys, keep) == Filter(xs, keep) + Filter(ys, keep)
  {
    if xs == [] {
      assert xs + ys == ys;
    } else {
      var head := if keep(xs[0]) then [xs[0]] else [];
      assert (xs + ys)[0] == xs[0];
      assert (xs + ys)[1..] == xs[1..] + ys;
      calc {
        Filter(xs + ys, keep);
        head + Filter(xs[1..] + ys, keep);
        { FilterAppend(xs[1..], ys, keep); }
        head + (Filter(xs[1..], keep) + Filter(ys, keep));
        (head + Filter(xs[1..], keep)) + Filter(ys, keep);
        Filter(xs, keep) + Filter(ys, keep);
      }
    }
  }

  /** A list whose every element is kept is returned unchanged. */
  lemma {:induction false} FilterKeepsAll<T>(xs: seq<T>, keep: T -> bool)
    requires forall k :: 0 <= k < |xs| ==> keep(xs[k])
    ensures Filter(xs, keep) == xs
  {
    if xs != [] {
      FilterKeepsAll(xs[1..], keep);
    }
  }

  /** Removing a value that is absent changes nothing; removing one that occurs exactly
      once leaves the elements before it and after it, in order. */
  lemma {:induction false} FilterOutUnique<T>(xs: seq<T>, keep: T -> bool, i: nat)
    requires i < |xs|
    requires forall k :: 0 <= k < |xs| ==> (keep(xs[k]) <==> k != i)
    ensures Filter(xs, keep) == xs[..i] + xs[i + 1..]
  {
    var x := xs[i];
    var before, after := xs[..i], xs[i + 1..];
    assert xs == before + [x] + after;
    assert forall k :: 0 <= k < |before| ==> before[k] == xs[k];
    FilterKeepsAll(before, keep);
    assert forall k :: 0 <= k < |after| ==> after[k] == xs[i + 1 + k];
    FilterKeepsAll(after, keep);
    assert Filter([x], keep) == [] by {
      assert [x][1..] == [];
    }
    calc {
      Filter(xs, keep);
      { FilterAppend(before + [x], after, keep); }
      Filter(before + [x], keep) + Filter(after, keep);
      { FilterAppend(before, [x], keep); }
      Filter(before, keep) + Filter([x], keep) + Filter(after, keep);
      before + [] + after;
      { assert before + [] == before; }
      before + after;
    }
  }


  // ---------------------------------------------------------------------------
  // Case and file-name sanitising
  // ---------------------------------------------------------------------------

  predicate IsAsciiAlnum(c: char) {
    ('a' <= c <= 'z') || ('A' <= c <= 'Z') || ('0' <= c <= '9')
  }

  /** A character that can appear in a sanitised file name: `[a-z0-9_]`. */
  predicate IsFileNameChar(c: char) {
    ('a' <= c <= 'z') || ('0' <= c <= '9') || c == '_'
  }

  /** `toLowerCase` on one character, for the ASCII letters. */
  function LowerChar(c: char): (r: char)
    ensures 'A' <= c <= 'Z' ==> 'a' <= r <= 'z'
    ensures !('A' <= c <= 'Z') ==> r == c
  {
    if 'A' <= c <= 'Z' then (c as int + 32) as char else c
  }

  /** `String.prototype.toLowerCase`, for the ASCII letters. */
  function ToLower(s: string): (r: string)
    ensures |r| == |s|
  {
    seq(|s|, i requires 0 <= i < |s| => LowerChar(s[i]))
  }

  /** `toUpperCase` on one character, for the ASCII letters. */
  function UpperChar(c: char): (r: char)
    ensures 'a' <= c <= 'z' ==> 'A' <= r <= 'Z'
    ensures !('a' <= c <= 'z') ==> r == c
  {
    if 'a' <= c <= 'z' then (c as int - 32) as char else c
  }

  /** `String.prototype.toUpperCase`, for the ASCII letters. */
  function ToUpper(s: string): (r: string)
    ensures |r| == |s|
  {
    seq(|s|, i requires 0 <= i < |s| => UpperChar(s[i]))
  }

  /** How many UTF-16 code units a character takes in a JavaScript string: two for a
      character outside the Basic Multilingual Plane (a surrogate pair), one otherwise. */
  function Utf16Width(c: char): nat {
    if c as int < 0x10000 then 1 else 2
  }

  /** The JavaScript `length` of a string: its number of UTF-16 code units. */
  function Utf16Length(s: string): (n: nat)
    ensures n >= |s|
    ensures InBmp(s) ==> n == |s|
    decreases |s|
  {
    if s == [] then 0
    else
      assert InBmp(s) ==> InBmp(s[1..]) by {
        assert forall i :: 0 <= i < |s[1..]| ==> s[1..][i] == s[i + 1];
      }
      Utf16Width(s[0]) + Utf16Length(s[1..])
  }

  /** Every character lies in the Basic Multilingual Plane: one code unit each. */
  predicate InBmp(s: string) {
    forall i :: 0 <= i < |s| ==> s[i] as int < 0x10000
  }

  /** One character of `s.replace(/[^a-zA-Z0-9]/g, '_').toLowerCase()`: the regular
      expression has no `u` flag, so it matches code units, and each of the two
      surrogates of a character outside the Basic Multilingual Plane becomes its own '_'. */
  function SanitiseChar(c: char): (r: string)
    ensures |r| == Utf16Width(c)
  {
    if IsAsciiAlnum(c) then [LowerChar(c)] else if Utf16Width(c) == 1 then "_" else "__"
  }

  /** `s.replace(/[^a-zA-Z0-9]/g, '_').toLowerCase()`: one output character per UTF-16
      code unit of the input, drawn from `[a-z0-9_]`. */
  function Sanitise(s: string): (r: string)
    ensures |r| == Utf16Length(s)
    ensures forall i :: 0 <= i < |r| ==> IsFileNameChar(r[i])
    decreases |s|
  {
    if s == [] then [] else SanitiseChar(s[0]) + Sanitise(s[1..])
  }

  /** For a string in the Basic Multilingual Plane sanitising maps character to
      character: letters and digits survive, lower-cased, and every other character
      becomes an underscore. */
  lemma {:induction false} SanitiseBmp(s: string)
    requires InBmp(s)
    ensures |Sanitise(s)| == |s|
    ensures forall i :: 0 <= i < |s| ==> Sanitise(s)[i] == (if IsAsciiAlnum(s[i]) then LowerChar(s[i]) else '_')
    decreases |s|
  {
    if s != [] {
      var t := s[1..];
      assert forall i :: 0 <= i < |t| ==> t[i] == s[i + 1];
      SanitiseBmp(t);
      assert s[0] as int < 0x10000;
      assert Sanitise(s) == SanitiseChar(s[0]) + Sanitise(t);
    }
  }

  /** Sanitising works character by character, so it distributes over concatenation. */
  lemma {:induction false} SanitiseAppend(a: string, b: string)
    ensures Sanitise(a + b) == Sanitise(a) + Sanitise(b)
    decreases |a|
  {
    if a == [] {
      assert a + b == b;
    } else {
      var c, t := a[0], a[1..];
      assert a == [c] + t;
      assert a + b == [c] + (t + b);
      SanitiseCons(c, t + b);
      SanitiseCons(c, t);
      SanitiseAppend(t, b);
      Associative(SanitiseChar(c), Sanitise(t), Sanitise(b));
    }
  }

  lemma SanitiseCons(c: char, s: string)
    ensures Sanitise([c] + s) == SanitiseChar(c) + Sanitise(s)
  {
    assert ([c] + s)[0] == c && ([c] + s)[1..] == s;
  }

  /** A character outside the Basic Multilingual Plane, an emoji say, becomes two
      underscores, one per surrogate. */
  lemma AstralBecomesTwoUnderscores(c: char)
    requires c as int >= 0x10000
    ensures Sanitise([c]) == "__"
  {
    assert [c][1..] == [];
  }

  /** `s.substring(0, n)`. */
  function Prefix(s: string, n: nat): (r: string)
    ensures |r| == if |s| < n then |s| else n
    ensures r <= s
  {
    if |s| < n then s else s[..n]
  }

  // ---------------------------------------------------------------------------
  // Decimal numbers
  // ---------------------------------------------------------------------------

  function DigitChar(d: nat): (c: char)
    requires d < 10
    ensures '0' <= c <= '9'
  {
    ('0' as int + d) as char
  }

  /** `n.toString()` / `${n}` for a natural number. */
  function NatToString(n: nat): (r: string)
    ensures |r| >= 1
    ensures forall i :: 0 <= i < |r| ==> '0' <= r[i] <= '9'
    decreases n
  {
    if n < 10 then [DigitChar(n)] else NatToString(n / 10) + [DigitChar(n % 10)]
  }

  /** `${n}` for a whole number, negative ones with a leading '-'. */
  function IntToString(n: int): (r: string)
    ensures n >= 0 ==> r == NatToString(n)
    ensures n < 0 ==> r == "-" + NatToString(-n)
  {
    if n < 0 then "-" + NatToString(-n) else NatToString(n)
  }

  /** `parseInt(s, 10)` for a string of decimal digits. */
  function ParseNat(s: string): nat
    requires forall i :: 0 <= i < |s| ==> '0' <= s[i] <= '9'
  {
    if s == [] then 0 else ParseNat(s[..|s| - 1]) * 10 + (s[|s| - 1] as int - '0' as int)
  }

  /** Reading back a rendered number gives the number: distinct indices and counts
      render as distinct strings. */
  lemma {:induction false} ParseNatToString(n: nat)
    ensures ParseNat(NatToString(n)) == n
    decreases n
  {
    var r := NatToString(n);
    if n >= 10 {
      ParseNatToString(n / 10);
      assert r[..|r| - 1] == NatToString(n / 10);
    }
  }
}
