/**
  * The multi-select toggle the subtitle language picker and the stem picker share:
  * `list.includes(x) ? list.filter(y => y !== x) : [...list, x]`.
  */
module Selection {
  import opened Text

  /** No entry appears twice. */
  predicate NoDuplicates(s: seq<string>) {
    forall i, j :: 0 <= i < j < |s| ==> s[i] != s[j]
  }

  /** Toggling `x`: afterwards `x` is selected exactly when it was not before, every
      other entry keeps its membership, and an entry that was absent is appended at the
      end of the list. */
  function Toggle(s: seq<string>, x: string): (r: seq<string>)
    ensures x in r <==> x !in s
    ensures forall y :: y != x ==> (y in r <==> y in s)
    ensures x !in s ==> r == s + [x]
  {
    if x in s then
      FilterMembers(s, Unequal(x));
      Filter(s, Unequal(x))
    else s + [x]
  }

  /** The filter's test `y => y !== x`. */
  function Unequal(x: string): string -> bool {
    y => y != x
  }

  /** Deselecting keeps the other entries in their order: in a list without duplicates,
      toggling a selected entry cuts exactly that entry out. */
  lemma ToggleRemovesOnlyIt(s: seq<string>, i: nat)
    requires NoDuplicates(s) && i < |s|
    ensures Toggle(s, s[i]) == s[..i] + s[i + 1..]
  {
    FilterOutUnique(s, Unequal(s[i]), i);
  }

  /** Toggling twice from absent gives back the original list. */
  lemma ToggleTwice(s: seq<string>, x: string)
    requires x !in s
    ensures Toggle(Toggle(s, x), x) == s
  {
    var t := s + [x];
    assert t[|s|] == x;
    FilterOutUnique(t, Unequal(x), |s|);
    assert t[..|s|] == s && t[|s| + 1..] == [];
  }

  /** Toggling never introduces a duplicate. */
  lemma ToggleKeepsNoDuplicates(s: seq<string>, x: string)
    requires NoDuplicates(s)
    ensures NoDuplicates(Toggle(s, x))
  {
    if x in s {
      var i :| 0 <= i < |s| && s[i] == x;
      ToggleRemovesOnlyIt(s, i);
      CutKeepsNoDuplicates(s, i);
    } else {
      AppendKeepsNoDuplicates(s, x);
    }
  }

  lemma CutKeepsNoDuplicates(s: seq<string>, i: nat)
    requires NoDuplicates(s) && i < |s|
    ensures NoDuplicates(s[..i] + s[i + 1..])
  {
    var r := s[..i] + s[i + 1..];
    forall a, b | 0 <= a < b < |r| ensures r[a] != r[b] {
      var a', b' := if a < i then a else a + 1, if b < i then b else b + 1;
      assert r[a] == s[a'] && r[b] == s[b'];
    }
  }

  lemma AppendKeepsNoDuplicates(s: seq<string>, x: string)
    requires NoDuplicates(s) && x !in s
    ensures NoDuplicates(s + [x])
  {
    var r := s + [x];
    forall a, b | 0 <= a < b < |r| ensures r[a] != r[b] {
      assert r[a] == s[a];
    }
  }
}
