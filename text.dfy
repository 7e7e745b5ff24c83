/**
  String operations over `string` (= `seq<char>`), written after Go's `strings`
  package: `HasPrefix`, `Contains` and `Replace` with one replacement, which the
  workflow helpers call, and `Index`, `ReplaceAll`, `LastIndexByte` and `Fields`
  (space only), which the model itself uses to substitute secrets, read tags
  back and split a command line into words.
 */
module Text {
  import opened Wrappers

  /** Go's strings.HasPrefix. */
  predicate HasPrefix(s: string, p: string) {
    |p| <= |s| && s[..|p|] == p
  }

  /** `t` occurs in `s` starting at index `i`. */
  predicate OccursAt(s: string, t: string, i: int) {
    0 <= i && i + |t| <= |s| && s[i..i + |t|] == t
  }

  /** Go's strings.Contains. */
  predicate Contains(s: string, t: string) {
    exists i | 0 <= i <= |s| - |t| :: OccursAt(s, t, i)
  }

  /** Go's strings.Index: the first occurrence of `t` in `s`, if any. */
  function IndexOf(s: string, t: string): (r: Option<nat>)
    ensures r.Some? ==> OccursAt(s, t, r.value)
    ensures r.Some? ==> forall j :: 0 <= j < r.value ==> !OccursAt(s, t, j)
    ensures r.None? ==> forall j :: !OccursAt(s, t, j)
    decreases |s|
  {
    if |s| < |t| then None
    else if s[..|t|] == t then Some(0)
    else
      var rest := IndexOf(s[1..], t);
      assert !OccursAt(s, t, 0);
      forall j | 1 <= j ensures OccursAt(s, t, j) <==> OccursAt(s[1..], t, j - 1) {
        if j + |t| <= |s| {
          assert s[1..][j - 1..j - 1 + |t|] == s[j..j + |t|];
        }
      }
      match rest
      case None => None
      case Some(k) => Some(k + 1)
  }

  /** `Contains` and `IndexOf` agree. */
  lemma IndexOfContains(s: string, t: string)
    ensures Contains(s, t) <==> IndexOf(s, t).Some?
  {
    if IndexOf(s, t).Some? {
      var k := IndexOf(s, t).value;
      assert 0 <= k <= |s| - |t| && OccursAt(s, t, k);
    }
  }

  /** An occurrence inside `s` is still an occurrence inside `a + s + b`. */
  lemma ContainsWithin(a: string, s: string, b: string, t: string)
    requires Contains(s, t)
    ensures Contains(a + s + b, t)
  {
    var i :| 0 <= i <= |s| - |t| && OccursAt(s, t, i);
    assert (a + s + b)[|a| + i..|a| + i + |t|] == s[i..i + |t|];
    assert OccursAt(a + s + b, t, |a| + i);
  }

  /** What occurs inside an occurrence occurs in the whole. */
  lemma ContainsTransitive(s: string, t: string, u: string)
    requires Contains(s, t) && Contains(t, u)
    ensures Contains(s, u)
  {
    var i :| 0 <= i <= |s| - |t| && OccursAt(s, t, i);
    var j :| 0 <= j <= |t| - |u| && OccursAt(t, u, j);
    forall k | 0 <= k < |u| ensures s[i + j + k] == u[k] {
      assert s[i + j + k] == s[i..i + |t|][j + k];
      assert u[k] == t[j..j + |u|][k];
    }
    assert s[i + j..i + j + |u|] == u;
    assert OccursAt(s, u, i + j);
  }

  /** Every string contains itself. */
  lemma ContainsSelf(t: string)
    ensures Contains(t, t)
  {
    assert OccursAt(t, t, 0);
  }

  /**
    Go's strings.Replace(s, t, u, 1): the first occurrence of `t` is replaced by
    `u`; without an occurrence `s` is returned as it is (an empty `t` occurs at 0).
   */
  function ReplaceFirst(s: string, t: string, u: string): (r: string)
    ensures (forall i :: !OccursAt(s, t, i)) ==> r == s
    ensures forall i ::
              OccursAt(s, t, i) && (forall j :: 0 <= j < i ==> !OccursAt(s, t, j)) ==>
                r == s[..i] + u + s[i + |t|..]
  {
    match IndexOf(s, t)
    case None => s
    case Some(i) => s[..i] + u + s[i + |t|..]
  }

  /**
    Go's strings.ReplaceAll: occurrences are replaced left to right without
    overlapping; an empty `t` matches before every character and at the end.
   */
  function ReplaceAll(s: string, t: string, u: string): (r: string)
    decreases |s|
  {
    if |t| == 0 then
      if s == [] then u else u + [s[0]] + ReplaceAll(s[1..], t, u)
    else if |s| < |t| then s
    else if s[..|t|] == t then u + ReplaceAll(s[|t|..], t, u)
    else [s[0]] + ReplaceAll(s[1..], t, u)
  }

  /** A string in which `t` does not occur comes out of `ReplaceAll` unchanged. */
  lemma {:induction false} ReplaceAllAbsent(s: string, t: string, u: string)
    requires !Contains(s, t)
    ensures ReplaceAll(s, t, u) == s
    decreases |s|
  {
    if |t| == 0 {
      assert OccursAt(s, t, 0);
    } else if |s| < |t| {
    } else {
      assert !OccursAt(s, t, 0);
      assert s[..|t|] != t;
      if Contains(s[1..], t) {
        var i :| 0 <= i <= |s[1..]| - |t| && OccursAt(s[1..], t, i);
        assert s[1..][i..i + |t|] == s[i + 1..i + 1 + |t|];
        assert OccursAt(s, t, i + 1);
        assert false;
      }
      ReplaceAllAbsent(s[1..], t, u);
      assert s == [s[0]] + s[1..];
    }
  }

  /**
    The first occurrence of `t` is replaced and the scan resumes after it: when
    `t` does not start anywhere inside `a`, `ReplaceAll(a + t + b)` is `a`, then
    `u`, then `b` with its own occurrences replaced.
   */
  lemma {:induction false} ReplaceAllAt(a: string, t: string, b: string, u: string)
    requires |t| > 0
    requires forall j :: 0 <= j < |a| ==> !OccursAt(a + t, t, j)
    ensures ReplaceAll(a + t + b, t, u) == a + u + ReplaceAll(b, t, u)
    decreases |a|
  {
    if a == [] {
      assert a + t + b == t + b;
      ReplaceAllHere(t, b, u);
    } else {
      NoOccurrenceInTail(a, t);
      ReplaceAllAt(a[1..], t, b, u);
      ReplaceAllStep(a, t, b, u);
    }
  }

  /** One step of `ReplaceAllAt`: the first character of `a` is kept, the rest is the shorter case. */
  lemma ReplaceAllStep(a: string, t: string, b: string, u: string)
    requires |t| > 0 && |a| > 0
    requires !OccursAt(a + t, t, 0)
    requires ReplaceAll(a[1..] + t + b, t, u) == a[1..] + u + ReplaceAll(b, t, u)
    ensures ReplaceAll(a + t + b, t, u) == a + u + ReplaceAll(b, t, u)
  {
    ReplaceAllSkip(a, t, b, u);
    ConsTail(a, u, ReplaceAll(b, t, u));
  }

  lemma ConsTail(a: string, u: string, r: string)
    requires |a| > 0
    ensures [a[0]] + (a[1..] + u + r) == a + u + r
  {
    assert a == [a[0]] + a[1..];
  }

  /** An occurrence at the start is replaced and the scan resumes after it. */
  lemma ReplaceAllHere(t: string, b: string, u: string)
    requires |t| > 0
    ensures ReplaceAll(t + b, t, u) == u + ReplaceAll(b, t, u)
  {
    assert (t + b)[..|t|] == t;
    assert (t + b)[|t|..] == b;
  }

  /** Where `t` does not start at 0, the first character is kept and the scan moves on. */
  lemma ReplaceAllSkip(a: string, t: string, b: string, u: string)
    requires |t| > 0 && |a| > 0
    requires !OccursAt(a + t, t, 0)
    ensures ReplaceAll(a + t + b, t, u) == [a[0]] + ReplaceAll(a[1..] + t + b, t, u)
  {
    var s := a + t + b;
    assert s[..|t|] == (a + t)[..|t|];
    assert s[1..] == a[1..] + t + b;
  }

  /** No occurrence of `t` starting inside `a` means none starting inside `a[1..]`. */
  lemma NoOccurrenceInTail(a: string, t: string)
    requires |a| > 0
    requires forall j :: 0 <= j < |a| ==> !OccursAt(a + t, t, j)
    ensures forall j :: 0 <= j < |a[1..]| ==> !OccursAt(a[1..] + t, t, j)
  {
    forall j | 0 <= j < |a[1..]| ensures !OccursAt(a[1..] + t, t, j) {
      assert (a[1..] + t)[j..j + |t|] == (a + t)[j + 1..j + 1 + |t|];
      assert !OccursAt(a + t, t, j + 1);
    }
  }

  /** A string without the first character of `t` does not contain `t`. */
  lemma NoHeadNoOccurrence(s: string, t: string)
    requires |t| > 0 && t[0] !in s
    ensures !Contains(s, t)
    ensures forall j :: 0 <= j < |s| ==> !OccursAt(s + t, t, j)
  {
    forall j | 0 <= j < |s| ensures !OccursAt(s + t, t, j) {
      assert (s + t)[j] == s[j] != t[0];
      assert j + |t| <= |s + t| ==> (s + t)[j..j + |t|][0] == (s + t)[j];
    }
    forall i | 0 <= i <= |s| - |t| ensures !OccursAt(s, t, i) {
      assert s[i..i + |t|][0] == s[i] != t[0];
    }
  }

  /** Go's strings.LastIndexByte: the last index of `c` in `s`, if any. */
  function LastIndexOf(s: string, c: char): (r: Option<nat>)
    ensures r.Some? ==> r.value < |s| && s[r.value] == c
    ensures r.Some? ==> forall j :: r.value < j < |s| ==> s[j] != c
    ensures r.None? ==> c !in s
  {
    if s == [] then None
    else if s[|s| - 1] == c then Some(|s| - 1)
    else
      var r := LastIndexOf(s[..|s| - 1], c);
      assert forall j :: 0 <= j < |s| - 1 ==> s[..|s| - 1][j] == s[j];
      r
  }

  /** A character that does not occur has no last index. */
  lemma LastIndexOfAbsent(s: string, c: char)
    requires c !in s
    ensures LastIndexOf(s, c) == None
  {
  }

  /** The last `c` of `a + [c] + b` is the one between `a` and `b` when `b` has none. */
  lemma {:induction false} LastIndexOfSeparator(a: string, c: char, b: string)
    requires c !in b
    ensures LastIndexOf(a + [c] + b, c) == Some(|a|)
    decreases |b|
  {
    var s := a + [c] + b;
    if b == [] {
      assert s[|s| - 1] == c;
    } else {
      var init := b[..|b| - 1];
      assert s[|s| - 1] == b[|b| - 1];
      assert s[..|s| - 1] == a + [c] + init;
      assert c !in init by {
        assert forall x :: x in init ==> x in b;
      }
      LastIndexOfSeparator(a, c, init);
    }
  }

  /** A word: a non-empty string without a space, as `Fields` splits it. */
  predicate IsWord(w: string) {
    w != [] && ' ' !in w
  }

  /** The length of the run of non-space characters at the start of `s`. */
  function WordLength(s: string): (n: nat)
    ensures n <= |s|
    ensures forall j :: 0 <= j < n ==> s[j] != ' '
    ensures n < |s| ==> s[n] == ' '
  {
    if s == [] || s[0] == ' ' then 0 else 1 + WordLength(s[1..])
  }

  /** Go's strings.Fields, splitting on the space character only. */
  function Fields(s: string): (ws: seq<string>)
    ensures forall k :: 0 <= k < |ws| ==> IsWord(ws[k])
    decreases |s|
  {
    if s == [] then []
    else if s[0] == ' ' then Fields(s[1..])
    else
      var n := WordLength(s);
      assert ' ' !in s[..n];
      [s[..n]] + Fields(s[n..])
  }

  /** A word is split off whole when a space follows it. */
  lemma {:induction false} WordLengthBeforeSpace(a: string, b: string)
    requires ' ' !in a
    ensures WordLength(a + " " + b) == |a|
    decreases |a|
  {
    if a != [] {
      assert (a + " " + b)[1..] == a[1..] + " " + b;
      WordLengthBeforeSpace(a[1..], b);
    }
  }

  /** Splitting at a space distributes over concatenation. */
  lemma {:induction false} FieldsAtSpace(a: string, b: string)
    ensures Fields(a + " " + b) == Fields(a) + Fields(b)
    decreases |a|
  {
    var s := a + " " + b;
    if a == [] {
      assert s[1..] == b;
    } else if a[0] == ' ' {
      assert s[1..] == a[1..] + " " + b;
      FieldsAtSpace(a[1..], b);
    } else if WordLength(a) == |a| {
      FieldsWholeWord(a, b);
    } else {
      var n := WordLength(a);
      FieldsAtSpace(a[n..], b);
      FieldsFirstWord(a, b, n);
    }
  }

  /** `FieldsAtSpace` when `a` is one word. */
  lemma FieldsWholeWord(a: string, b: string)
    requires a != [] && a[0] != ' ' && WordLength(a) == |a|
    ensures Fields(a + " " + b) == Fields(a) + Fields(b)
  {
    var s := a + " " + b;
    var n := |a|;
    assert a[..n] == a;
    assert ' ' !in a;
    WordLengthBeforeSpace(a, b);
    assert s[..n] == a;
    assert s[n..] == " " + b;
    assert (" " + b)[1..] == b;
    assert a[n..] == [];
  }

  /** `FieldsAtSpace` when a space inside `a` ends its first word, given the case of the rest of `a`. */
  lemma FieldsFirstWord(a: string, b: string, n: nat)
    requires a != [] && a[0] != ' ' && n == WordLength(a) && n < |a|
    requires Fields(a[n..] + " " + b) == Fields(a[n..]) + Fields(b)
    ensures Fields(a + " " + b) == Fields(a) + Fields(b)
  {
    var w, rest := a[..n], a[n..];
    assert a == w + rest;
    assert ' ' !in w;
    FieldsLeadingWord(w, rest);
    assert a + " " + b == w + (rest + " " + b);
    FieldsLeadingWord(w, rest + " " + b);
  }

  /** A word followed by a space is split off as the first field. */
  lemma FieldsLeadingWord(w: string, r: string)
    requires IsWord(w) && r != [] && r[0] == ' '
    ensures Fields(w + r) == [w] + Fields(r)
  {
    assert r == " " + r[1..];
    assert w + r == w + " " + r[1..];
    WordLengthBeforeSpace(w, r[1..]);
    assert (w + r)[..|w|] == w;
    assert (w + r)[|w|..] == r;
  }

  /** A word on its own is one field. */
  lemma WordFields(w: string)
    requires IsWord(w)
    ensures Fields(w) == [w]
  {
    assert forall j :: 0 <= j < |w| ==> w[j] != ' ';
    assert WordLength(w) == |w| by {
      WordLengthAll(w);
    }
    assert w[..|w|] == w;
    assert w[|w|..] == [];
  }

  lemma {:induction false} WordLengthAll(w: string)
    requires ' ' !in w
    ensures WordLength(w) == |w|
    decreases |w|
  {
    if w != [] {
      assert w[0] in w;
      assert forall c :: c in w[1..] ==> c in w;
      WordLengthAll(w[1..]);
    }
  }

  /** Two words followed by a space each: the shape of one command-line flag. */
  lemma FlagFields(opt: string, arg: string, rest: string)
    requires IsWord(opt) && IsWord(arg)
    ensures Fields(opt + " " + arg + " " + rest) == [opt, arg] + Fields(rest)
  {
    assert opt + " " + arg + " " + rest == opt + " " + (arg + " " + rest);
    WordThenSpace(opt, arg + " " + rest);
    WordThenSpace(arg, rest);
  }

  /** A word and a space: the word is the first field, the rest follows. */
  lemma WordThenSpace(w: string, r: string)
    requires IsWord(w)
    ensures Fields(w + " " + r) == [w] + Fields(r)
  {
    assert w + " " + r == w + (" " + r);
    FieldsLeadingWord(w, " " + r);
    FieldsAfterSpace(r);
  }

  /** A leading space adds no field. */
  lemma FieldsAfterSpace(r: string)
    ensures Fields(" " + r) == Fields(r)
  {
    assert (" " + r)[1..] == r;
  }
}
