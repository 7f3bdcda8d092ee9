/**
Write scopes: when two scope lists overlap for the dispatcher, and which paths a scope list
admits for the adoption gate.
*/
module Scopes {

  function TrimSuffix(s: string, suffix: string): string {
    if |suffix| <= |s| && s[|s| - |suffix|..] == suffix then s[..|s| - |suffix|] else s
  }

  /** Drops one trailing slash, then one trailing glob marker. */
  function NormalizeScope(entry: string): string {
    TrimSuffix(TrimSuffix(entry, "/"), "/**")
  }

  function Renormalized(entry: string, n: nat): string {
    if n == 0 then entry else NormalizeScope(Renormalized(entry, n - 1))
  }

  /** Equal, or one directory-contains the other. */
  predicate Meets(x: string, y: string) {
    x == y || y + "/" <= x || x + "/" <= y
  }

  /** The verdict of the dispatcher: entry `i` is compared with entry `j` after `j + 1` normalizations. */
  ghost predicate Overlap(a: seq<string>, b: seq<string>) {
    exists i, j :: 0 <= i < |a| && 0 <= j < |b| && Meets(Renormalized(a[i], j + 1), NormalizeScope(b[j]))
  }

  method ScopesOverlap(a: seq<string>, b: seq<string>) returns (overlap: bool)
    ensures overlap <==> Overlap(a, b)
  {
    hide NormalizeScope, Meets;
    var i := 0;
    while i < |a|
      invariant 0 <= i <= |a|
      invariant forall k, j :: 0 <= k < i && 0 <= j < |b| ==> !Meets(Renormalized(a[k], j + 1), NormalizeScope(b[j]))
    {
      var x := a[i];
      var j := 0;
      while j < |b|
        invariant 0 <= j <= |b| && x == Renormalized(a[i], j)
        invariant forall l :: 0 <= l < j ==> !Meets(Renormalized(a[i], l + 1), NormalizeScope(b[l]))
      {
        x := NormalizeScope(x);
        var y := NormalizeScope(b[j]);
        if Meets(x, y) {
          return true;
        }
        j := j + 1;
      }
      i := i + 1;
    }
    return false;
  }

  /** The adoption gate admits the normalized entry itself and every path below it. */
  predicate AdmittedBy(entry: string, path: string) {
    var base := NormalizeScope(entry);
    path == base || TrimSuffix(base, "/") + "/" <= path
  }

  ghost predicate Admits(scopes: seq<string>, path: string) {
    exists i :: 0 <= i < |scopes| && AdmittedBy(scopes[i], path)
  }

  method CheckPath(scopes: seq<string>, path: string) returns (inScope: bool)
    ensures inScope <==> Admits(scopes, path)
  {
    var i := 0;
    while i < |scopes|
      invariant 0 <= i <= |scopes|
      invariant forall k :: 0 <= k < i ==> !AdmittedBy(scopes[k], path)
    {
      var base := NormalizeScope(scopes[i]);
      if path == base || TrimSuffix(base, "/") + "/" <= path {
        assert AdmittedBy(scopes[i], path);
        return true;
      }
      i := i + 1;
    }
    return false;
  }

  /** Some path may be written under both lists. */
  ghost predicate Contested(a: seq<string>, b: seq<string>) {
    exists path :: Admits(a, path) && Admits(b, path)
  }

  // ---------------------------------------------------------------------------
  // When the verdict is exact
  // ---------------------------------------------------------------------------

  predicate EndsWith(s: string, suffix: string) {
    |suffix| <= |s| && s[|s| - |suffix|..] == suffix
  }

  /** Normalizing the entry a second time changes nothing. */
  predicate Stable(entry: string) {
    NormalizeScope(NormalizeScope(entry)) == NormalizeScope(entry)
  }

  /** The normalized entry carries no further trailing slash. */
  predicate Slashless(entry: string) {
    !EndsWith(NormalizeScope(entry), "/")
  }

  /** An entry names a directory with or without a trailing slash, glob marker, or marker and slash. */
  lemma NormalForms(base: string)
    requires !EndsWith(base, "/") && !EndsWith(base, "/**")
    ensures NormalizeScope(base) == base && NormalizeScope(base + "/") == base
    ensures NormalizeScope(base + "/**") == base && NormalizeScope(base + "/**/") == base
  {
    assert TrimSuffix(base, "/") == base && TrimSuffix(base, "/**") == base;
    TrimsIt(base, "/");
    TrimsIt(base, "/**");
    TrimsIt(base + "/**", "/");
    assert base + "/**/" == base + "/**" + "/";
    var marked := base + "/**";
    assert marked[|marked| - 1] == '*' && TrimSuffix(marked, "/") == marked;
  }

  lemma TrimsIt(s: string, suffix: string)
    ensures TrimSuffix(s + suffix, suffix) == s
  {
    var t := s + suffix;
    assert t[|t| - |suffix|..] == suffix && t[..|t| - |suffix|] == s;
  }

  /** Such an entry admits the directory and what lies below it, and nothing else. */
  lemma AdmittedMeans(base: string, path: string)
    requires !EndsWith(base, "/") && !EndsWith(base, "/**")
    ensures forall entry <- {base, base + "/", base + "/**", base + "/**/"} ::
      AdmittedBy(entry, path) <==> path == base || base + "/" <= path
  {
    NormalForms(base);
    assert TrimSuffix(base, "/") == base;
    hide NormalizeScope;
  }

  lemma StableMeansNoMarker(entry: string)
    ensures Stable(entry) <==>
              !EndsWith(NormalizeScope(entry), "/") && !EndsWith(NormalizeScope(entry), "/**")
  {
    var n := NormalizeScope(entry);
    if EndsWith(n, "/") {
      assert |TrimSuffix(n, "/")| < |n|;
    }
  }

  lemma StableIsSlashless(entry: string)
    requires Stable(entry)
    ensures Slashless(entry)
  {
    StableMeansNoMarker(entry);
  }

  lemma {:induction false} StableStays(entry: string, n: nat)
    requires Stable(entry) && n > 0
    ensures Renormalized(entry, n) == NormalizeScope(entry)
  {
    if n > 1 {
      StableStays(entry, n - 1);
    }
  }

  predicate Below(base: string, path: string) {
    path == base || base + "/" <= path
  }

  lemma PlainAdmission(entry: string, path: string)
    requires Slashless(entry)
    ensures AdmittedBy(entry, path) <==> Below(NormalizeScope(entry), path)
  {
    hide NormalizeScope;
  }

  /** Bases that share a path meet. */
  lemma SharedPathMeets(x: string, y: string, path: string)
    requires Below(x, path) && Below(y, path)
    ensures Meets(x, y)
  {
    if path != x && path != y && |x| < |y| {
      assert (x + "/")[..] == path[..|x| + 1];
      assert y == path[..|y|];
      assert x + "/" == y[..|x| + 1];
    } else if path != x && path != y && |y| < |x| {
      assert x == path[..|x|];
      assert y + "/" == x[..|y| + 1];
    } else if path != x && path != y {
      assert x == path[..|x|] && y == path[..|y|];
    }
  }

  lemma OverlapMeansContested(a: seq<string>, b: seq<string>)
    requires forall i :: 0 <= i < |a| ==> Stable(a[i])
    requires forall j :: 0 <= j < |b| ==> Slashless(b[j])
    ensures Overlap(a, b) ==> Contested(a, b)
  {
    hide NormalizeScope, Renormalized, AdmittedBy;
    if i, j :| 0 <= i < |a| && 0 <= j < |b| && Meets(Renormalized(a[i], j + 1), NormalizeScope(b[j])) {
      StableStays(a[i], j + 1);
      StableMeansNoMarker(a[i]);
      var x, y := NormalizeScope(a[i]), NormalizeScope(b[j]);
      var path := if y + "/" <= x then x else y;
      PlainAdmission(a[i], path);
      PlainAdmission(b[j], path);
      assert Admits(a, path) && Admits(b, path);
    }
  }

  lemma ContestedMeansOverlap(a: seq<string>, b: seq<string>)
    requires forall i :: 0 <= i < |a| ==> Stable(a[i])
    requires forall j :: 0 <= j < |b| ==> Slashless(b[j])
    requires Contested(a, b)
    ensures Overlap(a, b)
  {
    hide NormalizeScope, Renormalized, AdmittedBy, Meets;
    var path :| Admits(a, path) && Admits(b, path);
    var i :| 0 <= i < |a| && AdmittedBy(a[i], path);
    var j :| 0 <= j < |b| && AdmittedBy(b[j], path);
    StableMeansNoMarker(a[i]);
    PlainAdmission(a[i], path);
    PlainAdmission(b[j], path);
    SharedPathMeets(NormalizeScope(a[i]), NormalizeScope(b[j]), path);
    StableStays(a[i], j + 1);
  }

  /** For stable entries on the left and slashless ones on the right the verdict is exact. */
  lemma OverlapExact(a: seq<string>, b: seq<string>)
    requires forall i :: 0 <= i < |a| ==> Stable(a[i])
    requires forall j :: 0 <= j < |b| ==> Slashless(b[j])
    ensures Overlap(a, b) <==> Contested(a, b)
  {
    OverlapMeansContested(a, b);
    if Contested(a, b) {
      ContestedMeansOverlap(a, b);
    }
  }

  /** The verdict on `entry` is exact against every list the right-hand side may hold. */
  ghost predicate ExactOnLeft(entry: string) {
    forall b: seq<string> :: (forall j :: 0 <= j < |b| ==> Slashless(b[j])) ==>
      (Overlap([entry], b) <==> Contested([entry], b))
  }

  ghost predicate ExactOnRight(entry: string) {
    forall a: seq<string> :: (forall i :: 0 <= i < |a| ==> Stable(a[i])) ==>
      (Overlap(a, [entry]) <==> Contested(a, [entry]))
  }

  /** A trailing slash that survives normalization hides everything below the directory. */
  lemma TrailingSlashMisses(entry: string, below: string)
    requires !Slashless(entry) && below == NormalizeScope(entry) + "x"
    ensures NormalizeScope(below) == below && Stable(below)
    ensures !Meets(NormalizeScope(entry), below) && !Meets(below, NormalizeScope(entry))
    ensures AdmittedBy(entry, below) && AdmittedBy(below, below)
  {
    var n := NormalizeScope(entry);
    assert below[|below| - 1] == 'x';
    assert TrimSuffix(n, "/") + "/" == n;
  }

  /** The second normalization of a doubled glob marker. */
  lemma DoubledMarker(entry: string)
    requires Slashless(entry) && !Stable(entry)
    ensures NormalizeScope(entry) == NormalizeScope(NormalizeScope(entry)) + "/**"
  {
    StableMeansNoMarker(entry);
    var n := NormalizeScope(entry);
    assert TrimSuffix(n, "/") == n;
    assert n == n[..|n| - 3] + n[|n| - 3..];
  }

  lemma PlainEntry(s: string)
    requires s != "" && s[|s| - 1] == 'x'
    ensures NormalizeScope(s) == s && Stable(s) && Slashless(s)
  {
    assert TrimSuffix(s, "/") == s && TrimSuffix(s, "/**") == s;
  }

  /** A second glob marker is stripped only when the entry is compared again. */
  lemma SecondMarkerWidens(entry: string, b: seq<string>)
    requires Slashless(entry) && !Stable(entry)
    requires b == [NormalizeScope(entry) + "x", NormalizeScope(NormalizeScope(entry)) + "/x"]
    ensures forall j :: 0 <= j < |b| ==> Slashless(b[j])
    ensures Overlap([entry], b) && !Contested([entry], b)
  {
    hide NormalizeScope, AdmittedBy, Slashless, Stable;
    DoubledMarker(entry);
    var n := NormalizeScope(entry);
    var m := NormalizeScope(n);
    PlainEntry(b[0]);
    PlainEntry(b[1]);
    assert Renormalized(entry, 2) == m by {
      assert Renormalized(entry, 1) == n;
    }
    assert Meets(Renormalized([entry][0], 1 + 1), NormalizeScope(b[1]));
    assert n[|m| + 1] == '*' && b[1][|m| + 1] == 'x' && b[0][|n|] == 'x';
    assert !Meets(n, b[0]) && !Meets(n, b[1]);
    forall path | Admits([entry], path) ensures !Admits(b, path) {
      forall j | 0 <= j < |b| ensures !AdmittedBy(b[j], path) {
        PlainAdmission(entry, path);
        PlainAdmission(b[j], path);
        if Below(n, path) && Below(b[j], path) {
          SharedPathMeets(n, b[j], path);
        }
      }
    }
  }

  /** Left entries are judged exactly if and only if a second normalization leaves them alone. */
  lemma ExactOnLeftIffStable(entry: string)
    ensures ExactOnLeft(entry) <==> Stable(entry)
  {
    hide NormalizeScope, AdmittedBy, Meets, Renormalized, Slashless, Stable;
    if Stable(entry) {
      forall b: seq<string> | forall j :: 0 <= j < |b| ==> Slashless(b[j])
        ensures Overlap([entry], b) <==> Contested([entry], b)
      {
        OverlapExact([entry], b);
      }
    } else if Slashless(entry) {
      SecondMarkerWidens(entry, [NormalizeScope(entry) + "x", NormalizeScope(NormalizeScope(entry)) + "/x"]);
    } else {
      var below := NormalizeScope(entry) + "x";
      TrailingSlashMisses(entry, below);
      PlainEntry(below);
      SingletonOverlap(entry, below);
      assert AdmittedBy([entry][0], below) && AdmittedBy([below][0], below);
      assert Admits([entry], below) && Admits([below], below);
    }
  }

  lemma SingletonOverlap(e: string, f: string)
    ensures Overlap([e], [f]) <==> Meets(NormalizeScope(e), NormalizeScope(f))
  {
    hide NormalizeScope, Meets;
    assert Renormalized(e, 1) == NormalizeScope(e);
    if Meets(NormalizeScope(e), NormalizeScope(f)) {
      assert Meets(Renormalized([e][0], 0 + 1), NormalizeScope([f][0]));
    }
  }

  /** Right entries are judged exactly if and only if their normal form carries no trailing slash. */
  lemma ExactOnRightIffSlashless(entry: string)
    ensures ExactOnRight(entry) <==> Slashless(entry)
  {
    hide NormalizeScope, AdmittedBy, Meets, Renormalized, Slashless, Stable;
    if Slashless(entry) {
      forall a: seq<string> | forall i :: 0 <= i < |a| ==> Stable(a[i])
        ensures Overlap(a, [entry]) <==> Contested(a, [entry])
      {
        OverlapExact(a, [entry]);
      }
    } else {
      var below := NormalizeScope(entry) + "x";
      TrailingSlashMisses(entry, below);
      SingletonOverlap(below, entry);
      assert AdmittedBy([entry][0], below) && AdmittedBy([below][0], below);
      assert Admits([entry], below) && Admits([below], below);
    }
  }

  /** On stable lists the verdict is symmetric and blind to order and repetition. */
  lemma OverlapSymmetric(a: seq<string>, b: seq<string>, a': seq<string>, b': seq<string>)
    requires forall i :: 0 <= i < |a| ==> Stable(a[i])
    requires forall j :: 0 <= j < |b| ==> Stable(b[j])
    requires forall e :: (e in a <==> e in a') && (e in b <==> e in b')
    ensures Overlap(a, b) <==> Overlap(b', a')
  {
    hide NormalizeScope, AdmittedBy, Meets, Renormalized, Slashless, Stable;
    forall i | 0 <= i < |a'| ensures Stable(a'[i]) && Slashless(a'[i]) {
      assert a'[i] in a;
      StableIsSlashless(a'[i]);
    }
    forall j | 0 <= j < |b| ensures Slashless(b[j]) {
      StableIsSlashless(b[j]);
    }
    forall j | 0 <= j < |b'| ensures Stable(b'[j]) {
      assert b'[j] in b;
    }
    OverlapExact(a, b);
    OverlapExact(b', a');
    forall path ensures Admits(a, path) <==> Admits(a', path) {
      SameEntriesAdmit(a, a', path);
    }
    forall path ensures Admits(b, path) <==> Admits(b', path) {
      SameEntriesAdmit(b, b', path);
    }
  }

  lemma SameEntriesAdmit(a: seq<string>, b: seq<string>, path: string)
    requires forall e :: e in a <==> e in b
    ensures Admits(a, path) <==> Admits(b, path)
  {
    hide AdmittedBy;
    if i :| 0 <= i < |a| && AdmittedBy(a[i], path) {
      assert a[i] in b;
    }
    if i :| 0 <= i < |b| && AdmittedBy(b[i], path) {
      assert b[i] in a;
    }
  }

  lemma NormalOfDoubled()
    ensures NormalizeScope("src/**/**") == "src/**"
  {
    var e := "src/**/**";
    assert |e| == 9 && e[8] == '*' && e[6..] == "/**" && e[..6] == "src/**";
    assert TrimSuffix(e, "/") == e;
  }

  lemma NormalOfMarked()
    ensures NormalizeScope("src/**") == "src"
  {
    var e := "src/**";
    assert |e| == 6 && e[5] == '*' && e[3..] == "/**" && e[..3] == "src";
    assert TrimSuffix(e, "/") == e;
  }

  lemma NotMet(m: string)
    ensures !Meets(m + "/**", m + "/x")
  {
    var n, y := m + "/**", m + "/x";
    assert n[|m| + 1] == '*' && y[|m| + 1] == 'x';
  }

  /** An entry with two glob markers misses a path below it, unless another entry was compared first. */
  lemma MarkedTwice(entry: string, m: string)
    requires NormalizeScope(entry) == m + "/**" && NormalizeScope(m + "/**") == m
    ensures !Overlap([entry], [m + "/x"])
    ensures Overlap([entry], [m + "/**" + "x", m + "/x"]) && !Contested([entry], [m + "/**" + "x", m + "/x"])
  {
    hide NormalizeScope, Overlap, Contested, Meets;
    var n := m + "/**";
    assert n[|n| - 1] == '*';
    assert Slashless(entry) && !Stable(entry);
    SecondMarkerWidens(entry, [n + "x", m + "/x"]);
    PlainEntry(m + "/x");
    SingletonOverlap(entry, m + "/x");
    NotMet(m);
  }

  /** The same two entries conflict or not depending on what stands before them in the list. */
  lemma VerdictDependsOnPosition()
    ensures !Overlap(["src/**/**"], ["src/x"])
    ensures Overlap(["src/**/**"], ["src/**x", "src/x"])
    ensures !Contested(["src/**/**"], ["src/**x", "src/x"])
  {
    hide *;
    NormalOfDoubled();
    NormalOfMarked();
    assert "src" + "/**" == "src/**" && "src" + "/x" == "src/x" && "src/**" + "x" == "src/**x";
    MarkedTwice("src/**/**", "src");
  }
}
