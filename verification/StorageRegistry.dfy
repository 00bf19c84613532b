/** Which storage backend a path gets. Paths and prefixes are taken as already cleaned. */
module StorageRegistry {
  import opened Common

  type Path = string
  type Backend(==)

  // Byte order of strings.
  predicate Less(a: Path, b: Path) {
    b != [] && (a == [] || a[0] < b[0] || (a[0] == b[0] && Less(a[1..], b[1..])))
  }

  // The order of the prefix list: longest first.
  predicate Before(a: Path, b: Path) {
    if |a| != |b| then |a| > |b| else Less(a, b)
  }

  lemma {:induction false} LessTotal(a: Path, b: Path)
    ensures Less(a, b) || a == b || Less(b, a)
    ensures !(Less(a, b) && Less(b, a)) && !Less(a, a)
  {
    if a != [] && b != [] {
      LessTotal(a[1..], b[1..]);
      LessTotal(a[1..], a[1..]);
      assert a == [a[0]] + a[1..] && b == [b[0]] + b[1..];
    } else if a != [] {
      LessTotal(a[1..], a[1..]);
    }
  }

  lemma {:induction false} LessTransitive(a: Path, b: Path, c: Path)
    requires Less(a, b) && Less(b, c)
    ensures Less(a, c)
  {
    if a != [] && a[0] == b[0] == c[0] { LessTransitive(a[1..], b[1..], c[1..]); }
  }

  predicate Sorted(ps: seq<Path>) {
    forall i, j :: 0 <= i < j < |ps| ==> Before(ps[i], ps[j])
  }

  // The registration prefix p covers the path.
  predicate Matches(p: Path, path: Path) {
    path == p || p + "/" <= path
  }

  /** Two registered prefixes of one path are told apart by their lengths. */
  lemma MatchByLength(p: Path, q: Path, path: Path)
    requires Matches(p, path) && Matches(q, path) && |p| == |q|
    ensures p == q
  {
    assert p == path[..|p|] && q == path[..|q|];
  }

  /** The root as a prefix covers no other cleaned path: none starts with two separators. */
  lemma RootCoversItself(path: Path)
    requires !("//" <= path)
    ensures Matches("/", path) <==> path == "/"
  {
    assert "/" + "/" == "//";
  }

  // The longest registered prefix of the path, if there is one.
  ghost predicate IsLongest(prefixes: set<Path>, path: Path, p: Path) {
    p in prefixes && Matches(p, path) && forall q :: q in prefixes && Matches(q, path) ==> |q| <= |p|
  }

  lemma LongestIsOne(prefixes: set<Path>, path: Path, p: Path, q: Path)
    requires IsLongest(prefixes, path, p) && IsLongest(prefixes, path, q)
    ensures p == q
  {
    MatchByLength(p, q, path);
  }

  class Registry {
    var prefixes: seq<Path>
    var byPrefix: map<Path, Backend>
    var fallback: Option<Backend>

    ghost predicate Valid()
      reads this
    {
      Sorted(prefixes) && forall p :: p in prefixes <==> p in byPrefix
    }

    constructor ()
      ensures Valid() && byPrefix == map[] && fallback == None
    {
      prefixes, byPrefix, fallback := [], map[], None;
    }

    // The appended prefix is sorted into the list.
    method Insert(p: Path)
      requires Sorted(prefixes) && p !in prefixes
      modifies this`prefixes
      ensures Sorted(prefixes) && multiset(prefixes) == multiset(old(prefixes)) + multiset{p}
    {
      var k := |prefixes|;
      while k > 0 && Before(p, prefixes[k - 1])
        invariant 0 <= k <= |prefixes|
        invariant forall i :: k <= i < |prefixes| ==> Before(p, prefixes[i])
      {
        k := k - 1;
      }
      forall i | 0 <= i < k ensures Before(prefixes[i], p) {
        assert prefixes[i] in prefixes && prefixes[k - 1] in prefixes;
        LessTotal(prefixes[k - 1], p);
        if i < k - 1 && |prefixes[i]| == |p| { LessTransitive(prefixes[i], prefixes[k - 1], p); }
      }
      assert prefixes == prefixes[..k] + prefixes[k..];
      prefixes := prefixes[..k] + [p] + prefixes[k..];
    }

    method Set(prefix: Path, b: Backend)
      requires Valid()
      modifies this
      ensures Valid() && byPrefix == old(byPrefix)[prefix := b] && fallback == old(fallback)
    {
      if prefix !in byPrefix {
        ghost var were := prefixes;
        Insert(prefix);
        forall p ensures p in prefixes <==> p in were || p == prefix {
          assert p in prefixes <==> p in multiset(prefixes);
          assert p in were <==> p in multiset(were);
        }
      }
      byPrefix := byPrefix[prefix := b];
    }

    method SetFallback(b: Backend)
      requires Valid()
      modifies this`fallback
      ensures Valid() && fallback == Some(b)
    {
      fallback := Some(b);
    }

    /** The backend of the longest registered prefix; the fallback when there is none. No backend at all means
        that the program panics. */
    method For(path: Path) returns (b: Option<Backend>)
      requires Valid()
      ensures forall p :: IsLongest(byPrefix.Keys, path, p) ==> b == Some(byPrefix[p])
      ensures (forall p :: p in byPrefix ==> !Matches(p, path)) ==> b == fallback
      ensures (exists p :: p in byPrefix && Matches(p, path)) ==> exists p :: IsLongest(byPrefix.Keys, path, p)
    {
      var k := 0;
      while k < |prefixes|
        invariant 0 <= k <= |prefixes|
        invariant forall i :: 0 <= i < k ==> !Matches(prefixes[i], path)
      {
        if Matches(prefixes[k], path) {
          ghost var p := prefixes[k];
          assert p in prefixes;
          forall q | q in byPrefix.Keys && Matches(q, path) ensures |q| <= |p| {
            assert q in prefixes;
          }
          assert IsLongest(byPrefix.Keys, path, p);
          forall q | IsLongest(byPrefix.Keys, path, q) ensures q == p {
            LongestIsOne(byPrefix.Keys, path, p, q);
          }
          return Some(byPrefix[prefixes[k]]);
        }
        k := k + 1;
      }
      forall p | p in byPrefix ensures !Matches(p, path) { assert p in prefixes; }
      return fallback;
    }
  }
}
