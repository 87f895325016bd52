/** The selection toggle of `handleFileSelect`: a path already in the list is
    filtered out (every occurrence), any other path is appended at the end. */
module Selection {

  predicate NoDup(s: seq<string>) {
    forall i, j | 0 <= i < j < |s| :: s[i] != s[j]
  }

  /** `s.filter(file => file !== p)`: keeps every other element, in order. */
  function RemoveAll(s: seq<string>, p: string): (r: seq<string>)
    ensures forall x :: x in r <==> x in s && x != p
    ensures multiset(r) == multiset(s)[p := 0]
    ensures |r| <= |s|
  {
    if s == [] then []
    else
      assert s == [s[0]] + s[1..];
      if s[0] == p then RemoveAll(s[1..], p) else [s[0]] + RemoveAll(s[1..], p)
  }

  /** The new selection computed by `handleFileSelect(p)`. As a set it is the
      old selection with `p` flipped. */
  function Toggle(s: seq<string>, p: string): (r: seq<string>)
    ensures forall x :: x in r <==> (x in s) != (x == p)
    ensures p in s ==> multiset(r) == multiset(s)[p := 0]
    ensures p !in s ==> r == s + [p]
  {
    if p in s then RemoveAll(s, p) else s + [p]
  }

  /** Filtering commutes with concatenation, so it keeps the order of the kept elements. */
  lemma {:induction false} RemoveAllAppend(a: seq<string>, b: seq<string>, p: string)
    ensures RemoveAll(a + b, p) == RemoveAll(a, p) + RemoveAll(b, p)
  {
    if a == [] {
      assert a + b == b;
    } else {
      assert (a + b)[1..] == a[1..] + b;
      RemoveAllAppend(a[1..], b, p);
    }
  }

  /** Filtering out a path that does not occur changes nothing. */
  lemma {:induction false} RemoveAllAbsent(s: seq<string>, p: string)
    requires p !in s
    ensures RemoveAll(s, p) == s
  {
    if s != [] {
      RemoveAllAbsent(s[1..], p);
    }
  }

  /** Toggling a path that was not selected, twice, gives back the very same list. */
  lemma ToggleTwiceAbsent(s: seq<string>, p: string)
    requires p !in s
    ensures Toggle(Toggle(s, p), p) == s
  {
    RemoveAllAppend(s, [p], p);
    RemoveAllAbsent(s, p);
    assert RemoveAll([p], p) == [];
  }

  /** Toggling twice always gives back the same set of selected paths. */
  lemma ToggleTwiceSameSet(s: seq<string>, p: string)
    ensures (set x | x in Toggle(Toggle(s, p), p)) == (set x | x in s)
  {
  }

  /** Toggling a selected path twice moves it to the end: every occurrence is
      filtered out, then the path is appended once. */
  lemma ToggleTwicePresent(s: seq<string>, p: string)
    requires p in s
    ensures Toggle(Toggle(s, p), p) == RemoveAll(s, p) + [p]
  {
  }

  /** So the list is restored only as a set, not as a sequence. */
  lemma ToggleTwicePresentReorders()
    ensures Toggle(Toggle(["a.js", "b.js"], "a.js"), "a.js") == ["b.js", "a.js"]
  {
  }

  /** Filtering keeps a duplicate-free list duplicate-free. */
  lemma {:induction false} RemoveAllNoDup(s: seq<string>, p: string)
    requires NoDup(s)
    ensures NoDup(RemoveAll(s, p))
  {
    if s != [] {
      assert NoDup(s[1..]) by {
        forall i, j | 0 <= i < j < |s[1..]| ensures s[1..][i] != s[1..][j] {
          assert s[1..][i] == s[i + 1] && s[1..][j] == s[j + 1];
        }
      }
      RemoveAllNoDup(s[1..], p);
      if s[0] != p {
        var rest := RemoveAll(s[1..], p);
        assert s[0] !in s[1..] by {
          forall k | 0 <= k < |s[1..]| ensures s[1..][k] != s[0] {
            assert s[1..][k] == s[k + 1];
          }
        }
        assert s[0] !in rest;
        forall i, j | 0 <= i < j < |[s[0]] + rest| ensures ([s[0]] + rest)[i] != ([s[0]] + rest)[j] {
          if i == 0 {
            assert ([s[0]] + rest)[j] == rest[j - 1];
          } else {
            assert ([s[0]] + rest)[i] == rest[i - 1] && ([s[0]] + rest)[j] == rest[j - 1];
          }
        }
      }
    }
  }

  /** A duplicate-free selection stays duplicate-free under any toggle. */
  lemma ToggleNoDup(s: seq<string>, p: string)
    requires NoDup(s)
    ensures NoDup(Toggle(s, p))
  {
    if p in s {
      RemoveAllNoDup(s, p);
    } else {
      var r := s + [p];
      forall i, j | 0 <= i < j < |r| ensures r[i] != r[j] {
        if j == |s| {
          assert r[i] == s[i] && s[i] in s;
        } else {
          assert r[i] == s[i] && r[j] == s[j];
        }
      }
    }
  }

  /** When the toggled path comes from the listing, a selection drawn from the
      listing stays drawn from it. */
  lemma ToggleWithinListing(files: seq<string>, s: seq<string>, p: string)
    requires forall x | x in s :: x in files
    requires p in files
    ensures forall x | x in Toggle(s, p) :: x in files
  {
  }
}
