/** Files as sequences of lines, directories as maps from names to files, and sums over them. */
module Files {
  import opened Text

  /** A file: its lines, each with its line end. */
  type File = seq<string>
  type Dir = map<string, File>

  // ---------------------------------------------------------------- selecting lines

  /** What a filtering loop has written after reading xs. */
  function Keep<T>(p: T -> bool, xs: seq<T>): seq<T> {
    if xs == [] then []
    else Keep(p, xs[..|xs| - 1]) + if p(xs[|xs| - 1]) then [xs[|xs| - 1]] else []
  }

  function Take<T>(n: nat, xs: seq<T>): seq<T> {
    if n <= |xs| then xs[..n] else xs
  }

  lemma KeepStep<T>(p: T -> bool, xs: seq<T>, i: nat)
    requires i < |xs|
    ensures Keep(p, xs[..i + 1]) == Keep(p, xs[..i]) + if p(xs[i]) then [xs[i]] else []
  {
    assert xs[..i + 1][..i] == xs[..i];
  }

  lemma {:induction false} KeepMember<T>(p: T -> bool, xs: seq<T>, x: T)
    ensures x in Keep(p, xs) <==> x in xs && p(x)
  {
    if xs != [] {
      var n := |xs| - 1;
      KeepMember(p, xs[..n], x);
      assert xs == xs[..n] + [xs[n]];
    }
  }

  /** Filtering keeps the order of the lines: any two kept ones come from two places of the
      input in the same order. */
  lemma {:induction false} KeepPlaces<T>(p: T -> bool, xs: seq<T>, i: nat, j: nat) returns (a: nat, b: nat)
    requires i < j < |Keep(p, xs)|
    ensures a < b < |xs| && Keep(p, xs)[i] == xs[a] && Keep(p, xs)[j] == xs[b]
  {
    var n := |xs| - 1;
    var ys := Keep(p, xs[..n]);
    if j < |ys| {
      a, b := KeepPlaces(p, xs[..n], i, j);
    } else {
      b := n;
      assert ys[i] in ys;
      KeepMember(p, xs[..n], ys[i]);
      a :| 0 <= a < n && xs[a] == ys[i];
    }
  }

  // ---------------------------------------------------------------- sums over directories

  /** The sum of a measure over the files of a directory, whatever their order. */
  ghost function Sum(d: Dir, f: File -> nat): nat
    decreases |d|
  {
    if d == map[] then 0
    else
      var n :| n in d;
      f(d[n]) + Sum(d - {n}, f)
  }

  lemma {:induction false} SumRemove(d: Dir, n: string, f: File -> nat)
    requires n in d
    ensures Sum(d, f) == f(d[n]) + Sum(d - {n}, f)
    decreases |d|
  {
    var m :| m in d && Sum(d, f) == f(d[m]) + Sum(d - {m}, f);
    if m != n {
      SumRemove(d - {m}, n, f);
      SumRemove(d - {n}, m, f);
      assert d - {m} - {n} == d - {n} - {m};
    }
  }

  lemma SumPut(d: Dir, n: string, file: File, f: File -> nat)
    ensures Sum(d[n := file], f) == Sum(d - {n}, f) + f(file)
  {
    SumRemove(d[n := file], n, f);
    assert d[n := file] - {n} == d - {n};
  }

  lemma {:induction false} SumDisjoint(d: Dir, e: Dir, f: File -> nat)
    requires d.Keys !! e.Keys
    ensures Sum(d + e, f) == Sum(d, f) + Sum(e, f)
    decreases |e|
  {
    if e == map[] {
      assert d + e == d;
    } else {
      var n :| n in e;
      SumDisjoint(d, e - {n}, f);
      SumJoinOne(d, e, n, f);
    }
  }

  lemma SumJoinOne(d: Dir, e: Dir, n: string, f: File -> nat)
    requires n in e && n !in d
    requires Sum(d + (e - {n}), f) == Sum(d, f) + Sum(e - {n}, f)
    ensures Sum(d + e, f) == Sum(d, f) + Sum(e, f)
  {
    JoinMinus(d, e, n);
    SumRemove(d + e, n, f);
    SumRemove(e, n, f);
  }

  lemma JoinMinus(d: Dir, e: Dir, n: string)
    requires n in e && n !in d
    ensures n in d + e && (d + e)[n] == e[n] && (d + e) - {n} == d + (e - {n})
  {
  }

  /** A measure that counts lines. */
  ghost predicate Additive(f: File -> nat) {
    f([]) == 0 && forall a: File, b: File :: f(a + b) == f(a) + f(b)
  }

  // ---------------------------------------------------------------- the part of a directory with given names

  function Only(d: Dir, names: set<string>): (e: Dir)
    ensures e.Keys == d.Keys * names
    ensures forall n | n in e :: e[n] == d[n]
  {
    map n | n in d && n in names :: d[n]
  }

  /** The order in which `readdir` may list a directory: any. */
  ghost predicate IsListing(names: seq<string>, d: Dir) {
    && (forall n :: n in names <==> n in d)
    && (forall i, j | 0 <= i < j < |names| :: names[i] != names[j])
  }
}
