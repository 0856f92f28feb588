/** Counted log lines with an empty id: when they break a selection stage, as far as that follows
    from the logs and the files of a host. Ids with equal counts may come in any order, and between
    the two bounds it is that order that decides. */
module EmptyIds {
  import opened Text
  import opened Files
  import opened Counting
  import opened Selection
  import opened ProDeal
  import opened Services

  // ---------------------------------------------------------------- where the empty id stands

  function Ids(es: seq<Entry>): set<string> {
    set e | e in es :: e.sid
  }

  function IdsUnder(es: seq<Entry>, c: int): set<string> {
    set e | e in es && e.count < c :: e.sid
  }

  function IdsUpTo(es: seq<Entry>, c: int): set<string> {
    set e | e in es && e.count <= c :: e.sid
  }

  function IdsOver(es: seq<Entry>, c: int): set<string> {
    set e | e in es && e.count > c :: e.sid
  }

  function IdsFrom(es: seq<Entry>, c: int): set<string> {
    set e | e in es && e.count >= c :: e.sid
  }

  lemma {:induction false} IdCount(es: seq<Entry>)
    requires DistinctSids(es)
    ensures |Ids(es)| == |es|
  {
    if es != [] {
      var n := |es| - 1;
      IdCount(es[..n]);
      assert es == es[..n] + [es[n]];
      assert Ids(es) == Ids(es[..n]) + {es[n].sid};
      assert es[n].sid !in Ids(es[..n]);
    }
  }

  lemma SubsetSize(a: set<string>, b: set<string>)
    requires a <= b
    ensures |a| <= |b|
  {
    assert b == a + (b - a);
  }

  /** In either order, all before an entry are on its side of the count, and all strictly on that
      side are before it. */
  lemma PlaceBounds(es: seq<Entry>, p: nat, descending: bool)
    requires DistinctSids(es) && InOrder(es, descending) && p < |es|
    ensures !descending ==> |IdsUnder(es, es[p].count)| <= p < |IdsUpTo(es, es[p].count)|
    ensures descending ==> |IdsOver(es, es[p].count)| <= p < |IdsFrom(es, es[p].count)|
  {
    var c := es[p].count;
    IdCount(es[..p]);
    IdCount(es[..p + 1]);
    if descending {
      BeforeAreOver(es, p);
      SubsetSize(IdsOver(es, c), Ids(es[..p]));
      SubsetSize(Ids(es[..p + 1]), IdsFrom(es, c));
    } else {
      BeforeAreUnder(es, p);
      SubsetSize(IdsUnder(es, c), Ids(es[..p]));
      SubsetSize(Ids(es[..p + 1]), IdsUpTo(es, c));
    }
  }

  lemma BeforeAreUnder(es: seq<Entry>, p: nat)
    requires InOrder(es, false) && p < |es|
    ensures IdsUnder(es, es[p].count) <= Ids(es[..p]) && Ids(es[..p + 1]) <= IdsUpTo(es, es[p].count)
  {
    forall e | e in es && e.count < es[p].count
      ensures e in es[..p]
    {
      var i :| 0 <= i < |es| && es[i] == e;
      assert i < p;
    }
    forall e | e in es[..p + 1]
      ensures e in es && e.count <= es[p].count
    {
      var i :| 0 <= i <= p && es[i] == e;
    }
  }

  lemma BeforeAreOver(es: seq<Entry>, p: nat)
    requires InOrder(es, true) && p < |es|
    ensures IdsOver(es, es[p].count) <= Ids(es[..p]) && Ids(es[..p + 1]) <= IdsFrom(es, es[p].count)
  {
    forall e | e in es && e.count > es[p].count
      ensures e in es[..p]
    {
      var i :| 0 <= i < |es| && es[i] == e;
      assert i < p;
    }
    forall e | e in es[..p + 1]
      ensures e in es && e.count >= es[p].count
    {
      var i :| 0 <= i <= p && es[i] == e;
    }
  }

  lemma ListedIff(unasked: seq<string>, es: seq<Entry>, limit: nat, p: nat)
    requires DistinctSids(es) && p < |es| && es[p].sid == ""
    ensures ListsEmptyId(ColdList(unasked, es, limit)) <==> |unasked| + p < limit
  {
    var cs := ColdList(unasked, es, limit);
    if |unasked| + p < limit {
      assert cs[|unasked| + p] in cs;
    }
    if ListsEmptyId(cs) {
      var c :| c in cs && c.Queried? && c.entry.sid == "";
      var j :| 0 <= j < |cs| && cs[j] == c;
      assert es[j - |unasked|].sid == "";
    }
  }

  function FreeNames(names: seq<string>, keys: set<int>): set<string> {
    set n | n in names && Atoi(n + "\n") !in keys
  }

  lemma FreeNamesStep(names: seq<string>, n: string, keys: set<int>)
    requires n !in names
    ensures |FreeNames(names + [n], keys)| == |FreeNames(names, keys)| + if Atoi(n + "\n") !in keys then 1 else 0
  {
    var more := if Atoi(n + "\n") !in keys then {n} else {};
    assert FreeNames(names + [n], keys) == FreeNames(names, keys) + more;
  }

  lemma {:induction false} KeptNames(names: seq<string>, keys: set<int>)
    requires Distinct(names)
    ensures |Keep(KeyNotIn(keys), NameLines(names))| == |FreeNames(names, keys)|
  {
    if names != [] {
      var k := |names| - 1;
      KeptNames(names[..k], keys);
      assert NameLines(names)[..k] == NameLines(names[..k]);
      assert names == names[..k] + [names[k]];
      FreeNamesStep(names[..k], names[k], keys);
    }
  }

  // ---------------------------------------------------------------- by the logs and the files

  /** The files of a host that nobody asked for. */
  ghost function ColdFiles(ds: Dirs, cutoff: Time): set<string>
    requires Configured(ds)
  {
    set n | n in ds[AFP] && forall sid | Atoi(sid) == Atoi(n + "\n") :: Volume(LogsAt(ds, cutoff), sid) == 0
  }

  /** An id is owned with a count if and only if it was asked for so often and a file has its key. */
  lemma OwnedByLogs(r: Ranking, ds: Dirs, cutoff: Time, descending: bool, e: Entry)
    requires Configured(ds) && Ranks(r, ds, cutoff, descending)
    ensures e in Owned(r) <==>
            && e.count == Volume(LogsAt(ds, cutoff), e.sid) > 0
            && exists n | n in ds[AFP] :: Atoi(n + "\n") == Key(e)
  {
    var names := NameLines(r.names);
    OwnedIff(names, r.es, e);
    if Key(e) in KeysOf(names) {
      var n := NameOfKey(r.names, Key(e));
      assert n in ds[AFP];
    }
    if n :| n in ds[AFP] && Atoi(n + "\n") == Key(e) {
      var i :| 0 <= i < |r.names| && r.names[i] == n;
      assert names[i] in names;
    }
  }

  lemma ColdFileIff(r: Ranking, ds: Dirs, cutoff: Time, descending: bool, n: string)
    requires Configured(ds) && Ranks(r, ds, cutoff, descending) && n in ds[AFP]
    ensures n in ColdFiles(ds, cutoff) <==> Atoi(n + "\n") !in EntryKeys(Owned(r))
  {
    if Atoi(n + "\n") in EntryKeys(Owned(r)) {
      var e :| e in Owned(r) && Key(e) == Atoi(n + "\n");
      OwnedByLogs(r, ds, cutoff, descending, e);
    }
    if sid :| Atoi(sid) == Atoi(n + "\n") && Volume(LogsAt(ds, cutoff), sid) != 0 {
      OwnedByLogs(r, ds, cutoff, descending, Entry(sid, Volume(LogsAt(ds, cutoff), sid)));
    }
  }

  lemma ColdFilesCount(r: Ranking, ds: Dirs, cutoff: Time, descending: bool)
    requires Configured(ds) && Ranks(r, ds, cutoff, descending)
    ensures |Unasked(NameLines(r.names), Owned(r))| == |ColdFiles(ds, cutoff)|
  {
    var keys := EntryKeys(Owned(r));
    KeptNames(r.names, keys);
    assert FreeNames(r.names, keys) == ColdFiles(ds, cutoff) by {
      forall n | n in ds[AFP]
        ensures n in ColdFiles(ds, cutoff) <==> Atoi(n + "\n") !in keys
      {
        ColdFileIff(r, ds, cutoff, descending, n);
      }
    }
  }

  lemma EmptyIdAt(r: Ranking, ds: Dirs, cutoff: Time, descending: bool) returns (p: nat)
    requires Configured(ds) && Ranks(r, ds, cutoff, descending) && exists e | e in Owned(r) :: e.sid == ""
    ensures p < |Owned(r)| && Owned(r)[p] == Entry("", Volume(LogsAt(ds, cutoff), ""))
    ensures DistinctSids(Owned(r)) && InOrder(Owned(r), descending)
  {
    var e :| e in Owned(r) && e.sid == "";
    OwnedByLogs(r, ds, cutoff, descending, e);
    p :| 0 <= p < |Owned(r)| && Owned(r)[p] == e;
    OwnedSidsDiffer(r);
    OwnedStayInOrder(r.es, NameLines(r.names), descending);
  }

  /** The main cache does not break if the unasked files and the owned ids asked for less often
      than the empty id fill the cold list, and breaks if the unasked files and the owned ids
      asked for at most as often fit. */
  lemma MainBreaks(r: Ranking, ds: Dirs, cutoff: Time, limit: nat)
    requires Configured(ds) && Ranks(r, ds, cutoff, false) && exists e | e in Owned(r) :: e.sid == ""
    ensures var c := Volume(LogsAt(ds, cutoff), "");
            && (|ColdFiles(ds, cutoff)| + |IdsUnder(Owned(r), c)| >= limit ==> !ListsEmptyId(ColdOf(r, limit)))
            && (|ColdFiles(ds, cutoff)| + |IdsUpTo(Owned(r), c)| <= limit ==> ListsEmptyId(ColdOf(r, limit)))
  {
    var p := EmptyIdAt(r, ds, cutoff, false);
    PlaceBounds(Owned(r), p, false);
    ColdFilesCount(r, ds, cutoff, false);
    ListedIff(Unasked(NameLines(r.names), Owned(r)), Owned(r), limit, p);
  }

  /** A group does not break if the owned ids asked for more often than the empty id fill its
      limit or one of them is not above the threshold; it breaks if the owned ids asked for at
      least as often are within the limit and all others of them above the threshold. */
  lemma GroupBreaks(r: Ranking, ds: Dirs, cutoff: Time, limit: nat, num: int)
    requires Configured(ds) && Ranks(r, ds, cutoff, true) && exists e | e in Owned(r) :: e.sid == ""
    ensures var own, c := Owned(r), Volume(LogsAt(ds, cutoff), "");
            && (|IdsOver(own, c)| >= limit || (exists e | e in own :: c < e.count <= num) ==>
                  !HotEmptyId(own, limit, num))
            && (|IdsFrom(own, c)| <= limit && (forall e | e in own && e.sid != "" && e.count >= c :: e.count > num) ==>
                  HotEmptyId(own, limit, num))
  {
    var p := EmptyIdAt(r, ds, cutoff, true);
    HotEmptyBounds(Owned(r), limit, num, p);
  }

  lemma HotEmptyBounds(own: seq<Entry>, limit: nat, num: int, p: nat)
    requires DistinctSids(own) && InOrder(own, true) && p < |own| && own[p].sid == ""
    ensures var c := own[p].count;
            && (|IdsOver(own, c)| >= limit || (exists e | e in own :: c < e.count <= num) ==>
                  !HotEmptyId(own, limit, num))
            && (|IdsFrom(own, c)| <= limit && (forall e | e in own && e.sid != "" && e.count >= c :: e.count > num) ==>
                  HotEmptyId(own, limit, num))
  {
    PlaceBounds(own, p, true);
    HotEmptyIff(own, limit, num, p);
    if e :| e in own && own[p].count < e.count <= num {
      var i :| 0 <= i < |own| && own[i] == e;
      assert i < p;
    }
    forall i | 0 <= i < p
      ensures own[i] in own && own[i].sid != ""
    {
    }
  }

  lemma HotEmptyIff(own: seq<Entry>, limit: nat, num: int, p: nat)
    requires DistinctSids(own) && p < |own| && own[p].sid == ""
    ensures HotEmptyId(own, limit, num) <==> p < limit && forall i | 0 <= i < p :: own[i].count > num
  {
  }
}
