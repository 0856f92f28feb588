/** What it means to have counted the queries of a directory of run logs. */
module Counting {
  import opened Text
  import opened Files

  // ---------------------------------------------------------------- one log line

  /** The song id that a log line is counted for, if it is accepted. */
  function SidOf(line: string): Option<string> {
    if |line| < 2 || line[0] != '$' || line[1] != '$' then None
    else
      var p := Find(line, '|', 0);
      if p == |line| then None
      else
        var q := Find(line, '|', p + 1);
        if q == |line| then None
        else if line[p + 1..q] == "-1" then None
        else Some(line[p + 1..q])
  }

  function Framed(head: string, sid: string, tail: string): string {
    head + "|" + sid + "|" + tail
  }

  /** The line starts with "$$", and its second field between bars is the id. */
  ghost predicate Carries(line: string, sid: string) {
    && '|' !in sid && sid != "-1"
    && exists head, tail {:trigger Framed(head, sid, tail)} ::
         line == Framed(head, sid, tail) && "$$" <= head && '|' !in head
  }

  lemma AcceptedCarries(line: string, sid: string)
    requires SidOf(line) == Some(sid)
    ensures Carries(line, sid)
  {
    var p := Find(line, '|', 0);
    var q := Find(line, '|', p + 1);
    var head, tail := line[..p], line[q + 1..];
    assert head == line[0..p] && 2 <= p;
    assert line == Framed(head, sid, tail) && "$$" <= head;
  }

  lemma CarriedIsAccepted(line: string, sid: string)
    requires Carries(line, sid)
    ensures SidOf(line) == Some(sid)
  {
    var head, tail :| line == Framed(head, sid, tail) && "$$" <= head && '|' !in head;
    var p := |head|;
    var q := p + 1 + |sid|;
    assert line[0..p] == head && line[p] == '|';
    assert line[p + 1..q] == sid && line[q] == '|';
    assert line[0] == head[0] && line[1] == head[1];
    FindFirst(line, '|', 0, p);
    FindFirst(line, '|', p + 1, q);
  }

  lemma AcceptsIff(line: string, sid: string)
    ensures SidOf(line) == Some(sid) <==> Carries(line, sid)
  {
    if SidOf(line) == Some(sid) {
      AcceptedCarries(line, sid);
    }
    if Carries(line, sid) {
      CarriedIsAccepted(line, sid);
    }
  }

  // ---------------------------------------------------------------- many log lines

  /** How many lines of a file are counted for sid. */
  function Hits(ls: File, sid: string): nat {
    if ls == [] then 0 else Hits(ls[..|ls| - 1], sid) + if SidOf(ls[|ls| - 1]) == Some(sid) then 1 else 0
  }

  /** How many lines of a file are counted at all. */
  function Accepted(ls: File): nat {
    if ls == [] then 0 else Accepted(ls[..|ls| - 1]) + if SidOf(ls[|ls| - 1]) != None then 1 else 0
  }

  /** The places of the lines that are counted for an id. */
  ghost function PlacesOf(ls: File, sid: string): set<int> {
    set i | 0 <= i < |ls| && Carries(ls[i], sid)
  }

  /** The hits are the lines that carry the id, each once. */
  lemma {:induction false} HitsAreLines(ls: File, sid: string)
    ensures Hits(ls, sid) == |PlacesOf(ls, sid)|
  {
    if ls != [] {
      var n := |ls| - 1;
      HitsAreLines(ls[..n], sid);
      AcceptsIff(ls[n], sid);
      OneMorePlace(ls, n, sid);
    }
  }

  lemma OneMorePlace(ls: File, n: nat, sid: string)
    requires |ls| == n + 1
    ensures |PlacesOf(ls, sid)| == |PlacesOf(ls[..n], sid)| + if Carries(ls[n], sid) then 1 else 0
  {
    var more := if Carries(ls[n], sid) then {n as int} else {};
    assert PlacesOf(ls, sid) == PlacesOf(ls[..n], sid) + more;
    assert n !in PlacesOf(ls[..n], sid);
  }

  function HitsOf(sid: string): File -> nat {
    ls => Hits(ls, sid)
  }

  function AcceptedOf(): File -> nat {
    ls => Accepted(ls)
  }

  /** The query volume of sid in a directory of logs. */
  ghost function Volume(d: Dir, sid: string): nat {
    Sum(d, HitsOf(sid))
  }

  lemma {:induction false} HitsConcat(a: File, b: File, sid: string)
    ensures Hits(a + b, sid) == Hits(a, sid) + Hits(b, sid)
  {
    if b == [] {
      assert a + b == a;
    } else {
      var n := |b| - 1;
      assert (a + b)[..|a + b| - 1] == a + b[..n];
      HitsConcat(a, b[..n], sid);
    }
  }

  lemma HitsAdditive(sid: string)
    ensures Additive(HitsOf(sid))
  {
    forall a: File, b: File
      ensures HitsOf(sid)(a + b) == HitsOf(sid)(a) + HitsOf(sid)(b)
    {
      HitsConcat(a, b, sid);
    }
  }

  /** The entries list every id of the logs once, with its volume, and nothing else. */
  ghost predicate IsCounting(es: seq<Entry>, d: Dir) {
    && (forall i, j | 0 <= i < j < |es| :: es[i].sid != es[j].sid)
    && (forall e: Entry :: e in es <==> e.count == Volume(d, e.sid) > 0)
  }

  /** Descending is the order of flag 0, for the groups; ascending that of flag 1, for main. */
  predicate InOrder(es: seq<Entry>, descending: bool) {
    forall i, j | 0 <= i < j < |es| ::
      if descending then es[i].count >= es[j].count else es[i].count <= es[j].count
  }

  function Counts(es: seq<Entry>): int {
    if es == [] then 0 else Counts(es[..|es| - 1]) + es[|es| - 1].count
  }

  // ---------------------------------------------------------------- the counts sum up

  /** The hits of all listed ids in one file. */
  function HitsOfAll(es: seq<Entry>, ls: File): nat {
    if es == [] then 0 else HitsOfAll(es[..|es| - 1], ls) + Hits(ls, es[|es| - 1].sid)
  }

  ghost function VolumeOfAll(es: seq<Entry>, d: Dir): nat {
    if es == [] then 0 else VolumeOfAll(es[..|es| - 1], d) + Volume(d, es[|es| - 1].sid)
  }

  /** How many entries are for an id. */
  function Listed(es: seq<Entry>, sid: Option<string>): nat {
    if es == [] then 0 else Listed(es[..|es| - 1], sid) + if sid == Some(es[|es| - 1].sid) then 1 else 0
  }

  lemma {:induction false} ListedOnce(es: seq<Entry>, sid: Option<string>)
    requires forall i, j | 0 <= i < j < |es| :: es[i].sid != es[j].sid
    ensures Listed(es, sid) == if exists e | e in es :: sid == Some(e.sid) then 1 else 0
  {
    if es != [] {
      var n := |es| - 1;
      ListedOnce(es[..n], sid);
      assert es == es[..n] + [es[n]];
      if sid == Some(es[n].sid) {
        assert es[n] in es;
        assert forall e | e in es[..n] :: e.sid != es[n].sid;
      }
    }
  }

  lemma {:induction false} HitsOfAllStep(es: seq<Entry>, ls: File)
    requires ls != []
    ensures HitsOfAll(es, ls) == HitsOfAll(es, ls[..|ls| - 1]) + Listed(es, SidOf(ls[|ls| - 1]))
  {
    if es != [] {
      HitsOfAllStep(es[..|es| - 1], ls);
    }
  }

  lemma {:induction false} EveryLineOnce(es: seq<Entry>, ls: File)
    requires forall i, j | 0 <= i < j < |es| :: es[i].sid != es[j].sid
    requires forall l | l in ls && SidOf(l).Some? :: exists e | e in es :: SidOf(l) == Some(e.sid)
    ensures HitsOfAll(es, ls) == Accepted(ls)
  {
    if ls == [] {
      NoLinesNoHits(es);
    } else {
      var n := |ls| - 1;
      assert forall l | l in ls[..n] :: l in ls;
      EveryLineOnce(es, ls[..n]);
      HitsOfAllStep(es, ls);
      assert ls[n] in ls;
      ListedOnce(es, SidOf(ls[n]));
    }
  }

  lemma {:induction false} NoLinesNoHits(es: seq<Entry>)
    ensures HitsOfAll(es, []) == 0
  {
    if es != [] {
      NoLinesNoHits(es[..|es| - 1]);
    }
  }

  lemma {:induction false} VolumeOfAllStep(es: seq<Entry>, d: Dir, n: string)
    requires n in d
    ensures VolumeOfAll(es, d) == VolumeOfAll(es, d - {n}) + HitsOfAll(es, d[n])
  {
    if es != [] {
      VolumeOfAllStep(es[..|es| - 1], d, n);
      SumRemove(d, n, HitsOf(es[|es| - 1].sid));
    }
  }

  lemma {:induction false} VolumeOfNothing(es: seq<Entry>)
    ensures VolumeOfAll(es, map[]) == 0
  {
    if es != [] {
      VolumeOfNothing(es[..|es| - 1]);
    }
  }

  lemma {:induction false} HitsPositive(ls: File, l: string, sid: string)
    requires l in ls && SidOf(l) == Some(sid)
    ensures Hits(ls, sid) > 0
  {
    var n := |ls| - 1;
    if l != ls[n] {
      assert ls == ls[..n] + [ls[n]];
      HitsPositive(ls[..n], l, sid);
    }
  }

  /** The entries' ids cover every accepted line of the directory. */
  ghost predicate Covers(es: seq<Entry>, d: Dir) {
    forall n, l | n in d && l in d[n] && SidOf(l).Some? :: exists e | e in es :: SidOf(l) == Some(e.sid)
  }

  lemma {:induction false} VolumeIsAccepted(es: seq<Entry>, d: Dir)
    requires forall i, j | 0 <= i < j < |es| :: es[i].sid != es[j].sid
    requires Covers(es, d)
    ensures VolumeOfAll(es, d) == Sum(d, AcceptedOf())
    decreases |d|
  {
    if d == map[] {
      VolumeOfNothing(es);
    } else {
      var n :| n in d;
      assert Covers(es, d - {n});
      VolumeIsAccepted(es, d - {n});
      VolumeOfAllStep(es, d, n);
      EveryLineOnce(es, d[n]);
      SumRemove(d, n, AcceptedOf());
    }
  }

  lemma {:induction false} CountsAreVolumes(es: seq<Entry>, d: Dir)
    requires forall e | e in es :: e.count == Volume(d, e.sid)
    ensures Counts(es) == VolumeOfAll(es, d)
  {
    if es != [] {
      var n := |es| - 1;
      assert es == es[..n] + [es[n]] && es[n] in es;
      CountsAreVolumes(es[..n], d);
    }
  }

  lemma CountingCovers(es: seq<Entry>, d: Dir)
    requires IsCounting(es, d)
    ensures Covers(es, d)
  {
    forall n, l | n in d && l in d[n] && SidOf(l).Some?
      ensures exists e | e in es :: SidOf(l) == Some(e.sid)
    {
      var sid := SidOf(l).value;
      HitsPositive(d[n], l, sid);
      SumRemove(d, n, HitsOf(sid));
      assert Entry(sid, Volume(d, sid)) in es;
    }
  }

  /** Counting is exact: the counts sum up to the number of accepted lines. */
  lemma CountsSumToAccepted(es: seq<Entry>, d: Dir)
    requires IsCounting(es, d)
    ensures Counts(es) == Sum(d, AcceptedOf())
  {
    CountingCovers(es, d);
    VolumeIsAccepted(es, d);
    CountsAreVolumes(es, d);
  }
}
