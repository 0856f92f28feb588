/** Which fingerprints move: the hottest of a group above a threshold, the coldest of the main
    cache with the threshold that they imply. Fingerprints and songs meet in the number with
    which their file name and their id begin, the key. */
module Selection {
  import opened Text
  import opened Files
  import opened Counting

  function KeysOf(lines: seq<string>): (keys: set<int>)
    ensures forall l | l in lines :: Atoi(l) in keys
  {
    set l | l in lines :: Atoi(l)
  }

  function EntryKeys(es: seq<Entry>): (keys: set<int>)
    ensures forall e | e in es :: Key(e) in keys
  {
    set e | e in es :: Key(e)
  }

  function KeyIn(keys: set<int>): string -> bool {
    l => Atoi(l) in keys
  }

  function KeyNotIn(keys: set<int>): string -> bool {
    l => Atoi(l) !in keys
  }

  function EntryKeyIn(keys: set<int>): Entry -> bool {
    e => Key(e) in keys
  }

  /** The entries of owned fingerprints. */
  function OwnedOnly(es: seq<Entry>, names: seq<string>): seq<Entry> {
    Keep(EntryKeyIn(KeysOf(names)), es)
  }

  // ---------------------------------------------------------------- entries and their lines

  function Rendered(es: seq<Entry>): (f: File)
    ensures |f| == |es| && forall i | 0 <= i < |es| :: f[i] == Render(es[i])
  {
    seq(|es|, i requires 0 <= i < |es| => Render(es[i]))
  }

  /** What the selection stages make of the lines of a file, None where a `strtok` finds no word. */
  function Parsed(f: File): (ps: seq<Option<Entry>>)
    ensures |ps| == |f|
  {
    if f == [] then [] else Parsed(f[..|f| - 1]) + [Parse(f[|f| - 1])]
  }

  lemma {:induction false} ParsedAt(f: File, i: nat)
    requires i < |f|
    ensures Parsed(f)[i] == Parse(f[i])
  {
    if i < |f| - 1 {
      ParsedAt(f[..|f| - 1], i);
    }
  }

  /** The first n lines can be read. */
  predicate Readable(ps: seq<Option<Entry>>, n: nat) {
    n <= |ps| && forall i | 0 <= i < n :: ps[i].Some?
  }

  function Entries(ps: seq<Option<Entry>>, n: nat): (es: seq<Entry>)
    requires Readable(ps, n)
    ensures |es| == n && forall i | 0 <= i < n :: es[i] == ps[i].value
  {
    seq(n, i requires 0 <= i < n => ps[i].value)
  }

  /** Filtering the lines by the number that `atoi` finds in them is filtering the entries by
      their keys. */
  lemma {:induction false} KeepRendered(keys: set<int>, es: seq<Entry>)
    ensures Keep(KeyIn(keys), Rendered(es)) == Rendered(Keep(EntryKeyIn(keys), es))
  {
    if es != [] {
      var n := |es| - 1;
      KeepRendered(keys, es[..n]);
      assert Rendered(es)[..n] == Rendered(es[..n]);
      RenderKey(es[n]);
      RenderedAppend(Keep(EntryKeyIn(keys), es[..n]), es[n]);
    }
  }

  lemma RenderedAppend(es: seq<Entry>, e: Entry)
    ensures Rendered(es + [e]) == Rendered(es) + [Render(e)]
  {
  }

  /** What comes back of printed entries: all but those with an empty id. */
  function ReadBack(es: seq<Entry>): (ps: seq<Option<Entry>>)
    ensures |ps| == |es|
    ensures forall i | 0 <= i < |es| :: ps[i] == if es[i].sid != "" then Some(es[i]) else None
  {
    seq(|es|, i requires 0 <= i < |es| => if es[i].sid != "" then Some(es[i]) else None)
  }

  lemma ParsedRendered(es: seq<Entry>)
    requires forall e | e in es :: '|' !in e.sid
    ensures Parsed(Rendered(es)) == ReadBack(es)
  {
    forall i | 0 <= i < |es|
      ensures Parsed(Rendered(es))[i] == ReadBack(es)[i]
    {
      assert es[i] in es;
      ParsedAt(Rendered(es), i);
      RoundTripIff(es[i]);
    }
  }

  lemma KeysOfRendered(es: seq<Entry>)
    ensures KeysOf(Rendered(es)) == EntryKeys(es)
  {
    forall i | 0 <= i < |es|
      ensures Atoi(Rendered(es)[i]) == Key(es[i])
    {
      RenderKey(es[i]);
    }
    forall k | k in KeysOf(Rendered(es))
      ensures k in EntryKeys(es)
    {
      var l :| l in Rendered(es) && Atoi(l) == k;
      var i :| 0 <= i < |es| && l == Rendered(es)[i];
      assert es[i] in es;
    }
    forall k | k in EntryKeys(es)
      ensures k in KeysOf(Rendered(es))
    {
      var e :| e in es && Key(e) == k;
      var i :| 0 <= i < |es| && e == es[i];
      assert Rendered(es)[i] in Rendered(es);
    }
  }

  // ---------------------------------------------------------------- the hottest, above a threshold

  function Above(cnt: int): Entry -> bool {
    (e: Entry) => e.count > cnt
  }

  /** Where the loop of `topAfpFile` with its two breaks stops. */
  predicate IsTop(es: seq<Entry>, limit: nat, cnt: int, k: nat) {
    && k <= |es| && k <= limit
    && (forall i | 0 <= i < k :: es[i].count > cnt)
    && (k == |es| || k == limit || es[k].count <= cnt)
  }

  /** Where that loop stops on the lines of a file, be it at a line that it cannot read. */
  predicate TopStops(ps: seq<Option<Entry>>, limit: nat, cnt: int, k: nat) {
    && k <= limit && Readable(ps, k)
    && (forall i | 0 <= i < k :: ps[i].value.count > cnt)
    && (k == |ps| || k == limit || ps[k] == None || ps[k].value.count <= cnt)
  }

  /** The line it stops at is one for which `atoi` gets a null pointer. */
  predicate NullAt(ps: seq<Option<Entry>>, limit: nat, k: nat) {
    k < |ps| && k < limit && ps[k] == None
  }

  /** An entry with an empty id, within the limit and behind nothing but hotter ones. */
  predicate HotEmptyId(es: seq<Entry>, limit: nat, cnt: int) {
    exists k: nat | k < |es| && k < limit :: es[k].sid == "" && forall i | 0 <= i < k :: es[i].count > cnt
  }

  /** On printed entries the loop dereferences null if and only if an empty id lies before its
      stopping point; otherwise it selects what it would select of the entries. */
  lemma TopReadsBack(es: seq<Entry>, limit: nat, cnt: int, k: nat)
    requires TopStops(ReadBack(es), limit, cnt, k)
    ensures NullAt(ReadBack(es), limit, k) <==> HotEmptyId(es, limit, cnt)
    ensures !NullAt(ReadBack(es), limit, k) ==> IsTop(es, limit, cnt, k)
    ensures Entries(ReadBack(es), k) == es[..k]
  {
    assert forall i | 0 <= i < k :: es[i].sid != "" && es[i].count > cnt;
  }

  /** A bad line behind the stopping point is not read: with threshold 3 the loop stops at the
      first of these lines, with threshold 0 it goes on to the second. */
  lemma BadLineBehindTheStop()
    ensures var es := [Entry("5", 1), Entry("", 1)];
            && TopStops(ReadBack(es), 10, 3, 0) && !HotEmptyId(es, 10, 3)
            && TopStops(ReadBack(es), 10, 0, 1) && HotEmptyId(es, 10, 0)
  {
    var es := [Entry("5", 1), Entry("", 1)];
    assert es[1].sid == "";
  }

  lemma {:induction false} KeepAbovePrefix(es: seq<Entry>, cnt: int, m: nat)
    requires m <= |es|
    requires forall i | 0 <= i < |es| :: es[i].count > cnt <==> i < m
    ensures Keep(Above(cnt), es) == es[..m]
  {
    if es != [] {
      var n := |es| - 1;
      KeepAbovePrefix(es[..n], cnt, if m <= n then m else n);
      assert m <= n ==> es[..n][..m] == es[..m];
      assert m == |es| ==> es[..m] == es[..n][..n] + [es[n]];
    } else {
      assert es[..m] == [];
    }
  }

  lemma FirstNotAbove(es: seq<Entry>, cnt: int) returns (m: nat)
    requires InOrder(es, true)
    ensures m <= |es| && forall i | 0 <= i < |es| :: es[i].count > cnt <==> i < m
  {
    m := 0;
    while m < |es| && es[m].count > cnt
      invariant m <= |es| && forall i | 0 <= i < m :: es[i].count > cnt
    {
      m := m + 1;
    }
    forall i | m <= i < |es|
      ensures es[i].count <= cnt
    {
      if m < i {
        assert es[m].count >= es[i].count;
      }
    }
  }

  /** The early exit is exact: on a descending list the loop selects the first `limit` of all
      entries above the threshold, and drops nothing hotter than what it keeps. */
  lemma TopIsExact(es: seq<Entry>, limit: nat, cnt: int, k: nat)
    requires InOrder(es, true) && IsTop(es, limit, cnt, k)
    ensures es[..k] == Take(limit, Keep(Above(cnt), es))
    ensures forall i, j | 0 <= i < k <= j < |es| :: es[j].count <= es[i].count
    ensures forall j | k <= j < |es| && es[j].count > cnt :: k == limit
  {
    var m := FirstNotAbove(es, cnt);
    KeepAbovePrefix(es, cnt, m);
    TopStopsAt(es, limit, cnt, k, m);
    assert es[..m][..k] == es[..k];
  }

  lemma TopStopsAt(es: seq<Entry>, limit: nat, cnt: int, k: nat, m: nat)
    requires IsTop(es, limit, cnt, k) && m <= |es|
    requires forall i | 0 <= i < |es| :: es[i].count > cnt <==> i < m
    ensures k == if limit < m then limit else m
  {
    assert k > 0 ==> es[k - 1].count > cnt;
  }

  // ---------------------------------------------------------------- the coldest, with their threshold

  /** A line of the cold list: an owned file that nobody asked for, by its name, or a queried
      fingerprint, by its id. */
  datatype Cold = Unqueried(line: string) | Queried(entry: Entry)

  function ColdLine(c: Cold): string {
    match c
    case Unqueried(l) => l
    case Queried(e) => e.sid + "\n"
  }

  function ColdKey(c: Cold): int {
    match c
    case Unqueried(l) => Atoi(l)
    case Queried(e) => Key(e)
  }

  function ColdLines(cs: seq<Cold>): (f: File)
    ensures |f| == |cs| && forall i | 0 <= i < |cs| :: f[i] == ColdLine(cs[i])
  {
    seq(|cs|, i requires 0 <= i < |cs| => ColdLine(cs[i]))
  }

  function AsUnqueried(ls: seq<string>): (cs: seq<Cold>)
    ensures |cs| == |ls| && forall i | 0 <= i < |ls| :: cs[i] == Unqueried(ls[i])
  {
    seq(|ls|, i requires 0 <= i < |ls| => Unqueried(ls[i]))
  }

  function AsQueried(es: seq<Entry>): (cs: seq<Cold>)
    ensures |cs| == |es| && forall i | 0 <= i < |es| :: cs[i] == Queried(es[i])
  {
    seq(|es|, i requires 0 <= i < |es| => Queried(es[i]))
  }

  /** The files that no owned entry is about. */
  function Unasked(names: seq<string>, own: seq<Entry>): seq<string> {
    Keep(KeyNotIn(EntryKeys(own)), names)
  }

  /** First the unqueried files, then the least queried ids, up to the limit. */
  function ColdList(unasked: seq<string>, own: seq<Entry>, limit: nat): (cs: seq<Cold>)
    ensures |cs| == if limit < |unasked| + |own| then limit else |unasked| + |own|
    ensures forall i | 0 <= i < |cs| ::
              cs[i] == if i < |unasked| then Unqueried(unasked[i]) else Queried(own[i - |unasked|])
  {
    Take(limit, AsUnqueried(unasked) + AsQueried(own))
  }

  /** How many queried ids the list has room for behind the unqueried files. */
  function Room(limit: nat, unasked: nat, own: nat): nat {
    if limit <= unasked then 0 else if limit - unasked < own then limit - unasked else own
  }

  predicate ListsEmptyId(cs: seq<Cold>) {
    exists c | c in cs :: c.Queried? && c.entry.sid == ""
  }

  /** On printed entries the filling loop dereferences null if and only if the list that it
      makes has an empty id. */
  lemma ColdReadsBack(unasked: seq<string>, es: seq<Entry>, limit: nat)
    ensures var n := Room(limit, |unasked|, |es|);
            && (Readable(ReadBack(es), n) <==> !ListsEmptyId(ColdList(unasked, es, limit)))
            && (Readable(ReadBack(es), n) ==>
                  ColdList(unasked, Entries(ReadBack(es), n), limit) == ColdList(unasked, es, limit))
  {
    var n := Room(limit, |unasked|, |es|);
    var cs := ColdList(unasked, es, limit);
    if i :| 0 <= i < n && ReadBack(es)[i] == None {
      assert cs[|unasked| + i] in cs;
    }
    if ListsEmptyId(cs) {
      var c :| c in cs && c.Queried? && c.entry.sid == "";
      var j :| 0 <= j < |cs| && cs[j] == c;
      assert ReadBack(es)[j - |unasked|] == None;
    }
  }

  /** The cold list of a cache that owns the named files, from the counting of its logs. */
  function Coldest(names: seq<string>, es: seq<Entry>, limit: nat): seq<Cold> {
    ColdList(Unasked(names, OwnedOnly(es, names)), OwnedOnly(es, names), limit)
  }

  /** The count of the last queried id taken, 0 if none was. */
  function Threshold(cs: seq<Cold>): int {
    if cs != [] && cs[|cs| - 1].Queried? then cs[|cs| - 1].entry.count else 0
  }

  lemma OwnedIff(names: seq<string>, es: seq<Entry>, e: Entry)
    ensures e in OwnedOnly(es, names) <==> e in es && Key(e) in KeysOf(names)
  {
    KeepMember(EntryKeyIn(KeysOf(names)), es, e);
  }

  /** An entry is owned whose number names a file, padded with zeros or not. */
  lemma PaddedFileIsOwned(names: seq<string>, es: seq<Entry>, z: string, n: nat, e: Entry)
    requires Zeros(z) && z + ShowNat(n) + ".afp\n" in names && e in es && e.sid == ShowNat(n)
    ensures e in OwnedOnly(es, names)
    ensures z + ShowNat(n) + ".afp\n" !in Unasked(names, OwnedOnly(es, names))
  {
    PaddedNameKey(z, n);
    OwnedIff(names, es, e);
    UnaskedIff(names, es, z + ShowNat(n) + ".afp\n");
  }

  lemma UnaskedIff(names: seq<string>, es: seq<Entry>, l: string)
    ensures l in Unasked(names, OwnedOnly(es, names)) <==> l in names && forall e | e in es :: Key(e) != Atoi(l)
  {
    var own := OwnedOnly(es, names);
    KeepMember(KeyNotIn(EntryKeys(own)), names, l);
    if l in names {
      forall e | e in es && Key(e) == Atoi(l)
        ensures e in own
      {
        OwnedIff(names, es, e);
      }
      if Atoi(l) in EntryKeys(own) {
        var e :| e in own && Key(e) == Atoi(l);
        OwnedIff(names, es, e);
      }
    }
  }

  lemma OwnedStayInOrder(es: seq<Entry>, names: seq<string>, descending: bool)
    requires InOrder(es, descending)
    ensures InOrder(OwnedOnly(es, names), descending)
  {
    var own := OwnedOnly(es, names);
    forall i, j | 0 <= i < j < |own|
      ensures if descending then own[i].count >= own[j].count else own[i].count <= own[j].count
    {
      var a, b := KeepPlaces(EntryKeyIn(KeysOf(names)), es, i, j);
    }
  }

  // ---------------------------------------------------------------- hot is hotter than cold

  lemma ThresholdIsLargest(unasked: seq<string>, own: seq<Entry>, limit: nat, i: nat)
    requires InOrder(own, false) && forall e | e in own :: e.count > 0
    requires i < |ColdList(unasked, own, limit)|
    ensures var cs := ColdList(unasked, own, limit);
            0 <= Threshold(cs) && (cs[i].Queried? ==> cs[i].entry.count <= Threshold(cs))
  {
    var cs := ColdList(unasked, own, limit);
    var last := |cs| - 1;
    if |unasked| <= last {
      assert own[last - |unasked|] in own;
    }
  }

  lemma OwnedAreAsked(names: seq<string>, es: seq<Entry>, logs: Dir)
    requires IsCounting(es, logs)
    ensures forall e | e in OwnedOnly(es, names) :: e in es && e.count == Volume(logs, e.sid) > 0
  {
    forall e | e in OwnedOnly(es, names)
      ensures e in es
    {
      OwnedIff(names, es, e);
    }
  }

  /** What the cold list says of the logs it was made from: nobody asked for the unqueried
      files, and no queried id was asked for more often than the threshold. */
  lemma ColdStaysUnderThreshold(names: seq<string>, es: seq<Entry>, logs: Dir, limit: nat, i: nat)
    requires IsCounting(es, logs) && InOrder(es, false)
    requires i < |Coldest(names, es, limit)|
    ensures var cs := Coldest(names, es, limit);
            && 0 <= Threshold(cs)
            && (match cs[i]
                case Unqueried(l) => forall sid | Atoi(sid) == Atoi(l) :: Volume(logs, sid) == 0
                case Queried(e) => Volume(logs, e.sid) == e.count <= Threshold(cs))
  {
    var own := OwnedOnly(es, names);
    var unasked := Unasked(names, own);
    OwnedStayInOrder(es, names, false);
    OwnedAreAsked(names, es, logs);
    ThresholdIsLargest(unasked, own, limit, i);
    if i < |unasked| {
      var l := unasked[i];
      UnaskedIff(names, es, l);
      forall sid | Atoi(sid) == Atoi(l)
        ensures Volume(logs, sid) == 0
      {
        assert Key(Entry(sid, Volume(logs, sid))) == Atoi(l);
      }
    } else {
      assert own[i - |unasked|] in own;
    }
  }

  /** The threshold is never the error code -1. */
  lemma ThresholdIsNoError(names: seq<string>, es: seq<Entry>, logs: Dir, limit: nat)
    requires IsCounting(es, logs) && InOrder(es, false)
    ensures 0 <= Threshold(Coldest(names, es, limit))
  {
    var cs := Coldest(names, es, limit);
    if cs != [] {
      ColdStaysUnderThreshold(names, es, logs, limit, |cs| - 1);
    }
  }

  /** Hot and cold are separated end to end: each fingerprint that a group selects above the
      threshold of the main cache was asked for, at the group, strictly more often than each
      fingerprint of the main cache's cold list was asked for there. */
  lemma HotIsHotterThanCold(
    groupLogs: Dir, groupEs: seq<Entry>, groupNames: seq<string>, groupLimit: nat, k: nat,
    mainLogs: Dir, mainEs: seq<Entry>, mainNames: seq<string>, cacheLimit: nat,
    h: nat, c: nat)
    requires IsCounting(groupEs, groupLogs)
    requires IsCounting(mainEs, mainLogs) && InOrder(mainEs, false)
    requires c < |Coldest(mainNames, mainEs, cacheLimit)|
    requires IsTop(OwnedOnly(groupEs, groupNames), groupLimit, Threshold(Coldest(mainNames, mainEs, cacheLimit)), k)
    requires h < k
    ensures var hot := Volume(groupLogs, OwnedOnly(groupEs, groupNames)[h].sid);
            match Coldest(mainNames, mainEs, cacheLimit)[c]
            case Unqueried(l) => forall sid | Atoi(sid) == Atoi(l) :: Volume(mainLogs, sid) < hot
            case Queried(e) => Volume(mainLogs, e.sid) < hot
  {
    ColdStaysUnderThreshold(mainNames, mainEs, mainLogs, cacheLimit, c);
    var hot := OwnedOnly(groupEs, groupNames);
    OwnedIff(groupNames, groupEs, hot[h]);
  }

  // ---------------------------------------------------------------- the cold list is optimal

  predicate DistinctKeys(names: seq<string>) {
    forall i, j | 0 <= i < j < |names| :: Atoi(names[i]) != Atoi(names[j])
  }

  predicate DistinctEntryKeys(es: seq<Entry>) {
    forall i, j | 0 <= i < j < |es| :: Key(es[i]) != Key(es[j])
  }

  /** The count for a key, 0 if it has none. */
  function CountOfKey(es: seq<Entry>, k: int): int {
    if es == [] then 0
    else if Key(es[|es| - 1]) == k then es[|es| - 1].count
    else CountOfKey(es[..|es| - 1], k)
  }

  lemma {:induction false} CountOfKeyAt(es: seq<Entry>, i: nat)
    requires DistinctEntryKeys(es) && i < |es|
    ensures CountOfKey(es, Key(es[i])) == es[i].count
  {
    if i < |es| - 1 {
      CountOfKeyAt(es[..|es| - 1], i);
    }
  }

  lemma {:induction false} CountOfMissingKey(es: seq<Entry>, k: int)
    requires forall e | e in es :: Key(e) != k
    ensures CountOfKey(es, k) == 0
  {
    if es != [] {
      assert es[|es| - 1] in es;
      CountOfMissingKey(es[..|es| - 1], k);
    }
  }

  lemma {:induction false} SplitByKeys(names: seq<string>, keys: set<int>)
    ensures |Keep(KeyIn(keys), names)| + |Keep(KeyNotIn(keys), names)| == |names|
  {
    if names != [] {
      SplitByKeys(names[..|names| - 1], keys);
    }
  }

  lemma {:induction false} KeyCount(names: seq<string>)
    requires DistinctKeys(names)
    ensures |KeysOf(names)| == |names|
  {
    if names != [] {
      var n := |names| - 1;
      KeyCount(names[..n]);
      assert names == names[..n] + [names[n]];
      assert KeysOf(names) == KeysOf(names[..n]) + {Atoi(names[n])};
      assert Atoi(names[n]) !in KeysOf(names[..n]);
    }
  }

  lemma {:induction false} EntryKeyCount(es: seq<Entry>)
    requires DistinctEntryKeys(es)
    ensures |EntryKeys(es)| == |es|
  {
    if es != [] {
      var n := |es| - 1;
      EntryKeyCount(es[..n]);
      assert es == es[..n] + [es[n]];
      assert EntryKeys(es) == EntryKeys(es[..n]) + {Key(es[n])};
      assert Key(es[n]) !in EntryKeys(es[..n]);
    }
  }

  lemma KeepDistinct(names: seq<string>, p: string -> bool)
    requires DistinctKeys(names)
    ensures DistinctKeys(Keep(p, names))
  {
    forall i, j | 0 <= i < j < |Keep(p, names)|
      ensures Atoi(Keep(p, names)[i]) != Atoi(Keep(p, names)[j])
    {
      var a, b := KeepPlaces(p, names, i, j);
    }
  }

  lemma OwnedDistinct(names: seq<string>, es: seq<Entry>)
    requires DistinctEntryKeys(es)
    ensures DistinctEntryKeys(OwnedOnly(es, names))
  {
    var own := OwnedOnly(es, names);
    forall i, j | 0 <= i < j < |own|
      ensures Key(own[i]) != Key(own[j])
    {
      var a, b := KeepPlaces(EntryKeyIn(KeysOf(names)), es, i, j);
    }
  }

  lemma SameKeys(names: seq<string>, es: seq<Entry>)
    ensures var keys := EntryKeys(OwnedOnly(es, names));
            KeysOf(Keep(KeyIn(keys), names)) == keys
  {
    var own := OwnedOnly(es, names);
    var keys := EntryKeys(own);
    var asked := Keep(KeyIn(keys), names);
    forall k | k in keys
      ensures k in KeysOf(asked)
    {
      var e :| e in own && Key(e) == k;
      OwnedIff(names, es, e);
      var l :| l in names && Atoi(l) == k;
      KeepMember(KeyIn(keys), names, l);
    }
    forall k | k in KeysOf(asked)
      ensures k in keys
    {
      var l :| l in asked && Atoi(l) == k;
      KeepMember(KeyIn(keys), names, l);
    }
  }

  /** With one file and one song per key, unqueried files and owned entries are as many as the
      files. */
  lemma OwnedAreCounted(names: seq<string>, es: seq<Entry>)
    requires DistinctKeys(names) && DistinctEntryKeys(es)
    ensures |Unasked(names, OwnedOnly(es, names))| + |OwnedOnly(es, names)| == |names|
  {
    var own := OwnedOnly(es, names);
    var keys := EntryKeys(own);
    SplitByKeys(names, keys);
    KeepDistinct(names, KeyIn(keys));
    KeyCount(Keep(KeyIn(keys), names));
    SameKeys(names, es);
    OwnedDistinct(names, es);
    EntryKeyCount(own);
  }

  function ColdCount(c: Cold): int {
    match c
    case Unqueried(_) => 0
    case Queried(e) => e.count
  }

  /** Each line of the cold list stands for an owned fingerprint and for its count. */
  lemma ColdStandsForKey(names: seq<string>, es: seq<Entry>, limit: nat, i: nat)
    requires DistinctEntryKeys(es) && i < |Coldest(names, es, limit)|
    ensures var c := Coldest(names, es, limit)[i];
            ColdKey(c) in KeysOf(names) && CountOfKey(es, ColdKey(c)) == ColdCount(c)
  {
    var own := OwnedOnly(es, names);
    var unasked := Unasked(names, own);
    if i < |unasked| {
      UnaskedIff(names, es, unasked[i]);
      CountOfMissingKey(es, Atoi(unasked[i]));
    } else {
      var e := own[i - |unasked|];
      OwnedIff(names, es, e);
      var j :| 0 <= j < |es| && es[j] == e;
      CountOfKeyAt(es, j);
    }
  }

  lemma ColdKeysDiffer(names: seq<string>, es: seq<Entry>, limit: nat, i: nat, j: nat)
    requires DistinctKeys(names) && DistinctEntryKeys(es)
    requires i < j < |Coldest(names, es, limit)|
    ensures ColdKey(Coldest(names, es, limit)[i]) != ColdKey(Coldest(names, es, limit)[j])
  {
    var own := OwnedOnly(es, names);
    var unasked := Unasked(names, own);
    KeepDistinct(names, KeyNotIn(EntryKeys(own)));
    OwnedDistinct(names, es);
    if i < |unasked| <= j {
      UnaskedIff(names, es, unasked[i]);
      OwnedIff(names, es, own[j - |unasked|]);
    }
  }

  /** A file that the list leaves out has a place behind everything taken. */
  lemma LeftIsNotColder(names: seq<string>, es: seq<Entry>, logs: Dir, limit: nat, i: nat, l: string)
    requires IsCounting(es, logs) && InOrder(es, false) && DistinctEntryKeys(es)
    requires i < |Coldest(names, es, limit)| && l in names
    requires forall d | d in Coldest(names, es, limit) :: ColdKey(d) != Atoi(l)
    ensures ColdCount(Coldest(names, es, limit)[i]) <= CountOfKey(es, Atoi(l))
  {
    UnaskedIff(names, es, l);
    if forall e | e in es :: Key(e) != Atoi(l) {
      LeftUnasked(names, es, limit, i, l);
    } else {
      var j :| 0 <= j < |es| && Key(es[j]) == Atoi(l);
      LeftAsked(names, es, logs, limit, i, j, Atoi(l));
    }
  }

  lemma LeftUnasked(names: seq<string>, es: seq<Entry>, limit: nat, i: nat, l: string)
    requires i < |Coldest(names, es, limit)| && l in Unasked(names, OwnedOnly(es, names))
    requires forall d | d in Coldest(names, es, limit) :: ColdKey(d) != Atoi(l)
    ensures ColdCount(Coldest(names, es, limit)[i]) <= CountOfKey(es, Atoi(l))
  {
    var own := OwnedOnly(es, names);
    var unasked := Unasked(names, own);
    var j :| 0 <= j < |unasked| && unasked[j] == l;
    LeftLiesBehind(unasked, own, limit, j, Atoi(l));
    UnaskedIff(names, es, l);
    CountOfMissingKey(es, Atoi(l));
  }

  lemma LeftAsked(names: seq<string>, es: seq<Entry>, logs: Dir, limit: nat, i: nat, a: nat, k: int)
    requires IsCounting(es, logs) && InOrder(es, false) && DistinctEntryKeys(es)
    requires i < |Coldest(names, es, limit)| && k in KeysOf(names) && a < |es| && Key(es[a]) == k
    requires forall d | d in Coldest(names, es, limit) :: ColdKey(d) != k
    ensures ColdCount(Coldest(names, es, limit)[i]) <= CountOfKey(es, k)
  {
    var own := OwnedOnly(es, names);
    var unasked := Unasked(names, own);
    OwnedIff(names, es, es[a]);
    var j :| 0 <= j < |own| && own[j] == es[a];
    LeftLiesBehind(unasked, own, limit, |unasked| + j, k);
    OwnedStayInOrder(es, names, false);
    OwnedAreAsked(names, es, logs);
    ColdInOrder(unasked, own, limit, i, j);
    CountOfKeyAt(es, a);
  }

  lemma LeftLiesBehind(unasked: seq<string>, own: seq<Entry>, limit: nat, j: nat, k: int)
    requires j < |unasked| + |own|
    requires k == if j < |unasked| then Atoi(unasked[j]) else Key(own[j - |unasked|])
    requires forall d | d in ColdList(unasked, own, limit) :: ColdKey(d) != k
    ensures |ColdList(unasked, own, limit)| == limit <= j
  {
    var cs := ColdList(unasked, own, limit);
    assert forall i | 0 <= i < |cs| :: cs[i] in cs;
  }

  lemma ColdInOrder(unasked: seq<string>, own: seq<Entry>, limit: nat, i: nat, j: nat)
    requires InOrder(own, false) && (forall e | e in own :: e.count >= 0)
    requires i < |ColdList(unasked, own, limit)| <= |unasked| + j && j < |own|
    ensures ColdCount(ColdList(unasked, own, limit)[i]) <= own[j].count
  {
    assert own[j] in own;
  }

  /** The cold list is the best choice of its size: with one file and one song per key it takes
      as many fingerprints as the limit allows, none twice and all owned; nothing it takes was
      asked for more often than anything it leaves; and the threshold is the largest count
      taken, 0 if all were unqueried. */
  lemma ColdListIsOptimal(names: seq<string>, es: seq<Entry>, logs: Dir, limit: nat)
    requires IsCounting(es, logs) && InOrder(es, false)
    requires DistinctKeys(names) && DistinctEntryKeys(es)
    ensures var cs := Coldest(names, es, limit);
            && |cs| == (if limit < |names| then limit else |names|)
            && (forall i, j | 0 <= i < j < |cs| :: ColdKey(cs[i]) != ColdKey(cs[j]))
            && (forall i | 0 <= i < |cs| :: ColdKey(cs[i]) in KeysOf(names))
            && (forall i, l | 0 <= i < |cs| && l in names && (forall d | d in cs :: ColdKey(d) != Atoi(l)) ::
                  CountOfKey(es, ColdKey(cs[i])) <= CountOfKey(es, Atoi(l)))
            && (forall i | 0 <= i < |cs| :: CountOfKey(es, ColdKey(cs[i])) <= Threshold(cs))
            && (Threshold(cs) == 0 || CountOfKey(es, ColdKey(cs[|cs| - 1])) == Threshold(cs))
  {
    var cs := Coldest(names, es, limit);
    OwnedAreCounted(names, es);
    forall i, j | 0 <= i < j < |cs|
      ensures ColdKey(cs[i]) != ColdKey(cs[j])
    {
      ColdKeysDiffer(names, es, limit, i, j);
    }
    forall i | 0 <= i < |cs|
      ensures ColdKey(cs[i]) in KeysOf(names) && CountOfKey(es, ColdKey(cs[i])) == ColdCount(cs[i]) <= Threshold(cs)
    {
      ColdStandsForKey(names, es, limit, i);
      ColdStaysUnderThreshold(names, es, logs, limit, i);
    }
    forall i, l | 0 <= i < |cs| && l in names && (forall d | d in cs :: ColdKey(d) != Atoi(l))
      ensures CountOfKey(es, ColdKey(cs[i])) <= CountOfKey(es, Atoi(l))
    {
      LeftIsNotColder(names, es, logs, limit, i, l);
    }
  }
}
