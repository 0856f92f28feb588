/** The file processing steps of the daemon, each a method over a disk of directories. An
    output file is written when it is closed; `readdir` lists a directory in any order. */
module ProDeal {
  import opened Text
  import opened Files
  import opened Counting
  import opened Selection

  const AFP_NAMES := "afpNameFile.tmp"
  const LOG_COUNTS := "logNumCount.tmp"
  const FILTERED := "fltLogsFile.tmp"
  const TOP_AFPS := "topAfpsFile.tmp"
  const BOTTOM_AFPS := "botAfpsFile.tmp"
  const SERVER_LOG := "server.log"

  /** The configured directories of one host. */
  datatype DirName = AFP | DAT | WRK | ORG | LOG

  type Dirs = map<DirName, Dir>

  lemma WorkFilesDiffer()
    ensures AFP_NAMES != LOG_COUNTS && AFP_NAMES != FILTERED && AFP_NAMES != TOP_AFPS && AFP_NAMES != BOTTOM_AFPS
    ensures LOG_COUNTS != FILTERED && FILTERED != TOP_AFPS && FILTERED != BOTTOM_AFPS
  {
  }

  predicate HasFile(ds: Dirs, dir: DirName, file: string) {
    dir in ds && file in ds[dir]
  }

  function WithFile(ds: Dirs, dir: DirName, file: string, content: File): Dirs
    requires dir in ds
  {
    ds[dir := ds[dir][file := content]]
  }

  function NameLines(names: seq<string>): (f: File)
    ensures |f| == |names| && forall i | 0 <= i < |names| :: f[i] == names[i] + "\n"
  {
    seq(|names|, i requires 0 <= i < |names| => names[i] + "\n")
  }

  /** The line without its line end. */
  function Chop(line: string): string {
    if line == "" then "" else line[..|line| - 1]
  }

  function NamesIn(lines: seq<string>): set<string> {
    set l | l in lines :: Chop(l)
  }

  /** The lines of a text file from `pos` on, at most `cnt` of them. */
  function Window(f: File, pos: nat, cnt: nat): File {
    if pos >= |f| then [] else Take(cnt, f[pos..])
  }

  /** Emptying `dst` and renaming the named files of `org` into it; a name that `org` does not
      have is skipped. */
  function Moved(ds: Dirs, org: DirName, dst: DirName, names: set<string>): Dirs {
    if org in ds then ds[org := ds[org] - names][dst := Only(ds[org], names)] else ds[dst := map[]]
  }

  /** The rotated logs that `strcmp` puts before the cutoff name. */
  function Expired(log: Dir, cutoff: string): Dir {
    map n | n in log && StrLess(n, cutoff) :: log[n]
  }

  /** What `movLogFile` leaves in the log directory: the unexpired files, then every file of the
      run directory, where a file of the same name is replaced. */
  function CollectedLogs(dat: Dir, log: Dir, cutoff: string): Dir {
    (log - Expired(log, cutoff).Keys) + dat
  }

  /** Every file of the run directory is in the log directory, in place of one of the same name;
      of the others those stay that do not sort before the cutoff, and nothing else is there. */
  predicate LogsMoved(dat: Dir, was: Dir, log: Dir, cutoff: string) {
    && (forall n | n in dat :: n in log && log[n] == dat[n])
    && (forall n | n in was && n !in dat && !StrLess(n, cutoff) :: n in log && log[n] == was[n])
    && (forall n | n in log :: n in dat || (n in was && !StrLess(n, cutoff)))
  }

  lemma CollectedAreMoved(dat: Dir, log: Dir, cutoff: string)
    ensures LogsMoved(dat, log, CollectedLogs(dat, log, cutoff), cutoff)
  {
  }

  class Disk {
    var dirs: Dirs
    const groupLimit: nat
    const cacheLimit: nat

    constructor (dirs: Dirs, groupLimit: nat, cacheLimit: nat)
      ensures this.dirs == dirs && this.groupLimit == groupLimit && this.cacheLimit == cacheLimit
    {
      this.dirs := dirs;
      this.groupLimit := groupLimit;
      this.cacheLimit := cacheLimit;
    }

    method GetAfpName(org: DirName, dst: DirName) returns (ret: int, names: seq<string>)
      requires org != dst
      modifies this
      ensures org !in old(dirs) || dst !in old(dirs) ==> ret == -1 && dirs == old(dirs)
      ensures org in old(dirs) && dst in old(dirs) ==>
                && ret == 0 && IsListing(names, old(dirs)[org])
                && dirs == WithFile(old(dirs), dst, AFP_NAMES, NameLines(names))
    {
      names := [];
      if org !in dirs || dst !in dirs {
        return -1, names;
      }
      var rest := dirs[org].Keys;
      while rest != {}
        invariant rest <= dirs[org].Keys
        invariant forall n :: n in names <==> n in dirs[org] && n !in rest
        invariant forall i, j | 0 <= i < j < |names| :: names[i] != names[j]
        decreases rest
      {
        var n :| n in rest;
        names := names + [n];
        rest := rest - {n};
      }
      dirs := WithFile(dirs, dst, AFP_NAMES, NameLines(names));
      ret := 0;
    }

    method MovLogFile(org: DirName, dst: DirName, cutoff: string) returns (ret: int)
      requires org != dst
      modifies this
      ensures dst !in old(dirs) ==> ret == -1 && dirs == old(dirs)
      ensures dst in old(dirs) && org !in old(dirs) ==>
                && ret == -1
                && dirs == old(dirs)[dst := old(dirs)[dst] - Expired(old(dirs)[dst], cutoff).Keys]
      ensures dst in old(dirs) && org in old(dirs) ==>
                && ret == 0
                && dirs == old(dirs)[org := Only(old(dirs)[org], {SERVER_LOG})]
                                    [dst := CollectedLogs(old(dirs)[org], old(dirs)[dst], cutoff)]
      ensures dst in old(dirs) && org in old(dirs) ==>
                && LogsMoved(old(dirs)[org], old(dirs)[dst], dirs[dst], cutoff)
                && dirs[org].Keys == old(dirs)[org].Keys * {SERVER_LOG}
                && forall n | n in dirs[org] :: dirs[org][n] == old(dirs)[org][n]
    {
      if dst !in dirs {
        return -1;
      }
      var kept := RemoveExpired(dirs[dst], cutoff);
      if org !in dirs {
        dirs := dirs[dst := kept];
        return -1;
      }
      var dat, log := MoveAll(dirs[org], kept);
      CollectedAreMoved(old(dirs)[org], old(dirs)[dst], cutoff);
      dirs := dirs[org := dat][dst := log];
      ret := 0;
    }

    /** The first loop of `movLogFile`. */
    method RemoveExpired(log: Dir, cutoff: string) returns (kept: Dir)
      ensures kept == log - Expired(log, cutoff).Keys
    {
      kept := log;
      var rest := log.Keys;
      while rest != {}
        invariant rest <= log.Keys
        invariant kept == log - (Expired(log, cutoff).Keys - rest)
        decreases rest
      {
        var n :| n in rest;
        rest := rest - {n};
        if StrLess(n, cutoff) {
          kept := kept - {n};
        }
      }
    }

    /** The second loop of `movLogFile`: everything is renamed, but the live log is copied. */
    method MoveAll(org: Dir, dst: Dir) returns (dat: Dir, log: Dir)
      ensures dat == Only(org, {SERVER_LOG}) && log == dst + org
    {
      dat, log := org, dst;
      var rest := org.Keys;
      while rest != {}
        invariant rest <= org.Keys
        invariant dat == Only(org, rest + {SERVER_LOG})
        invariant log == dst + Only(org, org.Keys - rest)
        decreases rest
      {
        var n :| n in rest;
        MoveStep(org, dst, rest, n);
        rest := rest - {n};
        log := log[n := org[n]];
        if n != SERVER_LOG {
          dat := dat - {n};
        }
      }
      assert Only(org, org.Keys) == org;
    }

    /** Counts the ids of all logs of `org` and writes them in the order that the flag selects. */
    method CntSrhNums(org: DirName, dst: DirName, flg: int) returns (ret: int, es: seq<Entry>)
      requires org != dst
      modifies this
      ensures org !in old(dirs) || dst !in old(dirs) ==> ret == -1 && dirs == old(dirs)
      ensures org in old(dirs) && dst in old(dirs) ==>
                && ret == 0 && IsCounting(es, old(dirs)[org]) && InOrder(es, flg == 0)
                && dirs == WithFile(old(dirs), dst, LOG_COUNTS, Rendered(es))
    {
      es := [];
      if org !in dirs || dst !in dirs {
        return -1, es;
      }
      var counts := CountDir(dirs[org]);
      var vec := ToVector(counts);
      es := Sort(vec, flg == 0);
      EntriesCount(es, vec, counts, dirs[org]);
      dirs := WithFile(dirs, dst, LOG_COUNTS, Rendered(es));
      ret := 0;
    }

    method CountDir(d: Dir) returns (counts: map<string, int>)
      ensures Tallies(counts, d, [])
    {
      counts := map[];
      var rest := d.Keys;
      ghost var done: Dir := map[];
      while rest != {}
        invariant rest <= d.Keys && done == Only(d, d.Keys - rest)
        invariant Tallies(counts, done, [])
        decreases rest
      {
        var n :| n in rest;
        counts := CountFile(d[n], counts, done);
        TalliesFile(counts, done, n, d[n]);
        rest := rest - {n};
        done := done[n := d[n]];
      }
      assert done == d;
    }

    method CountFile(f: File, before: map<string, int>, ghost done: Dir) returns (counts: map<string, int>)
      requires Tallies(before, done, [])
      ensures Tallies(counts, done, f)
    {
      counts := before;
      for i := 0 to |f|
        invariant Tallies(counts, done, f[..i])
      {
        ghost var was := counts;
        match SidOf(f[i]) {
          case None =>
          case Some(sid) => counts := counts[sid := Lookup(counts, sid) + 1];
        }
        TalliesLine(was, counts, done, f, i);
      }
      assert f[..|f|] == f;
    }

    /** The vector of the map's pairs. */
    method ToVector(counts: map<string, int>) returns (es: seq<Entry>)
      ensures DistinctSids(es)
      ensures forall e: Entry :: e in es <==> e.sid in counts && e.count == counts[e.sid]
    {
      es := [];
      var rest := counts.Keys;
      while rest != {}
        invariant rest <= counts.Keys && DistinctSids(es)
        invariant forall e: Entry :: e in es <==> e.sid in counts && e.sid !in rest && e.count == counts[e.sid]
        decreases rest
      {
        var sid :| sid in rest;
        assert forall e | e in es :: e.sid != sid;
        es := es + [Entry(sid, counts[sid])];
        rest := rest - {sid};
      }
    }

    /** Some sorted permutation; nothing is used of the sort but that. */
    method Sort(es: seq<Entry>, descending: bool) returns (r: seq<Entry>)
      requires DistinctSids(es)
      ensures InOrder(r, descending) && multiset(r) == multiset(es) && DistinctSids(r)
    {
      r := [];
      for i := 0 to |es|
        invariant InOrder(r, descending) && multiset(r) == multiset(es[..i]) && DistinctSids(r)
      {
        assert es[..i + 1] == es[..i] + [es[i]];
        forall e | e in r
          ensures e.sid != es[i].sid
        {
          assert e in multiset(es[..i]);
          assert e in es[..i];
        }
        r := Insert(r, es[i], descending);
      }
      assert es[..|es|] == es;
    }

    method Insert(es: seq<Entry>, e: Entry, descending: bool) returns (r: seq<Entry>)
      requires InOrder(es, descending) && DistinctSids(es) && forall x | x in es :: x.sid != e.sid
      ensures InOrder(r, descending) && DistinctSids(r) && multiset(r) == multiset(es) + multiset{e}
    {
      var i := 0;
      while i < |es| && NotAfter(es[i], e, descending)
        invariant i <= |es|
        invariant forall j | 0 <= j < i :: NotAfter(es[j], e, descending)
      {
        i := i + 1;
      }
      InsertKeepsOrder(es, e, i, descending);
      InsertKeepsDistinct(es, e, i);
      assert es == es[..i] + es[i..];
      r := es[..i] + [e] + es[i..];
    }

    /** Keeps the counting lines whose number is that of an owned file. */
    method FltLogFile(org: DirName, dst: DirName) returns (ret: int)
      modifies this
      ensures var ok := HasFile(old(dirs), org, AFP_NAMES) && HasFile(old(dirs), org, LOG_COUNTS) && dst in old(dirs);
              && (!ok ==> ret == -1 && dirs == old(dirs))
              && (ok ==>
                    && ret == 0
                    && var keys := KeysOf(old(dirs)[org][AFP_NAMES]);
                       dirs == WithFile(old(dirs), dst, FILTERED, Keep(KeyIn(keys), old(dirs)[org][LOG_COUNTS])))
    {
      if !HasFile(dirs, org, AFP_NAMES) || !HasFile(dirs, org, LOG_COUNTS) || dst !in dirs {
        return -1;
      }
      var filter := ReadKeys(dirs[org][AFP_NAMES]);
      var out := FilterLines(dirs[org][LOG_COUNTS], filter);
      dirs := WithFile(dirs, dst, FILTERED, out);
      ret := 0;
    }

    method FilterLines(lines: File, filter: set<int>) returns (out: File)
      ensures out == Keep(KeyIn(filter), lines)
    {
      out := [];
      for i := 0 to |lines|
        invariant out == Keep(KeyIn(filter), lines[..i])
      {
        KeepStep(KeyIn(filter), lines, i);
        if Atoi(lines[i]) in filter {
          out := out + [lines[i]];
        }
      }
      assert lines[..|lines|] == lines;
    }

    method ReadKeys(lines: File) returns (keys: set<int>)
      ensures keys == KeysOf(lines)
    {
      keys := {};
      for i := 0 to |lines|
        invariant keys == KeysOf(lines[..i])
      {
        keys := keys + {Atoi(lines[i])};
        assert lines[..i + 1] == lines[..i] + [lines[i]];
      }
      assert lines[..|lines|] == lines;
    }

    /** Writes the file names of the leading entries above `cnt` and returns their number. A line
        without a second word is a null pointer for `atoi`; then the process is gone, and of the
        output there is what had been flushed. */
    method TopAfpFile(org: DirName, dst: DirName, cnt: int) returns (ret: int, crashed: bool, ghost stop: nat)
      modifies this
      ensures var ok := HasFile(old(dirs), org, FILTERED) && dst in old(dirs);
              && (!ok ==> ret == -1 && !crashed && dirs == old(dirs))
              && (ok ==>
                    var ps := Parsed(old(dirs)[org][FILTERED]);
                    && TopStops(ps, groupLimit, cnt, stop) && crashed == NullAt(ps, groupLimit, stop)
                    && (!crashed ==>
                          ret == stop && dirs == WithFile(old(dirs), dst, TOP_AFPS, TopLines(Entries(ps, stop))))
                    && (crashed ==> exists out :: dirs == WithFile(old(dirs), dst, TOP_AFPS, out)))
    {
      if !HasFile(dirs, org, FILTERED) || dst !in dirs {
        return -1, false, 0;
      }
      var count, out;
      count, out, crashed := TakeTop(dirs[org][FILTERED], cnt);
      if crashed {
        out := *;
      }
      dirs := WithFile(dirs, dst, TOP_AFPS, out);
      ret, stop := count, count;
    }

    method TakeTop(lines: File, cnt: int) returns (count: nat, out: File, crashed: bool)
      ensures TopStops(Parsed(lines), groupLimit, cnt, count)
      ensures crashed == NullAt(Parsed(lines), groupLimit, count)
      ensures out == TopLines(Entries(Parsed(lines), count))
    {
      ghost var ps := Parsed(lines);
      out := [];
      count := 0;
      while count < |lines|
        invariant count <= |lines| && count <= groupLimit
        invariant Readable(ps, count) && forall i | 0 <= i < count :: ps[i].value.count > cnt
        invariant |out| == count && forall j | 0 <= j < count :: out[j] == TopLine(ps[j].value)
      {
        if count >= groupLimit {
          break;
        }
        var entry := ReadEntry(lines, count);
        if entry == None {
          return count, out, true;
        }
        if entry.value.count <= cnt {
          break;
        }
        out := out + [TopLine(entry.value)];
        count := count + 1;
      }
      crashed := false;
    }

    /** Writes the cold list and returns its threshold. */
    method BotAfpFile(org: DirName, dst: DirName) returns (ret: int, crashed: bool)
      modifies this
      ensures var ok := HasFile(old(dirs), org, AFP_NAMES) && HasFile(old(dirs), org, FILTERED) && dst in old(dirs);
              && (!ok ==> ret == -1 && !crashed && dirs == old(dirs))
              && (ok ==>
                    var names, lines := old(dirs)[org][AFP_NAMES], old(dirs)[org][FILTERED];
                    var unasked := Keep(KeyNotIn(KeysOf(lines)), names);
                    var n := Room(cacheLimit, |unasked|, |lines|);
                    && crashed == !Readable(Parsed(lines), n)
                    && (!crashed ==>
                          var cs := ColdList(unasked, Entries(Parsed(lines), n), cacheLimit);
                          && ret == Threshold(cs)
                          && dirs == WithFile(old(dirs), dst, BOTTOM_AFPS, ColdLines(cs)))
                    && (crashed ==> exists out :: dirs == WithFile(old(dirs), dst, BOTTOM_AFPS, out)))
    {
      if !HasFile(dirs, org, AFP_NAMES) || !HasFile(dirs, org, FILTERED) || dst !in dirs {
        return -1, false;
      }
      var filter := ReadKeys(dirs[org][FILTERED]);
      var out := TakeUnasked(dirs[org][AFP_NAMES], filter);
      out, ret, crashed := FillUp(out, dirs[org][FILTERED], Keep(KeyNotIn(filter), dirs[org][AFP_NAMES]));
      if crashed {
        out := *;
      }
      dirs := WithFile(dirs, dst, BOTTOM_AFPS, out);
    }

    /** The second filling loop of `botAfpFile`. */
    method FillUp(first: File, lines: File, ghost unasked: seq<string>) returns (out: File, thr: int, crashed: bool)
      requires first == Take(cacheLimit, unasked)
      ensures var n := Room(cacheLimit, |unasked|, |lines|);
              && crashed == !Readable(Parsed(lines), n)
              && (!crashed ==>
                    var cs := ColdList(unasked, Entries(Parsed(lines), n), cacheLimit);
                    out == ColdLines(cs) && thr == Threshold(cs))
    {
      ghost var ps, n := Parsed(lines), Room(cacheLimit, |unasked|, |lines|);
      out, thr := first, 0;
      var i := 0;
      while i < |lines|
        invariant i <= n && |out| == |first| + i <= cacheLimit && Readable(ps, i)
        invariant FilledUp(out, thr, first, Entries(ps, i))
      {
        if |out| >= cacheLimit {
          break;
        }
        var entry := ReadEntry(lines, i);
        if entry == None {
          return out, thr, true;
        }
        FillStep(out, thr, first, ps, i);
        thr := entry.value.count;
        out := out + [ColdLine(Queried(entry.value))];
        i := i + 1;
      }
      crashed := false;
      FilledList(out, thr, unasked, Entries(ps, n), cacheLimit);
    }

    /** The first filling loop of `botAfpFile`. */
    method TakeUnasked(names: File, filter: set<int>) returns (out: File)
      ensures out == Take(cacheLimit, Keep(KeyNotIn(filter), names))
    {
      out := [];
      var i := 0;
      while i < |names|
        invariant i <= |names| && |out| <= cacheLimit
        invariant out == Keep(KeyNotIn(filter), names[..i])
      {
        if |out| >= cacheLimit {
          KeepPrefix(KeyNotIn(filter), names, i);
          break;
        }
        KeepStep(KeyNotIn(filter), names, i);
        if Atoi(names[i]) !in filter {
          out := out + [names[i]];
        }
        i := i + 1;
      }
      assert names[..|names|] == names;
    }

    /** Moves the selected files to the transfer directory, which is emptied first. */
    method MovAfpFile(org: DirName, dst: DirName, wrk: DirName) returns (ret: int)
      requires org != dst && dst != wrk && org != wrk
      modifies this
      ensures dst !in old(dirs) ==> ret == -1 && dirs == old(dirs)
      ensures dst in old(dirs) && !HasFile(old(dirs), wrk, TOP_AFPS) ==>
                ret == -1 && dirs == old(dirs)[dst := map[]]
      ensures dst in old(dirs) && HasFile(old(dirs), wrk, TOP_AFPS) ==>
                ret == 0 && dirs == Moved(old(dirs), org, dst, NamesIn(old(dirs)[wrk][TOP_AFPS]))
    {
      if dst !in dirs {
        return -1;
      }
      dirs := dirs[dst := map[]];
      if !HasFile(dirs, wrk, TOP_AFPS) {
        return -1;
      }
      if org in dirs {
        var left, moved := RenameAll(dirs[org], dirs[wrk][TOP_AFPS]);
        WipedFirst(dirs, old(dirs), org, dst, left, moved);
        dirs := dirs[org := left][dst := moved];
      }
      ret := 0;
    }

    method RenameAll(org: Dir, lines: File) returns (left: Dir, moved: Dir)
      ensures left == org - NamesIn(lines) && moved == Only(org, NamesIn(lines))
    {
      left, moved := org, map[];
      for i := 0 to |lines|
        invariant left == org - NamesIn(lines[..i]) && moved == Only(org, NamesIn(lines[..i]))
      {
        NamesStep(lines, i);
        left, moved := Rename(left, moved, Chop(lines[i]), org, NamesIn(lines[..i]));
      }
      assert lines[..|lines|] == lines;
    }

    /** rename, which fails without a trace when there is no such file. */
    method Rename(left: Dir, moved: Dir, name: string, ghost org: Dir, ghost names: set<string>)
      returns (left': Dir, moved': Dir)
      requires left == org - names && moved == Only(org, names)
      ensures left' == org - (names + {name}) && moved' == Only(org, names + {name})
    {
      left', moved' := left, moved;
      if name in left {
        left', moved' := left - {name}, moved[name := left[name]];
      }
    }

    /** Moves one window of the cold list to the transfer directory, which is emptied first. */
    method MovCntFile(org: DirName, dst: DirName, wrk: DirName, pos: nat, cnt: nat) returns (ret: int)
      requires org != dst && dst != wrk && org != wrk
      modifies this
      ensures dst !in old(dirs) ==> ret == -1 && dirs == old(dirs)
      ensures dst in old(dirs) && !HasFile(old(dirs), wrk, BOTTOM_AFPS) ==>
                ret == -1 && dirs == old(dirs)[dst := map[]]
      ensures dst in old(dirs) && HasFile(old(dirs), wrk, BOTTOM_AFPS) ==>
                && ret == 0
                && dirs == Moved(old(dirs), org, dst, NamesIn(Window(old(dirs)[wrk][BOTTOM_AFPS], pos, cnt)))
    {
      if dst !in dirs {
        return -1;
      }
      dirs := dirs[dst := map[]];
      if !HasFile(dirs, wrk, BOTTOM_AFPS) {
        return -1;
      }
      if org in dirs {
        var left, moved := RenameWindow(dirs[org], dirs[wrk][BOTTOM_AFPS], pos, cnt);
        WipedFirst(dirs, old(dirs), org, dst, left, moved);
        dirs := dirs[org := left][dst := moved];
      }
      ret := 0;
    }

    method RenameWindow(org: Dir, lines: File, pos: nat, cnt: nat) returns (left: Dir, moved: Dir)
      ensures var names := NamesIn(Window(lines, pos, cnt));
              left == org - names && moved == Only(org, names)
    {
      left, moved := org, map[];
      var count, i := 0, 0;
      while i < |lines|
        invariant count == i <= |lines|
        invariant var names := NamesIn(Window(lines[..i], pos, cnt));
                  left == org - names && moved == Only(org, names)
      {
        WindowStep(lines, i, pos, cnt);
        if count < pos {
          count, i := count + 1, i + 1;
          continue;
        }
        if count >= pos + cnt {
          WindowEnd(lines, i, pos, cnt);
          break;
        }
        left, moved := Rename(left, moved, Chop(lines[i]), org, NamesIn(Window(lines[..i], pos, cnt)));
        count, i := count + 1, i + 1;
      }
      assert lines[..|lines|] == lines;
    }
  }

  // ---------------------------------------------------------------- what the loops rely on

  function TopLine(e: Entry): string {
    e.sid + ".afp\n"
  }

  function TopLines(es: seq<Entry>): (f: File)
    ensures |f| == |es| && forall i | 0 <= i < |es| :: f[i] == TopLine(es[i])
  {
    seq(|es|, i requires 0 <= i < |es| => TopLine(es[i]))
  }

  /** The two `strtok` calls and the `atoi` on one line. */
  method ReadEntry(lines: File, i: nat) returns (e: Option<Entry>)
    requires i < |lines|
    ensures e == Parsed(lines)[i]
  {
    ParsedAt(lines, i);
    e := Parse(lines[i]);
  }

  /** Behind the unqueried files come the ids of these entries; the last one's count is kept. */
  predicate FilledUp(out: File, thr: int, first: File, es: seq<Entry>) {
    && |out| == |first| + |es| && out[..|first|] == first
    && (forall j | 0 <= j < |es| :: out[|first| + j] == ColdLine(Queried(es[j])))
    && thr == if es == [] then 0 else es[|es| - 1].count
  }

  lemma FillStep(out: File, thr: int, first: File, ps: seq<Option<Entry>>, i: nat)
    requires Readable(ps, i + 1) && FilledUp(out, thr, first, Entries(ps, i))
    ensures FilledUp(out + [ColdLine(Queried(ps[i].value))], ps[i].value.count, first, Entries(ps, i + 1))
  {
    assert (out + [ColdLine(Queried(ps[i].value))])[..|first|] == out[..|first|];
  }

  lemma FilledList(out: File, thr: int, unasked: seq<string>, es: seq<Entry>, limit: nat)
    requires FilledUp(out, thr, Take(limit, unasked), es) && (es == [] || |unasked| + |es| <= limit)
    ensures out == ColdLines(ColdList(unasked, es, limit)) && thr == Threshold(ColdList(unasked, es, limit))
  {
    var first, cs := Take(limit, unasked), ColdList(unasked, es, limit);
    assert |out| == |cs|;
    forall i | 0 <= i < |out|
      ensures out[i] == ColdLine(cs[i])
    {
      if i < |first| {
        assert out[i] == out[..|first|][i] == unasked[i] && cs[i] == Unqueried(unasked[i]);
      } else {
        assert cs[i] == Queried(es[i - |first|]);
        assert out[|first| + (i - |first|)] == ColdLine(Queried(es[i - |first|]));
      }
    }
    LastTaken(unasked, es, limit);
  }

  lemma LastTaken(unasked: seq<string>, es: seq<Entry>, limit: nat)
    requires es == [] || |unasked| + |es| <= limit
    ensures Threshold(ColdList(unasked, es, limit)) == if es == [] then 0 else es[|es| - 1].count
  {
  }

  predicate DistinctSids(es: seq<Entry>) {
    forall i, j | 0 <= i < j < |es| :: es[i].sid != es[j].sid
  }

  function Lookup(m: map<string, int>, sid: string): int {
    if sid in m then m[sid] else 0
  }

  /** The map holds the hits of the files read so far and of the lines read of the next one. */
  ghost predicate Tallies(m: map<string, int>, done: Dir, f: File) {
    && (forall sid :: Lookup(m, sid) == Volume(done, sid) + Hits(f, sid))
    && (forall sid | sid in m :: m[sid] > 0)
  }

  lemma TalliesLine(was: map<string, int>, m: map<string, int>, done: Dir, f: File, i: nat)
    requires i < |f| && Tallies(was, done, f[..i])
    requires m == match SidOf(f[i]) case None => was case Some(sid) => was[sid := Lookup(was, sid) + 1]
    ensures Tallies(m, done, f[..i + 1])
  {
    assert f[..i + 1][..i] == f[..i];
    forall sid
      ensures Lookup(m, sid) == Volume(done, sid) + Hits(f[..i + 1], sid)
    {
      assert Lookup(was, sid) == Volume(done, sid) + Hits(f[..i], sid);
    }
  }

  lemma TalliesFile(m: map<string, int>, done: Dir, n: string, f: File)
    requires n !in done && Tallies(m, done, f)
    ensures Tallies(m, done[n := f], [])
  {
    forall sid
      ensures Lookup(m, sid) == Volume(done[n := f], sid) + Hits([], sid)
    {
      SumPut(done, n, f, HitsOf(sid));
      assert done - {n} == done;
    }
  }

  lemma EntriesCount(es: seq<Entry>, vec: seq<Entry>, m: map<string, int>, d: Dir)
    requires Tallies(m, d, []) && DistinctSids(es) && multiset(es) == multiset(vec)
    requires forall e: Entry :: e in vec <==> e.sid in m && e.count == m[e.sid]
    ensures IsCounting(es, d)
  {
    forall e: Entry
      ensures e in es <==> e.count == Volume(d, e.sid) > 0
    {
      assert e in es <==> e in multiset(es);
      assert e in vec <==> e in multiset(vec);
      assert Lookup(m, e.sid) == Volume(d, e.sid) + Hits([], e.sid);
    }
  }

  predicate NotAfter(x: Entry, y: Entry, descending: bool) {
    if descending then x.count >= y.count else x.count <= y.count
  }

  lemma InsertKeepsOrder(es: seq<Entry>, e: Entry, i: nat, descending: bool)
    requires i <= |es| && InOrder(es, descending)
    requires forall j | 0 <= j < i :: NotAfter(es[j], e, descending)
    requires i < |es| ==> !NotAfter(es[i], e, descending)
    ensures InOrder(es[..i] + [e] + es[i..], descending)
  {
    forall j | i <= j < |es|
      ensures NotAfter(e, es[j], descending)
    {
    }
  }

  lemma InsertKeepsDistinct(es: seq<Entry>, e: Entry, i: nat)
    requires i <= |es| && DistinctSids(es) && forall x | x in es :: x.sid != e.sid
    ensures DistinctSids(es[..i] + [e] + es[i..])
  {
    assert forall j | 0 <= j < |es| :: es[j] in es;
  }

  lemma {:induction false} KeepPrefix<T>(p: T -> bool, xs: seq<T>, i: nat)
    requires i <= |xs|
    ensures Keep(p, xs[..i]) <= Keep(p, xs)
    decreases |xs| - i
  {
    if i < |xs| {
      KeepPrefix(p, xs, i + 1);
      KeepStep(p, xs, i);
    } else {
      assert xs[..i] == xs;
    }
  }

  lemma MoveStep(org: Dir, dst: Dir, rest: set<string>, n: string)
    requires n in rest && rest <= org.Keys
    ensures Only(org, rest - {n} + {SERVER_LOG}) ==
            if n == SERVER_LOG then Only(org, rest + {SERVER_LOG}) else Only(org, rest + {SERVER_LOG}) - {n}
    ensures dst + Only(org, org.Keys - (rest - {n})) == (dst + Only(org, org.Keys - rest))[n := org[n]]
  {
  }

  lemma WipedFirst(ds: Dirs, was: Dirs, org: DirName, dst: DirName, left: Dir, moved: Dir)
    requires ds == was[dst := map[]] && org != dst
    ensures ds[org := left][dst := moved] == was[org := left][dst := moved]
  {
  }

  lemma NamesStep(lines: File, i: nat)
    requires i < |lines|
    ensures NamesIn(lines[..i + 1]) == NamesIn(lines[..i]) + {Chop(lines[i])}
  {
    assert lines[..i + 1] == lines[..i] + [lines[i]];
  }

  lemma WindowStep(f: File, i: nat, pos: nat, cnt: nat)
    requires i < |f|
    ensures i < pos ==> Window(f[..i], pos, cnt) == Window(f[..i + 1], pos, cnt) == []
    ensures pos <= i < pos + cnt ==>
              && Window(f[..i + 1], pos, cnt) == Window(f[..i], pos, cnt) + [f[i]]
              && NamesIn(Window(f[..i + 1], pos, cnt)) == NamesIn(Window(f[..i], pos, cnt)) + {Chop(f[i])}
  {
    if pos <= i < pos + cnt {
      assert Window(f[..i + 1], pos, cnt) == Window(f[..i], pos, cnt) + [f[i]];
    }
  }

  lemma WindowEnd(f: File, i: nat, pos: nat, cnt: nat)
    requires pos + cnt <= i <= |f|
    ensures Window(f[..i], pos, cnt) == Window(f, pos, cnt)
  {
  }
}
