/** The life of the run logs: lines are appended to the live log, the live log is rotated to a
    stamped name, and the daily exchange deletes expired logs, moves the rotated ones and copies
    the live one. However these interleave, every line is counted once. */
module RunLogs {
  import opened Text
  import opened Files
  import opened Counting
  import opened ProDeal

  // ---------------------------------------------------------------- the steps

  /** fputs to the open log */
  function AppendLine(dat: Dir, line: string): Dir
    requires SERVER_LOG in dat
  {
    dat[SERVER_LOG := dat[SERVER_LOG] + [line]]
  }

  /** rename of the live log, if there is one, over whatever has the name; then a new live log. */
  function RotateLog(dat: Dir, name: string): Dir {
    (if SERVER_LOG in dat then dat[name := dat[SERVER_LOG]] else dat)[SERVER_LOG := []]
  }

  /** The run directory, the log directory, and what a history must account for: the lines
      appended so far and the files deleted by each collection. */
  datatype Logs = Logs(dat: Dir, log: Dir, appended: File, expired: seq<Dir>)

  datatype Event = Append(line: string) | Rotate(stamp: Time) | Collect(cutoff: Time)

  predicate Enabled(s: Logs, e: Event) {
    match e
    case Append(_) => SERVER_LOG in s.dat
    case Rotate(t) => ValidTime(t) && StampName(t) !in s.dat && StampName(t) !in s.log
    case Collect(t) => ValidTime(t)
  }

  function Apply(s: Logs, e: Event): Logs
    requires Enabled(s, e)
  {
    match e
    case Append(l) => s.(dat := AppendLine(s.dat, l), appended := s.appended + [l])
    case Rotate(t) => s.(dat := RotateLog(s.dat, StampName(t)))
    case Collect(t) =>
      Logs(Only(s.dat, {SERVER_LOG}), CollectedLogs(s.dat, s.log, StampName(t)),
           s.appended, s.expired + [Expired(s.log, StampName(t))])
  }

  predicate IsRun(s: Logs, es: seq<Event>)
    decreases |es|
  {
    es == [] || (Enabled(s, es[0]) && IsRun(Apply(s, es[0]), es[1..]))
  }

  function Exec(s: Logs, es: seq<Event>): Logs
    requires IsRun(s, es)
    decreases |es|
  {
    if es == [] then s else Exec(Apply(s, es[0]), es[1..])
  }

  // ---------------------------------------------------------------- names and expiry

  /** The live log's name sorts behind every stamp: it never expires, and is never a stamp. */
  lemma ServerLogNeverExpires(t: Time)
    ensures !StrLess(SERVER_LOG, StampName(t)) && StampName(t) != SERVER_LOG
  {
  }

  /** Expiry by string comparison is sound: it hits exactly the logs stamped before the cutoff. */
  lemma ExpiredIff(log: Dir, stamp: Time, cutoff: Time)
    requires ValidTime(stamp) && ValidTime(cutoff) && StampName(stamp) in log
    ensures StampName(stamp) in Expired(log, StampName(cutoff)) <==> Earlier(stamp, cutoff)
    ensures SERVER_LOG !in Expired(log, StampName(cutoff))
  {
    StampOrder(stamp, cutoff);
    ServerLogNeverExpires(cutoff);
  }

  // ---------------------------------------------------------------- the account

  ghost function ExpiredSum(ds: seq<Dir>, f: File -> nat): nat {
    if ds == [] then 0 else ExpiredSum(ds[..|ds| - 1], f) + Sum(ds[|ds| - 1], f)
  }

  /** The log directory's own files; its copy of the live log stands for lines that are still in
      the run directory. */
  function Archived(s: Logs): Dir {
    s.log - {SERVER_LOG}
  }

  /** No archived file has the name of one still to be moved, and measured by any count of lines
      nothing is lost or doubled. */
  ghost predicate Accounted(s: Logs, f: File -> nat) {
    && Archived(s).Keys !! s.dat.Keys
    && (SERVER_LOG in s.log ==> SERVER_LOG in s.dat)
    && Sum(s.dat, f) + Sum(Archived(s), f) + ExpiredSum(s.expired, f) == f(s.appended)
  }

  lemma AppendKeepsAccount(s: Logs, line: string, f: File -> nat)
    requires Additive(f) && Accounted(s, f) && SERVER_LOG in s.dat
    ensures Accounted(Apply(s, Append(line)), f)
  {
    SumRemove(s.dat, SERVER_LOG, f);
    SumPut(s.dat, SERVER_LOG, s.dat[SERVER_LOG] + [line], f);
  }

  /** A rotation keeps every line exactly when its name replaces no lines: the name is new, or
      there is no live log to rotate, or the replaced file has nothing to count. */
  lemma RotateKeepsLinesIff(dat: Dir, name: string, f: File -> nat)
    requires f([]) == 0 && name != SERVER_LOG
    ensures Sum(RotateLog(dat, name), f) == Sum(dat, f) <==>
            SERVER_LOG !in dat || name !in dat || f(dat[name]) == 0
  {
    if SERVER_LOG in dat {
      var live := dat[SERVER_LOG];
      var rest := dat - {SERVER_LOG};
      SumRemove(dat, SERVER_LOG, f);
      SumPut(rest, name, live, f);
      SumPut(rest[name := live], SERVER_LOG, [], f);
      if name in dat {
        SumRemove(rest, name, f);
      }
      RotatedParts(dat, name);
    } else {
      SumPut(dat, SERVER_LOG, [], f);
      assert dat - {SERVER_LOG} == dat;
    }
  }

  lemma RotatedParts(dat: Dir, name: string)
    requires SERVER_LOG in dat && name != SERVER_LOG
    ensures var rest := (dat - {SERVER_LOG})[name := dat[SERVER_LOG]];
            && RotateLog(dat, name) == rest[SERVER_LOG := []] && rest - {SERVER_LOG} == rest
    ensures name !in dat ==> dat - {SERVER_LOG} - {name} == dat - {SERVER_LOG}
  {
  }

  /** The parts that a collection makes of the two directories. */
  lemma CollectedParts(dat: Dir, log: Dir, cutoff: string)
    requires (log - {SERVER_LOG}).Keys !! dat.Keys && SERVER_LOG !in Expired(log, cutoff)
    requires SERVER_LOG in log ==> SERVER_LOG in dat
    ensures var kept := log - {SERVER_LOG} - Expired(log, cutoff).Keys;
            && CollectedLogs(dat, log, cutoff) == kept + dat && kept.Keys !! dat.Keys
            && log - {SERVER_LOG} == kept + Expired(log, cutoff) && kept.Keys !! Expired(log, cutoff).Keys
  {
  }

  lemma {:induction false} SumZeroIff(d: Dir, f: File -> nat)
    ensures Sum(d, f) == 0 <==> forall n | n in d :: f(d[n]) == 0
    decreases |d|
  {
    if d != map[] {
      var n :| n in d;
      SumRemove(d, n, f);
      SumZeroIff(d - {n}, f);
      assert forall m | m in d :: m == n || m in d - {n};
    }
  }

  /** The log directory's unexpired files; the copy of a live log that is there is not counted. */
  function Unexpired(dat: Dir, log: Dir, cutoff: string): Dir {
    map n | n in log && !StrLess(n, cutoff) && (n != SERVER_LOG || SERVER_LOG !in dat) :: log[n]
  }

  /** A collection keeps every unexpired line exactly when no file of the run directory, other than
      the live log, replaces an unexpired one that has something to count. */
  lemma CollectKeepsLinesIff(dat: Dir, log: Dir, cutoff: string, f: File -> nat)
    ensures Sum(CollectedLogs(dat, log, cutoff), f) == Sum(dat, f) + Sum(Unexpired(dat, log, cutoff), f) <==>
            forall n | n in dat && n != SERVER_LOG && n in log && !StrLess(n, cutoff) :: f(log[n]) == 0
  {
    var kept := Unexpired(dat, log, cutoff);
    var beside, under := kept - dat.Keys, Only(kept, dat.Keys);
    CollectedBeside(dat, log, cutoff);
    SumDisjoint(beside, dat, f);
    SumDisjoint(beside, under, f);
    SumZeroIff(under, f);
    assert forall n :: n in under <==> n in dat && n != SERVER_LOG && n in log && !StrLess(n, cutoff);
  }

  lemma CollectedBeside(dat: Dir, log: Dir, cutoff: string)
    ensures var kept := Unexpired(dat, log, cutoff);
            && CollectedLogs(dat, log, cutoff) == (kept - dat.Keys) + dat
            && kept == (kept - dat.Keys) + Only(kept, dat.Keys)
  {
  }

  /** A file that is moved over one of the same name replaces its lines. */
  lemma MovedLogReplaces()
    ensures var dat, log := map["q.log" := ["new\n"]], map["q.log" := ["old\n"]];
            CollectedLogs(dat, log, "2") == map["q.log" := ["new\n"]]
  {
    assert !StrLess("q.log", "2");
  }

  lemma OnlyServerLog(dat: Dir, f: File -> nat)
    ensures Sum(Only(dat, {SERVER_LOG}), f) + Sum(dat - {SERVER_LOG}, f) == Sum(dat, f)
  {
    SplitServerLog(dat);
    SumDisjoint(Only(dat, {SERVER_LOG}), dat - {SERVER_LOG}, f);
  }

  lemma SplitServerLog(dat: Dir)
    ensures Only(dat, {SERVER_LOG}) + (dat - {SERVER_LOG}) == dat
  {
  }

  /** Right after a collection the log directory holds every line that has not expired. */
  lemma CollectKeepsAccount(s: Logs, t: Time, f: File -> nat)
    requires Accounted(s, f) && ValidTime(t)
    ensures var s' := Apply(s, Collect(t));
            && Sum(s'.log, f) + ExpiredSum(s'.expired, f) == f(s'.appended)
            && Accounted(s', f)
  {
    var s' := Apply(s, Collect(t));
    var gone := Expired(s.log, StampName(t));
    var kept := Archived(s) - gone.Keys;
    ServerLogNeverExpires(t);
    CollectedParts(s.dat, s.log, StampName(t));
    SumDisjoint(kept, s.dat, f);
    SumDisjoint(kept, gone, f);
    assert s'.expired[..|s.expired|] == s.expired;
    OnlyServerLog(s'.log, f);
    CopiedLive(s.dat, kept);
  }

  lemma CopiedLive(dat: Dir, kept: Dir)
    requires SERVER_LOG !in kept
    ensures Only(kept + dat, {SERVER_LOG}) == Only(dat, {SERVER_LOG})
    ensures (kept + dat - {SERVER_LOG}).Keys !! Only(dat, {SERVER_LOG}).Keys
  {
  }

  lemma StepKeepsAccount(s: Logs, e: Event, f: File -> nat)
    requires Additive(f) && Accounted(s, f) && Enabled(s, e)
    ensures Accounted(Apply(s, e), f)
  {
    match e
    case Append(l) => AppendKeepsAccount(s, l, f);
    case Rotate(t) =>
      ServerLogNeverExpires(t);
      RotateKeepsLinesIff(s.dat, StampName(t), f);
    case Collect(t) => CollectKeepsAccount(s, t, f);
  }

  lemma {:induction false} RunKeepsAccount(s: Logs, es: seq<Event>, f: File -> nat)
    requires Additive(f) && Accounted(s, f) && IsRun(s, es)
    ensures Accounted(Exec(s, es), f)
    decreases |es|
  {
    if es != [] {
      StepKeepsAccount(s, es[0], f);
      RunKeepsAccount(Apply(s, es[0]), es[1..], f);
    }
  }

  // ---------------------------------------------------------------- every line once

  function NoLogs(): Logs {
    Logs(map[], map[], [], [])
  }

  function OccurrencesOf(line: string): File -> nat {
    (ls: File) => multiset(ls)[line]
  }

  lemma OccurrencesAdditive(line: string)
    ensures Additive(OccurrencesOf(line))
  {
    forall a: File, b: File
      ensures OccurrencesOf(line)(a + b) == OccurrencesOf(line)(a) + OccurrencesOf(line)(b)
    {
      assert multiset(a + b) == multiset(a) + multiset(b);
    }
  }

  lemma NothingAccounted(f: File -> nat)
    requires Additive(f)
    ensures Accounted(NoLogs(), f)
  {
  }

  /** After any history of appending, rotating to fresh stamps and collecting, a collection
      leaves each line in the log directory as often as it was ever appended, less its
      occurrences in the files deleted as expired. The live log, which each collection copies
      and a later one moves, counts once. */
  lemma EveryLineOnce(es: seq<Event>, cutoff: Time, line: string)
    requires IsRun(NoLogs(), es) && ValidTime(cutoff)
    ensures var s := Apply(Exec(NoLogs(), es), Collect(cutoff));
            Sum(s.log, OccurrencesOf(line)) + ExpiredSum(s.expired, OccurrencesOf(line))
            == multiset(s.appended)[line]
  {
    OccurrencesAdditive(line);
    NothingAccounted(OccurrencesOf(line));
    RunKeepsAccount(NoLogs(), es, OccurrencesOf(line));
    CollectKeepsAccount(Exec(NoLogs(), es), cutoff, OccurrencesOf(line));
  }

  /** So the query volume that the counting stage finds for a song is the number of lines ever
      appended for it, less those that expired. */
  lemma EveryQueryOnce(es: seq<Event>, cutoff: Time, sid: string)
    requires IsRun(NoLogs(), es) && ValidTime(cutoff)
    ensures var s := Apply(Exec(NoLogs(), es), Collect(cutoff));
            Volume(s.log, sid) + ExpiredSum(s.expired, HitsOf(sid)) == Hits(s.appended, sid)
  {
    HitsAdditive(sid);
    NothingAccounted(HitsOf(sid));
    RunKeepsAccount(NoLogs(), es, HitsOf(sid));
    CollectKeepsAccount(Exec(NoLogs(), es), cutoff, HitsOf(sid));
  }

  /** Two rotations within one second lose the lines between them. */
  lemma SameSecondLosesLines(t: Time)
    requires ValidTime(t)
    ensures var dat := AppendLine(RotateLog(AppendLine(RotateLog(map[], StampName(t)), "a\n"), StampName(t)), "b\n");
            var twice := RotateLog(dat, StampName(t));
            forall n | n in twice :: "a\n" !in twice[n]
  {
  }
}
