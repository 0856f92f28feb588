/** The log writer: the one consumer of the message queue, which rotates the live log after every
    50000 lines. */
module LogWriters {
  import opened Text
  import opened Files
  import opened ProDeal
  import opened RunLogs
  import M = Monitor

  const MAX_LOG_COUNT := 50000

  /** The run directory after one more message, which may begin a new file. */
  function WriteOne(d: Dir, begins: bool, name: string, line: string): (d': Dir)
    requires begins || SERVER_LOG in d
    ensures SERVER_LOG in d'
  {
    AppendLine(if begins then RotateLog(d, name) else d, line)
  }

  /** The run directory after the first i messages; message k is written at the time whose stamp
      is stamps[k]. */
  function Written(dat: Dir, msgs: File, stamps: seq<string>, i: nat): (d: Dir)
    requires i <= |msgs| <= |stamps|
    ensures i > 0 ==> SERVER_LOG in d
  {
    if i == 0 then dat
    else WriteOne(Written(dat, msgs, stamps, i - 1), (i - 1) % MAX_LOG_COUNT == 0, stamps[i - 1], msgs[i - 1])
  }

  class LogWriter {
    var dat: Dir     // the run directory
    var count: nat   // lines in the open file, 0 when the next line starts a new one
    var open: bool   // whether the live log is open

    constructor (dat: Dir)
      ensures this.dat == dat && count == 0 && !open
    {
      this.dat := dat;
      count := 0;
      open := false;
    }

    /** The writer thread, from its start to the null that ends it: msgs is what its calls of
        `get` return before. */
    method Run(msgs: File, clock: seq<Time>)
      requires count == 0 && !open && |clock| >= |msgs|
      modifies this
      ensures !open
      ensures dat == Written(old(dat), msgs, Stamps(clock), |msgs|)
    {
      var n := 0;
      while n < |msgs|
        invariant n <= |msgs| && count == n % MAX_LOG_COUNT && open == (n > 0)
        invariant dat == Written(old(dat), msgs, Stamps(clock), n)
      {
        Accept(msgs[n], StampName(clock[n]));
        NextCount(n);
        n := n + 1;
      }
      if open {
        open := false;
      }
    }

    /** The loop body for one message. */
    method Accept(line: string, name: string)
      requires count < MAX_LOG_COUNT && (count != 0 ==> open && SERVER_LOG in dat)
      modifies this
      ensures open && count == (if old(count) + 1 == MAX_LOG_COUNT then 0 else old(count) + 1)
      ensures dat == WriteOne(old(dat), old(count) == 0, name, line)
    {
      if count == 0 {
        NewFile(name);
      }
      WriteLine(line);
      count := count + 1;
      if count >= MAX_LOG_COUNT {
        count := 0;
      }
    }

    method NewFile(name: string)
      modifies this`dat, this`open
      ensures open && dat == RotateLog(old(dat), name)
    {
      if open {
        open := false;
      }
      if SERVER_LOG in dat {
        dat := (dat - {SERVER_LOG})[name := dat[SERVER_LOG]];
      }
      dat := dat[SERVER_LOG := []];
      open := true;
    }

    /** No line is written while no file is open. */
    method WriteLine(line: string)
      requires open && SERVER_LOG in dat
      modifies this`dat
      ensures dat == AppendLine(old(dat), line)
    {
      dat := dat[SERVER_LOG := dat[SERVER_LOG] + [line]];
    }
  }

  function Stamps(clock: seq<Time>): (names: seq<string>)
    ensures |names| == |clock| && forall k | 0 <= k < |clock| :: names[k] == StampName(clock[k])
  {
    seq(|clock|, k requires 0 <= k < |clock| => StampName(clock[k]))
  }

  lemma NextCount(n: nat)
    ensures (n + 1) % MAX_LOG_COUNT == if n % MAX_LOG_COUNT + 1 == MAX_LOG_COUNT then 0 else n % MAX_LOG_COUNT + 1
  {
  }

  // ---------------------------------------------------------------- the files and their names

  /** The stamps at which files were begun are new names, and no two are alike. */
  predicate FreshStamps(dat: Dir, stamps: seq<string>, n: nat) {
    && n <= |stamps|
    && (forall i | 0 <= i < n && i % MAX_LOG_COUNT == 0 :: stamps[i] != SERVER_LOG && stamps[i] !in dat)
    && (forall i, j | 0 <= i < j < n && i % MAX_LOG_COUNT == 0 && j % MAX_LOG_COUNT == 0 :: stamps[i] != stamps[j])
  }

  /** How many files n messages begin. */
  function FileCount(n: nat): nat {
    (n + MAX_LOG_COUNT - 1) / MAX_LOG_COUNT
  }

  lemma FiftyThousandLines(n: nat)
    ensures FileCount(n) <= 1 <==> n <= 50000
    ensures FileCount(n + 50000) == FileCount(n) + 1
  {
  }

  /** The name of the j-th file after n messages: the last one is the live log, each other one
      got its name when the next was begun. */
  function FileName(stamps: seq<string>, n: nat, j: nat): string
    requires j < FileCount(n) && n <= |stamps|
  {
    if j == FileCount(n) - 1 then SERVER_LOG else stamps[(j + 1) * MAX_LOG_COUNT]
  }

  /** The messages of the j-th file. */
  function Chunk(msgs: File, n: nat, j: nat): File
    requires j < FileCount(n) && n <= |msgs|
  {
    if j == FileCount(n) - 1 then msgs[j * MAX_LOG_COUNT..n]
    else msgs[j * MAX_LOG_COUNT..(j + 1) * MAX_LOG_COUNT]
  }

  ghost predicate ChunksHold(d: Dir, msgs: File, stamps: seq<string>, n: nat)
    requires n <= |msgs| <= |stamps|
  {
    forall j | 0 <= j < FileCount(n) ::
      FileName(stamps, n, j) in d && d[FileName(stamps, n, j)] == Chunk(msgs, n, j)
  }

  /** The files that were there stay, the live log under the first stamp. */
  ghost predicate OldFilesStay(dat: Dir, d: Dir, stamps: seq<string>, n: nat)
    requires n <= |stamps|
  {
    && (forall name | name in dat && name != SERVER_LOG :: name in d && d[name] == dat[name])
    && (SERVER_LOG in dat && n > 0 ==> stamps[0] in d && d[stamps[0]] == dat[SERVER_LOG])
  }

  ghost predicate FilesHold(dat: Dir, d: Dir, msgs: File, stamps: seq<string>, n: nat)
    requires n <= |msgs| <= |stamps|
  {
    ChunksHold(d, msgs, stamps, n) && OldFilesStay(dat, d, stamps, n)
  }

  /** Rotation: every file but the last holds exactly 50000 messages, the files hold the
      messages in order, and no file that was there is lost. */
  lemma {:induction false} FilesHoldChunks(dat: Dir, msgs: File, stamps: seq<string>, n: nat)
    requires n <= |msgs| <= |stamps| && FreshStamps(dat, stamps, n)
    ensures FilesHold(dat, Written(dat, msgs, stamps, n), msgs, stamps, n)
  {
    if n > 0 {
      FilesHoldChunks(dat, msgs, stamps, n - 1);
      var d := Written(dat, msgs, stamps, n - 1);
      OneMoreKeepsOld(dat, d, msgs[n - 1], stamps, n);
      if (n - 1) % MAX_LOG_COUNT == 0 {
        BeginFile(dat, d, msgs, stamps, n);
      } else {
        ContinueFile(dat, d, msgs, stamps, n);
      }
    }
  }

  lemma OneMoreKeepsOld(dat: Dir, d: Dir, line: string, stamps: seq<string>, n: nat)
    requires 0 < n <= |stamps| && FreshStamps(dat, stamps, n) && OldFilesStay(dat, d, stamps, n - 1)
    requires n == 1 ==> d == dat
    requires n > 1 ==> SERVER_LOG in d
    ensures OldFilesStay(dat, WriteOne(d, (n - 1) % MAX_LOG_COUNT == 0, stamps[n - 1], line), stamps, n)
  {
  }

  lemma BeginFile(dat: Dir, d: Dir, msgs: File, stamps: seq<string>, n: nat)
    requires 0 < n <= |msgs| <= |stamps| && FreshStamps(dat, stamps, n)
    requires ChunksHold(d, msgs, stamps, n - 1) && (n - 1) % MAX_LOG_COUNT == 0
    ensures ChunksHold(WriteOne(d, true, stamps[n - 1], msgs[n - 1]), msgs, stamps, n)
  {
    var last := FileCount(n) - 1;
    var d' := WriteOne(d, true, stamps[n - 1], msgs[n - 1]);
    assert last * MAX_LOG_COUNT == n - 1 && FileCount(n - 1) == last;
    assert msgs[n - 1..n] == [msgs[n - 1]];
    forall j | 0 <= j < last
      ensures FileName(stamps, n, j) in d' && d'[FileName(stamps, n, j)] == Chunk(msgs, n, j)
    {
      assert FileName(stamps, n - 1, j) in d && d[FileName(stamps, n - 1, j)] == Chunk(msgs, n - 1, j);
      assert ((j + 1) * MAX_LOG_COUNT) % MAX_LOG_COUNT == 0;
    }
  }

  lemma ContinueFile(dat: Dir, d: Dir, msgs: File, stamps: seq<string>, n: nat)
    requires 0 < n <= |msgs| <= |stamps| && FreshStamps(dat, stamps, n)
    requires ChunksHold(d, msgs, stamps, n - 1) && (n - 1) % MAX_LOG_COUNT != 0
    requires SERVER_LOG in d
    ensures ChunksHold(WriteOne(d, false, stamps[n - 1], msgs[n - 1]), msgs, stamps, n)
  {
    var last := FileCount(n) - 1;
    var d' := WriteOne(d, false, stamps[n - 1], msgs[n - 1]);
    assert FileCount(n - 1) == last + 1;
    forall j | 0 <= j <= last
      ensures FileName(stamps, n, j) in d' && d'[FileName(stamps, n, j)] == Chunk(msgs, n, j)
    {
      assert FileName(stamps, n - 1, j) in d && d[FileName(stamps, n - 1, j)] == Chunk(msgs, n - 1, j);
      if j == last {
        assert msgs[j * MAX_LOG_COUNT..n] == msgs[j * MAX_LOG_COUNT..n - 1] + [msgs[n - 1]];
      } else {
        assert ((j + 1) * MAX_LOG_COUNT) % MAX_LOG_COUNT == 0;
      }
    }
  }

  /** The files in the order in which they were begun, one after the other. */
  ghost function Joined(d: Dir, stamps: seq<string>, n: nat, k: nat): File
    requires k <= FileCount(n) && n <= |stamps|
    requires forall j | 0 <= j < FileCount(n) :: FileName(stamps, n, j) in d
  {
    if k == 0 then [] else Joined(d, stamps, n, k - 1) + d[FileName(stamps, n, k - 1)]
  }

  lemma SlicesMeet(msgs: File, a: nat, b: nat)
    requires a <= b <= |msgs|
    ensures msgs[..a] + msgs[a..b] == msgs[..b]
  {
  }

  lemma {:induction false} JoinedChunks(dat: Dir, d: Dir, msgs: File, stamps: seq<string>, n: nat, k: nat)
    requires n <= |msgs| <= |stamps| && FilesHold(dat, d, msgs, stamps, n) && k <= FileCount(n)
    ensures Joined(d, stamps, n, k) == msgs[..if k * MAX_LOG_COUNT <= n then k * MAX_LOG_COUNT else n]
  {
    if k > 0 {
      JoinedChunks(dat, d, msgs, stamps, n, k - 1);
      var a := (k - 1) * MAX_LOG_COUNT;
      var b := if k == FileCount(n) then n else k * MAX_LOG_COUNT;
      assert a <= b <= n && d[FileName(stamps, n, k - 1)] == Chunk(msgs, n, k - 1) == msgs[a..b];
      SlicesMeet(msgs, a, b);
    }
  }

  /** From the callers to the disk: when the writer takes every delivered message of a queue that
      is not reset, its files one after the other, followed by what is still queued, are the
      messages in the order in which they were put. */
  lemma LogFollowsPutOrder(s: M.State<string>, acts: seq<M.Action>, dat: Dir, stamps: seq<string>)
    requires M.InOrder(s) && s.departed == [] && M.IsRun(s, acts)
    requires forall a | a in acts :: !a.Reset?
    requires |stamps| >= |M.Exec(s, acts).departed|
    requires FreshStamps(dat, stamps, |M.Exec(s, acts).departed|)
    ensures var e := M.Exec(s, acts);
            var msgs, n := M.Items(e.departed), |e.departed|;
            var d := Written(dat, msgs, stamps, n);
            && FilesHold(dat, d, msgs, stamps, n)
            && Joined(d, stamps, n, FileCount(n)) + e.queue.items == e.entered
            && forall x | x in e.departed :: x.Delivered?
  {
    var e := M.Exec(s, acts);
    var msgs, n := M.Items(e.departed), |e.departed|;
    RunKeepsOrder(s, acts);
    FilesHoldChunks(dat, msgs, stamps, n);
    JoinedChunks(dat, Written(dat, msgs, stamps, n), msgs, stamps, n, FileCount(n));
    assert msgs[..n] == msgs;
  }

  lemma {:induction false} RunKeepsOrder(s: M.State<string>, acts: seq<M.Action>)
    requires M.InOrder(s) && M.IsRun(s, acts)
    ensures M.InOrder(M.Exec(s, acts))
    ensures (forall a | a in acts :: !a.Reset?) && (forall x | x in s.departed :: x.Delivered?) ==>
              forall x | x in M.Exec(s, acts).departed :: x.Delivered?
    decreases |acts|
  {
    if acts != [] {
      M.StepKeepsOrder(s, acts[0]);
      RunKeepsOrder(M.Apply(s, acts[0]), acts[1..]);
    }
  }
}
