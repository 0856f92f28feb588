/** The compositions: what a group does on Preconf, how the main cache ranks its files, and the
    daily loop that hands windows of the cold list to the groups. */
module Services {
  import opened Text
  import opened Files
  import opened Counting
  import opened Selection
  import opened ProDeal

  predicate Configured(ds: Dirs) {
    AFP in ds && DAT in ds && WRK in ds && ORG in ds && LOG in ds
  }

  /** The logs that a ranking at this time counts. */
  function LogsAt(ds: Dirs, cutoff: Time): Dir
    requires Configured(ds)
  {
    CollectedLogs(ds[DAT], ds[LOG], StampName(cutoff))
  }

  /** What a ranking found: the file names in the order of their listing, and the counting. */
  datatype Ranking = Ranking(names: seq<string>, es: seq<Entry>)

  function Owned(r: Ranking): seq<Entry> {
    OwnedOnly(r.es, NameLines(r.names))
  }

  function ColdOf(r: Ranking, limit: nat): seq<Cold> {
    Coldest(NameLines(r.names), r.es, limit)
  }

  /** The file names of the first k owned entries. */
  function HotOf(r: Ranking, k: nat): set<string> {
    NamesIn(TopLines(Take(k, Owned(r))))
  }

  /** The ranking is of the host's files, and counts exactly the logs that a collection finds. */
  ghost predicate Ranks(r: Ranking, ds: Dirs, cutoff: Time, descending: bool)
    requires Configured(ds)
  {
    IsListing(r.names, ds[AFP]) && IsCounting(r.es, LogsAt(ds, cutoff)) && InOrder(r.es, descending)
  }

  predicate Collected(ds: Dirs, was: Dirs, cutoff: Time)
    requires Configured(ds) && Configured(was)
  {
    ds[LOG] == LogsAt(was, cutoff) && ds[DAT] == Only(was[DAT], {SERVER_LOG})
  }

  /** Every run log has gone to the log directory, in place of one of the same name, what sorts
      before the cutoff has not stayed, only the live log is left behind, and it is these logs that
      a ranking has counted. */
  lemma CollectedMeans(r: Ranking, ds: Dirs, was: Dirs, cutoff: Time, descending: bool)
    requires Configured(ds) && Configured(was) && Collected(ds, was, cutoff) && Ranks(r, was, cutoff, descending)
    ensures LogsMoved(was[DAT], was[LOG], ds[LOG], StampName(cutoff)) && IsCounting(r.es, ds[LOG])
    ensures forall n | n in ds[DAT] :: n == SERVER_LOG && n in was[DAT] && ds[DAT][n] == was[DAT][n]
    ensures SERVER_LOG in was[DAT] ==> SERVER_LOG in ds[DAT]
  {
    CollectedAreMoved(was[DAT], was[LOG], StampName(cutoff));
  }

  /** What the four common stages leave in the work directory. */
  ghost predicate Ranked(ds: Dirs, was: Dirs, cutoff: Time, r: Ranking, descending: bool)
    requires Configured(was)
  {
    && Configured(ds) && ds[AFP] == was[AFP] && ds[ORG] == was[ORG]
    && Collected(ds, was, cutoff) && Ranks(r, was, cutoff, descending)
    && HasFile(ds, WRK, AFP_NAMES) && ds[WRK][AFP_NAMES] == NameLines(r.names)
    && HasFile(ds, WRK, FILTERED) && ds[WRK][FILTERED] == Rendered(Owned(r))
    && (forall e | e in Owned(r) :: '|' !in e.sid)
  }

  lemma CountedIdHasNoBar(d: Dir, sid: string)
    requires Volume(d, sid) > 0
    ensures '|' !in sid
    decreases |d|
  {
    var n :| n in d;
    SumRemove(d, n, HitsOf(sid));
    if Hits(d[n], sid) > 0 {
      HitIdHasNoBar(d[n], sid);
    } else {
      CountedIdHasNoBar(d - {n}, sid);
    }
  }

  lemma {:induction false} HitIdHasNoBar(f: File, sid: string)
    requires Hits(f, sid) > 0
    ensures '|' !in sid
  {
    var n := |f| - 1;
    if SidOf(f[n]) == Some(sid) {
      AcceptsIff(f[n], sid);
    } else {
      HitIdHasNoBar(f[..n], sid);
    }
  }

  lemma OwnedHaveNoBar(r: Ranking, d: Dir)
    requires IsCounting(r.es, d)
    ensures forall e | e in Owned(r) :: '|' !in e.sid
  {
    forall e | e in Owned(r)
      ensures '|' !in e.sid
    {
      OwnedIff(NameLines(r.names), r.es, e);
      CountedIdHasNoBar(d, e.sid);
    }
  }

  /** An empty id gets into the filtered file if and only if a counted log line has one and an
      owned file has a name that begins with no number, or with 0. */
  lemma EmptyIdIsOwnedIff(ds: Dirs, cutoff: Time, r: Ranking, descending: bool)
    requires Configured(ds) && Ranks(r, ds, cutoff, descending)
    ensures (exists e | e in Owned(r) :: e.sid == "") <==>
            Volume(LogsAt(ds, cutoff), "") > 0 && exists n | n in ds[AFP] :: Atoi(n + "\n") == 0
  {
    var names := NameLines(r.names);
    EmptyIdHasKeyZero();
    if e :| e in Owned(r) && e.sid == "" {
      OwnedIff(names, r.es, e);
      var n := NameOfKey(r.names, Key(e));
      assert n in ds[AFP];
    }
    if Volume(LogsAt(ds, cutoff), "") > 0 && exists n | n in ds[AFP] :: Atoi(n + "\n") == 0 {
      var n :| n in ds[AFP] && Atoi(n + "\n") == 0;
      var i :| 0 <= i < |r.names| && r.names[i] == n;
      assert names[i] in names;
      var e := Entry("", Volume(LogsAt(ds, cutoff), ""));
      OwnedIff(names, r.es, e);
    }
  }

  /** Such a line: it is counted, for the empty id. */
  lemma EmptyIdIsAccepted()
    ensures SidOf("$$||\n") == Some("")
  {
    assert "$$||\n" == Framed("$$", "", "\n");
    CarriedIsAccepted("$$||\n", "");
  }

  lemma NameOfKey(names: seq<string>, k: int) returns (n: string)
    requires k in KeysOf(NameLines(names))
    ensures n in names && Atoi(n + "\n") == k
  {
    var l :| l in NameLines(names) && Atoi(l) == k;
    var i :| 0 <= i < |names| && l == NameLines(names)[i];
    n := names[i];
  }

  lemma EmptyIdHasKeyZero()
    ensures Atoi("") == 0
  {
  }

  method Rank(disk: Disk, cutoff: Time, flg: int) returns (r: Ranking)
    requires Configured(disk.dirs)
    modifies disk
    ensures Ranked(disk.dirs, old(disk.dirs), cutoff, r, flg == 0)
  {
    WorkFilesDiffer();
    var ret, names := disk.GetAfpName(AFP, WRK);
    var es := CountLogs(disk, cutoff, flg);
    ret := disk.FltLogFile(WRK, WRK);
    KeepRendered(KeysOf(NameLines(names)), es);
    r := Ranking(names, es);
    OwnedHaveNoBar(r, disk.dirs[LOG]);
  }

  method CountLogs(disk: Disk, cutoff: Time, flg: int) returns (es: seq<Entry>)
    requires Configured(disk.dirs)
    modifies disk
    ensures Configured(disk.dirs)
    ensures disk.dirs[AFP] == old(disk.dirs)[AFP] && disk.dirs[ORG] == old(disk.dirs)[ORG]
    ensures Collected(disk.dirs, old(disk.dirs), cutoff)
    ensures IsCounting(es, LogsAt(old(disk.dirs), cutoff)) && InOrder(es, flg == 0)
    ensures disk.dirs[WRK] == old(disk.dirs)[WRK][LOG_COUNTS := Rendered(es)]
  {
    var ret := disk.MovLogFile(DAT, LOG, StampName(cutoff));
    ret, es := disk.CntSrhNums(LOG, WRK, flg);
  }

  /** How Preconf ends: on a null pointer, with an error because nothing was selected, or with
      the number of selected fingerprints as its answer. */
  datatype Outcome = Crashed | Refused | Selected(count: nat)

  ghost predicate Selects(own: seq<Entry>, limit: nat, num: int, out: Outcome) {
    && (out == Crashed <==> HotEmptyId(own, limit, num))
    && (out == Refused ==> IsTop(own, limit, num, 0))
    && (out.Selected? ==> out.count > 0 && IsTop(own, limit, num, out.count))
  }

  /** The named files have left AFP and are what is in ORG. */
  ghost predicate Loaded(before: Dirs, after: Dirs, names: set<string>)
    requires Configured(before) && Configured(after)
  {
    after[AFP] == before[AFP] - names && after[ORG] == Only(before[AFP], names)
  }

  ghost predicate Unmoved(before: Dirs, after: Dirs)
    requires Configured(before) && Configured(after)
  {
    after[AFP] == before[AFP] && after[ORG] == before[ORG]
  }

  /** What one Preconf with a threshold does to the files and logs of a group. */
  ghost predicate Preconfed(before: Dirs, after: Dirs, limit: nat, num: int, cutoff: Time, r: Ranking, out: Outcome)
    requires Configured(before)
  {
    && Configured(after) && Collected(after, before, cutoff) && Ranks(r, before, cutoff, true)
    && Selects(Owned(r), limit, num, out)
    && if out.Selected? then Loaded(before, after, HotOf(r, out.count)) else Unmoved(before, after)
  }

  /** GCServer::Preconf on one group: the threshold comes in; the number of selected
      fingerprints goes back, and their files are moved to ORG. */
  method Preconf(disk: Disk, num: int, cutoff: Time) returns (out: Outcome, r: Ranking)
    requires Configured(disk.dirs)
    modifies disk
    ensures Preconfed(old(disk.dirs), disk.dirs, disk.groupLimit, num, cutoff, r, out)
  {
    r := Rank(disk, cutoff, 0);
    out := MoveHot(disk, num, r);
  }

  /** The second half of Preconf. */
  method MoveHot(disk: Disk, num: int, ghost r: Ranking) returns (out: Outcome)
    requires Configured(disk.dirs) && HasFile(disk.dirs, WRK, FILTERED)
    requires disk.dirs[WRK][FILTERED] == Rendered(Owned(r)) && forall e | e in Owned(r) :: '|' !in e.sid
    modifies disk
    ensures Configured(disk.dirs)
    ensures disk.dirs[LOG] == old(disk.dirs)[LOG] && disk.dirs[DAT] == old(disk.dirs)[DAT]
    ensures Selects(Owned(r), disk.groupLimit, num, out)
    ensures if out.Selected? then Loaded(old(disk.dirs), disk.dirs, HotOf(r, out.count))
            else Unmoved(old(disk.dirs), disk.dirs)
  {
    out := TopFiles(disk, num, Owned(r));
    if out.Selected? {
      var ret := disk.MovAfpFile(AFP, ORG, WRK);
    }
  }

  /** Selecting the hottest, without moving them. */
  method TopFiles(disk: Disk, num: int, ghost own: seq<Entry>) returns (out: Outcome)
    requires Configured(disk.dirs) && HasFile(disk.dirs, WRK, FILTERED)
    requires disk.dirs[WRK][FILTERED] == Rendered(own) && forall e | e in own :: '|' !in e.sid
    modifies disk
    ensures Selects(own, disk.groupLimit, num, out)
    ensures exists out :: disk.dirs == WithFile(old(disk.dirs), WRK, TOP_AFPS, out)
    ensures out.Selected? ==> disk.dirs[WRK][TOP_AFPS] == TopLines(own[..out.count])
  {
    ParsedRendered(own);
    var count, crashed, stop := disk.TopAfpFile(WRK, WRK, num);
    TopReadsBack(own, disk.groupLimit, num, stop);
    out := if crashed then Crashed else if count <= 0 then Refused else Selected(count);
  }

  /** The first half of the daily loop on the main cache: the cold list and its threshold, or a
      null pointer if and only if an empty id would get on the list. */
  method RankMain(disk: Disk, cutoff: Time) returns (crashed: bool, thr: int, r: Ranking)
    requires Configured(disk.dirs)
    modifies disk
    ensures Configured(disk.dirs)
    ensures Unmoved(old(disk.dirs), disk.dirs) && Collected(disk.dirs, old(disk.dirs), cutoff)
    ensures Ranks(r, old(disk.dirs), cutoff, false)
    ensures var cs := ColdOf(r, disk.cacheLimit);
            && crashed == ListsEmptyId(cs)
            && (!crashed ==> thr == Threshold(cs) >= 0
                             && HasFile(disk.dirs, WRK, BOTTOM_AFPS) && disk.dirs[WRK][BOTTOM_AFPS] == ColdLines(cs))
  {
    r := Rank(disk, cutoff, 1);
    WorkFilesDiffer();
    ParsedRendered(Owned(r));
    KeysOfRendered(Owned(r));
    ColdReadsBack(Unasked(NameLines(r.names), Owned(r)), Owned(r), disk.cacheLimit);
    thr, crashed := disk.BotAfpFile(WRK, WRK);
    ThresholdIsNoError(NameLines(r.names), r.es, disk.dirs[LOG], disk.cacheLimit);
  }

  /** The main cache ranks its files and asks one group with the threshold it found: whatever the
      logs of the two hosts, each fingerprint that the group selects is asked for there strictly
      more often than each of the main cache's cold ones is asked for at the main cache. */
  method RankAndAsk(main: Disk, group: Disk, mainCutoff: Time, groupCutoff: Time)
    returns (crashed: bool, cold: seq<Cold>, mainRank: Ranking, out: Outcome, groupRank: Ranking)
    requires main != group && Configured(main.dirs) && Configured(group.dirs)
    modifies main, group
    ensures Ranks(mainRank, old(main.dirs), mainCutoff, false) && cold == ColdOf(mainRank, main.cacheLimit)
    ensures crashed == ListsEmptyId(cold)
    ensures crashed ==> group.dirs == old(group.dirs)
    ensures !crashed ==>
              && HasFile(main.dirs, WRK, BOTTOM_AFPS) && main.dirs[WRK][BOTTOM_AFPS] == ColdLines(cold)
              && Preconfed(old(group.dirs), group.dirs, group.groupLimit, Threshold(cold), groupCutoff, groupRank, out)
              && (out.Selected? ==>
                    AllHotter(old(group.dirs), groupCutoff, groupRank, out.count, old(main.dirs), mainCutoff, cold))
  {
    var thr;
    crashed, thr, mainRank := RankMain(main, mainCutoff);
    cold := ColdOf(mainRank, main.cacheLimit);
    if crashed {
      return true, cold, mainRank, Refused, Ranking([], []);
    }
    out, groupRank := Preconf(group, thr, groupCutoff);
    if out.Selected? {
      SelectedAreHotter(old(group.dirs), group.groupLimit, groupCutoff, groupRank, out.count,
                        old(main.dirs), main.cacheLimit, mainCutoff, mainRank);
    }
  }

  /** The first k of the group are hotter, by its logs, than all of the cold list by main's. */
  ghost predicate AllHotter(group: Dirs, groupCutoff: Time, groupRank: Ranking, k: nat,
                            main: Dirs, mainCutoff: Time, cold: seq<Cold>)
    requires Configured(group) && Configured(main)
  {
    k <= |Owned(groupRank)| &&
    forall h, c | 0 <= h < k && 0 <= c < |cold| ::
      Hotter(LogsAt(group, groupCutoff), Owned(groupRank)[h], LogsAt(main, mainCutoff), cold[c])
  }

  lemma SelectedAreHotter(group: Dirs, groupLimit: nat, groupCutoff: Time, groupRank: Ranking, k: nat,
                          main: Dirs, cacheLimit: nat, mainCutoff: Time, mainRank: Ranking)
    requires Configured(group) && Ranks(groupRank, group, groupCutoff, true)
    requires Configured(main) && Ranks(mainRank, main, mainCutoff, false)
    requires IsTop(Owned(groupRank), groupLimit, Threshold(ColdOf(mainRank, cacheLimit)), k)
    ensures AllHotter(group, groupCutoff, groupRank, k, main, mainCutoff, ColdOf(mainRank, cacheLimit))
  {
    var cold := ColdOf(mainRank, cacheLimit);
    forall h, c | 0 <= h < k && 0 <= c < |cold|
      ensures Hotter(LogsAt(group, groupCutoff), Owned(groupRank)[h], LogsAt(main, mainCutoff), cold[c])
    {
      HotIsHotterThanCold(LogsAt(group, groupCutoff), groupRank.es, NameLines(groupRank.names), groupLimit, k,
                          LogsAt(main, mainCutoff), mainRank.es, NameLines(mainRank.names), cacheLimit, h, c);
    }
  }

  /** By the logs of each host. */
  ghost predicate Hotter(groupLogs: Dir, h: Entry, mainLogs: Dir, c: Cold) {
    match c
    case Unqueried(l) => forall sid | Atoi(sid) == Atoi(l) :: Volume(mainLogs, sid) < Volume(groupLogs, h.sid)
    case Queried(e) => Volume(mainLogs, e.sid) < Volume(groupLogs, h.sid)
  }

  // ---------------------------------------------------------------- windows of the cold list

  /** What Preconf answers on one line of the group list: an error, or how many fingerprints the
      group selected, which is how many lines of the cold list its window has. */
  datatype Reply = Failed | Answered(count: nat)

  function Answers(replies: seq<Reply>): seq<nat> {
    if replies == [] then []
    else
      var last := replies[|replies| - 1];
      Answers(replies[..|replies| - 1]) + if last.Answered? then [last.count] else []
  }

  function Total(counts: seq<nat>): nat {
    if counts == [] then 0 else Total(counts[..|counts| - 1]) + counts[|counts| - 1]
  }

  datatype Share = Share(pos: nat, cnt: nat, files: Dir)

  /** What main still has of its files after the first pos lines were handed out. */
  function Remaining(afp: Dir, lines: File, pos: nat): Dir {
    afp - NamesIn(Window(lines, 0, pos))
  }

  /** The shares are for the answering groups in order; each window begins where the last one
      ended, and its files are those it names that main still had. */
  ghost predicate Shared(shares: seq<Share>, counts: seq<nat>, lines: File, afp: Dir) {
    && |shares| == |counts|
    && forall i | 0 <= i < |shares| ::
         && shares[i].cnt == counts[i]
         && shares[i].pos == Total(counts[..i])
         && shares[i].files == Only(Remaining(afp, lines, shares[i].pos),
                                    NamesIn(Window(lines, shares[i].pos, shares[i].cnt)))
  }

  /** The allocation loop over the groups of the list: after each answer one window is moved to
      ORG, from which the files then go to the group. */
  method Allocate(disk: Disk, replies: seq<Reply>) returns (shares: seq<Share>)
    requires Configured(disk.dirs) && HasFile(disk.dirs, WRK, BOTTOM_AFPS)
    modifies disk
    ensures HandedOut(disk.dirs, old(disk.dirs)[WRK][BOTTOM_AFPS], old(disk.dirs)[AFP],
                      shares, Answers(replies), Total(Answers(replies)))
  {
    ghost var lines, afp := disk.dirs[WRK][BOTTOM_AFPS], disk.dirs[AFP];
    ghost var counts: seq<nat> := [];
    shares := [];
    var lineCount := 0;
    NothingHandedOut(disk.dirs, lines, afp);
    for i := 0 to |replies|
      invariant counts == Answers(replies[..i])
      invariant HandedOut(disk.dirs, lines, afp, shares, counts, lineCount)
    {
      AnswersStep(replies, i);
      if replies[i].Answered? {
        var result := replies[i].count;
        shares := HandOut(disk, lineCount, result, lines, afp, shares, counts);
        lineCount := lineCount + result;
        counts := counts + [result];
      }
    }
    AllAnswers(replies, counts, disk.dirs, lines, afp, shares, lineCount);
  }

  lemma AllAnswers(replies: seq<Reply>, counts: seq<nat>, ds: Dirs, lines: File, afp: Dir,
                   shares: seq<Share>, lineCount: nat)
    requires counts == Answers(replies[..|replies|]) && HandedOut(ds, lines, afp, shares, counts, lineCount)
    ensures HandedOut(ds, lines, afp, shares, Answers(replies), Total(Answers(replies)))
  {
    assert replies[..|replies|] == replies;
  }

  /** Where the loop stands: the answers so far are shared out and the next window begins here. */
  ghost predicate HandedOut(ds: Dirs, lines: File, afp: Dir, shares: seq<Share>, counts: seq<nat>, lineCount: nat) {
    && Configured(ds) && HasFile(ds, WRK, BOTTOM_AFPS) && ds[WRK][BOTTOM_AFPS] == lines
    && Shared(shares, counts, lines, afp)
    && lineCount == Total(counts) && ds[AFP] == Remaining(afp, lines, lineCount)
  }

  /** One round: the window's files leave AFP for ORG. */
  method HandOut(disk: Disk, pos: nat, cnt: nat, ghost lines: File, ghost afp: Dir,
                 shares: seq<Share>, ghost counts: seq<nat>)
    returns (shares': seq<Share>)
    requires HandedOut(disk.dirs, lines, afp, shares, counts, pos)
    modifies disk
    ensures HandedOut(disk.dirs, lines, afp, shares', counts + [cnt], pos + cnt)
    ensures shares' == shares + [Share(pos, cnt, disk.dirs[ORG])]
  {
    var ret := disk.MovCntFile(AFP, ORG, WRK, pos, cnt);
    RemainingStep(afp, lines, pos, cnt);
    ShareOne(shares, counts, lines, afp, cnt);
    shares' := shares + [Share(pos, cnt, disk.dirs[ORG])];
  }

  lemma AnswersStep(replies: seq<Reply>, i: nat)
    requires i < |replies|
    ensures Answers(replies[..i + 1]) ==
            if replies[i].Answered? then Answers(replies[..i]) + [replies[i].count] else Answers(replies[..i])
  {
    assert replies[..i + 1][..i] == replies[..i];
  }

  /** The counts are those of the groups that answered, in the order of the list. */
  lemma {:induction false} AnswersAre(replies: seq<Reply>)
    ensures var heard := Keep((r: Reply) => r.Answered?, replies);
            && |Answers(replies)| == |heard|
            && forall i | 0 <= i < |heard| :: heard[i] == Answered(Answers(replies)[i])
  {
    if replies != [] {
      AnswersAre(replies[..|replies| - 1]);
    }
  }

  lemma NothingHandedOut(ds: Dirs, lines: File, afp: Dir)
    requires Configured(ds) && HasFile(ds, WRK, BOTTOM_AFPS) && ds[WRK][BOTTOM_AFPS] == lines && ds[AFP] == afp
    ensures HandedOut(ds, lines, afp, [], [], 0)
  {
    assert Window(lines, 0, 0) == [];
  }

  lemma RemainingStep(afp: Dir, lines: File, pos: nat, cnt: nat)
    ensures Remaining(afp, lines, pos) - NamesIn(Window(lines, pos, cnt)) == Remaining(afp, lines, pos + cnt)
  {
    WindowsMeet(lines, pos, cnt);
  }

  lemma WindowsMeet(lines: File, pos: nat, cnt: nat)
    ensures Window(lines, 0, pos) + Window(lines, pos, cnt) == Window(lines, 0, pos + cnt)
    ensures NamesIn(Window(lines, 0, pos)) + NamesIn(Window(lines, pos, cnt)) == NamesIn(Window(lines, 0, pos + cnt))
  {
    assert Window(lines, 0, pos) + Window(lines, pos, cnt) == Window(lines, 0, pos + cnt);
    assert forall l :: l in Window(lines, 0, pos + cnt) <==> l in Window(lines, 0, pos) || l in Window(lines, pos, cnt);
  }

  lemma ShareOne(shares: seq<Share>, counts: seq<nat>, lines: File, afp: Dir, result: nat)
    requires Shared(shares, counts, lines, afp)
    ensures var pos := Total(counts);
            var files := Only(Remaining(afp, lines, pos), NamesIn(Window(lines, pos, result)));
            && Shared(shares + [Share(pos, result, files)], counts + [result], lines, afp)
            && Total(counts + [result]) == pos + result
  {
    assert (counts + [result])[..|counts|] == counts;
    forall i | 0 <= i < |counts|
      ensures (counts + [result])[..i] == counts[..i]
    {
    }
  }

  /** The windows one after the other. */
  function Handed(shares: seq<Share>, lines: File): File {
    if shares == [] then []
    else
      var last := shares[|shares| - 1];
      Handed(shares[..|shares| - 1], lines) + Window(lines, last.pos, last.cnt)
  }

  /** Window partition: for every group list and every mix of answers and failures the windows
      are contiguous from the first line, overlap nowhere, skip nothing, and together are the
      first lines of the cold list, as many as the answers add up to. */
  lemma {:induction false} WindowsPartition(shares: seq<Share>, counts: seq<nat>, lines: File, afp: Dir)
    requires Shared(shares, counts, lines, afp)
    ensures Handed(shares, lines) == Take(Total(counts), lines)
  {
    if shares != [] {
      var n := |shares| - 1;
      forall i | 0 <= i < n
        ensures counts[..n][..i] == counts[..i]
      {
      }
      WindowsPartition(shares[..n], counts[..n], lines, afp);
      WindowsMeet(lines, shares[n].pos, shares[n].cnt);
    }
  }

  lemma TotalGrows(counts: seq<nat>, i: nat, j: nat)
    requires i < j <= |counts|
    ensures Total(counts[..i]) + counts[i] <= Total(counts[..j])
    decreases j
  {
    assert counts[..j][..j - 1] == counts[..j - 1];
    if i < j - 1 {
      TotalGrows(counts, i, j - 1);
    }
  }

  /** No file goes to two groups. */
  lemma SharesAreDisjoint(shares: seq<Share>, counts: seq<nat>, lines: File, afp: Dir, i: nat, j: nat)
    requires Shared(shares, counts, lines, afp) && i < j < |shares|
    ensures shares[i].files.Keys !! shares[j].files.Keys
    ensures shares[i].pos + shares[i].cnt <= shares[j].pos
  {
    TotalGrows(counts, i, j);
    var end := shares[i].pos + shares[i].cnt;
    WindowsMeet(lines, shares[i].pos, shares[i].cnt);
    WindowsMeet(lines, end, shares[j].pos - end);
    forall n | n in shares[i].files
      ensures n !in shares[j].files
    {
      assert n in NamesIn(Window(lines, 0, end));
      assert n in NamesIn(Window(lines, 0, shares[j].pos));
    }
  }

  /** One day of the loop on the main cache: without a group list nothing happens; otherwise the
      answering groups get consecutive windows of this day's cold list. */
  method RunDay(disk: Disk, groupList: Option<seq<Reply>>, cutoff: Time)
    returns (crashed: bool, shares: seq<Share>, r: Ranking, cold: seq<Cold>)
    requires Configured(disk.dirs)
    modifies disk
    ensures groupList == None ==> !crashed && shares == [] && disk.dirs == old(disk.dirs)
    ensures groupList.Some? ==>
              && Ranks(r, old(disk.dirs), cutoff, false) && cold == ColdOf(r, disk.cacheLimit)
              && crashed == ListsEmptyId(cold) && AFP in disk.dirs
    ensures groupList.Some? && crashed ==> shares == [] && disk.dirs[AFP] == old(disk.dirs)[AFP]
    ensures groupList.Some? && !crashed ==>
              && Shared(shares, Answers(groupList.value), ColdLines(cold), old(disk.dirs)[AFP])
              && disk.dirs[AFP] ==
                 Remaining(old(disk.dirs)[AFP], ColdLines(cold), Total(Answers(groupList.value)))
  {
    shares, crashed, r, cold := [], false, Ranking([], []), [];
    match groupList {
      case None =>
      case Some(replies) =>
        var thr;
        crashed, thr, r := RankMain(disk, cutoff);
        cold := ColdOf(r, disk.cacheLimit);
        if !crashed {
          shares := Allocate(disk, replies);
        }
    }
  }

  // ---------------------------------------------------------------- what moves, and what does not

  predicate Distinct(names: seq<string>) {
    forall i, j | 0 <= i < j < |names| :: names[i] != names[j]
  }

  function Chopped(lines: File): (names: seq<string>)
    ensures |names| == |lines| && forall i | 0 <= i < |lines| :: names[i] == Chop(lines[i])
  {
    seq(|lines|, i requires 0 <= i < |lines| => Chop(lines[i]))
  }

  /** Lines move at most as many files as they are, and just as many if and only if they name
      different files and all of them are there. */
  lemma {:induction false} MovedCount(d: Dir, lines: File)
    ensures |Only(d, NamesIn(lines))| <= |lines|
    ensures |Only(d, NamesIn(lines))| == |lines| <==>
            Distinct(Chopped(lines)) && forall n | n in Chopped(lines) :: n in d
  {
    if lines != [] {
      var n := |lines| - 1;
      MovedCount(d, lines[..n]);
      assert Chopped(lines[..n]) == Chopped(lines)[..n];
      MovedMore(d, lines, n);
      AllThere(Chopped(lines), n, d);
    }
  }

  lemma MovedMore(d: Dir, lines: File, n: nat)
    requires |lines| == n + 1
    ensures var name := Chop(lines[n]);
            |Only(d, NamesIn(lines))| == |Only(d, NamesIn(lines[..n]))| +
                                         if name in d && name !in Chopped(lines)[..n] then 1 else 0
  {
    assert lines[..n + 1] == lines;
    NamesStep(lines, n);
    OnlyStep(d, NamesIn(lines[..n]), Chop(lines[n]));
    ChoppedNames(lines[..n]);
    assert Chopped(lines[..n]) == Chopped(lines)[..n];
  }

  lemma AllThere(names: seq<string>, n: nat, d: Dir)
    requires |names| == n + 1
    ensures (Distinct(names) && forall x | x in names :: x in d) <==>
            (Distinct(names[..n]) && (forall x | x in names[..n] :: x in d)) && names[n] in d && names[n] !in names[..n]
  {
    assert names == names[..n] + [names[n]];
    DistinctStep(names[..n], names[n]);
  }

  lemma ChoppedNames(lines: File)
    ensures forall n :: n in NamesIn(lines) <==> n in Chopped(lines)
  {
    forall n | n in NamesIn(lines)
      ensures n in Chopped(lines)
    {
      var l :| l in lines && Chop(l) == n;
      var i :| 0 <= i < |lines| && lines[i] == l;
      assert Chopped(lines)[i] == n;
    }
  }

  lemma DistinctStep(names: seq<string>, n: string)
    ensures Distinct(names + [n]) <==> Distinct(names) && n !in names
  {
    if Distinct(names + [n]) {
      assert forall i | 0 <= i < |names| :: names[i] == (names + [n])[i];
      assert (names + [n])[|names|] == n;
    }
  }

  lemma OnlyStep(d: Dir, names: set<string>, n: string)
    ensures |Only(d, names + {n})| == |Only(d, names)| + if n in d && n !in names then 1 else 0
  {
    var more := if n in d && n !in names then {n} else {};
    assert Only(d, names + {n}).Keys == Only(d, names).Keys + more;
    assert |Only(d, names + {n}).Keys| == |Only(d, names).Keys| + |more|;
  }

  /** A group's answer is an upper bound on the files it sends, and is their number if and only
      if it has a file named by just the id and ".afp" for each selected fingerprint. */
  lemma AnswerCountsFiles(before: Dirs, after: Dirs, limit: nat, num: int, cutoff: Time, r: Ranking, k: nat)
    requires Configured(before) && Preconfed(before, after, limit, num, cutoff, r, Selected(k))
    ensures |after[ORG]| <= k
    ensures |after[ORG]| == k <==> forall i | 0 <= i < k :: Owned(r)[i].sid + ".afp" in before[AFP]
  {
    TopMovedCount(before[AFP], r, k);
  }

  lemma TopMovedCount(d: Dir, r: Ranking, k: nat)
    requires DistinctSids(r.es) && k <= |Owned(r)|
    ensures var moved := Only(d, HotOf(r, k));
            |moved| <= k && (|moved| == k <==> forall i | 0 <= i < k :: Owned(r)[i].sid + ".afp" in d)
  {
    var es := Owned(r)[..k];
    OwnedSidsDiffer(r);
    MovedCount(d, TopLines(es));
    TopNames(es);
    assert forall i | 0 <= i < k :: Chopped(TopLines(es))[i] == Owned(r)[i].sid + ".afp";
  }

  lemma OwnedSidsDiffer(r: Ranking)
    requires DistinctSids(r.es)
    ensures DistinctSids(Owned(r))
  {
    forall i, j | 0 <= i < j < |Owned(r)|
      ensures Owned(r)[i].sid != Owned(r)[j].sid
    {
      var a, b := KeepPlaces(EntryKeyIn(KeysOf(NameLines(r.names))), r.es, i, j);
    }
  }

  lemma TopNames(es: seq<Entry>)
    ensures var names := Chopped(TopLines(es));
            && |names| == |es| && (forall i | 0 <= i < |es| :: names[i] == es[i].sid + ".afp")
            && (DistinctSids(es) ==> Distinct(names))
  {
    forall i | 0 <= i < |es|
      ensures Chopped(TopLines(es))[i] == es[i].sid + ".afp"
    {
      assert TopLines(es)[i] == es[i].sid + ".afp" + "\n";
    }
    forall i, j | 0 <= i < j < |es| && es[i].sid + ".afp" == es[j].sid + ".afp"
      ensures es[i].sid == es[j].sid
    {
      assert (es[i].sid + ".afp")[..|es[i].sid|] == es[i].sid;
      assert (es[j].sid + ".afp")[..|es[j].sid|] == es[j].sid;
    }
  }

  /** The same for main: a share has at most as many files as its group answered, and as many if
      and only if its window is full and names different files that main still has. */
  lemma ShareCountsFiles(shares: seq<Share>, counts: seq<nat>, lines: File, afp: Dir, i: nat)
    requires Shared(shares, counts, lines, afp) && i < |shares|
    ensures var s, w := shares[i], Window(lines, shares[i].pos, shares[i].cnt);
            && |s.files| <= counts[i]
            && (|s.files| == counts[i] <==>
                  && |w| == s.cnt
                  && Distinct(Chopped(w)) && (forall n | n in Chopped(w) :: n in Remaining(afp, lines, s.pos)))
  {
    MovedCount(Remaining(afp, lines, shares[i].pos), Window(lines, shares[i].pos, shares[i].cnt));
  }

  /** A group that has fingerprint 7 in 07.afp selects it, answers 1 and sends nothing. */
  lemma SelectedFileCanStay()
    ensures var r := Ranking(["07.afp"], [Entry("7", 5)]);
            && Owned(r) == [Entry("7", 5)] && IsTop(Owned(r), 1, 0, 1)
            && Only(map["07.afp" := []], HotOf(r, 1)) == map[]
  {
    SevenIsOwned();
    SevenIsHot([Entry("7", 5)]);
  }

  lemma SevenIsOwned()
    ensures Owned(Ranking(["07.afp"], [Entry("7", 5)])) == [Entry("7", 5)]
  {
    var names, es := NameLines(["07.afp"]), [Entry("7", 5)];
    KeyOfFile();
    assert "07.afp" + "\n" == "07.afp\n" && names[0] == "07.afp\n";
    assert Atoi(names[0]) in KeysOf(names);
    assert es[..0] == [];
  }

  lemma SevenIsHot(es: seq<Entry>)
    requires es == [Entry("7", 5)]
    ensures NamesIn(TopLines(Take(1, es))) == {"7.afp"}
  {
    assert Take(1, es) == es;
    assert "7" + ".afp\n" == "7.afp\n" && TopLines(es)[0] == "7.afp\n";
    assert Chop("7.afp\n") == "7.afp";
  }

  lemma KeyOfFile()
    ensures Atoi("07.afp\n") == Atoi("7") == 7
  {
    AtoiStops("07", ".afp\n");
    assert "07" + ".afp\n" == "07.afp\n";
    assert Digits("07") == "07" && "07"[..1] == "0" && Value("0") == 0;
  }

  /** A cold list names its queried fingerprints by id, without the ".afp" that files have. All
      that it lists can be moved if and only if the cache has files named by just those ids. */
  lemma AllColdMoveIff(afp: Dir, names: seq<string>, es: seq<Entry>, limit: nat)
    requires IsListing(names, afp)
    ensures var cs := Coldest(NameLines(names), es, limit);
            (forall i | 0 <= i < |cs| :: Chop(ColdLine(cs[i])) in Only(afp, NamesIn(ColdLines(cs)))) <==>
            (forall i | 0 <= i < |cs| && cs[i].Queried? :: cs[i].entry.sid in afp)
  {
    var cs := Coldest(NameLines(names), es, limit);
    var own := OwnedOnly(es, NameLines(names));
    forall i | 0 <= i < |cs|
      ensures Chop(ColdLine(cs[i])) in Only(afp, NamesIn(ColdLines(cs))) <==>
              (cs[i].Queried? ==> cs[i].entry.sid in afp)
    {
      assert ColdLines(cs)[i] in ColdLines(cs);
      if cs[i].Unqueried? {
        var l := cs[i].line;
        UnaskedIff(NameLines(names), es, l);
        var j :| 0 <= j < |names| && l == NameLines(names)[j];
        assert Chop(l) == names[j] && names[j] in names;
      } else {
        assert Chop(cs[i].entry.sid + "\n") == cs[i].entry.sid;
      }
    }
  }

  /** The fingerprint in 7.afp, queried once, is listed as 7 and stays where it is. */
  lemma QueriedColdFileStays()
    ensures var cs := Coldest(NameLines(["7.afp"]), [Entry("7", 1)], 1);
            cs == [Queried(Entry("7", 1))] && Only(map["7.afp" := []], NamesIn(ColdLines(cs))) == map[]
  {
  }
}
