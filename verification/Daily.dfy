/** One day of the main cache on the disks of all hosts: it ranks its files, asks the groups of its
    list one after the other, and hands out its cold list. What the hosts select on their disks
    is what the exchange protocol moves. */
module Daily {
  import opened Text
  import opened Files
  import opened Selection
  import opened ProDeal
  import opened Services
  import E = Exchange
  import H = Handlers

  /** One line of the group list: the group with its clock, whether the request gets there, whether
      the answer comes back, and what the groups push before the next line. */
  datatype Line = Line(group: nat, cutoff: Time, asked: bool, heard: bool, turns: seq<H.Turn>)

  function TurnsOf(list: seq<Line>): (turns: seq<seq<H.Turn>>)
    ensures |turns| == |list| && forall i | 0 <= i < |list| :: turns[i] == list[i].turns
  {
    seq(|list|, i requires 0 <= i < |list| => list[i].turns)
  }

  /** How a line went: the group's directories afterwards, its ranking and how Preconf ended. */
  datatype Visit = Visit(after: Dirs, rank: Ranking, out: Outcome)

  ghost function Hosts(groups: seq<Disk>): (hosts: seq<Dirs>)
    reads groups
    ensures |hosts| == |groups| && forall i | 0 <= i < |groups| :: hosts[i] == groups[i].dirs
  {
    seq(|groups|, i requires 0 <= i < |groups| reads groups => groups[i].dirs)
  }

  predicate InRange(list: seq<Line>, n: nat) {
    forall i | 0 <= i < |list| :: list[i].group < n
  }

  function HostsAfter(hosts: seq<Dirs>, list: seq<Line>, visits: seq<Visit>): (after: seq<Dirs>)
    requires |visits| == |list| && InRange(list, |hosts|)
    ensures |after| == |hosts|
  {
    if list == [] then hosts
    else
      var n := |list| - 1;
      HostsAfter(hosts, list[..n], visits[..n])[list[n].group := visits[n].after]
  }

  function ReplyOf(line: Line, v: Visit): Reply {
    if line.asked && line.heard && v.out.Selected? then Answered(v.out.count) else Failed
  }

  function Replies(list: seq<Line>, visits: seq<Visit>): (rs: seq<Reply>)
    requires |visits| == |list|
    ensures |rs| == |list| && forall i | 0 <= i < |list| :: rs[i] == ReplyOf(list[i], visits[i])
  {
    seq(|list|, i requires 0 <= i < |list| => ReplyOf(list[i], visits[i]))
  }

  /** The line of the cold list at which the next window begins. */
  function PosAfter(list: seq<Line>, visits: seq<Visit>): nat
    requires |visits| == |list|
  {
    Total(Answers(Replies(list, visits)))
  }

  /** The round of the exchange protocol that a line is: the hot files are those that the group
      selected, the window is the next one of the cold list, as long as the answer. */
  function RoundOf(line: Line, v: Visit, lines: File, pos: nat): H.Round {
    if !line.asked || !v.out.Selected? then H.Silent(line.group)
    else if !line.heard then H.Unheard(line.group, HotOf(v.rank, v.out.count))
    else H.Answered(line.group, HotOf(v.rank, v.out.count), NamesIn(Window(lines, pos, v.out.count)))
  }

  /** The group was asked with this threshold and did what Preconf does, or was not reached. */
  ghost predicate VisitOf(groups: seq<Disk>, hosts: seq<Dirs>, thr: int, line: Line, v: Visit)
    requires |hosts| == |groups| && line.group < |groups|
  {
    var before := hosts[line.group];
    && Configured(before)
    && if line.asked then Preconfed(before, v.after, groups[line.group].groupLimit, thr, line.cutoff, v.rank, v.out)
       else v.after == before
  }

  /** Visit i is to the directories that the visits before it have left. */
  ghost predicate VisitAt(groups: seq<Disk>, hosts: seq<Dirs>, thr: int, lines: File,
                          list: seq<Line>, visits: seq<Visit>, rounds: seq<H.Round>, i: nat)
    requires |hosts| == |groups| && InRange(list, |groups|) && |visits| == |list| && |rounds| == |list| && i < |list|
  {
    && VisitOf(groups, HostsAfter(hosts, list[..i], visits[..i]), thr, list[i], visits[i])
    && rounds[i] == RoundOf(list[i], visits[i], lines, PosAfter(list[..i], visits[..i]))
  }

  /** The visits of a day and the rounds that they are. */
  ghost predicate Visited(groups: seq<Disk>, hosts: seq<Dirs>, thr: int, lines: File,
                          list: seq<Line>, visits: seq<Visit>, rounds: seq<H.Round>)
  {
    && |hosts| == |groups| && InRange(list, |groups|) && |visits| == |list| && |rounds| == |list|
    && forall i | 0 <= i < |list| :: VisitAt(groups, hosts, thr, lines, list, visits, rounds, i)
  }

  predicate Mirrors(ds: Dirs, s: E.Server) {
    AFP in ds && ORG in ds && ds[AFP] == s.afp && ds[ORG] == s.org
  }

  /** The disks have what the exchange protocol says of AFP and ORG. */
  predicate AllMirror(hosts: seq<Dirs>, servers: seq<E.Server>) {
    |hosts| == |servers| && forall i | 0 <= i < |hosts| :: Configured(hosts[i]) && Mirrors(hosts[i], servers[i])
  }

  // ---------------------------------------------------------------- one line of the group list

  /** The request to one group. */
  method Ask(groups: seq<Disk>, thr: int, line: Line) returns (v: Visit)
    requires forall i, j | 0 <= i < j < |groups| :: groups[i] != groups[j]
    requires line.group < |groups| && Configured(groups[line.group].dirs)
    modifies groups
    ensures VisitOf(groups, old(Hosts(groups)), thr, line, v) && Configured(v.after)
    ensures Hosts(groups) == old(Hosts(groups))[line.group := v.after]
  {
    ghost var hosts := Hosts(groups);
    var group := groups[line.group];
    v := Visit(group.dirs, Ranking([], []), Refused);
    if line.asked {
      var out, rank := Preconf(group, thr, line.cutoff);
      v := Visit(group.dirs, rank, out);
    }
    assert Hosts(groups) == hosts[line.group := v.after];
  }

  function Counted(counts: seq<nat>, reply: Reply): seq<nat> {
    if reply.Answered? then counts + [reply.count] else counts
  }

  /** The window for one answer. */
  method Give(main: Disk, reply: Reply, pos: nat, ghost lines: File, ghost afp: Dir,
              shares: seq<Share>, ghost counts: seq<nat>)
    returns (pos': nat, shares': seq<Share>)
    requires HandedOut(main.dirs, lines, afp, shares, counts, pos)
    modifies main
    ensures HandedOut(main.dirs, lines, afp, shares', Counted(counts, reply), pos')
    ensures reply.Failed? ==> main.dirs == old(main.dirs)
    ensures reply.Answered? ==> Loaded(old(main.dirs), main.dirs, NamesIn(Window(lines, pos, reply.count)))
  {
    pos', shares' := pos, shares;
    if reply.Answered? {
      shares' := HandOut(main, pos, reply.count, lines, afp, shares, counts);
      pos' := pos + reply.count;
      assert Counted(counts, reply) == counts + [reply.count];
      GivenIsLoaded(old(main.dirs), main.dirs, lines, afp, shares, counts, pos, reply.count);
    } else {
      assert Counted(counts, reply) == counts;
    }
  }

  lemma GivenIsLoaded(before: Dirs, after: Dirs, lines: File, afp: Dir, shares: seq<Share>, counts: seq<nat>,
                      pos: nat, cnt: nat)
    requires HandedOut(before, lines, afp, shares, counts, pos) && Configured(after)
    requires HandedOut(after, lines, afp, shares + [Share(pos, cnt, after[ORG])], counts + [cnt], pos + cnt)
    ensures Loaded(before, after, NamesIn(Window(lines, pos, cnt)))
  {
    var names := NamesIn(Window(lines, pos, cnt));
    RemainingStep(afp, lines, pos, cnt);
    assert after[AFP] == before[AFP] - names;
    assert after[ORG] == Only(Remaining(afp, lines, pos), names) by {
      assert (counts + [cnt])[..|counts|] == counts;
      var shares' := shares + [Share(pos, cnt, after[ORG])];
      assert shares'[|counts|].files == after[ORG];
    }
  }

  lemma RepliesStep(list: seq<Line>, visits: seq<Visit>, line: Line, v: Visit)
    requires |visits| == |list|
    ensures Answers(Replies(list + [line], visits + [v])) == Counted(Answers(Replies(list, visits)), ReplyOf(line, v))
  {
    assert Replies(list + [line], visits + [v])[..|list|] == Replies(list, visits);
  }

  lemma VisitedStep(groups: seq<Disk>, hosts: seq<Dirs>, thr: int, lines: File,
                    list: seq<Line>, visits: seq<Visit>, rounds: seq<H.Round>, line: Line, v: Visit)
    requires Visited(groups, hosts, thr, lines, list, visits, rounds) && line.group < |groups|
    requires VisitOf(groups, HostsAfter(hosts, list, visits), thr, line, v)
    ensures var list', visits' := list + [line], visits + [v];
            && Visited(groups, hosts, thr, lines, list', visits',
                       rounds + [RoundOf(line, v, lines, PosAfter(list, visits))])
            && HostsAfter(hosts, list', visits') == HostsAfter(hosts, list, visits)[line.group := v.after]
  {
    var list', visits' := list + [line], visits + [v];
    var rounds' := rounds + [RoundOf(line, v, lines, PosAfter(list, visits))];
    assert list'[..|list|] == list && visits'[..|list|] == visits;
    assert VisitAt(groups, hosts, thr, lines, list', visits', rounds', |list|);
    forall i | 0 <= i < |list|
      ensures VisitAt(groups, hosts, thr, lines, list', visits', rounds', i)
    {
      VisitStays(groups, hosts, thr, lines, list, visits, rounds, line, v, rounds'[|list|], i);
    }
  }

  lemma VisitStays(groups: seq<Disk>, hosts: seq<Dirs>, thr: int, lines: File, list: seq<Line>, visits: seq<Visit>,
                   rounds: seq<H.Round>, line: Line, v: Visit, round: H.Round, i: nat)
    requires Visited(groups, hosts, thr, lines, list, visits, rounds) && line.group < |groups| && i < |list|
    ensures InRange(list + [line], |groups|)
    ensures VisitAt(groups, hosts, thr, lines, list + [line], visits + [v], rounds + [round], i)
  {
    assert VisitAt(groups, hosts, thr, lines, list, visits, rounds, i);
    assert (list + [line])[..i] == list[..i] && (visits + [v])[..i] == visits[..i];
  }

  /** The group's disk and its directories in the protocol stay the same, and so do the others. */
  lemma GroupsMirror(hosts: seq<Dirs>, w: E.World, w': E.World, line: Line, v: Visit, lines: File, pos: nat,
                     groups: seq<Disk>, thr: int)
    requires AllMirror(hosts, w.groups) && |hosts| == |groups| && line.group < |groups|
    requires VisitOf(groups, hosts, thr, line, v) && H.Played(w, w', RoundOf(line, v, lines, pos))
    ensures AllMirror(hosts[line.group := v.after], w'.groups)
  {
  }

  /** What main gave away is what its side of the round loads. */
  lemma MainMirrors(before: Dirs, after: Dirs, w: E.World, w': E.World, line: Line, v: Visit, lines: File, pos: nat)
    requires Configured(before) && Configured(after) && Mirrors(before, w.main)
    requires line.group < |w.groups| && H.Played(w, w', RoundOf(line, v, lines, pos))
    requires ReplyOf(line, v).Failed? ==> after == before
    requires ReplyOf(line, v).Answered? ==> Loaded(before, after, NamesIn(Window(lines, pos, v.out.count)))
    ensures Mirrors(after, w'.main)
  {
  }

  // ---------------------------------------------------------------- the whole day

  /** All directories: of the groups, of main, and in the exchange protocol. */
  datatype Snapshot = Snapshot(hosts: seq<Dirs>, main: Dirs, world: E.World)

  /** What happened line by line; orders are those in which the files of a round were sent. */
  datatype DayLog = DayLog(visits: seq<Visit>, rounds: seq<H.Round>, orders: seq<seq<string>>)

  ghost function Look(main: Disk, groups: seq<Disk>, net: H.Network): Snapshot
    reads main, groups, net
  {
    Snapshot(Hosts(groups), main.dirs, net.View())
  }

  /** The disks have what the exchange protocol says, and nothing is left to be sent by main. */
  ghost predicate InStep(s: Snapshot) {
    && Configured(s.main) && Mirrors(s.main, s.world.main) && s.world.main.left == {}
    && AllMirror(s.hosts, s.world.groups)
  }

  /** On the disks, every group line by line did what Preconf does, and the answering ones have
      their windows. */
  ghost predicate OnAllDisks(groups: seq<Disk>, was: Snapshot, now: Snapshot, thr: int, lines: File,
                             shares: seq<Share>, list: seq<Line>, log: DayLog)
    requires Configured(was.main)
  {
    && Visited(groups, was.hosts, thr, lines, list, log.visits, log.rounds)
    && now.hosts == HostsAfter(was.hosts, list, log.visits)
    && HandedOut(now.main, lines, was.main[AFP], shares, Answers(Replies(list, log.visits)), PosAfter(list, log.visits))
  }

  /** What holds after each line of the list: so far for the disks, and the network moved just that. */
  ghost predicate DayStands(groups: seq<Disk>, was: Snapshot, now: Snapshot, thr: int, lines: File, shares: seq<Share>,
                            list: seq<Line>, log: DayLog, o: H.Outcomes)
    requires Configured(was.main)
  {
    && OnAllDisks(groups, was, now, thr, lines, shares, list, log)
    && H.DayRun(was.world, now.world, log.rounds, log.orders, TurnsOf(list), o)
    && InStep(now)
  }

  lemma NothingStands(groups: seq<Disk>, was: Snapshot, now: Snapshot, thr: int, lines: File, o: H.Outcomes)
    requires |was.hosts| == |groups| && Configured(was.main) && InStep(now)
    requires now.hosts == was.hosts && now.world == was.world && now.main[AFP] == was.main[AFP]
    requires HasFile(now.main, WRK, BOTTOM_AFPS) && now.main[WRK][BOTTOM_AFPS] == lines
    ensures DayStands(groups, was, now, thr, lines, [], [], DayLog([], [], []), o)
  {
    NothingHandedOut(now.main, lines, was.main[AFP]);
    H.NothingPlayed(was.world, o);
  }

  /** One line of the list, on the disks and in the network. */
  ghost predicate LineRun(groups: seq<Disk>, now: Snapshot, next: Snapshot, thr: int, lines: File, pos: nat,
                          line: Line, v: Visit, order: seq<string>, o: H.Outcomes)
    requires |now.hosts| == |groups| && line.group < |groups| && Configured(now.main)
  {
    && DiskRun(groups, now.hosts, next.hosts, now.main, next.main, thr, lines, pos, line, v)
    && H.LineRun(now.world, next.world, RoundOf(line, v, lines, pos), order, line.turns, o)
    && H.GroupsGain(now.world, next.world, RoundOf(line, v, lines, pos), o)
    && next.world.main.left == {}
  }

  ghost predicate DiskRun(groups: seq<Disk>, hosts: seq<Dirs>, hosts': seq<Dirs>, main: Dirs, main': Dirs,
                          thr: int, lines: File, pos: nat, line: Line, v: Visit)
    requires |hosts| == |groups| && line.group < |groups| && Configured(main)
  {
    && VisitOf(groups, hosts, thr, line, v) && Configured(v.after)
    && hosts' == hosts[line.group := v.after] && Configured(main')
    && match ReplyOf(line, v)
       case Failed => main' == main
       case Answered(cnt) => Loaded(main, main', NamesIn(Window(lines, pos, cnt)))
  }

  /** Whatever the groups push meanwhile, a line keeps disks and protocol in step. */
  lemma LineKeepsStep(groups: seq<Disk>, now: Snapshot, next: Snapshot, thr: int, lines: File, pos: nat,
                      line: Line, v: Visit, order: seq<string>, o: H.Outcomes)
    requires |now.hosts| == |groups| && line.group < |groups| && InStep(now)
    requires LineRun(groups, now, next, thr, lines, pos, line, v, order, o)
    ensures InStep(next)
  {
    H.LineStock(now.world, next.world, RoundOf(line, v, lines, pos), order, line.turns, o);
    GroupsMirror(now.hosts, now.world, next.world, line, v, lines, pos, groups, thr);
    MainMirrors(now.main, next.main, now.world, next.world, line, v, lines, pos);
  }

  lemma DayStep(groups: seq<Disk>, was: Snapshot, now: Snapshot, next: Snapshot, thr: int, lines: File,
                shares: seq<Share>, shares': seq<Share>, list: seq<Line>, log: DayLog, line: Line, v: Visit,
                order: seq<string>, o: H.Outcomes)
    requires Configured(was.main) && line.group < |groups| == |was.hosts|
    requires DayStands(groups, was, now, thr, lines, shares, list, log, o)
    requires LineRun(groups, now, next, thr, lines, PosAfter(list, log.visits), line, v, order, o)
    requires HandedOut(next.main, lines, was.main[AFP], shares', Answers(Replies(list + [line], log.visits + [v])),
                       PosAfter(list + [line], log.visits + [v]))
    ensures var r := RoundOf(line, v, lines, PosAfter(list, log.visits));
            DayStands(groups, was, next, thr, lines, shares', list + [line],
                      DayLog(log.visits + [v], log.rounds + [r], log.orders + [order]), o)
  {
    LineKeepsStep(groups, now, next, thr, lines, PosAfter(list, log.visits), line, v, order, o);
    NetworkStep(was.world, now.world, next.world, list, log, line,
                RoundOf(line, v, lines, PosAfter(list, log.visits)), order, o);
    DisksStep(groups, was, now, next, thr, lines, shares, shares', list, log, line, v, order);
  }

  lemma NetworkStep(w: E.World, now: E.World, next: E.World, list: seq<Line>, log: DayLog, line: Line,
                    r: H.Round, order: seq<string>, o: H.Outcomes)
    requires H.DayRun(w, now, log.rounds, log.orders, TurnsOf(list), o) && r.group < |now.groups|
    requires H.LineRun(now, next, r, order, line.turns, o) && H.GroupsGain(now, next, r, o)
    ensures H.DayRun(w, next, log.rounds + [r], log.orders + [order], TurnsOf(list + [line]), o)
  {
    assert TurnsOf(list + [line]) == TurnsOf(list) + [line.turns];
    H.DayRunStep(w, now, next, log.rounds, log.orders, TurnsOf(list), r, order, line.turns, o);
  }

  lemma DisksStep(groups: seq<Disk>, was: Snapshot, now: Snapshot, next: Snapshot, thr: int, lines: File,
                  shares: seq<Share>, shares': seq<Share>, list: seq<Line>, log: DayLog, line: Line, v: Visit,
                  order: seq<string>)
    requires Configured(was.main) && Configured(now.main) && line.group < |groups| == |was.hosts|
    requires OnAllDisks(groups, was, now, thr, lines, shares, list, log)
    requires DiskRun(groups, now.hosts, next.hosts, now.main, next.main, thr, lines, PosAfter(list, log.visits),
                     line, v)
    requires HandedOut(next.main, lines, was.main[AFP], shares', Answers(Replies(list + [line], log.visits + [v])),
                       PosAfter(list + [line], log.visits + [v]))
    ensures var r := RoundOf(line, v, lines, PosAfter(list, log.visits));
            OnAllDisks(groups, was, next, thr, lines, shares', list + [line],
                       DayLog(log.visits + [v], log.rounds + [r], log.orders + [order]))
  {
    VisitedStep(groups, was.hosts, thr, lines, list, log.visits, log.rounds, line, v);
  }

  /** All that the network does on a day; nothing if main breaks before it asks anyone. */
  function EventsOf(w: E.World, list: seq<Line>, log: DayLog, o: H.Outcomes): seq<E.Event> {
    if |log.rounds| == |log.orders| == |list| then H.DayEvents(w, log.rounds, log.orders, TurnsOf(list), o) else []
  }

  /** The cold list is that of this day's logs and files. Main breaks on an empty id in it, and
      then nothing happens; otherwise the day goes through the whole list. */
  ghost predicate DayDone(groups: seq<Disk>, cacheLimit: nat, was: Snapshot, now: Snapshot, list: seq<Line>,
                          cutoff: Time, o: H.Outcomes, d: DayRecord)
    requires Configured(was.main)
  {
    && InStep(now) && Ranks(d.rank, was.main, cutoff, false) && d.cold == ColdOf(d.rank, cacheLimit)
    && if ListsEmptyId(d.cold) then now.world == was.world && now.hosts == was.hosts && d.log == DayLog([], [], [])
       else DayStands(groups, was, now, Threshold(d.cold), ColdLines(d.cold), d.shares, list, d.log, o)
  }

  datatype DayRecord = DayRecord(rank: Ranking, cold: seq<Cold>, shares: seq<Share>, log: DayLog)

  lemma DayIsRun(groups: seq<Disk>, cacheLimit: nat, was: Snapshot, now: Snapshot, list: seq<Line>,
                 cutoff: Time, o: H.Outcomes, d: DayRecord)
    requires Configured(was.main) && DayDone(groups, cacheLimit, was, now, list, cutoff, o, d)
    ensures E.IsRun(was.world, EventsOf(was.world, list, d.log, o))
    ensures now.world == E.Exec(was.world, EventsOf(was.world, list, d.log, o))
  {
  }

  /** One day. The groups are asked in the order of the list; what each selects, and how much of
      the cold list main then hands out, come from the disks; the network moves just that, and
      between the lines the groups push what they still have to. */
  method Day(main: Disk, groups: seq<Disk>, net: H.Network, list: seq<Line>, cutoff: Time, o: H.Outcomes)
    returns (crashed: bool, ghost d: DayRecord)
    requires main !in groups && forall i, j | 0 <= i < j < |groups| :: groups[i] != groups[j]
    requires InRange(list, |groups|) && InStep(Look(main, groups, net)) && H.Fits(o, |net.subs|)
    modifies main, groups, net
    ensures |net.subs| == |old(net.subs)| && crashed == ListsEmptyId(d.cold)
    ensures DayDone(groups, main.cacheLimit, old(Look(main, groups, net)), Look(main, groups, net), list, cutoff, o, d)
  {
    ghost var was := Look(main, groups, net);
    var thr, rank;
    crashed, thr, rank := RankMain(main, cutoff);
    var cold := ColdOf(rank, main.cacheLimit);
    assert Hosts(groups) == was.hosts;
    d := DayRecord(rank, cold, [], DayLog([], [], []));
    if crashed {
      return;
    }
    NothingStands(groups, was, Look(main, groups, net), thr, ColdLines(cold), o);
    assert list[..0] == [] && Replies([], []) == [];
    var shares;
    ghost var log;
    shares, log := Rounds(main, groups, net, list, ColdLines(cold), thr, was, o);
    assert list[..|list|] == list;
    d := DayRecord(rank, cold, shares, log);
  }

  /** Where the loop over the group list stands before line i. */
  ghost predicate LoopAt(main: Disk, groups: seq<Disk>, net: H.Network, was: Snapshot, thr: int, lines: File,
                         shares: seq<Share>, list: seq<Line>, i: nat, log: DayLog, o: H.Outcomes, pos: nat)
    requires Configured(was.main)
    reads main, groups, net
  {
    && i <= |list| && |log.visits| == i && pos == PosAfter(list[..i], log.visits)
    && DayStands(groups, was, Look(main, groups, net), thr, lines, shares, list[..i], log, o)
  }

  /** The loop over the group list. */
  method Rounds(main: Disk, groups: seq<Disk>, net: H.Network, list: seq<Line>, lines: File, thr: int,
                ghost was: Snapshot, o: H.Outcomes)
    returns (shares: seq<Share>, ghost log: DayLog)
    requires main !in groups && forall i, j | 0 <= i < j < |groups| :: groups[i] != groups[j]
    requires InRange(list, |groups|) && Configured(was.main) && |was.hosts| == |groups|
    requires H.Fits(o, |net.subs|)
    requires LoopAt(main, groups, net, was, thr, lines, [], list, 0, DayLog([], [], []), o, 0)
    modifies main, groups, net
    ensures |net.subs| == |old(net.subs)|
    ensures exists pos: nat :: LoopAt(main, groups, net, was, thr, lines, shares, list, |list|, log, o, pos)
  {
    log, shares := DayLog([], [], []), [];
    var pos := 0;
    for i := 0 to |list|
      invariant |net.subs| == |old(net.subs)|
      invariant LoopAt(main, groups, net, was, thr, lines, shares, list, i, log, o, pos)
    {
      pos, shares, log := NextLine(main, groups, net, list, i, lines, thr, was, o, pos, shares, log);
    }
  }

  /** The loop body: a line, and its place in the day. */
  method NextLine(main: Disk, groups: seq<Disk>, net: H.Network, list: seq<Line>, i: nat, lines: File, thr: int,
                  ghost was: Snapshot, o: H.Outcomes, pos: nat, shares: seq<Share>, ghost log: DayLog)
    returns (pos': nat, shares': seq<Share>, ghost log': DayLog)
    requires main !in groups && forall i, j | 0 <= i < j < |groups| :: groups[i] != groups[j]
    requires i < |list| && InRange(list, |groups|) && |groups| == |was.hosts|
    requires Configured(was.main) && H.Fits(o, |net.subs|)
    requires LoopAt(main, groups, net, was, thr, lines, shares, list, i, log, o, pos)
    modifies main, groups, net
    ensures |net.subs| == |old(net.subs)|
    ensures LoopAt(main, groups, net, was, thr, lines, shares', list, i + 1, log', o, pos')
  {
    ghost var now, past, line := Look(main, groups, net), list[..i], list[i];
    assert list[..i + 1] == past + [line];
    var v;
    ghost var order;
    v, pos', shares', order := OneLine(main, groups, net, list[i], lines, thr, o, pos, shares,
                                       was.main[AFP], Answers(Replies(past, log.visits)));
    RepliesStep(past, log.visits, line, v);
    DayStep(groups, was, now, Look(main, groups, net), thr, lines, shares, shares', past, log, line, v, order, o);
    log' := DayLog(log.visits + [v], log.rounds + [RoundOf(line, v, lines, pos)], log.orders + [order]);
  }

  method OneLine(main: Disk, groups: seq<Disk>, net: H.Network, line: Line, lines: File, thr: int, o: H.Outcomes,
                 pos: nat, shares: seq<Share>, ghost afp: Dir, ghost counts: seq<nat>)
    returns (v: Visit, pos': nat, shares': seq<Share>, ghost order: seq<string>)
    requires main !in groups && forall i, j | 0 <= i < j < |groups| :: groups[i] != groups[j]
    requires line.group < |groups| && InStep(Look(main, groups, net)) && H.Fits(o, |net.subs|)
    requires HandedOut(main.dirs, lines, afp, shares, counts, pos)
    modifies main, groups, net
    ensures |net.subs| == |old(net.subs)|
    ensures LineRun(groups, old(Look(main, groups, net)), Look(main, groups, net), thr, lines, pos, line, v, order, o)
    ensures HandedOut(main.dirs, lines, afp, shares', Counted(counts, ReplyOf(line, v)), pos')
  {
    v, pos', shares' := OnDisks(main, groups, line, lines, thr, pos, shares, afp, counts);
    order := net.PlayLine(RoundOf(line, v, lines, pos), line.turns, o);
  }

  method OnDisks(main: Disk, groups: seq<Disk>, line: Line, lines: File, thr: int,
                 pos: nat, shares: seq<Share>, ghost afp: Dir, ghost counts: seq<nat>)
    returns (v: Visit, pos': nat, shares': seq<Share>)
    requires main !in groups && forall i, j | 0 <= i < j < |groups| :: groups[i] != groups[j]
    requires line.group < |groups| && Configured(groups[line.group].dirs)
    requires HandedOut(main.dirs, lines, afp, shares, counts, pos)
    modifies main, groups
    ensures DiskRun(groups, old(Hosts(groups)), Hosts(groups), old(main.dirs), main.dirs, thr, lines, pos, line, v)
    ensures HandedOut(main.dirs, lines, afp, shares', Counted(counts, ReplyOf(line, v)), pos')
  {
    v := Ask(groups, thr, line);
    assert main.dirs == old(main.dirs);
    pos', shares' := Give(main, ReplyOf(line, v), pos, lines, afp, shares, counts);
  }

  // ---------------------------------------------------------------- what a line is, and what a day is

  /** Unless the request arrives, the group selects something and its answer comes back, a line
      leaves main and the DST of all groups as they are. Otherwise the next lines of the cold list,
      as many as the answer, are taken: the files with these names leave AFP for ORG, and the
      delivered ones are in DST of the group of the line. */
  lemma LineMeans(groups: seq<Disk>, now: Snapshot, next: Snapshot, thr: int, lines: File, pos: nat,
                  line: Line, v: Visit, order: seq<string>, o: H.Outcomes)
    requires |now.hosts| == |groups| == |now.world.groups| && line.group < |groups| && InStep(now)
    requires LineRun(groups, now, next, thr, lines, pos, line, v, order, o)
    ensures |next.hosts| == |now.hosts| && |next.world.groups| == |now.world.groups| && Configured(next.main)
    ensures forall j | 0 <= j < |groups| && j != line.group ::
              next.hosts[j] == now.hosts[j] && next.world.groups[j].dst == now.world.groups[j].dst
    ensures if line.asked
            then Preconfed(now.hosts[line.group], next.hosts[line.group], groups[line.group].groupLimit, thr,
                           line.cutoff, v.rank, v.out)
            else next.hosts == now.hosts
    ensures !(line.asked && line.heard && v.out.Selected?) ==>
              next.main == now.main && next.world.groups[line.group].dst == now.world.groups[line.group].dst
    ensures line.asked && line.heard && v.out.Selected? ==>
              var names, afp := NamesIn(Window(lines, pos, v.out.count)), now.main[AFP];
              && next.main[AFP] == afp - names && next.main[ORG] == Only(afp, names)
              && next.world.groups[line.group].dst ==
                 now.world.groups[line.group].dst
                 + Only(afp, set n | n in afp && n in names && o.delivered(line.group, n))
  {
    if line.asked && line.heard && v.out.Selected? {
      var names, afp := NamesIn(Window(lines, pos, v.out.count)), now.main[AFP];
      assert H.Arriving(afp.Keys * names, line.group, o) ==
             set n | n in afp && n in names && o.delivered(line.group, n);
    }
  }

  /** The windows: the first begins at line 0 of the cold list, and each line on which main gets
      an answer, and no other, moves the begin of the next one by it. */
  lemma PosMeans(list: seq<Line>, visits: seq<Visit>, i: nat)
    requires |visits| == |list| && i < |list|
    ensures PosAfter(list[..0], visits[..0]) == 0
    ensures PosAfter(list[..i + 1], visits[..i + 1]) ==
            PosAfter(list[..i], visits[..i])
            + if list[i].asked && list[i].heard && visits[i].out.Selected? then visits[i].out.count else 0
  {
    RepliesStep(list[..i], visits[..i], list[i], visits[i]);
    assert list[..i + 1] == list[..i] + [list[i]] && visits[..i + 1] == visits[..i] + [visits[i]];
    var counts := Answers(Replies(list[..i], visits[..i]));
    assert Replies(list[..0], visits[..0]) == [];
    if list[i].asked && list[i].heard && visits[i].out.Selected? {
      assert (counts + [visits[i].out.count])[..|counts|] == counts;
    }
  }

  /** The files for a group: named by a window that main hands it, not by an earlier line of the
      cold list, and delivered. */
  function SharesOf(afp: Dir, lines: File, list: seq<Line>, visits: seq<Visit>, g: nat, o: H.Outcomes): set<string>
    requires |visits| == |list|
  {
    set n | n in afp && exists i | 0 <= i < |list| ::
      && list[i].asked && list[i].heard && visits[i].out.Selected? && list[i].group == g && o.delivered(g, n)
      && n in NamesIn(Window(lines, PosAfter(list[..i], visits[..i]), visits[i].out.count))
      && n !in NamesIn(Window(lines, 0, PosAfter(list[..i], visits[..i])))
  }

  lemma RoundMeans(groups: seq<Disk>, hosts: seq<Dirs>, thr: int, lines: File, list: seq<Line>,
                   visits: seq<Visit>, rounds: seq<H.Round>, i: nat)
    requires Visited(groups, hosts, thr, lines, list, visits, rounds) && i < |list|
    ensures rounds[i].group == list[i].group
    ensures rounds[i].Answered? <==> list[i].asked && list[i].heard && visits[i].out.Selected?
    ensures rounds[i].Answered? ==>
              rounds[i].window == NamesIn(Window(lines, PosAfter(list[..i], visits[..i]), visits[i].out.count))
  {
    assert VisitAt(groups, hosts, thr, lines, list, visits, rounds, i);
  }

  lemma {:induction false} HandedMeans(groups: seq<Disk>, hosts: seq<Dirs>, thr: int, lines: File, list: seq<Line>,
                                       visits: seq<Visit>, rounds: seq<H.Round>, i: nat)
    requires Visited(groups, hosts, thr, lines, list, visits, rounds) && i <= |list|
    ensures H.HandedIn(rounds[..i]) == NamesIn(Window(lines, 0, PosAfter(list[..i], visits[..i])))
  {
    if i == 0 {
      assert Replies(list[..0], visits[..0]) == [];
      assert Window(lines, 0, 0) == [];
    } else {
      HandedMeans(groups, hosts, thr, lines, list, visits, rounds, i - 1);
      RoundMeans(groups, hosts, thr, lines, list, visits, rounds, i - 1);
      PosMeans(list, visits, i - 1);
      assert rounds[..i][..i - 1] == rounds[..i - 1];
      if list[i - 1].asked && list[i - 1].heard && visits[i - 1].out.Selected? {
        WindowsMeet(lines, PosAfter(list[..i - 1], visits[..i - 1]), visits[i - 1].out.count);
      }
    }
  }

  lemma SharesAreGiven(groups: seq<Disk>, hosts: seq<Dirs>, thr: int, lines: File, list: seq<Line>,
                       visits: seq<Visit>, rounds: seq<H.Round>, afp: Dir, g: nat, o: H.Outcomes)
    requires Visited(groups, hosts, thr, lines, list, visits, rounds)
    ensures H.GivenTo(afp, rounds, g, o) == SharesOf(afp, lines, list, visits, g, o)
  {
    forall n, i | n in afp && 0 <= i < |list|
      ensures rounds[i].Answered? && rounds[i].group == g && n in H.SentIn(afp, rounds, i) <==>
              && list[i].asked && list[i].heard && visits[i].out.Selected? && list[i].group == g
              && n in NamesIn(Window(lines, PosAfter(list[..i], visits[..i]), visits[i].out.count))
              && n !in NamesIn(Window(lines, 0, PosAfter(list[..i], visits[..i])))
    {
      RoundMeans(groups, hosts, thr, lines, list, visits, rounds, i);
      HandedMeans(groups, hosts, thr, lines, list, visits, rounds, i);
    }
  }

  /** A day on which main does not break: its own files are those that no line of the windows names,
      and each group's DST has gained exactly its delivered shares. */
  lemma DayMeans(groups: seq<Disk>, cacheLimit: nat, was: Snapshot, now: Snapshot, list: seq<Line>,
                 cutoff: Time, o: H.Outcomes, d: DayRecord, g: nat)
    requires Configured(was.main) && DayDone(groups, cacheLimit, was, now, list, cutoff, o, d)
    requires !ListsEmptyId(d.cold) && was.main[AFP] == was.world.main.afp && g < |was.world.groups|
    ensures |d.log.visits| == |list| && |now.world.groups| == |was.world.groups|
    ensures var lines := ColdLines(d.cold);
            && now.main[AFP] == was.main[AFP] - NamesIn(Window(lines, 0, PosAfter(list, d.log.visits)))
            && now.world.groups[g].dst ==
               was.world.groups[g].dst
               + Only(was.main[AFP], SharesOf(was.main[AFP], lines, list, d.log.visits, g, o))
  {
    SharesAreGiven(groups, was.hosts, Threshold(d.cold), ColdLines(d.cold), list, d.log.visits, d.log.rounds,
                   was.main[AFP], g, o);
  }

  // ---------------------------------------------------------------- what a day achieves

  /** Whatever the logs and files of all hosts: each fingerprint that any group selects on a day is
      asked for there strictly more often than each cold one at the main cache. */
  lemma EveryVisitIsHotter(groups: seq<Disk>, hosts: seq<Dirs>, list: seq<Line>, visits: seq<Visit>,
                           rounds: seq<H.Round>, main: Dirs, limit: nat, cutoff: Time, rank: Ranking, i: nat)
    requires Configured(main) && Ranks(rank, main, cutoff, false)
    requires var cold := ColdOf(rank, limit);
             Visited(groups, hosts, Threshold(cold), ColdLines(cold), list, visits, rounds)
    requires i < |list| && list[i].asked && visits[i].out.Selected?
    ensures var before := HostsAfter(hosts, list[..i], visits[..i])[list[i].group];
            && Configured(before)
            && AllHotter(before, list[i].cutoff, visits[i].rank, visits[i].out.count, main, cutoff, ColdOf(rank, limit))
  {
    var cold := ColdOf(rank, limit);
    assert VisitAt(groups, hosts, Threshold(cold), ColdLines(cold), list, visits, rounds, i);
    SelectedAreHotter(HostsAfter(hosts, list[..i], visits[..i])[list[i].group], groups[list[i].group].groupLimit,
                      list[i].cutoff, visits[i].rank, visits[i].out.count, main, limit, cutoff, rank);
  }

  /** One owner for each file that had one, and sub caches that agree with main. */
  ghost predicate Conserved(w: E.World, w': E.World) {
    && (forall n | E.Copies(w, n) == 1 :: E.OneOwner(w', n))
    && (E.Agree(w) ==> forall i | 0 <= i < |w'.subs| ::
                         w'.subs[i].afp == w'.main.afp && w'.subs[i].dst == w'.main.dst)
  }

  /** These events lead to a state in which nothing is under way; every fingerprint that had one
      owner has one if and only if no step lost it; and if no RPC for a file fails and every asked
      group has pushed everything, then none is lost and the sub caches are replicas again. */
  ghost predicate Settled(w: E.World, w': E.World, es: seq<E.Event>) {
    && E.IsRun(w, es) && w' == E.Exec(w, es) && E.Idle(w')
    && (forall n | E.Copies(w, n) == 1 :: E.OneOwner(w', n) <==> E.LostIn(w, es, n) == 0)
    && (w.subs != [] && (forall e | e in es :: E.Succeeds(e, |w.subs|)) && E.CleanAsks(w, es) ==> Conserved(w, w'))
  }

  lemma RunsSettle(w: E.World, es: seq<E.Event>)
    requires E.IsRun(w, es) && E.Idle(E.Exec(w, es))
    ensures Settled(w, E.Exec(w, es), es)
  {
    forall n | E.Copies(w, n) == 1
      ensures E.OneOwner(E.Exec(w, es), n) <==> E.LostIn(w, es, n) == 0
    {
      E.OwnedOnceIffNeverLost(w, es, n);
    }
    if w.subs != [] && (forall e | e in es :: E.Succeeds(e, |w.subs|)) && E.CleanAsks(w, es) {
      E.AllOkIff(w, es);
      AllOkConserves(w, es);
    }
  }

  lemma AllOkConserves(w: E.World, es: seq<E.Event>)
    requires w.subs != [] && E.IsRun(w, es) && E.AllOkRun(w, es) && E.Idle(E.Exec(w, es))
    ensures Conserved(w, E.Exec(w, es))
  {
    forall n | E.Copies(w, n) == 1
      ensures E.OneOwner(E.Exec(w, es), n)
    {
      E.FingerprintsAreConserved(w, es, n);
    }
    if E.Agree(w) {
      E.ReplicasAgree(w, es);
    }
  }

  /** What the groups still have to push goes to main, after a run that began with nothing under way. */
  method PushAll(main: Disk, groups: seq<Disk>, net: H.Network, o: H.Outcomes, ghost w: E.World, ghost es: seq<E.Event>)
    returns (ghost pushes: seq<seq<string>>)
    requires InStep(Look(main, groups, net)) && H.Fits(o, |net.subs|)
    requires E.Idle(w) && E.IsRun(w, es) && net.View() == E.Exec(w, es)
    modifies net
    ensures InStep(Look(main, groups, net)) && Hosts(groups) == old(Hosts(groups))
    ensures Settled(w, net.View(), es + H.AllPushes(pushes, o))
  {
    ghost var evening, hosts := net.View(), Hosts(groups);
    E.RunKeepsStocked(w, es);
    pushes := net.PushEverything(o);
    H.AllArePushes(pushes, o);
    H.MovesKeepStock(evening, H.AllPushes(pushes, o));
    assert Hosts(groups) == hosts;
    E.ExecAppend(w, es, H.AllPushes(pushes, o));
    RunsSettle(w, es + H.AllPushes(pushes, o));
  }

  function DayAndPushEvents(w: E.World, list: seq<Line>, log: DayLog, pushes: seq<seq<string>>,
                            o: H.Outcomes): seq<E.Event>
  {
    EventsOf(w, list, log, o) + H.AllPushes(pushes, o)
  }

  /** A day on the disks with all its pushes. It ends as it began, ready for the next one. */
  method DayAndPushes(main: Disk, groups: seq<Disk>, net: H.Network, list: seq<Line>, cutoff: Time, o: H.Outcomes)
    returns (crashed: bool, ghost d: DayRecord, ghost evening: Snapshot, ghost pushes: seq<seq<string>>)
    requires main !in groups && forall i, j | 0 <= i < j < |groups| :: groups[i] != groups[j]
    requires InRange(list, |groups|) && InStep(Look(main, groups, net)) && H.Fits(o, |net.subs|)
    requires E.Idle(net.View())
    modifies main, groups, net
    ensures crashed == ListsEmptyId(d.cold)
    ensures DayDone(groups, main.cacheLimit, old(Look(main, groups, net)), evening, list, cutoff, o, d)
    ensures main.dirs == evening.main && Hosts(groups) == evening.hosts && InStep(Look(main, groups, net))
    ensures Settled(old(net.View()), net.View(), DayAndPushEvents(old(net.View()), list, d.log, pushes, o))
  {
    ghost var was := Look(main, groups, net);
    crashed, d := Day(main, groups, net, list, cutoff, o);
    evening := Look(main, groups, net);
    DayIsRun(groups, main.cacheLimit, was, evening, list, cutoff, o, d);
    pushes := PushAll(main, groups, net, o, was.world, EventsOf(was.world, list, d.log, o));
  }

  predicate AskedOnce(list: seq<Line>) {
    forall i, j | 0 <= i < j < |list| && list[i].asked && list[j].asked :: list[i].group != list[j].group
  }

  /** If no RPC for a file fails and no group is listed twice, such a day loses nothing. */
  lemma DayConserves(groups: seq<Disk>, cacheLimit: nat, was: Snapshot, evening: Snapshot, w': E.World,
                     list: seq<Line>, cutoff: Time, o: H.Outcomes, d: DayRecord, pushes: seq<seq<string>>)
    requires InStep(was) && E.Idle(was.world) && was.world.subs != [] && |was.hosts| == |groups|
    requires DayDone(groups, cacheLimit, was, evening, list, cutoff, o, d)
    requires Settled(was.world, w', DayAndPushEvents(was.world, list, d.log, pushes, o))
    requires AskedOnce(list)
    requires forall e | e in DayAndPushEvents(was.world, list, d.log, pushes, o) :: E.Succeeds(e, |was.world.subs|)
    ensures Conserved(was.world, w')
  {
    var w := was.world;
    var day := EventsOf(w, list, d.log, o);
    var es := DayAndPushEvents(w, list, d.log, pushes, o);
    forall g | 0 <= g < |w.groups| && E.Asks(es, g) > 0
      ensures E.Asks(es, g) == 1 && w.groups[g].left == {}
    {
      H.AllArePushes(pushes, o);
      E.NobodyAsked(H.AllPushes(pushes, o), g);
      E.AsksAppend(day, H.AllPushes(pushes, o), g);
      DayAsksOnce(groups, cacheLimit, was, evening, list, cutoff, o, d, g);
    }
    E.AskedOnceIsClean(w, es);
  }

  /** With outcomes that are all good, all of a day's events succeed. */
  lemma GoodDaySucceeds(w: E.World, list: seq<Line>, log: DayLog, pushes: seq<seq<string>>, o: H.Outcomes)
    requires H.AllGood(o) && H.Fits(o, |w.subs|)
    ensures forall e | e in DayAndPushEvents(w, list, log, pushes, o) :: E.Succeeds(e, |w.subs|)
  {
    H.GoodPushesSucceed(pushes, o, |w.subs|);
    if |log.rounds| == |log.orders| == |list| {
      H.GoodDaySucceeds(w, log.rounds, log.orders, TurnsOf(list), o, |w.subs|);
    }
  }

  lemma DayAsksOnce(groups: seq<Disk>, cacheLimit: nat, was: Snapshot, evening: Snapshot, list: seq<Line>,
                    cutoff: Time, o: H.Outcomes, d: DayRecord, g: nat)
    requires Configured(was.main) && |was.hosts| == |groups| && AskedOnce(list)
    requires DayDone(groups, cacheLimit, was, evening, list, cutoff, o, d)
    ensures E.Asks(EventsOf(was.world, list, d.log, o), g) <= 1
  {
    if !ListsEmptyId(d.cold) {
      H.DayAsks(was.world, d.log.rounds, d.log.orders, TurnsOf(list), o, g);
      forall i | 0 <= i < |list|
        ensures d.log.rounds[i].group == list[i].group && (!d.log.rounds[i].Silent? ==> list[i].asked)
      {
        assert VisitAt(groups, was.hosts, Threshold(d.cold), ColdLines(d.cold), list, d.log.visits, d.log.rounds, i);
      }
      RoundsAskOnce(list, d.log.rounds, g);
    }
  }

  lemma {:induction false} RoundsAskOnce(list: seq<Line>, rounds: seq<H.Round>, g: nat)
    requires |rounds| == |list| && AskedOnce(list)
    requires forall i | 0 <= i < |list| ::
               rounds[i].group == list[i].group && (!rounds[i].Silent? ==> list[i].asked)
    ensures H.AsksIn(rounds, g) <= 1
    ensures (forall i | 0 <= i < |list| && list[i].asked :: list[i].group != g) ==> H.AsksIn(rounds, g) == 0
  {
    if list != [] {
      RoundsAskOnce(list[..|list| - 1], rounds[..|list| - 1], g);
    }
  }
}
