/** Many days in a row. Each morning the hosts find new run logs, and files that the groups still
    have to push may be pushed before main starts, between its lines, or not before the end. */
module Days {
  import opened Text
  import opened Files
  import opened Selection
  import opened ProDeal
  import opened Services
  import opened Daily
  import E = Exchange
  import H = Handlers

  /** What a day brings: the run directories of main and of the groups, early pushes, the group
      list as it goes, main's clock, and how the RPCs end. */
  datatype Plan = Plan(mainLogs: Dir, groupLogs: seq<Dir>, early: seq<H.Turn>, list: seq<Line>, cutoff: Time,
                       o: H.Outcomes)

  function WithLogs(hosts: seq<Dirs>, logs: seq<Dir>): (hosts': seq<Dirs>)
    requires |logs| == |hosts|
    ensures |hosts'| == |hosts| && forall i | 0 <= i < |hosts| :: hosts'[i] == hosts[i][DAT := logs[i]]
  {
    seq(|hosts|, i requires 0 <= i < |hosts| => hosts[i][DAT := logs[i]])
  }

  function Morning(s: Snapshot, p: Plan): Snapshot
    requires |p.groupLogs| == |s.hosts|
  {
    Snapshot(WithLogs(s.hosts, p.groupLogs), s.main[DAT := p.mainLogs],
             E.After(s.world, H.TurnEvents(s.world, p.early, p.o)))
  }

  function PlanEvents(w: E.World, p: Plan, d: DayRecord): seq<E.Event> {
    var early := H.TurnEvents(w, p.early, p.o);
    early + EventsOf(E.After(w, early), p.list, d.log, p.o)
  }

  /** A day from one evening to the next, its plan and what came of it. */
  datatype Day = Day(was: Snapshot, now: Snapshot, plan: Plan, did: DayRecord)

  ghost predicate DayAt(groups: seq<Disk>, cacheLimit: nat, d: Day) {
    && |d.plan.groupLogs| == |d.was.hosts| && Configured(d.was.main)
    && DayDone(groups, cacheLimit, Morning(d.was, d.plan), d.now, d.plan.list, d.plan.cutoff, d.plan.o, d.did)
    && E.IsRun(d.was.world, PlanEvents(d.was.world, d.plan, d.did))
    && d.now.world == E.Exec(d.was.world, PlanEvents(d.was.world, d.plan, d.did))
  }

  function Evening(first: Snapshot, days: seq<Day>): Snapshot {
    if days == [] then first else days[|days| - 1].now
  }

  /** Days in a row: each one begins where the one before it ended. */
  ghost predicate InRow(groups: seq<Disk>, cacheLimit: nat, first: Snapshot, days: seq<Day>) {
    && (forall d | d in days :: DayAt(groups, cacheLimit, d))
    && forall i | 0 <= i < |days| :: days[i].was == Evening(first, days[..i])
  }

  function DaysEvents(w: E.World, days: seq<Day>): seq<E.Event> {
    if days == [] then []
    else
      var n := |days| - 1;
      var es := DaysEvents(w, days[..n]);
      es + PlanEvents(E.After(w, es), days[n].plan, days[n].did)
  }

  lemma OneMoreDay(groups: seq<Disk>, cacheLimit: nat, first: Snapshot, days: seq<Day>, d: Day)
    requires InRow(groups, cacheLimit, first, days)
    requires DayAt(groups, cacheLimit, d) && d.was == Evening(first, days)
    ensures InRow(groups, cacheLimit, first, days + [d])
  {
    assert (days + [d])[..|days|] == days;
    assert forall i | 0 <= i < |days| :: (days + [d])[..i] == days[..i];
  }

  lemma OneDayLess(groups: seq<Disk>, cacheLimit: nat, first: Snapshot, days: seq<Day>)
    requires InRow(groups, cacheLimit, first, days) && days != []
    ensures InRow(groups, cacheLimit, first, days[..|days| - 1])
  {
    var n := |days| - 1;
    assert forall i | 0 <= i < n :: days[..n][..i] == days[..i];
  }

  /** Days in a row are one run of the exchange protocol. */
  lemma {:induction false} DaysAreRun(groups: seq<Disk>, cacheLimit: nat, first: Snapshot, days: seq<Day>)
    requires InRow(groups, cacheLimit, first, days)
    ensures E.IsRun(first.world, DaysEvents(first.world, days))
    ensures Evening(first, days).world == E.Exec(first.world, DaysEvents(first.world, days))
  {
    if days != [] {
      var n := |days| - 1;
      OneDayLess(groups, cacheLimit, first, days);
      DaysAreRun(groups, cacheLimit, first, days[..n]);
      var d := days[n];
      assert d in days && d.was == Evening(first, days[..n]);
      DayIsPart(groups, cacheLimit, d);
      E.ExecAppend(first.world, DaysEvents(first.world, days[..n]), PlanEvents(d.was.world, d.plan, d.did));
    }
  }

  lemma DayIsPart(groups: seq<Disk>, cacheLimit: nat, d: Day)
    requires DayAt(groups, cacheLimit, d)
    ensures E.IsRun(d.was.world, PlanEvents(d.was.world, d.plan, d.did))
    ensures d.now.world == E.Exec(d.was.world, PlanEvents(d.was.world, d.plan, d.did))
  {
  }

  // ---------------------------------------------------------------- the loop over the days

  /** The searchers have written, and the groups' threads have been at work. */
  method Wake(main: Disk, groups: seq<Disk>, net: H.Network, p: Plan)
    requires main !in groups && forall i, j | 0 <= i < j < |groups| :: groups[i] != groups[j]
    requires |p.groupLogs| == |groups| && InStep(Look(main, groups, net)) && H.Fits(p.o, |net.subs|)
    modifies main, groups, net
    ensures Look(main, groups, net) == Morning(old(Look(main, groups, net)), p)
    ensures InStep(Look(main, groups, net)) && |net.subs| == |old(net.subs)|
    ensures E.IsRun(old(net.View()), H.TurnEvents(old(net.View()), p.early, p.o))
  {
    NewLogs(main, groups, p);
    ghost var w := net.View();
    net.PushSome(p.early, p.o);
    H.TurnsArePushes(w, p.early, p.o);
    H.MovesKeepStock(w, H.TurnEvents(w, p.early, p.o));
    assert Hosts(groups) == WithLogs(old(Hosts(groups)), p.groupLogs);
  }

  method NewLogs(main: Disk, groups: seq<Disk>, p: Plan)
    requires main !in groups && forall i, j | 0 <= i < j < |groups| :: groups[i] != groups[j]
    requires |p.groupLogs| == |groups|
    modifies main, groups
    ensures main.dirs == old(main.dirs)[DAT := p.mainLogs]
    ensures Hosts(groups) == WithLogs(old(Hosts(groups)), p.groupLogs)
  {
    main.dirs := main.dirs[DAT := p.mainLogs];
    for i := 0 to |groups|
      invariant main.dirs == old(main.dirs)[DAT := p.mainLogs]
      invariant forall j | 0 <= j < i :: groups[j].dirs == old(groups[j].dirs)[DAT := p.groupLogs[j]]
      invariant forall j | i <= j < |groups| :: groups[j].dirs == old(groups[j].dirs)
    {
      groups[i].dirs := groups[i].dirs[DAT := p.groupLogs[i]];
    }
  }

  method NextDay(main: Disk, groups: seq<Disk>, net: H.Network, p: Plan) returns (crashed: bool, ghost d: Day)
    requires main !in groups && forall i, j | 0 <= i < j < |groups| :: groups[i] != groups[j]
    requires |p.groupLogs| == |groups| && InRange(p.list, |groups|)
    requires InStep(Look(main, groups, net)) && H.Fits(p.o, |net.subs|)
    modifies main, groups, net
    ensures |net.subs| == |old(net.subs)| && InStep(Look(main, groups, net))
    ensures d.was == old(Look(main, groups, net)) && d.now == Look(main, groups, net) && d.plan == p
    ensures DayAt(groups, main.cacheLimit, d) && crashed == ListsEmptyId(d.did.cold)
  {
    ghost var was := Look(main, groups, net);
    Wake(main, groups, net, p);
    ghost var did;
    crashed, did := Daily.Day(main, groups, net, p.list, p.cutoff, p.o);
    ghost var morning := Morning(was, p);
    d := Day(was, Look(main, groups, net), p, did);
    DayIsRun(groups, main.cacheLimit, morning, d.now, p.list, p.cutoff, p.o, did);
    E.ExecAppend(was.world, H.TurnEvents(was.world, p.early, p.o), EventsOf(morning.world, p.list, did.log, p.o));
  }

  /** McService::runLoop over any number of days, with a restart after a day on which it breaks.
      What is left at the end is pushed then. */
  method RunLoop(main: Disk, groups: seq<Disk>, net: H.Network, plans: seq<Plan>, o: H.Outcomes)
    returns (ghost days: seq<Day>, ghost pushes: seq<seq<string>>)
    requires main !in groups && forall i, j | 0 <= i < j < |groups| :: groups[i] != groups[j]
    requires PlansFit(plans, |groups|) && OutcomesFit(plans, |net.subs|)
    requires InStep(Look(main, groups, net)) && E.Idle(net.View()) && H.Fits(o, |net.subs|)
    modifies main, groups, net
    ensures |days| == |plans| && forall i | 0 <= i < |days| :: days[i].plan == plans[i]
    ensures InRow(groups, main.cacheLimit, old(Look(main, groups, net)), days)
    ensures var evening := Evening(old(Look(main, groups, net)), days);
            main.dirs == evening.main && Hosts(groups) == evening.hosts && InStep(Look(main, groups, net))
    ensures Settled(old(net.View()), net.View(), DaysEvents(old(net.View()), days) + H.AllPushes(pushes, o))
  {
    ghost var first := Look(main, groups, net);
    days := AllDays(main, groups, net, plans);
    DaysAreRun(groups, main.cacheLimit, first, days);
    pushes := PushAll(main, groups, net, o, first.world, DaysEvents(first.world, days));
  }

  predicate PlansFit(plans: seq<Plan>, n: nat) {
    forall i | 0 <= i < |plans| :: |plans[i].groupLogs| == n && InRange(plans[i].list, n)
  }

  ghost predicate OutcomesFit(plans: seq<Plan>, subs: nat) {
    forall i | 0 <= i < |plans| :: H.Fits(plans[i].o, subs)
  }

  /** Where the loop stands: these days are over, and they went by their plans. */
  ghost predicate LoopAt(main: Disk, groups: seq<Disk>, net: H.Network, first: Snapshot, plans: seq<Plan>,
                         days: seq<Day>, i: nat)
    reads main, groups, net
  {
    && InStep(Look(main, groups, net)) && Look(main, groups, net) == Evening(first, days)
    && InRow(groups, main.cacheLimit, first, days)
    && |days| == i <= |plans| && forall j | 0 <= j < i :: days[j].plan == plans[j]
  }

  /** The loop itself. */
  method AllDays(main: Disk, groups: seq<Disk>, net: H.Network, plans: seq<Plan>) returns (ghost days: seq<Day>)
    requires main !in groups && forall i, j | 0 <= i < j < |groups| :: groups[i] != groups[j]
    requires PlansFit(plans, |groups|) && OutcomesFit(plans, |net.subs|)
    requires InStep(Look(main, groups, net))
    modifies main, groups, net
    ensures |net.subs| == |old(net.subs)|
    ensures LoopAt(main, groups, net, old(Look(main, groups, net)), plans, days, |plans|)
  {
    ghost var first := Look(main, groups, net);
    days := [];
    for i := 0 to |plans|
      invariant |net.subs| == |old(net.subs)| && LoopAt(main, groups, net, first, plans, days, i)
    {
      days := AddDay(main, groups, net, plans, i, first, days);
    }
  }

  method AddDay(main: Disk, groups: seq<Disk>, net: H.Network, plans: seq<Plan>, i: nat,
                ghost first: Snapshot, ghost days: seq<Day>)
    returns (ghost days': seq<Day>)
    requires main !in groups && forall i, j | 0 <= i < j < |groups| :: groups[i] != groups[j]
    requires PlansFit(plans, |groups|) && OutcomesFit(plans, |net.subs|)
    requires i < |plans| && LoopAt(main, groups, net, first, plans, days, i)
    modifies main, groups, net
    ensures |net.subs| == |old(net.subs)| && LoopAt(main, groups, net, first, plans, days', i + 1)
  {
    var crashed;
    ghost var d;
    crashed, d := NextDay(main, groups, net, plans[i]);
    OneMoreDay(groups, main.cacheLimit, first, days, d);
    days' := days + [d];
  }

  // ---------------------------------------------------------------- every day

  /** On each of any days in a row on which main does not break, all that an asked group selects is
      hotter than all of that day's cold list. */
  lemma EveryDayIsHotter(groups: seq<Disk>, cacheLimit: nat, first: Snapshot, days: seq<Day>, d: Day, j: nat)
    requires InRow(groups, cacheLimit, first, days) && d in days && !ListsEmptyId(d.did.cold)
    requires j < |d.plan.list|
    ensures HotterOn(d, j)
  {
    var morning := Morning(d.was, d.plan);
    var v := d.did.log.visits;
    if d.plan.list[j].asked && v[j].out.Selected? {
      EveryVisitIsHotter(groups, morning.hosts, d.plan.list, v, d.did.log.rounds, morning.main, cacheLimit,
                         d.plan.cutoff, d.did.rank, j);
    }
  }

  ghost predicate HotterOn(d: Day, j: nat) {
    var list, v := d.plan.list, d.did.log.visits;
    && |d.plan.groupLogs| == |d.was.hosts| && InRange(list, |d.was.hosts|) && j < |list| == |v|
    && var morning := Morning(d.was, d.plan);
       var before := HostsAfter(morning.hosts, list[..j], v[..j])[list[j].group];
       list[j].asked && v[j].out.Selected? ==>
         && Configured(before) && Configured(morning.main)
         && AllHotter(before, list[j].cutoff, v[j].rank, v[j].out.count, morning.main, d.plan.cutoff, d.did.cold)
  }
}
