/** The handlers of the RPCs and the loops that call them, over the directories of all hosts. The
    RPCs that may fail take their outcomes as inputs. Each method is proved to be one step, or a
    sequence of steps, of the transition system in module Exchange, which interleaves them. */
module Handlers {
  import opened Files
  import opened Exchange

  class Network {
    var main: Server
    var groups: seq<Server>
    var subs: seq<Sub>
    var target: nat

    constructor (w: World)
      ensures View() == w
    {
      main, groups, subs, target := w.main, w.groups, w.subs, w.target;
    }

    function View(): World
      reads this
    {
      World(main, groups, subs, target)
    }

    /** ScServer::Addafps */
    method Addafps(i: nat, name: string, data: File)
      requires i < |subs|
      modifies this`subs
      ensures subs == old(subs)[i := old(subs)[i].(dst := old(subs)[i].dst[name := data])]
    {
      subs := subs[i := subs[i].(dst := subs[i].dst[name := data])];
    }

    /** ScServer::Delafps, which answers whether there was such a file. */
    method Delafps(i: nat, name: string) returns (ok: bool)
      requires i < |subs|
      modifies this`subs
      ensures ok == (name in old(subs)[i].afp)
      ensures subs == old(subs)[i := old(subs)[i].(afp := old(subs)[i].afp - {name})]
    {
      ok := name in subs[i].afp;
      var afp := subs[i].afp - {name};
      subs := subs[i := subs[i].(afp := afp)];
    }

    /** GMServer::Afpmove */
    method GroupAfpmove(g: nat, name: string, data: File)
      requires g < |groups|
      modifies this`groups
      ensures groups == old(groups)[g := Receive(old(groups)[g], name, data)]
    {
      groups := groups[g := groups[g].(dst := groups[g].dst[name := data])];
    }

    /** McServer::Afpmove: sync[i] is whether the RPC to sub i succeeds. Until the first failure
        each round writes one sub and then main: before round i exactly subs 0 to i - 1 have the
        new file, and main has it iff i >= 1. */
    method MainAfpmove(name: string, data: File, sync: seq<bool>) returns (ok: bool, reached: nat)
      requires |sync| == |subs|
      modifies this`subs, this`main
      ensures reached == Reached(sync) && ok == (reached == |sync|)
      ensures subs == AddAt(old(subs), name, data, reached)
      ensures main == if reached > 0 then Receive(old(main), name, data) else old(main)
    {
      reached := 0;
      while reached < |subs|
        invariant reached <= |subs| == |sync| && forall i | 0 <= i < reached :: sync[i]
        invariant subs == AddAt(old(subs), name, data, reached)
        invariant main == if reached > 0 then Receive(old(main), name, data) else old(main)
      {
        if !sync[reached] {
          ReachedIs(sync, reached);
          return false, reached;
        }
        Addafps(reached, name, data);
        main := main.(dst := main.dst[name := data]);
        reached := reached + 1;
      }
      ReachedIs(sync, reached);
      ok := true;
    }

    /** One round of GrMoveClient::afpMove. */
    method PushFile(g: nat, name: string, sync: seq<bool>) returns (ok: bool)
      requires g < |groups| && name in groups[g].left && name in groups[g].org && |sync| == |subs|
      modifies this
      ensures ok == (Reached(sync) == |sync|)
      ensures View() == Apply(old(View()), Push(g, name, Reached(sync)))
      ensures FilePushed(old(View()), View(), g, name, sync)
    {
      var reached;
      ok, reached := MainAfpmove(name, groups[g].org[name], sync);
      groups := groups[g := Sent(groups[g], name)];
    }

    /** GrMoveClient::afpMove: every file of the group's ORG is pushed once, in any order, and
        gets as far as its outcomes let it. */
    method PushAll(g: nat, o: Outcomes) returns (ghost order: seq<string>)
      requires g < |groups| && groups[g].left <= groups[g].org.Keys && Fits(o, |subs|)
      modifies this
      ensures Lists(order, old(groups[g].left))
      ensures IsRun(old(View()), PushesOf(g, order, o)) && View() == Exec(old(View()), PushesOf(g, order, o))
      ensures |groups| == |old(groups)| && groups[g].left == {} && main.left == old(main.left)
      ensures forall j | 0 <= j < |groups| && j != g :: groups[j] == old(groups)[j]
      ensures FilesPushed(old(View()), View(), g, old(groups[g].left), o)
    {
      order := [];
      while groups[g].left != {}
        invariant |groups| == |old(groups)| && |subs| == |old(subs)| && main.left == old(main.left)
        invariant forall j | 0 <= j < |groups| && j != g :: groups[j] == old(groups)[j]
        invariant groups[g].left <= groups[g].org.Keys
        invariant Listing(order, old(groups[g].left), groups[g].left)
        invariant IsRun(old(View()), PushesOf(g, order, o)) && View() == Exec(old(View()), PushesOf(g, order, o))
        decreases groups[g].left
      {
        var name :| name in groups[g].left;
        var ok := PushFile(g, name, o.sync(g, name));
        ExecThen(old(View()), PushesOf(g, order, o), Push(g, name, Reached(o.sync(g, name))));
        PushesStep(g, order, name, o);
        order := order + [name];
      }
      PushesArrive(old(View()), g, order, o);
      SameNames(order, old(groups[g].left));
    }

    /** The threads of the groups while main is at work: whichever they are given turns, with files
        that they still have to push. */
    method PushSome(turns: seq<Turn>, o: Outcomes)
      requires Fits(o, |subs|)
      modifies this
      ensures IsRun(old(View()), TurnEvents(old(View()), turns, o))
      ensures View() == Exec(old(View()), TurnEvents(old(View()), turns, o))
      ensures main.left == old(main.left) && |groups| == |old(groups)| && |subs| == |old(subs)|
    {
      ghost var es := [];
      assert turns[0..] == turns;
      for i := 0 to |turns|
        invariant main.left == old(main.left) && |groups| == |old(groups)| && |subs| == |old(subs)|
        invariant PushedTo(old(View()), View(), es, turns, i, o)
      {
        var t := turns[i];
        PushedStep(old(View()), View(), es, turns, i, o);
        if t.group < |groups| && t.name in groups[t.group].left && t.name in groups[t.group].org {
          var ok := PushFile(t.group, t.name, o.sync(t.group, t.name));
          es := es + [TurnEvent(t, o)];
        }
      }
      assert turns[|turns|..] == [] && es + [] == es;
    }

    /** One round of McMoveClient::afpMove: the file goes to the target group and, whatever the
        answer, is deleted at every sub cache that the RPC reaches. */
    method SendFile(name: string, delivered: bool, reach: seq<bool>)
      requires name in main.left && name in main.org && target < |groups| && |reach| == |subs|
      modifies this
      ensures View() == Apply(old(View()), Send(name, delivered, reach))
      ensures FileSent(old(View()), View(), name, delivered, reach)
    {
      var data := main.org[name];
      if delivered {
        GroupAfpmove(target, name, data);
      }
      DeleteEverywhere(name, reach);
      main := Sent(main, name);
    }

    method DeleteEverywhere(name: string, reach: seq<bool>)
      requires |reach| == |subs|
      modifies this`subs
      ensures subs == DeleteAt(old(subs), name, reach)
    {
      for i := 0 to |subs|
        invariant |subs| == |old(subs)|
        invariant forall j | 0 <= j < i :: subs[j] == DeleteAt(old(subs), name, reach)[j]
        invariant forall j | i <= j < |subs| :: subs[j] == old(subs)[j]
      {
        if reach[i] {
          var ok := Delafps(i, name);
        }
      }
    }

    /** McMoveClient::afpMove: every file of main's ORG is sent once, in any order, with the
        outcomes of its RPCs. */
    method SendAll(o: Outcomes) returns (ghost order: seq<string>)
      requires target < |groups| && main.left <= main.org.Keys && Fits(o, |subs|)
      modifies this
      ensures Lists(order, old(main.left))
      ensures var es := SendsOf(old(target), order, o);
              IsRun(old(View()), es) && View() == Exec(old(View()), es)
      ensures main.left == {} && |groups| == |old(groups)| && |subs| == |old(subs)|
      ensures FilesSent(old(View()), View(), old(main.left), o)
    {
      order := [];
      while main.left != {}
        invariant |groups| == |old(groups)| && |subs| == |old(subs)| && target == old(target) < |groups|
        invariant main.left <= main.org.Keys
        invariant Listing(order, old(main.left), main.left)
        invariant IsRun(old(View()), SendsOf(target, order, o))
        invariant View() == Exec(old(View()), SendsOf(target, order, o))
        decreases main.left
      {
        var name :| name in main.left;
        SendFile(name, o.delivered(target, name), o.reach(target, name));
        ExecThen(old(View()), SendsOf(target, order, o), Send(name, o.delivered(target, name), o.reach(target, name)));
        SendsStep(target, order, name, o);
        order := order + [name];
      }
      SendsArrive(old(View()), order, o);
      SameNames(order, old(main.left));
    }

    /** What Preconf does to the group's directories when it selects something. */
    method LoadGroup(g: nat, hot: set<string>)
      requires g < |groups|
      modifies this`groups
      ensures View() == Apply(old(View()), Preconf(g, hot))
    {
      groups := groups[g := Load(groups[g], hot)];
    }

    /** What movCntFile does to main's directories. */
    method LoadMain(g: nat, window: set<string>)
      requires g < |groups| && main.left == {}
      modifies this`main, this`target
      ensures View() == Apply(old(View()), Batch(g, window))
    {
      main := Load(main, window);
      target := g;
    }

    /** What one line of the group list does to the directories: an asked group loads its hot
        files; if its answer arrives, main loads one window and sends all of it before it goes on. */
    method PlayRound(r: Round, o: Outcomes) returns (ghost order: seq<string>)
      requires r.group < |groups| && main.left == {} && Fits(o, |subs|)
      modifies this
      ensures Lists(order, if r.Answered? then old(main.afp).Keys * r.window else {})
      ensures IsRun(old(View()), RoundEvents(r, order, o)) && View() == Exec(old(View()), RoundEvents(r, order, o))
      ensures main.left == {} && |groups| == |old(groups)| && |subs| == |old(subs)|
      ensures GroupsGain(old(View()), View(), r, o)
    {
      order := [];
      if r.Silent? {
        return;
      }
      LoadGroup(r.group, r.hot);
      ghost var w := View();
      assert w == Exec(old(View()), [Preconf(r.group, r.hot)]);
      if r.Answered? {
        LoadMain(r.group, r.window);
        assert View() == Exec(w, [Batch(r.group, r.window)]);
        ExecAppend(old(View()), [Preconf(r.group, r.hot)], [Batch(r.group, r.window)]);
        order := SendAll(o);
        ExecAppend(old(View()), [Preconf(r.group, r.hot)] + [Batch(r.group, r.window)], SendsOf(r.group, order, o));
      }
      RoundDelivers(old(View()), r, order, o);
    }

    /** One line, and the pushes that come before the next one. */
    method PlayLine(r: Round, turns: seq<Turn>, o: Outcomes) returns (ghost order: seq<string>)
      requires r.group < |groups| && main.left == {} && Fits(o, |subs|)
      modifies this
      ensures LineRun(old(View()), View(), r, order, turns, o) && GroupsGain(old(View()), View(), r, o)
      ensures main.left == {} && |groups| == |old(groups)| && |subs| == |old(subs)|
    {
      order := PlayRound(r, o);
      ghost var w := View();
      PushSome(turns, o);
      ExecAppend(old(View()), RoundEvents(r, order, o), TurnEvents(w, turns, o));
      LineDelivers(old(View()), View(), r, order, turns, o);
    }

    /** The order of work in the main cache's daily loop, for any answers and with any pushes of
        the groups between its lines: what main has of each window is sent, all of it once, before
        the next batch wipes ORG. */
    method Day(rounds: seq<Round>, turns: seq<seq<Turn>>, o: Outcomes) returns (ghost orders: seq<seq<string>>)
      requires |turns| == |rounds| && forall r | r in rounds :: r.group < |groups|
      requires main.left == {} && Fits(o, |subs|)
      modifies this
      ensures DayRun(old(View()), View(), rounds, orders, turns, o)
      ensures main.left == {}
    {
      orders := [];
      NothingPlayed(View(), o);
      for i := 0 to |rounds|
        invariant |groups| == |old(groups)| && |subs| == |old(subs)| && main.left == {}
        invariant DayRun(old(View()), View(), rounds[..i], orders, turns[..i], o)
      {
        ghost var w := View();
        assert rounds[..i + 1] == rounds[..i] + [rounds[i]] && turns[..i + 1] == turns[..i] + [turns[i]];
        ghost var order := PlayLine(rounds[i], turns[i], o);
        DayRunStep(old(View()), w, View(), rounds[..i], orders, turns[..i], rounds[i], order, turns[i], o);
        orders := orders + [order];
      }
      assert rounds[..|rounds|] == rounds && turns[..|turns|] == turns;
    }

    /** All that the groups still have to push. */
    method PushEverything(o: Outcomes) returns (ghost orders: seq<seq<string>>)
      requires Stocked(View()) && main.left == {} && Fits(o, |subs|)
      modifies this
      ensures |orders| == |old(groups)|
      ensures forall g | 0 <= g < |orders| :: Lists(orders[g], old(groups)[g].left)
      ensures IsRun(old(View()), AllPushes(orders, o)) && View() == Exec(old(View()), AllPushes(orders, o))
      ensures Idle(View())
    {
      orders := [];
      for g := 0 to |groups|
        invariant |groups| == |old(groups)| && |subs| == |old(subs)| && main.left == {} && |orders| == g
        invariant forall j | 0 <= j < g :: groups[j].left == {} && Lists(orders[j], old(groups)[j].left)
        invariant forall j | g <= j < |groups| :: groups[j] == old(groups)[j]
        invariant IsRun(old(View()), AllPushes(orders, o)) && View() == Exec(old(View()), AllPushes(orders, o))
      {
        RunKeepsStocked(old(View()), AllPushes(orders, o));
        RunKeepsSize(old(View()), AllPushes(orders, o));
        ghost var order := PushAll(g, o);
        ExecAppend(old(View()), AllPushes(orders, o), PushesOf(g, order, o));
        assert (orders + [order])[..g] == orders;
        RunKeepsSize(old(View()), AllPushes(orders + [order], o));
        orders := orders + [order];
      }
    }
  }

  // ---------------------------------------------------------------- the events of the loops

  /** How the RPCs of a day end, for each group and file. */
  datatype Outcomes = Outcomes(
    delivered: (nat, string) -> bool,   // whether a file that main sends to the group arrives
    reach: (nat, string) -> seq<bool>,  // at which sub caches it is then deleted
    sync: (nat, string) -> seq<bool>    // which sub caches can be reached when the group pushes it
  )

  ghost predicate Fits(o: Outcomes, subs: nat) {
    forall g: nat, n: string :: |o.reach(g, n)| == subs && |o.sync(g, n)| == subs
  }

  /** A loop over a directory meets each of these names once, in any order. */
  ghost predicate Lists(order: seq<string>, names: set<string>) {
    && (forall n :: n in order <==> n in names)
    && (forall i, j | 0 <= i < j < |order| :: order[i] != order[j])
  }

  /** The loop has met these names, and the rest is still to come. */
  ghost predicate Listing(order: seq<string>, names: set<string>, rest: set<string>) {
    rest <= names && Lists(order, names - rest)
  }

  /** To how many sub caches an RPC succeeds before the first failure. */
  function Reached(sync: seq<bool>): (n: nat)
    ensures n <= |sync| && (n < |sync| ==> !sync[n]) && forall i | 0 <= i < n :: sync[i]
  {
    if sync == [] || !sync[0] then 0
    else
      var n := Reached(sync[1..]);
      assert forall i | 0 < i < n + 1 :: sync[i] == sync[1..][i - 1];
      n + 1
  }

  lemma ReachedIs(sync: seq<bool>, n: nat)
    requires n <= |sync| && (n < |sync| ==> !sync[n]) && forall i | 0 <= i < n :: sync[i]
    ensures Reached(sync) == n
  {
  }

  function PushesOf(g: nat, order: seq<string>, o: Outcomes): (es: seq<Event>)
    ensures |es| == |order|
    ensures forall i | 0 <= i < |order| :: es[i] == Push(g, order[i], Reached(o.sync(g, order[i])))
  {
    seq(|order|, i requires 0 <= i < |order| => Push(g, order[i], Reached(o.sync(g, order[i]))))
  }

  function SendsOf(g: nat, order: seq<string>, o: Outcomes): (es: seq<Event>)
    ensures |es| == |order|
    ensures forall i | 0 <= i < |order| :: es[i] == Send(order[i], o.delivered(g, order[i]), o.reach(g, order[i]))
  {
    seq(|order|, i requires 0 <= i < |order| => Send(order[i], o.delivered(g, order[i]), o.reach(g, order[i])))
  }

  lemma PushesStep(g: nat, order: seq<string>, n: string, o: Outcomes)
    ensures PushesOf(g, order + [n], o) == PushesOf(g, order, o) + [Push(g, n, Reached(o.sync(g, n)))]
  {
  }

  lemma SendsStep(g: nat, order: seq<string>, n: string, o: Outcomes)
    ensures SendsOf(g, order + [n], o) == SendsOf(g, order, o) + [Send(n, o.delivered(g, n), o.reach(g, n))]
  {
  }

  function AllPushes(orders: seq<seq<string>>, o: Outcomes): seq<Event> {
    if orders == [] then []
    else
      var g := |orders| - 1;
      AllPushes(orders[..g], o) + PushesOf(g, orders[g], o)
  }

  /** A group's thread is scheduled with a file; if it has that file no more, it does nothing. */
  datatype Turn = Turn(group: nat, name: string)

  function TurnEvent(t: Turn, o: Outcomes): Event {
    Push(t.group, t.name, Reached(o.sync(t.group, t.name)))
  }

  function TurnEvents(w: World, turns: seq<Turn>, o: Outcomes): seq<Event>
    decreases |turns|
  {
    if turns == [] then []
    else
      var e := TurnEvent(turns[0], o);
      if Enabled(w, e) then [e] + TurnEvents(Apply(w, e), turns[1..], o) else TurnEvents(w, turns[1..], o)
  }

  lemma TurnStep(w: World, turns: seq<Turn>, i: nat, o: Outcomes)
    requires i < |turns| && Fits(o, |w.subs|)
    ensures var t, e := turns[i], TurnEvent(turns[i], o);
            && (Enabled(w, e) <==>
                  t.group < |w.groups| && t.name in w.groups[t.group].left && t.name in w.groups[t.group].org)
            && TurnEvents(w, turns[i..], o) ==
               if Enabled(w, e) then [e] + TurnEvents(Apply(w, e), turns[i + 1..], o)
               else TurnEvents(w, turns[i + 1..], o)
  {
    var t := turns[i];
    assert |o.sync(t.group, t.name)| == |w.subs|;
    assert turns[i..][0] == t && turns[i..][1..] == turns[i + 1..];
  }

  /** These are the events of the first i turns. */
  ghost predicate PushedTo(w: World, w': World, es: seq<Event>, turns: seq<Turn>, i: nat, o: Outcomes)
    requires i <= |turns|
  {
    && IsRun(w, es) && w' == Exec(w, es) && |w'.subs| == |w.subs|
    && TurnEvents(w, turns, o) == es + TurnEvents(w', turns[i..], o)
  }

  lemma PushedStep(w: World, w': World, es: seq<Event>, turns: seq<Turn>, i: nat, o: Outcomes)
    requires i < |turns| && Fits(o, |w.subs|) && PushedTo(w, w', es, turns, i, o)
    ensures var t, e := turns[i], TurnEvent(turns[i], o);
            if t.group < |w'.groups| && t.name in w'.groups[t.group].left && t.name in w'.groups[t.group].org
            then Enabled(w', e) && PushedTo(w, Apply(w', e), es + [e], turns, i + 1, o)
            else PushedTo(w, w', es, turns, i + 1, o)
  {
    TurnStep(w', turns, i, o);
    if Enabled(w', TurnEvent(turns[i], o)) {
      ExecThen(w, es, TurnEvent(turns[i], o));
      Regroup(es, TurnEvent(turns[i], o), TurnEvents(Apply(w', TurnEvent(turns[i], o)), turns[i + 1..], o));
    }
  }

  lemma Regroup(es: seq<Event>, e: Event, fs: seq<Event>)
    ensures es + ([e] + fs) == es + [e] + fs
  {
  }

  lemma {:induction false} TurnsArePushes(w: World, turns: seq<Turn>, o: Outcomes)
    ensures forall e | e in TurnEvents(w, turns, o) :: e.Push?
    decreases |turns|
  {
    if turns != [] {
      var e := TurnEvent(turns[0], o);
      TurnsArePushes(if Enabled(w, e) then Apply(w, e) else w, turns[1..], o);
    }
  }

  /** One line of the group list: the group is not reached or selects nothing; it selects, but
      main gets no answer; or main gets the answer and hands it a window. */
  datatype Round =
    | Silent(group: nat)
    | Unheard(group: nat, hot: set<string>)
    | Answered(group: nat, hot: set<string>, window: set<string>)

  function RoundEvents(r: Round, order: seq<string>, o: Outcomes): seq<Event> {
    match r
    case Silent(_) => []
    case Unheard(g, hot) => [Preconf(g, hot)]
    case Answered(g, hot, window) => [Preconf(g, hot)] + [Batch(g, window)] + SendsOf(g, order, o)
  }

  function LineEvents(w: World, r: Round, order: seq<string>, turns: seq<Turn>, o: Outcomes): seq<Event> {
    RoundEvents(r, order, o) + TurnEvents(After(w, RoundEvents(r, order, o)), turns, o)
  }

  function DayEvents(w: World, rounds: seq<Round>, orders: seq<seq<string>>,
                     turns: seq<seq<Turn>>, o: Outcomes): seq<Event>
    requires |rounds| == |orders| == |turns|
  {
    if rounds == [] then []
    else
      var n := |rounds| - 1;
      var es := DayEvents(w, rounds[..n], orders[..n], turns[..n], o);
      es + LineEvents(After(w, es), rounds[n], orders[n], turns[n], o)
  }

  /** The names that the rounds hand out. */
  function HandedIn(rounds: seq<Round>): set<string> {
    if rounds == [] then {}
    else
      var r := rounds[|rounds| - 1];
      HandedIn(rounds[..|rounds| - 1]) + if r.Answered? then r.window else {}
  }

  /** What main sends in one round: what its window names and main has not handed out before. */
  function SentIn(afp: Dir, rounds: seq<Round>, i: nat): set<string>
    requires i < |rounds|
  {
    if rounds[i].Answered? then (afp.Keys - HandedIn(rounds[..i])) * rounds[i].window else {}
  }

  // ---------------------------------------------------------------- what a line does to the stocks

  /** Nothing but DST of the groups, the sub caches and what is still to be sent differs. */
  ghost predicate SameStock(w: World, w': World) {
    && w'.main.afp == w.main.afp && w'.main.org == w.main.org
    && |w'.groups| == |w.groups| && |w'.subs| == |w.subs|
    && forall i | 0 <= i < |w.groups| ::
         w'.groups[i].afp == w.groups[i].afp && w'.groups[i].org == w.groups[i].org
  }

  /** Sends and pushes change no AFP and no ORG. */
  lemma {:induction false} MovesKeepStock(w: World, es: seq<Event>)
    requires IsRun(w, es) && forall e | e in es :: e.Send? || e.Push?
    ensures SameStock(w, Exec(w, es))
    decreases |es|
  {
    if es != [] {
      assert es[0] in es;
      MovesKeepStock(Apply(w, es[0]), es[1..]);
    }
  }

  lemma {:induction false} AllArePushes(orders: seq<seq<string>>, o: Outcomes)
    ensures forall e | e in AllPushes(orders, o) :: e.Push?
  {
    if orders != [] {
      AllArePushes(orders[..|orders| - 1], o);
    }
  }

  /** The stocks after a line: what AFP and ORG hold at main and at every group. */
  ghost predicate Played(w: World, w': World, r: Round)
    requires r.group < |w.groups|
  {
    && |w'.groups| == |w.groups| && |w'.subs| == |w.subs|
    && (if r.Answered? then w'.main.afp == w.main.afp - r.window && w'.main.org == Only(w.main.afp, r.window)
        else w'.main.afp == w.main.afp && w'.main.org == w.main.org)
    && (forall i | 0 <= i < |w.groups| && (i != r.group || r.Silent?) ::
          w'.groups[i].afp == w.groups[i].afp && w'.groups[i].org == w.groups[i].org)
    && (!r.Silent? ==>
          && w'.groups[r.group].afp == w.groups[r.group].afp - r.hot
          && w'.groups[r.group].org == Only(w.groups[r.group].afp, r.hot))
  }

  lemma RoundStock(w: World, r: Round, order: seq<string>, o: Outcomes)
    requires r.group < |w.groups| && IsRun(w, RoundEvents(r, order, o))
    ensures Played(w, Exec(w, RoundEvents(r, order, o)), r)
  {
    match r
    case Silent(_) =>
    case Unheard(g, hot) => OneEvent(w, Preconf(g, hot));
    case Answered(g, hot, window) =>
      var sends := SendsOf(g, order, o);
      RunSplits(w, [Preconf(g, hot)] + [Batch(g, window)], sends);
      RunSplits(w, [Preconf(g, hot)], [Batch(g, window)]);
      OneEvent(w, Preconf(g, hot));
      OneEvent(Apply(w, Preconf(g, hot)), Batch(g, window));
      MovesKeepStock(Exec(w, [Preconf(g, hot)] + [Batch(g, window)]), sends);
  }

  lemma OneEvent(w: World, e: Event)
    requires IsRun(w, [e])
    ensures Enabled(w, e) && Exec(w, [e]) == Apply(w, e)
  {
    assert [e][1..] == [];
  }

  /** One line on the network, with the pushes before the next: one send for every file of main's
      that the window names. */
  ghost predicate LineRun(w: World, w': World, r: Round, order: seq<string>, turns: seq<Turn>, o: Outcomes) {
    && Lists(order, if r.Answered? then w.main.afp.Keys * r.window else {})
    && IsRun(w, RoundEvents(r, order, o)) && IsRun(w, LineEvents(w, r, order, turns, o))
    && w' == Exec(w, LineEvents(w, r, order, turns, o))
  }

  /** Whatever is sent and pushed, a line leaves the stocks of its round. */
  lemma LineStock(w: World, w': World, r: Round, order: seq<string>, turns: seq<Turn>, o: Outcomes)
    requires r.group < |w.groups| && LineRun(w, w', r, order, turns, o)
    ensures Played(w, w', r)
  {
    var es := RoundEvents(r, order, o);
    RunSplits(w, es, TurnEvents(Exec(w, es), turns, o));
    RoundStock(w, r, order, o);
    TurnsArePushes(Exec(w, es), turns, o);
    MovesKeepStock(Exec(w, es), TurnEvents(Exec(w, es), turns, o));
  }

  // ---------------------------------------------------------------- where the files go

  /** One file sent, directory by directory: it is put into DST of the target group if it is
      delivered, and deleted from AFP of the sub caches reached, delivered or not. */
  ghost predicate FileSent(w: World, w': World, name: string, delivered: bool, reach: seq<bool>)
    requires name in w.main.org && w.target < |w.groups| && |reach| == |w.subs|
  {
    && w'.main == Server(w.main.afp, w.main.org, w.main.dst, w.main.left - {name}) && w'.target == w.target
    && |w'.groups| == |w.groups| && |w'.subs| == |w.subs|
    && (forall j | 0 <= j < |w.groups| && j != w.target :: w'.groups[j] == w.groups[j])
    && (var was := w.groups[w.target];
        w'.groups[w.target] == Server(was.afp, was.org,
                                      if delivered then was.dst[name := w.main.org[name]] else was.dst, was.left))
    && forall i | 0 <= i < |w.subs| ::
         w'.subs[i] == Sub(if reach[i] then w.subs[i].afp - {name} else w.subs[i].afp, w.subs[i].dst)
  }

  /** One file pushed, directory by directory: DST of the sub caches before the first failure, and
      of main if there is one. */
  ghost predicate FilePushed(w: World, w': World, g: nat, name: string, sync: seq<bool>)
    requires g < |w.groups| && name in w.groups[g].org && |sync| == |w.subs|
  {
    var data, was := w.groups[g].org[name], w.groups[g];
    && w'.main == Server(w.main.afp, w.main.org,
                         if Reached(sync) > 0 then w.main.dst[name := data] else w.main.dst, w.main.left)
    && w'.target == w.target && |w'.groups| == |w.groups| && |w'.subs| == |w.subs|
    && (forall j | 0 <= j < |w.groups| && j != g :: w'.groups[j] == w.groups[j])
    && w'.groups[g] == Server(was.afp, was.org, was.dst, was.left - {name})
    && forall i | 0 <= i < |w.subs| ::
         w'.subs[i] == Sub(w.subs[i].afp, if i < Reached(sync) then w.subs[i].dst[name := data] else w.subs[i].dst)
  }

  lemma SendOnFields(w: World, name: string, delivered: bool, reach: seq<bool>)
    requires Enabled(w, Send(name, delivered, reach))
    ensures FileSent(w, Apply(w, Send(name, delivered, reach)), name, delivered, reach)
  {
  }

  lemma PushOnFields(w: World, g: nat, name: string, sync: seq<bool>)
    requires |sync| == |w.subs| && Enabled(w, Push(g, name, Reached(sync)))
    ensures FilePushed(w, Apply(w, Push(g, name, Reached(sync))), g, name, sync)
  {
  }

  function Arriving(names: set<string>, g: nat, o: Outcomes): set<string> {
    set n | n in names && o.delivered(g, n)
  }

  function DeletedAt(names: set<string>, g: nat, o: Outcomes, i: nat): set<string> {
    set n | n in names && i < |o.reach(g, n)| && o.reach(g, n)[i]
  }

  function ReachingMain(names: set<string>, g: nat, o: Outcomes): set<string> {
    set n | n in names && Reached(o.sync(g, n)) > 0
  }

  function ReachingSub(names: set<string>, g: nat, o: Outcomes, i: nat): set<string> {
    set n | n in names && i < Reached(o.sync(g, n))
  }

  /** All of these files sent: the target group's DST gains exactly the delivered ones. */
  ghost predicate FilesSent(w: World, w': World, names: set<string>, o: Outcomes)
    requires w.target < |w.groups|
  {
    var g := w.target;
    && w'.main == Server(w.main.afp, w.main.org, w.main.dst, w.main.left - names) && w'.target == w.target
    && |w'.groups| == |w.groups| && |w'.subs| == |w.subs|
    && (forall j | 0 <= j < |w.groups| && j != g :: w'.groups[j] == w.groups[j])
    && w'.groups[g] == Server(w.groups[g].afp, w.groups[g].org,
                              w.groups[g].dst + Only(w.main.org, Arriving(names, g, o)), w.groups[g].left)
    && forall i | 0 <= i < |w.subs| ::
         w'.subs[i] == Sub(w.subs[i].afp - DeletedAt(names, g, o, i), w.subs[i].dst)
  }

  /** All of these files pushed: main's and each sub cache's DST gain exactly those that get there. */
  ghost predicate FilesPushed(w: World, w': World, g: nat, names: set<string>, o: Outcomes)
    requires g < |w.groups|
  {
    var was := w.groups[g];
    && w'.main == Server(w.main.afp, w.main.org, w.main.dst + Only(was.org, ReachingMain(names, g, o)), w.main.left)
    && w'.target == w.target && |w'.groups| == |w.groups| && |w'.subs| == |w.subs|
    && (forall j | 0 <= j < |w.groups| && j != g :: w'.groups[j] == w.groups[j])
    && w'.groups[g] == Server(was.afp, was.org, was.dst, was.left - names)
    && forall i | 0 <= i < |w.subs| ::
         w'.subs[i] == Sub(w.subs[i].afp, w.subs[i].dst + Only(was.org, ReachingSub(names, g, o, i)))
  }

  function NamesOf(order: seq<string>): set<string> {
    set n | n in order
  }

  lemma SameNames(order: seq<string>, names: set<string>)
    requires Lists(order, names)
    ensures NamesOf(order) == names
  {
  }

  lemma GainOne(d: Dir, org: Dir, names: set<string>, n: string)
    requires n in org
    ensures (d + Only(org, names))[n := org[n]] == d + Only(org, names + {n})
  {
  }

  lemma LoseOne(d: Dir, names: set<string>, n: string)
    ensures (d - names) - {n} == d - (names + {n})
  {
  }

  lemma NamesStep(names: set<string>, n: string, g: nat, o: Outcomes, i: nat)
    ensures Arriving(names + {n}, g, o) ==
            if o.delivered(g, n) then Arriving(names, g, o) + {n} else Arriving(names, g, o)
    ensures DeletedAt(names + {n}, g, o, i) ==
            DeletedAt(names, g, o, i) + if i < |o.reach(g, n)| && o.reach(g, n)[i] then {n} else {}
    ensures ReachingMain(names + {n}, g, o) == ReachingMain(names, g, o) + if Reached(o.sync(g, n)) > 0 then {n} else {}
    ensures ReachingSub(names + {n}, g, o, i) ==
            ReachingSub(names, g, o, i) + if i < Reached(o.sync(g, n)) then {n} else {}
  {
  }

  lemma FilesSentStep(w: World, v: World, u: World, names: set<string>, n: string, o: Outcomes)
    requires w.target < |w.groups| && FilesSent(w, v, names, o)
    requires n in w.main.org && |o.reach(w.target, n)| == |w.subs|
    requires FileSent(v, u, n, o.delivered(w.target, n), o.reach(w.target, n))
    ensures FilesSent(w, u, names + {n}, o)
  {
    var g := w.target;
    NamesStep(names, n, g, o, 0);
    GainOne(w.groups[g].dst, w.main.org, Arriving(names, g, o), n);
    LessLeft(w.main.left, names, n);
    forall i | 0 <= i < |w.subs|
      ensures u.subs[i] == Sub(w.subs[i].afp - DeletedAt(names + {n}, g, o, i), w.subs[i].dst)
    {
      NamesStep(names, n, g, o, i);
      LoseOne(w.subs[i].afp, DeletedAt(names, g, o, i), n);
    }
  }

  lemma FilesPushedStep(w: World, v: World, u: World, g: nat, names: set<string>, n: string, o: Outcomes)
    requires g < |w.groups| && FilesPushed(w, v, g, names, o)
    requires n in w.groups[g].org && |o.sync(g, n)| == |w.subs|
    requires FilePushed(v, u, g, n, o.sync(g, n))
    ensures FilesPushed(w, u, g, names + {n}, o)
  {
    var was := w.groups[g];
    MainGains(w.main, v.main, u.main, was.org, g, names, n, o);
    LessLeft(was.left, names, n);
    forall i | 0 <= i < |w.subs|
      ensures u.subs[i] == Sub(w.subs[i].afp, w.subs[i].dst + Only(was.org, ReachingSub(names + {n}, g, o, i)))
    {
      SubGains(w.subs[i], v.subs[i], u.subs[i], was.org, i, g, names, n, o);
    }
  }

  lemma MainGains(was: Server, v: Server, u: Server, org: Dir, g: nat, names: set<string>, n: string, o: Outcomes)
    requires v == Server(was.afp, was.org, was.dst + Only(org, ReachingMain(names, g, o)), was.left) && n in org
    requires u == Server(v.afp, v.org, if Reached(o.sync(g, n)) > 0 then v.dst[n := org[n]] else v.dst, v.left)
    ensures u == Server(was.afp, was.org, was.dst + Only(org, ReachingMain(names + {n}, g, o)), was.left)
  {
    NamesStep(names, n, g, o, 0);
    GainOne(was.dst, org, ReachingMain(names, g, o), n);
    assert ReachingMain(names, g, o) + {} == ReachingMain(names, g, o);
  }

  lemma LessLeft(left: set<string>, names: set<string>, n: string)
    ensures left - names - {n} == left - (names + {n})
  {
  }

  lemma SubGains(was: Sub, v: Sub, u: Sub, org: Dir, i: nat, g: nat, names: set<string>, n: string, o: Outcomes)
    requires v == Sub(was.afp, was.dst + Only(org, ReachingSub(names, g, o, i))) && n in org
    requires u == Sub(v.afp, if i < Reached(o.sync(g, n)) then v.dst[n := org[n]] else v.dst)
    ensures u == Sub(was.afp, was.dst + Only(org, ReachingSub(names + {n}, g, o, i)))
  {
    NamesStep(names, n, g, o, i);
    GainOne(was.dst, org, ReachingSub(names, g, o, i), n);
    assert ReachingSub(names, g, o, i) + {} == ReachingSub(names, g, o, i);
  }

  lemma GainNothing(d: Dir, org: Dir)
    ensures d + Only(org, {}) == d && d - {} == d
  {
  }

  lemma NothingSent(w: World, o: Outcomes)
    ensures w.target < |w.groups| ==> FilesSent(w, w, {}, o)
    ensures forall g | 0 <= g < |w.groups| :: FilesPushed(w, w, g, {}, o)
  {
    forall g | 0 <= g < |w.groups|
      ensures FilesPushed(w, w, g, {}, o)
    {
      NothingPushed(w, g, o);
    }
    if w.target < |w.groups| {
      GainNothing(w.groups[w.target].dst, w.main.org);
      assert Arriving({}, w.target, o) == {};
      forall i | 0 <= i < |w.subs|
        ensures w.subs[i].afp - DeletedAt({}, w.target, o, i) == w.subs[i].afp
      {
        assert DeletedAt({}, w.target, o, i) == {};
        GainNothing(w.subs[i].afp, map[]);
      }
    }
  }

  lemma NothingPushed(w: World, g: nat, o: Outcomes)
    requires g < |w.groups|
    ensures FilesPushed(w, w, g, {}, o)
  {
    GainNothing(w.main.dst, w.groups[g].org);
    assert ReachingMain({}, g, o) == {};
    forall i | 0 <= i < |w.subs|
      ensures w.subs[i].dst + Only(w.groups[g].org, ReachingSub({}, g, o, i)) == w.subs[i].dst
    {
      assert ReachingSub({}, g, o, i) == {};
      GainNothing(w.subs[i].dst, w.groups[g].org);
    }
  }

  lemma OneMoreSent(w: World, v: World, names: set<string>, n: string, o: Outcomes)
    requires w.target < |w.groups| && FilesSent(w, v, names, o) && |o.reach(w.target, n)| == |w.subs|
    requires Enabled(v, Send(n, o.delivered(w.target, n), o.reach(w.target, n)))
    ensures FilesSent(w, Apply(v, Send(n, o.delivered(w.target, n), o.reach(w.target, n))), names + {n}, o)
  {
    var delivered, reach := o.delivered(w.target, n), o.reach(w.target, n);
    SendOnFields(v, n, delivered, reach);
    FilesSentStep(w, v, Apply(v, Send(n, delivered, reach)), names, n, o);
  }

  lemma OneMorePushed(w: World, v: World, g: nat, names: set<string>, n: string, o: Outcomes)
    requires g < |w.groups| && FilesPushed(w, v, g, names, o) && |o.sync(g, n)| == |w.subs|
    requires Enabled(v, Push(g, n, Reached(o.sync(g, n))))
    ensures FilesPushed(w, Apply(v, Push(g, n, Reached(o.sync(g, n)))), g, names + {n}, o)
  {
    PushOnFields(v, g, n, o.sync(g, n));
    FilesPushedStep(w, v, Apply(v, Push(g, n, Reached(o.sync(g, n)))), g, names, n, o);
  }

  lemma {:induction false} SendsArrive(w: World, order: seq<string>, o: Outcomes)
    requires w.target < |w.groups| && IsRun(w, SendsOf(w.target, order, o)) && Fits(o, |w.subs|)
    ensures FilesSent(w, Exec(w, SendsOf(w.target, order, o)), NamesOf(order), o)
  {
    if order == [] {
      NothingSent(w, o);
    } else {
      var k, g := |order| - 1, w.target;
      var n, before := order[k], SendsOf(g, order[..k], o);
      var e := Send(n, o.delivered(g, n), o.reach(g, n));
      assert order == order[..k] + [n];
      SendsStep(g, order[..k], n, o);
      RunSplits(w, before, [e]);
      SendsArrive(w, order[..k], o);
      OneEvent(Exec(w, before), e);
      OneMoreSent(w, Exec(w, before), NamesOf(order[..k]), n, o);
      assert NamesOf(order) == NamesOf(order[..k]) + {n};
    }
  }

  lemma {:induction false} PushesArrive(w: World, g: nat, order: seq<string>, o: Outcomes)
    requires g < |w.groups| && IsRun(w, PushesOf(g, order, o)) && Fits(o, |w.subs|)
    ensures FilesPushed(w, Exec(w, PushesOf(g, order, o)), g, NamesOf(order), o)
  {
    if order == [] {
      NothingSent(w, o);
    } else {
      var k := |order| - 1;
      var n, before := order[k], PushesOf(g, order[..k], o);
      var e := Push(g, n, Reached(o.sync(g, n)));
      assert order == order[..k] + [n];
      PushesStep(g, order[..k], n, o);
      RunSplits(w, before, [e]);
      PushesArrive(w, g, order[..k], o);
      OneEvent(Exec(w, before), e);
      OneMorePushed(w, Exec(w, before), g, NamesOf(order[..k]), n, o);
      assert NamesOf(order) == NamesOf(order[..k]) + {n};
    }
  }

  /** Only an answering group's DST changes in a round: it gains exactly the delivered files of the
      window that main still had. */
  ghost predicate GroupsGain(w: World, w': World, r: Round, o: Outcomes) {
    && |w'.groups| == |w.groups|
    && forall j | 0 <= j < |w.groups| ::
         w'.groups[j].dst ==
         if r.Answered? && j == r.group
         then w.groups[j].dst + Only(w.main.afp, Arriving(w.main.afp.Keys * r.window, j, o)) else w.groups[j].dst
  }

  lemma RoundDelivers(w: World, r: Round, order: seq<string>, o: Outcomes)
    requires r.group < |w.groups| && IsRun(w, RoundEvents(r, order, o)) && Fits(o, |w.subs|)
    requires Lists(order, if r.Answered? then w.main.afp.Keys * r.window else {})
    ensures GroupsGain(w, Exec(w, RoundEvents(r, order, o)), r, o)
  {
    match r
    case Silent(_) =>
    case Unheard(g, hot) => OneEvent(w, Preconf(g, hot));
    case Answered(g, hot, window) =>
      RunSplits(w, [Preconf(g, hot)] + [Batch(g, window)], SendsOf(g, order, o));
      RunSplits(w, [Preconf(g, hot)], [Batch(g, window)]);
      OneEvent(w, Preconf(g, hot));
      OneEvent(Apply(w, Preconf(g, hot)), Batch(g, window));
      SendsArrive(Exec(w, [Preconf(g, hot)] + [Batch(g, window)]), order, o);
      SameNames(order, w.main.afp.Keys * window);
      SameShare(w.main.afp, window, Arriving(w.main.afp.Keys * window, g, o));
  }

  lemma SameShare(afp: Dir, window: set<string>, names: set<string>)
    requires names <= afp.Keys * window
    ensures Only(Only(afp, window), names) == Only(afp, names)
  {
  }

  lemma {:induction false} PushesKeepGroupDst(w: World, es: seq<Event>)
    requires IsRun(w, es) && forall e | e in es :: e.Push?
    ensures |Exec(w, es).groups| == |w.groups|
    ensures forall j | 0 <= j < |w.groups| :: Exec(w, es).groups[j].dst == w.groups[j].dst
    decreases |es|
  {
    if es != [] {
      assert es[0] in es;
      PushesKeepGroupDst(Apply(w, es[0]), es[1..]);
    }
  }

  /** The same for a line of the list, whatever is pushed behind it. */
  lemma LineDelivers(w: World, w': World, r: Round, order: seq<string>, turns: seq<Turn>, o: Outcomes)
    requires r.group < |w.groups| && LineRun(w, w', r, order, turns, o) && Fits(o, |w.subs|)
    ensures GroupsGain(w, w', r, o)
  {
    var es := RoundEvents(r, order, o);
    RunSplits(w, es, TurnEvents(Exec(w, es), turns, o));
    RoundDelivers(w, r, order, o);
    TurnsArePushes(Exec(w, es), turns, o);
    PushesKeepGroupDst(Exec(w, es), TurnEvents(Exec(w, es), turns, o));
  }

  // ---------------------------------------------------------------- the day

  /** A day of these rounds: exactly their events in their order, with the pushes of each turn
      between them, and in each round one send for every file that the window names and main has
      not handed out before. */
  ghost predicate DayRun(w: World, w': World, rounds: seq<Round>, orders: seq<seq<string>>,
                         turns: seq<seq<Turn>>, o: Outcomes)
  {
    && |orders| == |rounds| == |turns|
    && (forall i | 0 <= i < |rounds| :: Lists(orders[i], SentIn(w.main.afp, rounds, i)))
    && IsRun(w, DayEvents(w, rounds, orders, turns, o))
    && w' == Exec(w, DayEvents(w, rounds, orders, turns, o))
    && w'.main.afp == w.main.afp - HandedIn(rounds)
    && DayGains(w, w', rounds, o)
  }

  /** What is delivered to a group on a day: files that main sends in rounds with that group. */
  function GivenTo(afp: Dir, rounds: seq<Round>, g: nat, o: Outcomes): set<string> {
    set n | n in afp && exists i | 0 <= i < |rounds| ::
      rounds[i].Answered? && rounds[i].group == g && n in SentIn(afp, rounds, i) && o.delivered(g, n)
  }

  /** Each group's DST gains exactly that. */
  ghost predicate DayGains(w: World, w': World, rounds: seq<Round>, o: Outcomes) {
    && |w'.groups| == |w.groups|
    && forall g | 0 <= g < |w.groups| ::
         w'.groups[g].dst == w.groups[g].dst + Only(w.main.afp, GivenTo(w.main.afp, rounds, g, o))
  }

  lemma GivenStep(afp: Dir, rounds: seq<Round>, r: Round, g: nat, o: Outcomes)
    ensures GivenTo(afp, rounds + [r], g, o) ==
            GivenTo(afp, rounds, g, o) +
            if r.Answered? && r.group == g then Arriving((afp.Keys - HandedIn(rounds)) * r.window, g, o) else {}
  {
    var k := |rounds|;
    assert (rounds + [r])[..k] == rounds;
    forall i | 0 <= i < k
      ensures SentIn(afp, rounds + [r], i) == SentIn(afp, rounds, i)
    {
      assert (rounds + [r])[..i] == rounds[..i];
    }
    forall n | n in GivenTo(afp, rounds, g, o)
      ensures n in GivenTo(afp, rounds + [r], g, o)
    {
      var i :| 0 <= i < k && rounds[i].Answered? && rounds[i].group == g && n in SentIn(afp, rounds, i);
      assert (rounds + [r])[i] == rounds[i];
    }
    if r.Answered? && r.group == g {
      assert (rounds + [r])[k] == r && SentIn(afp, rounds + [r], k) == (afp.Keys - HandedIn(rounds)) * r.window;
    }
    forall n | n in GivenTo(afp, rounds + [r], g, o)
      ensures n in GivenTo(afp, rounds, g, o)
              || (r.Answered? && r.group == g && n in Arriving((afp.Keys - HandedIn(rounds)) * r.window, g, o))
    {
      var i :| 0 <= i <= k && (rounds + [r])[i].Answered? && (rounds + [r])[i].group == g
               && n in SentIn(afp, rounds + [r], i);
      if i < k {
        assert (rounds + [r])[i] == rounds[i];
      }
    }
  }

  lemma DayGainsStep(w: World, w': World, w'': World, rounds: seq<Round>, r: Round, o: Outcomes)
    requires DayGains(w, w', rounds, o) && GroupsGain(w', w'', r, o)
    requires w'.main.afp == w.main.afp - HandedIn(rounds)
    ensures DayGains(w, w'', rounds + [r], o)
  {
    var afp, gone := w.main.afp, HandedIn(rounds);
    forall g | 0 <= g < |w.groups|
      ensures w''.groups[g].dst == w.groups[g].dst + Only(afp, GivenTo(afp, rounds + [r], g, o))
    {
      GivenStep(afp, rounds, r, g, o);
      var given := GivenTo(afp, rounds, g, o);
      assert (afp - gone).Keys == afp.Keys - gone;
      if r.Answered? && r.group == g {
        GainMore(w.groups[g].dst, afp, gone, given, Arriving((afp.Keys - gone) * r.window, g, o));
      } else {
        assert given + {} == given;
      }
    }
  }

  lemma GainMore(d: Dir, afp: Dir, gone: set<string>, given: set<string>, more: set<string>)
    requires more !! gone
    ensures d + Only(afp, given) + Only(afp - gone, more) == d + Only(afp, given + more)
  {
  }

  lemma NothingPlayed(w: World, o: Outcomes)
    ensures DayRun(w, w, [], [], [], o)
  {
    forall g | 0 <= g < |w.groups|
      ensures w.groups[g].dst + Only(w.main.afp, GivenTo(w.main.afp, [], g, o)) == w.groups[g].dst
    {
      assert GivenTo(w.main.afp, [], g, o) == {};
      GainNothing(w.groups[g].dst, w.main.afp);
    }
  }

  lemma DayRunStep(w: World, w': World, w'': World, rounds: seq<Round>, orders: seq<seq<string>>,
                   turns: seq<seq<Turn>>, r: Round, order: seq<string>, more: seq<Turn>, o: Outcomes)
    requires DayRun(w, w', rounds, orders, turns, o) && r.group < |w'.groups|
    requires LineRun(w', w'', r, order, more, o) && GroupsGain(w', w'', r, o)
    ensures DayRun(w, w'', rounds + [r], orders + [order], turns + [more], o)
  {
    var n := |rounds|;
    assert (rounds + [r])[..n] == rounds && (orders + [order])[..n] == orders && (turns + [more])[..n] == turns;
    ExecAppend(w, DayEvents(w, rounds, orders, turns, o), LineEvents(w', r, order, more, o));
    LineStock(w', w'', r, order, more, o);
    DayGainsStep(w, w', w'', rounds, r, o);
    SentStep(w.main.afp, rounds, r);
    forall i | 0 <= i < n
      ensures SentIn(w.main.afp, rounds + [r], i) == SentIn(w.main.afp, rounds, i)
    {
      assert (rounds + [r])[..i] == rounds[..i];
    }
  }

  lemma SentStep(afp: Dir, rounds: seq<Round>, r: Round)
    ensures var rest := afp - HandedIn(rounds);
            && SentIn(afp, rounds + [r], |rounds|) == (if r.Answered? then rest.Keys * r.window else {})
            && afp - HandedIn(rounds + [r]) == (if r.Answered? then rest - r.window else rest)
  {
    assert (rounds + [r])[..|rounds|] == rounds;
    KeysLeft(afp, HandedIn(rounds), if r.Answered? then r.window else {});
  }

  lemma KeysLeft(afp: Dir, gone: set<string>, more: set<string>)
    ensures (afp - gone).Keys == afp.Keys - gone && afp - (gone + more) == (afp - gone) - more
    ensures (afp - gone) - {} == afp - gone
  {
  }

  // ---------------------------------------------------------------- days without a failure

  predicate AllTrue(bs: seq<bool>) {
    forall i | 0 <= i < |bs| :: bs[i]
  }

  /** The send loop is a run without a failure if and only if each of its files is delivered and
      deleted at every sub cache. */
  lemma SendsAreAllOkIff(w: World, g: nat, order: seq<string>, o: Outcomes)
    requires IsRun(w, SendsOf(g, order, o))
    ensures AllOkRun(w, SendsOf(g, order, o)) <==>
            forall n | n in order :: o.delivered(g, n) && AllTrue(o.reach(g, n))
  {
    var es := SendsOf(g, order, o);
    NoAsksAreClean(w, es);
    AllOkIff(w, es);
    if AllOkRun(w, es) {
      forall n | n in order
        ensures o.delivered(g, n) && AllTrue(o.reach(g, n))
      {
        var i :| 0 <= i < |order| && order[i] == n;
        assert es[i] in es;
      }
    }
  }

  /** The push loop is one if and only if each of its files reaches every sub cache. */
  lemma PushesAreAllOkIff(w: World, g: nat, order: seq<string>, o: Outcomes)
    requires IsRun(w, PushesOf(g, order, o)) && Fits(o, |w.subs|)
    ensures AllOkRun(w, PushesOf(g, order, o)) <==> forall n | n in order :: AllTrue(o.sync(g, n))
  {
    var es := PushesOf(g, order, o);
    NoAsksAreClean(w, es);
    AllOkIff(w, es);
    if AllOkRun(w, es) {
      forall n | n in order
        ensures AllTrue(o.sync(g, n))
      {
        var i :| 0 <= i < |order| && order[i] == n;
        assert es[i] in es;
        assert |o.sync(g, n)| == |w.subs|;
      }
    }
    if forall n | n in order :: AllTrue(o.sync(g, n)) {
      forall e | e in es
        ensures Succeeds(e, |w.subs|)
      {
        assert e.name in order && AllTrue(o.sync(g, e.name)) && |o.sync(g, e.name)| == |w.subs|;
      }
    }
  }

  lemma NoAsksAreClean(w: World, es: seq<Event>)
    requires IsRun(w, es) && forall e | e in es :: !e.Preconf?
    ensures CleanAsks(w, es)
  {
    forall g | 0 <= g < |w.groups|
      ensures Asks(es, g) == 0
    {
      NobodyAsked(es, g);
    }
    AskedOnceIsClean(w, es);
  }

  /** How often rounds ask a group. */
  function AsksIn(rounds: seq<Round>, g: nat): nat {
    if rounds == [] then 0
    else
      var r := rounds[|rounds| - 1];
      AsksIn(rounds[..|rounds| - 1], g) + if !r.Silent? && r.group == g then 1 else 0
  }

  lemma RoundAsks(r: Round, order: seq<string>, o: Outcomes, g: nat)
    ensures Asks(RoundEvents(r, order, o), g) == if !r.Silent? && r.group == g then 1 else 0
  {
    if r.Answered? {
      var rest := [Batch(r.group, r.window)] + SendsOf(r.group, order, o);
      assert RoundEvents(r, order, o) == [Preconf(r.group, r.hot)] + rest;
      NobodyAsked(rest, g);
    }
  }

  lemma LineAsks(w: World, r: Round, order: seq<string>, turns: seq<Turn>, o: Outcomes, g: nat)
    ensures Asks(LineEvents(w, r, order, turns, o), g) == if !r.Silent? && r.group == g then 1 else 0
  {
    var w' := After(w, RoundEvents(r, order, o));
    TurnsArePushes(w', turns, o);
    NobodyAsked(TurnEvents(w', turns, o), g);
    AsksAppend(RoundEvents(r, order, o), TurnEvents(w', turns, o), g);
    RoundAsks(r, order, o, g);
  }

  lemma {:induction false} DayAsks(w: World, rounds: seq<Round>, orders: seq<seq<string>>,
                                   turns: seq<seq<Turn>>, o: Outcomes, g: nat)
    requires |orders| == |rounds| == |turns|
    ensures Asks(DayEvents(w, rounds, orders, turns, o), g) == AsksIn(rounds, g)
  {
    if rounds != [] {
      var n := |rounds| - 1;
      var es := DayEvents(w, rounds[..n], orders[..n], turns[..n], o);
      DayAsks(w, rounds[..n], orders[..n], turns[..n], o, g);
      LineAsks(After(w, es), rounds[n], orders[n], turns[n], o, g);
      AsksAppend(es, LineEvents(After(w, es), rounds[n], orders[n], turns[n], o), g);
    }
  }

  /** If no RPC for a file fails and each asked group is asked once, with nothing left to push,
      then the whole day is a run of the kind that conserves fingerprints and keeps the replicas
      in agreement. */
  lemma DayIsAllOk(w: World, rounds: seq<Round>, orders: seq<seq<string>>, turns: seq<seq<Turn>>, o: Outcomes)
    requires |orders| == |rounds| == |turns| && IsRun(w, DayEvents(w, rounds, orders, turns, o))
    requires forall e | e in DayEvents(w, rounds, orders, turns, o) :: Succeeds(e, |w.subs|)
    requires forall g | 0 <= g < |w.groups| && AsksIn(rounds, g) > 0 :: AsksIn(rounds, g) == 1 && w.groups[g].left == {}
    ensures AllOkRun(w, DayEvents(w, rounds, orders, turns, o))
  {
    var es := DayEvents(w, rounds, orders, turns, o);
    forall g | 0 <= g < |w.groups|
      ensures Asks(es, g) == AsksIn(rounds, g)
    {
      DayAsks(w, rounds, orders, turns, o, g);
    }
    AskedOnceIsClean(w, es);
    AllOkIff(w, es);
  }

  /** Nothing fails, whatever the file. */
  ghost predicate AllGood(o: Outcomes) {
    forall g: nat, n: string :: o.delivered(g, n) && AllTrue(o.reach(g, n)) && AllTrue(o.sync(g, n))
  }

  lemma {:induction false} GoodTurnsSucceed(w: World, turns: seq<Turn>, o: Outcomes, subs: nat)
    requires AllGood(o) && Fits(o, subs)
    ensures forall e | e in TurnEvents(w, turns, o) :: Succeeds(e, subs)
    decreases |turns|
  {
    if turns != [] {
      var t, e := turns[0], TurnEvent(turns[0], o);
      assert |o.sync(t.group, t.name)| == subs && AllTrue(o.sync(t.group, t.name));
      GoodTurnsSucceed(if Enabled(w, e) then Apply(w, e) else w, turns[1..], o, subs);
    }
  }

  lemma GoodLineSucceeds(w: World, r: Round, order: seq<string>, turns: seq<Turn>, o: Outcomes, subs: nat)
    requires AllGood(o) && Fits(o, subs)
    ensures forall e | e in LineEvents(w, r, order, turns, o) :: Succeeds(e, subs)
  {
    GoodTurnsSucceed(After(w, RoundEvents(r, order, o)), turns, o, subs);
    forall e | e in SendsOf(r.group, order, o)
      ensures Succeeds(e, subs)
    {
      assert o.delivered(r.group, e.name) && AllTrue(o.reach(r.group, e.name));
    }
  }

  /** With such outcomes every event of a day and of the pushes behind it succeeds. */
  lemma {:induction false} GoodDaySucceeds(w: World, rounds: seq<Round>, orders: seq<seq<string>>,
                                           turns: seq<seq<Turn>>, o: Outcomes, subs: nat)
    requires |orders| == |rounds| == |turns| && AllGood(o) && Fits(o, subs)
    ensures forall e | e in DayEvents(w, rounds, orders, turns, o) :: Succeeds(e, subs)
  {
    if rounds != [] {
      var n := |rounds| - 1;
      var es := DayEvents(w, rounds[..n], orders[..n], turns[..n], o);
      GoodDaySucceeds(w, rounds[..n], orders[..n], turns[..n], o, subs);
      GoodLineSucceeds(After(w, es), rounds[n], orders[n], turns[n], o, subs);
    }
  }

  lemma {:induction false} GoodPushesSucceed(orders: seq<seq<string>>, o: Outcomes, subs: nat)
    requires AllGood(o) && Fits(o, subs)
    ensures forall e | e in AllPushes(orders, o) :: Succeeds(e, subs)
  {
    if orders != [] {
      var g := |orders| - 1;
      GoodPushesSucceed(orders[..g], o, subs);
      forall e | e in PushesOf(g, orders[g], o)
        ensures Succeeds(e, subs)
      {
        assert |o.sync(g, e.name)| == subs && AllTrue(o.sync(g, e.name));
      }
    }
  }
}
