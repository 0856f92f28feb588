/** The exchange of fingerprint files between the main cache, the groups and the sub caches, as a
    transition system. Every RPC is one step; the pushes of the groups and the sends of the main
    cache interleave in any order, over any number of days. */
module Exchange {
  import opened Files

  /** The directories of the main cache or of a group, and which files of ORG are still to be
      sent by the thread that walks over it. */
  datatype Server = Server(afp: Dir, org: Dir, dst: Dir, left: set<string>)

  datatype Sub = Sub(afp: Dir, dst: Dir)

  datatype World = World(main: Server, groups: seq<Server>, subs: seq<Sub>, target: nat)

  datatype Event =
    | Preconf(group: nat, hot: set<string>)   // the group wipes ORG and moves its hot files there
    | Batch(group: nat, window: set<string>)  // main wipes ORG and moves one window there
    | Send(name: string, delivered: bool, deleted: seq<bool>)
      // main sends one file to the target group, then deletes it at the subs; RPCs may fail
    | Push(group: nat, name: string, reached: nat)
      // a group sends one file to main, whose handler reaches this many subs before an RPC fails

  /** Emptying ORG and renaming the named files of AFP into it. */
  function Load(s: Server, names: set<string>): Server {
    var moved := Only(s.afp, names);
    Server(s.afp - names, moved, s.dst, moved.Keys)
  }

  function Receive(s: Server, name: string, data: File): Server {
    s.(dst := s.dst[name := data])
  }

  function Sent(s: Server, name: string): Server {
    s.(left := s.left - {name})
  }

  predicate Enabled(w: World, e: Event) {
    match e
    case Preconf(g, _) => g < |w.groups|
    case Batch(g, _) => g < |w.groups| && w.main.left == {}  // one thread: the last batch is through
    case Send(n, _, del) => n in w.main.left && n in w.main.org && w.target < |w.groups| && |del| == |w.subs|
    case Push(g, n, r) => g < |w.groups| && n in w.groups[g].left && n in w.groups[g].org && r <= |w.subs|
  }

  function Apply(w: World, e: Event): World
    requires Enabled(w, e)
  {
    match e
    case Preconf(g, hot) => w.(groups := w.groups[g := Load(w.groups[g], hot)])
    case Batch(g, window) => w.(main := Load(w.main, window), target := g)
    case Send(n, ok, del) =>
      w.(main := Sent(w.main, n),
         groups := if ok then w.groups[w.target := Receive(w.groups[w.target], n, w.main.org[n])] else w.groups,
         subs := DeleteAt(w.subs, n, del))
    case Push(g, n, r) =>
      var data := w.groups[g].org[n];
      w.(main := if r > 0 then Receive(w.main, n, data) else w.main,
         groups := w.groups[g := Sent(w.groups[g], n)],
         subs := AddAt(w.subs, n, data, r))
  }

  function DeleteAt(subs: seq<Sub>, n: string, del: seq<bool>): (r: seq<Sub>)
    requires |del| == |subs|
    ensures |r| == |subs|
    ensures forall i | 0 <= i < |subs| :: r[i] == if del[i] then subs[i].(afp := subs[i].afp - {n}) else subs[i]
  {
    seq(|subs|, i requires 0 <= i < |subs| => if del[i] then subs[i].(afp := subs[i].afp - {n}) else subs[i])
  }

  function AddAt(subs: seq<Sub>, n: string, data: File, reached: nat): (r: seq<Sub>)
    ensures |r| == |subs|
    ensures forall i | 0 <= i < |subs| ::
              r[i] == if i < reached then subs[i].(dst := subs[i].dst[n := data]) else subs[i]
  {
    seq(|subs|, i requires 0 <= i < |subs| => if i < reached then subs[i].(dst := subs[i].dst[n := data]) else subs[i])
  }

  predicate IsRun(w: World, es: seq<Event>)
    decreases |es|
  {
    es == [] || (Enabled(w, es[0]) && IsRun(Apply(w, es[0]), es[1..]))
  }

  function Exec(w: World, es: seq<Event>): World
    requires IsRun(w, es)
    decreases |es|
  {
    if es == [] then w else Exec(Apply(w, es[0]), es[1..])
  }

  // ---------------------------------------------------------------- conservation

  /** In how many places of a server a file counts as held: a file in ORG counts while it is
      still to be sent; what is left in ORG afterwards is wiped by the next batch. */
  function Held(s: Server, n: string): nat {
    (if n in s.afp then 1 else 0) + (if n in s.dst then 1 else 0) + (if n in s.left then 1 else 0)
  }

  function HeldByGroups(gs: seq<Server>, n: string): nat {
    if gs == [] then 0 else HeldByGroups(gs[..|gs| - 1], n) + Held(gs[|gs| - 1], n)
  }

  function Copies(w: World, n: string): nat {
    Held(w.main, n) + HeldByGroups(w.groups, n)
  }

  /** The copies of n that a step loses: those that a group is told to wipe before it has sent
      them, one that is not delivered, and one that reaches no sub cache, for the main cache
      writes its own file only after the first of them. */
  function Lost(w: World, e: Event, n: string): nat
    requires Enabled(w, e)
  {
    match e
    case Preconf(g, _) => if n in w.groups[g].left then 1 else 0
    case Batch(_, _) => 0
    case Send(m, delivered, _) => if m == n && !delivered then 1 else 0
    case Push(_, m, reached) => if m == n && reached == 0 then 1 else 0
  }

  function LostIn(w: World, es: seq<Event>, n: string): nat
    requires IsRun(w, es)
    decreases |es|
  {
    if es == [] then 0 else Lost(w, es[0], n) + LostIn(Apply(w, es[0]), es[1..], n)
  }

  lemma {:induction false} HeldUpdate(gs: seq<Server>, i: nat, s: Server, n: string)
    requires i < |gs|
    ensures HeldByGroups(gs[i := s], n) == HeldByGroups(gs, n) - Held(gs[i], n) + Held(s, n)
    ensures Held(gs[i], n) <= HeldByGroups(gs, n)
  {
    var k := |gs| - 1;
    if i == k {
      assert gs[i := s][..k] == gs[..k];
    } else {
      assert gs[i := s][..k] == gs[..k][i := s];
      HeldUpdate(gs[..k], i, s, n);
    }
  }

  lemma StepConserves(w: World, e: Event, n: string)
    requires Enabled(w, e) && Copies(w, n) <= 1
    ensures Copies(Apply(w, e), n) + Lost(w, e, n) == Copies(w, n)
  {
    match e
    case Preconf(g, hot) => HeldUpdate(w.groups, g, Load(w.groups[g], hot), n);
    case Batch(_, _) =>
    case Send(m, _, _) => HeldUpdate(w.groups, w.target, Receive(w.groups[w.target], m, w.main.org[m]), n);
    case Push(g, m, _) => HeldUpdate(w.groups, g, Sent(w.groups[g], m), n);
  }

  /** Conservation over every run, with any failures: a file held once is held once or lost
      once, and nothing is doubled. */
  lemma {:induction false} RunConserves(w: World, es: seq<Event>, n: string)
    requires IsRun(w, es) && Copies(w, n) <= 1
    ensures Copies(Exec(w, es), n) + LostIn(w, es, n) == Copies(w, n)
    decreases |es|
  {
    if es != [] {
      StepConserves(w, es[0], n);
      RunConserves(Apply(w, es[0]), es[1..], n);
    }
  }

  /** Nothing is under way. */
  predicate Idle(w: World) {
    w.main.left == {} && forall i | 0 <= i < |w.groups| :: w.groups[i].left == {}
  }

  function ServerAt(w: World, i: nat): Server
    requires i <= |w.groups|
  {
    if i < |w.groups| then w.groups[i] else w.main
  }

  predicate Owns(s: Server, n: string) {
    n in s.afp || n in s.dst
  }

  /** One server has the file, in AFP or in DST but not in both, and no other server has it. */
  ghost predicate OneOwner(w: World, n: string) {
    exists i: nat | i <= |w.groups| ::
      && Owns(ServerAt(w, i), n) && !(n in ServerAt(w, i).afp && n in ServerAt(w, i).dst)
      && forall j: nat | j <= |w.groups| && j != i :: !Owns(ServerAt(w, j), n)
  }

  lemma {:induction false} HeldByNone(gs: seq<Server>, n: string)
    ensures HeldByGroups(gs, n) == 0 <==> forall i | 0 <= i < |gs| :: Held(gs[i], n) == 0
  {
    if gs != [] {
      var k := |gs| - 1;
      HeldByNone(gs[..k], n);
      assert forall i | 0 <= i < k :: gs[i] == gs[..k][i];
    }
  }

  lemma {:induction false} HeldByOne(gs: seq<Server>, n: string) returns (i: nat)
    requires HeldByGroups(gs, n) == 1
    ensures i < |gs| && Held(gs[i], n) == 1 && forall j | 0 <= j < |gs| && j != i :: Held(gs[j], n) == 0
  {
    var k := |gs| - 1;
    HeldByNone(gs[..k], n);
    if Held(gs[k], n) == 1 {
      i := k;
      assert forall j | 0 <= j < k :: gs[j] == gs[..k][j];
    } else {
      i := HeldByOne(gs[..k], n);
      assert forall j | 0 <= j < k :: gs[j] == gs[..k][j];
    }
  }

  lemma CopiesMeanOwner(w: World, n: string)
    requires Idle(w) && Copies(w, n) <= 1
    ensures OneOwner(w, n) <==> Copies(w, n) == 1
  {
    HeldByNone(w.groups, n);
    if Copies(w, n) == 1 {
      if HeldByGroups(w.groups, n) == 1 {
        var i := HeldByOne(w.groups, n);
        assert Owns(ServerAt(w, i), n);
      } else {
        assert Owns(ServerAt(w, |w.groups|), n);
      }
    }
  }

  /** At the end of every exchange, whatever fails in it: a fingerprint that one server owned is
      owned by exactly one server if and only if no step of the run lost it. */
  lemma OwnedOnceIffNeverLost(w: World, es: seq<Event>, n: string)
    requires Copies(w, n) == 1 && IsRun(w, es) && Idle(Exec(w, es))
    ensures OneOwner(Exec(w, es), n) <==> LostIn(w, es, n) == 0
  {
    RunConserves(w, es, n);
    CopiesMeanOwner(Exec(w, es), n);
  }

  /** All RPCs succeed, and a group has pushed everything before its next Preconf. */
  predicate AllOk(w: World, e: Event)
    requires Enabled(w, e)
  {
    match e
    case Preconf(g, _) => w.groups[g].left == {}
    case Batch(_, _) => true
    case Send(_, delivered, deleted) => delivered && forall i | 0 <= i < |deleted| :: deleted[i]
    case Push(_, _, reached) => reached == |w.subs|
  }

  predicate AllOkRun(w: World, es: seq<Event>)
    requires IsRun(w, es)
    decreases |es|
  {
    es == [] || (AllOk(w, es[0]) && AllOkRun(Apply(w, es[0]), es[1..]))
  }

  lemma {:induction false} NothingLost(w: World, es: seq<Event>, n: string)
    requires IsRun(w, es) && AllOkRun(w, es) && w.subs != []
    ensures LostIn(w, es, n) == 0
    decreases |es|
  {
    if es != [] {
      NothingLost(Apply(w, es[0]), es[1..], n);
    }
  }

  /** Fingerprint conservation: with a nonempty sub list, if every RPC succeeds and no group is
      asked again before its pushes are through, then under every interleaving each fingerprint
      ends at exactly one server, although ORG is wiped before each batch. */
  lemma FingerprintsAreConserved(w: World, es: seq<Event>, n: string)
    requires w.subs != [] && IsRun(w, es) && AllOkRun(w, es) && Idle(Exec(w, es))
    requires Copies(w, n) <= 1
    ensures Copies(w, n) == 1 ==> OneOwner(Exec(w, es), n)
    ensures Copies(w, n) == 0 ==> forall i: nat | i <= |Exec(w, es).groups| :: !Owns(ServerAt(Exec(w, es), i), n)
  {
    RunConserves(w, es, n);
    NothingLost(w, es, n);
    CopiesMeanOwner(Exec(w, es), n);
    HeldByNone(Exec(w, es).groups, n);
  }

  /** Without sub caches the main cache never writes what it is sent, although it answers OK:
      every pushed file is lost. */
  lemma WithoutSubsPushesAreLost(w: World, g: nat, n: string)
    requires w.subs == [] && Enabled(w, Push(g, n, 0)) && Copies(w, n) == 1
    ensures AllOk(w, Push(g, n, 0)) && Copies(Apply(w, Push(g, n, 0)), n) == 0
  {
    StepConserves(w, Push(g, n, 0), n);
  }

  // ---------------------------------------------------------------- contents

  predicate Genuine(d: Dir, data: Dir) {
    forall n | n in d :: n in data && d[n] == data[n]
  }

  predicate GenuineServer(s: Server, data: Dir) {
    Genuine(s.afp, data) && Genuine(s.org, data) && Genuine(s.dst, data) && s.left <= s.org.Keys
  }

  /** Every file of every directory has the contents that belong to its name. */
  predicate AllGenuine(w: World, data: Dir) {
    && GenuineServer(w.main, data)
    && (forall i | 0 <= i < |w.groups| :: GenuineServer(w.groups[i], data))
    && (forall i | 0 <= i < |w.subs| :: Genuine(w.subs[i].afp, data) && Genuine(w.subs[i].dst, data))
  }

  lemma {:induction false} ContentsAreKept(w: World, es: seq<Event>, data: Dir)
    requires AllGenuine(w, data) && IsRun(w, es)
    ensures AllGenuine(Exec(w, es), data)
    decreases |es|
  {
    if es != [] {
      StepKeepsContents(w, es[0], data);
      ContentsAreKept(Apply(w, es[0]), es[1..], data);
    }
  }

  lemma StepKeepsContents(w: World, e: Event, data: Dir)
    requires AllGenuine(w, data) && Enabled(w, e)
    ensures AllGenuine(Apply(w, e), data)
  {
  }

  // ---------------------------------------------------------------- replica agreement

  /** Each sub cache has main's received files, and main's own files together with those that are
      under way to a group and not yet deleted. */
  predicate Agree(w: World) {
    && w.main.left !! w.main.afp.Keys
    && forall i | 0 <= i < |w.subs| ::
         && w.subs[i].afp == w.main.afp + Only(w.main.org, w.main.left)
         && w.subs[i].dst == w.main.dst
  }

  lemma NothingUnderWay(d: Dir, org: Dir)
    ensures d + Only(org, {}) == d
  {
  }

  lemma StepKeepsAgreement(w: World, e: Event)
    requires w.subs != [] && Agree(w) && Enabled(w, e) && AllOk(w, e)
    ensures Agree(Apply(w, e)) && Apply(w, e).subs != []
  {
  }

  /** Replica agreement: if every sub cache agrees with main at first and all RPCs succeed, they
      agree after every sequence of exchanges, and with nothing under way both of their
      directories are main's. */
  lemma {:induction false} ReplicasAgree(w: World, es: seq<Event>)
    requires w.subs != [] && Agree(w) && IsRun(w, es) && AllOkRun(w, es)
    ensures Agree(Exec(w, es))
    ensures Exec(w, es).main.left == {} ==>
              forall i | 0 <= i < |Exec(w, es).subs| ::
                Exec(w, es).subs[i].afp == Exec(w, es).main.afp && Exec(w, es).subs[i].dst == Exec(w, es).main.dst
    decreases |es|
  {
    if es == [] {
      NothingUnderWay(w.main.afp, w.main.org);
    } else {
      StepKeepsAgreement(w, es[0]);
      ReplicasAgree(Apply(w, es[0]), es[1..]);
    }
  }

  // ---------------------------------------------------------------- runs one after the other

  /** The world after a run; where it is none, nothing happens. */
  function After(w: World, es: seq<Event>): World {
    if IsRun(w, es) then Exec(w, es) else w
  }

  lemma {:induction false} ExecAppend(w: World, es: seq<Event>, fs: seq<Event>)
    requires IsRun(w, es) && IsRun(Exec(w, es), fs)
    ensures IsRun(w, es + fs) && Exec(w, es + fs) == Exec(Exec(w, es), fs)
    decreases |es|
  {
    if es == [] {
      assert es + fs == fs;
    } else {
      assert (es + fs)[1..] == es[1..] + fs;
      ExecAppend(Apply(w, es[0]), es[1..], fs);
    }
  }

  lemma {:induction false} RunSplits(w: World, es: seq<Event>, fs: seq<Event>)
    requires IsRun(w, es + fs)
    ensures IsRun(w, es) && IsRun(Exec(w, es), fs) && Exec(w, es + fs) == Exec(Exec(w, es), fs)
    decreases |es|
  {
    if es == [] {
      assert es + fs == fs;
    } else {
      assert (es + fs)[1..] == es[1..] + fs;
      RunSplits(Apply(w, es[0]), es[1..], fs);
    }
  }

  // ---------------------------------------------------------------- runs without a failure

  /** No RPC of the event fails. */
  predicate Succeeds(e: Event, subs: nat) {
    match e
    case Preconf(_, _) => true
    case Batch(_, _) => true
    case Send(_, delivered, deleted) => delivered && forall i | 0 <= i < |deleted| :: deleted[i]
    case Push(_, _, reached) => reached == subs
  }

  /** Each Preconf finds a group that has pushed everything. */
  predicate CleanAsks(w: World, es: seq<Event>)
    requires IsRun(w, es)
    decreases |es|
  {
    es == [] || ((es[0].Preconf? ==> w.groups[es[0].group].left == {}) && CleanAsks(Apply(w, es[0]), es[1..]))
  }

  lemma {:induction false} AllOkIff(w: World, es: seq<Event>)
    requires IsRun(w, es)
    ensures AllOkRun(w, es) <==> (forall e | e in es :: Succeeds(e, |w.subs|)) && CleanAsks(w, es)
    decreases |es|
  {
    if es != [] {
      assert es[0] in es && forall e | e in es :: e == es[0] || e in es[1..];
      AllOkIff(Apply(w, es[0]), es[1..]);
    }
  }

  /** How often a group is asked. */
  function Asks(es: seq<Event>, g: nat): nat
    decreases |es|
  {
    if es == [] then 0 else (if es[0].Preconf? && es[0].group == g then 1 else 0) + Asks(es[1..], g)
  }

  lemma {:induction false} AsksAppend(es: seq<Event>, fs: seq<Event>, g: nat)
    ensures Asks(es + fs, g) == Asks(es, g) + Asks(fs, g)
    decreases |es|
  {
    if es == [] {
      assert es + fs == fs;
    } else {
      assert (es + fs)[1..] == es[1..] + fs;
      AsksAppend(es[1..], fs, g);
    }
  }

  lemma {:induction false} NobodyAsked(es: seq<Event>, g: nat)
    requires forall e | e in es :: !e.Preconf?
    ensures Asks(es, g) == 0
    decreases |es|
  {
    if es != [] {
      assert es[0] in es;
      NobodyAsked(es[1..], g);
    }
  }

  /** A group that is asked once, and has nothing to push at the start, is clean when asked. */
  lemma {:induction false} AskedOnceIsClean(w: World, es: seq<Event>)
    requires IsRun(w, es)
    requires forall g | 0 <= g < |w.groups| && Asks(es, g) > 0 :: Asks(es, g) == 1 && w.groups[g].left == {}
    ensures CleanAsks(w, es)
    decreases |es|
  {
    if es != [] {
      var w' := Apply(w, es[0]);
      if es[0].Preconf? {
        assert Asks(es, es[0].group) > 0;
      }
      forall g | 0 <= g < |w'.groups| && Asks(es[1..], g) > 0
        ensures Asks(es[1..], g) == 1 && w'.groups[g].left == {}
      {
        assert Asks(es, g) > 0;
      }
      AskedOnceIsClean(w', es[1..]);
    }
  }

  /** What is still to be sent is in ORG. */
  predicate Stocked(w: World) {
    w.main.left <= w.main.org.Keys && forall i | 0 <= i < |w.groups| :: w.groups[i].left <= w.groups[i].org.Keys
  }

  lemma {:induction false} RunKeepsStocked(w: World, es: seq<Event>)
    requires Stocked(w) && IsRun(w, es)
    ensures Stocked(Exec(w, es))
    decreases |es|
  {
    if es != [] {
      RunKeepsStocked(Apply(w, es[0]), es[1..]);
    }
  }

  lemma {:induction false} RunKeepsSize(w: World, es: seq<Event>)
    requires IsRun(w, es)
    ensures |Exec(w, es).groups| == |w.groups| && |Exec(w, es).subs| == |w.subs|
    decreases |es|
  {
    if es != [] {
      RunKeepsSize(Apply(w, es[0]), es[1..]);
    }
  }

  lemma ExecThen(w: World, es: seq<Event>, e: Event)
    requires IsRun(w, es) && Enabled(Exec(w, es), e)
    ensures IsRun(w, es + [e]) && Exec(w, es + [e]) == Apply(Exec(w, es), e)
  {
    assert [e][1..] == [];
    ExecAppend(w, es, [e]);
  }
}
