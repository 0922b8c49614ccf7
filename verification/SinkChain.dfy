/** The chain of nodes between the virtual sink and the selected sink: which stages a preset starts, how they are
    linked, and how the chain moves to another sink or back (src/pipewire_router.cpp:1112-1216, :1604-1662, :1792-1901
    and :2001-2071). Everything the environment decides is asked of a `World`, question by question. */
module SinkChain {
  import opened Basics

  datatype Stage = Equalizer | Convolver | Limiter

  datatype Direction = In | Out

  datatype Channel = FL | FR | Other

  datatype Port = Port(id: nat, node: nat, portId: nat, direction: Direction, channel: Channel)

  datatype Link = Link(fromNode: nat, fromPort: nat, toNode: nat, toPort: nat)

  datatype Sink = Sink(id: nat, name: string, serial: nat)

  /** What the environment answers to its t-th question: which ports are registered, whether the thing just tried
      worked, and which streams currently target the selected sink. */
  datatype World = World(ports: nat -> seq<Port>, works: nat -> bool, streams: nat -> set<nat>)

  // Port matching

  function PortsOf(ports: seq<Port>, node: nat, direction: Direction): (r: seq<Port>)
    ensures forall p :: p in r <==> p in ports && p.node == node && p.direction == direction
  {
    if ports == [] then []
    else
      assert ports == [ports[0]] + ports[1..];
      (if ports[0].node == node && ports[0].direction == direction then [ports[0]] else [])
      + PortsOf(ports[1..], node, direction)
  }

  lemma NoPortsNoMatches(outs: seq<Port>, ins: seq<Port>)
    ensures outs == [] || ins == [] ==> Matches(outs, ins) == []
  {
    var r := Matches(outs, ins);
    assert r == [] || r[0] in r;
  }

  predicate AllStereo(ports: seq<Port>) {
    forall p :: p in ports ==> p.channel != Other
  }

  /** Ports are matched by channel when all of them name one, and by port number otherwise. */
  predicate Compatible(byChannel: bool, o: Port, i: Port) {
    if byChannel then o.channel == i.channel else o.portId == i.portId
  }

  function MatchesOf(byChannel: bool, o: Port, ins: seq<Port>): (r: seq<(Port, Port)>)
    ensures forall m :: m in r <==> m.0 == o && m.1 in ins && Compatible(byChannel, o, m.1)
  {
    if ins == [] then []
    else
      assert ins == [ins[0]] + ins[1..];
      (if Compatible(byChannel, o, ins[0]) then [(o, ins[0])] else []) + MatchesOf(byChannel, o, ins[1..])
  }

  function AllMatches(byChannel: bool, outs: seq<Port>, ins: seq<Port>): (r: seq<(Port, Port)>)
    ensures forall m :: m in r <==> m.0 in outs && m.1 in ins && Compatible(byChannel, m.0, m.1)
  {
    if outs == [] then []
    else
      assert outs == [outs[0]] + outs[1..];
      MatchesOf(byChannel, outs[0], ins) + AllMatches(byChannel, outs[1..], ins)
  }

  function Matches(outs: seq<Port>, ins: seq<Port>): seq<(Port, Port)> {
    AllMatches(AllStereo(outs) && AllStereo(ins), outs, ins)
  }

  /** As soon as one port names no stereo channel, ports are paired by their numbers. */
  lemma NumberedMatches(outs: seq<Port>, ins: seq<Port>, o: Port, i: Port)
    requires (exists p :: (p in outs || p in ins) && p.channel == Other) && o in outs && i in ins
    ensures (o, i) in Matches(outs, ins) <==> o.portId == i.portId
  {
  }

  /** One left and one right port, in either order. */
  predicate IsStereo(ports: seq<Port>) {
    |ports| == 2 && ((ports[0].channel.FL? && ports[1].channel.FR?) || (ports[0].channel.FR? && ports[1].channel.FL?))
  }

  /** The port of the same channel as `p`. */
  function Opposite(p: Port, ports: seq<Port>): (r: Port)
    requires IsStereo(ports)
    ensures r in ports && (p.channel != Other ==> r.channel == p.channel)
  {
    if ports[0].channel == p.channel then ports[0] else ports[1]
  }

  /** Between two stereo nodes there are two pairs and no others: left to left and right to right. */
  lemma StereoMatches(outs: seq<Port>, ins: seq<Port>)
    requires IsStereo(outs) && IsStereo(ins)
    ensures Matches(outs, ins) == [(outs[0], Opposite(outs[0], ins)), (outs[1], Opposite(outs[1], ins))]
  {
    assert AllStereo(outs) && AllStereo(ins);
    StereoMatchesOf(outs[0], ins);
    StereoMatchesOf(outs[1], ins);
    assert outs[1..] == [outs[1]] && outs[1..][1..] == [];
    assert AllMatches(true, outs[1..], ins) == MatchesOf(true, outs[1], ins) + [];
  }

  lemma StereoMatchesOf(o: Port, ins: seq<Port>)
    requires IsStereo(ins) && o.channel != Other
    ensures MatchesOf(true, o, ins) == [(o, Opposite(o, ins))]
  {
    assert ins[1..] == [ins[1]] && ins[1..][1..] == [];
    assert MatchesOf(true, o, ins[1..]) == if ins[1].channel == o.channel then [(o, ins[1])] else [];
  }

  // Chains

  /** All links of a hop run from one node to the other, and there is at least one. */
  ghost predicate Hop(links: seq<Link>, from: nat, to: nat) {
    links != [] && forall l :: l in links ==> l.fromNode == from && l.toNode == to
  }

  function LinksOf(from: nat, to: nat, pairs: seq<(Port, Port)>): (r: seq<Link>)
    ensures |r| == |pairs|
    ensures forall i :: 0 <= i < |r| ==> r[i] == Link(from, pairs[i].0.id, to, pairs[i].1.id)
  {
    seq(|pairs|, i requires 0 <= i < |pairs| => Link(from, pairs[i].0.id, to, pairs[i].1.id))
  }

  /** One link from the left port to the left one, one from the right to the right. */
  function StereoPair(from: nat, outs: seq<Port>, to: nat, ins: seq<Port>): seq<Link>
    requires IsStereo(outs) && IsStereo(ins)
  {
    [Link(from, outs[0].id, to, Opposite(outs[0], ins).id), Link(from, outs[1].id, to, Opposite(outs[1], ins).id)]
  }

  lemma StereoLinks(from: nat, outs: seq<Port>, to: nat, ins: seq<Port>)
    ensures IsStereo(outs) && IsStereo(ins) ==> LinksOf(from, to, Matches(outs, ins)) == StereoPair(from, outs, to, ins)
  {
    if IsStereo(outs) && IsStereo(ins) {
      StereoMatches(outs, ins);
      hide Matches;
      var pairs := Matches(outs, ins);
      assert |pairs| == 2;
    }
  }

  lemma LinksOfPairsHop(from: nat, to: nat, pairs: seq<(Port, Port)>)
    requires pairs != []
    ensures Hop(LinksOf(from, to, pairs), from, to)
  {
  }

  /** The links form the path: they split into one hop for each step of it, in order, with nothing left over. */
  ghost predicate IsChain(links: seq<Link>, path: seq<nat>)
    decreases |path|
  {
    if |path| <= 1 then links == []
    else
      var n := |path| - 1;
      exists k: nat :: k <= |links| && IsChain(links[..k], path[..n]) && Hop(links[k..], path[n - 1], path[n])
  }

  lemma ChainExtends(links: seq<Link>, path: seq<nat>, hop: seq<Link>, to: nat)
    requires path != [] && IsChain(links, path) && Hop(hop, path[|path| - 1], to)
    ensures IsChain(links + hop, path + [to])
  {
    var all := links + hop;
    assert all[..|links|] == links && all[|links|..] == hop;
    assert (path + [to])[..|path|] == path;
  }

  /** The links form a chain along the path, which ends at the node. */
  ghost predicate Reaches(links: seq<Link>, path: seq<nat>, node: nat) {
    path != [] && path[|path| - 1] == node && IsChain(links, path)
  }

  /** A chain has a link for every hop of its path. */
  lemma {:induction false} ChainVisitsPath(links: seq<Link>, path: seq<nat>, i: nat)
    requires IsChain(links, path) && i + 1 < |path|
    ensures exists l :: l in links && l.fromNode == path[i] && l.toNode == path[i + 1]
    decreases |path|
  {
    var n := |path| - 1;
    var k: nat :| k <= |links| && IsChain(links[..k], path[..n]) && Hop(links[k..], path[n - 1], path[n]);
    if i + 1 == n {
      assert links[k..][0] in links;
    } else {
      ChainVisitsPath(links[..k], path[..n], i);
      var l :| l in links[..k] && l.fromNode == path[..n][i] && l.toNode == path[..n][i + 1];
      assert l in links;
    }
  }

  /** No link of a chain leads anywhere but to the next node of the path. */
  lemma {:induction false} ChainHasNoOtherLinks(links: seq<Link>, path: seq<nat>, l: Link) returns (i: nat)
    requires IsChain(links, path) && l in links
    ensures i + 1 < |path| && l.fromNode == path[i] && l.toNode == path[i + 1]
    decreases |path|
  {
    var n := |path| - 1;
    var k: nat :| k <= |links| && IsChain(links[..k], path[..n]) && Hop(links[k..], path[n - 1], path[n]);
    var j :| 0 <= j < |links| && links[j] == l;
    if j < k {
      assert links[..k][j] == l;
      i := ChainHasNoOtherLinks(links[..k], path[..n], l);
    } else {
      assert links[k..][j - k] == l;
      i := n - 1;
    }
  }

  // Stages

  /** The nodes of the filters that exist. */
  datatype Filters = Filters(equalizer: Option<nat>, convolver: Option<nat>, limiter: Option<nat>)

  function NodeOf(f: Filters, s: Stage): Option<nat> {
    match s
    case Equalizer => f.equalizer
    case Convolver => f.convolver
    case Limiter => f.limiter
  }

  /** The node ids along the chain. A stage without a filter contributes nothing. */
  function StageNodes(order: seq<Stage>, f: Filters): seq<nat> {
    if order == [] then []
    else
      var last := NodeOf(f, order[|order| - 1]);
      StageNodes(order[..|order| - 1], f) + if last.Some? then [last.value] else []
  }

  /** The path through the first i stages. */
  function PathTo(virtualSink: nat, order: seq<Stage>, f: Filters, i: nat): seq<nat>
    requires i <= |order|
  {
    [virtualSink] + StageNodes(order[..i], f)
  }

  lemma PathGrows(virtualSink: nat, order: seq<Stage>, f: Filters, i: nat)
    requires i < |order|
    ensures var path, node := PathTo(virtualSink, order, f, i), NodeOf(f, order[i]);
            PathTo(virtualSink, order, f, i + 1) == if node.Some? then path + [node.value] else path
  {
    assert order[..i + 1][..i] == order[..i];
  }

  /** Among the first i stages there is no limiter without a filter. */
  ghost predicate LimiterRuns(order: seq<Stage>, f: Filters, i: nat)
    requires i <= |order|
  {
    Limiter in order[..i] ==> f.limiter.Some?
  }

  lemma LimiterStillRuns(order: seq<Stage>, f: Filters, i: nat)
    requires i < |order|
    ensures LimiterRuns(order, f, i + 1) <==> LimiterRuns(order, f, i) && (order[i].Limiter? ==> f.limiter.Some?)
  {
    assert order[..i + 1] == order[..i] + [order[i]];
  }

  lemma LimiterRunsAtEnd(order: seq<Stage>, f: Filters)
    ensures LimiterRuns(order, f, |order|) <==> (Limiter in order ==> f.limiter.Some?)
  {
    assert order[..|order|] == order;
  }

  lemma NothingLinked(virtualSink: nat, order: seq<Stage>, f: Filters)
    ensures Reaches([], PathTo(virtualSink, order, f, 0), virtualSink) && LimiterRuns(order, f, 0)
  {
    assert PathTo(virtualSink, order, f, 0) == [virtualSink];
  }

  lemma WholePath(links: seq<Link>, virtualSink: nat, order: seq<Stage>, f: Filters, sink: nat)
    requires Reaches(links, PathTo(virtualSink, order, f, |order|) + [sink], sink)
    ensures IsChain(links, ChainPath(virtualSink, order, f, sink))
  {
    hide IsChain;
    assert order[..|order|] == order;
    assert PathTo(virtualSink, order, f, |order|) + [sink] == ChainPath(virtualSink, order, f, sink);
  }

  function ChainPath(virtualSink: nat, order: seq<Stage>, f: Filters, sink: nat): seq<nat> {
    [virtualSink] + StageNodes(order, f) + [sink]
  }

  /** What the parser promises of a plugin order and its payloads. */
  ghost predicate ParsedOrder(order: seq<Stage>, hasConvolver: bool, hasLimiter: bool) {
    && Distinct(order)
    && Equalizer in order
    && (Convolver in order <==> hasConvolver)
    && (Limiter in order <==> hasLimiter)
  }

  ghost predicate EveryStageRuns(order: seq<Stage>, f: Filters) {
    Distinct(order) && forall s :: s in order <==> NodeOf(f, s).Some?
  }

  lemma {:induction false} NodesOfRunningStages(order: seq<Stage>, f: Filters)
    requires forall s :: s in order ==> NodeOf(f, s).Some?
    ensures |StageNodes(order, f)| == |order|
    ensures forall i :: 0 <= i < |order| ==> NodeOf(f, order[i]) == Some(StageNodes(order, f)[i])
  {
    if order != [] {
      var n := |order| - 1;
      assert order[n] in order;
      NodesOfRunningStages(order[..n], f);
    }
  }

  /** With different node ids everywhere the path visits no node twice. */
  lemma PathIsSimple(virtualSink: nat, order: seq<Stage>, f: Filters, sink: nat)
    requires EveryStageRuns(order, f) && virtualSink != sink
    requires forall s :: NodeOf(f, s).Some? ==> NodeOf(f, s).value != virtualSink && NodeOf(f, s).value != sink
    requires forall s, t :: NodeOf(f, s).Some? && s != t ==> NodeOf(f, s) != NodeOf(f, t)
    ensures Distinct(ChainPath(virtualSink, order, f, sink))
  {
    NodesOfRunningStages(order, f);
    var nodes := StageNodes(order, f);
    forall i | 0 <= i < |nodes| ensures nodes[i] != virtualSink && nodes[i] != sink {
      assert NodeOf(f, order[i]) == Some(nodes[i]);
    }
    forall i, j | 0 <= i < j < |nodes| ensures nodes[i] != nodes[j] {
      assert NodeOf(f, order[i]) == Some(nodes[i]) && NodeOf(f, order[j]) == Some(nodes[j]);
      assert order[i] != order[j];
    }
  }

  function Erase(order: seq<Stage>, s: Stage): (r: seq<Stage>)
    ensures forall t :: t in r <==> t in order && t != s
  {
    if order == [] then []
    else
      assert order == [order[0]] + order[1..];
      (if order[0] == s then [] else [order[0]]) + Erase(order[1..], s)
  }

  lemma {:induction false} EraseKeepsDistinct(order: seq<Stage>, s: Stage)
    requires Distinct(order)
    ensures Distinct(Erase(order, s))
  {
    if order != [] {
      var rest := Erase(order[1..], s);
      EraseKeepsDistinct(order[1..], s);
      assert order[0] !in rest by {
        assert order[0] !in order[1..];
      }
      forall i | 0 <= i < |rest| ensures rest[i] != order[0] {
        assert rest[i] in rest;
      }
    }
  }

  lemma {:induction false} EraseAbsent(order: seq<Stage>, s: Stage)
    requires s !in order
    ensures Erase(order, s) == order
  {
    if order != [] {
      EraseAbsent(order[1..], s);
    }
  }

  lemma {:induction false} EraseOnce(before: seq<Stage>, s: Stage, behind: seq<Stage>)
    requires s !in before && s !in behind
    ensures Erase(before + [s] + behind, s) == before + behind
  {
    var all := before + [s] + behind;
    if before == [] {
      assert all[1..] == behind;
      EraseAbsent(behind, s);
    } else {
      assert all[1..] == before[1..] + [s] + behind;
      EraseOnce(before[1..], s, behind);
    }
  }

  // When things work

  /** How many of the questions in a range are answered no. */
  function Refusals(w: World, from: nat, until: nat): nat {
    if until <= from then 0 else Refusals(w, from, until - 1) + if w.works(until - 1) then 0 else 1
  }

  lemma {:induction false} RefusalsAdd(w: World, from: nat, mid: nat, until: nat)
    requires from <= mid <= until
    ensures Refusals(w, from, until) == Refusals(w, from, mid) + Refusals(w, mid, until)
    decreases until
  {
    if until > mid {
      RefusalsAdd(w, from, mid, until - 1);
    }
  }

  lemma NothingAsked(w: World, q: nat)
    ensures Refusals(w, q, q) == 0
  {
  }

  lemma {:induction false} NothingRefused(w: World, from: nat, until: nat)
    requires forall q: nat :: from <= q < until ==> w.works(q)
    ensures Refusals(w, from, until) == 0
    decreases until
  {
    if until > from {
      NothingRefused(w, from, until - 1);
    }
  }

  /** Two nodes that have matching ports when question q asks for them. */
  predicate HasMatch(w: World, q: nat, output: nat, input: nat) {
    Matches(PortsOf(w.ports(q), output, Out), PortsOf(w.ports(q + 1), input, In)) != []
  }

  lemma MatchesOfHop(w: World, q: nat, output: nat, input: nat)
    ensures var outs, ins := PortsOf(w.ports(q), output, Out), PortsOf(w.ports(q + 1), input, In);
            && (HasMatch(w, q, output, input) <==> Matches(outs, ins) != [])
            && (outs == [] || ins == [] ==> Matches(outs, ins) == [])
  {
    NoPortsNoMatches(PortsOf(w.ports(q), output, Out), PortsOf(w.ports(q + 1), input, In));
  }

  ghost predicate Linkable(w: World, output: nat, input: nat) {
    forall q: nat :: HasMatch(w, q, output, input)
  }

  /** Every hop of the path has matching ports at all times. */
  ghost predicate AllLinkable(w: World, path: seq<nat>) {
    forall i, j :: 0 <= i < |path| && j == i + 1 < |path| ==> Linkable(w, path[i], path[j])
  }

  lemma LastHopIsLinkable(w: World, path: seq<nat>, node: nat)
    requires path != [] && AllLinkable(w, path + [node])
    ensures Linkable(w, path[|path| - 1], node)
  {
    assert (path + [node])[|path| - 1] == path[|path| - 1] && (path + [node])[|path|] == node;
  }

  lemma PrefixIsLinkable(w: World, path: seq<nat>, whole: seq<nat>)
    requires path <= whole && AllLinkable(w, whole)
    ensures AllLinkable(w, path)
  {
    forall i, j | 0 <= i < |path| && j == i + 1 < |path| ensures Linkable(w, path[i], path[j]) {
      assert path[i] == whole[i] && path[j] == whole[j];
    }
  }

  /** Nothing but refusals can keep the chain along this order from being connected. */
  ghost predicate Connectable(w: World, virtualSink: nat, order: seq<Stage>, f: Filters, sink: nat) {
    AllLinkable(w, ChainPath(virtualSink, order, f, sink)) && (Limiter in order ==> f.limiter.Some?)
  }

  lemma {:induction false} PathToIsPrefix(virtualSink: nat, order: seq<Stage>, f: Filters, i: nat, sink: nat)
    requires i <= |order|
    ensures PathTo(virtualSink, order, f, i) <= ChainPath(virtualSink, order, f, sink)
    decreases |order| - i
  {
    if i < |order| {
      PathToIsPrefix(virtualSink, order, f, i + 1, sink);
      PathGrows(virtualSink, order, f, i);
    } else {
      assert order[..i] == order;
    }
  }

  lemma StageIsConnectable(w: World, virtualSink: nat, order: seq<Stage>, f: Filters, i: nat, sink: nat)
    requires i <= |order| && Connectable(w, virtualSink, order, f, sink)
    ensures AllLinkable(w, PathTo(virtualSink, order, f, i)) && LimiterRuns(order, f, i)
  {
    hide AllLinkable, ChainPath, PathTo;
    PathToIsPrefix(virtualSink, order, f, i, sink);
    PrefixIsLinkable(w, PathTo(virtualSink, order, f, i), ChainPath(virtualSink, order, f, sink));
  }

  lemma SinkIsLinkable(w: World, virtualSink: nat, order: seq<Stage>, f: Filters, sink: nat, node: nat,
                       links: seq<Link>)
    requires Connectable(w, virtualSink, order, f, sink)
    requires Reaches(links, PathTo(virtualSink, order, f, |order|), node)
    ensures Linkable(w, node, sink)
  {
    hide AllLinkable, IsChain;
    var path := PathTo(virtualSink, order, f, |order|);
    assert order[..|order|] == order;
    assert path + [sink] == ChainPath(virtualSink, order, f, sink);
    LastHopIsLinkable(w, path, sink);
  }

  lemma StageIsLinkable(w: World, virtualSink: nat, order: seq<Stage>, f: Filters, i: nat, previous: nat,
                        links: seq<Link>)
    requires i < |order| && NodeOf(f, order[i]).Some? && AllLinkable(w, PathTo(virtualSink, order, f, i + 1))
    requires Reaches(links, PathTo(virtualSink, order, f, i), previous)
    ensures Linkable(w, previous, NodeOf(f, order[i]).value)
  {
    hide AllLinkable, IsChain, PathTo;
    PathGrows(virtualSink, order, f, i);
    LastHopIsLinkable(w, PathTo(virtualSink, order, f, i), NodeOf(f, order[i]).value);
  }

  /** The order that is started when nothing is refused. */
  function OrderToRun(order: seq<Stage>, convolver: bool): seq<Stage> {
    if convolver then order else Erase(order, Convolver)
  }

  /** The filters of the listed stages, on the nodes they get. */
  function Started(order: seq<Stage>, equalizerNode: nat, convolverNode: nat, limiterNode: nat): Filters {
    Filters(Some(equalizerNode), if Convolver in order then Some(convolverNode) else None,
            if Limiter in order then Some(limiterNode) else None)
  }

  datatype Outcome = Ignored | Switched | RolledBack | RollbackFailed

  class Router {
    const world: World
    var question: nat

    var order: seq<Stage>
    var filters: Filters
    /** The stages that apply the output volume. */
    var volumeOn: set<Stage>
    var virtualSink: nat
    var selectedSink: Sink
    var links: seq<Link>
    var patched: set<nat>
    var shuttingDown: bool

    constructor (world: World, order: seq<Stage>, sink: Sink, virtualSink: nat)
      ensures this.world == world && this.order == order && selectedSink == sink && this.virtualSink == virtualSink
      ensures filters == Filters(None, None, None) && volumeOn == {} && links == [] && patched == {}
      ensures question == 0 && !shuttingDown
    {
      this.world, this.order, selectedSink, this.virtualSink := world, order, sink, virtualSink;
      question, filters, volumeOn := 0, Filters(None, None, None), {};
      links, patched, shuttingDown := [], {}, false;
    }

    ghost function Path(): seq<nat>
      reads this
    {
      ChainPath(virtualSink, order, filters, selectedSink.id)
    }

    /** Whether the thing just tried worked. */
    method Ask() returns (works: bool)
      modifies this`question
      ensures works == world.works(old(question)) && question == old(question) + 1
      ensures Refusals(world, old(question), question) == if works then 0 else 1
    {
      works := world.works(question);
      question := question + 1;
    }

    /** Links two nodes port by port. On success the new links are one for each pair of matching ports; on failure the
        links made so far stay. */
    method LinkNodes(output: nat, input: nat) returns (ok: bool)
      modifies this`question, this`links
      ensures question >= old(question) + 2
      ensures ok <==> HasMatch(world, old(question), output, input) && Refusals(world, old(question) + 2, question) == 0
      ensures ok ==>
                var pairs := Matches(PortsOf(world.ports(old(question)), output, Out),
                                     PortsOf(world.ports(old(question) + 1), input, In));
                pairs != [] && links == old(links) + LinksOf(output, input, pairs)
      ensures var outs := PortsOf(world.ports(old(question)), output, Out);
              var ins := PortsOf(world.ports(old(question) + 1), input, In);
              ok && IsStereo(outs) && IsStereo(ins) ==>
                links == old(links) + StereoPair(output, outs, input, ins)
    {
      hide Matches, PortsOf, IsStereo, StereoPair, Refusals, LinksOf, HasMatch;
      MatchesOfHop(world, question, output, input);
      var outs := PortsOf(world.ports(question), output, Out);
      var ins := PortsOf(world.ports(question + 1), input, In);
      question := question + 2;
      NothingAsked(world, question);
      if outs == [] || ins == [] {
        return false;
      }
      var pairs := Matches(outs, ins);
      if pairs == [] {
        return false;
      }
      ok := CreateLinks(output, input, pairs);
      StereoLinks(output, outs, input, ins);
    }

    /** Creates one link for each pair, and stops at the first that is refused. */
    method CreateLinks(output: nat, input: nat, pairs: seq<(Port, Port)>) returns (ok: bool)
      modifies this`question, this`links
      ensures question >= old(question)
      ensures ok <==> Refusals(world, old(question), question) == 0
      ensures ok ==> links == old(links) + LinksOf(output, input, pairs)
    {
      hide Refusals;
      NothingAsked(world, question);
      for i := 0 to |pairs|
        invariant links == old(links) + LinksOf(output, input, pairs[..i])
        invariant question >= old(question) && Refusals(world, old(question), question) == 0
      {
        ghost var asked := question;
        var created := Ask();
        RefusalsAdd(world, old(question), asked, question);
        if !created {
          return false;
        }
        links := links + [Link(output, pairs[i].0.id, input, pairs[i].1.id)];
        assert LinksOf(output, input, pairs[..i + 1])
            == LinksOf(output, input, pairs[..i]) + [Link(output, pairs[i].0.id, input, pairs[i].1.id)];
      }
      assert pairs[..|pairs|] == pairs;
      ok := true;
    }

    /** `LinkNodes` as one more hop of a chain. */
    method ExtendChain(ghost path: seq<nat>, output: nat, input: nat) returns (ok: bool)
      requires Reaches(links, path, output)
      modifies this`question, this`links
      ensures ok ==> Reaches(links, path + [input], input)
      ensures question >= old(question)
      ensures Linkable(world, output, input) && Refusals(world, old(question), question) == 0 ==> ok
    {
      hide Matches, PortsOf, IsChain, HasMatch, Refusals;
      ghost var before, asked := links, question;
      ok := LinkNodes(output, input);
      RefusalsAdd(world, asked, asked + 2, question);
      assert Linkable(world, output, input) ==> HasMatch(world, asked, output, input);
      if ok {
        MatchesOfHop(world, asked, output, input);
        ghost var pairs := Matches(PortsOf(world.ports(asked), output, Out),
                                   PortsOf(world.ports(asked + 1), input, In));
        LinksOfPairsHop(output, input, pairs);
        ChainExtends(before, path, LinksOf(output, input, pairs), input);
      }
    }

    /** Links stage i to the path so far. A convolver without a filter is skipped; a limiter without one is an error. */
    method ConnectStage(i: nat, previous: nat) returns (ok: bool, last: nat)
      requires i < |order| && filters.equalizer.Some?
      requires Reaches(links, PathTo(virtualSink, order, filters, i), previous) && LimiterRuns(order, filters, i)
      modifies this`question, this`links
      ensures ok ==> Reaches(links, PathTo(virtualSink, order, filters, i + 1), last)
      ensures ok ==> LimiterRuns(order, filters, i + 1)
      ensures question >= old(question)
      ensures AllLinkable(world, PathTo(virtualSink, order, filters, i + 1)) && LimiterRuns(order, filters, i + 1)
              && Refusals(world, old(question), question) == 0 ==>
                ok
    {
      hide Reaches, PathTo, LimiterRuns, AllLinkable, Linkable, Refusals;
      PathGrows(virtualSink, order, filters, i);
      LimiterStillRuns(order, filters, i);
      var node := NodeOf(filters, order[i]);
      if order[i].Convolver? && node.None? {
        return true, previous;
      }
      if order[i].Limiter? && node.None? {
        return false, previous;
      }
      if AllLinkable(world, PathTo(virtualSink, order, filters, i + 1)) {
        StageIsLinkable(world, virtualSink, order, filters, i, previous, links);
      }
      ok := ExtendChain(PathTo(virtualSink, order, filters, i), previous, node.value);
      last := node.value;
    }

    /** Links the virtual sink through the stages in order to the selected sink. */
    method ConnectChain() returns (ok: bool)
      requires links == [] && filters.equalizer.Some?
      modifies this`question, this`links
      ensures ok ==> IsChain(links, Path()) && (Limiter in order ==> filters.limiter.Some?)
      ensures question >= old(question)
      ensures Connectable(world, virtualSink, order, filters, selectedSink.id)
              && Refusals(world, old(question), question) == 0 ==>
                ok
    {
      NothingLinked(virtualSink, order, filters);
      hide IsChain, Reaches, PathTo, ChainPath, LimiterRuns, Connectable, AllLinkable, Linkable, Refusals;
      NothingAsked(world, question);
      var previous := virtualSink;
      for i := 0 to |order|
        invariant Reaches(links, PathTo(virtualSink, order, filters, i), previous)
        invariant LimiterRuns(order, filters, i)
        invariant question >= old(question)
      {
        ghost var asked := question;
        ok, previous := ConnectStage(i, previous);
        RefusalsAdd(world, old(question), asked, question);
        if Connectable(world, virtualSink, order, filters, selectedSink.id) {
          StageIsConnectable(world, virtualSink, order, filters, i + 1, selectedSink.id);
        }
        if !ok {
          return;
        }
      }
      LimiterRunsAtEnd(order, filters);
      if Connectable(world, virtualSink, order, filters, selectedSink.id) {
        SinkIsLinkable(world, virtualSink, order, filters, selectedSink.id, previous, links);
      }
      ghost var asked := question;
      ok := ExtendChain(PathTo(virtualSink, order, filters, |order|), previous, selectedSink.id);
      RefusalsAdd(world, old(question), asked, question);
      if ok {
        WholePath(links, virtualSink, order, filters, selectedSink.id);
      }
    }

    method DestroyLinks()
      modifies this`links
      ensures links == []
    {
      links := [];
    }

    method ClearPatchedStreams()
      modifies this`patched
      ensures patched == {}
    {
      patched := {};
    }

    method PatchExistingStreams()
      modifies this`question, this`patched
      ensures patched == old(patched) + world.streams(old(question)) && question == old(question) + 1
    {
      patched := patched + world.streams(question);
      question := question + 1;
    }

    /** Connects and negotiates a fresh chain to the selected sink. */
    method Reconnect() returns (ok: bool)
      requires links == [] && filters.equalizer.Some?
      modifies this`question, this`links
      ensures ok ==> IsChain(links, Path()) && question > old(question) && world.works(question - 1)
      ensures question >= old(question)
      ensures Connectable(world, virtualSink, order, filters, selectedSink.id)
              && Refusals(world, old(question), question) == 0 ==>
                ok
    {
      hide Connectable, IsChain, Refusals;
      ok := ConnectChain();
      ghost var asked := question;
      if ok {
        ok := Ask();
        RefusalsAdd(world, old(question), asked, question);
      }
    }

    /** Moves the chain to another sink, whatever the links look like: also after a rollback that failed, so that a
        later switch repairs the chain. On return either the links form the full path to the recorded sink (the new
        one, or the old one after a rollback), or nothing was touched, or the rollback failed, the recorded sink is
        the old one, and no stream is patched. */
    method ReconnectToSink(found: Option<Sink>) returns (outcome: Outcome)
      requires filters.equalizer.Some?
      modifies this`question, this`links, this`selectedSink, this`patched
      ensures outcome.Switched? || outcome.RolledBack? ==> IsChain(links, Path())
      ensures outcome.Ignored? ==> links == old(links) && selectedSink == old(selectedSink) && patched == old(patched)
      ensures outcome.Ignored? && old(IsChain(links, Path())) ==> IsChain(links, Path())
      ensures outcome.Switched? ==> found == Some(selectedSink)
      ensures outcome.RolledBack? || outcome.RollbackFailed? ==> selectedSink == old(selectedSink)
      ensures outcome.RollbackFailed? ==> patched == {}
      ensures outcome.Ignored? <==> shuttingDown || found.None? || !world.works(old(question))
      ensures outcome.Switched? || outcome.RolledBack? ==>
                question >= old(question) + 2 && world.works(question - 2) && patched == world.streams(question - 1)
      ensures question >= old(question)
      ensures !outcome.Ignored? && Connectable(world, virtualSink, order, filters, found.value.id)
              && Refusals(world, old(question), question) == 0 ==>
                outcome.Switched?
      ensures outcome.RollbackFailed? && old(Connectable(world, virtualSink, order, filters, selectedSink.id)) ==>
                Refusals(world, old(question), question)
                >= if Connectable(world, virtualSink, order, filters, found.value.id) then 2 else 1
    {
      hide IsChain, Connectable, Refusals;
      if shuttingDown {
        NothingAsked(world, question);
        return Ignored;
      }
      if found.None? {
        NothingAsked(world, question);
        return Ignored;
      }
      var newSink := found.value;
      var hasPorts := Ask();
      if !hasPorts {
        return Ignored;
      }
      outcome := MoveTo(newSink);
      RefusalsAdd(world, old(question), old(question) + 1, question);
    }

    /** Tears the chain down and connects it to a sink that has ports; a chain that cannot be connected or negotiated
        goes back to the old sink. */
    method MoveTo(newSink: Sink) returns (outcome: Outcome)
      requires filters.equalizer.Some?
      modifies this`question, this`links, this`selectedSink, this`patched
      ensures !outcome.Ignored?
      ensures outcome.Switched? || outcome.RolledBack? ==> IsChain(links, Path())
      ensures selectedSink == if outcome.Switched? then newSink else old(selectedSink)
      ensures outcome.RollbackFailed? ==> patched == {}
      ensures outcome.Switched? || outcome.RolledBack? ==>
                question >= old(question) + 2 && world.works(question - 2) && patched == world.streams(question - 1)
      ensures question >= old(question)
      ensures Connectable(world, virtualSink, order, filters, newSink.id)
              && Refusals(world, old(question), question) == 0 ==>
                outcome.Switched?
      ensures outcome.RollbackFailed? && old(Connectable(world, virtualSink, order, filters, selectedSink.id)) ==>
                Refusals(world, old(question), question)
                >= if Connectable(world, virtualSink, order, filters, newSink.id) then 2 else 1
    {
      hide IsChain, Connectable, Refusals;
      var oldSink := selectedSink;
      ClearPatchedStreams();
      DestroyLinks();
      selectedSink := newSink;
      var connected := Reconnect();
      ghost var turned := question;
      if connected {
        PatchExistingStreams();
        outcome := Switched;
      } else {
        outcome := RollBack(oldSink);
      }
      RefusalsAdd(world, old(question), turned, question);
    }

    /** Drops what was linked to the new sink and tries to connect the old one again. */
    method RollBack(oldSink: Sink) returns (outcome: Outcome)
      requires filters.equalizer.Some? && patched == {}
      modifies this`question, this`links, this`selectedSink, this`patched
      ensures outcome.RolledBack? || outcome.RollbackFailed?
      ensures selectedSink == oldSink
      ensures outcome.RolledBack? ==> IsChain(links, Path())
      ensures outcome.RolledBack? ==>
                question >= old(question) + 2 && world.works(question - 2) && patched == world.streams(question - 1)
      ensures outcome.RollbackFailed? ==> patched == {}
      ensures question >= old(question)
      ensures Connectable(world, virtualSink, order, filters, oldSink.id)
              && Refusals(world, old(question), question) == 0 ==>
                outcome.RolledBack?
    {
      hide IsChain, Connectable, Refusals;
      DestroyLinks();
      selectedSink := oldSink;
      var restored := Reconnect();
      ghost var asked := question;
      outcome := RollbackFailed;
      if restored {
        PatchExistingStreams();
        outcome := RolledBack;
      }
      RefusalsAdd(world, old(question), asked, question);
    }

    /** What a successful start leaves: every listed stage runs, in the order that was parsed but for a convolver that
        cannot run; the links are the full path; exactly the last stage applies the volume; the sink was ready, the
        equalizer connected and the chain negotiated; the eligible streams are patched. */
    twostate predicate Running(convolver: bool, limiter: bool)
      reads this
    {
      && EveryStageRuns(order, filters) && Equalizer in order
      && (Limiter in order <==> limiter) && (Convolver in order ==> convolver)
      && order == (if Convolver in order then old(order) else Erase(old(order), Convolver))
      && IsChain(links, Path())
      && volumeOn == {order[|order| - 1]}
      && question > old(question) + 3 && world.works(old(question)) && world.works(old(question) + 1)
      && world.works(question - 2) && patched == world.streams(question - 1)
    }

    /** Chooses the stages to run, gives the volume to one of them, and connects the chain. `convolver` and `limiter`
        say which payloads the preset has; `disabled` is the environment switch, `resolved` whether the kernel file
        was found; the node ids are those the filters get. */
    method Start(convolver: bool, limiter: bool, disabled: bool, resolved: bool, equalizerNode: nat, convolverNode: nat,
                 limiterNode: nat)
      returns (ok: bool)
      requires ParsedOrder(order, convolver, limiter) && filters == Filters(None, None, None)
      requires links == [] && volumeOn == {} && patched == {}
      modifies this`question, this`order, this`filters, this`volumeOn, this`links, this`patched
      ensures ok ==> filters == Started(order, equalizerNode, convolverNode, limiterNode)
      ensures ok ==> Running(convolver && !disabled && resolved, limiter)
      ensures question >= old(question)
      ensures var expected := OrderToRun(old(order), convolver && !disabled && resolved);
              Refusals(world, old(question), question) == 0
              && Connectable(world, virtualSink, expected, Started(expected, equalizerNode, convolverNode, limiterNode),
                             selectedSink.id) ==>
                ok && order == expected
      ensures !ok ==> links == [] && patched == {} && filters == Filters(None, None, None)
    {
      ok := Launch(convolver, limiter, disabled, resolved, equalizerNode, convolverNode, limiterNode);
      if !ok {
        // stop()
        ClearPatchedStreams();
        DestroyLinks();
        filters := Filters(None, None, None);
      }
    }

    method Launch(convolver: bool, limiter: bool, disabled: bool, resolved: bool, equalizerNode: nat,
                  convolverNode: nat, limiterNode: nat)
      returns (ok: bool)
      requires ParsedOrder(order, convolver, limiter) && filters == Filters(None, None, None)
      requires links == [] && volumeOn == {} && patched == {}
      modifies this`question, this`order, this`filters, this`volumeOn, this`links, this`patched
      ensures ok ==> filters == Started(order, equalizerNode, convolverNode, limiterNode)
      ensures ok ==> Running(convolver && !disabled && resolved, limiter)
      ensures question >= old(question)
      ensures var expected := OrderToRun(old(order), convolver && !disabled && resolved);
              Refusals(world, old(question), question) == 0
              && Connectable(world, virtualSink, expected, Started(expected, equalizerNode, convolverNode, limiterNode),
                             selectedSink.id) ==>
                ok && order == expected
    {
      hide IsChain, Distinct, Erase, ChainPath, Connectable, Refusals, Started;
      NothingAsked(world, question);
      var useConvolver := convolver;
      if convolver && disabled {
        EraseKeepsDistinct(order, Convolver);
        order := Erase(order, Convolver);
        EraseAbsent(order, Convolver);
        useConvolver := false;
      }
      if !convolver {
        EraseAbsent(order, Convolver);
      }
      if order == [] {
        return false;
      }
      var sinkReady := Ask();
      if !sinkReady {
        return false;
      }
      ghost var asked := question;
      ok := StartFilters(useConvolver && resolved, limiter, equalizerNode, convolverNode, limiterNode);
      RefusalsAdd(world, old(question), asked, question);
      if !ok {
        return;
      }
      asked := question;
      ok := Finish();
      RefusalsAdd(world, old(question), asked, question);
    }

    /** Gives the volume to the last stage, connects the chain and patches the streams that play already. */
    method Finish() returns (ok: bool)
      requires EveryStageRuns(order, filters) && Equalizer in order
      requires links == [] && volumeOn == {} && patched == {}
      modifies this`question, this`volumeOn, this`links, this`patched
      ensures question > old(question)
      ensures ok ==> IsChain(links, Path()) && volumeOn == {order[|order| - 1]}
      ensures ok ==>
                question > old(question) + 2 && world.works(question - 2) && patched == world.streams(question - 1)
      ensures Connectable(world, virtualSink, order, filters, selectedSink.id)
              && Refusals(world, old(question), question) == 0 ==>
                ok
    {
      hide IsChain, Distinct, ChainPath, Connectable, Refusals;
      var portsReady := Ask();
      if !portsReady {
        return false;
      }
      AssignVolume();
      assert order[|order| - 1] in order;
      ghost var asked := question;
      ok := Reconnect();
      RefusalsAdd(world, old(question), old(question) + 1, asked);
      RefusalsAdd(world, old(question), asked, question);
      if ok {
        asked := question;
        PatchExistingStreams();
        RefusalsAdd(world, old(question), asked, question);
      }
    }

    /** Connects the filters; a convolver that cannot run is taken out of the order, a limiter that cannot run is
        fatal. */
    method StartFilters(convolver: bool, limiter: bool, equalizerNode: nat, convolverNode: nat, limiterNode: nat)
      returns (ok: bool)
      requires Distinct(order) && Equalizer in order && (Limiter in order <==> limiter)
      requires convolver ==> Convolver in order
      requires filters == Filters(None, None, None)
      modifies this`question, this`order, this`filters
      ensures ok ==> EveryStageRuns(order, filters) && Equalizer in order
      ensures ok ==> (Limiter in order <==> limiter) && (Convolver in order ==> convolver)
      ensures ok ==> order == if Convolver in order then old(order) else Erase(old(order), Convolver)
      ensures ok ==> filters == Started(order, equalizerNode, convolverNode, limiterNode)
      ensures question > old(question)
      ensures ok <==> world.works(old(question)) && (limiter ==> world.works(question - 1))
      ensures ok ==> (Convolver in order <==> convolver && world.works(old(question) + 1))
      ensures Refusals(world, old(question), question) == 0 ==> ok && order == OrderToRun(old(order), convolver)
    {
      hide Distinct, Refusals, Erase;
      var equalizerConnected := Ask();
      if !equalizerConnected {
        return false;
      }
      filters := filters.(equalizer := Some(equalizerNode));
      EraseKeepsDistinct(order, Convolver);
      if convolver {
        ghost var asked := question;
        var convolverConnected := Ask();
        RefusalsAdd(world, old(question), asked, question);
        if convolverConnected {
          filters := filters.(convolver := Some(convolverNode));
        } else {
          order := Erase(order, Convolver);
        }
      } else {
        order := Erase(order, Convolver);
      }
      if limiter {
        ghost var asked := question;
        var limiterConnected := Ask();
        RefusalsAdd(world, old(question), asked, question);
        if !limiterConnected {
          return false;
        }
        filters := filters.(limiter := Some(limiterNode));
      }
      ok := true;
    }

    /** Walks the order backwards to the first stage whose filter exists: the volume goes to the last running stage, and
        to no other. */
    method AssignVolume()
      requires volumeOn == {}
      modifies this`volumeOn
      ensures volumeOn == {} ==> forall i :: 0 <= i < |order| ==> NodeOf(filters, order[i]).None?
      ensures volumeOn != {} ==>
                exists i :: 0 <= i < |order| && volumeOn == {order[i]} && NodeOf(filters, order[i]).Some?
                  && forall k :: i < k < |order| ==> NodeOf(filters, order[k]).None?
    {
      var i := |order|;
      while i > 0
        invariant 0 <= i <= |order| && volumeOn == {}
        invariant forall k :: i <= k < |order| ==> NodeOf(filters, order[k]).None?
        decreases i
      {
        i := i - 1;
        if NodeOf(filters, order[i]).Some? {
          volumeOn := volumeOn + {order[i]};
          assert volumeOn == {order[i]};
          break;
        }
      }
    }
  }
}
