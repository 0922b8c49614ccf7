/** From a preset to a running chain: what is read is what is started (src/daemon_backend.cpp:33-55 and the two
    parsers). */
module PresetStart {
  import opened Basics
  import opened JsonTree
  import opened SinkChain
  import opened PresetCodec

  /** The node ids that the graph hands out. */
  datatype Nodes = Nodes(virtualSink: nat, equalizer: nat, convolver: nat, limiter: nat)

  predicate AllDifferent(n: Nodes, sink: nat) {
    |{n.virtualSink, n.equalizer, n.convolver, n.limiter, sink}| == 5
  }

  lemma StartedPathIsSimple(order: seq<Stage>, n: Nodes, sink: nat)
    requires AllDifferent(n, sink) && Equalizer in order
    requires EveryStageRuns(order, Started(order, n.equalizer, n.convolver, n.limiter))
    ensures Distinct(ChainPath(n.virtualSink, order, Started(order, n.equalizer, n.convolver, n.limiter), sink))
  {
    hide Distinct, ChainPath;
    assert n.virtualSink != sink && n.equalizer !in {n.virtualSink, sink}
           && n.convolver !in {n.virtualSink, sink, n.equalizer}
           && n.limiter !in {n.virtualSink, sink, n.equalizer, n.convolver} by {
      FiveDifferent(n.virtualSink, n.equalizer, n.convolver, n.limiter, sink);
    }
    PathIsSimple(n.virtualSink, order, Started(order, n.equalizer, n.convolver, n.limiter), sink);
  }

  lemma FiveDifferent(a: nat, b: nat, c: nat, d: nat, e: nat)
    requires |{a, b, c, d, e}| == 5
    ensures a != e && b != a && b != e && c != a && c != e && c != b && d != a && d != e && d != b && d != c
  {
  }

  /** Whatever preset file is accepted, a session that starts from it has one simple path of links from the virtual
      sink through the stages that run to the selected sink, the listed stages are those that run, in the order of the
      file, and the volume is applied on the last of them only. When nothing is refused and every hop has matching
      ports the session does start, with the convolver exactly if its payload, its kernel and the environment allow
      it. */
  method StartFile(t: Tables, j: Json, world: World, sink: Sink, n: Nodes, disabled: bool, resolved: bool)
    returns (r: Result<Router>)
    requires AllDifferent(n, sink.id)
    ensures r.Ok? ==> fresh(r.value) && Parse(t, j).Ok?
    ensures r.Ok? ==>
              var p, router := Parse(t, j).value, r.value;
              && (router.order == p.order || router.order == Erase(p.order, Convolver))
              && (Convolver in router.order ==> p.convolver.Some? && !disabled && resolved)
              && (Limiter in router.order <==> p.limiter.Some?)
              && EveryStageRuns(router.order, router.filters)
              && router.Path() == ChainPath(n.virtualSink, router.order, router.filters, sink.id)
              && IsChain(router.links, router.Path()) && Distinct(router.Path())
              && router.order != [] && router.volumeOn == {router.order[|router.order| - 1]}
    ensures Parse(t, j).Ok? && (forall q: nat :: world.works(q)) ==>
              var p := Parse(t, j).value;
              var expected := OrderToRun(p.order, p.convolver.Some? && !disabled && resolved);
              Connectable(world, n.virtualSink, expected,
                          Started(expected, n.equalizer, n.convolver, n.limiter), sink.id) ==>
                r.Ok? && r.value.order == expected
  {
    hide Parse, Distinct, IsChain, EveryStageRuns, ChainPath, Erase, AllDifferent, Connectable, Started, Refusals;
    var p :- ReadPreset(t, j);
    ParsedPresetIsWellFormed(t, j);
    var router := new Router(world, p.order, sink, n.virtualSink);
    var ok := router.Start(p.convolver.Some?, p.limiter.Some?, disabled, resolved, n.equalizer, n.convolver, n.limiter);
    if forall q: nat :: world.works(q) {
      NothingRefused(world, 0, router.question);
    }
    if !ok {
      return Err;
    }
    StartedPathIsSimple(router.order, n, sink.id);
    return Ok(router);
  }
}
