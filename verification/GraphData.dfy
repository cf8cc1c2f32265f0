/** The provenance graph: lineage responses folded into one deduplicated graph. */
module GraphData {
  import opened Common
  import opened KeyedLists

  datatype NodeData = NodeData(id: string, itemCategory: string, itemSubtype: string)

  datatype LinkData = LinkData(source: string, target: string, linkType: string)

  datatype Graph = Graph(nodes: seq<NodeData>, links: seq<LinkData>)

  const EmptyGraph := Graph([], [])

  function NodeKey(node: NodeData): string {
    node.id
  }

  /** One relation between two nodes at most. */
  function LinkKey(link: LinkData): (string, string) {
    (link.source, link.target)
  }

  function NodeKeys(g: Graph): set<string> {
    KeySet(g.nodes, NodeKey)
  }

  function LinkKeys(g: Graph): set<(string, string)> {
    KeySet(g.links, LinkKey)
  }

  // ----- merging two graphs -----

  function Merge(base: Graph, more: Graph): Graph {
    Graph(AppendNew(base.nodes, more.nodes, NodeKey), AppendNew(base.links, more.links, LinkKey))
  }

  method MergeGraphs(baseG: Graph, newG: Graph) returns (outputG: Graph)
    ensures outputG == Merge(baseG, newG)
  {
    var nodes, links := baseG.nodes, baseG.links;
    for i := 0 to |newG.nodes|
      invariant nodes == AppendNew(baseG.nodes, newG.nodes[..i], NodeKey)
    {
      var newNode := newG.nodes[i];
      var found := false;
      for j := 0 to |nodes|
        invariant !found && forall k :: 0 <= k < j ==> nodes[k].id != newNode.id
      {
        if newNode.id == nodes[j].id {
          found := true;
          break;
        }
      }
      AppendNext(baseG.nodes, newG.nodes, i, NodeKey, found);
      if !found {
        nodes := nodes + [newNode];
      }
    }
    assert newG.nodes[..|newG.nodes|] == newG.nodes;
    for i := 0 to |newG.links|
      invariant links == AppendNew(baseG.links, newG.links[..i], LinkKey)
    {
      var newLink := newG.links[i];
      var found := false;
      for j := 0 to |links|
        invariant !found && forall k :: 0 <= k < j ==> LinkKey(links[k]) != LinkKey(newLink)
      {
        if newLink.source == links[j].source && newLink.target == links[j].target {
          found := true;
          break;
        }
      }
      AppendNext(baseG.links, newG.links, i, LinkKey, found);
      if !found {
        links := links + [newLink];
      }
    }
    assert newG.links[..|newG.links|] == newG.links;
    outputG := Graph(nodes, links);
  }

  lemma MergeAssociative(a: Graph, b: Graph, c: Graph)
    ensures Merge(Merge(a, b), c) == Merge(a, Merge(b, c))
  {
    AppendNewAssociative(a.nodes, b.nodes, c.nodes, NodeKey);
    AppendNewAssociative(a.links, b.links, c.links, LinkKey);
  }

  /** The base is a prefix of the result, the keys are those of both sides, and none becomes a duplicate. */
  lemma MergeExtends(base: Graph, more: Graph)
    ensures base.nodes <= Merge(base, more).nodes && base.links <= Merge(base, more).links
    ensures NodeKeys(Merge(base, more)) == NodeKeys(base) + NodeKeys(more)
    ensures LinkKeys(Merge(base, more)) == LinkKeys(base) + LinkKeys(more)
  {
    AppendNewKeys(base.nodes, more.nodes, NodeKey);
    AppendNewKeys(base.links, more.links, LinkKey);
  }

  // ----- the graph derived from all responses -----

  function Derived(responses: seq<Graph>): Graph {
    if responses == [] then EmptyGraph
    else Merge(Derived(responses[..|responses| - 1]), responses[|responses| - 1])
  }

  function AllNodes(responses: seq<Graph>): seq<NodeData> {
    if responses == [] then [] else AllNodes(responses[..|responses| - 1]) + responses[|responses| - 1].nodes
  }

  function AllLinks(responses: seq<Graph>): seq<LinkData> {
    if responses == [] then [] else AllLinks(responses[..|responses| - 1]) + responses[|responses| - 1].links
  }

  /** The derived graph is the concatenation of all responses with only first occurrences kept. */
  lemma {:induction false} DerivedIsFirstOccurrences(responses: seq<Graph>)
    ensures Derived(responses).nodes == NewOnes({}, AllNodes(responses), NodeKey)
    ensures Derived(responses).links == NewOnes({}, AllLinks(responses), LinkKey)
    decreases |responses|
  {
    if responses != [] {
      var init, last := responses[..|responses| - 1], responses[|responses| - 1];
      DerivedIsFirstOccurrences(init);
      FirstOccurrencesOfSum(AllNodes(init), last.nodes, NodeKey);
      FirstOccurrencesOfSum(AllLinks(init), last.links, LinkKey);
    }
  }

  lemma DerivedIsDistinct(responses: seq<Graph>)
    ensures Distinct(KeySeq(Derived(responses).nodes, NodeKey))
    ensures Distinct(KeySeq(Derived(responses).links, LinkKey))
  {
    DerivedIsFirstOccurrences(responses);
    NewOnesDistinct({}, AllNodes(responses), NodeKey);
    NewOnesDistinct({}, AllLinks(responses), LinkKey);
  }

  /** A key is in the derived graph exactly when some response has it, in whatever order they came. */
  lemma {:induction false} DerivedKeys(responses: seq<Graph>)
    ensures forall id :: id in NodeKeys(Derived(responses)) <==> exists r :: r in responses && id in NodeKeys(r)
    ensures forall k :: k in LinkKeys(Derived(responses)) <==> exists r :: r in responses && k in LinkKeys(r)
    decreases |responses|
  {
    if responses != [] {
      var init, last := responses[..|responses| - 1], responses[|responses| - 1];
      DerivedKeys(init);
      MergeExtends(Derived(init), last);
      assert responses == init + [last];
      assert forall r :: r in responses <==> r in init || r == last;
    }
  }

  lemma OrderDoesNotMatter(a: seq<Graph>, b: seq<Graph>)
    requires multiset(a) == multiset(b)
    ensures NodeKeys(Derived(a)) == NodeKeys(Derived(b)) && LinkKeys(Derived(a)) == LinkKeys(Derived(b))
  {
    DerivedKeys(a);
    DerivedKeys(b);
    assert forall r :: r in a <==> r in multiset(a);
    assert forall r :: r in b <==> r in multiset(b);
  }

  // ----- the hook: expansions and cached responses -----

  datatype QueryType =
    | ExploreUpstream
    | ExploreDownstream
    | DownstreamDataset
    | UpstreamDataset
    | DownstreamAgent
    | UpstreamAgent

  datatype Expansion = Expansion(id: string, query: QueryType)

  /** A lineage response may come without a graph. */
  datatype LineageResponse = LineageResponse(graph: Option<Graph>)

  type Cache = map<Expansion, LineageResponse>

  function GraphOf(response: LineageResponse): Graph {
    match response.graph
    case Some(g) => g
    case None => EmptyGraph
  }

  /** The graphs of the expansions that have been answered, in the order of the expansions. */
  function Loaded(queried: seq<Expansion>, cache: Cache): seq<Graph> {
    if queried == [] then []
    else
      var init, last := queried[..|queried| - 1], queried[|queried| - 1];
      Loaded(init, cache) + if last in cache then [GraphOf(cache[last])] else []
  }

  function Appended(queried: seq<Expansion>, id: string, types: seq<QueryType>): seq<Expansion> {
    queried + seq(|types|, i requires 0 <= i < |types| => Expansion(id, types[i]))
  }

  function DefaultExpanded(rootId: string): seq<Expansion> {
    [Expansion(rootId, ExploreUpstream), Expansion(rootId, ExploreDownstream)]
  }

  /** `queried` is what the current render closed over, `pending` what the next render will use; loaded
      responses never go stale. */
  datatype Hook = Hook(queried: seq<Expansion>, pending: Option<seq<Expansion>>, cache: Cache)

  datatype HookEvent =
    | Rerender
    | Expand(id: string, types: seq<QueryType>)
    | Answer(expansion: Expansion, response: LineageResponse)
    | Reset(rootId: string)

  function Next(h: Hook, event: HookEvent): Hook {
    match event
    case Rerender => if h.pending.Some? then h.(queried := h.pending.value, pending := None) else h
    case Expand(id, types) => h.(pending := Some(Appended(h.queried, id, types)))
    case Answer(expansion, response) =>
      if expansion in h.cache then h else h.(cache := h.cache[expansion := response])
    case Reset(rootId) => h.(pending := Some(DefaultExpanded(rootId)))
  }

  function Shown(h: Hook): Graph {
    Derived(Loaded(h.queried, h.cache))
  }

  // ----- what has been answered, without the fold -----

  /** An expansion has been answered with a graph. */
  predicate Answered(cache: Cache, e: Expansion) {
    e in cache && cache[e].graph.Some?
  }

  /** The nodes of all answers, one after the other. */
  function AnsweredNodes(queried: seq<Expansion>, cache: Cache): seq<NodeData> {
    if queried == [] then []
    else
      var init, last := queried[..|queried| - 1], queried[|queried| - 1];
      AnsweredNodes(init, cache) + if Answered(cache, last) then cache[last].graph.value.nodes else []
  }

  function AnsweredLinks(queried: seq<Expansion>, cache: Cache): seq<LinkData> {
    if queried == [] then []
    else
      var init, last := queried[..|queried| - 1], queried[|queried| - 1];
      AnsweredLinks(init, cache) + if Answered(cache, last) then cache[last].graph.value.links else []
  }

  predicate HasNode(nodes: seq<NodeData>, id: string) {
    exists i :: 0 <= i < |nodes| && nodes[i].id == id
  }

  predicate HasLink(links: seq<LinkData>, source: string, target: string) {
    exists i :: 0 <= i < |links| && links[i].source == source && links[i].target == target
  }

  ghost predicate SomeAnswerHasNode(queried: seq<Expansion>, cache: Cache, id: string) {
    exists e :: e in queried && Answered(cache, e) && HasNode(cache[e].graph.value.nodes, id)
  }

  ghost predicate SomeAnswerHasLink(queried: seq<Expansion>, cache: Cache, source: string, target: string) {
    exists e :: e in queried && Answered(cache, e) && HasLink(cache[e].graph.value.links, source, target)
  }

  lemma {:induction false} LoadedIsAnswered(queried: seq<Expansion>, cache: Cache)
    ensures AllNodes(Loaded(queried, cache)) == AnsweredNodes(queried, cache)
    ensures AllLinks(Loaded(queried, cache)) == AnsweredLinks(queried, cache)
    decreases |queried|
  {
    if queried != [] {
      var init, last := queried[..|queried| - 1], queried[|queried| - 1];
      LoadedIsAnswered(init, cache);
      var before := Loaded(init, cache);
      if last in cache {
        assert (before + [GraphOf(cache[last])])[..|before|] == before;
      } else {
        assert before + [] == before;
      }
    }
  }

  lemma {:induction false} AnsweredNodesAre(queried: seq<Expansion>, cache: Cache, id: string)
    ensures HasNode(AnsweredNodes(queried, cache), id) <==> SomeAnswerHasNode(queried, cache, id)
    decreases |queried|
  {
    if queried != [] {
      var init, last := queried[..|queried| - 1], queried[|queried| - 1];
      AnsweredNodesAre(init, cache, id);
      assert queried == init + [last];
      assert forall e :: e in queried <==> e in init || e == last;
      HasNodeInSum(AnsweredNodes(init, cache), if Answered(cache, last) then cache[last].graph.value.nodes else [], id);
    }
  }

  lemma HasNodeInSum(a: seq<NodeData>, b: seq<NodeData>, id: string)
    ensures HasNode(a + b, id) <==> HasNode(a, id) || HasNode(b, id)
  {
    if i :| 0 <= i < |a| && a[i].id == id { assert (a + b)[i].id == id; }
    if i :| 0 <= i < |b| && b[i].id == id { assert (a + b)[|a| + i].id == id; }
  }

  lemma {:induction false} AnsweredLinksAre(queried: seq<Expansion>, cache: Cache, source: string, target: string)
    ensures HasLink(AnsweredLinks(queried, cache), source, target) <==>
            SomeAnswerHasLink(queried, cache, source, target)
    decreases |queried|
  {
    if queried != [] {
      var init, last := queried[..|queried| - 1], queried[|queried| - 1];
      AnsweredLinksAre(init, cache, source, target);
      assert queried == init + [last];
      assert forall e :: e in queried <==> e in init || e == last;
      HasLinkInSum(AnsweredLinks(init, cache), if Answered(cache, last) then cache[last].graph.value.links else [],
                   source, target);
    }
  }

  lemma HasLinkInSum(a: seq<LinkData>, b: seq<LinkData>, source: string, target: string)
    ensures HasLink(a + b, source, target) <==> HasLink(a, source, target) || HasLink(b, source, target)
  {
    if i :| 0 <= i < |a| && a[i].source == source && a[i].target == target { assert (a + b)[i] == a[i]; }
    if i :| 0 <= i < |b| && b[i].source == source && b[i].target == target { assert (a + b)[|a| + i] == b[i]; }
  }

  lemma FirstOnesHaveAll(nodes: seq<NodeData>, links: seq<LinkData>)
    ensures forall id :: HasNode(NewOnes({}, nodes, NodeKey), id) <==> HasNode(nodes, id)
    ensures forall a, b :: HasLink(NewOnes({}, links, LinkKey), a, b) <==> HasLink(links, a, b)
  {
    NewOnesKeys({}, nodes, NodeKey);
    NewOnesKeys({}, links, LinkKey);
    forall items: seq<NodeData>, id ensures HasNode(items, id) <==> id in KeySet(items, NodeKey) {
      if i :| 0 <= i < |items| && items[i].id == id { assert NodeKey(items[i]) == id; }
    }
    forall items: seq<LinkData>, a, b ensures HasLink(items, a, b) <==> (a, b) in KeySet(items, LinkKey) {
      if i :| 0 <= i < |items| && items[i].source == a && items[i].target == b { assert LinkKey(items[i]) == (a, b); }
    }
    assert forall s: set<string> :: s - {} == s;
    assert forall s: set<(string, string)> :: s - {} == s;
  }

  /** What is shown, in terms of the answers: the first occurrences in all of them one after the other, and so every
      node id and pair of link ends that some answer has. */
  lemma ShownIsAnswered(h: Hook)
    ensures Shown(h).nodes == NewOnes({}, AnsweredNodes(h.queried, h.cache), NodeKey)
    ensures Shown(h).links == NewOnes({}, AnsweredLinks(h.queried, h.cache), LinkKey)
    ensures forall id :: HasNode(Shown(h).nodes, id) <==> SomeAnswerHasNode(h.queried, h.cache, id)
    ensures forall a, b :: HasLink(Shown(h).links, a, b) <==> SomeAnswerHasLink(h.queried, h.cache, a, b)
  {
    DerivedIsFirstOccurrences(Loaded(h.queried, h.cache));
    LoadedIsAnswered(h.queried, h.cache);
    FirstOnesHaveAll(AnsweredNodes(h.queried, h.cache), AnsweredLinks(h.queried, h.cache));
    forall id ensures HasNode(AnsweredNodes(h.queried, h.cache), id) <==> SomeAnswerHasNode(h.queried, h.cache, id) {
      AnsweredNodesAre(h.queried, h.cache, id);
    }
    forall a, b
      ensures HasLink(AnsweredLinks(h.queried, h.cache), a, b) <==> SomeAnswerHasLink(h.queried, h.cache, a, b)
    {
      AnsweredLinksAre(h.queried, h.cache, a, b);
    }
  }

  lemma OneMoreDerived(queried: seq<Expansion>, cache: Cache, i: nat)
    requires i < |queried|
    ensures Derived(Loaded(queried[..i + 1], cache)) ==
            var init := Derived(Loaded(queried[..i], cache));
            if queried[i] in cache then Merge(init, GraphOf(cache[queried[i]])) else init
  {
    var before := Loaded(queried[..i], cache);
    assert queried[..i + 1][..i] == queried[..i];
    if queried[i] in cache {
      assert (before + [GraphOf(cache[queried[i]])])[..|before|] == before;
    } else {
      assert before + [] == before;
    }
  }

  class ProvGraphData {
    const rootId: string
    var queriedNodes: seq<Expansion>
    var pending: Option<seq<Expansion>>
    var cache: Cache
    var focusNodeId: Option<string>
    var hoverId: Option<string>
    var upstreamExpansion: bool
    var downstreamExpansion: bool

    function View(): Hook
      reads this
    {
      Hook(queriedNodes, pending, cache)
    }

    constructor (rootId: string)
      ensures this.rootId == rootId && pending == None && cache == map[]
      ensures queriedNodes == [Expansion(rootId, ExploreUpstream), Expansion(rootId, ExploreDownstream)]
    {
      this.rootId := rootId;
      queriedNodes, pending, cache := DefaultExpanded(rootId), None, map[];
      focusNodeId, hoverId, upstreamExpansion, downstreamExpansion := None, None, true, true;
    }

    method Render()
      modifies this`queriedNodes, this`pending
      ensures View() == Next(old(View()), Rerender)
      ensures pending == None
      ensures queriedNodes == if old(pending).Some? then old(pending).value else old(queriedNodes)
    {
      if pending.Some? {
        queriedNodes, pending := pending.value, None;
      }
    }

    method ResetGraph()
      modifies this
      ensures View() == Next(old(View()), Reset(rootId))
      ensures pending == Some([Expansion(rootId, ExploreUpstream), Expansion(rootId, ExploreDownstream)])
      ensures queriedNodes == old(queriedNodes) && cache == old(cache)
      ensures focusNodeId == None && hoverId == None && upstreamExpansion && downstreamExpansion
    {
      pending := Some(DefaultExpanded(rootId));
      focusNodeId, hoverId := None, None;
      upstreamExpansion, downstreamExpansion := true, true;
    }

    method AddNodeQuery(id: string, types: seq<QueryType>)
      modifies this`pending
      ensures View() == Next(old(View()), Expand(id, types))
      ensures pending.Some? && |pending.value| == |queriedNodes| + |types|
      ensures forall i :: 0 <= i < |queriedNodes| ==> pending.value[i] == queriedNodes[i]
      ensures forall i :: 0 <= i < |types| ==> pending.value[|queriedNodes| + i] == Expansion(id, types[i])
    {
      var newList := queriedNodes;
      for i := 0 to |types|
        invariant newList == Appended(queriedNodes, id, types[..i])
      {
        newList := newList + [Expansion(id, types[i])];
      }
      assert types[..|types|] == types;
      pending := Some(newList);
    }

    /** A response arrives; what has been loaded is kept. */
    method Arrive(expansion: Expansion, response: LineageResponse)
      modifies this`cache
      ensures View() == Next(old(View()), Answer(expansion, response))
      ensures cache == if expansion in old(cache) then old(cache) else old(cache)[expansion := response]
    {
      if expansion !in cache {
        cache := cache[expansion := response];
      }
    }

    method DeriveGraphState() returns (cumulativeGraph: Graph)
      ensures cumulativeGraph == Shown(View())
      ensures cumulativeGraph.nodes == NewOnes({}, AnsweredNodes(queriedNodes, cache), NodeKey)
      ensures cumulativeGraph.links == NewOnes({}, AnsweredLinks(queriedNodes, cache), LinkKey)
      ensures forall id :: HasNode(cumulativeGraph.nodes, id) <==> SomeAnswerHasNode(queriedNodes, cache, id)
      ensures forall a, b :: HasLink(cumulativeGraph.links, a, b) <==> SomeAnswerHasLink(queriedNodes, cache, a, b)
    {
      cumulativeGraph := EmptyGraph;
      for i := 0 to |queriedNodes|
        invariant cumulativeGraph == Derived(Loaded(queriedNodes[..i], cache))
      {
        OneMoreDerived(queriedNodes, cache, i);
        if queriedNodes[i] in cache {
          var newGraph := GraphOf(cache[queriedNodes[i]]);
          cumulativeGraph := MergeGraphs(cumulativeGraph, newGraph);
        }
      }
      assert queriedNodes[..|queriedNodes|] == queriedNodes;
      ShownIsAnswered(View());
    }
  }

  lemma {:induction false} LoadedMembers(queried: seq<Expansion>, cache: Cache)
    ensures forall g :: g in Loaded(queried, cache) <==>
      exists e :: e in queried && e in cache && GraphOf(cache[e]) == g
    decreases |queried|
  {
    if queried != [] {
      var init, last := queried[..|queried| - 1], queried[|queried| - 1];
      LoadedMembers(init, cache);
      assert queried == init + [last];
      assert forall e :: e in queried <==> e in init || e == last;
    }
  }

  /** More expansions and more arriving responses never remove a node or link key from the derived graph. */
  lemma ExploringOnlyAdds(queried: seq<Expansion>, cache: Cache, queried': seq<Expansion>, cache': Cache)
    requires queried <= queried'
    requires forall e :: e in cache ==> e in cache' && cache'[e] == cache[e]
    ensures NodeKeys(Derived(Loaded(queried, cache))) <= NodeKeys(Derived(Loaded(queried', cache')))
    ensures LinkKeys(Derived(Loaded(queried, cache))) <= LinkKeys(Derived(Loaded(queried', cache')))
  {
    var a, b := Loaded(queried, cache), Loaded(queried', cache');
    LoadedMembers(queried, cache);
    LoadedMembers(queried', cache');
    DerivedKeys(a);
    DerivedKeys(b);
    forall g | g in a ensures g in b {
      var e :| e in queried && e in cache && GraphOf(cache[e]) == g;
      assert e in queried' && e in cache' && GraphOf(cache'[e]) == g;
    }
  }

  ghost function RunHook(h: Hook, events: seq<HookEvent>): Hook
    decreases |events|
  {
    if events == [] then h else RunHook(Next(h, events[0]), events[1..])
  }

  /** Between resets the shown graph never loses a node or a link key. */
  lemma {:induction false} ShownOnlyGrows(h: Hook, events: seq<HookEvent>)
    requires h.pending.Some? ==> h.queried <= h.pending.value
    requires forall event :: event in events ==> !event.Reset?
    ensures NodeKeys(Shown(h)) <= NodeKeys(Shown(RunHook(h, events)))
    ensures LinkKeys(Shown(h)) <= LinkKeys(Shown(RunHook(h, events)))
    decreases |events|
  {
    if events != [] {
      EventOnlyAdds(h, events[0]);
      ShownOnlyGrows(Next(h, events[0]), events[1..]);
    }
  }

  lemma EventOnlyAdds(h: Hook, event: HookEvent)
    requires (h.pending.Some? ==> h.queried <= h.pending.value) && !event.Reset?
    ensures NodeKeys(Shown(h)) <= NodeKeys(Shown(Next(h, event)))
    ensures LinkKeys(Shown(h)) <= LinkKeys(Shown(Next(h, event)))
    ensures var h' := Next(h, event); h'.pending.Some? ==> h'.queried <= h'.pending.value
  {
    var h' := Next(h, event);
    ExploringOnlyAdds(h.queried, h.cache, h'.queried, h'.cache);
  }

  /** Every link joins nodes of the graph. */
  ghost predicate Closed(g: Graph) {
    forall k :: k in LinkKeys(g) ==> k.0 in NodeKeys(g) && k.1 in NodeKeys(g)
  }

  /** If every response is closed, so is what is shown. */
  lemma ShownIsClosed(h: Hook)
    requires forall e :: Answered(h.cache, e) ==> Closed(h.cache[e].graph.value)
    ensures Closed(Shown(h))
  {
    var responses := Loaded(h.queried, h.cache);
    DerivedKeys(responses);
    LoadedMembers(h.queried, h.cache);
    forall k | k in LinkKeys(Shown(h)) ensures k.0 in NodeKeys(Shown(h)) && k.1 in NodeKeys(Shown(h)) {
      var r :| r in responses && k in LinkKeys(r);
      var e :| e in h.queried && e in h.cache && GraphOf(h.cache[e]) == r;
      assert Answered(h.cache, e);
    }
  }
}
