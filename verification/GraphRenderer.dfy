/** The mutable D3 graph: reconciled in place with derived graph data, its links holding either node ids or
    pointers to node objects. */
module GraphRenderer {
  import opened Common
  import opened KeyedLists
  import GraphData

  /** A node object; the simulation writes its position and the user its lock. */
  class Node {
    const id: string
    const itemCategory: string
    const itemSubtype: string
    var onHover: bool
    var x: real
    var y: real
    var fx: Option<real>
    var fy: Option<real>

    constructor (data: GraphData.NodeData)
      ensures Shows(data) && !onHover && fx == None && fy == None
      ensures id == data.id && itemCategory == data.itemCategory && itemSubtype == data.itemSubtype
    {
      id, itemCategory, itemSubtype := data.id, data.itemCategory, data.itemSubtype;
      onHover, x, y, fx, fy := false, 0.0, 0.0, None, None;
    }

    predicate Shows(data: GraphData.NodeData) {
      id == data.id && itemCategory == data.itemCategory && itemSubtype == data.itemSubtype
    }
  }

  /** A link end: an id until the simulation resolves it to the node object. */
  datatype Endpoint = IdRef(id: string) | NodeRef(node: Node)

  class Link {
    var source: Endpoint
    var target: Endpoint
    const linkType: string

    constructor (data: GraphData.LinkData)
      ensures source == IdRef(data.source) && target == IdRef(data.target) && linkType == data.linkType
    {
      source, target, linkType := IdRef(data.source), IdRef(data.target), data.linkType;
    }
  }

  type LinkKey = Option<(string, string)>

  /** The ids a link joins; none when only one end has been resolved, which then matches nothing. */
  function KeyOf(link: Link): LinkKey
    reads link
  {
    match (link.source, link.target)
    case (NodeRef(s), NodeRef(t)) => Some((s.id, t.id))
    case (IdRef(s), IdRef(t)) => Some((s, t))
    case _ => None
  }

  /** The two nodes of a link whose ends have both been resolved. */
  function SafeFromTo(link: Link): Option<(Node, Node)>
    reads link
  {
    if link.source.NodeRef? && link.target.NodeRef? then Some((link.source.node, link.target.node)) else None
  }

  /** Whether a link joins two ids, by its node objects or by the ids it still holds. */
  predicate Joins(link: Link, source: string, target: string)
    reads link
    ensures Joins(link, source, target) <==> KeyOf(link) == Some((source, target))
  {
    match SafeFromTo(link)
    case Some((from, to)) => source == from.id && target == to.id
    case None => link.source == IdRef(source) && link.target == IdRef(target)
  }

  function LinkKeys(links: seq<Link>): (keys: seq<LinkKey>)
    reads links
    ensures |keys| == |links| && forall i :: 0 <= i < |links| ==> keys[i] == KeyOf(links[i])
  {
    seq(|links|, i requires 0 <= i < |links| reads links => KeyOf(links[i]))
  }

  function NodeIds(nodes: seq<Node>): (ids: seq<string>)
    ensures |ids| == |nodes| && forall i :: 0 <= i < |nodes| ==> ids[i] == nodes[i].id
  {
    seq(|nodes|, i requires 0 <= i < |nodes| => nodes[i].id)
  }

  function IncomingKey(link: GraphData.LinkData): LinkKey {
    Some(GraphData.LinkKey(link))
  }

  function Joined(pairs: seq<(string, string)>): set<LinkKey> {
    set pair | pair in pairs :: Some(pair)
  }

  ghost predicate DescribesNodes(nodes: seq<Node>, data: seq<GraphData.NodeData>) {
    |nodes| == |data| && forall i :: 0 <= i < |nodes| ==> nodes[i].Shows(data[i])
  }

  /** Neither hovered over nor locked, as new nodes are. */
  ghost predicate AllFree(nodes: seq<Node>)
    reads nodes
  {
    forall node :: node in nodes ==> !node.onHover && node.fx == None && node.fy == None
  }

  ghost predicate DescribesLinks(links: seq<Link>, data: seq<GraphData.LinkData>)
    reads links
  {
    |links| == |data| && forall i :: 0 <= i < |links| ==>
      && links[i].source == IdRef(data[i].source) && links[i].target == IdRef(data[i].target)
      && links[i].linkType == data[i].linkType
  }

  /** Some entry has to be dropped. */
  predicate HasStale<K(==)>(keys: seq<K>, found: set<K>) {
    exists k :: k in keys && k !in found
  }

  /** `indexes` are the positions of the entries to drop, in order. */
  ghost predicate Stale<K>(indexes: seq<nat>, keys: seq<K>, found: set<K>, upTo: nat)
    requires upTo <= |keys|
  {
    && (forall i, j :: 0 <= i < j < |indexes| ==> indexes[i] < indexes[j])
    && (forall i :: 0 <= i < |indexes| ==> indexes[i] < upTo && keys[indexes[i]] !in found)
    && (forall k :: 0 <= k < upTo && keys[k] !in found ==> k in indexes)
  }

  /** Between two stale entries everything is kept. */
  lemma {:induction false} KeepRun<T, K>(items: seq<T>, keys: seq<K>, found: set<K>, a: nat, b: nat)
    requires |keys| == |items| && a <= b <= |items|
    requires forall k :: a <= k < b ==> keys[k] in found
    ensures Keep(items[a..], keys[a..], found) == items[a..b] + Keep(items[b..], keys[b..], found)
    decreases b - a
  {
    if a == b {
      assert items[a..b] == [];
    } else {
      KeepRun(items, keys, found, a + 1, b);
      assert items[a..][1..] == items[a + 1..] && keys[a..][1..] == keys[a + 1..];
      assert items[a..b] == [items[a]] + items[a + 1..b];
    }
  }

  function Bound(indexes: seq<nat>, j: nat, end: nat): nat
    requires j <= |indexes|
  {
    if j < |indexes| then indexes[j] else end
  }

  /** What the list looks like when the stale entries from the `j`-th on have been spliced out. */
  ghost function Spliced<T, K>(items: seq<T>, keys: seq<K>, found: set<K>, b: nat): seq<T>
    requires |keys| == |items| && b <= |items|
  {
    items[..b] + Keep(items[b..], keys[b..], found)
  }

  lemma GapIsKept<K>(keys: seq<K>, found: set<K>, indexes: seq<nat>, j: nat, k: nat)
    requires Stale(indexes, keys, found, |keys|) && j <= |indexes| && k < |keys|
    requires (j > 0 ==> indexes[j - 1] < k) && (j < |indexes| ==> k < indexes[j])
    ensures keys[k] in found
  {
    forall m | 0 <= m < |indexes| ensures indexes[m] != k {
      if m < j {
        assert indexes[m] <= indexes[j - 1];
      } else {
        assert indexes[j] <= indexes[m];
      }
    }
  }

  lemma SpliceOut<T>(items: seq<T>, i: nat, next: nat, rest: seq<T>)
    requires i < next <= |items|
    ensures var before := items[..next] + rest;
      before[..i] + before[i + 1..] == items[..i] + (items[i + 1..next] + rest)
  {
  }

  lemma SpliceOne<T, K>(items: seq<T>, keys: seq<K>, found: set<K>, indexes: seq<nat>, j: nat)
    requires |keys| == |items| && j < |indexes| && Stale(indexes, keys, found, |items|)
    ensures var before := Spliced(items, keys, found, Bound(indexes, j + 1, |items|));
      && indexes[j] < |before|
      && before[..indexes[j]] + before[indexes[j] + 1..] == Spliced(items, keys, found, indexes[j])
  {
    var i, next := indexes[j], Bound(indexes, j + 1, |items|);
    forall k | i < k < next ensures keys[k] in found {
      GapIsKept(keys, found, indexes, j + 1, k);
    }
    KeepRun(items, keys, found, i + 1, next);
    KeepLast(items, keys, found, i);
    SpliceOut(items, i, next, Keep(items[next..], keys[next..], found));
  }

  lemma NothingSpliced<T, K>(items: seq<T>, keys: seq<K>, found: set<K>)
    requires |keys| == |items|
    ensures Spliced(items, keys, found, |items|) == items
  {
    assert items[..|items|] == items && items[|items|..] == [];
  }

  lemma AllSpliced<T, K>(items: seq<T>, keys: seq<K>, found: set<K>, indexes: seq<nat>)
    requires |keys| == |items| && Stale(indexes, keys, found, |items|)
    ensures Spliced(items, keys, found, Bound(indexes, 0, |items|)) == Keep(items, keys, found)
  {
    var first := Bound(indexes, 0, |items|);
    forall k | 0 <= k < first ensures keys[k] in found {
      GapIsKept(keys, found, indexes, 0, k);
    }
    KeepRun(items, keys, found, 0, first);
    assert items[0..] == items && keys[0..] == keys && items[..first] == items[0..first];
  }

  lemma DescribesMoreNodes(a: seq<Node>, x: seq<GraphData.NodeData>, b: seq<Node>, y: seq<GraphData.NodeData>)
    requires DescribesNodes(a, x) && DescribesNodes(b, y)
    ensures DescribesNodes(a + b, x + y)
  {
  }

  lemma DescribesMoreLinks(a: seq<Link>, x: seq<GraphData.LinkData>, b: seq<Link>, y: seq<GraphData.LinkData>)
    requires DescribesLinks(a, x) && DescribesLinks(b, y)
    ensures DescribesLinks(a + b, x + y)
  {
  }

  lemma NodeIdsOfSum(before: seq<Node>, added: seq<Node>, news: seq<GraphData.NodeData>)
    requires DescribesNodes(added, news)
    ensures NodeIds(before + added) == NodeIds(before) + KeySeq(news, GraphData.NodeKey)
  {
  }

  lemma LinkKeysOfSum(before: seq<Link>, added: seq<Link>, news: seq<GraphData.LinkData>)
    requires DescribesLinks(added, news)
    ensures LinkKeys(before + added) == LinkKeys(before) + KeySeq(news, IncomingKey)
  {
    var all := before + added;
    forall i | |before| <= i < |all| ensures LinkKeys(all)[i] == KeySeq(news, IncomingKey)[i - |before|] {
      assert all[i] == added[i - |before|];
    }
  }

  lemma SumsAssociate<T>(a: seq<T>, b: seq<T>, c: seq<T>)
    ensures (a + b) + c == a + (b + c)
  {
  }

  /** The list after the nodes `news` have been pushed, as `added`. */
  ghost predicate PushedNodes(before: seq<Node>, added: seq<Node>, news: seq<GraphData.NodeData>, nodes: seq<Node>)
    reads added
  {
    forall key: nat {:trigger Open(key)} :: Open(key) ==>
      nodes == before + added && DescribesNodes(added, news) && AllFree(added)
  }

  lemma AllNodesPushed(before: seq<Node>, added: seq<Node>, news: seq<GraphData.NodeData>, nodes: seq<Node>)
    requires PushedNodes(before, added, news, nodes)
    ensures nodes == before + added && DescribesNodes(added, news) && AllFree(added)
  {
    assert Open(0);
  }

  /** One more incoming node dealt with, by whether its id was found in the list. */
  lemma NextNode(before: seq<Node>, incoming: seq<GraphData.NodeData>, i: nat, news: seq<GraphData.NodeData>,
                 nodes: seq<Node>, isNew: bool, added: seq<Node>, node: seq<Node>)
    requires i < |incoming| && NewsAre(NodeIds(before), incoming, i, GraphData.NodeKey, news)
    requires PushedNodes(before, added, news, nodes)
    requires isNew <==> GraphData.NodeKey(incoming[i]) !in NodeIds(nodes)
    requires DescribesNodes(node, if isNew then [incoming[i]] else []) && AllFree(node)
    ensures var more := if isNew then [incoming[i]] else [];
      && NewsAre(NodeIds(before), incoming, i + 1, GraphData.NodeKey, news + more)
      && PushedNodes(before, added + node, news + more, nodes + node)
  {
    assert Open(0);
    NodeIdsOfSum(before, added, news);
    NextNews(NodeIds(before), incoming, i, GraphData.NodeKey, news, !isNew);
    DescribesMoreNodes(added, news, node, if isNew then [incoming[i]] else []);
    SumsAssociate(before, added, node);
  }

  /** The list after the links `news` have been pushed, as `added`. */
  ghost predicate PushedLinks(before: seq<Link>, added: seq<Link>, news: seq<GraphData.LinkData>, links: seq<Link>)
    reads added
  {
    forall key: nat {:trigger Open(key)} :: Open(key) ==> links == before + added && DescribesLinks(added, news)
  }

  lemma AllLinksPushed(before: seq<Link>, added: seq<Link>, news: seq<GraphData.LinkData>, links: seq<Link>)
    requires PushedLinks(before, added, news, links)
    ensures links == before + added && DescribesLinks(added, news)
  {
    assert Open(0);
  }

  /** One more incoming link dealt with, by whether its key was found in the list. */
  lemma NextLink(before: seq<Link>, incoming: seq<GraphData.LinkData>, i: nat, news: seq<GraphData.LinkData>,
                 links: seq<Link>, isNew: bool, added: seq<Link>, link: seq<Link>)
    requires i < |incoming| && NewsAre(LinkKeys(before), incoming, i, IncomingKey, news)
    requires PushedLinks(before, added, news, links)
    requires isNew <==> IncomingKey(incoming[i]) !in LinkKeys(links)
    requires DescribesLinks(link, if isNew then [incoming[i]] else [])
    ensures var more := if isNew then [incoming[i]] else [];
      && NewsAre(LinkKeys(before), incoming, i + 1, IncomingKey, news + more)
      && PushedLinks(before, added + link, news + more, links + link)
  {
    assert Open(0);
    LinkKeysOfSum(before, added, news);
    NextNews(LinkKeys(before), incoming, i, IncomingKey, news, !isNew);
    DescribesMoreLinks(added, news, link, if isNew then [incoming[i]] else []);
    SumsAssociate(before, added, link);
  }

  class D3Graph {
    var nodes: seq<Node>
    var links: seq<Link>

    constructor ()
      ensures nodes == [] && links == []
    {
      nodes, links := [], [];
    }

    method HasNode(id: string) returns (found: bool)
      ensures found <==> id in NodeIds(nodes)
    {
      found := false;
      for j := 0 to |nodes|
        invariant !found && forall k :: 0 <= k < j ==> nodes[k].id != id
      {
        if id == nodes[j].id {
          assert NodeIds(nodes)[j] == id;
          return true;
        }
      }
    }

    method HasLink(source: string, target: string) returns (found: bool)
      ensures found <==> Some((source, target)) in LinkKeys(links)
    {
      found := false;
      for j := 0 to |links|
        invariant !found && forall k :: 0 <= k < j ==> KeyOf(links[k]) != Some((source, target))
      {
        if Joins(links[j], source, target) {
          assert LinkKeys(links)[j] == Some((source, target));
          return true;
        }
      }
    }

    /** Pushes a new object for an incoming node unless its id is there already. */
    method PushIfNewNode(newNode: GraphData.NodeData) returns (change: bool, ghost added: seq<Node>)
      modifies this`nodes
      ensures change <==> GraphData.NodeKey(newNode) !in NodeIds(old(nodes))
      ensures nodes == old(nodes) + added && fresh(added)
      ensures DescribesNodes(added, if change then [newNode] else []) && AllFree(added)
    {
      var found := HasNode(newNode.id);
      change, added := !found, [];
      if !found {
        var node := new Node(newNode);
        nodes := nodes + [node];
        added := [node];
      }
    }

    method PushNewNodes(incoming: seq<GraphData.NodeData>)
      returns (change: bool, foundIdList: seq<string>, ghost added: seq<Node>)
      modifies this`nodes
      ensures nodes == old(nodes) + added && fresh(added)
      ensures DescribesNodes(added, NewOnes(Elements(NodeIds(old(nodes))), incoming, GraphData.NodeKey))
      ensures AllFree(added)
      ensures change <==> added != []
      ensures foundIdList == KeySeq(incoming, GraphData.NodeKey)
    {
      change, foundIdList, added := false, [], [];
      ghost var before, have := nodes, NodeIds(nodes);
      ghost var news: seq<GraphData.NodeData> := [];
      NoNewsYet(have, incoming, GraphData.NodeKey);
      for i := 0 to |incoming|
        invariant PushedNodes(before, added, news, nodes) && fresh(added)
        invariant NewsAre(have, incoming, i, GraphData.NodeKey, news)
        invariant change <==> added != []
        invariant foundIdList == KeySeq(incoming[..i], GraphData.NodeKey)
      {
        KeySeqNext(incoming, i, GraphData.NodeKey);
        foundIdList := foundIdList + [incoming[i].id];
        ghost var had := nodes;
        var isNew, node := PushIfNewNode(incoming[i]);
        NextNode(before, incoming, i, news, had, isNew, added, node);
        news := news + if isNew then [incoming[i]] else [];
        change, added := change || isNew, added + node;
      }
      AllNews(have, incoming, GraphData.NodeKey, news);
      AllNodesPushed(before, added, news, nodes);
      assert incoming[..|incoming|] == incoming;
    }

    /** Splices out every node whose id has not come in. */
    method DropStaleNodes(foundIdList: seq<string>) returns (change: bool)
      modifies this`nodes
      ensures nodes == Keep(old(nodes), NodeIds(old(nodes)), Elements(foundIdList))
      ensures change <==> HasStale(NodeIds(old(nodes)), Elements(foundIdList))
    {
      var toDelete: seq<nat> := [];
      ghost var ids, found := NodeIds(nodes), Elements(foundIdList);
      for i := 0 to |nodes|
        invariant Stale(toDelete, ids, found, i)
      {
        if nodes[i].id !in foundIdList {
          toDelete := toDelete + [i];
        }
      }
      NothingSpliced(nodes, ids, found);
      for j := |toDelete| downto 0
        invariant nodes == Spliced(old(nodes), ids, found, Bound(toDelete, j, |old(nodes)|))
      {
        SpliceOne(old(nodes), ids, found, toDelete, j);
        nodes := nodes[..toDelete[j]] + nodes[toDelete[j] + 1..];
      }
      AllSpliced(old(nodes), ids, found, toDelete);
      change := |toDelete| > 0;
      if change {
        assert ids[toDelete[0]] in ids && ids[toDelete[0]] !in foundIdList;
      }
    }

    /** Pushes a new unresolved link for an incoming one unless its ends are joined already. */
    method PushIfNewLink(newLink: GraphData.LinkData) returns (change: bool, ghost added: seq<Link>)
      modifies this`links
      ensures change <==> IncomingKey(newLink) !in LinkKeys(old(links))
      ensures links == old(links) + added && fresh(added)
      ensures DescribesLinks(added, if change then [newLink] else [])
    {
      var found := HasLink(newLink.source, newLink.target);
      change, added := !found, [];
      if !found {
        var link := new Link(newLink);
        links := links + [link];
        added := [link];
      }
    }

    method PushNewLinks(incoming: seq<GraphData.LinkData>)
      returns (change: bool, foundLinkList: seq<(string, string)>, ghost added: seq<Link>)
      modifies this`links
      ensures links == old(links) + added && fresh(added)
      ensures DescribesLinks(added, NewOnes(Elements(old(LinkKeys(links))), incoming, IncomingKey))
      ensures change <==> added != []
      ensures foundLinkList == KeySeq(incoming, GraphData.LinkKey)
    {
      change, foundLinkList, added := false, [], [];
      ghost var before, have := links, LinkKeys(links);
      ghost var news: seq<GraphData.LinkData> := [];
      NoNewsYet(have, incoming, IncomingKey);
      for i := 0 to |incoming|
        invariant PushedLinks(before, added, news, links) && fresh(added)
        invariant LinkKeys(before) == have && NewsAre(have, incoming, i, IncomingKey, news)
        invariant change <==> added != []
        invariant foundLinkList == KeySeq(incoming[..i], GraphData.LinkKey)
      {
        KeySeqNext(incoming, i, GraphData.LinkKey);
        foundLinkList := foundLinkList + [(incoming[i].source, incoming[i].target)];
        ghost var had := links;
        var isNew, link := PushIfNewLink(incoming[i]);
        NextLink(before, incoming, i, news, had, isNew, added, link);
        news := news + if isNew then [incoming[i]] else [];
        change, added := change || isNew, added + link;
      }
      AllNews(have, incoming, IncomingKey, news);
      AllLinksPushed(before, added, news, links);
      assert incoming[..|incoming|] == incoming;
    }

    /** Splices out every link whose ends have not come in. */
    method DropStaleLinks(foundLinkList: seq<(string, string)>) returns (change: bool)
      modifies this`links
      ensures links == Keep(old(links), old(LinkKeys(links)), Joined(foundLinkList))
      ensures change <==> HasStale(old(LinkKeys(links)), Joined(foundLinkList))
    {
      var toDelete: seq<nat> := [];
      ghost var keys, found: set<LinkKey> := LinkKeys(links), Joined(foundLinkList);
      for i := 0 to |links|
        invariant Stale(toDelete, keys, found, i)
      {
        var known := false;
        for k := 0 to |foundLinkList|
          invariant !known && forall m :: 0 <= m < k ==> keys[i] != Some(foundLinkList[m])
        {
          if Joins(links[i], foundLinkList[k].0, foundLinkList[k].1) {
            known := true;
            break;
          }
        }
        assert known <==> keys[i] in found;
        if !known {
          toDelete := toDelete + [i];
        }
      }
      NothingSpliced(links, keys, found);
      for j := |toDelete| downto 0
        invariant links == Spliced(old(links), keys, found, Bound(toDelete, j, |old(links)|))
      {
        SpliceOne(old(links), keys, found, toDelete, j);
        links := links[..toDelete[j]] + links[toDelete[j] + 1..];
      }
      AllSpliced(old(links), keys, found, toDelete);
      change := |toDelete| > 0;
      if change {
        assert keys[toDelete[0]] in keys && keys[toDelete[0]] !in found;
      }
    }

    /** Reconciles the graph with the data: what is missing is pushed, what is stale is spliced out, and every
        object that stays is left untouched. */
    method MergeGraphDataIntoD3(graphData: GraphData.Graph)
      returns (change: bool, ghost addedNodes: seq<Node>, ghost addedLinks: seq<Link>)
      modifies this
      ensures fresh(addedNodes) && fresh(addedLinks)
      ensures MergedNodes(old(nodes), graphData, nodes, addedNodes)
      ensures MergedLinks(old(links), old(LinkKeys(links)), graphData, links, addedLinks)
      ensures change <==> (Elements(NodeIds(old(nodes))) != GraphData.NodeKeys(graphData) ||
                           Elements(old(LinkKeys(links))) != KeySet(graphData.links, IncomingKey))
      ensures AllFree(addedNodes)
    {
      ghost var before, beforeLinks, keys := nodes, links, LinkKeys(links);
      var newNodes, newLinks, staleNodes, staleLinks;
      var foundIdList, foundLinkList;
      newNodes, foundIdList, addedNodes := PushNewNodes(graphData.nodes);
      newLinks, foundLinkList, addedLinks := PushNewLinks(graphData.links);
      FoundSets(graphData, foundIdList, foundLinkList);
      staleNodes := DropStaleNodes(foundIdList);
      staleLinks := DropStaleLinks(foundLinkList);
      MergeNodes(before, addedNodes, graphData, nodes, staleNodes);
      MergeLinks(beforeLinks, keys, addedLinks, graphData, links, staleLinks);
      change := newNodes || newLinks || staleNodes || staleLinks;
    }

    /** What the link force does with unresolved links: ids become node objects. Fails if a node is missing. */
    method ResolveLinks() returns (ok: bool)
      requires NoStale(nodes, links)
      modifies links
      ensures ok && NoStale(nodes, links)
      ensures LinkKeys(links) == old(LinkKeys(links))
      ensures forall link :: link in links ==> link.source.NodeRef? && link.target.NodeRef?
    {
      var nodeById: map<string, Node> := map[];
      for i := 0 to |nodes|
        invariant forall id :: id in nodeById ==> nodeById[id] in nodes && nodeById[id].id == id
        invariant forall k :: 0 <= k < i ==> nodes[k].id in nodeById
      {
        nodeById := nodeById[nodes[i].id := nodes[i]];
      }
      assert Indexes(nodeById, nodes);
      ghost var keys := LinkKeys(links);
      for i := 0 to |links|
        invariant forall k :: 0 <= k < |links| ==> EndsIn(links[k], nodes) && KeyOf(links[k]) == keys[k]
        invariant forall k :: 0 <= k < i ==> links[k].source.NodeRef? && links[k].target.NodeRef?
      {
        ok := ResolveLink(links[i], nodeById);
        if !ok {
          return;
        }
      }
      ok := true;
    }

    method ResolveLink(link: Link, nodeById: map<string, Node>) returns (ok: bool)
      requires EndsIn(link, nodes) && Indexes(nodeById, nodes)
      modifies link
      ensures ok && EndsIn(link, nodes) && KeyOf(link) == old(KeyOf(link))
      ensures link.source.NodeRef? && link.target.NodeRef?
    {
      if link.source.IdRef? {
        if link.source.id !in nodeById || link.target.id !in nodeById {
          return false;
        }
        link.source, link.target := NodeRef(nodeById[link.source.id]), NodeRef(nodeById[link.target.id]);
      }
      ok := true;
    }

    /** Merging the same data again changes nothing: `once` and `onceLinks` are the lists after the first merge. */
    method MergeTwice(graphData: GraphData.Graph)
      returns (again: bool, ghost once: seq<Node>, ghost onceLinks: seq<Link>, ghost added: seq<Node>,
               ghost addedLinks: seq<Link>)
      modifies this
      ensures !again && nodes == once && links == onceLinks
      ensures MergedNodes(old(nodes), graphData, once, added)
      ensures MergedLinks(old(links), old(LinkKeys(links)), graphData, onceLinks, addedLinks)
    {
      var first;
      first, added, addedLinks := MergeGraphDataIntoD3(graphData);
      once, onceLinks := nodes, links;
      ghost var keys := LinkKeys(links);
      MergedKeys(old(nodes), graphData, once, added);
      MergedLinkKeys(old(links), old(LinkKeys(links)), graphData, onceLinks, addedLinks);
      var second, none, noLinks := MergeGraphDataIntoD3(graphData);
      again := second;
      MergeAgain(once, graphData, nodes, none);
      MergeLinksAgain(onceLinks, keys, graphData, links, noLinks);
    }

    /** Any run of merges and link resolutions, each merge with closed data, keeps every link fresh, and link
        resolution never misses a node. */
    method RunSession(events: seq<RenderEvent>) returns (ok: bool)
      requires NoStale(nodes, links)
      requires forall event :: event in events && event.Merge? ==> GraphData.Closed(event.data)
      modifies this, links
      ensures ok && NoStale(nodes, links) && fresh(Elements(links) - old(Elements(links)))
    {
      ok := true;
      for i := 0 to |events|
        invariant ok && NoStale(nodes, links)
        invariant fresh(Elements(links) - old(Elements(links)))
      {
        match events[i]
        case Merge(data) =>
          MergeOne(data);
        case Resolve =>
          ok := ResolveLinks();
      }
    }

    method MergeOne(data: GraphData.Graph)
      requires NoStale(nodes, links) && GraphData.Closed(data)
      modifies this
      ensures NoStale(nodes, links) && fresh(Elements(links) - old(Elements(links)))
    {
      ghost var before, beforeLinks, keys := nodes, links, LinkKeys(links);
      var change, addedNodes, addedLinks := MergeGraphDataIntoD3(data);
      MergeKeepsFresh(before, beforeLinks, keys, data, nodes, addedNodes, links, addedLinks);
      forall link | link in links && link !in beforeLinks ensures link in addedLinks {
        KeptMember(beforeLinks, keys, KeySet(data.links, IncomingKey), link);
      }
    }
  }

  datatype RenderEvent = Merge(data: GraphData.Graph) | Resolve

  /** Both ends point into `nodes`, or both name nodes there. */
  ghost predicate EndsIn(link: Link, nodes: seq<Node>)
    reads link
  {
    match (link.source, link.target)
    case (NodeRef(s), NodeRef(t)) => s in nodes && t in nodes
    case (IdRef(s), IdRef(t)) => s in NodeIds(nodes) && t in NodeIds(nodes)
    case _ => false
  }

  /** Finds every drawn node by its id. */
  ghost predicate Indexes(nodeById: map<string, Node>, nodes: seq<Node>) {
    && (forall id :: id in nodeById ==> nodeById[id] in nodes && nodeById[id].id == id)
    && (forall id :: id in NodeIds(nodes) ==> id in nodeById)
  }

  /** No link points to, or names, a node that is not drawn. */
  ghost predicate NoStale(nodes: seq<Node>, links: seq<Link>)
    reads links
  {
    Distinct(NodeIds(nodes)) && forall link :: link in links ==> EndsIn(link, nodes)
  }

  /** The nodes after a merge: the old objects whose id comes in, in old order, then a new object for each
      first occurrence of an unknown id. */
  ghost predicate MergedNodes(before: seq<Node>, data: GraphData.Graph, after: seq<Node>, added: seq<Node>) {
    && after == Keep(before, NodeIds(before), GraphData.NodeKeys(data)) + added
    && DescribesNodes(added, NewOnes(Elements(NodeIds(before)), data.nodes, GraphData.NodeKey))
  }

  /** The same for links, by the pair of ids they join. */
  ghost predicate MergedLinks(before: seq<Link>, keys: seq<LinkKey>, data: GraphData.Graph, after: seq<Link>,
                              added: seq<Link>)
    requires |keys| == |before|
    reads added
  {
    && after == Keep(before, keys, KeySet(data.links, IncomingKey)) + added
    && DescribesLinks(added, NewOnes(Elements(keys), data.links, IncomingKey))
  }

  /** Dropping stale nodes from the list with the new ones pushed merges it. */
  lemma MergeNodes(before: seq<Node>, added: seq<Node>, data: GraphData.Graph, after: seq<Node>, stale: bool)
    requires DescribesNodes(added, NewOnes(Elements(NodeIds(before)), data.nodes, GraphData.NodeKey))
    requires after == Keep(before + added, NodeIds(before + added), GraphData.NodeKeys(data))
    requires stale <==> HasStale(NodeIds(before + added), GraphData.NodeKeys(data))
    ensures MergedNodes(before, data, after, added)
    ensures added != [] || stale <==> Elements(NodeIds(before)) != GraphData.NodeKeys(data)
  {
    NodeIdsOfSum(before, added, NewOnes(Elements(NodeIds(before)), data.nodes, GraphData.NodeKey));
    ReconciledList(before, added, NodeIds(before), data.nodes, GraphData.NodeKey);
    ReconciledFlag(NodeIds(before), data.nodes, GraphData.NodeKey);
  }

  /** The same for links. */
  lemma MergeLinks(before: seq<Link>, keys: seq<LinkKey>, added: seq<Link>, data: GraphData.Graph, after: seq<Link>,
                   stale: bool)
    requires keys == LinkKeys(before) && DescribesLinks(added, NewOnes(Elements(keys), data.links, IncomingKey))
    requires after == Keep(before + added, LinkKeys(before + added), KeySet(data.links, IncomingKey))
    requires stale <==> HasStale(LinkKeys(before + added), KeySet(data.links, IncomingKey))
    ensures MergedLinks(before, keys, data, after, added)
    ensures added != [] || stale <==> Elements(keys) != KeySet(data.links, IncomingKey)
  {
    LinkKeysOfSum(before, added, NewOnes(Elements(keys), data.links, IncomingKey));
    ReconciledList(before, added, keys, data.links, IncomingKey);
    ReconciledFlag(keys, data.links, IncomingKey);
  }

  lemma FoundSets(data: GraphData.Graph, foundIdList: seq<string>, foundLinkList: seq<(string, string)>)
    requires foundIdList == KeySeq(data.nodes, GraphData.NodeKey)
    requires foundLinkList == KeySeq(data.links, GraphData.LinkKey)
    ensures Elements(foundIdList) == GraphData.NodeKeys(data)
    ensures Joined(foundLinkList) == KeySet(data.links, IncomingKey)
  {
    forall id | id in GraphData.NodeKeys(data) ensures id in foundIdList {
      var i :| 0 <= i < |data.nodes| && GraphData.NodeKey(data.nodes[i]) == id;
      assert foundIdList[i] == id;
    }
    forall key | key in KeySet(data.links, IncomingKey) ensures key.Some? && key.value in foundLinkList {
      var i :| 0 <= i < |data.links| && IncomingKey(data.links[i]) == key;
      assert foundLinkList[i] == key.value;
    }
  }

  /** Pushing and then dropping: the pushed entries stay. */
  lemma ReconciledList<O, T, K>(before: seq<O>, added: seq<O>, keys: seq<K>, incoming: seq<T>, key: T -> K)
    requires |keys| == |before| && |added| == |NewOnes(Elements(keys), incoming, key)|
    ensures var news := KeySeq(NewOnes(Elements(keys), incoming, key), key);
      Keep(before + added, keys + news, KeySet(incoming, key)) == Keep(before, keys, KeySet(incoming, key)) + added
  {
    var news := KeySeq(NewOnes(Elements(keys), incoming, key), key);
    NewsAreFound(keys, incoming, key);
    KeepAll(added, news, KeySet(incoming, key));
    KeepOfSum(before, added, keys, news, KeySet(incoming, key));
  }

  /** Something was pushed or dropped exactly when the key sets differ. */
  lemma ReconciledFlag<T, K>(keys: seq<K>, incoming: seq<T>, key: T -> K)
    ensures var ones := NewOnes(Elements(keys), incoming, key);
      (ones != [] || HasStale(keys + KeySeq(ones, key), KeySet(incoming, key))) <==>
      Elements(keys) != KeySet(incoming, key)
  {
    var ones := NewOnes(Elements(keys), incoming, key);
    var news, found := KeySeq(ones, key), KeySet(incoming, key);
    NewsAreFound(keys, incoming, key);
    NewOnesKeys(Elements(keys), incoming, key);
    if ones == [] {
      assert KeySet(ones, key) == {};
      forall k | k in found ensures k in Elements(keys) {
        assert k in found - Elements(keys) <==> k in KeySet(ones, key);
      }
      assert keys + news == keys;
    } else {
      assert news[0] in found && news[0] !in Elements(keys);
    }
  }

  // ----- what a merge leaves -----

  lemma {:induction false} KeptIds(nodes: seq<Node>, found: set<string>)
    ensures NodeIds(Keep(nodes, NodeIds(nodes), found)) == Keep(NodeIds(nodes), NodeIds(nodes), found)
    decreases |nodes|
  {
    if nodes != [] {
      assert NodeIds(nodes)[1..] == NodeIds(nodes[1..]);
      KeptIds(nodes[1..], found);
      var rest := Keep(nodes[1..], NodeIds(nodes[1..]), found);
      assert NodeIds([nodes[0]] + rest) == [nodes[0].id] + NodeIds(rest);
    }
  }

  /** After a merge the drawn ids are exactly the incoming ones. */
  lemma MergedKeys(before: seq<Node>, data: GraphData.Graph, after: seq<Node>, added: seq<Node>)
    requires MergedNodes(before, data, after, added)
    ensures Elements(NodeIds(after)) == GraphData.NodeKeys(data)
    ensures Distinct(NodeIds(before)) ==> Distinct(NodeIds(after))
  {
    var ids, found := NodeIds(before), GraphData.NodeKeys(data);
    KeptIds(before, found);
    NodeIdsOfSum(Keep(before, ids, found), added, NewOnes(Elements(ids), data.nodes, GraphData.NodeKey));
    assert NodeIds(after) == Reconciled(ids, data.nodes, GraphData.NodeKey);
    ReconciledKeys(ids, data.nodes, GraphData.NodeKey);
    if Distinct(ids) {
      ReconciledDistinct(ids, data.nodes, GraphData.NodeKey);
    }
  }

  lemma {:induction false} KeptLinkKeys(links: seq<Link>, keys: seq<LinkKey>, found: set<LinkKey>)
    requires keys == LinkKeys(links)
    ensures LinkKeys(Keep(links, keys, found)) == Keep(keys, keys, found)
    decreases |links|
  {
    if links != [] {
      assert keys[1..] == LinkKeys(links[1..]);
      KeptLinkKeys(links[1..], keys[1..], found);
      var rest := Keep(links[1..], keys[1..], found);
      assert LinkKeys([links[0]] + rest) == [keys[0]] + LinkKeys(rest);
    }
  }

  /** ... and the joined pairs are exactly the incoming ones. */
  lemma MergedLinkKeys(before: seq<Link>, keys: seq<LinkKey>, data: GraphData.Graph, after: seq<Link>, added: seq<Link>)
    requires keys == LinkKeys(before) && MergedLinks(before, keys, data, after, added)
    ensures Elements(LinkKeys(after)) == KeySet(data.links, IncomingKey)
  {
    var found := KeySet(data.links, IncomingKey);
    KeptLinkKeys(before, keys, found);
    LinkKeysOfSum(Keep(before, keys, found), added, NewOnes(Elements(keys), data.links, IncomingKey));
    assert LinkKeys(after) == Reconciled(keys, data.links, IncomingKey);
    ReconciledKeys(keys, data.links, IncomingKey);
  }

  /** A merge whose data has all the drawn ids deletes nothing: every object keeps its place in the list. */
  lemma MergeOfMore(before: seq<Node>, data: GraphData.Graph, after: seq<Node>, added: seq<Node>)
    requires MergedNodes(before, data, after, added)
    requires Elements(NodeIds(before)) <= GraphData.NodeKeys(data)
    ensures after == before + added
  {
    KeepAll(before, NodeIds(before), GraphData.NodeKeys(data));
  }

  lemma MergeAgain(before: seq<Node>, data: GraphData.Graph, after: seq<Node>, added: seq<Node>)
    requires MergedNodes(before, data, after, added) && Elements(NodeIds(before)) == GraphData.NodeKeys(data)
    ensures after == before
  {
    MergeOfMore(before, data, after, added);
    NothingNew(Elements(NodeIds(before)), data.nodes, GraphData.NodeKey);
  }

  lemma MergeLinksAgain(before: seq<Link>, keys: seq<LinkKey>, data: GraphData.Graph, after: seq<Link>,
                        added: seq<Link>)
    requires |keys| == |before| && MergedLinks(before, keys, data, after, added)
    requires Elements(keys) == KeySet(data.links, IncomingKey)
    ensures after == before
  {
    KeepAll(before, keys, KeySet(data.links, IncomingKey));
    NothingNew(Elements(keys), data.links, IncomingKey);
  }

  // ----- no stale pointers -----

  /** A kept link joins incoming nodes, so its node objects are kept and its ids are still drawn. */
  lemma KeptLinkStaysFresh(before: seq<Node>, data: GraphData.Graph, after: seq<Node>, added: seq<Node>, link: Link)
    requires MergedNodes(before, data, after, added) && EndsIn(link, before)
    requires GraphData.Closed(data) && KeyOf(link) in KeySet(data.links, IncomingKey)
    ensures EndsIn(link, after)
  {
    var i :| 0 <= i < |data.links| && IncomingKey(data.links[i]) == KeyOf(link);
    assert GraphData.LinkKey(data.links[i]) in GraphData.LinkKeys(data);
    var key := KeyOf(link).value;
    assert key.0 in GraphData.NodeKeys(data) && key.1 in GraphData.NodeKeys(data);
    MergedKeys(before, data, after, added);
    match (link.source, link.target)
    case (NodeRef(s), NodeRef(t)) =>
      NodeIsKept(before, data, s);
      NodeIsKept(before, data, t);
    case (IdRef(s), IdRef(t)) =>
      assert s in Elements(NodeIds(after)) && t in Elements(NodeIds(after));
  }

  lemma NodeIsKept(before: seq<Node>, data: GraphData.Graph, node: Node)
    requires node in before && node.id in GraphData.NodeKeys(data)
    ensures node in Keep(before, NodeIds(before), GraphData.NodeKeys(data))
  {
    var i :| 0 <= i < |before| && before[i] == node;
    assert NodeIds(before)[i] in GraphData.NodeKeys(data);
    KeptMember(before, NodeIds(before), GraphData.NodeKeys(data), node);
  }

  lemma NewLinkIsFresh(data: GraphData.Graph, nodes: seq<Node>, keys: set<LinkKey>, added: seq<Link>, i: nat)
    requires GraphData.Closed(data) && Elements(NodeIds(nodes)) == GraphData.NodeKeys(data)
    requires DescribesLinks(added, NewOnes(keys, data.links, IncomingKey)) && i < |added|
    ensures EndsIn(added[i], nodes)
  {
    var news := NewOnes(keys, data.links, IncomingKey);
    NewOnesKeys(keys, data.links, IncomingKey);
    assert IncomingKey(news[i]) in KeySet(news, IncomingKey);
    var j :| 0 <= j < |data.links| && IncomingKey(data.links[j]) == IncomingKey(news[i]);
    assert GraphData.LinkKey(data.links[j]) in GraphData.LinkKeys(data);
    assert news[i].source in Elements(NodeIds(nodes)) && news[i].target in Elements(NodeIds(nodes));
  }

  /** If every incoming link joins incoming nodes, a merge leaves no stale link behind. */
  lemma MergeKeepsFresh(before: seq<Node>, beforeLinks: seq<Link>, keys: seq<LinkKey>, data: GraphData.Graph,
                        after: seq<Node>, added: seq<Node>, afterLinks: seq<Link>, addedLinks: seq<Link>)
    requires NoStale(before, beforeLinks) && GraphData.Closed(data) && keys == LinkKeys(beforeLinks)
    requires MergedNodes(before, data, after, added)
    requires MergedLinks(beforeLinks, keys, data, afterLinks, addedLinks)
    ensures NoStale(after, afterLinks)
  {
    MergedKeys(before, data, after, added);
    forall link | link in afterLinks ensures EndsIn(link, after) {
      if link in addedLinks {
        var i :| 0 <= i < |addedLinks| && addedLinks[i] == link;
        NewLinkIsFresh(data, after, Elements(keys), addedLinks, i);
      } else {
        KeptMember(beforeLinks, keys, KeySet(data.links, IncomingKey), link);
        KeptLinkStaysFresh(before, data, after, added, link);
      }
    }
  }

  /** ... and only then: data with a link to a node that has not come in leaves a stale link. */
  lemma MergeIsFreshIff(before: seq<Node>, beforeLinks: seq<Link>, keys: seq<LinkKey>, data: GraphData.Graph,
                        after: seq<Node>, added: seq<Node>, afterLinks: seq<Link>, addedLinks: seq<Link>)
    requires NoStale(before, beforeLinks) && keys == LinkKeys(beforeLinks)
    requires MergedNodes(before, data, after, added)
    requires MergedLinks(beforeLinks, keys, data, afterLinks, addedLinks)
    ensures NoStale(after, afterLinks) <==> GraphData.Closed(data)
  {
    if GraphData.Closed(data) {
      MergeKeepsFresh(before, beforeLinks, keys, data, after, added, afterLinks, addedLinks);
    } else {
      var key :| key in GraphData.LinkKeys(data) &&
        !(key.0 in GraphData.NodeKeys(data) && key.1 in GraphData.NodeKeys(data));
      MergedKeys(before, data, after, added);
      MergedLinkKeys(beforeLinks, keys, data, afterLinks, addedLinks);
      LinkKeySets(data.links, Some(key));
      assert Some(key) in Elements(LinkKeys(afterLinks));
      var i :| 0 <= i < |afterLinks| && LinkKeys(afterLinks)[i] == Some(key);
      assert afterLinks[i] in afterLinks && KeyOf(afterLinks[i]) == Some(key);
      assert !EndsIn(afterLinks[i], after);
    }
  }

  // ----- with the data hook -----

  lemma {:induction false} LinkKeySets(links: seq<GraphData.LinkData>, k: LinkKey)
    ensures k in KeySet(links, IncomingKey) <==> k.Some? && k.value in KeySet(links, GraphData.LinkKey)
  {
    if k in KeySet(links, IncomingKey) {
      var i :| 0 <= i < |links| && IncomingKey(links[i]) == k;
      assert GraphData.LinkKey(links[i]) == k.value;
    }
    if k.Some? && k.value in KeySet(links, GraphData.LinkKey) {
      var i :| 0 <= i < |links| && GraphData.LinkKey(links[i]) == k.value;
      assert IncomingKey(links[i]) == k;
    }
  }

  /** However many expansions and responses come between two merges, as long as there is no reset the second
      merge deletes nothing: the drawn nodes and links are the old objects, in place, and then new ones. */
  lemma ExploringKeepsObjects(h: GraphData.Hook, events: seq<GraphData.HookEvent>,
                              nodes: seq<Node>, links: seq<Link>, keys: seq<LinkKey>,
                              nodes': seq<Node>, addedNodes: seq<Node>, links': seq<Link>, addedLinks: seq<Link>)
    requires h.pending.Some? ==> h.queried <= h.pending.value
    requires forall event :: event in events ==> !event.Reset?
    requires Elements(NodeIds(nodes)) == GraphData.NodeKeys(GraphData.Shown(h))
    requires |keys| == |links| && Elements(keys) == KeySet(GraphData.Shown(h).links, IncomingKey)
    requires MergedNodes(nodes, GraphData.Shown(GraphData.RunHook(h, events)), nodes', addedNodes)
    requires MergedLinks(links, keys, GraphData.Shown(GraphData.RunHook(h, events)), links', addedLinks)
    ensures nodes' == nodes + addedNodes && links' == links + addedLinks
  {
    var data, data' := GraphData.Shown(h), GraphData.Shown(GraphData.RunHook(h, events));
    GraphData.ShownOnlyGrows(h, events);
    MergeOfMore(nodes, data', nodes', addedNodes);
    forall i | 0 <= i < |keys| ensures keys[i] in KeySet(data'.links, IncomingKey) {
      assert keys[i] in Elements(keys);
      LinkKeySets(data.links, keys[i]);
      LinkKeySets(data'.links, keys[i]);
    }
    KeepAll(links, keys, KeySet(data'.links, IncomingKey));
  }
}
