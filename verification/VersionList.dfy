/** Loading the version chain of an item: a list that starts with one item and grows at both ends as each
    fetched item names its neighbours. */
module VersionList {
  import opened Common

  /** A link to a neighbour on the wire: null, missing, or an id. */
  datatype Neighbour = Null | Undefined | To(id: string)

  datatype VersioningInfo = VersioningInfo(previousVersion: Neighbour, nextVersion: Neighbour)

  /** The status, and the versioning info of the item if there is one. */
  datatype FetchResponse = FetchResponse(success: bool, versioningInfo: Option<VersioningInfo>)

  /** `list` and `startingIndex` are the state, `rendered` the list the current render closed over, `loaded`
      the data of the finished fetches. */
  datatype View = View(list: seq<string>, startingIndex: nat, rendered: seq<string>, loaded: map<string, FetchResponse>)

  function Mounted(startingItem: string): View {
    View([startingItem], 0, [startingItem], map[])
  }

  predicate Present(neighbour: Neighbour) {
    neighbour.To? && neighbour.id != ""
  }

  function Pushed(v: View, id: string, pre: bool): View {
    if pre then v.(list := [id] + v.list, startingIndex := v.startingIndex + 1)
    else v.(list := v.list + [id])
  }

  /** The success callback of the entry at `index` of the rendered list. */
  function Received(v: View, index: nat, data: FetchResponse): View
    requires index < |v.rendered|
  {
    var v0 := v.(loaded := v.loaded[v.rendered[index] := data]);
    if !data.success || data.versioningInfo.None? then v0
    else
      var info := data.versioningInfo.value;
      var v1 := if index == 0 && Present(info.previousVersion) then Pushed(v0, info.previousVersion.id, true) else v0;
      if index == |v.rendered| - 1 && Present(info.nextVersion) then Pushed(v1, info.nextVersion.id, false) else v1
  }

  function Rerendered(v: View): View {
    v.(rendered := v.list)
  }

  function InfoOf(v: View, id: string): Option<VersioningInfo> {
    if id in v.loaded then v.loaded[id].versioningInfo else None
  }

  predicate Complete(v: View)
    requires v.rendered != []
  {
    var first, last := InfoOf(v, v.rendered[0]), InfoOf(v, v.rendered[|v.rendered| - 1]);
    first.Some? && first.value.previousVersion == Null && last.Some? && last.value.nextVersion == Null
  }

  class LoadedVersionList {
    var fetchedVersionList: seq<string>
    var startingIndex: nat
    var rendered: seq<string>
    var loaded: map<string, FetchResponse>

    function State(): View
      reads this
    {
      View(fetchedVersionList, startingIndex, rendered, loaded)
    }

    constructor (startingItem: string)
      ensures State() == Mounted(startingItem)
      ensures fetchedVersionList == [startingItem] && rendered == [startingItem]
      ensures startingIndex == 0 && loaded == map[]
    {
      fetchedVersionList, startingIndex, rendered, loaded := [startingItem], 0, [startingItem], map[];
    }

    method Render()
      modifies this`rendered
      ensures State() == Rerendered(old(State()))
      ensures rendered == fetchedVersionList
    {
      rendered := fetchedVersionList;
    }

    method PushOrPrependItem(id: string, pre: bool)
      modifies this`fetchedVersionList, this`startingIndex
      ensures State() == Pushed(old(State()), id, pre)
      ensures fetchedVersionList == (if pre then [id] + old(fetchedVersionList) else old(fetchedVersionList) + [id])
      ensures startingIndex == old(startingIndex) + if pre then 1 else 0
    {
      if pre {
        fetchedVersionList := [id] + fetchedVersionList;
        startingIndex := startingIndex + 1;
      } else {
        fetchedVersionList := fetchedVersionList + [id];
      }
    }

    method OnSuccess(index: nat, data: FetchResponse)
      requires index < |rendered|
      modifies this
      ensures State() == Received(old(State()), index, data)
      ensures rendered == old(rendered) && loaded == old(loaded)[rendered[index] := data]
      ensures !data.success || data.versioningInfo == None ==>
        fetchedVersionList == old(fetchedVersionList) && startingIndex == old(startingIndex)
      ensures data.success && data.versioningInfo.Some? ==>
        var previous, next := data.versioningInfo.value.previousVersion, data.versioningInfo.value.nextVersion;
        var front := index == 0 && previous.To? && previous.id != "";
        var back := index + 1 == |rendered| && next.To? && next.id != "";
        && fetchedVersionList ==
             (if front then [previous.id] else []) + old(fetchedVersionList) + (if back then [next.id] else [])
        && startingIndex == old(startingIndex) + if front then 1 else 0
    {
      loaded := loaded[rendered[index] := data];
      if !data.success {
        return;
      }
      if data.versioningInfo.None? {
        return;
      }
      var info := data.versioningInfo.value;
      var goBack, goForwards := index == 0, index == |rendered| - 1;
      if goBack && Present(info.previousVersion) {
        PushOrPrependItem(info.previousVersion.id, true);
      }
      if goForwards && Present(info.nextVersion) {
        PushOrPrependItem(info.nextVersion.id, false);
      }
    }
  }

  // ----- against a server that stores a doubly linked chain of versions -----

  /** `absent` is how the server writes a missing neighbour; the items in `bare` are sent without versioning info, as
      the first item of a chain may be. */
  datatype Server = Server(chain: seq<string>, absent: Neighbour, bare: set<string>)

  ghost predicate Linked(server: Server) {
    && Distinct(server.chain)
    && (forall i :: 0 <= i < |server.chain| ==> server.chain[i] != "")
    && !server.absent.To?
  }

  predicate Informed(server: Server, p: int) {
    0 <= p < |server.chain| && server.chain[p] !in server.bare
  }

  function ResponseAt(server: Server, p: nat): FetchResponse
    requires p < |server.chain|
  {
    if !Informed(server, p) then FetchResponse(true, None)
    else FetchResponse(true, Some(VersioningInfo(
      if p > 0 then To(server.chain[p - 1]) else server.absent,
      if p + 1 < |server.chain| then To(server.chain[p + 1]) else server.absent)))
  }

  /** The list is the segment [lo, hi) of the chain, the rendered list the segment [rlo, rhi). */
  datatype Span = Span(lo: nat, hi: nat, rlo: nat, rhi: nat)

  ghost predicate Segment(server: Server, start: nat, v: View, b: Span) {
    && b.lo <= b.rlo <= start < b.rhi <= b.hi <= |server.chain|
    && v.list == server.chain[b.lo..b.hi]
    && v.rendered == server.chain[b.rlo..b.rhi]
    && v.startingIndex == start - b.lo
  }

  ghost predicate LoadedAt(server: Server, loaded: map<string, FetchResponse>, p: int) {
    0 <= p < |server.chain| && server.chain[p] in loaded
  }

  /** Everything between the ends of the list is loaded. */
  ghost predicate InsideLoaded(server: Server, loaded: map<string, FetchResponse>, b: Span) {
    forall p {:trigger LoadedAt(server, loaded, p)} :: b.lo < p < b.hi - 1 ==> LoadedAt(server, loaded, p)
  }

  /** A loaded item is on the rendered list and, if it has versioning info, has its neighbours in the list. */
  ghost predicate NeighboursListed(server: Server, loaded: map<string, FetchResponse>, b: Span) {
    forall p {:trigger LoadedAt(server, loaded, p)} :: LoadedAt(server, loaded, p) ==>
      && b.rlo <= p < b.rhi && loaded[server.chain[p]] == ResponseAt(server, p)
      && (Informed(server, p) && p > 0 ==> b.lo < p)
      && (Informed(server, p) && p + 1 < |server.chain| ==> p + 1 < b.hi)
  }

  /** What the current render does not show yet has been added by a loaded end of it. */
  ghost predicate EdgesLoaded(server: Server, loaded: map<string, FetchResponse>, b: Span) {
    && (b.lo < b.rlo ==> LoadedAt(server, loaded, b.rlo))
    && (b.rhi < b.hi ==> LoadedAt(server, loaded, b.rhi - 1))
  }

  ghost predicate Frontier(server: Server, loaded: map<string, FetchResponse>, b: Span) {
    && InsideLoaded(server, loaded, b)
    && NeighboursListed(server, loaded, b)
    && EdgesLoaded(server, loaded, b)
    && (forall id :: id in loaded ==> id in server.chain)
  }

  /** What lies between the starting item and position `p`, where loading has to pass, has versioning info. */
  ghost predicate Reachable(server: Server, start: nat, p: int) {
    && (forall q {:trigger Informed(server, q)} :: p < q <= start ==> Informed(server, q))
    && (forall q {:trigger Informed(server, q)} :: start <= q < p ==> Informed(server, q))
  }

  ghost predicate Inv(server: Server, start: nat, v: View, b: Span) {
    && Linked(server) && Segment(server, start, v, b) && Frontier(server, v.loaded, b)
    && Reachable(server, start, b.lo) && Reachable(server, start, b.hi - 1)
  }

  /** The list holds the starting item only. */
  function OnlyStart(start: nat): Span {
    Span(start, start + 1, start, start + 1)
  }

  lemma StartEstablishes(server: Server, start: nat)
    requires Linked(server) && start < |server.chain|
    ensures Inv(server, start, Mounted(server.chain[start]), OnlyStart(start))
  {
    assert server.chain[start..start + 1] == [server.chain[start]];
  }

  lemma RenderKeepsFrontier(server: Server, loaded: map<string, FetchResponse>, b: Span)
    requires Frontier(server, loaded, b) && b.lo <= b.rlo < b.rhi <= b.hi <= |server.chain|
    ensures Frontier(server, loaded, b.(rlo := b.lo, rhi := b.hi))
  {
    forall p | LoadedAt(server, loaded, p) ensures b.lo <= p < b.hi {
    }
  }

  lemma RenderKeeps(server: Server, start: nat, v: View, b: Span)
    requires Inv(server, start, v, b)
    ensures Inv(server, start, Rerendered(v), b.(rlo := b.lo, rhi := b.hi))
  {
    RenderKeepsFrontier(server, v.loaded, b);
  }

  /** The segment after the entry at position `p` has been fetched. */
  function Grown(server: Server, b: Span, p: nat): Span {
    if !Informed(server, p) then b
    else b.(lo := if p == b.rlo && p > 0 then p - 1 else b.lo,
            hi := if p == b.rhi - 1 && p + 1 < |server.chain| then p + 2 else b.hi)
  }

  /** `loaded'` has the answer for position `p` as well. */
  ghost predicate LoadedToo(server: Server, loaded: map<string, FetchResponse>, loaded': map<string, FetchResponse>,
                            p: nat)
  {
    && p < |server.chain| && loaded' == loaded[server.chain[p] := ResponseAt(server, p)]
    && forall q {:trigger LoadedAt(server, loaded', q)} {:trigger LoadedAt(server, loaded, q)} ::
         LoadedAt(server, loaded', q) <==> q == p || LoadedAt(server, loaded, q)
  }

  lemma OneMoreLoaded(server: Server, loaded: map<string, FetchResponse>, p: nat)
    requires Linked(server) && p < |server.chain|
    ensures LoadedToo(server, loaded, loaded[server.chain[p] := ResponseAt(server, p)], p)
  {
  }

  /** Only an end of the rendered list can be fetched, and only before it has been extended. */
  lemma FetchedIsEnd(server: Server, loaded: map<string, FetchResponse>, b: Span, p: nat)
    requires Frontier(server, loaded, b) && b.lo <= b.rlo <= p < b.rhi <= b.hi <= |server.chain|
    requires !LoadedAt(server, loaded, p)
    ensures p == b.lo || p == b.hi - 1
    ensures p == b.rlo ==> b.rlo == b.lo
    ensures p == b.rhi - 1 ==> b.rhi == b.hi
  {
  }

  lemma InsideGrows(server: Server, loaded: map<string, FetchResponse>, loaded': map<string, FetchResponse>, b: Span,
                    p: nat)
    requires LoadedToo(server, loaded, loaded', p) && InsideLoaded(server, loaded, b)
    requires p == b.lo || p == b.hi - 1
    ensures InsideLoaded(server, loaded', Grown(server, b, p))
  {
  }

  lemma NeighboursGrow(server: Server, loaded: map<string, FetchResponse>, loaded': map<string, FetchResponse>,
                       b: Span, p: nat)
    requires LoadedToo(server, loaded, loaded', p) && NeighboursListed(server, loaded, b)
    requires b.lo <= b.rlo <= p < b.rhi <= b.hi <= |server.chain|
    requires (p == b.rlo ==> b.rlo == b.lo) && (p == b.rhi - 1 ==> b.rhi == b.hi)
    requires forall q {:trigger LoadedAt(server, loaded, q)} :: LoadedAt(server, loaded, q) && q != p ==>
      server.chain[q] != server.chain[p]
    ensures NeighboursListed(server, loaded', Grown(server, b, p))
  {
  }

  lemma EdgesGrow(server: Server, loaded: map<string, FetchResponse>, loaded': map<string, FetchResponse>, b: Span,
                  p: nat)
    requires LoadedToo(server, loaded, loaded', p) && EdgesLoaded(server, loaded, b)
    ensures EdgesLoaded(server, loaded', Grown(server, b, p))
  {
  }

  lemma FrontierGrows(server: Server, loaded: map<string, FetchResponse>, b: Span, p: nat)
    requires Linked(server) && Frontier(server, loaded, b) && b.lo <= b.rlo <= p < b.rhi <= b.hi <= |server.chain|
    requires !LoadedAt(server, loaded, p)
    ensures Frontier(server, loaded[server.chain[p] := ResponseAt(server, p)], Grown(server, b, p))
  {
    var loaded' := loaded[server.chain[p] := ResponseAt(server, p)];
    OneMoreLoaded(server, loaded, p);
    FetchedIsEnd(server, loaded, b, p);
    InsideGrows(server, loaded, loaded', b, p);
    NeighboursGrow(server, loaded, loaded', b, p);
    EdgesGrow(server, loaded, loaded', b, p);
  }

  /** A fetched end extends the list by its neighbour, whichever end comes first; a one-element list grows at
      both ends. */
  lemma FetchKeeps(server: Server, start: nat, v: View, b: Span, index: nat)
    requires Inv(server, start, v, b) && index < |v.rendered| && v.rendered[index] !in v.loaded
    ensures Inv(server, start, Received(v, index, ResponseAt(server, b.rlo + index)), Grown(server, b, b.rlo + index))
  {
    var p := b.rlo + index;
    RenderedAt(server, start, v, b, index);
    FetchedIsEnd(server, v.loaded, b, p);
    FrontierGrows(server, v.loaded, b, p);
    SegmentGrows(server, start, v, b, index);
    ReachableGrows(server, start, b, p);
    ReceivedLoads(v, index, ResponseAt(server, p));
    FetchAssembles(server, start, v, Received(v, index, ResponseAt(server, p)), Grown(server, b, p), p);
  }

  lemma FetchAssembles(server: Server, start: nat, v: View, v': View, b': Span, p: nat)
    requires Linked(server) && p < |server.chain| && v'.loaded == v.loaded[server.chain[p] := ResponseAt(server, p)]
    requires Segment(server, start, v', b')
    requires Frontier(server, v.loaded[server.chain[p] := ResponseAt(server, p)], b')
    requires Reachable(server, start, b'.lo) && Reachable(server, start, b'.hi - 1)
    ensures Inv(server, start, v', b')
  {
  }

  lemma RenderedAt(server: Server, start: nat, v: View, b: Span, index: nat)
    requires Segment(server, start, v, b) && index < |v.rendered|
    ensures b.rlo + index < b.rhi && server.chain[b.rlo + index] == v.rendered[index]
    ensures v.rendered[index] !in v.loaded ==> !LoadedAt(server, v.loaded, b.rlo + index)
  {
  }

  lemma ReceivedLoads(v: View, index: nat, data: FetchResponse)
    requires index < |v.rendered|
    ensures Received(v, index, data).loaded == v.loaded[v.rendered[index] := data]
    ensures Received(v, index, data).rendered == v.rendered
  {
  }

  /** What the callback makes of the list, in terms of the chain. */
  lemma SegmentGrows(server: Server, start: nat, v: View, b: Span, index: nat)
    requires Linked(server) && Segment(server, start, v, b) && index < |v.rendered|
    requires index == 0 ==> b.rlo == b.lo
    requires index == |v.rendered| - 1 ==> b.rhi == b.hi
    ensures Segment(server, start, Received(v, index, ResponseAt(server, b.rlo + index)),
                    Grown(server, b, b.rlo + index))
  {
    var p := b.rlo + index;
    if Informed(server, p) {
      RenderedAt(server, start, v, b, index);
      ListReceived(server, v, index, p);
      GrownSlice(server, b, p, index, |v.rendered|);
      GrownIsSegment(server, start, v, b, Received(v, index, ResponseAt(server, p)), p);
    }
  }

  /** The entries a fetch of position `p` adds at either end. */
  function FrontOf(server: Server, index: nat, p: nat): seq<string>
    requires p < |server.chain|
  {
    if index == 0 && p > 0 then [server.chain[p - 1]] else []
  }

  function BackOf(server: Server, index: nat, size: nat, p: nat): seq<string>
    requires p < |server.chain|
  {
    if index + 1 == size && p + 1 < |server.chain| then [server.chain[p + 1]] else []
  }

  lemma GrownSlice(server: Server, b: Span, p: nat, index: nat, size: nat)
    requires b.lo <= b.rlo <= p < b.rhi <= b.hi <= |server.chain| && Informed(server, p)
    requires p == b.rlo + index && size == b.rhi - b.rlo
    requires (index == 0 ==> b.rlo == b.lo) && (index + 1 == size ==> b.rhi == b.hi)
    ensures var b' := Grown(server, b, p);
      && b'.lo <= b'.rlo < b'.rhi <= b'.hi <= |server.chain| && b'.lo <= b.lo
      && b.lo - b'.lo == |FrontOf(server, index, p)|
      && server.chain[b'.lo..b'.hi] ==
           FrontOf(server, index, p) + server.chain[b.lo..b.hi] + BackOf(server, index, size, p)
  {
    var lo, hi := Grown(server, b, p).lo, Grown(server, b, p).hi;
    FrontGrows(server.chain, b.lo, lo, b.hi);
    BackGrows(server.chain, lo, b.hi, hi);
  }

  lemma GrownIsSegment(server: Server, start: nat, v: View, b: Span, v': View, p: nat)
    requires Segment(server, start, v, b) && b.rlo <= p < b.rhi && Informed(server, p)
    requires var b' := Grown(server, b, p);
      && b'.lo <= b'.rlo < b'.rhi <= b'.hi <= |server.chain| && b'.lo <= b.lo
      && v'.list == server.chain[b'.lo..b'.hi] && v'.startingIndex == v.startingIndex + (b.lo - b'.lo)
    requires v'.rendered == v.rendered
    ensures Segment(server, start, v', Grown(server, b, p))
  {
  }

  lemma FrontGrows(chain: seq<string>, lo: nat, lo': nat, hi: nat)
    requires lo' <= lo < hi <= |chain| && lo <= lo' + 1
    ensures chain[lo'..hi] == (if lo' < lo then [chain[lo']] else []) + chain[lo..hi]
  {
  }

  lemma BackGrows(chain: seq<string>, lo: nat, hi: nat, hi': nat)
    requires lo < hi <= hi' <= |chain| && hi' <= hi + 1
    ensures chain[lo..hi'] == chain[lo..hi] + if hi < hi' then [chain[hi]] else []
  {
  }

  lemma ListReceived(server: Server, v: View, index: nat, p: nat)
    requires Linked(server) && index < |v.rendered| && p < |server.chain| && Informed(server, p)
    ensures var v' := Received(v, index, ResponseAt(server, p));
      && v'.list == FrontOf(server, index, p) + v.list + BackOf(server, index, |v.rendered|, p)
      && v'.startingIndex == v.startingIndex + |FrontOf(server, index, p)|
      && v'.rendered == v.rendered
  {
    assert [] + v.list == v.list && forall list: seq<string> :: list + [] == list;
  }

  lemma ReachableGrows(server: Server, start: nat, b: Span, p: nat)
    requires b.lo <= b.rlo <= start < b.rhi <= b.hi <= |server.chain| && b.rlo <= p < b.rhi
    requires (p == b.rlo ==> b.rlo == b.lo) && (p == b.rhi - 1 ==> b.rhi == b.hi)
    requires Reachable(server, start, b.lo) && Reachable(server, start, b.hi - 1)
    ensures Reachable(server, start, Grown(server, b, p).lo) && Reachable(server, start, Grown(server, b, p).hi - 1)
  {
  }

  // ----- whole runs -----

  /** What the server answers for an id. */
  function Fetch(server: Server, id: string): FetchResponse {
    if id in server.chain then ResponseAt(server, IndexOf(server.chain, id)) else FetchResponse(false, None)
  }

  datatype Event = Rerender | Fetched(index: nat)

  /** A fetch is delivered once. */
  predicate Can(v: View, event: Event) {
    event.Fetched? ==> event.index < |v.rendered| && v.rendered[event.index] !in v.loaded
  }

  function Next(server: Server, v: View, event: Event): View
    requires Can(v, event)
  {
    match event
    case Rerender => Rerendered(v)
    case Fetched(index) => Received(v, index, Fetch(server, v.rendered[index]))
  }

  predicate CanAll(server: Server, v: View, events: seq<Event>)
    decreases |events|
  {
    events == [] || (Can(v, events[0]) && CanAll(server, Next(server, v, events[0]), events[1..]))
  }

  function After(server: Server, v: View, events: seq<Event>): View
    requires CanAll(server, v, events)
    decreases |events|
  {
    if events == [] then v else After(server, Next(server, v, events[0]), events[1..])
  }

  function Fetches(events: seq<Event>): nat {
    if events == [] then 0 else (if events[0].Fetched? then 1 else 0) + Fetches(events[1..])
  }

  lemma FetchesItself(server: Server, start: nat, v: View, b: Span, index: nat)
    requires Linked(server) && Segment(server, start, v, b) && index < |v.rendered|
    ensures Fetch(server, v.rendered[index]) == ResponseAt(server, b.rlo + index)
  {
    var p := b.rlo + index;
    assert server.chain[p] == v.rendered[index];
    assert IndexOf(server.chain, v.rendered[index]) == p;
  }

  lemma EventKeeps(server: Server, start: nat, v: View, b: Span, event: Event) returns (b': Span)
    requires Inv(server, start, v, b) && Can(v, event)
    ensures Inv(server, start, Next(server, v, event), b')
  {
    match event
    case Rerender =>
      RenderKeeps(server, start, v, b);
      b' := b.(rlo := b.lo, rhi := b.hi);
    case Fetched(index) =>
      FetchesItself(server, start, v, b, index);
      FetchKeeps(server, start, v, b, index);
      b' := Grown(server, b, b.rlo + index);
  }

  lemma FetchLoadsOne(server: Server, v: View, event: Event)
    requires Can(v, event)
    ensures |Next(server, v, event).loaded| == |v.loaded| + if event.Fetched? then 1 else 0
  {
    if event.Fetched? {
      ReceivedLoads(v, event.index, Fetch(server, v.rendered[event.index]));
    }
  }

  /** In every run the list stays a contiguous segment of the chain with the starting item at
      `startingIndex`, and each fetch loads one more item. */
  lemma {:induction false} RunKeepsSegment(server: Server, start: nat, v: View, b: Span, events: seq<Event>)
    returns (b': Span)
    requires Inv(server, start, v, b) && CanAll(server, v, events)
    ensures Inv(server, start, After(server, v, events), b')
    ensures |After(server, v, events).loaded| == |v.loaded| + Fetches(events)
    decreases |events|
  {
    b' := b;
    if events != [] {
      var b1 := EventKeeps(server, start, v, b, events[0]);
      var v1 := Next(server, v, events[0]);
      FetchLoadsOne(server, v, events[0]);
      b' := RunKeepsSegment(server, start, v1, b1, events[1..]);
    }
  }

  /** From mounting on: the list is a segment of the chain around the starting item. */
  lemma MountedRunsAreSegments(server: Server, start: nat, events: seq<Event>)
    requires Linked(server) && start < |server.chain|
    requires CanAll(server, Mounted(server.chain[start]), events)
    ensures var v := After(server, Mounted(server.chain[start]), events);
      && v.startingIndex <= start && start - v.startingIndex + |v.list| <= |server.chain|
      && v.startingIndex < |v.list| && v.list[v.startingIndex] == server.chain[start]
      && v.list == server.chain[start - v.startingIndex..start - v.startingIndex + |v.list|]
  {
    StartEstablishes(server, start);
    var b := RunKeepsSegment(server, start, Mounted(server.chain[start]), OnlyStart(start), events);
    SegmentShape(server, start, After(server, Mounted(server.chain[start]), events), b);
  }

  lemma SegmentShape(server: Server, start: nat, v: View, b: Span)
    requires Segment(server, start, v, b)
    ensures v.startingIndex <= start && start - v.startingIndex + |v.list| <= |server.chain|
    ensures v.startingIndex < |v.list| && v.list[v.startingIndex] == server.chain[start]
    ensures v.list == server.chain[start - v.startingIndex..start - v.startingIndex + |v.list|]
  {
  }

  /** Loading ends: no run fetches more often than the chain has items. */
  lemma FetchesAreBounded(server: Server, start: nat, events: seq<Event>)
    requires Linked(server) && start < |server.chain|
    requires CanAll(server, Mounted(server.chain[start]), events)
    ensures Fetches(events) <= |server.chain|
  {
    StartEstablishes(server, start);
    var b := RunKeepsSegment(server, start, Mounted(server.chain[start]), OnlyStart(start), events);
    AtMostAll(server.chain, After(server, Mounted(server.chain[start]), events).loaded.Keys);
  }

  lemma {:induction false} AtMostAll(ids: seq<string>, some: set<string>)
    requires forall id :: id in some ==> id in ids
    ensures |some| <= |ids|
    decreases |ids|
  {
    if ids == [] {
      assert some == {};
    } else {
      AtMostAll(ids[1..], some - {ids[0]});
      assert |some| <= |some - {ids[0]}| + 1;
    }
  }

  // ----- the end of loading -----

  /** The current render is up to date and every fetch it asked for has been delivered. */
  predicate Settled(v: View) {
    v.rendered == v.list && forall i :: 0 <= i < |v.rendered| ==> v.rendered[i] in v.loaded
  }

  /** When nothing more happens, the list is exactly what can be reached from the starting item. */
  lemma SettledIsReachable(server: Server, start: nat, v: View, b: Span, p: nat)
    requires Inv(server, start, v, b) && Settled(v) && p < |server.chain|
    ensures v.startingIndex == start - b.lo && v.list == server.chain[b.lo..b.hi]
    ensures b.lo <= p < b.hi <==> Reachable(server, start, p)
  {
    assert v.list[0] in v.loaded && v.list[|v.list| - 1] in v.loaded;
    assert LoadedAt(server, v.loaded, b.lo) by { assert v.list[0] == server.chain[b.lo]; }
    assert LoadedAt(server, v.loaded, b.hi - 1) by { assert v.list[|v.list| - 1] == server.chain[b.hi - 1]; }
    assert p < b.lo ==> !Informed(server, b.lo);
    assert b.hi <= p ==> !Informed(server, b.hi - 1);
  }

  /** The list is then the whole chain if and only if every item that loading has to pass has versioning info. */
  lemma SettledIsWholeChain(server: Server, start: nat, v: View, b: Span)
    requires Inv(server, start, v, b) && Settled(v)
    ensures v.list == server.chain <==>
            Reachable(server, start, 0) && Reachable(server, start, |server.chain| - 1)
    ensures v.list == server.chain ==> v.startingIndex == start
  {
    var n := |server.chain|;
    SettledIsReachable(server, start, v, b, 0);
    SettledIsReachable(server, start, v, b, n - 1);
    WholeIff(server.chain, b.lo, b.hi);
  }

  lemma WholeIff(chain: seq<string>, lo: nat, hi: nat)
    requires lo < hi <= |chain|
    ensures chain[lo..hi] == chain <==> lo == 0 && hi == |chain|
  {
    if lo == 0 && hi == |chain| {
      assert chain[0..|chain|] == chain;
    } else {
      assert |chain[lo..hi]| < |chain|;
    }
  }

  // ----- how many extensions it takes -----

  /** How often a success callback extends the list. */
  function Pushes(v: View, index: nat, data: FetchResponse): nat
    requires index < |v.rendered|
  {
    if !data.success || data.versioningInfo.None? then 0
    else
      var info := data.versioningInfo.value;
      (if index == 0 && Present(info.previousVersion) then 1 else 0) +
      (if index == |v.rendered| - 1 && Present(info.nextVersion) then 1 else 0)
  }

  function ExtensionsBy(server: Server, v: View, event: Event): nat
    requires Can(v, event)
  {
    match event
    case Rerender => 0
    case Fetched(index) => Pushes(v, index, Fetch(server, v.rendered[index]))
  }

  function Extensions(server: Server, v: View, events: seq<Event>): nat
    requires CanAll(server, v, events)
    decreases |events|
  {
    if events == [] then 0
    else ExtensionsBy(server, v, events[0]) + Extensions(server, Next(server, v, events[0]), events[1..])
  }

  /** What is left of the chain to list. */
  function Unlisted(server: Server, v: View): int {
    |server.chain| - |v.list|
  }

  /** Every extension takes one item off what is left, and there is never less than nothing left. */
  lemma ExtensionsTake(server: Server, start: nat, v: View, b: Span, event: Event)
    requires Inv(server, start, v, b) && Can(v, event)
    ensures Unlisted(server, Next(server, v, event)) == Unlisted(server, v) - ExtensionsBy(server, v, event)
    ensures Unlisted(server, Next(server, v, event)) >= 0
  {
    var b' := EventKeeps(server, start, v, b, event);
    InvBounds(server, start, Next(server, v, event), b');
    ExtensionsGrow(server, v, event);
  }

  lemma InvBounds(server: Server, start: nat, v: View, b: Span)
    requires Inv(server, start, v, b)
    ensures |v.list| <= |server.chain|
  {
  }

  lemma ExtensionsGrow(server: Server, v: View, event: Event)
    requires Can(v, event)
    ensures |Next(server, v, event).list| == |v.list| + ExtensionsBy(server, v, event)
  {
  }

  lemma {:induction false} ExtensionsCount(server: Server, v: View, events: seq<Event>)
    requires CanAll(server, v, events)
    ensures |After(server, v, events).list| == |v.list| + Extensions(server, v, events)
    decreases |events|
  {
    if events != [] {
      ExtensionsCount(server, Next(server, v, events[0]), events[1..]);
    }
  }

  /** However the fetches and renders were ordered: once nothing more happens, the list has been made by exactly one
      extension less than it has items, which is one less than the chain has if and only if all of it can be
      reached. */
  lemma ExactlyTheExtensionsNeeded(server: Server, start: nat, events: seq<Event>)
    requires Linked(server) && start < |server.chain|
    requires CanAll(server, Mounted(server.chain[start]), events)
    ensures var v := Mounted(server.chain[start]);
      && Extensions(server, v, events) <= |server.chain| - 1
      && Extensions(server, v, events) == |After(server, v, events).list| - 1
      && (Settled(After(server, v, events)) ==>
            (Extensions(server, v, events) == |server.chain| - 1 <==>
             Reachable(server, start, 0) && Reachable(server, start, |server.chain| - 1)))
  {
    var v := Mounted(server.chain[start]);
    StartEstablishes(server, start);
    var b := RunKeepsSegment(server, start, v, OnlyStart(start), events);
    ExtensionsCount(server, v, events);
    if Settled(After(server, v, events)) {
      SettledIsWholeChain(server, start, After(server, v, events), b);
      WholeIff(server.chain, b.lo, b.hi);
    }
  }

  /** Loading does not stop early: until it has settled, a render is due or a fetch is still to be delivered. */
  lemma UnsettledGoesOn(server: Server, v: View) returns (event: Event)
    requires !Settled(v)
    ensures Can(v, event)
    ensures var v' := Next(server, v, event);
      if v.rendered == v.list then |v'.loaded| == |v.loaded| + 1
      else v'.rendered == v'.list == v.list && v'.loaded == v.loaded
  {
    if v.rendered != v.list {
      event := Rerender;
    } else {
      var i :| 0 <= i < |v.rendered| && v.rendered[i] !in v.loaded;
      event := Fetched(i);
      ReceivedLoads(v, i, Fetch(server, v.rendered[i]));
    }
  }

  lemma LoadedAtMost(server: Server, start: nat, v: View, b: Span)
    requires Inv(server, start, v, b)
    ensures |v.loaded| <= |server.chain|
  {
    AtMostAll(server.chain, v.loaded.Keys);
  }

  /** ... so from every state of loading some run settles. */
  lemma {:induction false} LoadingSettles(server: Server, start: nat, v: View, b: Span) returns (events: seq<Event>)
    requires Inv(server, start, v, b)
    ensures CanAll(server, v, events) && Settled(After(server, v, events))
    decreases |server.chain| - |v.loaded|, v.rendered != v.list
  {
    if Settled(v) {
      events := [];
    } else {
      var event := UnsettledGoesOn(server, v);
      var b' := EventKeeps(server, start, v, b, event);
      LoadedAtMost(server, start, Next(server, v, event), b');
      var rest := LoadingSettles(server, start, Next(server, v, event), b');
      events := [event] + rest;
      assert events[1..] == rest;
    }
  }

  /** The hook reports completion exactly when the server writes missing neighbours as null, the render shows
      the whole chain, and both its ends have been fetched and have versioning info. */
  lemma CompleteIffWholeChain(server: Server, start: nat, v: View, b: Span)
    requires Inv(server, start, v, b)
    ensures v.rendered != []
    ensures Complete(v) <==>
      && server.absent == Null && v.rendered == server.chain
      && v.rendered[0] in v.loaded && v.rendered[|v.rendered| - 1] in v.loaded
      && Informed(server, 0) && Informed(server, |server.chain| - 1)
  {
    assert v.rendered[0] == server.chain[b.rlo] && v.rendered[|v.rendered| - 1] == server.chain[b.rhi - 1];
    WholeIff(server.chain, b.rlo, b.rhi);
    if v.rendered[0] in v.loaded && v.rendered[|v.rendered| - 1] in v.loaded {
      assert LoadedAt(server, v.loaded, b.rlo) && LoadedAt(server, v.loaded, b.rhi - 1);
    }
  }

  /** When nothing more happens, completion is reported if and only if missing neighbours are written as null and
      every item of the chain has versioning info. */
  lemma CompleteInTheEndIff(server: Server, start: nat, v: View, b: Span)
    requires Inv(server, start, v, b) && Settled(v)
    ensures v.rendered != []
    ensures Complete(v) <==> server.absent == Null && forall p :: 0 <= p < |server.chain| ==> Informed(server, p)
  {
    CompleteIffWholeChain(server, start, v, b);
    SettledIsWholeChain(server, start, v, b);
    if Complete(v) {
      forall p | 0 <= p < |server.chain| ensures Informed(server, p) {
        assert 0 < p <= start || start <= p < |server.chain| - 1 || p == 0 || p == |server.chain| - 1;
      }
    }
  }

  /** A chain whose first item has no versioning info: from its second item everything is loaded, and completion
      is not reported all the same. */
  lemma BareFirstNeverCompletes() returns (events: seq<Event>)
    ensures var server := Server(["A", "B"], Null, {"A"});
      && Linked(server) && CanAll(server, Mounted("B"), events)
      && var v := After(server, Mounted("B"), events);
         Settled(v) && v.rendered == server.chain && !Complete(v)
  {
    var server := Server(["A", "B"], Null, {"A"});
    assert server.chain[1] == "B" && !Informed(server, 0) && Informed(server, 1);
    StartEstablishes(server, 1);
    events := LoadingSettles(server, 1, Mounted("B"), OnlyStart(1));
    var b := RunKeepsSegment(server, 1, Mounted("B"), OnlyStart(1), events);
    SettledIsWholeChain(server, 1, After(server, Mounted("B"), events), b);
    CompleteInTheEndIff(server, 1, After(server, Mounted("B"), events), b);
  }

  /** If a missing neighbour were left out instead, the hook would never report completion. */
  lemma NeverCompleteWithoutNull(server: Server, start: nat, events: seq<Event>)
    requires Linked(server) && start < |server.chain| && server.absent == Undefined
    requires CanAll(server, Mounted(server.chain[start]), events)
    ensures var v := After(server, Mounted(server.chain[start]), events); v.rendered != [] && !Complete(v)
  {
    StartEstablishes(server, start);
    var b := RunKeepsSegment(server, start, Mounted(server.chain[start]), OnlyStart(start), events);
    CompleteIffWholeChain(server, start, After(server, Mounted(server.chain[start]), events), b);
  }
}
