/** The paginated list hooks and the cursor-paged server list they read. */
module Pagination {
  import opened Common

  // ----- the server -----

  /** Rows are ordered by a sort value and then by id, and both enter only through their rank in the direction of
      the list: a later row has the lower rank, whether the list ascends or descends. */
  datatype Cursor = Cursor(sortRank: int, idRank: int)

  datatype Row = Row(key: Cursor, content: Record)

  predicate Before(a: Cursor, b: Cursor) {
    a.sortRank < b.sortRank || (a.sortRank == b.sortRank && a.idRank < b.idRank)
  }

  /** In list order, keys unique. */
  ghost predicate Ordered(rows: seq<Row>) {
    forall i, j :: 0 <= i < j < |rows| ==> Before(rows[j].key, rows[i].key)
  }

  function After(rows: seq<Row>, cursor: Option<Cursor>): seq<Row> {
    if rows == [] then []
    else (if cursor.None? || Before(rows[0].key, cursor.value) then [rows[0]] else []) + After(rows[1..], cursor)
  }

  datatype Page = Page(items: Option<seq<Row>>, paginationKey: Option<Cursor>)

  function Take<T>(items: seq<T>, n: nat): seq<T> {
    if |items| <= n then items else items[..n]
  }

  /** The first of the remaining rows, one more than asked for to see whether there are more. */
  function FirstPage(remaining: seq<Row>, limit: nat): Page {
    var fetched := Take(remaining, limit + 1);
    var hasMore := |fetched| > limit;
    var page := if hasMore then fetched[..limit] else fetched;
    Page(Some(page), if hasMore && page != [] then Some(page[|page| - 1].key) else None)
  }

  /** The page beyond the cursor. */
  function List(rows: seq<Row>, cursor: Option<Cursor>, limit: nat): Page {
    FirstPage(After(rows, cursor), limit)
  }

  // ----- the hook's state -----

  datatype ListState = ListState(
    records: Option<seq<Row>>, cursor: Option<Cursor>, firstFetch: bool, moreRequested: bool, moreRemaining: bool)

  function Fresh(fetchOnStart: bool): ListState {
    ListState(None, None, fetchOnStart, false, true)
  }

  function RecordsOf(s: ListState): seq<Row> {
    if s.records.Some? then s.records.value else []
  }

  function ItemsOf(page: Page): seq<Row> {
    if page.items.Some? then page.items.value else []
  }

  predicate QueryReady(enabled: bool, s: ListState) {
    enabled && (s.firstFetch || (s.moreRequested && s.moreRemaining))
  }

  function Accepted(s: ListState, page: Page): ListState {
    ListState(Some(RecordsOf(s) + ItemsOf(page)), page.paginationKey, false, false, page.paginationKey.Some?)
  }

  function Requested(s: ListState): ListState {
    if s.moreRemaining then s.(moreRequested := true) else s
  }

  /** The generic hook. */
  class GenericPaginatedList {
    const fetchOnStart: bool
    const enabled: bool
    var currentRecords: Option<seq<Row>>
    var lastPaginationKey: Option<Cursor>
    var firstFetch: bool
    var moreRequested: bool
    var moreRemaining: bool

    function View(): ListState
      reads this
    {
      ListState(currentRecords, lastPaginationKey, firstFetch, moreRequested, moreRemaining)
    }

    constructor (fetchOnStart: bool, enabled: bool)
      ensures this.fetchOnStart == fetchOnStart && this.enabled == enabled && View() == Fresh(fetchOnStart)
      ensures currentRecords == None && lastPaginationKey == None
      ensures firstFetch == fetchOnStart && !moreRequested && moreRemaining
    {
      this.fetchOnStart, this.enabled := fetchOnStart, enabled;
      currentRecords, lastPaginationKey := None, None;
      firstFetch, moreRequested, moreRemaining := fetchOnStart, false, true;
    }

    method ResetState()
      modifies this
      ensures View() == Fresh(fetchOnStart)
      ensures currentRecords == None && lastPaginationKey == None
      ensures firstFetch == fetchOnStart && !moreRequested && moreRemaining
    {
      currentRecords, lastPaginationKey := None, None;
      firstFetch, moreRequested, moreRemaining := fetchOnStart, false, true;
    }

    method MoreItemsHandler(items: seq<Row>) returns (listCopy: seq<Row>)
      modifies this`currentRecords
      ensures currentRecords == Some(listCopy)
      ensures listCopy == (if old(currentRecords).Some? then old(currentRecords).value else []) + items
    {
      ghost var start := if currentRecords.Some? then currentRecords.value else [];
      listCopy := if currentRecords.Some? then currentRecords.value else [];
      for i := 0 to |items|
        invariant listCopy == start + items[..i]
      {
        listCopy := listCopy + [items[i]];
      }
      assert items[..|items|] == items;
      currentRecords := Some(listCopy);
    }

    /** A page arrives; `moreLoaded` are the records to report if this was an additional page. */
    method OnSuccess(page: Page) returns (moreLoaded: Option<seq<Row>>)
      modifies this
      ensures View() == Accepted(old(View()), page)
      ensures currentRecords == Some((if old(currentRecords).Some? then old(currentRecords).value else [])
                                     + (if page.items.Some? then page.items.value else []))
      ensures lastPaginationKey == page.paginationKey && (moreRemaining <==> page.paginationKey.Some?)
      ensures !firstFetch && !moreRequested
      ensures moreLoaded == if old(moreRequested) then currentRecords else None
    {
      firstFetch := false;
      var wasMore := moreRequested;
      moreRequested := false;
      var newRecords := MoreItemsHandler(ItemsOf(page));
      if page.paginationKey.Some? {
        lastPaginationKey, moreRemaining := page.paginationKey, true;
      } else {
        lastPaginationKey, moreRemaining := None, false;
      }
      moreLoaded := if wasMore then Some(newRecords) else None;
    }

    method RequestMoreRecords()
      modifies this
      ensures View() == Requested(old(View()))
      ensures moreRequested == (old(moreRequested) || old(moreRemaining)) && moreRemaining == old(moreRemaining)
      ensures currentRecords == old(currentRecords) && lastPaginationKey == old(lastPaginationKey)
      ensures firstFetch == old(firstFetch)
    {
      if moreRemaining {
        moreRequested := true;
      }
    }
  }

  /** The registry hook: the same five fields, and an effect that resets them when what is listed changes. */
  class RegistryPaginatedList<Options(==)> {
    const fetchOnStart: bool
    const enabled: bool
    var options: Options
    var currentRecords: Option<seq<Row>>
    var lastPaginationKey: Option<Cursor>
    var firstFetch: bool
    var moreRequested: bool
    var moreRemaining: bool

    function View(): ListState
      reads this
    {
      ListState(currentRecords, lastPaginationKey, firstFetch, moreRequested, moreRemaining)
    }

    /** Mounting runs the reset effect once, on the state it would produce. */
    constructor (fetchOnStart: bool, enabled: bool, options: Options)
      ensures this.fetchOnStart == fetchOnStart && this.enabled == enabled && this.options == options
      ensures View() == Fresh(fetchOnStart)
      ensures currentRecords == None && lastPaginationKey == None
      ensures firstFetch == fetchOnStart && !moreRequested && moreRemaining
    {
      this.fetchOnStart, this.enabled, this.options := fetchOnStart, enabled, options;
      currentRecords, lastPaginationKey := None, None;
      firstFetch, moreRequested, moreRemaining := fetchOnStart, false, true;
      new;
      ResetState();
    }

    method ResetState()
      modifies this
      ensures View() == Fresh(fetchOnStart) && options == old(options)
      ensures currentRecords == None && lastPaginationKey == None
      ensures firstFetch == fetchOnStart && !moreRequested && moreRemaining
    {
      currentRecords, lastPaginationKey := None, None;
      firstFetch := fetchOnStart;
      moreRequested := false;
      moreRemaining := true;
    }

    /** A render with these sort and filter options: the effect runs only if they differ. */
    method RenderWith(newOptions: Options)
      modifies this
      ensures options == newOptions
      ensures newOptions == old(options) ==> View() == old(View())
      ensures newOptions != old(options) ==>
        View() == Fresh(fetchOnStart) && View() == ListState(None, None, fetchOnStart, false, true)
    {
      if newOptions != options {
        options := newOptions;
        ResetState();
      }
    }

    method MoreItemsHandler(items: seq<Row>) returns (listCopy: seq<Row>)
      modifies this`currentRecords
      ensures currentRecords == Some(listCopy)
      ensures listCopy == (if old(currentRecords).Some? then old(currentRecords).value else []) + items
    {
      ghost var start := if currentRecords.Some? then currentRecords.value else [];
      listCopy := if currentRecords.Some? then currentRecords.value else [];
      for i := 0 to |items|
        invariant listCopy == start + items[..i]
      {
        listCopy := listCopy + [items[i]];
      }
      assert items[..|items|] == items;
      currentRecords := Some(listCopy);
    }

    method OnSuccess(page: Page) returns (moreLoaded: Option<seq<Row>>)
      modifies this
      ensures View() == Accepted(old(View()), page) && options == old(options)
      ensures currentRecords == Some((if old(currentRecords).Some? then old(currentRecords).value else [])
                                     + (if page.items.Some? then page.items.value else []))
      ensures lastPaginationKey == page.paginationKey && (moreRemaining <==> page.paginationKey.Some?)
      ensures !firstFetch && !moreRequested
      ensures moreLoaded == if old(moreRequested) then currentRecords else None
    {
      firstFetch := false;
      var wasMore := moreRequested;
      moreRequested := false;
      var newRecords := MoreItemsHandler(ItemsOf(page));
      if page.paginationKey.Some? {
        lastPaginationKey, moreRemaining := page.paginationKey, true;
      } else {
        lastPaginationKey, moreRemaining := None, false;
      }
      moreLoaded := if wasMore then Some(newRecords) else None;
    }

    method RequestMoreRecords()
      modifies this
      ensures View() == Requested(old(View())) && options == old(options)
      ensures moreRequested == (old(moreRequested) || old(moreRemaining)) && moreRemaining == old(moreRemaining)
      ensures currentRecords == old(currentRecords) && lastPaginationKey == old(lastPaginationKey)
      ensures firstFetch == old(firstFetch)
    {
      if moreRemaining {
        moreRequested := true;
      }
    }
  }

  /** When a fetch may run: after a reset exactly if fetching on start or asked to; after a page exactly if more
      remain and they are asked for. */
  lemma ReadyWhen(enabled: bool, fetchOnStart: bool, s: ListState, page: Page)
    ensures QueryReady(enabled, Fresh(fetchOnStart)) <==> enabled && fetchOnStart
    ensures QueryReady(enabled, Requested(Fresh(fetchOnStart))) <==> enabled
    ensures !QueryReady(enabled, Accepted(s, page))
    ensures QueryReady(enabled, Requested(Accepted(s, page))) <==> enabled && page.paginationKey.Some?
  {
  }

  // ----- what the server's pages are -----

  lemma {:induction false} AfterNothing(rows: seq<Row>)
    ensures After(rows, None) == rows
    decreases |rows|
  {
    if rows != [] {
      AfterNothing(rows[1..]);
    }
  }

  lemma {:induction false} AfterAll(rows: seq<Row>, cursor: Cursor)
    requires forall i :: 0 <= i < |rows| ==> Before(rows[i].key, cursor)
    ensures After(rows, Some(cursor)) == rows
    decreases |rows|
  {
    if rows != [] {
      AfterAll(rows[1..], cursor);
    }
  }

  /** Beyond the key of row `m - 1` lie exactly the rows from `m` on. */
  lemma {:induction false} AfterRow(rows: seq<Row>, m: nat)
    requires Ordered(rows) && 0 < m <= |rows|
    ensures After(rows, Some(rows[m - 1].key)) == rows[m..]
    decreases m
  {
    var cursor := rows[m - 1].key;
    if m == 1 {
      AfterAll(rows[1..], cursor);
    } else {
      AfterRow(rows[1..], m - 1);
      assert rows[1..][m - 1..] == rows[m..];
    }
  }

  // ----- the hook against a stable list -----

  /** The records are exactly the rows before the cursor; without a cursor, none or all of them. */
  ghost predicate Inv(rows: seq<Row>, s: ListState) {
    match s.records
    case None => s.cursor == None && s.moreRemaining
    case Some(records) =>
      && |records| <= |rows| && records == rows[..|records|] && !s.firstFetch
      && (s.moreRemaining <==> s.cursor.Some?)
      && (s.cursor.Some? ==> 0 < |records| < |rows| && s.cursor.value == rows[|records| - 1].key)
      && (s.cursor.None? ==> records == rows)
  }

  datatype Event = Fetched | Request | Reset

  predicate Can(enabled: bool, s: ListState, event: Event) {
    event.Fetched? ==> QueryReady(enabled, s)
  }

  function Next(fetchOnStart: bool, rows: seq<Row>, limit: nat, s: ListState, event: Event): ListState {
    match event
    case Fetched => Accepted(s, List(rows, s.cursor, limit))
    case Request => Requested(s)
    case Reset => Fresh(fetchOnStart)
  }

  /** The rows still to come. */
  function Remaining(rows: seq<Row>, s: ListState): nat {
    if |RecordsOf(s)| <= |rows| then |rows| - |RecordsOf(s)| else 0
  }

  /** Which rows a fetch returns, and whether it has a key: more rows remain, and it is not empty. */
  lemma PageIsNextSlice(rows: seq<Row>, m: nat, cursor: Option<Cursor>, limit: nat)
    requires Ordered(rows) && m <= |rows|
    requires if cursor.None? then m == 0 else 0 < m && cursor.value == rows[m - 1].key
    ensures var page := List(rows, cursor, limit); var end := if m + limit < |rows| then m + limit else |rows|;
      && page.items == Some(rows[m..end])
      && page.paginationKey == if m < end < |rows| then Some(rows[end - 1].key) else None
  {
    BeyondCursor(rows, m, cursor);
    SliceIsPage(rows, m, limit);
  }

  lemma BeyondCursor(rows: seq<Row>, m: nat, cursor: Option<Cursor>)
    requires Ordered(rows) && m <= |rows|
    requires if cursor.None? then m == 0 else 0 < m && cursor.value == rows[m - 1].key
    ensures After(rows, cursor) == rows[m..]
  {
    if cursor.None? {
      AfterNothing(rows);
    } else {
      AfterRow(rows, m);
    }
  }

  lemma SliceIsPage(rows: seq<Row>, m: nat, limit: nat)
    requires m <= |rows|
    ensures var page := FirstPage(rows[m..], limit); var end := if m + limit < |rows| then m + limit else |rows|;
      && page.items == Some(rows[m..end])
      && page.paginationKey == if m < end < |rows| then Some(rows[end - 1].key) else None
  {
    TakeOneMore(rows, m, limit);
  }

  /** Taking one more than asked for shows whether there are more, and the page is the slice asked for. */
  lemma TakeOneMore(rows: seq<Row>, m: nat, limit: nat)
    requires m <= |rows|
    ensures var taken := Take(rows[m..], limit + 1);
      && (|taken| > limit <==> m + limit < |rows|)
      && if |taken| > limit then taken[..limit] == rows[m..m + limit] else taken == rows[m..|rows|]
  {
    if m + limit < |rows| {
      assert Take(rows[m..], limit + 1) == rows[m..m + limit + 1];
      assert rows[m..m + limit + 1][..limit] == rows[m..m + limit];
    } else {
      assert rows[m..] == rows[m..|rows|];
    }
  }

  /** Every fetch appends exactly the next rows, so nothing is skipped or repeated; it brings the end nearer. */
  lemma FetchKeepsInv(rows: seq<Row>, limit: nat, enabled: bool, s: ListState)
    requires Ordered(rows) && limit > 0 && Inv(rows, s) && QueryReady(enabled, s)
    ensures var s' := Accepted(s, List(rows, s.cursor, limit));
      && Inv(rows, s') && RecordsOf(s) <= RecordsOf(s')
      && (rows != [] ==> Remaining(rows, s') < Remaining(rows, s))
  {
    var m := |RecordsOf(s)|;
    PageIsNextSlice(rows, m, s.cursor, limit);
    SliceKeepsInv(rows, s, List(rows, s.cursor, limit), if m + limit < |rows| then m + limit else |rows|);
  }

  lemma SliceKeepsInv(rows: seq<Row>, s: ListState, page: Page, end: nat)
    requires Inv(rows, s) && (s.records.Some? ==> s.cursor.Some?)
    requires |RecordsOf(s)| <= end <= |rows| && (rows != [] ==> |RecordsOf(s)| < end)
    requires page.items == Some(rows[|RecordsOf(s)|..end])
    requires page.paginationKey == if end < |rows| then Some(rows[end - 1].key) else None
    ensures Inv(rows, Accepted(s, page)) && RecordsOf(Accepted(s, page)) == rows[..end]
    ensures RecordsOf(s) <= rows[..end]
  {
    var m := |RecordsOf(s)|;
    assert rows[..m] + rows[m..end] == rows[..end];
    assert RecordsOf(s) == rows[..m];
    assert rows[..|rows|] == rows;
  }

  predicate CanAll(fetchOnStart: bool, enabled: bool, rows: seq<Row>, limit: nat, s: ListState, events: seq<Event>)
    decreases |events|
  {
    events == [] ||
    (Can(enabled, s, events[0]) &&
     CanAll(fetchOnStart, enabled, rows, limit, Next(fetchOnStart, rows, limit, s, events[0]), events[1..]))
  }

  function Run(fetchOnStart: bool, rows: seq<Row>, limit: nat, s: ListState, events: seq<Event>): ListState
    decreases |events|
  {
    if events == [] then s
    else Run(fetchOnStart, rows, limit, Next(fetchOnStart, rows, limit, s, events[0]), events[1..])
  }

  /** At every point of every run the records are exactly the rows before the cursor. */
  lemma {:induction false} RunKeepsInv(fetchOnStart: bool, enabled: bool, rows: seq<Row>, limit: nat, s: ListState,
                                       events: seq<Event>)
    requires Ordered(rows) && limit > 0 && Inv(rows, s)
    requires CanAll(fetchOnStart, enabled, rows, limit, s, events)
    ensures Inv(rows, Run(fetchOnStart, rows, limit, s, events))
    decreases |events|
  {
    if events != [] {
      if events[0].Fetched? {
        FetchKeepsInv(rows, limit, enabled, s);
      }
      RunKeepsInv(fetchOnStart, enabled, rows, limit, Next(fetchOnStart, rows, limit, s, events[0]), events[1..]);
    }
  }

  /** When no more records remain they are the whole list, and nothing but a reset enables another fetch. */
  lemma {:induction false} ExhaustedStaysExhausted(fetchOnStart: bool, enabled: bool, rows: seq<Row>, limit: nat,
                                                   s: ListState, events: seq<Event>)
    requires Inv(rows, s) && !s.moreRemaining && (forall event :: event in events ==> !event.Reset?)
    requires CanAll(fetchOnStart, enabled, rows, limit, s, events)
    ensures s.records == Some(rows) && !QueryReady(enabled, s)
    ensures Run(fetchOnStart, rows, limit, s, events) == s
    ensures forall event :: event in events ==> event.Request?
    decreases |events|
  {
    if events != [] {
      assert events[0].Request?;
      ExhaustedStaysExhausted(fetchOnStart, enabled, rows, limit, s, events[1..]);
    }
  }

  /** Keep asking and the whole list arrives: `rounds` requests and fetches after the first page. */
  function AskFor(rounds: nat): seq<Event> {
    if rounds == 0 then [] else [Request, Fetched] + AskFor(rounds - 1)
  }

  lemma OneMoreRound(rows: seq<Row>, limit: nat, s: ListState) returns (s': ListState)
    requires Ordered(rows) && limit > 0 && Inv(rows, s) && s.moreRemaining
    ensures s' == Accepted(Requested(s), List(rows, s.cursor, limit)) && Inv(rows, s')
    ensures s'.moreRemaining ==> Remaining(rows, s') < Remaining(rows, s)
  {
    FetchKeepsInv(rows, limit, true, Requested(s));
    s' := Accepted(Requested(s), List(rows, s.cursor, limit));
  }

  lemma DoneIsWhole(fetchOnStart: bool, rows: seq<Row>, limit: nat, s: ListState)
    requires Inv(rows, s) && !s.moreRemaining
    ensures CanAll(fetchOnStart, true, rows, limit, s, AskFor(0))
    ensures Run(fetchOnStart, rows, limit, s, AskFor(0)).records == Some(rows)
  {
  }

  lemma {:induction false} AskingLoadsAll(fetchOnStart: bool, rows: seq<Row>, limit: nat, s: ListState)
    returns (rounds: nat)
    requires Ordered(rows) && limit > 0 && Inv(rows, s)
    ensures CanAll(fetchOnStart, true, rows, limit, s, AskFor(rounds))
    ensures Run(fetchOnStart, rows, limit, s, AskFor(rounds)).records == Some(rows)
    decreases s.moreRemaining, Remaining(rows, s)
  {
    if !s.moreRemaining {
      rounds := 0;
      DoneIsWhole(fetchOnStart, rows, limit, s);
    } else {
      var s' := OneMoreRound(rows, limit, s);
      var rest := AskingLoadsAll(fetchOnStart, rows, limit, s');
      rounds := rest + 1;
      RoundRuns(fetchOnStart, rows, limit, s, rest);
    }
  }

  lemma RoundRuns(fetchOnStart: bool, rows: seq<Row>, limit: nat, s: ListState, rest: nat)
    requires s.moreRemaining
    ensures var s' := Accepted(Requested(s), List(rows, s.cursor, limit));
      && CanAll(fetchOnStart, true, rows, limit, s, AskFor(rest + 1))
           == CanAll(fetchOnStart, true, rows, limit, s', AskFor(rest))
      && Run(fetchOnStart, rows, limit, s, AskFor(rest + 1)) == Run(fetchOnStart, rows, limit, s', AskFor(rest))
  {
    var events := AskFor(rest + 1);
    assert events[0] == Request && events[1..][0] == Fetched && events[1..][1..] == AskFor(rest);
    assert CanAll(fetchOnStart, true, rows, limit, s, events) ==
      CanAll(fetchOnStart, true, rows, limit, Requested(s), events[1..]);
    assert Run(fetchOnStart, rows, limit, s, events) == Run(fetchOnStart, rows, limit, Requested(s), events[1..]);
  }

  /** With a page size of zero the first page ends the list: "no more" after it means everything was loaded exactly
      when pages are not empty or there is nothing to load. */
  lemma FirstPageHonestIff(rows: seq<Row>, limit: nat, fetchOnStart: bool)
    requires Ordered(rows)
    ensures var s := Accepted(Fresh(fetchOnStart), List(rows, None, limit));
      (!s.moreRemaining ==> s.records == Some(rows)) <==> (limit > 0 || rows == [])
  {
    AfterNothing(rows);
    if limit > 0 {
      PageIsNextSlice(rows, 0, None, limit);
      assert [] + rows[0..|rows|] == rows;
    } else {
      assert Take(rows, 1)[..0] == [];
    }
  }

  /** For fixed options the registry hook and the generic hook with the registry's pager go through the same
      states, and a reset brings both back to where they started. */
  method Lockstep<Options>(generic: GenericPaginatedList, registry: RegistryPaginatedList<Options>,
                           rows: seq<Row>, limit: nat, events: seq<Event>)
    requires generic.fetchOnStart == registry.fetchOnStart && generic.enabled == registry.enabled
    requires generic.View() == registry.View()
    requires CanAll(generic.fetchOnStart, generic.enabled, rows, limit, generic.View(), events)
    modifies generic, registry
    ensures generic.View() == registry.View() && registry.options == old(registry.options)
    ensures generic.View() == Run(generic.fetchOnStart, rows, limit, old(generic.View()), events)
  {
    ghost var start := generic.View();
    for i := 0 to |events|
      invariant generic.View() == registry.View() && registry.options == old(registry.options)
      invariant CanAll(generic.fetchOnStart, generic.enabled, rows, limit, generic.View(), events[i..])
      invariant Run(generic.fetchOnStart, rows, limit, generic.View(), events[i..]) ==
                Run(generic.fetchOnStart, rows, limit, start, events)
    {
      assert events[i..][1..] == events[i + 1..];
      match events[i]
      case Fetched =>
        var page := List(rows, generic.lastPaginationKey, limit);
        var a := generic.OnSuccess(page);
        var b := registry.OnSuccess(List(rows, registry.lastPaginationKey, limit));
      case Request =>
        generic.RequestMoreRecords();
        registry.RequestMoreRecords();
      case Reset =>
        generic.ResetState();
        registry.ResetState();
    }
  }
}
