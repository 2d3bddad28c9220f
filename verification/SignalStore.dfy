/** The signal list: filters, sorting, pagination, and the view computed from them. */
module SignalStore {
  import opened Seqs
  import opened StableSort

  datatype Direction = Buy | Sell
  datatype Mode = Backtest | ForwardTest | Live

  datatype Signal = Signal(
    id: string, instrument: string, direction: Direction, mode: Mode, timeframe: string,
    entryPrice: real, confidence: real, createdAt: string)

  /** `None` stands for "ALL". */
  datatype Filters = Filters(direction: Option<Direction>, mode: Option<Mode>, timeframe: Option<string>)

  datatype Field = CreatedAt | Confidence | EntryPrice
  datatype Order = Asc | Desc
  datatype SortBy = SortBy(field: Field, order: Order)

  /** `collate(a, b)` stands for `a.localeCompare(b) <= 0`. */
  type Collation = (string, string) -> bool

  predicate Passes(f: Filters, s: Signal) {
    && (f.direction == None || f.direction == Some(s.direction))
    && (f.mode == None || f.mode == Some(s.mode))
    && (f.timeframe == None || f.timeframe == Some(s.timeframe))
  }

  predicate FieldLe(collate: Collation, field: Field, a: Signal, b: Signal) {
    match field
    case CreatedAt => collate(a.createdAt, b.createdAt)
    case Confidence => a.confidence <= b.confidence
    case EntryPrice => a.entryPrice <= b.entryPrice
  }

  /** "desc" negates the comparison, so it turns the order around but keeps ties as they are. */
  function Comparator(collate: Collation, sort: SortBy): (Signal, Signal) -> bool {
    (a: Signal, b: Signal) => if sort.order == Asc then FieldLe(collate, sort.field, a, b) else FieldLe(collate, sort.field, b, a)
  }

  function Filtered(f: Filters, signals: seq<Signal>): seq<Signal> { Filter((s: Signal) => Passes(f, s), signals) }

  function SortedBy(collate: Collation, sort: SortBy, signals: seq<Signal>): seq<Signal> {
    Sort(Comparator(collate, sort), signals)
  }

  function Recompute(collate: Collation, signals: seq<Signal>, f: Filters, sort: SortBy): seq<Signal> {
    SortedBy(collate, sort, Filtered(f, signals))
  }

  lemma ComparatorIsPreorder(collate: Collation, sort: SortBy)
    requires TotalPreorder(collate)
    ensures TotalPreorder(Comparator(collate, sort))
  {
  }

  lemma {:induction false} FilterTies<T>(le: (T, T) -> bool, p: T -> bool, x: T, s: seq<T>)
    ensures Ties(le, x, Filter(p, s)) == Filter(p, Ties(le, x, s))
  {
    if s != [] {
      FilterTies(le, p, x, s[1..]);
      var rest, ties := Filter(p, s[1..]), Ties(le, x, s[1..]);
      assert ([s[0]] + rest)[1..] == rest && ([s[0]] + ties)[1..] == ties;
    }
  }

  lemma {:induction false} FilterSorted<T(!new)>(le: (T, T) -> bool, p: T -> bool, s: seq<T>)
    requires Sorted(le, s)
    ensures Sorted(le, Filter(p, s))
  {
    if s != [] {
      FilterSorted(le, p, s[1..]);
      FilterSound(p, s[1..]);
      if p(s[0]) { ConsSorted(le, s[0], Filter(p, s[1..])); }
    }
  }

  lemma FilterMultiset<T(!new)>(p: T -> bool, s: seq<T>, t: seq<T>)
    requires multiset(s) == multiset(t)
    ensures multiset(Filter(p, s)) == multiset(Filter(p, t))
  {
    forall x ensures multiset(Filter(p, s))[x] == multiset(Filter(p, t))[x] {
      FilterCount(p, s, x);
      FilterCount(p, t, x);
    }
  }

  lemma {:induction false} FilterCount<T>(p: T -> bool, s: seq<T>, x: T)
    ensures multiset(Filter(p, s))[x] == if p(x) then multiset(s)[x] else 0
  {
    if s != [] {
      FilterCount(p, s[1..], x);
      assert s == [s[0]] + s[1..];
    }
  }

  /** Sorting the matches gives the matches of the sorted list, and it is the stable sort of the matches. */
  lemma SortFilterCommute(collate: Collation, signals: seq<Signal>, f: Filters, sort: SortBy)
    requires TotalPreorder(collate)
    ensures Recompute(collate, signals, f, sort) == Filtered(f, SortedBy(collate, sort, signals))
    ensures IsStableSortOf(Comparator(collate, sort), Recompute(collate, signals, f, sort), Filtered(f, signals))
  {
    var le, p := Comparator(collate, sort), (s: Signal) => Passes(f, s);
    ComparatorIsPreorder(collate, sort);
    hide Comparator, Sort;
    SortCorrect(le, signals);
    SortCorrect(le, Filter(p, signals));
    var t, u := Sort(le, Filter(p, signals)), Filter(p, Sort(le, signals));
    FilterSorted(le, p, Sort(le, signals));
    FilterMultiset(p, Sort(le, signals), signals);
    assert multiset(t) == multiset(u);
    assert |t| == |multiset(t)| && |u| == |multiset(u)|;
    forall x ensures Ties(le, x, t) == Ties(le, x, u) {
      FilterTies(le, p, x, signals);
      FilterTies(le, p, x, Sort(le, signals));
    }
    StableSortUnique(le, t, u);
  }

  /** Which of two signals may stand before the other, field by field. */
  predicate Before(collate: Collation, sort: SortBy, a: Signal, b: Signal) {
    match sort
    case SortBy(CreatedAt, Asc) => collate(a.createdAt, b.createdAt)
    case SortBy(CreatedAt, Desc) => collate(b.createdAt, a.createdAt)
    case SortBy(Confidence, Asc) => a.confidence <= b.confidence
    case SortBy(Confidence, Desc) => a.confidence >= b.confidence
    case SortBy(EntryPrice, Asc) => a.entryPrice <= b.entryPrice
    case SortBy(EntryPrice, Desc) => a.entryPrice >= b.entryPrice
  }

  /**
   * What a view shows: every stored signal with the wanted direction, mode and timeframe, as often as it is
   * stored, and no other; in the order of the chosen field.
   */
  lemma ViewMeaning(collate: Collation, signals: seq<Signal>, f: Filters, sort: SortBy)
    requires TotalPreorder(collate)
    ensures var view := Recompute(collate, signals, f, sort);
      && (forall x :: multiset(view)[x] ==
            if (f.direction.Some? ==> x.direction == f.direction.value) && (f.mode.Some? ==> x.mode == f.mode.value)
               && (f.timeframe.Some? ==> x.timeframe == f.timeframe.value)
            then multiset(signals)[x] else 0)
      && forall i, j :: 0 <= i < j < |view| ==> Before(collate, sort, view[i], view[j])
  {
    var view, p := Recompute(collate, signals, f, sort), (s: Signal) => Passes(f, s);
    SortFilterCommute(collate, signals, f, sort);
    hide Sort, Filter;
    forall x ensures multiset(Filter(p, signals))[x] == if Passes(f, x) then multiset(signals)[x] else 0 {
      FilterCount(p, signals, x);
    }
    forall i, j | 0 <= i < j < |view| ensures Before(collate, sort, view[i], view[j]) {
      assert Comparator(collate, sort)(view[i], view[j]);
    }
  }

  // ----- The store over a run -----

  /** A fetch under way, with the filters and the sort it captured when it started. */
  datatype Fetch = Fetch(offset: nat, filters: Filters, sortBy: SortBy)

  /** History: the filters and sort that the last recomputation used, and the page that the list was fetched from. */
  datatype Store = Store(
    signals: seq<Signal>, filtered: seq<Signal>, total: nat, offset: nat, filters: Filters, sortBy: SortBy,
    fetches: seq<Fetch>, shownFilters: Filters, shownSort: SortBy, page: Option<nat>)

  datatype FilterChange = ByDirection(direction: Option<Direction>) | ByMode(mode: Option<Mode>) | ByTimeframe(timeframe: Option<string>)

  datatype Event =
    | FetchStart | FetchDone(fetch: nat, data: seq<Signal>, total: nat) | FetchFailed(fetch: nat)
    | SetFilter(change: FilterChange) | SetSort(field: Field) | NextPage | PrevPage | Add(signal: Signal)

  const LIMIT: nat := 50
  const ALL := Filters(None, None, None)
  const NEWEST := SortBy(CreatedAt, Desc)
  const INITIAL := Store([], [], 0, 0, ALL, NEWEST, [], ALL, NEWEST, None)

  function Shown(collate: Collation, s: Store, signals: seq<Signal>, f: Filters, sort: SortBy): Store {
    s.(signals := signals, filtered := Recompute(collate, signals, f, sort), shownFilters := f, shownSort := sort)
  }

  function Fetching(s: Store): Store { s.(fetches := s.fetches + [Fetch(s.offset, s.filters, s.sortBy)]) }

  function Changed(f: Filters, change: FilterChange): Filters {
    match change
    case ByDirection(d) => f.(direction := d)
    case ByMode(m) => f.(mode := m)
    case ByTimeframe(t) => f.(timeframe := t)
  }

  function Toggled(sort: SortBy, field: Field): SortBy {
    SortBy(field, if sort.field == field && sort.order == Asc then Desc else Asc)
  }

  function Removed<T>(s: seq<T>, i: nat): seq<T>
    requires i < |s|
  {
    s[..i] + s[i + 1..]
  }

  function Step(collate: Collation, s: Store, e: Event): Store {
    match e
    case FetchStart => Fetching(s)
    case FetchDone(i, data, total) =>
      if |s.fetches| <= i then s
      else
        var t := s.(total := total, fetches := Removed(s.fetches, i), page := Some(s.fetches[i].offset));
        Shown(collate, t, data, s.fetches[i].filters, s.fetches[i].sortBy)
    case FetchFailed(i) => if |s.fetches| <= i then s else s.(fetches := Removed(s.fetches, i))
    case SetFilter(change) =>
      var f := Changed(s.filters, change);
      Shown(collate, s.(filters := f), s.signals, f, s.sortBy)
    case SetSort(field) =>
      var sort := Toggled(s.sortBy, field);
      Shown(collate, s.(sortBy := sort), s.signals, s.filters, sort)
    case NextPage => if s.offset + LIMIT >= s.total then s else Fetching(s.(offset := s.offset + LIMIT))
    case PrevPage =>
      if s.offset == 0 then s
      else Fetching(s.(offset := if s.offset < LIMIT then 0 else s.offset - LIMIT))
    case Add(signal) => Shown(collate, s, [signal] + s.signals, s.filters, s.sortBy)
  }

  function Exec(collate: Collation, s: Store, es: seq<Event>): Store
    decreases |es|
  {
    if es == [] then s else Exec(collate, Step(collate, s, es[0]), es[1..])
  }

  /** The view is the recomputation under the filters and sort that were last used for it. */
  predicate ViewInv(collate: Collation, s: Store) {
    s.filtered == Recompute(collate, s.signals, s.shownFilters, s.shownSort)
  }

  /** A fetch finishes with filters or a sort that are no longer the current ones. */
  predicate StaleFetch(s: Store, e: Event) {
    e.FetchDone? && e.fetch < |s.fetches|
    && (s.fetches[e.fetch].filters != s.filters || s.fetches[e.fetch].sortBy != s.sortBy)
  }

  /** Steps that recompute the view under the current filters and sort. */
  predicate Refreshes(s: Store, e: Event) {
    e.SetFilter? || e.SetSort? || e.Add? || (e.FetchDone? && e.fetch < |s.fetches| && !StaleFetch(s, e))
  }

  predicate UpToDate(s: Store) { s.shownFilters == s.filters && s.shownSort == s.sortBy }

  /**
   * The view goes out of date exactly at a fetch that finishes after a filter or sort change, and comes up
   * to date at any other recomputation.
   */
  lemma StepUpToDate(collate: Collation, s: Store, e: Event)
    ensures ViewInv(collate, s) ==> ViewInv(collate, Step(collate, s, e))
    ensures UpToDate(Step(collate, s, e)) <==> Refreshes(s, e) || (UpToDate(s) && !StaleFetch(s, e))
  {
    hide Recompute;
  }

  /** No fetch of the run finishes stale, or the view is recomputed after the last one that does. */
  predicate EndsFresh(collate: Collation, s: Store, current: bool, es: seq<Event>)
    decreases |es|
  {
    if es == [] then current
    else
      EndsFresh(collate, Step(collate, s, es[0]), Refreshes(s, es[0]) || (current && !StaleFetch(s, es[0])), es[1..])
  }

  lemma {:induction false} RunView(collate: Collation, s: Store, es: seq<Event>)
    requires ViewInv(collate, s)
    ensures ViewInv(collate, Exec(collate, s, es))
    ensures UpToDate(Exec(collate, s, es)) <==> EndsFresh(collate, s, UpToDate(s), es)
    decreases |es|
  {
    hide ViewInv, UpToDate, Step, Refreshes, StaleFetch;
    if es != [] {
      StepUpToDate(collate, s, es[0]);
      RunView(collate, Step(collate, s, es[0]), es[1..]);
    }
  }

  /**
   * Over every run whose last stale fetch, if any, is followed by a recomputation: the view is the stable
   * sort, by the current order, of the signals that pass the current filters.
   */
  lemma ViewIsSortedMatches(collate: Collation, es: seq<Event>)
    requires TotalPreorder(collate) && EndsFresh(collate, INITIAL, true, es)
    ensures var s := Exec(collate, INITIAL, es);
      && IsStableSortOf(Comparator(collate, s.sortBy), s.filtered, Filtered(s.filters, s.signals))
      && s.filtered == Filtered(s.filters, SortedBy(collate, s.sortBy, s.signals))
  {
    hide Exec, EndsFresh, IsStableSortOf;
    assert Recompute(collate, [], ALL, NEWEST) == [];
    RunView(collate, INITIAL, es);
    var s := Exec(collate, INITIAL, es);
    SortFilterCommute(collate, s.signals, s.filters, s.sortBy);
  }

  // ----- The guard on fetches is exact -----

  /** The view is what the current filters and sort make of the stored signals. */
  predicate Right(collate: Collation, s: Store) { s.filtered == Recompute(collate, s.signals, s.filters, s.sortBy) }

  function Or<T>(o: Option<T>, default: T): T { if o.Some? then o.value else default }

  /** Some signal that passes `f`. */
  function Passing(f: Filters): (s: Signal)
    ensures Passes(f, s)
  {
    Signal("", "", Or(f.direction, Buy), Or(f.mode, Live), Or(f.timeframe, ""), 0.0, 0.0, "")
  }

  /** Different filters are told apart by some signal. */
  lemma TellApart(f: Filters, g: Filters) returns (s: Signal)
    requires f != g
    ensures Passes(f, s) != Passes(g, s)
  {
    var open, other := f, g;
    if f.direction != g.direction {
      if f.direction.Some? { open, other := g, f; }
      s := Passing(open);
      if open.direction.None? { s := s.(direction := if other.direction.value == Buy then Sell else Buy); }
    } else if f.mode != g.mode {
      if f.mode.Some? { open, other := g, f; }
      s := Passing(open);
      if open.mode.None? { s := s.(mode := if other.mode.value == Live then Backtest else Live); }
    } else {
      if f.timeframe.Some? { open, other := g, f; }
      s := Passing(open);
      if open.timeframe.None? { s := s.(timeframe := other.timeframe.value + "+"); }
    }
  }

  /** `s` with a low or a high value in `field`. */
  function Keyed(s: Signal, field: Field, high: bool, lo: string, hi: string): Signal {
    match field
    case CreatedAt => s.(createdAt := if high then hi else lo)
    case Confidence => s.(confidence := if high then 2.0 else 1.0)
    case EntryPrice => s.(entryPrice := if high then 2.0 else 1.0)
  }

  /** The comparator tells a low from a high value of its field, whatever the other fields hold. */
  lemma KeyedOrder(collate: Collation, sort: SortBy, a: Signal, b: Signal, high: bool, lo: string, hi: string)
    requires collate(lo, hi) && !collate(hi, lo)
    ensures Comparator(collate, sort)(Keyed(a, sort.field, high, lo, hi), Keyed(b, sort.field, !high, lo, hi)) <==>
      high == (sort.order == Desc)
  {
  }

  lemma KeyedPasses(f: Filters, s: Signal, field: Field, high: bool, lo: string, hi: string)
    requires Passes(f, s)
    ensures Passes(f, Keyed(s, field, high, lo, hi))
  {
  }

  lemma KeyedSwap(s: Signal, a: Field, b: Field, high: bool, high': bool, lo: string, hi: string)
    ensures a != b ==>
      Keyed(Keyed(s, a, high, lo, hi), b, high', lo, hi) == Keyed(Keyed(s, b, high', lo, hi), a, high, lo, hi)
    ensures a == b ==> Keyed(Keyed(s, a, high, lo, hi), b, high', lo, hi) == Keyed(s, b, high', lo, hi)
  {
  }

  /** Different sorts put some two signals in opposite orders. */
  lemma SortApart(collate: Collation, sort: SortBy, sort': SortBy, f: Filters, lo: string, hi: string)
      returns (x: Signal, y: Signal)
    requires sort != sort' && collate(lo, hi) && !collate(hi, lo)
    ensures Passes(f, x) && Passes(f, y) && x != y
    ensures Comparator(collate, sort)(x, y) && !Comparator(collate, sort')(x, y)
  {
    var high, high' := sort.order == Desc, sort'.order == Desc;
    var s := Passing(f);
    var a, b := Keyed(s, sort'.field, !high', lo, hi), Keyed(s, sort'.field, high', lo, hi);
    x, y := Keyed(a, sort.field, high, lo, hi), Keyed(b, sort.field, !high, lo, hi);
    KeyedPasses(f, s, sort'.field, !high', lo, hi);
    KeyedPasses(f, s, sort'.field, high', lo, hi);
    KeyedPasses(f, a, sort.field, high, lo, hi);
    KeyedPasses(f, b, sort.field, !high, lo, hi);
    KeyedOrder(collate, sort, a, b, high, lo, hi);
    KeyedSwap(s, sort'.field, sort.field, !high', high, lo, hi);
    KeyedSwap(s, sort'.field, sort.field, high', !high, lo, hi);
    var a', b' := Keyed(s, sort.field, high, lo, hi), Keyed(s, sort.field, !high, lo, hi);
    KeyedOrder(collate, sort', a', b', !high', lo, hi);
    hide Keyed, Passes, Comparator;
  }

  lemma SortPair<T>(le: (T, T) -> bool, x: T, y: T)
    ensures Sort(le, [x, y]) == if le(x, y) then [x, y] else [y, x]
    ensures Sort(le, [x]) == [x] && Sort(le, []) == []
  {
    assert [x, y][1..] == [y] && [y][1..] == [] && [x][1..] == [];
    assert Sort(le, [y]) == [y];
    assert Insert(le, x, [y]) == if le(x, y) then [x, y] else [y, x];
  }

  lemma FilterOne<T>(p: T -> bool, x: T)
    ensures Filter(p, [x]) == if p(x) then [x] else []
  {
    assert [x][1..] == [];
  }

  lemma StaleFiltersShow(collate: Collation, f: Filters, g: Filters, sort: SortBy, sort': SortBy, s: Signal)
    requires Passes(f, s) != Passes(g, s)
    ensures Recompute(collate, [s], f, sort) != Recompute(collate, [s], g, sort')
  {
    SortPair(Comparator(collate, sort), s, s);
    SortPair(Comparator(collate, sort'), s, s);
    hide Sort, Comparator, Passes;
    FilterOne((x: Signal) => Passes(f, x), s);
    FilterOne((x: Signal) => Passes(g, x), s);
  }

  lemma StaleSortShows(collate: Collation, f: Filters, sort: SortBy, sort': SortBy, x: Signal, y: Signal)
    requires Passes(f, x) && Passes(f, y) && x != y
    requires Comparator(collate, sort)(x, y) && !Comparator(collate, sort')(x, y)
    ensures Recompute(collate, [x, y], f, sort) == [x, y]
    ensures Recompute(collate, [x, y], f, sort') == [y, x]
  {
    SortPair(Comparator(collate, sort), x, y);
    SortPair(Comparator(collate, sort'), x, y);
    hide Sort, Comparator;
    FilterAll((s: Signal) => Passes(f, s), [x, y]);
  }

  /**
   * Whatever the server answers, the view is right when a fetch finishes; and this guarantee holds exactly
   * when no filter or sort change lies between its start and its end.
   */
  lemma FetchIsExact(collate: Collation, s: Store, i: nat, lo: string, hi: string)
    requires collate(lo, hi) && !collate(hi, lo)
    requires i < |s.fetches|
    ensures (forall data, total :: Right(collate, Step(collate, s, FetchDone(i, data, total)))) <==>
      s.fetches[i].filters == s.filters && s.fetches[i].sortBy == s.sortBy
  {
    hide Recompute, Passes, Comparator;
    var fetch := s.fetches[i];
    if fetch.filters != s.filters {
      var x := TellApart(fetch.filters, s.filters);
      StaleFiltersShow(collate, fetch.filters, s.filters, fetch.sortBy, s.sortBy, x);
      assert !Right(collate, Step(collate, s, FetchDone(i, [x], 1)));
    } else if fetch.sortBy != s.sortBy {
      var x, y := SortApart(collate, fetch.sortBy, s.sortBy, s.filters, lo, hi);
      StaleSortShows(collate, s.filters, fetch.sortBy, s.sortBy, x, y);
      assert [x, y][0] != [y, x][0];
      assert !Right(collate, Step(collate, s, FetchDone(i, [x, y], 2)));
    }
  }

  /** A filter change during a fetch: the list shows a buy signal although only sells are wanted. */
  lemma StaleFetchShows(collate: Collation, s: Signal)
    requires s.direction == Buy
    ensures var t := Exec(collate, INITIAL, [FetchStart, SetFilter(ByDirection(Some(Sell))), FetchDone(0, [s], 1)]);
      t.filters.direction == Some(Sell) && t.filtered == [s] && Filtered(t.filters, t.signals) == []
  {
    var s1 := Step(collate, INITIAL, FetchStart);
    var s2 := Step(collate, s1, SetFilter(ByDirection(Some(Sell))));
    var s3 := Step(collate, s2, FetchDone(0, [s], 1));
    var es := [FetchStart, SetFilter(ByDirection(Some(Sell))), FetchDone(0, [s], 1)];
    assert es[1..] == [es[1], es[2]] && [es[1], es[2]][1..] == [es[2]] && [es[2]][1..] == [];
    assert Exec(collate, INITIAL, es) == Exec(collate, s1, [es[1], es[2]]) == Exec(collate, s2, [es[2]]);
    assert Exec(collate, s2, [es[2]]) == Exec(collate, s3, []);
    assert s2.fetches[0] == Fetch(0, ALL, NEWEST);
    OneSignal(collate, s);
  }

  lemma OneSignal(collate: Collation, s: Signal)
    ensures Recompute(collate, [s], ALL, NEWEST) == [s]
  {
    var p := (x: Signal) => Passes(ALL, x);
    FilterAll(p, [s]);
    assert [s][1..] == [];
    assert Sort(Comparator(collate, NEWEST), [s]) == [s];
  }

  // ----- Pages -----

  /** The list was fetched from the page at the current offset. */
  predicate OnPage(s: Store) { s.page == Some(s.offset) }

  /** The step moves to another page. */
  predicate Moves(s: Store, e: Event) { (e.NextPage? && s.offset + LIMIT < s.total) || (e.PrevPage? && s.offset != 0) }

  /** Over every run the offset lies on a page boundary, and a step changes it only by a move, which fetches. */
  lemma StepPage(collate: Collation, s: Store, e: Event)
    requires s.offset % LIMIT == 0
    ensures var t := Step(collate, s, e);
      && t.offset % LIMIT == 0
      && (t.offset != s.offset <==> Moves(s, e))
      && (Moves(s, e) ==> t.fetches == s.fetches + [Fetch(t.offset, s.filters, s.sortBy)])
      && (t.page != s.page ==> e.FetchDone? && e.fetch < |s.fetches| && t.page == Some(s.fetches[e.fetch].offset))
  {
    hide Recompute;
  }

  /** Going on and back again, or back and on again, asks for the page one started from. */
  lemma PageRoundTrip(collate: Collation, s: Store)
    requires s.offset % LIMIT == 0
    ensures Moves(s, NextPage) ==> Step(collate, Step(collate, s, NextPage), PrevPage).offset == s.offset
    ensures Moves(s, PrevPage) && s.offset < s.total ==>
      Step(collate, Step(collate, s, PrevPage), NextPage).offset == s.offset
  {
    hide Recompute;
  }

  /** Only responses, one for each fetch under way, in any order. */
  predicate Finishes(collate: Collation, s: Store, es: seq<Event>)
    decreases |es|
  {
    if es == [] then s.fetches == []
    else es[0].FetchDone? && es[0].fetch < |s.fetches| && Finishes(collate, Step(collate, s, es[0]), es[1..])
  }

  predicate AskFor(fetches: seq<Fetch>, offset: nat) { forall i :: 0 <= i < |fetches| ==> fetches[i].offset == offset }

  lemma {:induction false} SamePageFinishes(collate: Collation, s: Store, es: seq<Event>)
    requires Finishes(collate, s, es) && AskFor(s.fetches, s.offset) && (s.fetches == [] ==> OnPage(s))
    ensures OnPage(Exec(collate, s, es))
    decreases |es|
  {
    hide Recompute;
    if es != [] { SamePageFinishes(collate, Step(collate, s, es[0]), es[1..]); }
  }

  /** The responses can come in an order in which any chosen fetch finishes last. */
  lemma {:induction false} FinishLast(collate: Collation, s: Store, i: nat) returns (es: seq<Event>)
    requires i < |s.fetches|
    ensures Finishes(collate, s, es)
    ensures Exec(collate, s, es).page == Some(s.fetches[i].offset) && Exec(collate, s, es).offset == s.offset
    decreases |s.fetches|
  {
    hide Recompute;
    if |s.fetches| == 1 {
      es := [FetchDone(0, [], 0)];
      assert es[1..] == [];
      assert Exec(collate, s, es) == Exec(collate, Step(collate, s, es[0]), []);
    } else {
      var j := if i == 0 then 1 else 0;
      var e := FetchDone(j, [], 0);
      var t := Step(collate, s, e);
      assert t.fetches[i - (1 - j)] == s.fetches[i];
      var rest := FinishLast(collate, t, i - (1 - j));
      es := [e] + rest;
      assert es[1..] == rest;
    }
  }

  /**
   * When all fetches under way succeed, in whatever order their responses come, the list is the page at the
   * current offset, if and only if every one of them asks for that page.
   */
  lemma PageIsExact(collate: Collation, s: Store)
    requires s.fetches != []
    ensures (forall es :: Finishes(collate, s, es) ==> OnPage(Exec(collate, s, es))) <==> AskFor(s.fetches, s.offset)
  {
    hide Step, Exec, Finishes;
    if AskFor(s.fetches, s.offset) {
      forall es | Finishes(collate, s, es) ensures OnPage(Exec(collate, s, es)) { SamePageFinishes(collate, s, es); }
    } else {
      var i :| 0 <= i < |s.fetches| && s.fetches[i].offset != s.offset;
      var es := FinishLast(collate, s, i);
    }
  }

  /**
   * A move whose fetch ends before anything else happens: the list is the new page exactly if the fetch
   * succeeded; if it failed, the page number has moved and the old page is still listed.
   */
  lemma MoveEnds(collate: Collation, s: Store, e: Event, end: Event)
    requires s.fetches == [] && OnPage(s) && Moves(s, e)
    requires (end.FetchDone? || end.FetchFailed?) && end.fetch == 0
    ensures var t := Step(collate, Step(collate, s, e), end);
      && t.fetches == [] && t.offset != s.offset
      && (OnPage(t) <==> end.FetchDone?)
      && (end.FetchFailed? ==> t.signals == s.signals && t.page == Some(s.offset))
  {
    hide Recompute;
  }

  /** Fetches of the run start one at a time, and none fails. */
  predicate Orderly(collate: Collation, s: Store, es: seq<Event>)
    decreases |es|
  {
    es != [] ==>
      && (es[0].FetchStart? || Moves(s, es[0]) ==> s.fetches == [])
      && (es[0].FetchFailed? ==> |s.fetches| <= es[0].fetch)
      && Orderly(collate, Step(collate, s, es[0]), es[1..])
  }

  /** At most one fetch is under way, for the current page; with none, the list is that page or was never fetched. */
  predicate PageInv(s: Store) {
    |s.fetches| <= 1 && AskFor(s.fetches, s.offset) && (s.fetches == [] ==> OnPage(s) || (s.page == None && s.offset == 0))
  }

  lemma OrderlyStep(collate: Collation, s: Store, e: Event)
    requires PageInv(s)
    requires e.FetchStart? || Moves(s, e) ==> s.fetches == []
    requires e.FetchFailed? ==> |s.fetches| <= e.fetch
    ensures PageInv(Step(collate, s, e))
  {
    hide Recompute;
  }

  /** In an orderly run the list is the page at the current offset whenever no fetch is under way. */
  lemma {:induction false} OrderlyPage(collate: Collation, s: Store, es: seq<Event>)
    requires PageInv(s) && Orderly(collate, s, es)
    ensures PageInv(Exec(collate, s, es))
    decreases |es|
  {
    hide Step, PageInv, Moves;
    if es != [] {
      OrderlyStep(collate, s, es[0]);
      OrderlyPage(collate, Step(collate, s, es[0]), es[1..]);
    }
  }

  /** The store. An asynchronous fetch is two methods: what runs before its `await`, and what runs after it. */
  class SignalStore {
    const collate: Collation
    var signals: seq<Signal>
    var filteredSignals: seq<Signal>
    var total: nat
    var offset: nat
    var filters: Filters
    var sortBy: SortBy
    var fetches: seq<Fetch>
    ghost var shownFilters: Filters
    ghost var shownSort: SortBy
    ghost var page: Option<nat>

    ghost function State(): Store
      reads this
    {
      Store(signals, filteredSignals, total, offset, filters, sortBy, fetches, shownFilters, shownSort, page)
    }

    constructor (collate: Collation)
      ensures State() == INITIAL && this.collate == collate
      ensures signals == [] && offset == 0 && total == 0 && filters == Filters(None, None, None) && sortBy == SortBy(CreatedAt, Desc)
    {
      this.collate := collate;
      signals, filteredSignals, total, offset, filters, sortBy, fetches := [], [], 0, 0, ALL, NEWEST, [];
      shownFilters, shownSort, page := ALL, NEWEST, None;
    }

    method FetchSignals()
      modifies this
      ensures State() == Step(collate, old(State()), FetchStart)
      ensures fetches == old(fetches) + [Fetch(offset, filters, sortBy)] && signals == old(signals) && offset == old(offset)
    {
      fetches := fetches + [Fetch(offset, filters, sortBy)];
    }

    method OnFetched(i: nat, data: seq<Signal>, count: nat)
      requires i < |fetches|
      modifies this
      ensures State() == Step(collate, old(State()), FetchDone(i, data, count))
      ensures signals == data && total == count
      ensures offset == old(offset) && filters == old(filters) && sortBy == old(sortBy)
      ensures fetches == old(fetches)[..i] + old(fetches)[i + 1..]
    {
      hide Filtered, SortedBy;
      var fetch := fetches[i];
      fetches := fetches[..i] + fetches[i + 1..];
      var matches := Filtered(fetch.filters, data);
      signals, total, filteredSignals := data, count, SortedBy(collate, fetch.sortBy, matches);
      shownFilters, shownSort, page := fetch.filters, fetch.sortBy, Some(fetch.offset);
    }

    method OnFetchFailed(i: nat)
      requires i < |fetches|
      modifies this
      ensures State() == Step(collate, old(State()), FetchFailed(i))
      ensures signals == old(signals) && filteredSignals == old(filteredSignals) && total == old(total)
      ensures fetches == old(fetches)[..i] + old(fetches)[i + 1..]
    {
      fetches := fetches[..i] + fetches[i + 1..];
    }

    method SetFilter(change: FilterChange)
      modifies this
      ensures State() == Step(collate, old(State()), Event.SetFilter(change))
      ensures signals == old(signals) && sortBy == old(sortBy) && offset == old(offset)
      ensures filters.direction == if change.ByDirection? then change.direction else old(filters).direction
      ensures filters.mode == if change.ByMode? then change.mode else old(filters).mode
      ensures filters.timeframe == if change.ByTimeframe? then change.timeframe else old(filters).timeframe
    {
      hide Filtered, SortedBy;
      var newFilters := Changed(filters, change);
      filteredSignals := Recompute(collate, signals, newFilters, sortBy);
      filters := newFilters;
      shownFilters, shownSort := filters, sortBy;
    }

    method SetSort(field: Field)
      modifies this
      ensures State() == Step(collate, old(State()), Event.SetSort(field))
      ensures signals == old(signals) && filters == old(filters) && offset == old(offset)
      ensures sortBy.field == field && (sortBy.order == Desc <==> old(sortBy) == SortBy(field, Asc))
    {
      hide Filtered, SortedBy;
      var order := if sortBy.field == field && sortBy.order == Asc then Desc else Asc;
      var newSort := SortBy(field, order);
      filteredSignals := Recompute(collate, signals, filters, newSort);
      sortBy := newSort;
      shownFilters, shownSort := filters, sortBy;
    }

    /** A move ends inside the list, on a page boundary if it began on one, and asks for the page it ends on. */
    method NextPage()
      modifies this
      ensures State() == Step(collate, old(State()), Event.NextPage)
      ensures old(offset) % LIMIT == 0 ==> offset % LIMIT == 0
      ensures offset != old(offset) <==> old(offset) + 50 < total
      ensures offset != old(offset) ==>
                offset == old(offset) + 50 && offset < total && fetches != [] && fetches[|fetches| - 1].offset == offset
    {
      if offset + LIMIT >= total { return; }
      offset := offset + LIMIT;
      FetchSignals();
    }

    method PrevPage()
      modifies this
      ensures State() == Step(collate, old(State()), Event.PrevPage)
      ensures old(offset) % LIMIT == 0 ==> offset % LIMIT == 0
      ensures offset == if old(offset) < 50 then 0 else old(offset) - 50
      ensures offset != old(offset) ==> fetches != [] && fetches[|fetches| - 1].offset == offset
    {
      if offset == 0 { return; }
      offset := if offset < LIMIT then 0 else offset - LIMIT;
      FetchSignals();
    }

    method AddSignal(signal: Signal)
      modifies this
      ensures State() == Step(collate, old(State()), Add(signal))
      ensures signals == [signal] + old(signals)
      ensures total == old(total) && offset == old(offset) && filters == old(filters) && sortBy == old(sortBy)
    {
      hide Filtered, SortedBy;
      var newSignals := [signal] + signals;
      filteredSignals := Recompute(collate, newSignals, filters, sortBy);
      signals := newSignals;
      shownFilters, shownSort := filters, sortBy;
    }
  }
}
