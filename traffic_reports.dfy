/** The traffic-report aggregation of the disruption API (the TrafficReport class of
    source/disruption/traffic_reports_api.cpp): for the networks a filter selects, the
    publishable impacts on each network, on its lines, its stop areas and its vehicle
    journeys, one entry per network, sorted at the end. */
module TrafficReports {
  import opened Wrappers
  import opened Text
  import opened PtQuery

  /** The C++ int, and std::numeric_limits<int>::max(). */
  type Int32 = x: int | -0x8000_0000 <= x <= 0x7fff_ffff
  const IntMax: Int32 := 0x7fff_ffff

  /** Of all the effects of a severity, only NO_SERVICE is looked at. */
  datatype Effect = NoService | OtherEffect
  datatype Severity = Severity(priority: Int32, effect: Effect)

  /** The kinds of objects whose publishable messages are asked for. */
  datatype Holder = NetworkHolder | LineHolder | RouteHolder | StopAreaHolder | StopPointHolder

  /** What a report reads from the data. Objects are numbered by their idx (a network's idx is
      what sort_disruptions compares), impacts by number; `now` is passed to every question about
      publication.
      - pt: the tables make_query runs on;
      - hasImpacts: whether the disruption holder has any impact;
      - networkUri: the uri of each network;
      - networkHasMessage: has_publishable_message(now) of a network;
      - messages: get_publishable_messages(now) of a network, line, route, stop area or stop point;
      - lineNetwork, lineCode, lineName, lineRoutes: a line's network, code, name and route_list;
      - stopPoints: a stop area's stop_point_list;
      - vehicleJourneyImpacts: get_impacts() of a vehicle journey;
      - severity: an impact's severity, if it has one;
      - publishable: is_publishable(now) of an impact's disruption. */
  datatype ReportData = ReportData(
    pt: PtData,
    hasImpacts: bool,
    networkUri: nat -> string,
    networkHasMessage: (nat, int) -> bool,
    messages: (Holder, nat, int) -> seq<nat>,
    lineNetwork: nat -> nat,
    lineCode: nat -> string,
    lineName: nat -> string,
    lineRoutes: nat -> seq<nat>,
    stopPoints: nat -> seq<nat>,
    vehicleJourneyImpacts: nat -> seq<nat>,
    severity: nat -> Option<Severity>,
    publishable: (nat, int) -> bool)

  /** A reported object with the impacts collected for it: a pair of object and DisruptionSet. */
  datatype Item = Item(obj: nat, impacts: set<nat>)

  /** One entry of the report: its position at creation, the network, the network's own impacts
      and the lines, stop areas and vehicle journeys reported for it. */
  datatype NetworkDisrupt = NetworkDisrupt(idx: nat, network: nat, networkDisruptions: set<nat>,
                                           lines: seq<Item>, stopAreas: seq<Item>,
                                           vehicleJourneys: seq<Item>)

  /** The three lists of an entry. */
  datatype Category = Lines | StopAreas | VehicleJourneys

  function ItemsOf(e: NetworkDisrupt, c: Category): seq<Item>
  {
    match c
    case Lines => e.lines
    case StopAreas => e.stopAreas
    case VehicleJourneys => e.vehicleJourneys
  }

  /** The entry with the list of category `c` replaced. */
  function WithItems(e: NetworkDisrupt, c: Category, items: seq<Item>): (r: NetworkDisrupt)
    ensures ItemsOf(r, c) == items
    ensures forall c' :: c' != c ==> ItemsOf(r, c') == ItemsOf(e, c')
    ensures r.idx == e.idx && r.network == e.network && r.networkDisruptions == e.networkDisruptions
  {
    match c
    case Lines => e.(lines := items)
    case StopAreas => e.(stopAreas := items)
    case VehicleJourneys => e.(vehicleJourneys := items)
  }

  /** The elements of a vector, as the DisruptionSet built from it. */
  function AsSet(v: seq<nat>): set<nat>
  {
    set x | x in v
  }

  // ---------------------------------------------------------------------------------------
  // Iteration order of an Indexes set

  /** The smallest element of a non-empty set of indexes. */
  function Least(s: set<nat>): (m: nat)
    requires s != {}
    ensures m in s && forall x :: x in s ==> m <= x
  {
    LeastExists(s);
    var m :| m in s && forall x :: x in s ==> m <= x;
    m
  }

  lemma LeastExists(s: set<nat>)
    requires s != {}
    ensures exists m :: m in s && forall x :: x in s ==> m <= x
  {
    var y :| y in s;
    var m := LeastFrom(s, 0, y);
  }

  /** The search for the least element upwards from `k`, below which `s` has none; `y` is an
      element that bounds the search. */
  ghost function LeastFrom(s: set<nat>, k: nat, y: nat): (m: nat)
    requires y in s && forall x :: x in s ==> k <= x
    ensures m in s && forall x :: x in s ==> m <= x
    decreases y - k
  {
    if k in s then k else LeastFrom(s, k + 1, y)
  }

  /** The order in which a loop over an ordered set of indexes visits them: ascending. */
  function Ascending(s: set<nat>): (r: seq<nat>)
    ensures forall i, j :: 0 <= i < j < |r| ==> r[i] < r[j]
    ensures forall x :: x in r <==> x in s
    decreases |s|
  {
    if s == {} then []
    else
      var m := Least(s);
      [m] + Ascending(s - {m})
  }

  // ---------------------------------------------------------------------------------------
  // min_priority

  /** The accumulator of min_priority after visiting the impacts `xs`. */
  function LowestPriority(xs: seq<nat>, severity: nat -> Option<Severity>): Int32
  {
    if |xs| == 0 then IntMax
    else
      var n := |xs| - 1;
      var m := LowestPriority(xs[..n], severity);
      if severity(xs[n]).Some? && severity(xs[n]).value.priority < m then severity(xs[n]).value.priority else m
  }

  /** The accumulator is a lower bound of the visited priorities, and one of them unless it is
      still the initial maximum. */
  lemma {:induction false} LowestPriorityIsLeast(xs: seq<nat>, severity: nat -> Option<Severity>)
    ensures forall k :: 0 <= k < |xs| && severity(xs[k]).Some? ==> LowestPriority(xs, severity) <= severity(xs[k]).value.priority
    ensures LowestPriority(xs, severity) == IntMax ||
            exists k :: 0 <= k < |xs| && severity(xs[k]).Some? && severity(xs[k]).value.priority == LowestPriority(xs, severity)
  {
    if |xs| > 0 {
      var n := |xs| - 1;
      LowestPriorityIsLeast(xs[..n], severity);
      assert forall k :: 0 <= k < n ==> xs[..n][k] == xs[k];
    }
  }

  /** min_priority: the least priority among the impacts that have a severity, the maximum int
      when none has one. */
  function MinPriorityOf(impacts: set<nat>, severity: nat -> Option<Severity>): (m: Int32)
    ensures forall i :: i in impacts && severity(i).Some? ==> m <= severity(i).value.priority
    ensures m == IntMax || exists i :: i in impacts && severity(i).Some? && severity(i).value.priority == m
    ensures (forall i :: i in impacts ==> severity(i).None?) ==> m == IntMax
  {
    var xs := Ascending(impacts);
    LowestPriorityIsLeast(xs, severity);
    assert forall i :: i in impacts ==> exists k :: 0 <= k < |xs| && xs[k] == i;
    LowestPriority(xs, severity)
  }

  /** min_priority, the loop. */
  method MinPriority(impacts: set<nat>, severity: nat -> Option<Severity>) returns (min: Int32)
    ensures min == MinPriorityOf(impacts, severity)
  {
    min := IntMax;
    var order := Ascending(impacts);
    for k := 0 to |order|
      invariant min == LowestPriority(order[..k], severity)
    {
      assert order[..k + 1][..k] == order[..k];
      var s := severity(order[k]);
      if s.Some? && s.value.priority < min {
        min := s.value.priority;
      }
    }
    assert order[..|order|] == order;
  }

  // ---------------------------------------------------------------------------------------
  // The impacts collected for one object

  /** The vector built for a line or a stop area: its own messages followed by those of each of
      its parts (routes or stop points), in order. */
  function Gathered(own: seq<nat>, parts: seq<nat>, d: ReportData, h: Holder, now: int): seq<nat>
  {
    if |parts| == 0 then own
    else
      var n := |parts| - 1;
      Gathered(own, parts[..n], d, h, now) + d.messages(h, parts[n], now)
  }

  /** The vector holds exactly the object's own messages and its parts'; so it is empty exactly
      when none of them has a message. */
  lemma {:induction false} GatheredContents(own: seq<nat>, parts: seq<nat>, d: ReportData, h: Holder, now: int)
    ensures forall x :: x in Gathered(own, parts, d, h, now) <==>
              x in own || exists k :: 0 <= k < |parts| && x in d.messages(h, parts[k], now)
    ensures |Gathered(own, parts, d, h, now)| == 0 <==>
              |own| == 0 && forall k :: 0 <= k < |parts| ==> |d.messages(h, parts[k], now)| == 0
  {
    if |parts| > 0 {
      var n := |parts| - 1;
      GatheredContents(own, parts[..n], d, h, now);
      assert forall k :: 0 <= k < n ==> parts[..n][k] == parts[k];
    }
  }

  /** The loop appending each part's messages to the object's own. */
  method CollectMessages(own: seq<nat>, parts: seq<nat>, d: ReportData, h: Holder, now: int) returns (v: seq<nat>)
    ensures v == Gathered(own, parts, d, h, now)
  {
    v := own;
    for i := 0 to |parts|
      invariant v == Gathered(own, parts[..i], d, h, now)
    {
      assert parts[..i + 1][..i] == parts[..i];
      v := v + d.messages(h, parts[i], now);
    }
    assert parts[..|parts|] == parts;
  }

  /** The impacts of a vehicle journey that the remove_erase_if keeps: publishable now and of
      effect NO_SERVICE. */
  predicate KeptForVehicleJourney(d: ReportData, impact: nat, now: int)
  {
    d.publishable(impact, now) && d.severity(impact).Some? && d.severity(impact).value.effect == NoService
  }

  function NoServiceImpacts(impacts: seq<nat>, d: ReportData, now: int): (r: seq<nat>)
    ensures forall x :: x in r <==> x in impacts && KeptForVehicleJourney(d, x, now)
    ensures |r| <= |impacts|
  {
    if |impacts| == 0 then []
    else
      var n := |impacts| - 1;
      var rest := NoServiceImpacts(impacts[..n], d, now);
      assert forall x :: x in impacts <==> x in impacts[..n] || x == impacts[n];
      if KeptForVehicleJourney(d, impacts[n], now) then rest + [impacts[n]] else rest
  }

  /** The impacts collected for an object of category `c`. */
  function ImpactsFor(d: ReportData, c: Category, obj: nat, now: int): seq<nat>
  {
    match c
    case Lines => Gathered(d.messages(LineHolder, obj, now), d.lineRoutes(obj), d, RouteHolder, now)
    case StopAreas => Gathered(d.messages(StopAreaHolder, obj, now), d.stopPoints(obj), d, StopPointHolder, now)
    case VehicleJourneys => NoServiceImpacts(d.vehicleJourneyImpacts(obj), d, now)
  }

  /** The network entry an object is reported under: a line's own network, otherwise the network
      whose sub-query found it. */
  function NetworkFor(d: ReportData, c: Category, network: nat, obj: nat): nat
  {
    if c.Lines? then d.lineNetwork(obj) else network
  }

  // ---------------------------------------------------------------------------------------
  // The entries of a report and how one object is added

  /** boost::find_if on the entries: the first one for `network`. */
  function FindNetwork(ds: seq<NetworkDisrupt>, network: nat): (r: Option<nat>)
    ensures r.Some? ==> r.value < |ds| && ds[r.value].network == network
                        && forall k :: 0 <= k < r.value ==> ds[k].network != network
    ensures r.None? ==> forall k :: 0 <= k < |ds| ==> ds[k].network != network
  {
    if |ds| == 0 then None
    else match FindNetwork(ds[..|ds| - 1], network)
      case Some(p) => Some(p)
      case None => if ds[|ds| - 1].network == network then Some(|ds| - 1) else None
  }

  /** boost::find_if on a list of items: the first one for `obj`. */
  function FindItem(items: seq<Item>, obj: nat): (r: Option<nat>)
    ensures r.Some? ==> r.value < |items| && items[r.value].obj == obj
                        && forall k :: 0 <= k < r.value ==> items[k].obj != obj
    ensures r.None? ==> forall k :: 0 <= k < |items| ==> items[k].obj != obj
  {
    if |items| == 0 then None
    else match FindItem(items[..|items| - 1], obj)
      case Some(p) => Some(p)
      case None => if items[|items| - 1].obj == obj then Some(|items| - 1) else None
  }

  /** The networks that have an entry. */
  function NetworksOf(ds: seq<NetworkDisrupt>): set<nat>
  {
    set e | e in ds :: e.network
  }

  /** find_or_create: the entries, and the position of the one for `network`. An existing entry
      is found and nothing changes; otherwise an empty entry whose idx is the previous number of
      entries is appended. */
  function Created(ds: seq<NetworkDisrupt>, network: nat): (r: (seq<NetworkDisrupt>, nat))
    ensures r.1 < |r.0| && r.0[r.1].network == network && FindNetwork(r.0, network) == Some(r.1)
    ensures FindNetwork(ds, network).Some? ==> r == (ds, FindNetwork(ds, network).value)
    ensures FindNetwork(ds, network).None? ==>
              r.0 == ds + [NetworkDisrupt(|ds|, network, {}, [], [], [])] && r.1 == |ds|
  {
    match FindNetwork(ds, network)
    case Some(p) => (ds, p)
    case None =>
      var r := ds + [NetworkDisrupt(|ds|, network, {}, [], [], [])];
      FindNetworkIs(r, network, |ds|);
      (r, |ds|)
  }

  /** The find_if / push_back / insert on a list of items: a new object is appended with its
      impacts, a known one has them added to its set. */
  function Merged(items: seq<Item>, obj: nat, impacts: set<nat>): seq<Item>
  {
    match FindItem(items, obj)
    case None => items + [Item(obj, impacts)]
    case Some(p) => items[p := Item(obj, items[p].impacts + impacts)]
  }

  /** The impacts listed for `obj`, none when it is not listed. */
  function ImpactsOf(items: seq<Item>, obj: nat): set<nat>
  {
    match FindItem(items, obj)
    case Some(p) => items[p].impacts
    case None => {}
  }

  /** No two items of a list are for the same object. */
  ghost predicate UniqueObjects(items: seq<Item>)
  {
    forall i, j :: 0 <= i < j < |items| ==> items[i].obj != items[j].obj
  }

  /** Merging lists each object once and unions the impacts of the one merged. */
  lemma MergedUnions(items: seq<Item>, obj: nat, impacts: set<nat>)
    requires UniqueObjects(items)
    ensures UniqueObjects(Merged(items, obj, impacts))
    ensures forall o :: FindItem(Merged(items, obj, impacts), o).Some? <==> FindItem(items, o).Some? || o == obj
    ensures forall o :: ImpactsOf(Merged(items, obj, impacts), o) ==
              ImpactsOf(items, o) + (if o == obj then impacts else {})
  {
    forall o
      ensures FindItem(Merged(items, obj, impacts), o).Some? <==> FindItem(items, o).Some? || o == obj
      ensures ImpactsOf(Merged(items, obj, impacts), o) == ImpactsOf(items, o) + (if o == obj then impacts else {})
    {
      MergedAt(items, obj, impacts, o);
    }
  }

  /** MergedUnions for one object `o`. */
  lemma MergedAt(items: seq<Item>, obj: nat, impacts: set<nat>, o: nat)
    requires UniqueObjects(items)
    ensures FindItem(Merged(items, obj, impacts), o).Some? <==> FindItem(items, o).Some? || o == obj
    ensures ImpactsOf(Merged(items, obj, impacts), o) == ImpactsOf(items, o) + (if o == obj then impacts else {})
  {
    var r := Merged(items, obj, impacts);
    match FindItem(items, obj)
    case None =>
      if o != obj && FindItem(items, o).Some? {
        FindItemIs(r, o, FindItem(items, o).value);
      } else if o == obj {
        FindItemIs(r, o, |items|);
      }
    case Some(p) =>
      if FindItem(items, o).Some? {
        FindItemIs(r, o, FindItem(items, o).value);
      }
  }

  /** The first item for `obj` determines FindItem. */
  lemma FindItemIs(items: seq<Item>, obj: nat, p: nat)
    requires p < |items| && items[p].obj == obj && forall k :: 0 <= k < p ==> items[k].obj != obj
    ensures FindItem(items, obj) == Some(p)
  {
  }

  /** The items of category `c` reported for network `m`, none when it has no entry. */
  function EntryItems(ds: seq<NetworkDisrupt>, m: nat, c: Category): seq<Item>
  {
    match FindNetwork(ds, m)
    case Some(p) => ItemsOf(ds[p], c)
    case None => []
  }

  /** Each network has at most one entry, and each entry lists each object at most once. */
  ghost predicate Unique(ds: seq<NetworkDisrupt>)
  {
    && (forall i, j :: 0 <= i < j < |ds| ==> ds[i].network != ds[j].network)
    && (forall k, c :: 0 <= k < |ds| ==> UniqueObjects(ItemsOf(ds[k], c)))
  }

  /** Before sorting, every entry's idx is its position. */
  ghost predicate Indexed(ds: seq<NetworkDisrupt>)
  {
    forall k :: 0 <= k < |ds| ==> ds[k].idx == k
  }

  /** The body of an add_* loop once the impacts of an object are collected and non-empty:
      find_or_create its network, then merge the object into the list of its category. */
  function Recorded(ds: seq<NetworkDisrupt>, network: nat, c: Category, obj: nat, impacts: set<nat>): seq<NetworkDisrupt>
  {
    var (created, p) := Created(ds, network);
    created[p := WithItems(created[p], c, Merged(ItemsOf(created[p], c), obj, impacts))]
  }

  /** `if (!v.empty())`: an object without impacts changes nothing. */
  function Reported(ds: seq<NetworkDisrupt>, network: nat, c: Category, obj: nat, v: seq<nat>): seq<NetworkDisrupt>
  {
    if |v| == 0 then ds else Recorded(ds, network, c, obj, AsSet(v))
  }

  /** Recording an object keeps the entries unique and indexed, and adds its network's entry if
      it was missing. */
  lemma RecordedShape(ds: seq<NetworkDisrupt>, network: nat, c: Category, obj: nat, impacts: set<nat>)
    requires Unique(ds)
    ensures Unique(Recorded(ds, network, c, obj, impacts))
    ensures Indexed(ds) ==> Indexed(Recorded(ds, network, c, obj, impacts))
    ensures NetworksOf(Recorded(ds, network, c, obj, impacts)) == NetworksOf(ds) + {network}
  {
    var (created, p) := Created(ds, network);
    CreatedShape(ds, network);
    var items := ItemsOf(created[p], c);
    MergedUnions(items, obj, impacts);
    UpdatedShape(created, p, c, Merged(items, obj, impacts));
  }

  /** Recording an object lists it under its network and unions its impacts into its item;
      every other list and item is as it was. */
  lemma RecordedItems(ds: seq<NetworkDisrupt>, network: nat, c: Category, obj: nat, impacts: set<nat>)
    requires Unique(ds)
    ensures forall m, c', o :: FindItem(EntryItems(Recorded(ds, network, c, obj, impacts), m, c'), o).Some? <==>
              FindItem(EntryItems(ds, m, c'), o).Some? || (m == network && c' == c && o == obj)
    ensures forall m, c', o :: ImpactsOf(EntryItems(Recorded(ds, network, c, obj, impacts), m, c'), o) ==
              ImpactsOf(EntryItems(ds, m, c'), o) + (if m == network && c' == c && o == obj then impacts else {})
  {
    EntryUnique(ds, network, c);
    forall m, c', o
      ensures FindItem(EntryItems(Recorded(ds, network, c, obj, impacts), m, c'), o).Some? <==>
                FindItem(EntryItems(ds, m, c'), o).Some? || (m == network && c' == c && o == obj)
      ensures ImpactsOf(EntryItems(Recorded(ds, network, c, obj, impacts), m, c'), o) ==
                ImpactsOf(EntryItems(ds, m, c'), o) + (if m == network && c' == c && o == obj then impacts else {})
    {
      RecordedAt(ds, network, c, obj, impacts, m, c', o);
    }
  }

  /** RecordedItems for object `o` of category `c'` under network `m`. */
  lemma RecordedAt(ds: seq<NetworkDisrupt>, network: nat, c: Category, obj: nat, impacts: set<nat>, m: nat, c': Category, o: nat)
    requires UniqueObjects(EntryItems(ds, network, c))
    ensures FindItem(EntryItems(Recorded(ds, network, c, obj, impacts), m, c'), o).Some? <==>
              FindItem(EntryItems(ds, m, c'), o).Some? || (m == network && c' == c && o == obj)
    ensures ImpactsOf(EntryItems(Recorded(ds, network, c, obj, impacts), m, c'), o) ==
              ImpactsOf(EntryItems(ds, m, c'), o) + (if m == network && c' == c && o == obj then impacts else {})
  {
    RecordedEntry(ds, network, c, obj, impacts, m, c');
    if m == network && c' == c {
      MergedAt(EntryItems(ds, network, c), obj, impacts, o);
    }
  }

  /** After recording, the list of category `c` under `network` is the old one with the object
      merged in; every other list is as it was. */
  lemma RecordedEntry(ds: seq<NetworkDisrupt>, network: nat, c: Category, obj: nat, impacts: set<nat>, m: nat, c': Category)
    ensures EntryItems(Recorded(ds, network, c, obj, impacts), m, c') ==
              if m == network && c' == c then Merged(EntryItems(ds, network, c), obj, impacts) else EntryItems(ds, m, c')
  {
    var created := Created(ds, network).0;
    var p := Created(ds, network).1;
    CreatedEntry(ds, network, network, c);
    CreatedEntry(ds, network, m, c');
    UpdatedEntry(created, p, c, Merged(ItemsOf(created[p], c), obj, impacts), m, c');
  }

  /** find_or_create keeps the entries unique and indexed and adds the network. */
  lemma CreatedShape(ds: seq<NetworkDisrupt>, network: nat)
    requires Unique(ds)
    ensures Unique(Created(ds, network).0)
    ensures Indexed(ds) ==> Indexed(Created(ds, network).0)
    ensures NetworksOf(Created(ds, network).0) == NetworksOf(ds) + {network}
  {
    match FindNetwork(ds, network)
    case Some(p) =>
      assert ds[p] in ds;
    case None =>
      AppendedShape(ds, NetworkDisrupt(|ds|, network, {}, [], [], []));
  }

  /** Appending an entry for a new network, with empty lists. */
  lemma AppendedShape(ds: seq<NetworkDisrupt>, e: NetworkDisrupt)
    requires Unique(ds) && forall k :: 0 <= k < |ds| ==> ds[k].network != e.network
    requires e.lines == [] && e.stopAreas == [] && e.vehicleJourneys == []
    ensures Unique(ds + [e])
    ensures Indexed(ds) && e.idx == |ds| ==> Indexed(ds + [e])
    ensures NetworksOf(ds + [e]) == NetworksOf(ds) + {e.network}
  {
    var r := ds + [e];
    forall k, c | 0 <= k < |r| ensures UniqueObjects(ItemsOf(r[k], c)) {
      if k < |ds| { assert r[k] == ds[k]; }
    }
    assert forall x :: x in r <==> x in ds || x == e;
  }

  /** find_or_create changes no list: a new entry's lists are empty. */
  lemma CreatedEntry(ds: seq<NetworkDisrupt>, network: nat, m: nat, c: Category)
    ensures EntryItems(Created(ds, network).0, m, c) == EntryItems(ds, m, c)
  {
    var (r, p) := Created(ds, network);
    if FindNetwork(ds, network).None? {
      if FindNetwork(ds, m).Some? {
        FindNetworkIs(r, m, FindNetwork(ds, m).value);
      } else if m == network {
        FindNetworkIs(r, m, p);
      }
    }
  }

  /** Replacing one list of entry `p` with a list of unique objects keeps the entries unique
      and indexed, with the same networks. */
  lemma UpdatedShape(ds: seq<NetworkDisrupt>, p: nat, c: Category, items: seq<Item>)
    requires Unique(ds) && p < |ds| && UniqueObjects(items)
    ensures Unique(ds[p := WithItems(ds[p], c, items)])
    ensures Indexed(ds) ==> Indexed(ds[p := WithItems(ds[p], c, items)])
    ensures NetworksOf(ds[p := WithItems(ds[p], c, items)]) == NetworksOf(ds)
  {
    var r := ds[p := WithItems(ds[p], c, items)];
    assert NetworksOf(r) == NetworksOf(ds) by {
      forall e | e in r ensures e.network in NetworksOf(ds) {
        var k :| 0 <= k < |r| && r[k] == e;
        assert ds[k] in ds;
      }
      forall e | e in ds ensures e.network in NetworksOf(r) {
        var k :| 0 <= k < |ds| && ds[k] == e;
        assert r[k] in r;
      }
    }
  }

  /** After replacing one list of entry `p`, that list is the entry network's list of that
      category, and every other list is unchanged. */
  lemma UpdatedEntry(ds: seq<NetworkDisrupt>, p: nat, c: Category, items: seq<Item>, m: nat, c': Category)
    requires p < |ds| && FindNetwork(ds, ds[p].network) == Some(p)
    ensures EntryItems(ds[p := WithItems(ds[p], c, items)], m, c') ==
              if m == ds[p].network && c' == c then items else EntryItems(ds, m, c')
  {
    var r := ds[p := WithItems(ds[p], c, items)];
    if FindNetwork(ds, m).Some? {
      FindNetworkIs(r, m, FindNetwork(ds, m).value);
      if FindNetwork(ds, m).value != p {
        assert r[FindNetwork(ds, m).value] == ds[FindNetwork(ds, m).value];
      }
    } else {
      assert FindNetwork(r, m).None?;
    }
  }

  /** The first entry for `network` determines FindNetwork. */
  lemma FindNetworkIs(ds: seq<NetworkDisrupt>, network: nat, p: nat)
    requires p < |ds| && ds[p].network == network && forall k :: 0 <= k < p ==> ds[k].network != network
    ensures FindNetwork(ds, network) == Some(p)
  {
  }

  /** Whether `o` is listed in category `c` of network `m`'s entry, and with which impacts. */
  function Listed(ds: seq<NetworkDisrupt>, m: nat, c: Category, o: nat): bool
  {
    FindItem(EntryItems(ds, m, c), o).Some?
  }

  function ReportedImpacts(ds: seq<NetworkDisrupt>, m: nat, c: Category, o: nat): set<nat>
  {
    ImpactsOf(EntryItems(ds, m, c), o)
  }

  // ---------------------------------------------------------------------------------------
  // The add_* loops, on values

  /** The body of the add_networks loop: a network with a publishable message gets its entry and
      its messages. */
  function NetworkReported(ds: seq<NetworkDisrupt>, network: nat, d: ReportData, now: int): seq<NetworkDisrupt>
  {
    if d.networkHasMessage(network, now) then
      var created := Created(ds, network).0;
      var p := Created(ds, network).1;
      created[p := Noted(created[p], AsSet(d.messages(NetworkHolder, network, now)))]
    else ds
  }

  /** The entry with `impacts` added to the network's own disruptions. */
  function Noted(e: NetworkDisrupt, impacts: set<nat>): (r: NetworkDisrupt)
    ensures r.networkDisruptions == e.networkDisruptions + impacts
    ensures r.idx == e.idx && r.network == e.network && forall c :: ItemsOf(r, c) == ItemsOf(e, c)
  {
    e.(networkDisruptions := e.networkDisruptions + impacts)
  }

  /** add_networks over the networks, in order. */
  function NetworksAdded(ds: seq<NetworkDisrupt>, networks: seq<nat>, d: ReportData, now: int): seq<NetworkDisrupt>
  {
    if |networks| == 0 then ds
    else
      var n := |networks| - 1;
      NetworkReported(NetworksAdded(ds, networks[..n], d, now), networks[n], d, now)
  }

  /** The network's own disruptions in the report, none when it has no entry. */
  function EntryImpacts(ds: seq<NetworkDisrupt>, m: nat): set<nat>
  {
    match FindNetwork(ds, m)
    case Some(p) => ds[p].networkDisruptions
    case None => {}
  }

  /** What add_networks stores for network `m`: its publishable messages when it is among
      `networks` with a message, nothing otherwise. */
  function NetworkMessages(networks: seq<nat>, m: nat, d: ReportData, now: int): set<nat>
  {
    if m in NetworksWithMessage(networks, d, now) then AsSet(d.messages(NetworkHolder, m, now)) else {}
  }

  /** The networks among `networks` that have a publishable message. */
  function NetworksWithMessage(networks: seq<nat>, d: ReportData, now: int): (r: set<nat>)
    ensures forall x :: x in r <==> exists k :: 0 <= k < |networks| && networks[k] == x && d.networkHasMessage(x, now)
  {
    if |networks| == 0 then {}
    else
      var n := |networks| - 1;
      var r := NetworksWithMessage(networks[..n], d, now) + (if d.networkHasMessage(networks[n], now) then {networks[n]} else {});
      assert forall k :: 0 <= k < n ==> networks[..n][k] == networks[k];
      r
  }

  /** add_networks keeps the entries unique and indexed; the networks with an entry are those
      that had one and those with a publishable message, and no list changes. */
  lemma {:induction false} NetworksAddedEffect(ds: seq<NetworkDisrupt>, networks: seq<nat>, d: ReportData, now: int)
    requires Unique(ds)
    ensures Unique(NetworksAdded(ds, networks, d, now))
    ensures Indexed(ds) ==> Indexed(NetworksAdded(ds, networks, d, now))
    ensures NetworksOf(NetworksAdded(ds, networks, d, now)) == NetworksOf(ds) + NetworksWithMessage(networks, d, now)
    ensures forall m, c :: EntryItems(NetworksAdded(ds, networks, d, now), m, c) == EntryItems(ds, m, c)
  {
    if |networks| > 0 {
      var n := |networks| - 1;
      NetworksAddedEffect(ds, networks[..n], d, now);
      NetworkReportedEffect(NetworksAdded(ds, networks[..n], d, now), networks[n], d, now);
    }
  }

  /** What add_networks stores: each network with a publishable message gains those messages as
      its own disruptions, and every other network keeps what it had. */
  lemma {:induction false} NetworksAddedImpacts(ds: seq<NetworkDisrupt>, networks: seq<nat>, d: ReportData, now: int, m: nat)
    ensures EntryImpacts(NetworksAdded(ds, networks, d, now), m) == EntryImpacts(ds, m) + NetworkMessages(networks, m, d, now)
  {
    if |networks| > 0 {
      var n := |networks| - 1;
      NetworksAddedImpacts(ds, networks[..n], d, now, m);
      NetworkReportedImpacts(NetworksAdded(ds, networks[..n], d, now), networks[n], d, now, m);
      NetworkMessagesStep(networks, d, now);
    }
  }

  /** The last network of the list adds its messages to what the others store. */
  lemma NetworkMessagesStep(networks: seq<nat>, d: ReportData, now: int)
    requires |networks| > 0
    ensures var n := |networks| - 1;
            forall m :: NetworkMessages(networks, m, d, now) == NetworkMessages(networks[..n], m, d, now) +
                          (if m == networks[n] && d.networkHasMessage(m, now) then AsSet(d.messages(NetworkHolder, m, now)) else {})
  {
    var n := |networks| - 1;
    assert NetworksWithMessage(networks, d, now) == NetworksWithMessage(networks[..n], d, now) +
             (if d.networkHasMessage(networks[n], now) then {networks[n]} else {});
  }

  /** One network of add_networks. */
  lemma NetworkReportedEffect(ds: seq<NetworkDisrupt>, network: nat, d: ReportData, now: int)
    requires Unique(ds)
    ensures Unique(NetworkReported(ds, network, d, now))
    ensures Indexed(ds) ==> Indexed(NetworkReported(ds, network, d, now))
    ensures NetworksOf(NetworkReported(ds, network, d, now)) ==
              NetworksOf(ds) + (if d.networkHasMessage(network, now) then {network} else {})
    ensures forall m, c :: EntryItems(NetworkReported(ds, network, d, now), m, c) == EntryItems(ds, m, c)
  {
    if d.networkHasMessage(network, now) {
      var created := Created(ds, network).0;
      var p := Created(ds, network).1;
      CreatedShape(ds, network);
      NotedShape(created, p, AsSet(d.messages(NetworkHolder, network, now)));
      forall m, c ensures EntryItems(created, m, c) == EntryItems(ds, m, c) {
        CreatedEntry(ds, network, m, c);
      }
    }
  }

  /** One network of add_networks: a network with a publishable message gains its messages as
      its own disruptions; no other network's change. */
  lemma NetworkReportedImpacts(ds: seq<NetworkDisrupt>, network: nat, d: ReportData, now: int, m: nat)
    ensures EntryImpacts(NetworkReported(ds, network, d, now), m) ==
              EntryImpacts(ds, m) + (if m == network && d.networkHasMessage(network, now)
                                     then AsSet(d.messages(NetworkHolder, network, now)) else {})
  {
    if d.networkHasMessage(network, now) {
      var created := Created(ds, network).0;
      var p := Created(ds, network).1;
      CreatedImpacts(ds, network, m);
      NotedImpacts(created, p, AsSet(d.messages(NetworkHolder, network, now)), m);
    }
  }

  /** find_or_create changes no network's own disruptions: a new entry has none. */
  lemma CreatedImpacts(ds: seq<NetworkDisrupt>, network: nat, m: nat)
    ensures EntryImpacts(Created(ds, network).0, m) == EntryImpacts(ds, m)
  {
    var (r, p) := Created(ds, network);
    if FindNetwork(ds, network).None? {
      if FindNetwork(ds, m).Some? {
        FindNetworkIs(r, m, FindNetwork(ds, m).value);
      } else if m == network {
        FindNetworkIs(r, m, p);
      }
    }
  }

  /** Noting impacts on entry `p` adds them to that entry's network and to no other. */
  lemma NotedImpacts(ds: seq<NetworkDisrupt>, p: nat, impacts: set<nat>, m: nat)
    requires p < |ds| && FindNetwork(ds, ds[p].network) == Some(p)
    ensures EntryImpacts(ds[p := Noted(ds[p], impacts)], m) ==
              EntryImpacts(ds, m) + (if m == ds[p].network then impacts else {})
  {
    var r := ds[p := Noted(ds[p], impacts)];
    if FindNetwork(ds, m).Some? {
      FindNetworkIs(r, m, FindNetwork(ds, m).value);
      if FindNetwork(ds, m).value != p {
        assert r[FindNetwork(ds, m).value] == ds[FindNetwork(ds, m).value];
      }
    } else {
      assert FindNetwork(r, m).None?;
    }
  }

  /** Adding network disruptions to entry `p` changes neither the networks nor any list. */
  lemma NotedShape(ds: seq<NetworkDisrupt>, p: nat, impacts: set<nat>)
    requires p < |ds|
    ensures Unique(ds) ==> Unique(ds[p := Noted(ds[p], impacts)])
    ensures Indexed(ds) ==> Indexed(ds[p := Noted(ds[p], impacts)])
    ensures NetworksOf(ds[p := Noted(ds[p], impacts)]) == NetworksOf(ds)
    ensures forall m, c :: EntryItems(ds[p := Noted(ds[p], impacts)], m, c) == EntryItems(ds, m, c)
  {
    var r := ds[p := Noted(ds[p], impacts)];
    assert NetworksOf(r) == NetworksOf(ds) by {
      forall e | e in r ensures e.network in NetworksOf(ds) {
        var k :| 0 <= k < |r| && r[k] == e;
        assert ds[k] in ds;
      }
      forall e | e in ds ensures e.network in NetworksOf(r) {
        var k :| 0 <= k < |ds| && ds[k] == e;
        assert r[k] in r;
      }
    }
    forall m, c ensures EntryItems(r, m, c) == EntryItems(ds, m, c) {
      if FindNetwork(ds, m).Some? {
        FindNetworkIs(r, m, FindNetwork(ds, m).value);
      } else {
        assert FindNetwork(r, m).None?;
      }
    }
  }

  /** Every list of a unique report lists each object once. */
  lemma EntryUnique(ds: seq<NetworkDisrupt>, m: nat, c: Category)
    requires Unique(ds)
    ensures UniqueObjects(EntryItems(ds, m, c))
  {
    if FindNetwork(ds, m).Some? {
      assert UniqueObjects(ItemsOf(ds[FindNetwork(ds, m).value], c));
    }
  }

  /** One object an add_* loop visits: the network it is reported under, and the impacts
      collected for it. */
  datatype Sighting = Sighting(network: nat, obj: nat, impacts: seq<nat>)

  /** What the loop over the objects of one query sees; `network` is the sub-query's network
      (lines carry their own). */
  function Sightings(c: Category, network: nat, objects: seq<nat>, d: ReportData, now: int): (r: seq<Sighting>)
    ensures |r| == |objects|
    ensures forall k :: 0 <= k < |r| ==>
              r[k] == Sighting(NetworkFor(d, c, network, objects[k]), objects[k], ImpactsFor(d, c, objects[k], now))
  {
    seq(|objects|, k requires 0 <= k < |objects| =>
      Sighting(NetworkFor(d, c, network, objects[k]), objects[k], ImpactsFor(d, c, objects[k], now)))
  }

  /** The loop over the objects one sub-query found (or, for lines, the one query): each object
      whose impacts are not empty is recorded under its network. */
  function ObjectsAdded(ds: seq<NetworkDisrupt>, c: Category, network: nat, objects: seq<nat>, d: ReportData, now: int): seq<NetworkDisrupt>
  {
    Applied(ds, c, Sightings(c, network, objects, d, now))
  }

  /** Recording the sightings of category `c`, in order. */
  function Applied(ds: seq<NetworkDisrupt>, c: Category, ss: seq<Sighting>): seq<NetworkDisrupt>
  {
    if |ss| == 0 then ds
    else
      var n := |ss| - 1;
      Reported(Applied(ds, c, ss[..n]), ss[n].network, c, ss[n].obj, ss[n].impacts)
  }

  /** The networks under which some sighting has impacts. */
  function SightedNetworks(ss: seq<Sighting>): (r: set<nat>)
    ensures forall x :: x in r <==> exists k :: 0 <= k < |ss| && |ss[k].impacts| > 0 && ss[k].network == x
  {
    if |ss| == 0 then {}
    else
      var n := |ss| - 1;
      var r := SightedNetworks(ss[..n]) + (if |ss[n].impacts| > 0 then {ss[n].network} else {});
      assert forall k :: 0 <= k < n ==> ss[..n][k] == ss[k];
      r
  }

  /** All the impacts the sightings bring to object `o` under network `m`. */
  function Contribution(ss: seq<Sighting>, m: nat, o: nat): set<nat>
  {
    if |ss| == 0 then {}
    else
      var n := |ss| - 1;
      Contribution(ss[..n], m, o) + (if ss[n].obj == o && ss[n].network == m then AsSet(ss[n].impacts) else {})
  }

  /** An impact is contributed exactly when some sighting of `o` under `m` carries it. */
  lemma {:induction false} ContributionContents(ss: seq<Sighting>, m: nat, o: nat)
    ensures forall x :: x in Contribution(ss, m, o) <==>
              exists k :: 0 <= k < |ss| && ss[k].obj == o && ss[k].network == m && x in ss[k].impacts
  {
    if |ss| > 0 {
      var n := |ss| - 1;
      ContributionContents(ss[..n], m, o);
      assert forall k :: 0 <= k < n ==> ss[..n][k] == ss[k];
    }
  }

  /** An add_* loop keeps the entries unique and indexed, and creates the entries of exactly the
      networks under which an object has impacts. */
  lemma {:induction false} AppliedShape(ds: seq<NetworkDisrupt>, c: Category, ss: seq<Sighting>)
    requires Unique(ds)
    ensures Unique(Applied(ds, c, ss))
    ensures Indexed(ds) ==> Indexed(Applied(ds, c, ss))
    ensures NetworksOf(Applied(ds, c, ss)) == NetworksOf(ds) + SightedNetworks(ss)
  {
    if |ss| > 0 {
      var n := |ss| - 1;
      AppliedShape(ds, c, ss[..n]);
      ReportedShape(Applied(ds, c, ss[..n]), ss[n].network, c, ss[n].obj, ss[n].impacts);
    }
  }

  /** One object of an add_* loop. */
  lemma ReportedShape(ds: seq<NetworkDisrupt>, network: nat, c: Category, obj: nat, v: seq<nat>)
    requires Unique(ds)
    ensures Unique(Reported(ds, network, c, obj, v))
    ensures Indexed(ds) ==> Indexed(Reported(ds, network, c, obj, v))
    ensures NetworksOf(Reported(ds, network, c, obj, v)) == NetworksOf(ds) + (if |v| > 0 then {network} else {})
  {
    if |v| > 0 {
      RecordedShape(ds, network, c, obj, AsSet(v));
    }
  }

  /** After an add_* loop of category `c`, object `o` is listed under network `m` when it was
      before or some of its impacts were reported there; the other categories are untouched. */
  lemma {:induction false} AppliedListed(ds: seq<NetworkDisrupt>, c: Category, ss: seq<Sighting>, m: nat, c': Category, o: nat)
    requires Unique(ds)
    ensures Listed(Applied(ds, c, ss), m, c', o) <==> Listed(ds, m, c', o) || (c' == c && Contribution(ss, m, o) != {})
  {
    if |ss| > 0 {
      var n := |ss| - 1;
      var here := if ss[n].obj == o && ss[n].network == m then AsSet(ss[n].impacts) else {};
      NonEmptyUnion(Contribution(ss[..n], m, o), here);
      AppliedListed(ds, c, ss[..n], m, c', o);
      AppliedStep(ds, c, ss, m, c', o);
      if |ss[n].impacts| > 0 {
        assert ss[n].impacts[0] in AsSet(ss[n].impacts);
      } else {
        assert AsSet(ss[n].impacts) == {};
      }
    }
  }

  /** After an add_* loop of category `c`, the impacts of object `o` under network `m` are the
      old ones and all those reported there; the other categories are untouched. */
  lemma {:induction false} AppliedImpacts(ds: seq<NetworkDisrupt>, c: Category, ss: seq<Sighting>, m: nat, c': Category, o: nat)
    requires Unique(ds)
    ensures ReportedImpacts(Applied(ds, c, ss), m, c', o) ==
              ReportedImpacts(ds, m, c', o) + (if c' == c then Contribution(ss, m, o) else {})
  {
    if |ss| > 0 {
      var n := |ss| - 1;
      AppliedImpacts(ds, c, ss[..n], m, c', o);
      AppliedStep(ds, c, ss, m, c', o);
    }
  }

  /** The last sighting of an add_* loop. */
  lemma AppliedStep(ds: seq<NetworkDisrupt>, c: Category, ss: seq<Sighting>, m: nat, c': Category, o: nat)
    requires Unique(ds) && |ss| > 0
    ensures var s := ss[|ss| - 1];
            var prev := Applied(ds, c, ss[..|ss| - 1]);
            && (Listed(Applied(ds, c, ss), m, c', o) <==>
                  Listed(prev, m, c', o) || (m == s.network && c' == c && o == s.obj && |s.impacts| > 0))
            && ReportedImpacts(Applied(ds, c, ss), m, c', o) ==
                 ReportedImpacts(prev, m, c', o) + (if m == s.network && c' == c && o == s.obj then AsSet(s.impacts) else {})
  {
    var n := |ss| - 1;
    AppliedUnique(ds, c, ss[..n], ss[n].network);
    ReportedAt(Applied(ds, c, ss[..n]), ss[n].network, c, ss[n].obj, ss[n].impacts, m, c', o);
  }

  /** RecordedAt, for an object whose impacts may be empty. */
  lemma ReportedAt(ds: seq<NetworkDisrupt>, network: nat, c: Category, obj: nat, v: seq<nat>, m: nat, c': Category, o: nat)
    requires UniqueObjects(EntryItems(ds, network, c))
    ensures Listed(Reported(ds, network, c, obj, v), m, c', o) <==>
              Listed(ds, m, c', o) || (m == network && c' == c && o == obj && |v| > 0)
    ensures ReportedImpacts(Reported(ds, network, c, obj, v), m, c', o) ==
              ReportedImpacts(ds, m, c', o) + (if m == network && c' == c && o == obj then AsSet(v) else {})
  {
    if |v| > 0 {
      RecordedAt(ds, network, c, obj, AsSet(v), m, c', o);
    } else {
      assert AsSet(v) == {};
    }
  }

  /** AppliedShape, for one list. */
  lemma AppliedUnique(ds: seq<NetworkDisrupt>, c: Category, ss: seq<Sighting>, m: nat)
    requires Unique(ds)
    ensures UniqueObjects(EntryItems(Applied(ds, c, ss), m, c))
  {
    AppliedShape(ds, c, ss);
    EntryUnique(Applied(ds, c, ss), m, c);
  }

  lemma NonEmptyUnion(a: set<nat>, b: set<nat>)
    ensures a + b != {} <==> a != {} || b != {}
  {
    if a != {} {
      var y :| y in a;
      assert y in a + b;
    } else if b != {} {
      var y :| y in b;
      assert y in a + b;
    }
  }

  // ---------------------------------------------------------------------------------------
  // The sub-queries and disruptions_list, on values

  /** The exceptions the try block around a sub-query catches: parsing_error and ptref_error. */
  predicate Swallowed(e: QueryError)
  {
    ClassOf(e).ParsingError? || ClassOf(e).PtrefError?
  }

  /** A sub-query inside its try block: a caught exception leaves the indexes empty, any other
      one leaves disruptions_list. */
  function Caught(r: Result<set<nat>, QueryError>): (c: Result<set<nat>, QueryError>)
    ensures r.Ok? ==> c == r
    ensures r.Err? ==> (c.Ok? <==> Swallowed(r.error)) && (c.Ok? ==> c.value == {}) && (c.Err? ==> c == r)
  {
    match r
    case Ok(s) => Ok(s)
    case Err(e) => if Swallowed(e) then Ok({}) else Err(e)
  }

  /** add_lines: the lines the filter selects, each under its own network. */
  function LinesStage(ds: seq<NetworkDisrupt>, filter: string, forbidden: seq<string>, d: ReportData, now: int): Result<seq<NetworkDisrupt>, QueryError>
    requires PathsDescend(d.pt)
  {
    match Caught(Query(Line, filter, forbidden, AllLevels, None, None, d.pt))
    case Err(e) => Err(e)
    case Ok(lines) => Ok(ObjectsAdded(ds, Lines, 0, Ascending(lines), d, now))
  }

  /** The filter of the sub-query for one network: its uri, vehicle journeys with a
      disruption for that category, then the caller's filter. */
  function ScopedFilter(c: Category, uri: string, filter: string): (r: string)
    ensures |r| >= |"network.uri=" + uri| && r[..|"network.uri=" + uri|] == "network.uri=" + uri
    ensures filter != "" ==> |r| > |" and " + filter| && r[|r| - |" and " + filter|..] == " and " + filter
  {
    var head := "network.uri=" + uri + (if c.VehicleJourneys? then " and vehicle_journey.has_disruption()" else "");
    var r := head + (if filter == "" then "" else " and " + filter);
    assert r[..|head|] == head;
    assert head[..|"network.uri=" + uri|] == "network.uri=" + uri;
    r
  }

  /** The type a category's sub-query asks for. */
  function QueriedType(c: Category): PtType
  {
    match c
    case Lines => Line
    case StopAreas => StopArea
    case VehicleJourneys => VehicleJourney
  }

  /** The body of add_stop_areas and add_vehicle_journeys for one network. */
  function NetworkStage(ds: seq<NetworkDisrupt>, c: Category, network: nat, filter: string, forbidden: seq<string>,
                        d: ReportData, now: int): Result<seq<NetworkDisrupt>, QueryError>
    requires PathsDescend(d.pt)
  {
    match Caught(Query(QueriedType(c), ScopedFilter(c, d.networkUri(network), filter), forbidden, AllLevels, None, None, d.pt))
    case Err(e) => Err(e)
    case Ok(found) => Ok(ObjectsAdded(ds, c, network, Ascending(found), d, now))
  }

  /** add_stop_areas or add_vehicle_journeys over the networks, in order; the first escaping
      exception ends it. */
  function PerNetworkStage(ds: seq<NetworkDisrupt>, c: Category, networks: seq<nat>, filter: string, forbidden: seq<string>,
                           d: ReportData, now: int): Result<seq<NetworkDisrupt>, QueryError>
    requires PathsDescend(d.pt)
  {
    if |networks| == 0 then Ok(ds)
    else
      var n := |networks| - 1;
      match PerNetworkStage(ds, c, networks[..n], filter, forbidden, d, now)
      case Err(e) => Err(e)
      case Ok(prev) => NetworkStage(prev, c, networks[n], filter, forbidden, d, now)
  }

  /** disruptions_list once there are impacts: the network query, whose exceptions all escape,
      then add_networks, add_lines, add_stop_areas and add_vehicle_journeys, before sorting. */
  function Collected(ds: seq<NetworkDisrupt>, filter: string, forbidden: seq<string>, d: ReportData, now: int): Result<seq<NetworkDisrupt>, QueryError>
    requires PathsDescend(d.pt)
  {
    match Query(Network, filter, forbidden, AllLevels, None, None, d.pt)
    case Err(e) => Err(e)
    case Ok(found) =>
      var networks := Ascending(found);
      match LinesStage(NetworksAdded(ds, networks, d, now), filter, forbidden, d, now)
      case Err(e) => Err(e)
      case Ok(withLines) =>
        match PerNetworkStage(withLines, StopAreas, networks, filter, forbidden, d, now)
        case Err(e) => Err(e)
        case Ok(withStopAreas) => PerNetworkStage(withStopAreas, VehicleJourneys, networks, filter, forbidden, d, now)
  }

  /** A sub-query whose exception is caught adds nothing to the report. */
  lemma SwallowedAddsNothing(ds: seq<NetworkDisrupt>, c: Category, network: nat, filter: string, forbidden: seq<string>,
                             d: ReportData, now: int)
    requires PathsDescend(d.pt)
    requires var q := Query(QueriedType(c), ScopedFilter(c, d.networkUri(network), filter), forbidden, AllLevels, None, None, d.pt);
             q.Err? && Swallowed(q.error)
    ensures NetworkStage(ds, c, network, filter, forbidden, d, now) == Ok(ds)
  {
    assert Ascending({}) == [];
  }

  /** The same for add_lines. */
  lemma SwallowedLinesAddNothing(ds: seq<NetworkDisrupt>, filter: string, forbidden: seq<string>, d: ReportData, now: int)
    requires PathsDescend(d.pt)
    requires var q := Query(Line, filter, forbidden, AllLevels, None, None, d.pt);
             q.Err? && Swallowed(q.error)
    ensures LinesStage(ds, filter, forbidden, d, now) == Ok(ds)
  {
    assert Ascending({}) == [];
  }

  /** Only an exception the try blocks do not catch leaves a sub-query stage. */
  lemma {:induction false} PerNetworkStageErrors(ds: seq<NetworkDisrupt>, c: Category, networks: seq<nat>, filter: string,
                                                 forbidden: seq<string>, d: ReportData, now: int)
    requires PathsDescend(d.pt)
    ensures PerNetworkStage(ds, c, networks, filter, forbidden, d, now).Err? ==>
              !Swallowed(PerNetworkStage(ds, c, networks, filter, forbidden, d, now).error)
  {
    if |networks| > 0 {
      PerNetworkStageErrors(ds, c, networks[..|networks| - 1], filter, forbidden, d, now);
    }
  }

  /** disruptions_list fails only with an exception of the network query, or one a sub-query's
      try block does not catch. */
  lemma CollectedErrors(ds: seq<NetworkDisrupt>, filter: string, forbidden: seq<string>, d: ReportData, now: int)
    requires PathsDescend(d.pt)
    ensures var r := Collected(ds, filter, forbidden, d, now);
            r.Err? ==> Query(Network, filter, forbidden, AllLevels, None, None, d.pt) == Err(r.error) || !Swallowed(r.error)
  {
    match Query(Network, filter, forbidden, AllLevels, None, None, d.pt)
    case Err(_) =>
    case Ok(found) =>
      var networks := Ascending(found);
      match LinesStage(NetworksAdded(ds, networks, d, now), filter, forbidden, d, now)
      case Err(_) =>
      case Ok(withLines) =>
        PerNetworkStageErrors(withLines, StopAreas, networks, filter, forbidden, d, now);
        match PerNetworkStage(withLines, StopAreas, networks, filter, forbidden, d, now)
        case Err(_) =>
        case Ok(withStopAreas) =>
          PerNetworkStageErrors(withStopAreas, VehicleJourneys, networks, filter, forbidden, d, now);
  }

  /** Each sub-query stage keeps the entries unique and indexed. */
  lemma {:induction false} PerNetworkStageShape(ds: seq<NetworkDisrupt>, c: Category, networks: seq<nat>, filter: string,
                                                forbidden: seq<string>, d: ReportData, now: int)
    requires PathsDescend(d.pt) && Unique(ds)
    ensures var r := PerNetworkStage(ds, c, networks, filter, forbidden, d, now);
            r.Ok? ==> Unique(r.value) && (Indexed(ds) ==> Indexed(r.value))
  {
    if |networks| > 0 {
      var n := |networks| - 1;
      PerNetworkStageShape(ds, c, networks[..n], filter, forbidden, d, now);
      match PerNetworkStage(ds, c, networks[..n], filter, forbidden, d, now)
      case Err(_) =>
      case Ok(prev) =>
        match Caught(Query(QueriedType(c), ScopedFilter(c, d.networkUri(networks[n]), filter), forbidden, AllLevels, None, None, d.pt))
        case Err(_) =>
        case Ok(found) =>
          AppliedShape(prev, c, Sightings(c, networks[n], Ascending(found), d, now));
    }
  }

  /** disruptions_list, before sorting, yields unique and indexed entries. */
  lemma CollectedShape(ds: seq<NetworkDisrupt>, filter: string, forbidden: seq<string>, d: ReportData, now: int)
    requires PathsDescend(d.pt) && Unique(ds)
    ensures var r := Collected(ds, filter, forbidden, d, now);
            r.Ok? ==> Unique(r.value) && (Indexed(ds) ==> Indexed(r.value))
  {
    match Query(Network, filter, forbidden, AllLevels, None, None, d.pt)
    case Err(_) =>
    case Ok(found) =>
      var networks := Ascending(found);
      var withNetworks := NetworksAdded(ds, networks, d, now);
      NetworksAddedEffect(ds, networks, d, now);
      match Caught(Query(Line, filter, forbidden, AllLevels, None, None, d.pt))
      case Err(_) =>
      case Ok(lines) =>
        AppliedShape(withNetworks, Lines, Sightings(Lines, 0, Ascending(lines), d, now));
        var withLines := ObjectsAdded(withNetworks, Lines, 0, Ascending(lines), d, now);
        PerNetworkStageShape(withLines, StopAreas, networks, filter, forbidden, d, now);
        match PerNetworkStage(withLines, StopAreas, networks, filter, forbidden, d, now)
        case Err(_) =>
        case Ok(withStopAreas) =>
          PerNetworkStageShape(withStopAreas, VehicleJourneys, networks, filter, forbidden, d, now);
  }

  // ---------------------------------------------------------------------------------------
  // sort_disruptions

  /** The ordering std::sort requires of its comparison: irreflexive and transitive, with
      incomparability transitive too. */
  ghost predicate StrictWeakOrder<T(!new)>(lt: (T, T) -> bool)
  {
    && (forall a :: !lt(a, a))
    && (forall a, b, c :: lt(a, b) && lt(b, c) ==> lt(a, c))
    && (forall a, b, c :: !lt(a, b) && !lt(b, c) ==> !lt(a, c))
  }

  /** No element is before an earlier one. */
  ghost predicate SortedBy<T>(s: seq<T>, lt: (T, T) -> bool)
  {
    forall i, j :: 0 <= i < j < |s| ==> !lt(s[j], s[i])
  }

  /** std::sort: the elements in an order `lt` agrees with. */
  method Sort<T(!new)>(s: seq<T>, lt: (T, T) -> bool) returns (r: seq<T>)
    requires StrictWeakOrder(lt)
    ensures SortedBy(r, lt) && multiset(r) == multiset(s)
  {
    r := [];
    for i := 0 to |s|
      invariant SortedBy(r, lt) && multiset(r) == multiset(s[..i])
    {
      var p := |r|;
      while p > 0 && lt(s[i], r[p - 1])
        invariant 0 <= p <= |r|
        invariant forall k :: p <= k < |r| ==> lt(s[i], r[k])
      {
        p := p - 1;
      }
      Inserted(r, p, s[i], lt);
      assert s[..i + 1] == s[..i] + [s[i]];
      assert r == r[..p] + r[p..];
      r := r[..p] + [s[i]] + r[p..];
    }
    assert s[..|s|] == s;
  }

  /** Inserting `x` after the elements it is not before and ahead of those it is before keeps a
      sequence sorted. */
  lemma Inserted<T(!new)>(r: seq<T>, p: nat, x: T, lt: (T, T) -> bool)
    requires StrictWeakOrder(lt) && SortedBy(r, lt) && p <= |r|
    requires p > 0 ==> !lt(x, r[p - 1])
    requires forall k :: p <= k < |r| ==> lt(x, r[k])
    ensures SortedBy(r[..p] + [x] + r[p..], lt)
  {
    var t := r[..p] + [x] + r[p..];
    forall i, j | 0 <= i < j < |t| ensures !lt(t[j], t[i]) {
      if j < p {
        assert t[i] == r[i] && t[j] == r[j];
      } else if j == p {
        assert t[i] == r[i] && t[j] == x;
        if i < p - 1 {
          assert !lt(r[p - 1], r[i]);
        }
      } else if i == p {
        assert t[i] == x && t[j] == r[j - 1];
        assert lt(x, r[j - 1]);
      } else if i < p {
        assert t[i] == r[i] && t[j] == r[j - 1];
      } else {
        assert t[i] == r[i - 1] && t[j] == r[j - 1];
      }
    }
  }

  /** sort_disruption: entries by network index. */
  function NetworkBefore(a: NetworkDisrupt, b: NetworkDisrupt): bool
  {
    a.network < b.network
  }

  lemma NetworkBeforeIsStrictWeakOrder()
    ensures StrictWeakOrder(NetworkBefore)
  {
    assert forall a, b :: NetworkBefore(a, b) <==> a.network < b.network;
  }

  /** What sort_lines compares: the lowest priority of the line's impacts, its code, its name. */
  datatype LineKey = LineKey(priority: Int32, code: string, name: string)

  function KeyOf(d: ReportData, line: Item): LineKey
  {
    LineKey(MinPriorityOf(line.impacts, d.severity), d.lineCode(line.obj), d.lineName(line.obj))
  }

  /** sort_lines on keys: by priority, then code, then name. */
  function KeyLess(a: LineKey, b: LineKey): bool
  {
    if a.priority != b.priority then a.priority < b.priority
    else if a.code != b.code then StringLess(a.code, b.code)
    else StringLess(a.name, b.name)
  }

  /** sort_lines itself. */
  function LineOrder(d: ReportData): (Item, Item) -> bool
  {
    (a: Item, b: Item) => KeyLess(KeyOf(d, a), KeyOf(d, b))
  }

  lemma {:induction false} KeyLessIrreflexive(a: LineKey)
    ensures !KeyLess(a, a)
  {
    StringLessIrreflexive(a.name);
  }

  lemma {:induction false} KeyLessTransitive(a: LineKey, b: LineKey, c: LineKey)
    requires KeyLess(a, b) && KeyLess(b, c)
    ensures KeyLess(a, c)
  {
    if a.priority == b.priority == c.priority {
      if a.code != b.code && b.code != c.code {
        StringLessTransitive(a.code, b.code, c.code);
        if a.code == c.code {
          StringLessIrreflexive(a.code);
        }
      } else if a.code == b.code == c.code {
        StringLessTransitive(a.name, b.name, c.name);
      }
    }
  }

  lemma {:induction false} KeyLessTotal(a: LineKey, b: LineKey)
    ensures a == b || KeyLess(a, b) || KeyLess(b, a)
  {
    StringLessTotal(a.code, b.code);
    StringLessTotal(a.name, b.name);
  }

  /** sort_lines is a strict weak order, as std::sort requires: keys are totally ordered. */
  lemma LineOrderIsStrictWeakOrder(d: ReportData)
    ensures StrictWeakOrder(LineOrder(d))
  {
    var lt := LineOrder(d);
    forall a ensures !lt(a, a) {
      KeyLessIrreflexive(KeyOf(d, a));
    }
    forall a, b, c | lt(a, b) && lt(b, c) ensures lt(a, c) {
      KeyLessTransitive(KeyOf(d, a), KeyOf(d, b), KeyOf(d, c));
    }
    forall a, b, c | !lt(a, b) && !lt(b, c) ensures !lt(a, c) {
      var ka, kb, kc := KeyOf(d, a), KeyOf(d, b), KeyOf(d, c);
      KeyLessTotal(ka, kb);
      KeyLessTotal(kb, kc);
      if KeyLess(ka, kc) {
        if ka == kb {
        } else if kb == kc {
        } else {
          KeyLessTransitive(kc, kb, ka);
          KeyLessIrreflexive(ka);
          KeyLessTransitive(ka, kc, ka);
        }
      }
    }
  }

  /** Two entries that differ at most in the order of their lines. */
  ghost predicate SameButLines(e: NetworkDisrupt, f: NetworkDisrupt)
  {
    e == f.(lines := e.lines) && multiset(e.lines) == multiset(f.lines)
  }

  lemma SameButLinesSymmetric(e: NetworkDisrupt, f: NetworkDisrupt)
    requires SameButLines(e, f)
    ensures SameButLines(f, e)
  {
  }

  /** What sort_disruptions leaves of the entries `before`: the same entries, one for one,
      ordered by network, each with its lines reordered by sort_lines. */
  ghost predicate SortedReport(ds: seq<NetworkDisrupt>, before: seq<NetworkDisrupt>, d: ReportData)
  {
    && |ds| == |before|
    && SortedBy(ds, NetworkBefore)
    && (forall k :: 0 <= k < |ds| ==> SortedBy(ds[k].lines, LineOrder(d)))
    && (forall k :: 0 <= k < |ds| ==> HasMatchIn(ds[k], before))
    && (forall j :: 0 <= j < |before| ==> HasMatchIn(before[j], ds))
  }

  /** Some entry of `es` differs from `e` at most in the order of its lines. */
  ghost predicate HasMatchIn(e: NetworkDisrupt, es: seq<NetworkDisrupt>)
  {
    exists j :: 0 <= j < |es| && SameButLines(e, es[j])
  }

  /** The premise of SortedEntries: `sorted` reorders the unique entries `before` by network,
      and `result` reorders the lines of each entry of `sorted` by sort_lines. */
  ghost predicate SortedInTwoSteps(before: seq<NetworkDisrupt>, sorted: seq<NetworkDisrupt>, result: seq<NetworkDisrupt>, d: ReportData)
  {
    && Unique(before) && multiset(sorted) == multiset(before) && SortedBy(sorted, NetworkBefore)
    && |result| == |sorted|
    && forall k :: 0 <= k < |result| ==> SortedBy(result[k].lines, LineOrder(d)) && SameButLines(result[k], sorted[k])
  }

  /** Sorting the entries and then the lines of each gives a sorted report, with entries as
      unique as before. */
  lemma SortedEntries(before: seq<NetworkDisrupt>, sorted: seq<NetworkDisrupt>, result: seq<NetworkDisrupt>, d: ReportData)
    requires SortedInTwoSteps(before, sorted, result, d)
    ensures SortedReport(result, before, d) && Unique(result)
  {
    assert |multiset(sorted)| == |multiset(before)|;
    SortedEntriesMatch(before, sorted, result, d);
    SortedEntriesOrder(before, sorted, result, d);
    SortedEntriesUnique(before, sorted, result, d);
  }

  lemma SortedEntriesOrder(before: seq<NetworkDisrupt>, sorted: seq<NetworkDisrupt>, result: seq<NetworkDisrupt>, d: ReportData)
    requires SortedInTwoSteps(before, sorted, result, d)
    ensures SortedBy(result, NetworkBefore)
  {
    forall i, j | 0 <= i < j < |result| ensures !NetworkBefore(result[j], result[i]) {
      assert !NetworkBefore(sorted[j], sorted[i]);
    }
  }

  lemma SortedEntriesUnique(before: seq<NetworkDisrupt>, sorted: seq<NetworkDisrupt>, result: seq<NetworkDisrupt>, d: ReportData)
    requires SortedInTwoSteps(before, sorted, result, d)
    ensures Unique(result)
  {
    forall i, j | 0 <= i < j < |result| ensures result[i].network != result[j].network {
      SortedNetworksDistinct(before, sorted, result, d, i, j);
    }
    forall k, c | 0 <= k < |result| ensures UniqueObjects(ItemsOf(result[k], c)) {
      SortedItemsUnique(before, sorted, result, d, k, c);
    }
  }

  /** Every entry of `result` matches one of `before`, and every one of `before` is matched. */
  lemma SortedEntriesMatch(before: seq<NetworkDisrupt>, sorted: seq<NetworkDisrupt>, result: seq<NetworkDisrupt>, d: ReportData)
    requires SortedInTwoSteps(before, sorted, result, d)
    ensures forall k :: 0 <= k < |result| ==> HasMatchIn(result[k], before)
    ensures forall j :: 0 <= j < |before| ==> HasMatchIn(before[j], result)
  {
    forall k | 0 <= k < |result| ensures HasMatchIn(result[k], before) {
      var j := MatchedBefore(before, sorted, result, d, k);
    }
    forall j | 0 <= j < |before| ensures HasMatchIn(before[j], result) {
      var k := MatchedAfter(before, sorted, result, d, j);
      SameButLinesSymmetric(result[k], before[j]);
    }
  }

  lemma MatchedBefore(before: seq<NetworkDisrupt>, sorted: seq<NetworkDisrupt>, result: seq<NetworkDisrupt>, d: ReportData, k: nat)
    returns (j: nat)
    requires SortedInTwoSteps(before, sorted, result, d) && k < |result|
    ensures j < |before| && SameButLines(result[k], before[j])
  {
    assert sorted[k] in multiset(before);
    j :| 0 <= j < |before| && before[j] == sorted[k];
  }

  lemma MatchedAfter(before: seq<NetworkDisrupt>, sorted: seq<NetworkDisrupt>, result: seq<NetworkDisrupt>, d: ReportData, j: nat)
    returns (k: nat)
    requires SortedInTwoSteps(before, sorted, result, d) && j < |before|
    ensures k < |result| && SameButLines(result[k], before[j])
  {
    assert before[j] in multiset(sorted);
    k :| 0 <= k < |sorted| && sorted[k] == before[j];
  }

  /** With one entry per network, a sorted report ascends strictly by network, so the order in
      which the entries were created does not show in it. */
  lemma SortedReportAscends(ds: seq<NetworkDisrupt>, before: seq<NetworkDisrupt>, d: ReportData)
    requires SortedReport(ds, before, d) && Unique(ds)
    ensures forall i, j :: 0 <= i < j < |ds| ==> ds[i].network < ds[j].network
  {
  }

  lemma SortedNetworksDistinct(before: seq<NetworkDisrupt>, sorted: seq<NetworkDisrupt>, result: seq<NetworkDisrupt>, d: ReportData,
                               i: nat, j: nat)
    requires SortedInTwoSteps(before, sorted, result, d) && i < j < |result|
    ensures result[i].network != result[j].network
  {
    if result[i].network == result[j].network {
      assert sorted[i] in multiset(before) && sorted[j] in multiset(before);
      var a :| 0 <= a < |before| && before[a] == sorted[i];
      var b :| 0 <= b < |before| && before[b] == sorted[j];
      assert a == b;
      CountedTwice(sorted, i, j);
      DistinctEntries(before);
      CountedOnce(before, sorted[i]);
      assert false;
    }
  }

  lemma SortedItemsUnique(before: seq<NetworkDisrupt>, sorted: seq<NetworkDisrupt>, result: seq<NetworkDisrupt>, d: ReportData,
                          k: nat, c: Category)
    requires SortedInTwoSteps(before, sorted, result, d) && k < |result|
    ensures UniqueObjects(ItemsOf(result[k], c))
  {
    assert sorted[k] in multiset(before);
    var a :| 0 <= a < |before| && before[a] == sorted[k];
    assert UniqueObjects(ItemsOf(before[a], c));
    if c == Lines {
      PermutedUnique(sorted[k].lines, result[k].lines);
    } else {
      assert ItemsOf(result[k], c) == ItemsOf(sorted[k], c);
    }
  }

  /** Entries for pairwise distinct networks are pairwise distinct. */
  lemma DistinctEntries(ds: seq<NetworkDisrupt>)
    requires Unique(ds)
    ensures forall i, j :: 0 <= i < j < |ds| ==> ds[i] != ds[j]
  {
  }

  lemma {:induction false} CountedOnce<T>(s: seq<T>, x: T)
    requires forall i, j :: 0 <= i < j < |s| ==> s[i] != s[j]
    ensures multiset(s)[x] <= 1
  {
    if |s| > 0 {
      var n := |s| - 1;
      CountedOnce(s[..n], x);
      assert s == s[..n] + [s[n]];
      if x == s[n] {
        assert x !in s[..n];
      }
    }
  }

  lemma CountedTwice<T>(s: seq<T>, i: nat, j: nat)
    requires i < j < |s| && s[i] == s[j]
    ensures multiset(s)[s[i]] >= 2
  {
    assert s == s[..j] + [s[j]] + s[j + 1..];
    assert s[i] in s[..j];
  }

  /** A reordering of a list with each object once lists each object once. */
  lemma PermutedUnique(a: seq<Item>, b: seq<Item>)
    requires UniqueObjects(a) && multiset(a) == multiset(b)
    ensures UniqueObjects(b)
  {
    forall i, j | 0 <= i < j < |b| ensures b[i].obj != b[j].obj {
      if b[i].obj == b[j].obj {
        assert b[i] in multiset(a) && b[j] in multiset(a);
        var x :| 0 <= x < |a| && a[x] == b[i];
        var y :| 0 <= y < |a| && a[y] == b[j];
        assert x == y;
        CountedTwice(b, i, j);
        assert forall p, q :: 0 <= p < q < |a| ==> a[p] != a[q];
        CountedOnce(a, b[i]);
        assert false;
      }
    }
  }

  /** A sub-query stage after `if (...) return;` on an escaping exception. */
  lemma {:induction false} PerNetworkStageStopsAt(ds: seq<NetworkDisrupt>, c: Category, networks: seq<nat>, filter: string,
                                                  forbidden: seq<string>, d: ReportData, now: int, k: nat, e: QueryError)
    requires PathsDescend(d.pt) && k <= |networks|
    requires PerNetworkStage(ds, c, networks[..k], filter, forbidden, d, now) == Err(e)
    ensures PerNetworkStage(ds, c, networks, filter, forbidden, d, now) == Err(e)
    decreases |networks| - k
  {
    if k < |networks| {
      assert networks[..k + 1][..k] == networks[..k];
      PerNetworkStageStopsAt(ds, c, networks, filter, forbidden, d, now, k + 1, e);
    } else {
      assert networks[..k] == networks;
    }
  }

  /** One more network of a sub-query stage. */
  /** One more network of the pass: its success extends the pass, its escaping error ends it. */
  lemma PerNetworkStageAdvance(ds: seq<NetworkDisrupt>, c: Category, networks: seq<nat>, filter: string,
                               forbidden: seq<string>, d: ReportData, now: int, i: nat, prev: seq<NetworkDisrupt>)
    requires PathsDescend(d.pt) && i < |networks|
    requires PerNetworkStage(ds, c, networks[..i], filter, forbidden, d, now) == Ok(prev)
    ensures var r := NetworkStage(prev, c, networks[i], filter, forbidden, d, now);
            && (r.Ok? ==> PerNetworkStage(ds, c, networks[..i + 1], filter, forbidden, d, now) == r)
            && (r.Err? ==> PerNetworkStage(ds, c, networks, filter, forbidden, d, now) == r)
  {
    PerNetworkStageStep(ds, c, networks, filter, forbidden, d, now, i, prev);
    var r := NetworkStage(prev, c, networks[i], filter, forbidden, d, now);
    if r.Err? {
      PerNetworkStageStopsAt(ds, c, networks, filter, forbidden, d, now, i + 1, r.error);
    }
  }

  lemma PerNetworkStageStep(ds: seq<NetworkDisrupt>, c: Category, networks: seq<nat>, filter: string,
                            forbidden: seq<string>, d: ReportData, now: int, i: nat, prev: seq<NetworkDisrupt>)
    requires PathsDescend(d.pt) && i < |networks|
    requires PerNetworkStage(ds, c, networks[..i], filter, forbidden, d, now) == Ok(prev)
    ensures PerNetworkStage(ds, c, networks[..i + 1], filter, forbidden, d, now) ==
              NetworkStage(prev, c, networks[i], filter, forbidden, d, now)
  {
    assert networks[..i + 1][..i] == networks[..i];
  }

  // ---------------------------------------------------------------------------------------
  // The report object

  /** TrafficReport: the entries it accumulates, one per network. */
  class TrafficReport {
    var disrupts: seq<NetworkDisrupt>

    ghost predicate Valid()
      reads this
    {
      Unique(disrupts)
    }

    constructor()
      ensures disrupts == [] && Valid()
    {
      disrupts := [];
    }

    /** get_disrupts_size. */
    function Size(): (n: nat)
      reads this
      ensures n == |disrupts|
    {
      |disrupts|
    }

    /** find_or_create: the position of the entry for `network`, appended if it is missing. */
    method FindOrCreate(network: nat) returns (pos: nat)
      modifies this
      ensures (disrupts, pos) == Created(old(disrupts), network)
    {
      pos := 0;
      while pos < |disrupts| && disrupts[pos].network != network
        invariant pos <= |disrupts|
        invariant forall k :: 0 <= k < pos ==> disrupts[k].network != network
      {
        pos := pos + 1;
      }
      if pos == |disrupts| {
        disrupts := disrupts + [NetworkDisrupt(|disrupts|, network, {}, [], [], [])];
      } else {
        FindNetworkIs(disrupts, network, pos);
      }
    }

    /** The `if (!v.empty())` block of the add_* loops. */
    method Record(network: nat, c: Category, obj: nat, v: seq<nat>)
      modifies this
      ensures disrupts == Reported(old(disrupts), network, c, obj, v)
    {
      if |v| > 0 {
        var p := FindOrCreate(network);
        var items := ItemsOf(disrupts[p], c);
        var q := 0;
        while q < |items| && items[q].obj != obj
          invariant q <= |items|
          invariant forall k :: 0 <= k < q ==> items[k].obj != obj
        {
          q := q + 1;
        }
        if q == |items| {
          items := items + [Item(obj, AsSet(v))];
        } else {
          FindItemIs(items, obj, q);
          items := items[q := Item(obj, items[q].impacts + AsSet(v))];
        }
        disrupts := disrupts[p := WithItems(disrupts[p], c, items)];
      }
    }

    /** The impacts collected for one object: the get_publishable_messages loop for lines and
        stop areas, the filtered get_impacts for vehicle journeys. */
    static method Collect(c: Category, obj: nat, d: ReportData, now: int) returns (v: seq<nat>)
      ensures v == ImpactsFor(d, c, obj, now)
    {
      match c
      case Lines =>
        v := CollectMessages(d.messages(LineHolder, obj, now), d.lineRoutes(obj), d, RouteHolder, now);
      case StopAreas =>
        v := CollectMessages(d.messages(StopAreaHolder, obj, now), d.stopPoints(obj), d, StopPointHolder, now);
      case VehicleJourneys =>
        v := NoServiceImpacts(d.vehicleJourneyImpacts(obj), d, now);
    }

    /** The loop of an add_* method over the objects one query found, in index order. */
    method AddObjects(c: Category, network: nat, objects: seq<nat>, d: ReportData, now: int)
      modifies this
      ensures disrupts == ObjectsAdded(old(disrupts), c, network, objects, d, now)
    {
      ghost var ss := Sightings(c, network, objects, d, now);
      ghost var ds := disrupts;
      for i := 0 to |objects|
        invariant disrupts == Applied(ds, c, ss[..i])
      {
        var v := Collect(c, objects[i], d, now);
        Record(NetworkFor(d, c, network, objects[i]), c, objects[i], v);
        assert ss[..i + 1][..i] == ss[..i];
      }
      assert ss[..|objects|] == ss;
    }

    /** add_networks. */
    method AddNetworks(networks: seq<nat>, d: ReportData, now: int)
      modifies this
      ensures disrupts == NetworksAdded(old(disrupts), networks, d, now)
    {
      ghost var ds := disrupts;
      for i := 0 to |networks|
        invariant disrupts == NetworksAdded(ds, networks[..i], d, now)
      {
        var network := networks[i];
        if d.networkHasMessage(network, now) {
          var p := FindOrCreate(network);
          disrupts := disrupts[p := Noted(disrupts[p], AsSet(d.messages(NetworkHolder, network, now)))];
        }
        assert networks[..i + 1][..i] == networks[..i];
      }
      assert networks[..|networks|] == networks;
    }

    /** add_lines; `escaped` is the exception that leaves it, if any. */
    method AddLines(filter: string, forbidden: seq<string>, d: ReportData, now: int) returns (escaped: Option<QueryError>)
      requires PathsDescend(d.pt)
      modifies this
      ensures match LinesStage(old(disrupts), filter, forbidden, d, now)
              case Ok(r) => escaped == None && disrupts == r
              case Err(e) => escaped == Some(e)
    {
      var found := MakeQueryForbidding(Line, filter, forbidden, d.pt);
      match Caught(found) {
        case Err(e) =>
          escaped := Some(e);
        case Ok(lines) =>
          AddObjects(Lines, 0, Ascending(lines), d, now);
          escaped := None;
      }
    }

    /** The body of add_stop_areas and add_vehicle_journeys for one network. */
    method AddForNetwork(c: Category, network: nat, filter: string, forbidden: seq<string>, d: ReportData, now: int)
      returns (escaped: Option<QueryError>)
      requires PathsDescend(d.pt)
      modifies this
      ensures match NetworkStage(old(disrupts), c, network, filter, forbidden, d, now)
              case Ok(r) => escaped == None && disrupts == r
              case Err(e) => escaped == Some(e)
    {
      var found := MakeQueryForbidding(QueriedType(c), ScopedFilter(c, d.networkUri(network), filter), forbidden, d.pt);
      match Caught(found) {
        case Err(e) =>
          escaped := Some(e);
        case Ok(objects) =>
          AddObjects(c, network, Ascending(objects), d, now);
          escaped := None;
      }
    }

    /** add_stop_areas (c == StopAreas) and add_vehicle_journeys (c == VehicleJourneys). */
    method AddPerNetwork(c: Category, networks: seq<nat>, filter: string, forbidden: seq<string>, d: ReportData, now: int)
      returns (escaped: Option<QueryError>)
      requires PathsDescend(d.pt)
      modifies this
      ensures match PerNetworkStage(old(disrupts), c, networks, filter, forbidden, d, now)
              case Ok(r) => escaped == None && disrupts == r
              case Err(e) => escaped == Some(e)
    {
      ghost var ds := disrupts;
      for i := 0 to |networks|
        invariant PerNetworkStage(ds, c, networks[..i], filter, forbidden, d, now) == Ok(disrupts)
      {
        ghost var stage := NetworkStage(disrupts, c, networks[i], filter, forbidden, d, now);
        PerNetworkStageAdvance(ds, c, networks, filter, forbidden, d, now, i, disrupts);
        escaped := AddForNetwork(c, networks[i], filter, forbidden, d, now);
        if escaped.Some? {
          assert stage == Err(escaped.value);
          return;
        }
        assert stage == Ok(disrupts);
      }
      assert networks[..|networks|] == networks;
      escaped := None;
    }

    /** sort_disruptions: the entries by network, then the lines of each by sort_lines. */
    method SortDisruptions(d: ReportData)
      requires Valid()
      modifies this
      ensures Valid() && SortedReport(disrupts, old(disrupts), d)
    {
      NetworkBeforeIsStrictWeakOrder();
      LineOrderIsStrictWeakOrder(d);
      var sorted := Sort(disrupts, NetworkBefore);
      var before := disrupts;
      disrupts := sorted;
      for i := 0 to |disrupts|
        invariant |disrupts| == |sorted|
        invariant forall k :: 0 <= k < i ==> SortedBy(disrupts[k].lines, LineOrder(d)) && SameButLines(disrupts[k], sorted[k])
        invariant forall k :: i <= k < |disrupts| ==> disrupts[k] == sorted[k]
      {
        var lines := Sort(disrupts[i].lines, LineOrder(d));
        disrupts := disrupts[i := disrupts[i].(lines := lines)];
      }
      SortedEntries(before, sorted, disrupts, d);
    }

    /** disruptions_list: nothing when the data holds no impact at all; otherwise the network
        query, whose exceptions escape, then each add_* method and the sort. */
    method DisruptionsList(filter: string, forbidden: seq<string>, d: ReportData, now: int) returns (escaped: Option<QueryError>)
      requires Valid() && PathsDescend(d.pt)
      modifies this
      ensures !d.hasImpacts ==> escaped == None && disrupts == old(disrupts)
      ensures d.hasImpacts ==>
                match Collected(old(disrupts), filter, forbidden, d, now)
                case Ok(r) => escaped == None && Valid() && SortedReport(disrupts, r, d)
                case Err(e) => escaped == Some(e)
    {
      if !d.hasImpacts {
        return None;
      }
      var found := MakeQueryForbidding(Network, filter, forbidden, d.pt);
      if found.Err? {
        return Some(found.error);
      }
      var networks := Ascending(found.value);
      ghost var ds := disrupts;
      CollectedShape(ds, filter, forbidden, d, now);
      AddNetworks(networks, d, now);
      escaped := AddLines(filter, forbidden, d, now);
      if escaped.Some? {
        return;
      }
      escaped := AddPerNetwork(StopAreas, networks, filter, forbidden, d, now);
      if escaped.Some? {
        return;
      }
      escaped := AddPerNetwork(VehicleJourneys, networks, filter, forbidden, d, now);
      if escaped.Some? {
        return;
      }
      SortDisruptions(d);
    }
  }
}
