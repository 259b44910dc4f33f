/** The PT-referential query (make_query and its helpers in ptreferential/ptreferential.cpp):
    the indexes of the objects of a requested type that pass every filter of a request, minus the
    forbidden objects, narrowed by on-demand-transport level and by validity period. `Indexes`
    (a sorted container without duplicates) is a set of naturals; the transport data is a record
    of lookups; times are whole seconds and dates are day numbers. */
module PtQuery {
  import opened Wrappers
  import opened Text
  import opened FilterGrammar

  /** Type_e. `OtherType` stands for the remaining types of the enumeration, each by its caption. */
  datatype PtType =
    | Unknown | Network | Line | Route | StopArea | StopPoint | VehicleJourney | MetaVehicleJourney
    | Impact | JourneyPattern | JourneyPatternPoint | POI | POIType | Connection
    | OtherType(caption: string)

  /** OdtLevel_e. */
  datatype OdtLevel = Scheduled | WithStops | Zonal | AllLevels

  /** hasOdtProperties of a line. */
  datatype OdtProperties = OdtProperties(isScheduled: bool, isWithStops: bool, isZonal: bool)

  /** parsing_error::error_type. */
  datatype ErrorKind = GlobalParse | PartialParse | UnknownObject

  /** The exception classes make_query lets out: parsing_error with its kind, ptref_error, and
      the std::out_of_range of a caption lookup outside a try block. */
  datatype Exception = ParsingError(kind: ErrorKind) | PtrefError | OutOfRange

  /** Each throw of make_query and its helpers; ClassOf and Message give the exception and its
      what() text. The other lookups of get_indexes (DWITHIN, HAVING, AFTER, methods) throw
      their own, as given. */
  datatype QueryError =
    | NotParsed(parseError: ParseError)
    | UnknownObjectType(name: string)
    | NoRequestedObject
    | UnknownMethodCall(objectName: string, methodName: string)
    | TypeNotHandled(caption: string)
    | CaptionOutOfRange
    | InvalidPeriod
    | OutsideProduction
    | NoPeriodForType
    | NothingFound
    | LookupError(exception: Exception, message: string)

  /** The exception class each error is thrown as. */
  function ClassOf(e: QueryError): Exception
  {
    match e
    case NotParsed(p) => ParsingError(if p.GlobalError? then GlobalParse else PartialParse)
    case UnknownObjectType(_) => ParsingError(UnknownObject)
    case NoRequestedObject => PtrefError
    case UnknownMethodCall(_, _) => ParsingError(PartialParse)
    case TypeNotHandled(_) => ParsingError(PartialParse)
    case CaptionOutOfRange => OutOfRange
    case InvalidPeriod => PtrefError
    case OutsideProduction => PtrefError
    case NoPeriodForType => ParsingError(GlobalParse)
    case NothingFound => PtrefError
    case LookupError(exception, _) => exception
  }

  /** The what() text of each error (std::out_of_range's own text is the library's). */
  function Message(e: QueryError): string
  {
    match e
    case NotParsed(p) => ErrorMessage(p)
    case UnknownObjectType(name) => "Filter Unknown object type: " + name
    case NoRequestedObject => "Filters: No requested object in the database"
    case UnknownMethodCall(o, m) => "Unknown method " + o + ":" + m
    case TypeNotHandled(caption) => "Filter: Unable to find the requested type. Not parsed: >>" + caption + "<<"
    case CaptionOutOfRange => ""
    case InvalidPeriod => "invalid filtering period"
    case OutsideProduction => "invalid filtering period, not in production period"
    case NoPeriodForType => "cannot filter on validity period for this type"
    case NothingFound => "Filters: Unable to find object"
    case LookupError(_, message) => message
  }

  /** The members a WHERE clause reads from an object. */
  datatype PtObject = PtObject(uri: string, name: string, code: string)

  /** The transport data `d` and the static captions, as far as the query reads them.
      - objectCount, allIndexes: get_nb_obj and get_all_index;
      - typeByCaption, captionByType: the static caption tables (a missing key throws);
      - typeOfId: get_type_of_id of a forbidden uri;
      - isPtType: the types ITERATE_NAVITIA_PT_TYPES lists;
      - otherLookup: the DWITHIN, HAVING, AFTER and method branches of get_indexes;
      - idLookup: the uri maps and the journey-pattern(-point) id lookups;
      - objects, hasCode: get_data of a type, and whether its objects have a `code` member;
      - findPath, pathRank: find_path(requested) as a predecessor function, with a rank that
        each step towards the requested type lowers;
      - targetBySource: get_target_by_source;
      - lineOdt: the odt properties of each line;
      - productionBegin, productionEnd: the production days [begin, end);
      - firstDeparture, validOn: a vehicle journey's first departure (None without stop times)
        and its base validity pattern;
      - applicationPeriods: an impact's application periods [a, b), None when it has expired. */
  datatype PtData = PtData(
    objectCount: PtType -> nat,
    allIndexes: PtType -> set<nat>,
    typeByCaption: map<string, PtType>,
    captionByType: map<PtType, string>,
    typeOfId: string -> PtType,
    isPtType: PtType -> bool,
    otherLookup: (Filter, PtType) -> Result<set<nat>, QueryError>,
    idLookup: (PtType, string) -> set<nat>,
    objects: PtType -> seq<PtObject>,
    hasCode: PtType -> bool,
    findPath: PtType -> PtType -> PtType,
    pathRank: PtType -> PtType -> nat,
    targetBySource: (PtType, PtType, set<nat>) -> set<nat>,
    lineOdt: nat -> OdtProperties,
    productionBegin: int,
    productionEnd: int,
    firstDeparture: nat -> Option<nat>,
    validOn: (nat, int) -> bool,
    applicationPeriods: nat -> Option<seq<(int, int)>>)

  // ---------------------------------------------------------------------------------------------
  // Set algebra

  /** get_intersection: std::set_intersection of two sorted index sets. */
  function GetIntersection(a: set<nat>, b: set<nat>): (r: set<nat>)
    ensures forall x :: x in r <==> x in a && x in b
    ensures r <= a && r <= b
  {
    a * b
  }

  /** get_difference: std::set_difference of two sorted index sets. */
  function GetDifference(a: set<nat>, b: set<nat>): (r: set<nat>)
    ensures forall x :: x in r <==> x in a && x !in b
    ensures r <= a && r !! b
  {
    a - b
  }

  // ---------------------------------------------------------------------------------------------
  // WHERE clauses (build_clause and filtered_indexes)

  datatype Attribute = UriAttribute | NameAttribute | CodeAttribute

  /** One WHERE(member, op, value) of a clause. */
  datatype Condition = Condition(attribute: Attribute, op: Operator, value: string)

  function AttributeValue(o: PtObject, a: Attribute): string {
    match a
    case UriAttribute => o.uri
    case NameAttribute => o.name
    case CodeAttribute => o.code
  }

  /** A member value compared with a filter value; DWITHIN is never a member comparison. */
  predicate Compares(x: string, op: Operator, v: string) {
    match op
    case EQ => x == v
    case NEQ => x != v
    case LT => StringLess(x, v)
    case GT => StringLess(v, x)
    case LEQ => !StringLess(v, x)
    case GEQ => !StringLess(x, v)
    case DWITHIN => false
  }

  /** A clause is the conjunction of its conditions (BaseWhere alone accepts everything). */
  predicate Holds(clause: seq<Condition>, o: PtObject) {
    forall k :: 0 <= k < |clause| ==> Compares(AttributeValue(o, clause[k].attribute), clause[k].op, clause[k].value)
  }

  /** How one filter restricts the objects of a type: by uri, name or code (code only where the
      type has that member); any other attribute restricts nothing. */
  predicate Accepts(f: Filter, hasCode: bool, o: PtObject) {
    match f
    case Compare(_, attribute, op, value) =>
      if attribute == "uri" then Compares(o.uri, op, value)
      else if attribute == "name" then Compares(o.name, op, value)
      else if attribute == "code" && hasCode then Compares(o.code, op, value)
      else true
    case _ => true
  }

  /** ANDing one more condition onto a clause. */
  lemma HoldsAppend(clause: seq<Condition>, c: Condition, o: PtObject)
    ensures Holds(clause + [c], o) <==> Holds(clause, o) && Holds([c], o)
  {
    var both := clause + [c];
    if Holds(clause, o) && Holds([c], o) {
      forall k | 0 <= k < |both|
        ensures Compares(AttributeValue(o, both[k].attribute), both[k].op, both[k].value)
      {
        if k == |clause| { assert both[k] == [c][0]; } else { assert both[k] == clause[k]; }
      }
    }
    if Holds(both, o) {
      forall k | 0 <= k < |clause|
        ensures Compares(AttributeValue(o, clause[k].attribute), clause[k].op, clause[k].value)
      {
        assert both[k] == clause[k];
      }
      assert both[|clause|] == c;
    }
  }

  /** A one-condition clause is that condition. */
  lemma HoldsOne(c: Condition, o: PtObject)
    ensures Holds([c], o) <==> Compares(AttributeValue(o, c.attribute), c.op, c.value)
  {
    assert [c][0] == c;
  }

  /** build_clause: one condition per filter on uri, name or code; other attributes (and a code
      the type lacks, the unknown_member case) are skipped. The clause accepts an object exactly
      when every filter does. */
  method BuildClause(filters: seq<Filter>, hasCode: bool) returns (clause: seq<Condition>)
    ensures |clause| <= |filters|
    ensures forall o :: Holds(clause, o) <==> forall k :: 0 <= k < |filters| ==> Accepts(filters[k], hasCode, o)
  {
    clause := [];
    for i := 0 to |filters|
      invariant |clause| <= i
      invariant forall o :: Holds(clause, o) <==> forall k :: 0 <= k < i ==> Accepts(filters[k], hasCode, o)
    {
      var f := filters[i];
      var added: Option<Condition> := None;
      if f.Compare? {
        if f.attribute == "uri" {
          added := Some(Condition(UriAttribute, f.op, f.value));
        } else if f.attribute == "name" {
          added := Some(Condition(NameAttribute, f.op, f.value));
        } else if f.attribute == "code" && hasCode {
          added := Some(Condition(CodeAttribute, f.op, f.value));
        }
      }
      forall o ensures Accepts(f, hasCode, o) <==> (added.None? || Holds([added.value], o)) {
        if added.Some? {
          HoldsOne(added.value, o);
        }
      }
      ghost var before := clause;
      if added.Some? {
        clause := clause + [added.value];
        forall o ensures Holds(clause, o) <==> Holds(before, o) && Holds([added.value], o) {
          HoldsAppend(before, added.value, o);
        }
      }
    }
  }

  /** filtered_indexes: the positions of the objects the clause accepts, in one pass. */
  method FilteredIndexes(objects: seq<PtObject>, clause: seq<Condition>) returns (indexes: set<nat>)
    ensures forall i: nat :: i in indexes <==> i < |objects| && Holds(clause, objects[i])
  {
    indexes := {};
    for i := 0 to |objects|
      invariant forall k: nat :: k in indexes <==> k < i && Holds(clause, objects[k])
    {
      if Holds(clause, objects[i]) {
        indexes := indexes + {i};
      }
    }
  }

  /** The objects of a sequence that one filter accepts. */
  function Selected(objects: seq<PtObject>, f: Filter, hasCode: bool): (r: set<nat>)
    ensures forall i: nat :: i in r <==> i < |objects| && Accepts(f, hasCode, objects[i])
  {
    set i: nat | i < |objects| && Accepts(f, hasCode, objects[i])
  }

  // ---------------------------------------------------------------------------------------------
  // get_indexes

  /** The branch of get_indexes that finds the indexes of one filter before the path walk. */
  datatype Lookup = OtherLookup | IdLookup | NoSuchMethod | GenericLookup

  function LookupOf(f: Filter): Lookup {
    match f
    case Compare(objectName, attribute, op, _) =>
      if op == DWITHIN then OtherLookup
      else if (objectName == "journey_pattern" || objectName == "journey_pattern_point")
              && op == EQ && (attribute == "uri" || attribute == "name") then IdLookup
      else if attribute == "uri" && op == EQ then IdLookup
      else GenericLookup
    case Having(_, _) => OtherLookup
    case After(_) => OtherLookup
    case Method(objectName, methodName, args) =>
      if (objectName == "vehicle_journey" && methodName == "has_headsign" && |args| == 1)
         || (objectName == "vehicle_journey" && methodName == "has_disruption" && |args| == 0)
         || (methodName == "has_code" && |args| == 2)
      then OtherLookup
      else NoSuchMethod
  }

  /** The indexes of the objects of type `t` one filter designates, before the path walk. */
  function FilterLookup(f: Filter, t: PtType, d: PtData): (r: Result<set<nat>, QueryError>)
    ensures LookupOf(f) == GenericLookup ==> r == Ok(Selected(d.objects(t), f, d.hasCode(t)))
    ensures LookupOf(f) == NoSuchMethod ==> r == Err(UnknownMethodCall(f.objectName, f.methodName))
  {
    match LookupOf(f)
    case OtherLookup => d.otherLookup(f, t)
    case IdLookup => Ok(d.idLookup(t, f.value))
    case NoSuchMethod => Err(UnknownMethodCall(f.objectName, f.methodName))
    case GenericLookup => Ok(Selected(d.objects(t), f, d.hasCode(t)))
  }

  /** find_path's predecessor function leads every type to a fixed point: each step lowers the
      rank. (The C++ loop would not end otherwise.) */
  ghost predicate PathsDescend(d: PtData) {
    forall requested: PtType, t: PtType :: d.findPath(requested)(t) != t ==>
      d.pathRank(requested)(d.findPath(requested)(t)) < d.pathRank(requested)(t)
  }

  /** The path walk of get_indexes: the indexes are carried from type to predecessor type until
      a type that is its own predecessor; yields that type and the indexes there. */
  function FollowPath(d: PtData, requested: PtType, current: PtType, indexes: set<nat>): (r: (PtType, set<nat>))
    requires PathsDescend(d)
    ensures d.findPath(requested)(r.0) == r.0
    ensures d.findPath(requested)(current) == current ==> r == (current, indexes)
    decreases d.pathRank(requested)(current)
  {
    var next := d.findPath(requested)(current);
    if next == current then (current, indexes)
    else FollowPath(d, requested, next, d.targetBySource(current, next, indexes))
  }

  /** get_indexes<T>(filter, requested_type, d) for a filter on objects of type `t`. */
  function IndexesOf(f: Filter, t: PtType, requested: PtType, d: PtData): (r: Result<set<nat>, QueryError>)
    requires PathsDescend(d)
  {
    match FilterLookup(f, t, d)
    case Err(e) => Err(e)
    case Ok(found) =>
      var reached := FollowPath(d, requested, t, found);
      Ok(if reached.0 == requested then reached.1 else {})
  }

  /** The branches of get_indexes that look the filter up; the last builds a WHERE clause and
      scans the objects. */
  method LookUp(f: Filter, t: PtType, d: PtData) returns (r: Result<set<nat>, QueryError>)
    ensures r == FilterLookup(f, t, d)
  {
    match LookupOf(f) {
      case OtherLookup =>
        r := d.otherLookup(f, t);
      case IdLookup =>
        r := Ok(d.idLookup(t, f.value));
      case NoSuchMethod =>
        r := Err(UnknownMethodCall(f.objectName, f.methodName));
      case GenericLookup =>
        var clause := BuildClause([f], d.hasCode(t));
        var indexes := FilteredIndexes(d.objects(t), clause);
        forall o ensures Holds(clause, o) <==> Accepts(f, d.hasCode(t), o) {
          assert [f][0] == f;
        }
        assert indexes == Selected(d.objects(t), f, d.hasCode(t));
        r := Ok(indexes);
    }
  }

  /** The `while (path[current] != current)` walk of get_indexes. */
  method WalkPath(d: PtData, requested: PtType, t: PtType, found: set<nat>) returns (current: PtType, indexes: set<nat>)
    requires PathsDescend(d)
    ensures (current, indexes) == FollowPath(d, requested, t, found)
  {
    var path := d.findPath(requested);
    current := t;
    indexes := found;
    while path(current) != current
      invariant FollowPath(d, requested, current, indexes) == FollowPath(d, requested, t, found)
      decreases d.pathRank(requested)(current)
    {
      indexes := d.targetBySource(current, path(current), indexes);
      current := path(current);
    }
  }

  /** get_indexes: the lookup, then the walk towards the requested type; a walk that stops short
      of it yields nothing. */
  method GetIndexes(f: Filter, t: PtType, requested: PtType, d: PtData) returns (r: Result<set<nat>, QueryError>)
    requires PathsDescend(d)
    ensures r == IndexesOf(f, t, requested, d)
    ensures r.Ok? && FollowPath(d, requested, t, FilterLookup(f, t, d).value).0 != requested ==> r.value == {}
  {
    var found := LookUp(f, t, d);
    if found.Err? {
      return Err(found.error);
    }
    var current, indexes := WalkPath(d, requested, t, found.value);
    if current != requested {
      return Ok({});
    }
    return Ok(indexes);
  }

  /** A filter on the requested type itself, where find_path has nothing to walk, yields its own
      lookup. */
  lemma IndexesOfRequestedType(f: Filter, requested: PtType, d: PtData)
    requires PathsDescend(d)
    requires d.findPath(requested)(requested) == requested
    ensures IndexesOf(f, requested, requested, d) == FilterLookup(f, requested, d)
  {
  }

  // ---------------------------------------------------------------------------------------------
  // manage_odt_level

  /** Whether a line's odt properties match a level; the `all` case selects nothing. */
  predicate OdtKeeps(p: OdtProperties, level: OdtLevel) {
    match level
    case Scheduled => p.isScheduled
    case WithStops => p.isWithStops
    case Zonal => p.isZonal
    case AllLevels => false
  }

  /** What manage_odt_level returns: for a non-empty set of lines, the lines whose properties
      match the level; otherwise the input. */
  function OdtRestricted(indexes: set<nat>, requested: PtType, level: OdtLevel, d: PtData): (r: set<nat>)
  {
    if indexes != {} && requested.Line? then set i | i in indexes && OdtKeeps(d.lineOdt(i), level)
    else indexes
  }

  /** manage_odt_level: the loop that inserts each matching line into a fresh set. */
  method ManageOdtLevel(indexes: set<nat>, requested: PtType, level: OdtLevel, d: PtData) returns (r: set<nat>)
    ensures r == OdtRestricted(indexes, requested, level, d)
  {
    if indexes != {} && requested.Line? {
      r := {};
      var rest := indexes;
      while rest != {}
        invariant rest <= indexes
        invariant forall i :: i in r <==> i in indexes && i !in rest && OdtKeeps(d.lineOdt(i), level)
        decreases |rest|
      {
        var i :| i in rest;
        if OdtKeeps(d.lineOdt(i), level) {
          r := r + {i};
        }
        rest := rest - {i};
      }
      assert r == OdtRestricted(indexes, requested, level, d);
    } else {
      r := indexes;
    }
  }

  /** The odt restriction only removes, and leaves an empty set or a set of non-lines alone. */
  lemma OdtRestrictedShrinks(indexes: set<nat>, requested: PtType, level: OdtLevel, d: PtData)
    ensures OdtRestricted(indexes, requested, level, d) <= indexes
    ensures indexes == {} || !requested.Line? ==> OdtRestricted(indexes, requested, level, d) == indexes
    ensures requested.Line? ==> forall i :: i in OdtRestricted(indexes, requested, level, d) ==> OdtKeeps(d.lineOdt(i), level)
  {
  }

  /** As written, the level `all` on a non-empty set of lines yields the empty set. */
  lemma OdtAllEmptiesLines(indexes: set<nat>, d: PtData)
    requires indexes != {}
    ensures OdtRestricted(indexes, Line, AllLevels, d) == {}
  {
  }

  // ---------------------------------------------------------------------------------------------
  // filter_on_period

  const SecondsPerDay: int := 86400

  /** The date of an instant (ptime::date()). */
  function DayOf(t: int): int {
    t / SecondsPerDay
  }

  /** production_date.is_before(day): a non-empty production period whose last day is before. */
  predicate ProductionBefore(d: PtData, day: int) {
    d.productionBegin < d.productionEnd && d.productionEnd - 1 < day
  }

  /** production_date.is_after(day): a non-empty production period that begins after. */
  predicate ProductionAfter(d: PtData, day: int) {
    d.productionBegin < d.productionEnd && day < d.productionBegin
  }

  /** The period [start, stop) filter_on_period builds: since and until clamped to the production
      days, with one second added at the end so that `until` itself is inside; or its error. */
  function FilteringPeriod(since: Option<int>, until: Option<int>, d: PtData): (r: Result<(int, int), QueryError>)
    ensures since.Some? && until.Some? && until.value < since.value ==> r == Err(InvalidPeriod)
    ensures r.Ok? ==> d.productionBegin * SecondsPerDay <= r.value.0 && r.value.1 <= d.productionEnd * SecondsPerDay + 1
    ensures r.Ok? && since.Some? && d.productionBegin <= DayOf(since.value) ==> r.value.0 == since.value
    ensures r.Ok? && until.Some? && DayOf(until.value) < d.productionEnd ==> r.value.1 == until.value + 1
    ensures r.Ok? && since.None? ==> r.value.0 == d.productionBegin * SecondsPerDay
    ensures r.Ok? && until.None? ==> r.value.1 == d.productionEnd * SecondsPerDay + 1
    ensures r.Err? ==> r.error == InvalidPeriod || r.error == OutsideProduction
  {
    if since.Some? && until.Some? && until.value < since.value then Err(InvalidPeriod)
    else if since.Some? && ProductionBefore(d, DayOf(since.value)) then
      Err(OutsideProduction)
    else if until.Some? && ProductionAfter(d, DayOf(until.value)) then
      Err(OutsideProduction)
    else
      var start := if since.Some? && DayOf(since.value) >= d.productionBegin then since.value
                   else d.productionBegin * SecondsPerDay;
      var end := if until.Some? && DayOf(until.value) <= d.productionEnd - 1 then until.value
                 else d.productionEnd * SecondsPerDay;
      Ok((start, end + 1))
  }

  /** keep_vj: a vehicle journey with stop times whose first departure, on some day of the
      period on which it runs, falls inside the period [start, stop). */
  predicate RunsWithin(d: PtData, vj: nat, start: int, stop: int) {
    match d.firstDeparture(vj)
    case None => false
    case Some(departure) =>
      exists day :: DayOf(start) <= day <= DayOf(stop - 1) && d.validOn(vj, day)
                    && start <= day * SecondsPerDay + departure < stop
  }

  /** keep_vj: the loop over the days of the period. */
  method KeepVehicleJourney(d: PtData, vj: nat, start: int, stop: int) returns (keep: bool)
    ensures keep == RunsWithin(d, vj, start, stop)
  {
    if d.firstDeparture(vj).None? {
      return false;
    }
    var departure := d.firstDeparture(vj).value;
    var day := DayOf(start);
    var last := DayOf(stop - 1);
    while day <= last
      invariant DayOf(start) <= day
      invariant forall e :: DayOf(start) <= e < day ==>
        !(d.validOn(vj, e) && start <= e * SecondsPerDay + departure < stop)
      decreases last + 1 - day
    {
      if d.validOn(vj, day) {
        var when := day * SecondsPerDay + departure;
        if start <= when < stop {
          return true;
        }
      }
      day := day + 1;
    }
    return false;
  }

  /** time_period::intersection(...).is_null() is false: [a, b) and [start, stop) overlap. */
  predicate Overlaps(p: (int, int), start: int, stop: int) {
    (if p.0 < start then start else p.0) < (if p.1 < stop then p.1 else stop)
  }

  /** filter_impact_on_period: an impact that has not expired with an application period
      overlapping the period. */
  predicate ActiveWithin(d: PtData, impact: nat, start: int, stop: int) {
    match d.applicationPeriods(impact)
    case None => false
    case Some(periods) => exists k :: 0 <= k < |periods| && Overlaps(periods[k], start, stop)
  }

  /** The inner loop of filter_impact_on_period, which breaks at the first overlapping period. */
  method KeepImpact(d: PtData, impact: nat, start: int, stop: int) returns (keep: bool)
    ensures keep == ActiveWithin(d, impact, start, stop)
  {
    var periods := d.applicationPeriods(impact);
    if periods.None? {
      return false;
    }
    keep := false;
    for k := 0 to |periods.value|
      invariant !keep
      invariant forall j :: 0 <= j < k ==> !Overlaps(periods.value[j], start, stop)
    {
      if Overlaps(periods.value[k], start, stop) {
        return true;
      }
    }
  }

  /** What filter_on_period returns: vehicle journeys or impacts active in the period; any other
      requested type is a global parsing error. */
  function PeriodFiltered(indexes: set<nat>, requested: PtType, since: Option<int>, until: Option<int>, d: PtData): (r: Result<set<nat>, QueryError>)
  {
    match FilteringPeriod(since, until, d)
    case Err(e) => Err(e)
    case Ok(period) =>
      if requested.VehicleJourney? then Ok(set i | i in indexes && RunsWithin(d, i, period.0, period.1))
      else if requested.Impact? then Ok(set i | i in indexes && ActiveWithin(d, i, period.0, period.1))
      else Err(NoPeriodForType)
  }

  /** filter_vj_on_period: the vehicle journeys kept by keep_vj, inserted one at a time. */
  method FilterVehicleJourneysOnPeriod(indexes: set<nat>, start: int, stop: int, d: PtData) returns (kept: set<nat>)
    ensures kept == set i | i in indexes && RunsWithin(d, i, start, stop)
  {
    kept := {};
    var rest := indexes;
    while rest != {}
      invariant rest <= indexes
      invariant forall i :: i in kept <==> i in indexes && i !in rest && RunsWithin(d, i, start, stop)
      decreases |rest|
    {
      var i :| i in rest;
      var keep := KeepVehicleJourney(d, i, start, stop);
      if keep {
        kept := kept + {i};
      }
      rest := rest - {i};
    }
  }

  /** filter_impact_on_period: the impacts active in the period, inserted one at a time. */
  method FilterImpactsOnPeriod(indexes: set<nat>, start: int, stop: int, d: PtData) returns (kept: set<nat>)
    ensures kept == set i | i in indexes && ActiveWithin(d, i, start, stop)
  {
    kept := {};
    var rest := indexes;
    while rest != {}
      invariant rest <= indexes
      invariant forall i :: i in kept <==> i in indexes && i !in rest && ActiveWithin(d, i, start, stop)
      decreases |rest|
    {
      var i :| i in rest;
      var keep := KeepImpact(d, i, start, stop);
      if keep {
        kept := kept + {i};
      }
      rest := rest - {i};
    }
  }

  /** filter_on_period: build the period, then filter by the requested type. */
  method FilterOnPeriod(indexes: set<nat>, requested: PtType, since: Option<int>, until: Option<int>, d: PtData)
    returns (r: Result<set<nat>, QueryError>)
    ensures r == PeriodFiltered(indexes, requested, since, until, d)
  {
    var period := FilteringPeriod(since, until, d);
    if period.Err? {
      return Err(period.error);
    }
    var (start, stop) := period.value;
    if requested.VehicleJourney? {
      var kept := FilterVehicleJourneysOnPeriod(indexes, start, stop, d);
      return Ok(kept);
    } else if requested.Impact? {
      var kept := FilterImpactsOnPeriod(indexes, start, stop, d);
      return Ok(kept);
    }
    return Err(NoPeriodForType);
  }

  /** The period filter only removes indexes, and it refuses every type but vehicle journeys and
      impacts. */
  lemma PeriodFilteredShrinks(indexes: set<nat>, requested: PtType, since: Option<int>, until: Option<int>, d: PtData)
    ensures PeriodFiltered(indexes, requested, since, until, d).Ok? ==>
              PeriodFiltered(indexes, requested, since, until, d).value <= indexes
    ensures !requested.VehicleJourney? && !requested.Impact? ==> PeriodFiltered(indexes, requested, since, until, d).Err?
  {
  }

  /** A vehicle journey whose first departure (before midnight), on a day it runs, lies between
      since and until (both inside the production days) is kept. */
  lemma DepartureBetweenKeeps(d: PtData, vj: nat, since: int, until: int, day: int)
    requires since <= until
    requires d.productionBegin <= DayOf(since) && DayOf(until) < d.productionEnd
    requires d.firstDeparture(vj).Some? && d.firstDeparture(vj).value < SecondsPerDay && d.validOn(vj, day)
    requires since <= day * SecondsPerDay + d.firstDeparture(vj).value <= until
    ensures FilteringPeriod(Some(since), Some(until), d) == Ok((since, until + 1))
    ensures RunsWithin(d, vj, since, until + 1)
  {
    var t := day * SecondsPerDay + d.firstDeparture(vj).value;
    assert DayOf(since) <= day by {
      assert day * SecondsPerDay <= t;
      DayBounds(since, day);
    }
    assert day <= DayOf(until) by {
      DayBounds(until, day);
    }
  }

  /** Day numbers are monotonic: an instant before midnight of `day` has an earlier date, and an
      instant at or after it a later one. */
  lemma DayBounds(t: int, day: int)
    ensures t < day * SecondsPerDay ==> DayOf(t) < day
    ensures day * SecondsPerDay <= t ==> day <= DayOf(t)
  {
  }

  // ---------------------------------------------------------------------------------------------
  // make_query

  /** The types the filter loop of make_query dispatches to get_indexes. */
  predicate FilterDispatched(t: PtType, d: PtData) {
    d.isPtType(t) || t.JourneyPattern? || t.JourneyPatternPoint? || t.POI? || t.POIType? || t.Connection?
    || t.MetaVehicleJourney? || t.Impact?
  }

  /** The types the forbidden-uri loop dispatches (no meta vehicle journeys, no impacts). */
  predicate ForbiddenDispatched(t: PtType, d: PtData) {
    d.isPtType(t) || t.JourneyPattern? || t.JourneyPatternPoint? || t.POI? || t.POIType? || t.Connection?
  }

  /** The default case of both switches: a partial parsing error naming the type by its caption
      (whose lookup can itself throw). */
  function Unhandled(t: PtType, d: PtData): (e: QueryError)
  {
    if t in d.captionByType then TypeNotHandled(d.captionByType[t]) else CaptionOutOfRange
  }

  /** The object a filter names; an AFTER clause names journey pattern points. */
  function ObjectOf(f: Filter): string {
    match f
    case Compare(objectName, _, _, _) => objectName
    case Having(objectName, _) => objectName
    case After(_) => "journey_pattern_point"
    case Method(objectName, _, _) => objectName
  }

  /** The filters of a request: none for an empty request, otherwise those of parse, whose
      error keeps its kind and message. */
  function RequestFilters(request: string): (r: Result<seq<Filter>, QueryError>)
    ensures request == "" ==> r == Ok([])
    ensures request != "" && r.Ok? ==> |r.value| >= 1 && Parse(request) == Ok(r.value)
    ensures r.Err? ==> request != "" && r.error.NotParsed? && Parse(request) == Err(r.error.parseError)
  {
    if request == "" then Ok([])
    else match Parse(request)
      case Ok(fs) => Ok(fs)
      case Err(e) => Err(NotParsed(e))
  }

  /** The typeByCaption loop: the type of each filter's object, or an unknown_object error for
      the first object without one. */
  function FilterTypes(fs: seq<Filter>, d: PtData): (r: Result<seq<PtType>, QueryError>)
    ensures r.Ok? ==> |r.value| == |fs| && forall k :: 0 <= k < |fs| ==>
              ObjectOf(fs[k]) in d.typeByCaption && r.value[k] == d.typeByCaption[ObjectOf(fs[k])]
    ensures r.Err? ==> exists k :: (0 <= k < |fs| && ObjectOf(fs[k]) !in d.typeByCaption
              && r.error == UnknownObjectType(ObjectOf(fs[k]))
              && forall j :: 0 <= j < k ==> ObjectOf(fs[j]) in d.typeByCaption)
    decreases |fs|
  {
    if |fs| == 0 then Ok([])
    else
      var n := |fs| - 1;
      assert forall k :: 0 <= k < n ==> fs[..n][k] == fs[k];
      match FilterTypes(fs[..n], d)
      case Err(e) => Err(e)
      case Ok(ts) =>
        var o := ObjectOf(fs[n]);
        if o in d.typeByCaption then Ok(ts + [d.typeByCaption[o]])
        else Err(UnknownObjectType(o))
  }

  /** The indexes of the requested type one filter of type `t` designates, or the error of its
      dispatch or of get_indexes. */
  function FilterIndexes(f: Filter, t: PtType, requested: PtType, d: PtData): (r: Result<set<nat>, QueryError>)
    requires PathsDescend(d)
  {
    if FilterDispatched(t, d) then IndexesOf(f, t, requested, d) else Err(Unhandled(t, d))
  }

  /** The filter loop of make_query: the first filter's indexes, intersected with each next
      one's, stopping at the first error. */
  function Combined(fs: seq<Filter>, ts: seq<PtType>, requested: PtType, d: PtData): (r: Result<set<nat>, QueryError>)
    requires 1 <= |fs| == |ts| && PathsDescend(d)
    decreases |fs|
  {
    var n := |fs| - 1;
    if n == 0 then FilterIndexes(fs[0], ts[0], requested, d)
    else match Combined(fs[..n], ts[..n], requested, d)
      case Err(e) => Err(e)
      case Ok(acc) =>
        match FilterIndexes(fs[n], ts[n], requested, d)
        case Err(e) => Err(e)
        case Ok(x) => Ok(GetIntersection(acc, x))
  }

  /** When every filter finds its indexes, the loop yields exactly the indexes they all share. */
  lemma {:induction false} CombinedIsIntersection(fs: seq<Filter>, ts: seq<PtType>, requested: PtType, d: PtData)
    requires 1 <= |fs| == |ts| && PathsDescend(d)
    requires forall k :: 0 <= k < |fs| ==> FilterIndexes(fs[k], ts[k], requested, d).Ok?
    ensures Combined(fs, ts, requested, d).Ok?
    ensures forall x :: x in Combined(fs, ts, requested, d).value <==>
              forall k :: 0 <= k < |fs| ==> x in FilterIndexes(fs[k], ts[k], requested, d).value
    decreases |fs|
  {
    var n := |fs| - 1;
    if n > 0 {
      assert forall k :: 0 <= k < n ==> fs[..n][k] == fs[k] && ts[..n][k] == ts[k];
      CombinedIsIntersection(fs[..n], ts[..n], requested, d);
    }
  }

  /** The loop stops at the first filter whose lookup fails, with its error. */
  lemma {:induction false} CombinedFirstError(fs: seq<Filter>, ts: seq<PtType>, requested: PtType, d: PtData, k: nat)
    requires 1 <= |fs| == |ts| && PathsDescend(d)
    requires k < |fs| && FilterIndexes(fs[k], ts[k], requested, d).Err?
    requires forall j :: 0 <= j < k ==> FilterIndexes(fs[j], ts[j], requested, d).Ok?
    ensures Combined(fs, ts, requested, d) == Err(FilterIndexes(fs[k], ts[k], requested, d).error)
    decreases |fs|
  {
    var n := |fs| - 1;
    if n > 0 {
      assert forall j :: 0 <= j < n ==> fs[..n][j] == fs[j] && ts[..n][j] == ts[j];
      if k < n {
        CombinedFirstError(fs[..n], ts[..n], requested, d, k);
      } else {
        CombinedIsIntersection(fs[..n], ts[..n], requested, d);
      }
    }
  }

  /** Once the filter at `k` fails after a prefix that succeeded, the loop fails with its error. */
  lemma {:induction false} CombinedStopsAt(fs: seq<Filter>, ts: seq<PtType>, requested: PtType, d: PtData, k: nat)
    requires k < |fs| == |ts| && PathsDescend(d)
    requires k > 0 ==> Combined(fs[..k], ts[..k], requested, d).Ok?
    requires FilterIndexes(fs[k], ts[k], requested, d).Err?
    ensures Combined(fs, ts, requested, d) == Err(FilterIndexes(fs[k], ts[k], requested, d).error)
    decreases |fs|
  {
    var n := |fs| - 1;
    if k < n {
      assert fs[..n][..k] == fs[..k] && ts[..n][..k] == ts[..k];
      assert fs[..n][k] == fs[k] && ts[..n][k] == ts[k];
      CombinedStopsAt(fs[..n], ts[..n], requested, d, k);
    }
  }

  /** The indexes of the requested type a forbidden uri removes: none for an object of unknown
      type, otherwise those of the filter `<caption>.uri = <uri>` on its type. */
  function ForbiddenIndexes(uri: string, requested: PtType, d: PtData): (r: Result<Option<set<nat>>, QueryError>)
    requires PathsDescend(d)
    ensures d.typeOfId(uri).Unknown? ==> r == Ok(None)
    ensures r.Ok? && r.value.Some? ==> !d.typeOfId(uri).Unknown?
  {
    var t := d.typeOfId(uri);
    if t.Unknown? then Ok(None)
    else if t !in d.captionByType then Err(UnknownObjectType(uri))
    else if !ForbiddenDispatched(t, d) then Err(Unhandled(t, d))
    else match IndexesOf(Compare(d.captionByType[t], "uri", EQ, uri), t, requested, d)
      case Err(e) => Err(e)
      case Ok(x) => Ok(Some(x))
  }

  /** The uri filter built for a forbidden object is looked up by id, so it never fails: only the
      caption lookup and the dispatch can. */
  lemma ForbiddenLookupSucceeds(uri: string, requested: PtType, d: PtData)
    requires PathsDescend(d)
    requires !d.typeOfId(uri).Unknown? && d.typeOfId(uri) in d.captionByType && ForbiddenDispatched(d.typeOfId(uri), d)
    ensures ForbiddenIndexes(uri, requested, d).Ok? && ForbiddenIndexes(uri, requested, d).value.Some?
  {
    var t := d.typeOfId(uri);
    assert LookupOf(Compare(d.captionByType[t], "uri", EQ, uri)) == IdLookup;
  }

  /** The forbidden-uri loop of make_query: each forbidden object's indexes removed in turn,
      stopping at the first error. */
  function WithoutForbidden(base: set<nat>, uris: seq<string>, requested: PtType, d: PtData): (r: Result<set<nat>, QueryError>)
    requires PathsDescend(d)
    decreases |uris|
  {
    if |uris| == 0 then Ok(base)
    else
      var n := |uris| - 1;
      match WithoutForbidden(base, uris[..n], requested, d)
      case Err(e) => Err(e)
      case Ok(acc) => Forbid(acc, uris[n], requested, d)
  }

  /** One pass of the forbidden-uri loop: subtract what the uri removes, or fail with its error. */
  function Forbid(acc: set<nat>, uri: string, requested: PtType, d: PtData): (r: Result<set<nat>, QueryError>)
    requires PathsDescend(d)
    ensures ForbiddenIndexes(uri, requested, d).Ok? ==> r == Ok(acc - Removed(uri, requested, d))
    ensures ForbiddenIndexes(uri, requested, d).Err? ==> r == Err(ForbiddenIndexes(uri, requested, d).error)
  {
    match ForbiddenIndexes(uri, requested, d)
    case Err(e) => Err(e)
    case Ok(None) => assert acc - {} == acc; Ok(acc)
    case Ok(Some(x)) => Ok(GetDifference(acc, x))
  }

  /** The indexes one forbidden uri removes (none when it is skipped or fails). */
  function Removed(uri: string, requested: PtType, d: PtData): set<nat>
    requires PathsDescend(d)
  {
    match ForbiddenIndexes(uri, requested, d)
    case Ok(Some(x)) => x
    case _ => {}
  }

  /** The indexes a list of forbidden uris removes. */
  function RemovedBy(uris: seq<string>, requested: PtType, d: PtData): (r: set<nat>)
    requires PathsDescend(d)
    decreases |uris|
  {
    if |uris| == 0 then {} else RemovedBy(uris[..|uris| - 1], requested, d) + Removed(uris[|uris| - 1], requested, d)
  }

  /** RemovedBy is the union of what each uri removes. */
  lemma {:induction false} RemovedByEach(uris: seq<string>, requested: PtType, d: PtData)
    requires PathsDescend(d)
    ensures forall k :: 0 <= k < |uris| ==> Removed(uris[k], requested, d) <= RemovedBy(uris, requested, d)
    decreases |uris|
  {
    if |uris| > 0 {
      var n := |uris| - 1;
      assert forall k :: 0 <= k < n ==> uris[..n][k] == uris[k];
      RemovedByEach(uris[..n], requested, d);
    }
  }

  /** When no forbidden uri fails, the loop keeps exactly the indexes none of them removes. */
  lemma {:induction false} WithoutForbiddenIsDifference(base: set<nat>, uris: seq<string>, requested: PtType, d: PtData)
    requires PathsDescend(d)
    requires forall k :: 0 <= k < |uris| ==> ForbiddenIndexes(uris[k], requested, d).Ok?
    ensures WithoutForbidden(base, uris, requested, d) == Ok(base - RemovedBy(uris, requested, d))
    decreases |uris|
  {
    if |uris| > 0 {
      var n := |uris| - 1;
      assert forall k :: 0 <= k < n ==> uris[..n][k] == uris[k];
      WithoutForbiddenIsDifference(base, uris[..n], requested, d);
      var before := RemovedBy(uris[..n], requested, d);
      assert ForbiddenIndexes(uris[n], requested, d).Ok?;
      assert WithoutForbidden(base, uris, requested, d) == Forbid(base - before, uris[n], requested, d);
      assert RemovedBy(uris, requested, d) == before + Removed(uris[n], requested, d);
      assert (base - before) - Removed(uris[n], requested, d) == base - (before + Removed(uris[n], requested, d));
    } else {
      assert base - {} == base;
    }
  }

  /** The loop stops at the first forbidden uri that fails, with its error. */
  lemma {:induction false} WithoutForbiddenFirstError(base: set<nat>, uris: seq<string>, requested: PtType, d: PtData, k: nat)
    requires PathsDescend(d)
    requires k < |uris| && ForbiddenIndexes(uris[k], requested, d).Err?
    requires forall j :: 0 <= j < k ==> ForbiddenIndexes(uris[j], requested, d).Ok?
    ensures WithoutForbidden(base, uris, requested, d) == Err(ForbiddenIndexes(uris[k], requested, d).error)
    decreases |uris|
  {
    var n := |uris| - 1;
    assert forall j :: 0 <= j < n ==> uris[..n][j] == uris[j];
    if k < n {
      WithoutForbiddenFirstError(base, uris[..n], requested, d, k);
    } else {
      WithoutForbiddenIsDifference(base, uris[..n], requested, d);
    }
  }

  /** Forbidden uris of unknown type are skipped. */
  lemma {:induction false} UnknownForbiddenSkipped(base: set<nat>, uris: seq<string>, requested: PtType, d: PtData)
    requires PathsDescend(d)
    requires forall k :: 0 <= k < |uris| ==> d.typeOfId(uris[k]).Unknown?
    ensures WithoutForbidden(base, uris, requested, d) == Ok(base)
    decreases |uris|
  {
    if |uris| > 0 {
      var n := |uris| - 1;
      assert forall k :: 0 <= k < n ==> uris[..n][k] == uris[k];
      UnknownForbiddenSkipped(base, uris[..n], requested, d);
    }
  }

  /** The odt level (unless `all`) and validity period (when since or until is given) steps, and
      the error for an empty result. */
  function Restricted(allowed: set<nat>, requested: PtType, level: OdtLevel,
                      since: Option<int>, until: Option<int>, d: PtData): (r: Result<set<nat>, QueryError>)
    ensures r.Ok? ==> r.value != {} && r.value <= allowed
  {
    var odt := if level.AllLevels? then allowed else OdtRestricted(allowed, requested, level, d);
    OdtRestrictedShrinks(allowed, requested, level, d);
    PeriodFilteredShrinks(odt, requested, since, until, d);
    match (if since.Some? || until.Some? then PeriodFiltered(odt, requested, since, until, d) else Ok(odt))
    case Err(e) => Err(e)
    case Ok(final) => if final == {} then Err(NothingFound) else Ok(final)
  }

  /** Everything make_query does after the filter loop: forbidden uris, then Restricted. */
  function Narrowed(filtered: set<nat>, requested: PtType, forbidden: seq<string>, level: OdtLevel,
                    since: Option<int>, until: Option<int>, d: PtData): (r: Result<set<nat>, QueryError>)
    requires PathsDescend(d)
    ensures r.Ok? ==> r.value != {}
  {
    match WithoutForbidden(filtered, forbidden, requested, d)
    case Err(e) => Err(e)
    case Ok(allowed) => Restricted(allowed, requested, level, since, until, d)
  }

  /** The indexes before forbidden uris: all the objects without filters, else the filter loop. */
  function Candidates(fs: seq<Filter>, ts: seq<PtType>, requested: PtType, d: PtData): (r: Result<set<nat>, QueryError>)
    requires |fs| == |ts| && PathsDescend(d)
  {
    if |fs| == 0 then Ok(d.allIndexes(requested)) else Combined(fs, ts, requested, d)
  }

  /** make_query once the filters are typed: the check that the requested type has objects,
      then the candidates, narrowed. */
  function TypedQuery(fs: seq<Filter>, ts: seq<PtType>, requested: PtType, forbidden: seq<string>, level: OdtLevel,
                      since: Option<int>, until: Option<int>, d: PtData): (r: Result<set<nat>, QueryError>)
    requires |fs| == |ts| && PathsDescend(d)
    ensures r.Ok? ==> r.value != {}
  {
    if d.objectCount(requested) == 0 then Err(NoRequestedObject)
    else match Candidates(fs, ts, requested, d)
      case Err(e) => Err(e)
      case Ok(filtered) => Narrowed(filtered, requested, forbidden, level, since, until, d)
  }

  /** make_query once the request is parsed: type the filters, then TypedQuery. */
  function FilteredQuery(fs: seq<Filter>, requested: PtType, forbidden: seq<string>, level: OdtLevel,
                         since: Option<int>, until: Option<int>, d: PtData): (r: Result<set<nat>, QueryError>)
    requires PathsDescend(d)
    ensures r.Ok? ==> r.value != {}
  {
    match FilterTypes(fs, d)
    case Err(e) => Err(e)
    case Ok(ts) => TypedQuery(fs, ts, requested, forbidden, level, since, until, d)
  }

  /** make_query, up to the final sort: the result, or the exception it throws. */
  function Query(requested: PtType, request: string, forbidden: seq<string>, level: OdtLevel,
                 since: Option<int>, until: Option<int>, d: PtData): (r: Result<set<nat>, QueryError>)
    requires PathsDescend(d)
    ensures r.Ok? ==> r.value != {}
  {
    match RequestFilters(request)
    case Err(e) => Err(e)
    case Ok(fs) => FilteredQuery(fs, requested, forbidden, level, since, until, d)
  }

  /** The narrowing steps only ever remove indexes, and the result avoids every forbidden
      object. */
  lemma NarrowedShrinks(filtered: set<nat>, requested: PtType, forbidden: seq<string>, level: OdtLevel,
                        since: Option<int>, until: Option<int>, d: PtData)
    requires PathsDescend(d)
    requires Narrowed(filtered, requested, forbidden, level, since, until, d).Ok?
    ensures Narrowed(filtered, requested, forbidden, level, since, until, d).value <= filtered
    ensures Narrowed(filtered, requested, forbidden, level, since, until, d).value !! RemovedBy(forbidden, requested, d)
  {
    forall k | 0 <= k < |forbidden| ensures ForbiddenIndexes(forbidden[k], requested, d).Ok? {
      if ForbiddenIndexes(forbidden[k], requested, d).Err? {
        var j := FirstFailure(forbidden, requested, d, k);
        WithoutForbiddenFirstError(filtered, forbidden, requested, d, j);
      }
    }
    WithoutForbiddenIsDifference(filtered, forbidden, requested, d);
  }

  /** The first forbidden uri, at or before `k`, whose lookup fails. */
  lemma {:induction false} FirstFailure(uris: seq<string>, requested: PtType, d: PtData, k: nat) returns (j: nat)
    requires PathsDescend(d)
    requires k < |uris| && ForbiddenIndexes(uris[k], requested, d).Err?
    ensures j <= k && ForbiddenIndexes(uris[j], requested, d).Err?
    ensures forall i :: 0 <= i < j ==> ForbiddenIndexes(uris[i], requested, d).Ok?
    decreases k
  {
    if exists i :: 0 <= i < k && ForbiddenIndexes(uris[i], requested, d).Err? {
      var i :| 0 <= i < k && ForbiddenIndexes(uris[i], requested, d).Err?;
      j := FirstFailure(uris, requested, d, i);
    } else {
      j := k;
    }
  }

  /** A result of make_query lies in the indexes of every filter of the request, and in none
      the forbidden uris designate. */
  lemma QueryMeetsEveryFilter(requested: PtType, request: string, forbidden: seq<string>, level: OdtLevel,
                              since: Option<int>, until: Option<int>, d: PtData)
    requires PathsDescend(d)
    requires Query(requested, request, forbidden, level, since, until, d).Ok?
    ensures RequestFilters(request).Ok? && FilterTypes(RequestFilters(request).value, d).Ok?
    ensures var fs := RequestFilters(request).value;
            var ts := FilterTypes(fs, d).value;
            forall k :: 0 <= k < |fs| ==> (FilterIndexes(fs[k], ts[k], requested, d).Ok? &&
              Query(requested, request, forbidden, level, since, until, d).value <= FilterIndexes(fs[k], ts[k], requested, d).value)
    ensures forall k :: 0 <= k < |forbidden| ==>
              Query(requested, request, forbidden, level, since, until, d).value !! Removed(forbidden[k], requested, d)
  {
    RemovedByEach(forbidden, requested, d);
    var fs := RequestFilters(request).value;
    var ts := FilterTypes(fs, d).value;
    if |fs| == 0 {
      NarrowedShrinks(d.allIndexes(requested), requested, forbidden, level, since, until, d);
    } else {
      var c := Combined(fs, ts, requested, d);
      assert c.Ok?;
      forall k | 0 <= k < |fs| ensures FilterIndexes(fs[k], ts[k], requested, d).Ok? {
        if FilterIndexes(fs[k], ts[k], requested, d).Err? {
          var j := FirstFilterFailure(fs, ts, requested, d, k);
          CombinedFirstError(fs, ts, requested, d, j);
        }
      }
      CombinedIsIntersection(fs, ts, requested, d);
      NarrowedShrinks(c.value, requested, forbidden, level, since, until, d);
    }
  }

  /** The first filter, at or before `k`, whose lookup fails. */
  lemma {:induction false} FirstFilterFailure(fs: seq<Filter>, ts: seq<PtType>, requested: PtType, d: PtData, k: nat) returns (j: nat)
    requires PathsDescend(d) && |fs| == |ts|
    requires k < |fs| && FilterIndexes(fs[k], ts[k], requested, d).Err?
    ensures j <= k && FilterIndexes(fs[j], ts[j], requested, d).Err?
    ensures forall i :: 0 <= i < j ==> FilterIndexes(fs[i], ts[i], requested, d).Ok?
    decreases k
  {
    if exists i :: 0 <= i < k && FilterIndexes(fs[i], ts[i], requested, d).Err? {
      var i :| 0 <= i < k && FilterIndexes(fs[i], ts[i], requested, d).Err?;
      j := FirstFilterFailure(fs, ts, requested, d, i);
    } else {
      j := k;
    }
  }

  /** A requested type without objects is an error once the request has parsed and typed. */
  lemma QueryWithoutObjects(requested: PtType, request: string, forbidden: seq<string>, level: OdtLevel,
                            since: Option<int>, until: Option<int>, d: PtData)
    requires PathsDescend(d)
    requires RequestFilters(request).Ok? && FilterTypes(RequestFilters(request).value, d).Ok?
    requires d.objectCount(requested) == 0
    ensures Query(requested, request, forbidden, level, since, until, d) == Err(NoRequestedObject)
  {
  }

  /** With no filter, no forbidden uri, level `all` and no period, make_query yields all the
      objects of the requested type, or "Unable to find object" when there are none. */
  lemma QueryEverything(requested: PtType, d: PtData)
    requires PathsDescend(d)
    requires d.objectCount(requested) > 0
    ensures Query(requested, "", [], AllLevels, None, None, d) ==
              if d.allIndexes(requested) == {} then Err(NothingFound)
              else Ok(d.allIndexes(requested))
  {
  }

  /** Forbidden uris of unknown type change nothing. */
  lemma QueryIgnoresUnknownForbidden(requested: PtType, request: string, forbidden: seq<string>, level: OdtLevel,
                                     since: Option<int>, until: Option<int>, d: PtData)
    requires PathsDescend(d)
    requires forall k :: 0 <= k < |forbidden| ==> d.typeOfId(forbidden[k]).Unknown?
    ensures Query(requested, request, forbidden, level, since, until, d) == Query(requested, request, [], level, since, until, d)
  {
    forall base: set<nat> ensures WithoutForbidden(base, forbidden, requested, d) == Ok(base) {
      UnknownForbiddenSkipped(base, forbidden, requested, d);
    }
  }

  /** The typeByCaption loop of make_query. */
  method ResolveTypes(fs: seq<Filter>, d: PtData) returns (r: Result<seq<PtType>, QueryError>)
    ensures r == FilterTypes(fs, d)
  {
    var ts: seq<PtType> := [];
    for i := 0 to |fs|
      invariant |ts| == i
      invariant forall k :: 0 <= k < i ==> ObjectOf(fs[k]) in d.typeByCaption && ts[k] == d.typeByCaption[ObjectOf(fs[k])]
    {
      var o := ObjectOf(fs[i]);
      if o !in d.typeByCaption {
        return Err(UnknownObjectType(o));
      }
      ts := ts + [d.typeByCaption[o]];
    }
    assert !exists k :: 0 <= k < |fs| && ObjectOf(fs[k]) !in d.typeByCaption;
    assert FilterTypes(fs, d).value == ts;
    return Ok(ts);
  }

  /** The filter loop of make_query: dispatch on each filter's type, get_indexes, then assign the
      first result and intersect the others. */
  method IntersectFilters(fs: seq<Filter>, ts: seq<PtType>, requested: PtType, d: PtData) returns (r: Result<set<nat>, QueryError>)
    requires 1 <= |fs| == |ts| && PathsDescend(d)
    ensures r == Combined(fs, ts, requested, d)
  {
    var finalIndexes: set<nat> := {};
    var firstTime := true;
    for i := 0 to |fs|
      invariant firstTime <==> i == 0
      invariant i > 0 ==> Combined(fs[..i], ts[..i], requested, d) == Ok(finalIndexes)
    {
      var indexes := DispatchFilter(fs[i], ts[i], requested, d);
      if indexes.Err? {
        CombinedStopsAt(fs, ts, requested, d, i);
        return Err(indexes.error);
      }
      CombinedStep(fs, ts, requested, d, i, finalIndexes, indexes.value);
      if firstTime {
        finalIndexes := indexes.value;
      } else {
        finalIndexes := GetIntersection(finalIndexes, indexes.value);
      }
      firstTime := false;
    }
    assert fs[..|fs|] == fs && ts[..|ts|] == ts;
    return Ok(finalIndexes);
  }

  /** The switch on a filter's type in the filter loop of make_query. */
  method DispatchFilter(f: Filter, t: PtType, requested: PtType, d: PtData) returns (r: Result<set<nat>, QueryError>)
    requires PathsDescend(d)
    ensures r == FilterIndexes(f, t, requested, d)
  {
    if FilterDispatched(t, d) {
      r := GetIndexes(f, t, requested, d);
    } else {
      r := Err(Unhandled(t, d));
    }
  }

  /** One more step of the filter loop: the first filter's indexes are assigned, the others
      intersected. */
  lemma CombinedStep(fs: seq<Filter>, ts: seq<PtType>, requested: PtType, d: PtData, i: nat, acc: set<nat>, x: set<nat>)
    requires i < |fs| == |ts| && PathsDescend(d)
    requires i > 0 ==> Combined(fs[..i], ts[..i], requested, d) == Ok(acc)
    requires FilterIndexes(fs[i], ts[i], requested, d) == Ok(x)
    ensures Combined(fs[..i + 1], ts[..i + 1], requested, d) == Ok(if i == 0 then x else acc * x)
  {
    assert fs[..i + 1][..i] == fs[..i] && ts[..i + 1][..i] == ts[..i];
    assert fs[..i + 1][i] == fs[i] && ts[..i + 1][i] == ts[i];
  }

  /** The forbidden-uri loop of make_query. */
  method SubtractForbidden(base: set<nat>, uris: seq<string>, requested: PtType, d: PtData) returns (r: Result<set<nat>, QueryError>)
    requires PathsDescend(d)
    ensures r == WithoutForbidden(base, uris, requested, d)
  {
    var finalIndexes := base;
    for i := 0 to |uris|
      invariant forall k :: 0 <= k < i ==> ForbiddenIndexes(uris[k], requested, d).Ok?
      invariant WithoutForbidden(base, uris[..i], requested, d) == Ok(finalIndexes)
    {
      var step := ForbidOne(uris[i], requested, d);
      if step.Err? {
        WithoutForbiddenFirstError(base, uris, requested, d, i);
        return Err(step.error);
      }
      assert uris[..i + 1][..i] == uris[..i];
      if step.value.Some? {
        finalIndexes := GetDifference(finalIndexes, step.value.value);
      }
    }
    assert uris[..|uris|] == uris;
    return Ok(finalIndexes);
  }

  /** One forbidden uri: its type, caption, dispatch and get_indexes on the uri filter. */
  method ForbidOne(uri: string, requested: PtType, d: PtData) returns (r: Result<Option<set<nat>>, QueryError>)
    requires PathsDescend(d)
    ensures r == ForbiddenIndexes(uri, requested, d)
  {
    var t := d.typeOfId(uri);
    if t.Unknown? {
      return Ok(None);
    }
    if t !in d.captionByType {
      return Err(UnknownObjectType(uri));
    }
    var filter := Compare(d.captionByType[t], "uri", EQ, uri);
    if !ForbiddenDispatched(t, d) {
      return Err(Unhandled(t, d));
    }
    var indexes := GetIndexes(filter, t, requested, d);
    if indexes.Err? {
      return Err(indexes.error);
    }
    return Ok(Some(indexes.value));
  }

  /** make_query: parse the request (an empty one has no filters), then QueryFilters. */
  method MakeQuery(requested: PtType, request: string, forbidden: seq<string>, level: OdtLevel,
                   since: Option<int>, until: Option<int>, d: PtData) returns (r: Result<set<nat>, QueryError>)
    requires PathsDescend(d)
    ensures r == Query(requested, request, forbidden, level, since, until, d)
  {
    var filters := RequestFilters(request);
    if filters.Err? {
      return Err(filters.error);
    }
    r := QueryFilters(filters.value, requested, forbidden, level, since, until, d);
  }

  /** make_query after parse: the typeByCaption loop, then QueryTypedFilters. */
  method QueryFilters(fs: seq<Filter>, requested: PtType, forbidden: seq<string>, level: OdtLevel,
                      since: Option<int>, until: Option<int>, d: PtData) returns (r: Result<set<nat>, QueryError>)
    requires PathsDescend(d)
    ensures r == FilteredQuery(fs, requested, forbidden, level, since, until, d)
  {
    var types := ResolveTypes(fs, d);
    if types.Err? {
      return Err(types.error);
    }
    r := QueryTypedFilters(fs, types.value, requested, forbidden, level, since, until, d);
  }

  /** make_query after typing: the object-count check, all indexes or the filter loop, then
      Narrow. */
  method QueryTypedFilters(fs: seq<Filter>, ts: seq<PtType>, requested: PtType, forbidden: seq<string>, level: OdtLevel,
                           since: Option<int>, until: Option<int>, d: PtData) returns (r: Result<set<nat>, QueryError>)
    requires |fs| == |ts| && PathsDescend(d)
    ensures r == TypedQuery(fs, ts, requested, forbidden, level, since, until, d)
  {
    if d.objectCount(requested) == 0 {
      return Err(NoRequestedObject);
    }
    var finalIndexes: Result<set<nat>, QueryError>;
    if |fs| == 0 {
      finalIndexes := Ok(d.allIndexes(requested));
    } else {
      finalIndexes := IntersectFilters(fs, ts, requested, d);
    }
    if finalIndexes.Err? {
      return Err(finalIndexes.error);
    }
    r := Narrow(finalIndexes.value, requested, forbidden, level, since, until, d);
  }

  /** The forbidden-uri loop, then Restrict. */
  method Narrow(filtered: set<nat>, requested: PtType, forbidden: seq<string>, level: OdtLevel,
                since: Option<int>, until: Option<int>, d: PtData) returns (r: Result<set<nat>, QueryError>)
    requires PathsDescend(d)
    ensures r == Narrowed(filtered, requested, forbidden, level, since, until, d)
  {
    var allowed := SubtractForbidden(filtered, forbidden, requested, d);
    if allowed.Err? {
      return Err(allowed.error);
    }
    r := Restrict(allowed.value, requested, level, since, until, d);
  }

  /** The end of make_query: manage_odt_level unless the level is `all`, filter_on_period when
      since or until is given, and the error for an empty result. */
  method Restrict(allowed: set<nat>, requested: PtType, level: OdtLevel,
                  since: Option<int>, until: Option<int>, d: PtData) returns (r: Result<set<nat>, QueryError>)
    ensures r == Restricted(allowed, requested, level, since, until, d)
  {
    var finalIndexes := allowed;
    if !level.AllLevels? {
      finalIndexes := ManageOdtLevel(finalIndexes, requested, level, d);
    }
    if since.Some? || until.Some? {
      var period := FilterOnPeriod(finalIndexes, requested, since, until, d);
      if period.Err? {
        return Err(period.error);
      }
      finalIndexes := period.value;
    }
    if finalIndexes == {} {
      return Err(NothingFound);
    }
    return Ok(finalIndexes);
  }

  /** The make_query overload without odt level or period: level `all`, no since, no until. */
  method MakeQueryForbidding(requested: PtType, request: string, forbidden: seq<string>, d: PtData) returns (r: Result<set<nat>, QueryError>)
    requires PathsDescend(d)
    ensures r == Query(requested, request, forbidden, AllLevels, None, None, d)
  {
    r := MakeQuery(requested, request, forbidden, AllLevels, None, None, d);
  }

  /** The make_query overload with only a request: no forbidden uri either. */
  method MakeSimpleQuery(requested: PtType, request: string, d: PtData) returns (r: Result<set<nat>, QueryError>)
    requires PathsDescend(d)
    ensures r == Query(requested, request, [], AllLevels, None, None, d)
  {
    r := MakeQueryForbidding(requested, request, [], d);
  }
}
