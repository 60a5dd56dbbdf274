/** A rider record: the rider's scalars, the nested season statistics with
    their sparse prices and events, and the derived team id and short name. */
module Riders {
  import opened JsonValues
  import opened Kwargs
  import opened Sparse
  import opened Text

  /** One event of a rider's season, as RiderEventStats(event_num=i, **raw). */
  datatype RiderEventStats = RiderEventStats(
    gridPosition: Json,
    q1Position: Json,
    q2Position: Json,
    sprintPosition: Json,
    finalPosition: Json,
    q1Points: Json,
    q2Points: Json,
    sprintPoints: Json,
    finalPoints: Json,
    qualifyingVsFinalPosition: Json,
    qualifyingVsFinalPositionPoints: Json,
    eventNum: nat,
    points: Json,
    fastestLap: Json,
    raceTime: Json,
    raceTimeFloat: Json)

  /** The keys a raw rider event must carry: every parameter but event_num. */
  const RiderEventPayload: set<string> :=
    {"grid_position", "q1_position", "q2_position", "sprint_position", "final_position",
     "q1_points", "q2_points", "sprint_points", "final_points", "qualifying_vs_final_position",
     "qualifying_vs_final_position_points", "points", "fastest_lap", "race_time", "race_time_float"}

  const RiderEventStatsSignature: Signature := AllRequired(RiderEventPayload + {"event_num"})

  /** The record whose event number is i and whose other fields are read
      from kw. */
  function FromPayload(i: nat, kw: map<string, Json>): RiderEventStats
    requires RiderEventPayload <= kw.Keys
  {
    RiderEventStats(
      kw["grid_position"], kw["q1_position"], kw["q2_position"], kw["sprint_position"],
      kw["final_position"], kw["q1_points"], kw["q2_points"], kw["sprint_points"],
      kw["final_points"], kw["qualifying_vs_final_position"],
      kw["qualifying_vs_final_position_points"], i, kw["points"], kw["fastest_lap"],
      kw["race_time"], kw["race_time_float"])
  }

  /** RiderEventStats(event_num=i, **raw): a mapping with exactly the payload
      keys binds, anything else is a TypeError; the event number is i. */
  function BuildRiderEventStats(i: nat, raw: Json): (r: Result<RiderEventStats>)
    ensures r.Ok? <==> raw.JObj? && raw.fields.Keys == RiderEventPayload
    ensures r.Err? ==> r.error == TypeError
    ensures r.Ok? ==> r.value.eventNum == i
  {
    BindWithPosition(RiderEventPayload, i, raw);
    match BindWith(RiderEventStatsSignature, map["event_num" := JInt(i)], raw)
    case Err(e) => Err(e)
    case Ok(_) => Ok(FromPayload(i, raw.fields))
  }

  /** A built rider event copies its raw entry field for field. */
  lemma RiderEventCopiesFields(i: nat, raw: Json)
    requires BuildRiderEventStats(i, raw).Ok?
    ensures var e := BuildRiderEventStats(i, raw).value;
      && e.gridPosition == raw.fields["grid_position"]
      && e.q1Position == raw.fields["q1_position"]
      && e.q2Position == raw.fields["q2_position"]
      && e.sprintPosition == raw.fields["sprint_position"]
      && e.finalPosition == raw.fields["final_position"]
      && e.q1Points == raw.fields["q1_points"]
      && e.q2Points == raw.fields["q2_points"]
      && e.sprintPoints == raw.fields["sprint_points"]
      && e.finalPoints == raw.fields["final_points"]
      && e.qualifyingVsFinalPosition == raw.fields["qualifying_vs_final_position"]
      && e.qualifyingVsFinalPositionPoints == raw.fields["qualifying_vs_final_position_points"]
      && e.points == raw.fields["points"]
      && e.fastestLap == raw.fields["fastest_lap"]
      && e.raceTime == raw.fields["race_time"]
      && e.raceTimeFloat == raw.fields["race_time_float"]
  {
  }

  /** The scalar parameters of RiderStats. */
  const RiderStatsScalars: set<string> :=
    {"wpr_history", "avg_points", "podium", "last_event", "last_3_events", "last_5_events",
     "season_points", "starts", "avg_qualifying_pos", "is_prev_season", "cost_dynamic",
     "total_points", "avg_grid_pos", "avg_finishing_pos"}

  /** The fields shadowed by properties, whose objects become their defaults. */
  const RiderStatsProperties: set<string> := {"prices", "events"}

  lemma RiderStatsFieldsDisjoint()
    ensures RiderStatsScalars !! RiderStatsProperties
  {
  }

  const RiderStatsSignature: Signature := DataclassSignature(RiderStatsScalars, RiderStatsProperties, map[])

  /** RiderStats(**kwargs) binds exactly when every scalar is named and
      nothing undeclared is. */
  lemma RiderStatsBinds(kwargs: map<string, Json>)
    ensures Bind(RiderStatsSignature, kwargs).Ok? <==> RiderStatsScalars <= kwargs.Keys <= RiderStatsScalars + RiderStatsProperties
  {
    RiderStatsFieldsDisjoint();
    BindsDataclass(RiderStatsScalars, RiderStatsProperties, map[], kwargs);
  }

  /** The exception RiderStats(**kwargs) raises, if any: binding first, then
      the prices setter, then the events setter. */
  ghost function RiderStatsError(kwargs: map<string, Json>): Option<Error>
  {
    if !(RiderStatsScalars <= kwargs.Keys <= RiderStatsScalars + RiderStatsProperties) then Some(TypeError)
    else if GetTarget(PropertyArg(kwargs, "prices")).Err? then Some(AttributeError)
    else if GetTarget(PropertyArg(kwargs, "events")).Err? then Some(AttributeError)
    else if SparseRecords(kwargs["events"].fields, BuildRiderEventStats).Err? then
      Some(SparseRecords(kwargs["events"].fields, BuildRiderEventStats).error)
    else None
  }

  /** A rider's season statistics. */
  class RiderStats {
    const wprHistory: Json
    const avgPoints: Json
    const podium: Json
    const lastEvent: Json
    const last3Events: Json
    const last5Events: Json
    const seasonPoints: Json
    const starts: Json
    const avgQualifyingPos: Json
    const isPrevSeason: Json
    const costDynamic: Json
    const totalPoints: Json
    const avgGridPos: Json
    const avgFinishingPos: Json
    var prices: seq<Json>
    var events: seq<RiderEventStats>

    /** The scalar fields hold the keywords of the same names. */
    ghost predicate ScalarsFrom(kwargs: map<string, Json>)
    {
      && RiderStatsScalars <= kwargs.Keys
      && wprHistory == kwargs["wpr_history"] && avgPoints == kwargs["avg_points"]
      && podium == kwargs["podium"] && lastEvent == kwargs["last_event"]
      && last3Events == kwargs["last_3_events"] && last5Events == kwargs["last_5_events"]
      && seasonPoints == kwargs["season_points"] && starts == kwargs["starts"]
      && avgQualifyingPos == kwargs["avg_qualifying_pos"] && isPrevSeason == kwargs["is_prev_season"]
      && costDynamic == kwargs["cost_dynamic"] && totalPoints == kwargs["total_points"]
      && avgGridPos == kwargs["avg_grid_pos"] && avgFinishingPos == kwargs["avg_finishing_pos"]
    }

    /** This object holds what RiderStats(**kwargs) stores. */
    ghost predicate BuiltFrom(kwargs: map<string, Json>)
      reads this`prices, this`events
    {
      && ScalarsFrom(kwargs)
      && "prices" in kwargs && kwargs["prices"].JObj?
      && "events" in kwargs && kwargs["events"].JObj?
      && SparseRecords(kwargs["events"].fields, BuildRiderEventStats).Ok?
      && prices == SparseValues(kwargs["prices"].fields)
      && events == SparseRecords(kwargs["events"].fields, BuildRiderEventStats).value
    }

    /** The generated __init__ up to the two property-backed fields. */
    constructor Scalars(kwargs: map<string, Json>)
      requires RiderStatsScalars <= kwargs.Keys
      ensures ScalarsFrom(kwargs)
      ensures prices == [] && events == []
    {
      wprHistory := kwargs["wpr_history"];
      avgPoints := kwargs["avg_points"];
      podium := kwargs["podium"];
      lastEvent := kwargs["last_event"];
      last3Events := kwargs["last_3_events"];
      last5Events := kwargs["last_5_events"];
      seasonPoints := kwargs["season_points"];
      starts := kwargs["starts"];
      avgQualifyingPos := kwargs["avg_qualifying_pos"];
      isPrevSeason := kwargs["is_prev_season"];
      costDynamic := kwargs["cost_dynamic"];
      totalPoints := kwargs["total_points"];
      avgGridPos := kwargs["avg_grid_pos"];
      avgFinishingPos := kwargs["avg_finishing_pos"];
      prices := [];
      events := [];
    }

    /** The prices setter: the contiguous series from "1". */
    method SetPrices(a: Arg) returns (r: Result<()>)
      modifies this`prices
      ensures r.Ok? <==> GetTarget(a).Ok?
      ensures r.Ok? ==> prices == SparseValues(GetTarget(a).value)
      ensures r.Err? ==> r.error == AttributeError && prices == old(prices)
    {
      match GetTarget(a)
      case Err(e) =>
        return Err(e);
      case Ok(m) =>
        var ret := CollectValues(m);
        prices := ret;
        return Ok(());
    }

    /** The events setter: one RiderEventStats per entry of the contiguous
        series from "1", numbered by its key. */
    method SetEvents(a: Arg) returns (r: Result<()>)
      modifies this`events
      ensures GetTarget(a).Err? ==> r == Err(AttributeError) && events == old(events)
      ensures GetTarget(a).Ok? ==> r.Ok? == SparseRecords(GetTarget(a).value, BuildRiderEventStats).Ok?
      ensures r.Ok? ==> events == SparseRecords(GetTarget(a).value, BuildRiderEventStats).value
      ensures GetTarget(a).Ok? && r.Err? ==>
        r.error == SparseRecords(GetTarget(a).value, BuildRiderEventStats).error && events == old(events)
    {
      match GetTarget(a)
      case Err(e) =>
        return Err(e);
      case Ok(m) =>
        var built := CollectRecords(m, BuildRiderEventStats);
        match built
        case Err(e) =>
          return Err(e);
        case Ok(es) =>
          events := es;
          return Ok(());
    }

    /** RiderStats(**kwargs). */
    static method Build(kwargs: map<string, Json>) returns (r: Result<RiderStats>)
      ensures RiderStatsError(kwargs) == (if r.Err? then Some(r.error) else None)
      ensures r.Ok? ==> fresh(r.value) && r.value.BuiltFrom(kwargs)
    {
      RiderStatsBinds(kwargs);
      if Bind(RiderStatsSignature, kwargs).Err? {
        return Err(TypeError);
      }
      var s := new RiderStats.Scalars(kwargs);
      var p := s.SetPrices(PropertyArg(kwargs, "prices"));
      if p.Err? {
        return Err(p.error);
      }
      assert "prices" in kwargs && kwargs["prices"].JObj?;
      assert s.prices == SparseValues(kwargs["prices"].fields);
      var e := s.SetEvents(PropertyArg(kwargs, "events"));
      if e.Err? {
        return Err(e.error);
      }
      assert "events" in kwargs && kwargs["events"].JObj?;
      assert s.ScalarsFrom(kwargs);
      return Ok(s);
    }
  }

  /** A rider's events are numbered exactly 1, 2, ..., k in order, and each
      is the one built from the raw entry at the same position. */
  lemma RiderEventsNumberedByPosition(m: map<string, Json>)
    requires SparseRecords(m, BuildRiderEventStats).Ok?
    ensures |SparseRecords(m, BuildRiderEventStats).value| == |SparseValues(m)|
    ensures forall j :: 0 <= j < |SparseRecords(m, BuildRiderEventStats).value| ==>
      && SparseRecords(m, BuildRiderEventStats).value[j].eventNum == j + 1
      && BuildRiderEventStats(j + 1, SparseValues(m)[j]) == Ok(SparseRecords(m, BuildRiderEventStats).value[j])
  {
    SparseRecordsAligned(m, BuildRiderEventStats);
  }

  /** The rider parameters that are plain scalars. */
  const RiderScalars: set<string> :=
    {"first_name", "last_name", "cost", "country", "number", "status", "id", "constructor_id", "squad_id"}

  /** stats defaults to its property object. */
  const RiderProperties: set<string> := {"stats"}

  lemma RiderFieldsDisjoint()
    ensures RiderScalars !! RiderProperties
  {
  }

  const RiderSignature: Signature := DataclassSignature(RiderScalars, RiderProperties, map[])

  /** The exception Rider(**kwargs) raises, if any: binding, then the stats
      setter's RiderStats(**stats). */
  ghost function RiderError(kwargs: map<string, Json>): Option<Error>
  {
    if !Binds(RiderSignature, kwargs) then Some(TypeError)
    else if StarTarget(PropertyArg(kwargs, "stats")).Err? then Some(TypeError)
    else RiderStatsError(kwargs["stats"].fields)
  }

  /** The text an f-string gives a value: a string stands for itself, any
      other value goes through str, which show stands for. */
  function Format(v: Json, show: Json -> string): string
  {
    if v.JStr? then v.s else show(v)
  }

  /** The formatted v[0]: the first character of a string or the first item
      of a list (an IndexError when empty); a dict looks the key 0 up, which
      no key of a JSON object is (a KeyError); any other value cannot be
      subscripted (a TypeError). */
  function FirstItem(v: Json, show: Json -> string): Result<string>
  {
    match v
    case JStr(s) => if s == "" then Err(IndexError) else Ok([s[0]])
    case JArr(items) => if items == [] then Err(IndexError) else Ok(Format(items[0], show))
    case JObj(_) => Err(KeyError)
    case _ => Err(TypeError)
  }

  /** The formatted v[:3]: the first three characters of a string or the
      first three items of a list; slicing a dict hashes the slice, which is
      a TypeError, and any other value cannot be subscripted. */
  function FirstThree(v: Json, show: Json -> string): Result<string>
  {
    match v
    case JStr(s) => Ok(s[..Min(3, |s|)])
    case JArr(items) => Ok(show(JArr(items[..Min(3, |items|)])))
    case _ => Err(TypeError)
  }

  function Min(a: int, b: int): int
  {
    if a <= b then a else b
  }

  /** A rider record. The stats slot is empty until the stats setter runs. */
  class Rider {
    const firstName: Json
    const lastName: Json
    const cost: Json
    const country: Json
    const number: Json
    const status: Json
    const id: Json
    const constructorId: Json
    const squadId: Json
    var stats: RiderStats?

    /** The generated __init__ up to the stats field. */
    constructor Scalars(kwargs: map<string, Json>)
      requires RiderScalars <= kwargs.Keys
      ensures firstName == kwargs["first_name"] && lastName == kwargs["last_name"]
      ensures cost == kwargs["cost"] && country == kwargs["country"]
      ensures number == kwargs["number"] && status == kwargs["status"] && id == kwargs["id"]
      ensures constructorId == kwargs["constructor_id"] && squadId == kwargs["squad_id"]
      ensures stats == null
    {
      firstName := kwargs["first_name"];
      lastName := kwargs["last_name"];
      cost := kwargs["cost"];
      country := kwargs["country"];
      number := kwargs["number"];
      status := kwargs["status"];
      id := kwargs["id"];
      constructorId := kwargs["constructor_id"];
      squadId := kwargs["squad_id"];
      stats := null;
    }

    /** The stats setter: RiderStats(**stats), so the raw dict's own prices
        and events go through the sparse reconstruction. */
    method SetStats(a: Arg) returns (r: Result<()>)
      modifies this`stats
      ensures StarTarget(a).Err? ==> r == Err(TypeError) && stats == old(stats)
      ensures StarTarget(a).Ok? ==> (r.Err? <==> RiderStatsError(StarTarget(a).value).Some?)
      ensures StarTarget(a).Ok? && r.Err? ==> r.error == RiderStatsError(StarTarget(a).value).value && stats == old(stats)
      ensures r.Ok? ==> stats != null && fresh(stats) && stats.BuiltFrom(StarTarget(a).value)
    {
      match StarTarget(a)
      case Err(e) =>
        return Err(e);
      case Ok(m) =>
        var built := RiderStats.Build(m);
        if built.Err? {
          return Err(built.error);
        }
        stats := built.value;
        return Ok(());
    }

    /** team_id is an alias of squad_id. */
    function TeamId(): (t: Json)
      reads this
      ensures t == squadId
    {
      squadId
    }

    /** short_name: f"{first_name[0]} {last_name[:3]}".upper(). On strings,
        the upper-cased initial, a space and the first three characters of
        the last name; a list first name gives its whole first item and a
        list last name its first three items, through str. */
    function ShortName(show: Json -> string): (r: Result<string>)
      reads this
      ensures r.Ok? <==>
        && ((firstName.JStr? && firstName.s != "") || (firstName.JArr? && firstName.items != []))
        && (lastName.JStr? || lastName.JArr?)
      ensures (firstName.JStr? && firstName.s == "") || (firstName.JArr? && firstName.items == [])
        ==> r == Err(IndexError)
      ensures firstName.JObj? ==> r == Err(KeyError)
      ensures !(firstName.JStr? || firstName.JArr? || firstName.JObj?) ==> r == Err(TypeError)
      ensures ((firstName.JStr? && firstName.s != "") || (firstName.JArr? && firstName.items != []))
        && !(lastName.JStr? || lastName.JArr?)
        ==> r == Err(TypeError)
      ensures r.Ok? && firstName.JStr? && lastName.JStr? ==>
        && |r.value| == 2 + Min(3, |lastName.s|)
        && r.value[0] == UpperChar(firstName.s[0])
        && r.value[1] == ' '
        && r.value[2..] == Upper(lastName.s[..Min(3, |lastName.s|)])
      ensures r.Ok? && firstName.JArr? && firstName.items[0].JStr? && lastName.JStr? ==>
        r.value == Upper(firstName.items[0].s) + " " + Upper(lastName.s[..Min(3, |lastName.s|)])
      ensures r.Ok? && lastName.JArr? ==>
        var tail := Upper(show(JArr(lastName.items[..Min(3, |lastName.items|)])));
        |r.value| > |tail| && r.value[|r.value| - |tail|..] == tail
    {
      match FirstItem(firstName, show)
      case Err(e) => Err(e)
      case Ok(initial) =>
        match FirstThree(lastName, show)
        case Err(e) => Err(e)
        case Ok(last) =>
          UpperAppend(initial + " ", last);
          UpperAppend(initial, " ");
          Ok(Upper(initial + " " + last))
    }

    /** Rider(**kwargs): bind, store the scalars, then run the stats setter. */
    static method Build(kwargs: map<string, Json>) returns (r: Result<Rider>)
      ensures RiderError(kwargs) == (if r.Err? then Some(r.error) else None)
      ensures r.Ok? ==>
        && fresh(r.value)
        && r.value.firstName == kwargs["first_name"] && r.value.lastName == kwargs["last_name"]
        && r.value.cost == kwargs["cost"] && r.value.country == kwargs["country"]
        && r.value.number == kwargs["number"] && r.value.status == kwargs["status"]
        && r.value.id == kwargs["id"] && r.value.constructorId == kwargs["constructor_id"]
        && r.value.squadId == kwargs["squad_id"]
        && "stats" in kwargs && kwargs["stats"].JObj?
        && r.value.stats != null && fresh(r.value.stats)
        && r.value.stats.BuiltFrom(kwargs["stats"].fields)
    {
      if Bind(RiderSignature, kwargs).Err? {
        return Err(TypeError);
      }
      RiderFieldsDisjoint();
      BindsDataclass(RiderScalars, RiderProperties, map[], kwargs);
      var rider := new Rider.Scalars(kwargs);
      var s := rider.SetStats(PropertyArg(kwargs, "stats"));
      if s.Err? {
        return Err(s.error);
      }
      return Ok(rider);
    }
  }
}
