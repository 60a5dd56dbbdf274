/** The shared season statistics of teams and constructors: a record of
    scalars plus the two sparse maps, prices and events, that the setters
    turn into lists. */
module Common {
  import opened JsonValues
  import opened Kwargs
  import opened Sparse

  /** One event of a season, as EventStats(event_num=i, **raw). */
  datatype EventStats = EventStats(
    eventNum: nat,
    points: Json,
    highestPosition: Json,
    fastestLap: Json,
    raceTime: Json,
    raceTimeFloat: Json)

  /** The keys a raw event must carry: every parameter but event_num, which
      the setter passes itself. */
  const EventPayload: set<string> :=
    {"points", "highest_position", "fastest_lap", "race_time", "race_time_float"}

  const EventStatsSignature: Signature := AllRequired(EventPayload + {"event_num"})

  /** EventStats(event_num=i, **raw): the raw entry must be a mapping with
      exactly the payload keys; its own event_num would be a second value for
      that keyword. */
  function BuildEventStats(i: nat, raw: Json): (r: Result<EventStats>)
    ensures r.Ok? <==> raw.JObj? && raw.fields.Keys == EventPayload
    ensures r.Err? ==> r.error == TypeError
    ensures r.Ok? ==>
      && r.value.eventNum == i
      && r.value.points == raw.fields["points"]
      && r.value.highestPosition == raw.fields["highest_position"]
      && r.value.fastestLap == raw.fields["fastest_lap"]
      && r.value.raceTime == raw.fields["race_time"]
      && r.value.raceTimeFloat == raw.fields["race_time_float"]
  {
    BindWithPosition(EventPayload, i, raw);
    match BindWith(EventStatsSignature, map["event_num" := JInt(i)], raw)
    case Err(e) => Err(e)
    case Ok(_) =>
      var kw := raw.fields;
      Ok(EventStats(i, kw["points"], kw["highest_position"], kw["fastest_lap"], kw["race_time"], kw["race_time_float"]))
  }

  /** The scalar parameters of Stats. */
  const StatsScalars: set<string> :=
    {"podiums", "num_riders", "avg_grid_pos", "avg_finishing_pos", "total_fantasy_points",
     "fantasy_pos", "total_gp_points", "gp_pos", "total_points"}

  /** prices and events are shadowed by their properties, whose objects become
      the parameters' defaults. */
  const StatsProperties: set<string> := {"prices", "events"}

  lemma StatsFieldsDisjoint()
    ensures StatsScalars !! StatsProperties
  {
  }

  const StatsSignature: Signature := DataclassSignature(StatsScalars, StatsProperties, map[])

  /** Stats(**kwargs) binds exactly when every scalar is named and nothing
      undeclared is. */
  lemma StatsBinds(kwargs: map<string, Json>)
    ensures Bind(StatsSignature, kwargs).Ok? <==> StatsScalars <= kwargs.Keys <= StatsScalars + StatsProperties
  {
    StatsFieldsDisjoint();
    BindsDataclass(StatsScalars, StatsProperties, map[], kwargs);
  }

  /** The exception Stats(**kwargs) raises, if any: binding first, then the
      prices setter, then the events setter. */
  ghost function StatsError(kwargs: map<string, Json>): Option<Error>
  {
    if !(StatsScalars <= kwargs.Keys <= StatsScalars + StatsProperties) then Some(TypeError)
    else if GetTarget(PropertyArg(kwargs, "prices")).Err? then Some(AttributeError)
    else if GetTarget(PropertyArg(kwargs, "events")).Err? then Some(AttributeError)
    else if SparseRecords(kwargs["events"].fields, BuildEventStats).Err? then
      Some(SparseRecords(kwargs["events"].fields, BuildEventStats).error)
    else None
  }

  /** The record of a team's or constructor's statistics. */
  class Stats {
    const podiums: Json
    const numRiders: Json
    const avgGridPos: Json
    const avgFinishingPos: Json
    const totalFantasyPoints: Json
    const fantasyPos: Json
    const totalGpPoints: Json
    const gpPos: Json
    const totalPoints: Json
    var prices: seq<Json>
    var events: seq<EventStats>

    /** The scalar fields hold the keywords of the same names. */
    ghost predicate ScalarsFrom(kwargs: map<string, Json>)
    {
      && StatsScalars <= kwargs.Keys
      && podiums == kwargs["podiums"] && numRiders == kwargs["num_riders"]
      && avgGridPos == kwargs["avg_grid_pos"] && avgFinishingPos == kwargs["avg_finishing_pos"]
      && totalFantasyPoints == kwargs["total_fantasy_points"] && fantasyPos == kwargs["fantasy_pos"]
      && totalGpPoints == kwargs["total_gp_points"] && gpPos == kwargs["gp_pos"]
      && totalPoints == kwargs["total_points"]
    }

    /** This object holds what Stats(**kwargs) stores. */
    ghost predicate BuiltFrom(kwargs: map<string, Json>)
      reads this`prices, this`events
    {
      && ScalarsFrom(kwargs)
      && "prices" in kwargs && kwargs["prices"].JObj?
      && "events" in kwargs && kwargs["events"].JObj?
      && SparseRecords(kwargs["events"].fields, BuildEventStats).Ok?
      && prices == SparseValues(kwargs["prices"].fields)
      && events == SparseRecords(kwargs["events"].fields, BuildEventStats).value
    }

    /** The generated __init__ up to the two property-backed fields. */
    constructor Scalars(kwargs: map<string, Json>)
      requires StatsScalars <= kwargs.Keys
      ensures ScalarsFrom(kwargs)
      ensures prices == [] && events == []
    {
      podiums := kwargs["podiums"];
      numRiders := kwargs["num_riders"];
      avgGridPos := kwargs["avg_grid_pos"];
      avgFinishingPos := kwargs["avg_finishing_pos"];
      totalFantasyPoints := kwargs["total_fantasy_points"];
      fantasyPos := kwargs["fantasy_pos"];
      totalGpPoints := kwargs["total_gp_points"];
      gpPos := kwargs["gp_pos"];
      totalPoints := kwargs["total_points"];
      prices := [];
      events := [];
    }

    /** The prices setter: reads the map with .get and stores the contiguous
        series from "1". */
    method SetPrices(a: Arg) returns (r: Result<()>)
      modifies this`prices
      ensures r.Ok? <==> GetTarget(a).Ok?
      ensures r.Ok? ==> prices == SparseValues(GetTarget(a).value)
      ensures r.Err? ==> r.error == AttributeError && prices == old(prices)
    {
      match GetTarget(a)
      case Err(e) =>
        return Err(e);
      case Ok(m) =>
        var ret := CollectValues(m);
        prices := ret;
        return Ok(());
    }

    /** The events setter: builds one EventStats per entry of the contiguous
        series from "1", numbered by its key. */
    method SetEvents(a: Arg) returns (r: Result<()>)
      modifies this`events
      ensures GetTarget(a).Err? ==> r == Err(AttributeError) && events == old(events)
      ensures GetTarget(a).Ok? ==> r.Ok? == SparseRecords(GetTarget(a).value, BuildEventStats).Ok?
      ensures r.Ok? ==> events == SparseRecords(GetTarget(a).value, BuildEventStats).value
      ensures GetTarget(a).Ok? && r.Err? ==>
        r.error == SparseRecords(GetTarget(a).value, BuildEventStats).error && events == old(events)
    {
      match GetTarget(a)
      case Err(e) =>
        return Err(e);
      case Ok(m) =>
        var built := CollectRecords(m, BuildEventStats);
        match built
        case Err(e) =>
          return Err(e);
        case Ok(es) =>
          events := es;
          return Ok(());
    }

    /** Stats(**kwargs), TeamStats(**kwargs) and ConstructorStats(**kwargs):
        bind the keywords, store the scalars, then run the two setters. */
    static method Build(kwargs: map<string, Json>) returns (r: Result<Stats>)
      ensures StatsError(kwargs) == (if r.Err? then Some(r.error) else None)
      ensures r.Ok? ==> fresh(r.value) && r.value.BuiltFrom(kwargs)
    {
      StatsBinds(kwargs);
      if Bind(StatsSignature, kwargs).Err? {
        return Err(TypeError);
      }
      var s := new Stats.Scalars(kwargs);
      var p := s.SetPrices(PropertyArg(kwargs, "prices"));
      if p.Err? {
        return Err(p.error);
      }
      var e := s.SetEvents(PropertyArg(kwargs, "events"));
      if e.Err? {
        return Err(e.error);
      }
      assert s.BuiltFrom(kwargs);
      return Ok(s);
    }
  }

  /** The stored events are numbered 1, 2, ... by position, and each copies
      its raw entry field for field. */
  lemma EventsNumberedByPosition(m: map<string, Json>)
    requires SparseRecords(m, BuildEventStats).Ok?
    ensures |SparseRecords(m, BuildEventStats).value| == |SparseValues(m)|
    ensures forall j :: 0 <= j < |SparseRecords(m, BuildEventStats).value| ==>
      var e := SparseRecords(m, BuildEventStats).value[j];
      var raw := SparseValues(m)[j];
      && e.eventNum == j + 1
      && raw.JObj? && raw.fields.Keys == EventPayload
      && e.points == raw.fields["points"]
      && e.highestPosition == raw.fields["highest_position"]
      && e.fastestLap == raw.fields["fastest_lap"]
      && e.raceTime == raw.fields["race_time"]
      && e.raceTimeFloat == raw.fields["race_time_float"]
  {
    SparseRecordsAligned(m, BuildEventStats);
  }

  /** The event numbers strictly increase along the list. */
  lemma EventNumbersIncrease(m: map<string, Json>, j: nat, k: nat)
    requires SparseRecords(m, BuildEventStats).Ok?
    requires j < k < |SparseRecords(m, BuildEventStats).value|
    ensures SparseRecords(m, BuildEventStats).value[j].eventNum < SparseRecords(m, BuildEventStats).value[k].eventNum
  {
    EventsNumberedByPosition(m);
  }

  /** The events setter fails exactly when some entry of the series is not a
      mapping with the payload keys, and then it raises TypeError. */
  lemma EventsRejectMalformedEntry(m: map<string, Json>)
    ensures SparseRecords(m, BuildEventStats).Err? <==>
      exists j :: 0 <= j < |SparseValues(m)| && !(SparseValues(m)[j].JObj? && SparseValues(m)[j].fields.Keys == EventPayload)
    ensures SparseRecords(m, BuildEventStats).Err? ==> SparseRecords(m, BuildEventStats).error == TypeError
  {
    if SparseRecords(m, BuildEventStats).Err? {
      SparseRecordsFailure(m, BuildEventStats);
      SparseValuesIsPrefix(m);
      var k :| 1 <= k <= |SparseValues(m)| && Continues(m, k)
        && BuildEventStats(k, m[DecimalKeys.Key(k)]) == Err(SparseRecords(m, BuildEventStats).error);
      assert ReadAt(m, SparseValues(m), 1, k - 1);
    } else {
      SparseRecordsAligned(m, BuildEventStats);
    }
  }
}
