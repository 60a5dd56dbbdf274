/** Race weekends and their sessions: the tolerant from_dict builders, the
    start and end setters that parse ISO timestamps, and the races setter that
    turns each raw race into an Event. */
module Weekends {
  import opened JsonValues
  import opened Kwargs

  /** What datetime.fromisoformat returns. */
  datatype DateTime = DateTime(
    year: int, month: int, day: int,
    hour: int, minute: int, second: int, microsecond: int,
    utcOffsetMinutes: Option<int>)

  /** datetime.fromisoformat on a string: the parsed instant, or None where
      the string is not in ISO format (the library raises ValueError). */
  type Parser = string -> Option<DateTime>

  /** datetime.fromisoformat(x): only a string is accepted, and it must
      parse. The property object of a missing start or end is no string. */
  function ParseArg(a: Arg, parse: Parser): (r: Result<DateTime>)
    ensures r.Ok? <==> a.Given? && a.value.JStr? && parse(a.value.s).Some?
    ensures r.Ok? ==> r.value == parse(a.value.s).value
    ensures r.Err? && a.Given? && a.value.JStr? ==> r.error == ValueError
    ensures r.Err? && !(a.Given? && a.value.JStr?) ==> r.error == TypeError
  {
    if !(a.Given? && a.value.JStr?) then Err(TypeError)
    else
      match parse(a.value.s)
      case None => Err(ValueError)
      case Some(t) => Ok(t)
  }

  /** The Event parameters without a default. */
  const EventScalars: set<string> := {"id", "type", "status", "is_race2"}

  /** start and end are shadowed by their properties. */
  const EventProperties: set<string> := {"start", "end"}

  lemma EventFieldsDisjoint()
    ensures EventScalars !! EventProperties
  {
  }

  const EventSignature: Signature := DataclassSignature(EventScalars, EventProperties, map[])

  /** Event(**kwargs) binds exactly when every scalar is named and nothing
      undeclared is. */
  lemma EventBinds(kwargs: map<string, Json>)
    ensures Bind(EventSignature, kwargs).Ok? <==> EventScalars <= kwargs.Keys <= EventScalars + EventProperties
  {
    EventFieldsDisjoint();
    BindsDataclass(EventScalars, EventProperties, map[], kwargs);
  }

  /** The exception Event(**kwargs) raises, if any: binding, then the start
      setter, then the end setter. */
  ghost function EventError(kwargs: map<string, Json>, parse: Parser): Option<Error>
  {
    if !(EventScalars <= kwargs.Keys <= EventScalars + EventProperties) then Some(TypeError)
    else if ParseArg(PropertyArg(kwargs, "start"), parse).Err? then Some(ParseArg(PropertyArg(kwargs, "start"), parse).error)
    else if ParseArg(PropertyArg(kwargs, "end"), parse).Err? then Some(ParseArg(PropertyArg(kwargs, "end"), parse).error)
    else None
  }

  /** One session of a weekend. _start and _end are unset until their
      setters run. */
  class Event {
    const id: Json
    const kind: Json
    const status: Json
    const isRace2: Json
    var start: Option<DateTime>
    var end: Option<DateTime>

    /** The start getter: the stored instant; reading it before the setter
        ran is an AttributeError. */
    function Start(): (r: Result<DateTime>)
      reads this
      ensures r.Ok? <==> start.Some?
      ensures r.Ok? ==> r.value == start.value
      ensures r.Err? ==> r.error == AttributeError
    {
      if start.Some? then Ok(start.value) else Err(AttributeError)
    }

    /** The end getter. */
    function End(): (r: Result<DateTime>)
      reads this
      ensures r.Ok? <==> end.Some?
      ensures r.Ok? ==> r.value == end.value
      ensures r.Err? ==> r.error == AttributeError
    {
      if end.Some? then Ok(end.value) else Err(AttributeError)
    }

    /** This object holds what Event(**kwargs) stores: the scalars as given
        and the parses of the two timestamps. */
    ghost predicate BuiltFrom(kwargs: map<string, Json>, parse: Parser)
      reads this
    {
      && EventScalars <= kwargs.Keys
      && id == kwargs["id"] && kind == kwargs["type"]
      && status == kwargs["status"] && isRace2 == kwargs["is_race2"]
      && "start" in kwargs && ParseArg(Given(kwargs["start"]), parse).Ok?
      && Start() == ParseArg(Given(kwargs["start"]), parse)
      && "end" in kwargs && ParseArg(Given(kwargs["end"]), parse).Ok?
      && End() == ParseArg(Given(kwargs["end"]), parse)
    }

    /** The generated __init__ up to the two property-backed fields. */
    constructor Scalars(kwargs: map<string, Json>)
      requires EventScalars <= kwargs.Keys
      ensures id == kwargs["id"] && kind == kwargs["type"]
      ensures status == kwargs["status"] && isRace2 == kwargs["is_race2"]
      ensures start == None && end == None
    {
      id := kwargs["id"];
      kind := kwargs["type"];
      status := kwargs["status"];
      isRace2 := kwargs["is_race2"];
      start := None;
      end := None;
    }

    /** The start setter: _start = datetime.fromisoformat(start). */
    method SetStart(a: Arg, parse: Parser) returns (r: Result<()>)
      modifies this`start
      ensures r.Ok? <==> ParseArg(a, parse).Ok?
      ensures r.Ok? ==> Start() == ParseArg(a, parse)
      ensures r.Err? ==> r.error == ParseArg(a, parse).error && start == old(start)
    {
      var t := ParseArg(a, parse);
      if t.Err? {
        return Err(t.error);
      }
      start := Some(t.value);
      return Ok(());
    }

    /** The end setter: _end = datetime.fromisoformat(end). */
    method SetEnd(a: Arg, parse: Parser) returns (r: Result<()>)
      modifies this`end
      ensures r.Ok? <==> ParseArg(a, parse).Ok?
      ensures r.Ok? ==> End() == ParseArg(a, parse)
      ensures r.Err? ==> r.error == ParseArg(a, parse).error && end == old(end)
    {
      var t := ParseArg(a, parse);
      if t.Err? {
        return Err(t.error);
      }
      end := Some(t.value);
      return Ok(());
    }

    /** Event(**kwargs): bind, store the scalars, then run the two setters. */
    static method Build(kwargs: map<string, Json>, parse: Parser) returns (r: Result<Event>)
      ensures EventError(kwargs, parse) == (if r.Err? then Some(r.error) else None)
      ensures r.Ok? ==> fresh(r.value) && r.value.BuiltFrom(kwargs, parse)
    {
      EventBinds(kwargs);
      if Bind(EventSignature, kwargs).Err? {
        return Err(TypeError);
      }
      var e := new Event.Scalars(kwargs);
      var s := e.SetStart(PropertyArg(kwargs, "start"), parse);
      if s.Err? {
        return Err(s.error);
      }
      var t := e.SetEnd(PropertyArg(kwargs, "end"), parse);
      if t.Err? {
        return Err(t.error);
      }
      return Ok(e);
    }

    /** Event.from_dict(env): every parameter is passed, env's value where
        it has one and None elsewhere, and undeclared keys are dropped. */
    static method FromDict(env: map<string, Json>, parse: Parser) returns (r: Result<Event>)
      ensures EventError(Kwargs.FromDict(EventSignature, env), parse) == (if r.Err? then Some(r.error) else None)
      ensures r.Ok? ==> fresh(r.value) && r.value.BuiltFrom(Kwargs.FromDict(EventSignature, env), parse)
    {
      r := Build(Kwargs.FromDict(EventSignature, env), parse);
    }
  }

  /** The exception Event(**race) raises for one item of the races list: an
      item that is not a mapping cannot be unpacked. */
  ghost function RaceError(race: Json, parse: Parser): Option<Error>
  {
    if !race.JObj? then Some(TypeError) else EventError(race.fields, parse)
  }

  /** The exception of the first failing item from index i on. */
  ghost function FirstRaceError(races: seq<Json>, parse: Parser, i: nat): Option<Error>
    requires i <= |races|
    decreases |races| - i
  {
    if i == |races| then None
    else if RaceError(races[i], parse).Some? then RaceError(races[i], parse)
    else FirstRaceError(races, parse, i + 1)
  }

  /** The exception the races setter raises for its argument, if any. A list
      is built item by item. Iterating a string or a dict yields strings,
      which cannot be unpacked, so only an empty one gives an empty list; any
      other value, the property object included, is not iterable. */
  ghost function RacesError(a: Arg, parse: Parser): Option<Error>
  {
    if !a.Given? then Some(TypeError)
    else
      match a.value
      case JArr(items) => FirstRaceError(items, parse, 0)
      case JStr(s) => if s == [] then None else Some(TypeError)
      case JObj(fields) => if fields == map[] then None else Some(TypeError)
      case _ => Some(TypeError)
  }

  /** The raw races the setter turns into events: the items of a list, and
      nothing for the empty string or dict. */
  function RaceItems(a: Arg): (items: seq<Json>)
    ensures a.Given? && a.value.JArr? ==> items == a.value.items
    ensures !(a.Given? && a.value.JArr?) ==> items == []
  {
    if a.Given? && a.value.JArr? then a.value.items else []
  }

  /** events[k] is the Event built from the k-th raw race, for every k. */
  ghost predicate EventsBuiltFrom(events: seq<Event>, races: seq<Json>, parse: Parser)
    reads set k | 0 <= k < |events| :: events[k]
  {
    && |events| == |races|
    && forall k :: 0 <= k < |races| ==> races[k].JObj? && events[k].BuiltFrom(races[k].fields, parse)
  }

  lemma EventsBuiltFromStep(events: seq<Event>, races: seq<Json>, parse: Parser, e: Event, race: Json)
    requires EventsBuiltFrom(events, races, parse)
    requires race.JObj? && e.BuiltFrom(race.fields, parse)
    ensures EventsBuiltFrom(events + [e], races + [race], parse)
  {
    var es := events + [e];
    var rs := races + [race];
    forall k | 0 <= k < |rs|
      ensures rs[k].JObj? && es[k].BuiltFrom(rs[k].fields, parse)
    {
      if k < |races| {
        assert rs[k] == races[k] && es[k] == events[k];
      }
    }
  }

  /** The comprehension [Event(**race) for race in races] over a list: one
      new Event per item, in order, or the exception of the first item that
      fails. */
  method BuildEvents(items: seq<Json>, parse: Parser) returns (r: Result<seq<Event>>)
    ensures FirstRaceError(items, parse, 0) == (if r.Err? then Some(r.error) else None)
    ensures r.Ok? ==> EventsBuiltFrom(r.value, items, parse)
    ensures r.Ok? ==> forall k :: 0 <= k < |r.value| ==> fresh(r.value[k])
  {
    var built: seq<Event> := [];
    var i := 0;
    while i < |items|
      invariant 0 <= i <= |items|
      invariant FirstRaceError(items, parse, 0) == FirstRaceError(items, parse, i)
      invariant EventsBuiltFrom(built, items[..i], parse)
      invariant forall k :: 0 <= k < |built| ==> fresh(built[k])
    {
      if !items[i].JObj? {
        return Err(TypeError);
      }
      var e := Event.Build(items[i].fields, parse);
      if e.Err? {
        return Err(e.error);
      }
      EventsBuiltFromStep(built, items[..i], parse, e.value, items[i]);
      assert items[..i + 1] == items[..i] + [items[i]];
      built := built + [e.value];
      i := i + 1;
    }
    assert items[..i] == items;
    return Ok(built);
  }

  /** The Weekend parameters without a default. */
  const WeekendScalars: set<string> :=
    {"id", "name", "circuit", "displayed_name", "short_name", "position", "status"}

  /** start, end and races are shadowed by their properties. */
  const WeekendProperties: set<string> := {"start", "end", "races"}

  /** weather has default_factory=dict. */
  const WeekendFactories: map<string, Json> := map["weather" := JObj(map[])]

  lemma WeekendFieldsDisjoint()
    ensures WeekendScalars !! WeekendProperties
    ensures WeekendScalars !! WeekendFactories.Keys
    ensures WeekendProperties !! WeekendFactories.Keys
  {
  }

  const WeekendSignature: Signature := DataclassSignature(WeekendScalars, WeekendProperties, WeekendFactories)

  /** Weekend(**kwargs) binds exactly when every scalar is named and nothing
      undeclared is. */
  lemma WeekendBinds(kwargs: map<string, Json>)
    ensures Bind(WeekendSignature, kwargs).Ok? <==> WeekendScalars <= kwargs.Keys <= WeekendScalars + WeekendProperties + WeekendFactories.Keys
  {
    WeekendFieldsDisjoint();
    BindsDataclass(WeekendScalars, WeekendProperties, WeekendFactories, kwargs);
  }

  /** The exception Weekend(**kwargs) raises, if any: binding, then the
      start, end and races setters in declaration order. */
  ghost function WeekendError(kwargs: map<string, Json>, parse: Parser): Option<Error>
  {
    if !(WeekendScalars <= kwargs.Keys <= WeekendScalars + WeekendProperties + {"weather"}) then Some(TypeError)
    else if ParseArg(PropertyArg(kwargs, "start"), parse).Err? then Some(ParseArg(PropertyArg(kwargs, "start"), parse).error)
    else if ParseArg(PropertyArg(kwargs, "end"), parse).Err? then Some(ParseArg(PropertyArg(kwargs, "end"), parse).error)
    else RacesError(PropertyArg(kwargs, "races"), parse)
  }

  /** A race weekend. _start, _end and _races are unset until their setters
      run. */
  class Weekend {
    const id: Json
    const name: Json
    const circuit: Json
    const displayedName: Json
    const shortName: Json
    const position: Json
    const status: Json
    const weather: Json
    var start: Option<DateTime>
    var end: Option<DateTime>
    var races: Option<seq<Event>>

    function Start(): (r: Result<DateTime>)
      reads this`start
      ensures r.Ok? <==> start.Some?
      ensures r.Ok? ==> r.value == start.value
      ensures r.Err? ==> r.error == AttributeError
    {
      if start.Some? then Ok(start.value) else Err(AttributeError)
    }

    function End(): (r: Result<DateTime>)
      reads this`end
      ensures r.Ok? <==> end.Some?
      ensures r.Ok? ==> r.value == end.value
      ensures r.Err? ==> r.error == AttributeError
    {
      if end.Some? then Ok(end.value) else Err(AttributeError)
    }

    /** The races getter. */
    function Races(): (r: Result<seq<Event>>)
      reads this`races
      ensures r.Ok? <==> races.Some?
      ensures r.Ok? ==> r.value == races.value
      ensures r.Err? ==> r.error == AttributeError
    {
      if races.Some? then Ok(races.value) else Err(AttributeError)
    }

    /** The scalars, the weather and the two timestamps are what
        Weekend(**kwargs) stores. */
    ghost predicate HeadFrom(kwargs: map<string, Json>, parse: Parser)
      reads this`start, this`end
    {
      && WeekendScalars <= kwargs.Keys
      && id == kwargs["id"] && name == kwargs["name"] && circuit == kwargs["circuit"]
      && displayedName == kwargs["displayed_name"] && shortName == kwargs["short_name"]
      && position == kwargs["position"] && status == kwargs["status"]
      && weather == (if "weather" in kwargs then kwargs["weather"] else JObj(map[]))
      && "start" in kwargs && ParseArg(Given(kwargs["start"]), parse).Ok?
      && Start() == ParseArg(Given(kwargs["start"]), parse)
      && "end" in kwargs && ParseArg(Given(kwargs["end"]), parse).Ok?
      && End() == ParseArg(Given(kwargs["end"]), parse)
    }

    /** The generated __init__ without the property-backed fields. */
    constructor Scalars(kwargs: map<string, Json>)
      requires WeekendScalars <= kwargs.Keys
      ensures id == kwargs["id"] && name == kwargs["name"] && circuit == kwargs["circuit"]
      ensures displayedName == kwargs["displayed_name"] && shortName == kwargs["short_name"]
      ensures position == kwargs["position"] && status == kwargs["status"]
      ensures weather == (if "weather" in kwargs then kwargs["weather"] else JObj(map[]))
      ensures start == None && end == None && races == None
    {
      id := kwargs["id"];
      name := kwargs["name"];
      circuit := kwargs["circuit"];
      displayedName := kwargs["displayed_name"];
      shortName := kwargs["short_name"];
      position := kwargs["position"];
      status := kwargs["status"];
      weather := if "weather" in kwargs then kwargs["weather"] else JObj(map[]);
      start := None;
      end := None;
      races := None;
    }

    method SetStart(a: Arg, parse: Parser) returns (r: Result<()>)
      modifies this`start
      ensures r.Ok? <==> ParseArg(a, parse).Ok?
      ensures r.Ok? ==> Start() == ParseArg(a, parse)
      ensures r.Err? ==> r.error == ParseArg(a, parse).error && start == old(start)
    {
      var t := ParseArg(a, parse);
      if t.Err? {
        return Err(t.error);
      }
      start := Some(t.value);
      return Ok(());
    }

    method SetEnd(a: Arg, parse: Parser) returns (r: Result<()>)
      modifies this`end
      ensures r.Ok? <==> ParseArg(a, parse).Ok?
      ensures r.Ok? ==> End() == ParseArg(a, parse)
      ensures r.Err? ==> r.error == ParseArg(a, parse).error && end == old(end)
    {
      var t := ParseArg(a, parse);
      if t.Err? {
        return Err(t.error);
      }
      end := Some(t.value);
      return Ok(());
    }

    /** The races setter: [Event(**race) for race in races], strict keyword
        construction of one new Event per raw race, in order. */
    method SetRaces(a: Arg, parse: Parser) returns (r: Result<()>)
      modifies this`races
      ensures RacesError(a, parse) == (if r.Err? then Some(r.error) else None)
      ensures r.Ok? ==> races.Some? && EventsBuiltFrom(races.value, RaceItems(a), parse)
      ensures r.Ok? ==> forall k :: 0 <= k < |races.value| ==> fresh(races.value[k])
      ensures r.Err? ==> races == old(races)
    {
      if !a.Given? {
        return Err(TypeError);
      }
      match a.value {
        case JArr(items) =>
          var built := BuildEvents(items, parse);
          if built.Err? {
            return Err(built.error);
          }
          races := Some(built.value);
          return Ok(());
        case JStr(s) =>
          if s != [] {
            return Err(TypeError);
          }
          races := Some([]);
          return Ok(());
        case JObj(fields) =>
          if fields != map[] {
            return Err(TypeError);
          }
          races := Some([]);
          return Ok(());
        case _ =>
          return Err(TypeError);
      }
    }

    /** This object holds what Weekend(**kwargs) stores. */
    ghost predicate BuiltFrom(kwargs: map<string, Json>, parse: Parser)
      reads this`start, this`end, this`races, if races.Some? then set k | 0 <= k < |races.value| :: races.value[k] else {}
    {
      && HeadFrom(kwargs, parse)
      && "races" in kwargs
      && races.Some? && EventsBuiltFrom(races.value, RaceItems(Given(kwargs["races"])), parse)
    }

    /** Weekend(**kwargs): bind, store the scalars and the weather, then run
        the start, end and races setters. */
    static method Build(kwargs: map<string, Json>, parse: Parser) returns (r: Result<Weekend>)
      ensures WeekendError(kwargs, parse) == (if r.Err? then Some(r.error) else None)
      ensures r.Ok? ==> fresh(r.value) && r.value.BuiltFrom(kwargs, parse)
    {
      WeekendBinds(kwargs);
      if Bind(WeekendSignature, kwargs).Err? {
        return Err(TypeError);
      }
      var w := new Weekend.Scalars(kwargs);
      var s := w.SetStart(PropertyArg(kwargs, "start"), parse);
      if s.Err? {
        return Err(s.error);
      }
      assert "start" in kwargs;
      var t := w.SetEnd(PropertyArg(kwargs, "end"), parse);
      if t.Err? {
        return Err(t.error);
      }
      assert "end" in kwargs;
      assert w.HeadFrom(kwargs, parse);
      var q := w.SetRaces(PropertyArg(kwargs, "races"), parse);
      if q.Err? {
        return Err(q.error);
      }
      assert "races" in kwargs;
      return Ok(w);
    }

    /** Weekend.from_dict(env). */
    static method FromDict(env: map<string, Json>, parse: Parser) returns (r: Result<Weekend>)
      ensures WeekendError(Kwargs.FromDict(WeekendSignature, env), parse) == (if r.Err? then Some(r.error) else None)
      ensures r.Ok? ==> fresh(r.value) && r.value.BuiltFrom(Kwargs.FromDict(WeekendSignature, env), parse)
    {
      r := Build(Kwargs.FromDict(WeekendSignature, env), parse);
    }
  }
}
