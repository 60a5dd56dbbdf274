/** The record lists and the per-slot tables of the two facades: raw_info,
    the comprehension that builds one record per datum of website_json, and
    the events and history tables, which tag every slot frame, concatenate
    the frames and order the rows. */
module Facades {
  import opened JsonValues
  import opened Kwargs
  import opened Tagging
  import opened Ordering
  import Weekends
  import HelperTeams

  // ---- raw_info

  /** The exception of a comprehension over website_json that is not a
      list: a string yields its characters and a dict its keys, all
      strings, for which each datum raises stringError, so only an empty one
      gives an empty list; any other value is not iterable. */
  function NonListError(data: Json, stringError: Error): (r: Option<Error>)
    requires !data.JArr?
    ensures r.None? <==> (data.JStr? && data.s == []) || (data.JObj? && data.fields == map[])
    ensures r.Some? ==> r.value == (if data.JStr? || data.JObj? then stringError else TypeError)
  {
    match data
    case JStr(s) => if s == [] then None else Some(stringError)
    case JObj(fields) => if fields == map[] then None else Some(stringError)
    case _ => Some(TypeError)
  }

  /** The data a successful comprehension has built from: the items of a
      list, and nothing for an empty string or dict. */
  function DataItems(data: Json): (items: seq<Json>)
    ensures data.JArr? ==> items == data.items
    ensures !data.JArr? ==> items == []
  {
    if data.JArr? then data.items else []
  }

  /** The exception of the first failing datum from index i on, given the
      exception (or None) of every datum: a comprehension stops at the
      first datum that raises. */
  function FirstError(errs: seq<Option<Error>>, i: nat): Option<Error>
    requires i <= |errs|
    decreases |errs| - i
  {
    if i == |errs| then None
    else if errs[i].Some? then errs[i]
    else FirstError(errs, i + 1)
  }

  /** The comprehension succeeds exactly when no datum raises, and
      otherwise raises the exception of the earliest datum that does. */
  lemma {:induction false} FirstErrorIsFirst(errs: seq<Option<Error>>, i: nat)
    requires i <= |errs|
    ensures FirstError(errs, i).None? <==> forall k :: i <= k < |errs| ==> errs[k].None?
    ensures FirstError(errs, i).Some? ==>
      exists k :: i <= k < |errs| && errs[k] == FirstError(errs, i) && forall j :: i <= j < k ==> errs[j].None?
    decreases |errs| - i
  {
    if i < |errs| && errs[i].None? {
      FirstErrorIsFirst(errs, i + 1);
    }
  }

  /** Team(**datum) for one datum: only a mapping can be unpacked. */
  ghost function HelperTeamDatumError(datum: Json): Option<Error>
  {
    if !datum.JObj? then Some(TypeError) else HelperTeams.HelperTeamError(datum.fields)
  }

  /** The exception (or None) of Team(**datum) for every datum. */
  ghost function HelperTeamErrors(items: seq<Json>): (errs: seq<Option<Error>>)
    ensures |errs| == |items|
    ensures forall k :: 0 <= k < |items| ==> errs[k] == HelperTeamDatumError(items[k])
  {
    seq(|items|, k requires 0 <= k < |items| => HelperTeamDatumError(items[k]))
  }

  /** The exception of the helper's raw_info for teams, if any. */
  ghost function HelperRawTeamsError(data: Json): Option<Error>
  {
    if data.JArr? then FirstError(HelperTeamErrors(data.items), 0) else NonListError(data, TypeError)
  }

  /** t holds the fields of what Team(**datum) stores that no setter
      touches. */
  ghost predicate TeamFromDatum(t: HelperTeams.Team, datum: Json)
  {
    && datum.JObj?
    && HelperTeams.HelperTeamScalars <= datum.fields.Keys
    && t.id == datum.fields["id"] && t.name == datum.fields["name"]
    && t.numRiders == datum.fields["num_riders"] && t.cost == datum.fields["cost"]
  }

  lemma TeamsFromDataStep(built: seq<HelperTeams.Team>, items: seq<Json>, t: HelperTeams.Team)
    requires |built| < |items|
    requires forall k :: 0 <= k < |built| ==> TeamFromDatum(built[k], items[k])
    requires TeamFromDatum(t, items[|built|])
    ensures forall k :: 0 <= k < |built| + 1 ==> TeamFromDatum((built + [t])[k], items[k])
  {
  }

  /** Team(**datum) for one datum. */
  method BuildHelperTeam(datum: Json) returns (r: Result<HelperTeams.Team>)
    ensures HelperTeamDatumError(datum) == (if r.Err? then Some(r.error) else None)
    ensures r.Ok? ==> TeamFromDatum(r.value, datum)
  {
    if !datum.JObj? {
      return Err(TypeError);
    }
    r := HelperTeams.Team.Build(datum.fields);
  }

  /** [Team(**datum) for datum in items]: one new Team per datum, in order,
      or the exception of the first datum that has a missing or undeclared
      key, or a malformed nested stats. */
  method BuildHelperTeams(items: seq<Json>) returns (r: Result<seq<HelperTeams.Team>>)
    ensures FirstError(HelperTeamErrors(items), 0) == (if r.Err? then Some(r.error) else None)
    ensures r.Ok? ==> |r.value| == |items|
    ensures r.Ok? ==> forall k :: 0 <= k < |items| ==> TeamFromDatum(r.value[k], items[k])
  {
    ghost var errs := HelperTeamErrors(items);
    var built: seq<HelperTeams.Team> := [];
    var i := 0;
    while i < |items|
      invariant 0 <= i <= |items|
      invariant FirstError(errs, 0) == FirstError(errs, i)
      invariant |built| == i
      invariant forall k :: 0 <= k < i ==> TeamFromDatum(built[k], items[k])
    {
      var t := BuildHelperTeam(items[i]);
      if t.Err? {
        return Err(t.error);
      }
      TeamsFromDataStep(built, items, t.value);
      built := built + [t.value];
      i := i + 1;
    }
    return Ok(built);
  }

  /** The helper's raw_info for teams, [Team(**datum) for datum in
      website_json]. */
  method HelperRawTeams(data: Json) returns (r: Result<seq<HelperTeams.Team>>)
    ensures HelperRawTeamsError(data) == (if r.Err? then Some(r.error) else None)
    ensures r.Ok? ==> |r.value| == |DataItems(data)|
    ensures r.Ok? ==> forall k :: 0 <= k < |r.value| ==> TeamFromDatum(r.value[k], DataItems(data)[k])
  {
    if data.JArr? {
      r := BuildHelperTeams(data.items);
    } else {
      var e := NonListError(data, TypeError);
      r := if e.Some? then Err(e.value) else Ok([]);
    }
  }

  /** Weekend.from_dict(datum) for one datum: the update of the default
      environment with datum raises first, then the keyword binding and the
      setters of Weekend(**kwargs). */
  ghost function WeekendDatumError(datum: Json, parse: Weekends.Parser): Option<Error>
  {
    match Kwargs.Entries(datum)
    case Err(e) => Some(e)
    case Ok(env) => Weekends.WeekendError(Kwargs.FromDict(Weekends.WeekendSignature, env), parse)
  }

  /** The exception (or None) of Weekend.from_dict(datum) for every datum. */
  ghost function WeekendErrors(items: seq<Json>, parse: Weekends.Parser): (errs: seq<Option<Error>>)
    ensures |errs| == |items|
    ensures forall k :: 0 <= k < |items| ==> errs[k] == WeekendDatumError(items[k], parse)
  {
    seq(|items|, k requires 0 <= k < |items| => WeekendDatumError(items[k], parse))
  }

  /** The exception of the explorer's raw_info for weekends, if any. */
  ghost function ExplorerRawWeekendsError(data: Json, parse: Weekends.Parser): Option<Error>
  {
    if data.JArr? then FirstError(WeekendErrors(data.items, parse), 0) else NonListError(data, ValueError)
  }

  /** w holds the scalars and the weather of what Weekend.from_dict(datum)
      stores: from_dict passes env.get(k) for every declared key k, env being
      the entries datum gives dict.update. */
  ghost predicate WeekendFromDatum(w: Weekends.Weekend, datum: Json)
  {
    && Kwargs.Entries(datum).Ok?
    && var env := Kwargs.Entries(datum).value;
    && w.id == Get(env, "id") && w.name == Get(env, "name")
    && w.circuit == Get(env, "circuit")
    && w.displayedName == Get(env, "displayed_name")
    && w.shortName == Get(env, "short_name")
    && w.position == Get(env, "position") && w.status == Get(env, "status")
    && w.weather == Get(env, "weather")
  }

  lemma WeekendsFromDataStep(built: seq<Weekends.Weekend>, items: seq<Json>, w: Weekends.Weekend)
    requires |built| < |items|
    requires forall k :: 0 <= k < |built| ==> WeekendFromDatum(built[k], items[k])
    requires WeekendFromDatum(w, items[|built|])
    ensures forall k :: 0 <= k < |built| + 1 ==> WeekendFromDatum((built + [w])[k], items[k])
  {
  }

  /** Weekend.from_dict(datum) for one datum. */
  method BuildWeekend(datum: Json, parse: Weekends.Parser) returns (r: Result<Weekends.Weekend>)
    ensures WeekendDatumError(datum, parse) == (if r.Err? then Some(r.error) else None)
    ensures r.Ok? ==> WeekendFromDatum(r.value, datum)
  {
    var env := Kwargs.Entries(datum);
    if env.Err? {
      return Err(env.error);
    }
    r := Weekends.Weekend.FromDict(env.value, parse);
  }

  /** [Weekend.from_dict(datum) for datum in items]: one new Weekend per
      datum, built from the datum's declared keys with None for the absent
      ones. */
  method BuildWeekends(items: seq<Json>, parse: Weekends.Parser) returns (r: Result<seq<Weekends.Weekend>>)
    ensures FirstError(WeekendErrors(items, parse), 0) == (if r.Err? then Some(r.error) else None)
    ensures r.Ok? ==> |r.value| == |items|
    ensures r.Ok? ==> forall k :: 0 <= k < |items| ==> WeekendFromDatum(r.value[k], items[k])
  {
    ghost var errs := WeekendErrors(items, parse);
    var built: seq<Weekends.Weekend> := [];
    var i := 0;
    while i < |items|
      invariant 0 <= i <= |items|
      invariant FirstError(errs, 0) == FirstError(errs, i)
      invariant |built| == i
      invariant forall k :: 0 <= k < i ==> WeekendFromDatum(built[k], items[k])
    {
      var w := BuildWeekend(items[i], parse);
      if w.Err? {
        return Err(w.error);
      }
      WeekendsFromDataStep(built, items, w.value);
      built := built + [w.value];
      i := i + 1;
    }
    return Ok(built);
  }

  /** The explorer's raw_info for weekends, [Weekend.from_dict(datum) for
      datum in website_json]. */
  method ExplorerRawWeekends(data: Json, parse: Weekends.Parser) returns (r: Result<seq<Weekends.Weekend>>)
    ensures ExplorerRawWeekendsError(data, parse) == (if r.Err? then Some(r.error) else None)
    ensures r.Ok? ==> |r.value| == |DataItems(data)|
    ensures r.Ok? ==> forall k :: 0 <= k < |r.value| ==> WeekendFromDatum(r.value[k], DataItems(data)[k])
  {
    if data.JArr? {
      r := BuildWeekends(data.items, parse);
    } else {
      var e := NonListError(data, ValueError);
      r := if e.Some? then Err(e.value) else Ok([]);
    }
  }

  /** The explorer's raw_info for riders, constructors and teams: their
      record classes define no from_dict, so the first datum raises
      AttributeError, and only an empty iterable gives an (empty) list. */
  function ExplorerRawInfoError(data: Json): (r: Option<Error>)
    ensures r.None? <==> DataItems(data) == [] && (data.JArr? || NonListError(data, AttributeError).None?)
    ensures r.Some? ==> r.value == (if data.JArr? || data.JStr? || data.JObj? then AttributeError else TypeError)
  {
    if data.JArr? then (if data.items == [] then None else Some(AttributeError))
    else NonListError(data, AttributeError)
  }

  // ---- slot tables

  /** The sort key of a row from the key of its item; a row without an item
      has NaN there. */
  function ItemKey<R>(key: R -> Option<real>): Tagged<R> -> Option<real>
  {
    (t: Tagged<R>) => if t.item.Some? then key(t.item.value) else None
  }

  /** The sort key of a row from its entity's index label. */
  function EntityKey<R>(ids: seq<Option<real>>): Tagged<R> -> Option<real>
  {
    (t: Tagged<R>) => if t.entity < |ids| then ids[t.entity] else None
  }

  /** pd.concat of the slot frames, ordered by key: concatenating no frame
      at all (no entity has an item) raises ValueError. */
  function SlotTable<R>(groups: seq<seq<R>>, key: Tagged<R> -> Option<real>): (r: Result<seq<Tagged<R>>>)
    ensures r.Err? <==> forall e :: 0 <= e < |groups| ==> groups[e] == []
    ensures r.Err? ==> r.error == ValueError
  {
    if Width(groups) == 0 then
      assert forall e :: 0 <= e < |groups| ==> groups[e] in groups;
      Err(ValueError)
    else
      assert exists e :: 0 <= e < |groups| && |groups[e]| == Width(groups);
      Ok(SortBy(TagAll(groups), key, false))
  }

  /** The table is in ascending key order and holds exactly the tagged
      rows, one per entity and slot. */
  lemma SlotTableSorted<R>(groups: seq<seq<R>>, key: Tagged<R> -> Option<real>)
    requires SlotTable(groups, key).Ok?
    ensures SortedBy(SlotTable(groups, key).value, key, false)
    ensures multiset(SlotTable(groups, key).value) == multiset(TagAll(groups))
    ensures |SlotTable(groups, key).value| == Width(groups) * |groups|
  {
    SortByCorrect(TagAll(groups), key, false);
    TagAllLength(groups);
  }

  /** The item at 0-based position q of entity e's list is in the table,
      tagged q + 1. */
  lemma SlotTableHasItem<R>(groups: seq<seq<R>>, key: Tagged<R> -> Option<real>, e: nat, q: nat)
    requires e < |groups| && q < |groups[e]|
    ensures SlotTable(groups, key).Ok?
    ensures Tagged(e, q + 1, Some(groups[e][q])) in SlotTable(groups, key).value
  {
    assert groups[e] in groups;
    TagAllHasItem(groups, e, q);
    SortByPermutes(TagAll(groups), key, false);
    assert Tagged(e, q + 1, Some(groups[e][q])) in multiset(TagAll(groups));
  }

  /** Every row of the table is the row of its entity for its tag's slot: a
      row tagged t holds the item at position t - 1 of its entity's list, or
      no item when the list is shorter. */
  lemma SlotTableRows<R>(groups: seq<seq<R>>, key: Tagged<R> -> Option<real>, row: Tagged<R>)
    requires SlotTable(groups, key).Ok? && row in SlotTable(groups, key).value
    ensures row.tag <= Width(groups) && InSlot(groups, row)
  {
    SortByPermutes(TagAll(groups), key, false);
    assert row in multiset(SortBy(TagAll(groups), key, false));
    TagAllRows(groups, row);
  }

  /** Weekends.events in both facades: the races of the weekends, slot by
      slot, tagged weekend_event, ordered by event_id. */
  method WeekendEvents<R>(races: seq<seq<R>>, eventId: R -> Option<real>) returns (r: Result<seq<Tagged<R>>>)
    ensures r == SlotTable(races, ItemKey(eventId))
  {
    var rows := TagSlots(races);
    if Width(races) == 0 {
      return Err(ValueError);
    }
    return Ok(SortBy(rows, ItemKey(eventId), false));
  }

  /** The rows of Weekends.events come in ascending event_id, the rows
      without a race last. */
  lemma WeekendEventsOrder<R>(races: seq<seq<R>>, eventId: R -> Option<real>, i: nat, j: nat)
    requires SlotTable(races, ItemKey(eventId)).Ok?
    requires i < j < |SlotTable(races, ItemKey(eventId)).value|
    ensures var rows := SlotTable(races, ItemKey(eventId)).value;
      rows[i].item.Some? && rows[j].item.Some? ==> Precedes(eventId(rows[i].item.value), eventId(rows[j].item.value), false)
    ensures var rows := SlotTable(races, ItemKey(eventId)).value;
      rows[i].item.None? ==> rows[j].item.None? || eventId(rows[j].item.value).None?
  {
    SlotTableSorted(races, ItemKey(eventId));
  }

  /** The helper's history: the events of the entities, slot by slot,
      tagged event_id, ordered by the entities' index. */
  method HelperHistory<R>(events: seq<seq<R>>, ids: seq<Option<real>>) returns (r: Result<seq<Tagged<R>>>)
    ensures r == SlotTable(events, EntityKey(ids))
  {
    var rows := TagSlots(events);
    if Width(events) == 0 {
      return Err(ValueError);
    }
    return Ok(SortBy(rows, EntityKey(ids), false));
  }

  /** The rows of the helper's history come grouped by entity in index
      order, and the row of an entity's event at position q carries
      event_id q + 1. */
  lemma HelperHistoryOrder<R>(events: seq<seq<R>>, ids: seq<Option<real>>, i: nat, j: nat)
    requires |ids| == |events|
    requires SlotTable(events, EntityKey(ids)).Ok?
    requires i < j < |SlotTable(events, EntityKey(ids)).value|
    ensures var rows := SlotTable(events, EntityKey(ids)).value;
      rows[i].entity < |ids| && rows[j].entity < |ids| &&
      Precedes(ids[rows[i].entity], ids[rows[j].entity], false)
    ensures var rows := SlotTable(events, EntityKey(ids)).value;
      rows[i].item.Some? ==> 1 <= rows[i].tag && rows[i].tag - 1 < |events[rows[i].entity]| && rows[i].item.value == events[rows[i].entity][rows[i].tag - 1]
  {
    var rows := SlotTable(events, EntityKey(ids)).value;
    SlotTableSorted(events, EntityKey(ids));
    SlotTableRows(events, EntityKey(ids), rows[i]);
    SlotTableRows(events, EntityKey(ids), rows[j]);
  }

  /** A row of the explorer's history: the identifier of the entity the
      row belongs to (its Rider or Name) and the event, if any. The slot tag
      is not a column there. */
  datatype HistoryRow<R, I> = HistoryRow(who: I, event: Option<R>)

  /** df_events.insert(0, identifier, self.info[identifier]): the index
      aligns each row with its entity's identifier; the tag is dropped. */
  function Identify<R, I>(rows: seq<Tagged<R>>, names: seq<I>): (r: seq<HistoryRow<R, I>>)
    requires forall k :: 0 <= k < |rows| ==> rows[k].entity < |names|
    ensures |r| == |rows|
  {
    seq(|rows|, k requires 0 <= k < |rows| => HistoryRow(names[rows[k].entity], rows[k].item))
  }

  /** Every row of the table belongs to one of the entities and sits in its
      tag's slot. */
  lemma SlotTableEntities<R>(groups: seq<seq<R>>, key: Tagged<R> -> Option<real>)
    requires SlotTable(groups, key).Ok?
    ensures forall k :: 0 <= k < |SlotTable(groups, key).value| ==>
      SlotTable(groups, key).value[k].entity < |groups| && InSlot(groups, SlotTable(groups, key).value[k])
  {
    var rows := SlotTable(groups, key).value;
    forall k | 0 <= k < |rows|
      ensures rows[k].entity < |groups| && InSlot(groups, rows[k])
    {
      SlotTableRows(groups, key, rows[k]);
    }
  }

  /** The explorer's history: the events of the entities, slot by slot,
      ordered by their event_num, each row led by its entity's identifier. */
  function HistoryTable<R, I>(events: seq<seq<R>>, eventNum: R -> Option<real>, names: seq<I>): (r: Result<seq<HistoryRow<R, I>>>)
    requires |names| == |events|
    ensures r.Err? <==> forall e :: 0 <= e < |events| ==> events[e] == []
    ensures r.Err? ==> r.error == ValueError
  {
    match SlotTable(events, ItemKey(eventNum))
    case Err(e) => Err(e)
    case Ok(rows) =>
      SlotTableEntities(events, ItemKey(eventNum));
      Ok(Identify(rows, names))
  }

  /** Every row of the explorer's history names the entity whose event it
      holds, and there is one row per entity and slot. */
  lemma ExplorerHistoryRows<R, I>(events: seq<seq<R>>, eventNum: R -> Option<real>, names: seq<I>, k: nat)
    requires |names| == |events|
    requires HistoryTable(events, eventNum, names).Ok?
    requires k < |HistoryTable(events, eventNum, names).value|
    ensures |HistoryTable(events, eventNum, names).value| == Width(events) * |events|
    ensures var row := HistoryTable(events, eventNum, names).value[k];
      exists e :: 0 <= e < |events| && row.who == names[e] && (row.event.Some? ==> row.event.value in events[e])
  {
    var key := ItemKey(eventNum);
    var rows := SlotTable(events, key).value;
    SlotTableSorted(events, key);
    SlotTableEntities(events, key);
    assert InSlot(events, rows[k]);
    var e := rows[k].entity;
    var row := HistoryTable(events, eventNum, names).value[k];
    assert row == HistoryRow(names[e], rows[k].item);
    if row.event.Some? {
      assert row.event.value == events[e][rows[k].tag - 1];
    }
  }

  /** The explorer's history is ordered by event_num (ascending, NaN last):
      of two rows holding events, the earlier has the smaller event_num,
      and a row without an event is followed only by rows without an
      event_num. */
  lemma HistoryTableSorted<R, I>(events: seq<seq<R>>, eventNum: R -> Option<real>, names: seq<I>, i: nat, j: nat)
    requires |names| == |events|
    requires HistoryTable(events, eventNum, names).Ok?
    requires i < j < |HistoryTable(events, eventNum, names).value|
    ensures var rows := HistoryTable(events, eventNum, names).value;
      rows[i].event.Some? && rows[j].event.Some? ==>
        Precedes(eventNum(rows[i].event.value), eventNum(rows[j].event.value), false)
    ensures var rows := HistoryTable(events, eventNum, names).value;
      rows[i].event.None? ==> rows[j].event.None? || eventNum(rows[j].event.value).None?
  {
    SlotTableSorted(events, ItemKey(eventNum));
  }

  /** The loop of history, then the insertion of the identifier column. */
  method ExplorerHistory<R, I>(events: seq<seq<R>>, eventNum: R -> Option<real>, names: seq<I>)
    returns (r: Result<seq<HistoryRow<R, I>>>)
    requires |names| == |events|
    ensures r == HistoryTable(events, eventNum, names)
  {
    var rows := TagSlots(events);
    if Width(events) == 0 {
      return Err(ValueError);
    }
    var key := ItemKey(eventNum);
    SlotTableEntities(events, key);
    return Ok(Identify(SortBy(rows, key, false), names));
  }

  /** Because every event records its own 1-based position, ordering by
      event_num orders the explorer's history by slot: of two rows with an
      event, the earlier one is from the same or an earlier slot. */
  lemma ExplorerHistoryBySlot<R>(events: seq<seq<R>>, num: R -> int, i: nat, j: nat)
    requires forall e, q :: 0 <= e < |events| && 0 <= q < |events[e]| ==> num(events[e][q]) == q + 1
    requires SlotTable(events, ItemKey(r => Some(num(r) as real))).Ok?
    requires i < j < |SlotTable(events, ItemKey(r => Some(num(r) as real))).value|
    ensures var rows := SlotTable(events, ItemKey(r => Some(num(r) as real))).value;
      rows[i].item.Some? && rows[j].item.Some? ==> rows[i].tag <= rows[j].tag
  {
    var key := ItemKey(r => Some(num(r) as real));
    var rows := SlotTable(events, key).value;
    SlotTableSorted(events, key);
    SlotTableRows(events, key, rows[i]);
    SlotTableRows(events, key, rows[j]);
  }

  /** The explorer's stats rows, ordered descending by Total Fantasy
      Points, NaN last. */
  function StatsRows<T>(rows: seq<T>, points: T -> Option<real>): (r: seq<T>)
    ensures SortedBy(r, points, true)
    ensures multiset(r) == multiset(rows)
  {
    SortByCorrect(rows, points, true);
    SortBy(rows, points, true)
  }
}
