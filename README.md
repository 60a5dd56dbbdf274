# Fantasy MotoGP explorer and helper: record normalizer and facade logic

This project models, in Dafny, the core of the fantasy MotoGP explorer and
its helper. These two dashboards download the game's public JSON feeds once
a day (riders, constructors, squads and race weekends). They turn each raw
JSON object into a typed record and reshape the records into tables. The
model covers three parts:

- **The record normalizer in `data_models`.** These are dataclasses whose
  fields are shadowed by properties, so their setters run when the
  generated `__init__` runs. The model covers:
  - the sparse-map reconstruction of `prices` and `events`. A map keyed
    `"1", "2", …` becomes a list, and the scan stops at the first key that
    is absent or holds a falsy value;
  - the tolerant `from_dict` of `Event` and `Weekend`;
  - the strict `Cls(**kwargs)` construction of every record, with the
    exception each malformed input raises;
  - the derived scalars: the wildcard flag, the cost in millions,
    `team_id` and `short_name`;
  - the nested construction. A rider holds `RiderStats` with
    `RiderEventStats`; a team or constructor holds `Stats` with
    `EventStats`.
- **The facades in the two `fantasy.py` files.** The model covers:
  - the per-day snapshot cache `data/<name>/<YYYYMMDD>.json` over a file
    store and a website object that records its fetches;
  - the `cached_property` memo slots;
  - `raw_info`;
  - the column-header algebra of `info`, `stats`, `history` and `events`:
    strict and tolerant drop, rename, the header humanizer and the
    "Total Points" substitution;
  - the per-slot tagging and ordering of `history` and `events`.

How Python is modelled:
- **JSON.** A decoded value is the `Json` datatype. A float is an exact
  real. An exception is an `Error` value carried in a `Result`.
- **Binding.** Keyword binding of a generated `__init__` is `Kwargs.Bind`
  over a signature. A parameter that a property shadows has the property
  object as its default, so a missing `prices`, `stats`, `start` or
  `is_wildcard` passes that object to its setter. There:
  - `.get` raises AttributeError;
  - `**` and `fromisoformat` raise TypeError;
  - `bool()` gives True.
- **Records with setters are classes.** Each setter is a method that
  changes one backing field. `Build` is `Cls(**kwargs)`, and its contract
  gives the exception it raises, as a ghost function of the keywords, or
  the state it stores (`BuiltFrom`).
- **The setter loops** are `Sparse.CollectValues` and
  `Sparse.CollectRecords`. Each is proved equal to a recursive reference
  definition, whose properties are proved as lemmas.
- **Tables** are sequences of column labels. The rows of `history` and
  `events` are `Tagging.Tagged` values: entity, 1-based slot tag, and an
  item or none. A slot that an entity lacks gives a row with no item.
  Sorting is an insertion sort that puts a missing key (NaN) last in
  either direction.

Modelling notes, each on what the code does:
- **Sort ties.** The stats and history sorts use pandas' default sort,
  which is not stable. The model fixes one admissible order among equal
  keys and proves only sortedness and permutation.
- **Corrupt snapshot file.** A snapshot file that does not decode is not
  treated as a cache miss: the decode error propagates, and so it does in
  `Snapshot.Source.WebsiteJson`.
- **Constructor cost.** Only the explorer's `Team` converts its cost to
  millions; a `Constructor` keeps the raw integer.
- **Helper history order.** The helper orders its history by the entity
  index (`sort_index`); only the explorer sorts by `event_num`.
- **Weather.** `Weekend.from_dict` passes None for an absent `weather`,
  so the field's `{}` default never applies.
- **Wildcard flag.** The flag is `bool(x)`, so any truthy value, or a
  missing keyword (the property object), gives True.
- **Explorer `raw_info`.** It calls `from_dict` for every kind, but only
  `Weekend` and `Event` define it. For riders, constructors and teams the
  first datum raises AttributeError (`Facades.ExplorerRawInfoError`).
- **Explorer `info`.** It drops `_cost_millions` strictly, and only the
  explorer's `Team` has that column. `Columns.ExplorerInfo` therefore
  gives KeyError for riders and constructors.
- **`from_dict` on a datum that is not a dict.** `default_env.update(datum)`
  accepts any iterable of key/value pairs. `Kwargs.Update` models it: a
  list of two-item lists binds like a dict, a non-empty string raises
  ValueError, and a number, boolean or None raises TypeError.

## Model

| member | source | states |
|---|---|---|
| DecimalKeys.ParseKey | fantasy_motogp_helper/data_models/common.py:39 | int(str(i)) == i: the key str(i) names position i |
| DecimalKeys.KeyInjective | fantasy_motogp_helper/data_models/common.py:39 | distinct positions are looked up under distinct keys |
| DecimalKeys.KeyWithinBound | fantasy_motogp_helper/data_models/common.py:38-43 | a map holding key str(i) names a position of at least i, so the scan is bounded by the map |
| Kwargs.Bind | fantasy_motogp_helper/data_models/common.py:14-28 | cls(**kwargs) binds iff every keyword is a parameter and every parameter without a default is given (TypeError otherwise); each parameter gets its keyword or its default |
| Kwargs.BindWith | fantasy_motogp_helper/data_models/common.py:58 | cls(event_num=i, **x) needs a mapping whose keys do not repeat event_num, else TypeError |
| Kwargs.FromDict | fantasy_motogp_explorer/data_models/weekends.py:17-21 | the keywords from_dict passes are exactly the declared parameters: env's value where env has the key, None elsewhere, undeclared keys dropped |
| Kwargs.FromDictBinds | fantasy_motogp_explorer/data_models/weekends.py:57-61 | from_dict always binds and passes env.get(p) for every parameter p, never a declared default |
| Kwargs.UpdateEntry | fantasy_motogp_explorer/data_models/weekends.py:60 | an element of a non-mapping update must be a two-item sequence (ValueError otherwise, TypeError when not iterable or when its key is a list or dict); a [key, value] list with a string key and a two-character string give their entry |
| Kwargs.UpdatePairs | fantasy_motogp_explorer/data_models/weekends.py:60 | a sequence update succeeds iff every element gives an entry, and keeps every key already present |
| Kwargs.Update | fantasy_motogp_explorer/data_models/weekends.py:59-60 | dict.update: a dict writes its entries; a list its elements' entries in order; a string raises ValueError unless empty; a number, boolean or None raises TypeError |
| Kwargs.Entries | fantasy_motogp_explorer/data_models/weekends.py:59-60 | a dict datum gives exactly its own entries |
| Kwargs.UpdateOver | fantasy_motogp_explorer/data_models/weekends.py:59-60 | updating any environment fails iff the datum has no entries, with the same exception, and otherwise writes the datum's entries over it: from_dict of a datum is FromDict of its entries |
| Kwargs.UpdatePairsOver | fantasy_motogp_explorer/data_models/weekends.py:60 | a sequence update writes the same entries over any environment |
| Kwargs.UpdatePairsErrorsAgree | fantasy_motogp_explorer/data_models/weekends.py:60 | a failing sequence update raises the same exception whatever it starts from |
| Kwargs.UpdateItemPairs | fantasy_motogp_explorer/data_models/weekends.py:60 | writing the [k, d[k]] pairs of listed keys over env gives env overwritten by d's listed entries, whatever their order or repetition |
| Kwargs.EntriesOfItemPairs | fantasy_motogp_explorer/data_models/weekends.py:60 | a list of a dict's item pairs naming every key gives the same entries as the dict itself |
| Kwargs.AllRequired | fantasy_motogp_helper/data_models/common.py:4-11 | the signature of a record whose fields all lack defaults: every field is required |
| Kwargs.BindsAllRequired | fantasy_motogp_helper/data_models/common.py:4-11 | such a record binds iff the keywords are exactly its fields |
| Kwargs.GetTarget | fantasy_motogp_helper/data_models/common.py:39 | .get needs a dict; anything else, the property object included, raises AttributeError |
| Kwargs.StarTarget | fantasy_motogp_explorer/data_models/riders.py:98-100 | Cls(**x) needs a mapping; anything else, the property object included, raises TypeError |
| Kwargs.BindWithPosition | fantasy_motogp_helper/data_models/common.py:58 | EventStats(event_num=i, **raw) binds iff raw is a mapping whose keys are exactly the other fields |
| Kwargs.DataclassSignature | fantasy_motogp_helper/data_models/common.py:14-28 | a dataclass's parameters: plain fields required, property-shadowed fields defaulting to the property object, factory fields to the factory's value |
| Kwargs.BindsDataclass | fantasy_motogp_helper/data_models/common.py:14-28 | a dataclass binds iff every plain field is named and nothing undeclared is |
| Kwargs.BindDataclass | fantasy_motogp_helper/data_models/common.py:25-26 | when it binds, a property-shadowed field receives its keyword or the property object, a factory field its keyword or the factory value |
| Sparse.SparseFromSpec | fantasy_motogp_helper/data_models/common.py:36-43 | from position i the scan collects str(i), str(i+1), … while truthy and stops at the first key that is absent or falsy |
| Sparse.SparseValuesIsPrefix | fantasy_motogp_helper/data_models/common.py:34-44 | prices are the values at "1".."k" in order, all truthy, and "k+1" is absent or falsy |
| Sparse.SparsePrefixUnique | fantasy_motogp_helper/data_models/common.py:34-44 | exactly one list has that property, so it determines the stored prices |
| Sparse.SparseValuesTruthy | fantasy_motogp_helper/data_models/common.py:40-42 | every stored value is truthy: a price of 0 ends the series as a missing key does |
| Sparse.SparseValuesIgnoresTail | fantasy_motogp_helper/data_models/common.py:38-41 | keys past the first gap are never read: maps agreeing on "1".."k+1" give the same list |
| Sparse.CollectValues | fantasy_motogp_helper/data_models/common.py:36-44 | the while-True loop returns exactly the contiguous truthy prefix |
| Sparse.SparseRecordsAligned | fantasy_motogp_helper/data_models/common.py:50-60 | on success there is one record per value of the series, and record j is built from the value at str(j+1) with position j+1 |
| Sparse.SparseRecordsFailure | fantasy_motogp_helper/data_models/common.py:54-58 | a failure is the failure of building an entry the scan reaches, at that entry's position |
| Sparse.CollectRecords | fantasy_motogp_helper/data_models/common.py:52-60 | the events loop returns the records of the series, or the first entry's exception |
| Common.BuildEventStats | fantasy_motogp_helper/data_models/common.py:4-11 | an event binds iff the raw entry is a mapping with exactly the payload keys (its own event_num rejected); event_num is the position and every other field is copied |
| Common.StatsBinds | fantasy_motogp_helper/data_models/common.py:14-28 | Stats(**kwargs) binds iff every scalar is named and nothing undeclared is |
| Common.Stats.Scalars | fantasy_motogp_helper/data_models/common.py:14-24 | the generated __init__ stores every scalar keyword in its field |
| Common.Stats.SetPrices | fantasy_motogp_helper/data_models/common.py:34-44 | the prices setter stores the sparse values of the dict, or raises AttributeError without storing |
| Common.Stats.SetEvents | fantasy_motogp_helper/data_models/common.py:50-60 | the events setter stores the built events, or raises the first entry's exception without storing |
| Common.Stats.Build | fantasy_motogp_helper/data_models/common.py:14-28 | Stats(**kwargs) raises exactly the exception of binding, then the prices setter, then the events setter; otherwise the new record holds the scalars and both lists |
| Common.EventsNumberedByPosition | fantasy_motogp_helper/data_models/common.py:50-60 | the event at index j has event_num j+1 and copies the raw entry at str(j+1) field for field |
| Common.EventNumbersIncrease | fantasy_motogp_helper/data_models/common.py:50-60 | event numbers strictly increase along the list |
| Common.EventsRejectMalformedEntry | fantasy_motogp_helper/data_models/common.py:58 | the events setter fails iff some entry of the series lacks a field, has an extra one or is no mapping, and then raises TypeError |
| Riders.BuildRiderEventStats | fantasy_motogp_explorer/data_models/riders.py:4-21 | a rider event binds iff the raw entry has exactly the payload keys; its event_num is the position |
| Riders.RiderEventCopiesFields | fantasy_motogp_explorer/data_models/riders.py:73 | a built rider event copies every payload field of its raw entry |
| Riders.RiderStatsBinds | fantasy_motogp_explorer/data_models/riders.py:24-43 | RiderStats(**kwargs) binds iff every scalar is named and nothing undeclared is |
| Riders.RiderStats.Scalars | fantasy_motogp_explorer/data_models/riders.py:24-39 | the generated __init__ stores every scalar keyword in its field |
| Riders.RiderStats.SetPrices | fantasy_motogp_explorer/data_models/riders.py:49-59 | the prices setter stores the sparse values, or raises AttributeError |
| Riders.RiderStats.SetEvents | fantasy_motogp_explorer/data_models/riders.py:65-75 | the events setter stores the built rider events, or raises the first entry's exception |
| Riders.RiderStats.Build | fantasy_motogp_explorer/data_models/riders.py:24-43 | RiderStats(**kwargs) raises exactly the binding, prices or events exception; otherwise the record holds the scalars and both lists |
| Riders.RiderEventsNumberedByPosition | fantasy_motogp_explorer/data_models/riders.py:65-75 | the rider events are numbered exactly 1..k by position, each built from the raw entry at the same position |
| Riders.Rider.Scalars | fantasy_motogp_explorer/data_models/riders.py:78-92 | the generated __init__ stores the rider's scalar keywords |
| Riders.Rider.SetStats | fantasy_motogp_explorer/data_models/riders.py:98-100 | the stats setter builds a new RiderStats from the dict, so the sparse reconstruction applies to it, or raises its exception |
| Riders.Rider.TeamId | fantasy_motogp_explorer/data_models/riders.py:104-106 | team_id equals squad_id |
| Riders.Rider.ShortName | fantasy_motogp_explorer/data_models/riders.py:108-110 | short_name succeeds iff first_name is a non-empty string or list and last_name a string or list; on strings it is the upper-cased initial, a space and the first three characters of the last name, of length 2 + min(3, \|last\|); a list first name gives its whole first item, a list last name its first three items; an empty string or list raises IndexError, a dict first name KeyError, anything else TypeError |
| Text.UpperAppend | fantasy_motogp_explorer/data_models/riders.py:110 | str.upper of a formatted string is the concatenation of the upper-cased parts |
| Riders.Rider.Build | fantasy_motogp_explorer/data_models/riders.py:78-100 | Rider(**kwargs) raises exactly the binding or nested RiderStats exception; otherwise it stores the scalars and a RiderStats built from the stats dict |
| Weekends.ParseArg | fantasy_motogp_explorer/data_models/weekends.py:27-29 | fromisoformat accepts only a parsable string: ValueError for another string, TypeError for a non-string or the property object |
| Weekends.EventBinds | fantasy_motogp_explorer/data_models/weekends.py:6-15 | Event(**kwargs) binds iff every scalar is named and nothing undeclared is |
| Weekends.Event.Start | fantasy_motogp_explorer/data_models/weekends.py:23-25 | the start getter returns the stored instant, AttributeError before the setter ran |
| Weekends.Event.End | fantasy_motogp_explorer/data_models/weekends.py:31-33 | the end getter returns the stored instant, AttributeError before the setter ran |
| Weekends.Event.Scalars | fantasy_motogp_explorer/data_models/weekends.py:6-15 | the generated __init__ stores id, type, status and is_race2 |
| Weekends.Event.SetStart | fantasy_motogp_explorer/data_models/weekends.py:27-29 | after the setter the getter returns the parse of the given string; a failed parse stores nothing |
| Weekends.Event.SetEnd | fantasy_motogp_explorer/data_models/weekends.py:35-37 | after the setter the getter returns the parse of the given string; a failed parse stores nothing |
| Weekends.Event.Build | fantasy_motogp_explorer/data_models/weekends.py:6-15 | Event(**kwargs) raises exactly the binding, start or end exception; otherwise it holds the scalars and both parses |
| Weekends.Event.FromDict | fantasy_motogp_explorer/data_models/weekends.py:17-21 | Event.from_dict builds from the declared keys of env, with None for the absent ones |
| Weekends.RaceItems | fantasy_motogp_explorer/data_models/weekends.py:83-85 | the raw races are a list's items, and nothing for an empty string or dict |
| Weekends.BuildEvents | fantasy_motogp_explorer/data_models/weekends.py:85 | [Event(**race) for race in races] gives one new Event per race, in order, built strictly from that race, or the first race's exception |
| Weekends.WeekendBinds | fantasy_motogp_explorer/data_models/weekends.py:40-55 | Weekend(**kwargs) binds iff every scalar is named and nothing undeclared is (weather is optional) |
| Weekends.Weekend.Start | fantasy_motogp_explorer/data_models/weekends.py:63-65 | the start getter returns the stored instant |
| Weekends.Weekend.End | fantasy_motogp_explorer/data_models/weekends.py:71-73 | the end getter returns the stored instant |
| Weekends.Weekend.Races | fantasy_motogp_explorer/data_models/weekends.py:79-81 | the races getter returns the stored events |
| Weekends.Weekend.Scalars | fantasy_motogp_explorer/data_models/weekends.py:40-52 | the generated __init__ stores the scalars, and the weather keyword or {} when it is absent |
| Weekends.Weekend.SetStart | fantasy_motogp_explorer/data_models/weekends.py:67-69 | after the setter the getter returns the parse of the given string |
| Weekends.Weekend.SetEnd | fantasy_motogp_explorer/data_models/weekends.py:75-77 | after the setter the getter returns the parse of the given string |
| Weekends.Weekend.SetRaces | fantasy_motogp_explorer/data_models/weekends.py:83-85 | the races setter stores one new Event per raw race in order, an empty list for an empty string or dict, or raises without storing |
| Weekends.Weekend.Build | fantasy_motogp_explorer/data_models/weekends.py:40-55 | Weekend(**kwargs) raises exactly the binding, start, end or races exception; otherwise it holds what the keywords give |
| Weekends.Weekend.FromDict | fantasy_motogp_explorer/data_models/weekends.py:57-61 | Weekend.from_dict builds from the declared keys with None for absent ones, so an absent weather is None, not {} |
| Teams.RoundHalfEven | fantasy_motogp_explorer/data_models/teams.py:41 | round() gives an integer within 1/2, exact on integers, and the even neighbour on a tie |
| Teams.AsFloat | fantasy_motogp_explorer/data_models/teams.py:41 | float() of an int, float or bool is its value; a string raises ValueError, anything else TypeError |
| Teams.CostInMillions | fantasy_motogp_explorer/data_models/teams.py:39-41 | the cost getter gives a whole number of hundredths within 0.005 of micros / 10^6, or float()'s exception |
| Teams.CostExact | fantasy_motogp_explorer/data_models/teams.py:39-41 | a cost that is a multiple of 10,000 micros reads back exactly |
| Teams.WildcardFlag | fantasy_motogp_explorer/data_models/teams.py:27-29 | is_wildcard is true iff the raw integer is nonzero (None false, the property object true) |
| Teams.TeamBinds | fantasy_motogp_explorer/data_models/teams.py:11-21 | Team(**kwargs) binds iff id, name and num_riders are named and nothing undeclared is |
| Teams.Team.Scalars | fantasy_motogp_explorer/data_models/teams.py:11-21 | the generated __init__ stores the scalars, the wildcard flag and the raw cost |
| Teams.Team.SetIsWildcard | fantasy_motogp_explorer/data_models/teams.py:27-29 | the stored flag is the bool of the argument |
| Teams.Team.SetCost | fantasy_motogp_explorer/data_models/teams.py:43-45 | the cost setter stores the raw micros unchanged, and the getter then reads their conversion |
| Teams.Team.Cost | fantasy_motogp_explorer/data_models/teams.py:39-41 | reading cost changes nothing and is within 0.005 of the stored micros in millions |
| Teams.Team.SetStats | fantasy_motogp_explorer/data_models/teams.py:35-37 | the stats setter builds a new TeamStats (a Stats) from the dict, or raises its exception |
| Teams.Team.Build | fantasy_motogp_explorer/data_models/teams.py:11-21 | Team(**kwargs) raises exactly the binding or nested stats exception; otherwise it stores the scalars, flag, raw cost and stats |
| HelperTeams.HelperTeamBinds | fantasy_motogp_helper/data_models/teams.py:11-20 | Team(**kwargs) binds iff id, name, num_riders and cost are named and nothing undeclared is |
| HelperTeams.Team.Scalars | fantasy_motogp_helper/data_models/teams.py:11-20 | the generated __init__ stores the scalars, the raw cost and the wildcard flag |
| HelperTeams.Team.IsWildcard | fantasy_motogp_helper/data_models/teams.py:22-24 | the getter returns the stored flag |
| HelperTeams.Team.SetIsWildcard | fantasy_motogp_helper/data_models/teams.py:26-28 | after the setter the getter returns the bool of the argument |
| HelperTeams.Team.SetStats | fantasy_motogp_helper/data_models/teams.py:34-36 | the stats setter builds a new TeamStats from the dict, or raises its exception |
| HelperTeams.Team.Build | fantasy_motogp_helper/data_models/teams.py:11-20 | Team(**kwargs) raises exactly the binding or stats exception; otherwise the cost is stored as given |
| Constructors.ConstructorBinds | fantasy_motogp_explorer/data_models/constructors.py:11-18 | Constructor(**kwargs) binds iff id, name, cost and num_riders are named and nothing undeclared is |
| Constructors.Constructor.Scalars | fantasy_motogp_explorer/data_models/constructors.py:11-18 | the generated __init__ stores id, name, cost and num_riders unchanged |
| Constructors.Constructor.StatsValue | fantasy_motogp_explorer/data_models/constructors.py:20-22 | the stats getter returns the stored stats, AttributeError before the setter ran |
| Constructors.Constructor.SetStats | fantasy_motogp_explorer/data_models/constructors.py:24-26 | the stats setter builds a new ConstructorStats (a Stats) from the dict, or raises its exception |
| Constructors.Constructor.Build | fantasy_motogp_explorer/data_models/constructors.py:11-18 | Constructor(**kwargs) raises exactly the binding or stats exception; otherwise the raw cost and the stats are stored |
| Text.UpperProperties | fantasy_motogp_explorer/data_models/riders.py:110 | str.upper keeps the length, leaves no lower-case letter and non-letters alone, and is idempotent |
| Text.TitleLetters | fantasy_motogp_explorer/fantasy.py:107 | str.title keeps the length and which characters are letters |
| Text.TitleWords | fantasy_motogp_explorer/fantasy.py:107 | every word of a title-cased string starts upper-case and continues lower-case |
| Text.TitleIdempotent | fantasy_motogp_explorer/fantasy.py:107 | title-casing twice changes nothing more |
| Text.ReplaceChar | fantasy_motogp_explorer/fantasy.py:107 | replace("_", " ") maps the string character by character |
| Text.ReplaceGpRemovesGp | fantasy_motogp_explorer/fantasy.py:107 | after replace("Gp", "GP") no "Gp" is left and the length is kept |
| Text.HumanizeProperties | fantasy_motogp_explorer/fantasy.py:126 | a humanized header keeps the name's length and has no underscore; the stats humanizer leaves no "Gp" |
| Columns.Without | fantasy_motogp_helper/fantasy.py:83 | a drop keeps, in order, exactly the columns whose label is not dropped |
| Columns.WithoutAppend | fantasy_motogp_explorer/fantasy.py:105 | a drop works column by column: dropping from a + b drops from a, then from b, so the kept columns stay in order |
| Columns.WithoutCount | fantasy_motogp_explorer/fantasy.py:105 | a drop removes every copy of a dropped label and keeps every copy of any other label |
| Columns.WithoutNothing | fantasy_motogp_explorer/fantasy.py:105 | a drop naming no present column changes nothing |
| Columns.CountPositive | fantasy_motogp_explorer/fantasy.py:109-111 | a label is present exactly when it is counted |
| Columns.DropStrict | fantasy_motogp_explorer/fantasy.py:77 | a strict drop succeeds iff every label is a column (KeyError otherwise) and removes exactly those labels |
| Columns.DropIgnore | fantasy_motogp_explorer/fantasy.py:105 | drop(errors="ignore") removes exactly the named labels that are present |
| Columns.Rename | fantasy_motogp_explorer/fantasy.py:77-90 | rename relabels each column the map names and leaves the others; absent keys are ignored |
| Columns.RenameAbsent | fantasy_motogp_explorer/fantasy.py:77-90 | a rename whose keys are all absent changes nothing |
| Columns.RenameCount | fantasy_motogp_explorer/fantasy.py:110 | renaming from into an absent label gives as many of the new label as there were of the old |
| Columns.RenameCounts | fantasy_motogp_explorer/fantasy.py:202 | after renaming from into to, the to columns are the old from and to columns, no from column is left, and every other label keeps its count |
| Columns.RenameOne | fantasy_motogp_explorer/fantasy.py:186 | after renaming from into to, a label is present iff it was and is not from, or it is to and from was present |
| Columns.HumanizeStatsAll | fantasy_motogp_explorer/fantasy.py:107 | the stats header humanizes every column in place |
| Columns.HumanizeHistoryAll | fantasy_motogp_explorer/fantasy.py:126 | the history header humanizes every column in place, without the GP step |
| Columns.Identifier | fantasy_motogp_explorer/fantasy.py:101 | the identifier is "Rider" iff info has a Rider column, else "Name" |
| Columns.ExplorerInfo | fantasy_motogp_explorer/fantasy.py:76-91 | info succeeds iff stats, _stats and _cost_millions are all columns, else KeyError |
| Columns.ExplorerInfoColumns | fantasy_motogp_explorer/fantasy.py:77-90 | after info every kept column appears under its new label or unchanged, and nothing else appears |
| Columns.ExplorerTeamInfo | fantasy_motogp_explorer/fantasy.py:166-168 | team info additionally needs and removes _is_wildcard, else KeyError |
| Columns.ExplorerStats | fantasy_motogp_explorer/fantasy.py:99-112 | KeyError unless info has the identifier and "Cost $M", ValueError when the stats repeat either; then the columns are the humanized identifier, "Cost $M" and the humanized stats without the list fields, any "Total Fantasy Points" dropped and "Total Points" renamed into it, and sort_values succeeds iff exactly one "Total Fantasy Points" is left (KeyError with none, ValueError with several) |
| Columns.ExplorerStatsSplit | fantasy_motogp_explorer/fantasy.py:102-111 | the identifier and "Cost $M" lead the stats columns untouched by the list-field drop, the humanizer, the tolerant drop and the rename |
| Columns.ExplorerStatsTotal | fantasy_motogp_explorer/fantasy.py:108-112 | past the join, stats succeeds iff exactly one humanized header reads "Total Points", since an existing "Total Fantasy Points" is dropped first |
| Columns.TotalPointsKept | fantasy_motogp_explorer/fantasy.py:109 | dropping "Total Fantasy Points" keeps every "Total Points" |
| Columns.ExplorerHistory | fantasy_motogp_explorer/fantasy.py:123-126 | sort_values("event_num") raises KeyError without an event_num column and ValueError with several; then info[identifier] raises KeyError when info lacks the identifier, and insert raises ValueError when info repeats it or an event column has it; otherwise the humanized identifier leads the humanized event columns |
| Columns.HelperInfo | fantasy_motogp_helper/fantasy.py:81-83 | helper info succeeds iff stats and _stats are columns, and removes exactly them |
| Columns.HelperStats | fantasy_motogp_helper/fantasy.py:91-93 | helper stats succeeds iff prices, _prices, events and _events are columns, and removes exactly them |
| Columns.HelperRiderBasicInfo | fantasy_motogp_helper/fantasy.py:135-137 | rider basic_info succeeds iff the info drops and squad_id, constructor_id and team_id succeed, and removes exactly those |
| Columns.HelperTeamInfo | fantasy_motogp_helper/fantasy.py:159-161 | team info additionally needs and removes _is_wildcard |
| Columns.HelperTeamBasicInfo | fantasy_motogp_helper/fantasy.py:163-165 | team basic_info additionally needs and removes is_wildcard |
| Columns.WeekendInfo | fantasy_motogp_explorer/fantasy.py:183-189 | weekend info needs the five dropped columns (KeyError otherwise), renames position to number and appends the weather columns |
| Columns.WeekendEventColumns | fantasy_motogp_explorer/fantasy.py:191-202 | KeyError unless the events have _start and _end; then sort_values("event_id") raises KeyError with no id or event_id column and ValueError with several, so it succeeds iff there is exactly one; the columns are those of the events without _start, _end and id, plus weekend_event and event_id, with weekend_event once or as often as the events already had it |
| Columns.WeekendEventCounts | fantasy_motogp_explorer/fantasy.py:196-202 | through the assignment, the drop and the rename, event_id is counted once per id or event_id column of the events, and weekend_event is not duplicated |
| Columns.WeekendEventMembers | fantasy_motogp_explorer/fantasy.py:196-202 | the labels of the events columns are those of the events but _start, _end and id, with weekend_event, and event_id when id was there |
| Columns.AppendAbsentCount | fantasy_motogp_explorer/fantasy.py:198 | setting a column that is absent adds exactly one column of that label; setting a present one adds none |
| Columns.DropRenameCounts | fantasy_motogp_explorer/fantasy.py:201-202 | after a drop and a rename of from into to, neither dropped, the to columns are the kept from and to columns and every other kept label keeps its count |
| Tagging.Width | fantasy_motogp_helper/fantasy.py:97-100 | the number of slot columns is the length of the longest list |
| Tagging.SlotFrame | fantasy_motogp_helper/fantasy.py:101-103 | a slot frame has one row per entity, in index order, with the entity's item at that slot, if any |
| Tagging.SlotRows | fantasy_motogp_helper/fantasy.py:101-103 | the frame built row by row is the slot frame, tagged slot + 1 |
| Tagging.TagSlots | fantasy_motogp_helper/fantasy.py:99-105 | the loop over the slot columns appends every slot's frame in slot order |
| Tagging.TagAllLength | fantasy_motogp_helper/fantasy.py:99-105 | the concatenation has width × entities rows |
| Tagging.TagAllAt | fantasy_motogp_helper/fantasy.py:99-105 | the row of entity e at slot q sits at q·n + e and carries that entity's item at q |
| Tagging.TagAllHasItem | fantasy_motogp_helper/fantasy.py:99-105 | every item of every list is present, tagged with its 1-based position |
| Tagging.TagAllRows | fantasy_motogp_helper/fantasy.py:99-105 | every row's tag is 1..width, and its item is the entity's item at tag − 1 |
| Tagging.TagMatchesPosition | fantasy_motogp_explorer/fantasy.py:119-123 | when every event records its own position, the tag of a row equals that event's number |
| Ordering.PrecedesTotal | fantasy_motogp_explorer/fantasy.py:111 | the sort order (NaN last) relates every two keys |
| Ordering.PrecedesTransitive | fantasy_motogp_explorer/fantasy.py:111 | the sort order is transitive |
| Ordering.Insert | fantasy_motogp_explorer/fantasy.py:111 | inserting adds exactly the row |
| Ordering.InsertSorted | fantasy_motogp_explorer/fantasy.py:111 | inserting into sorted rows keeps them sorted |
| Ordering.SortByCorrect | fantasy_motogp_explorer/fantasy.py:111 | sorting gives the rows in key order, as a permutation of the input |
| Ordering.SortByOrdered | fantasy_motogp_explorer/fantasy.py:111 | sorted rows are in key order |
| Ordering.SortByPermutes | fantasy_motogp_explorer/fantasy.py:111 | sorting neither adds nor loses a row |
| Ordering.SortBySorted | fantasy_motogp_explorer/fantasy.py:111 | rows already in order are left as they are |
| Facades.NonListError | fantasy_motogp_explorer/fantasy.py:58 | a comprehension over a non-list succeeds only for an empty string or dict; a non-empty one raises the per-datum error, anything else TypeError |
| Facades.DataItems | fantasy_motogp_explorer/fantasy.py:58 | the data a successful comprehension built from: a list's items, nothing otherwise |
| Facades.FirstErrorIsFirst | fantasy_motogp_helper/fantasy.py:64 | a comprehension succeeds iff no datum raises, and otherwise raises the earliest datum's exception |
| Facades.HelperTeamErrors | fantasy_motogp_helper/fantasy.py:64 | the exception (or none) of Team(**datum) for every datum |
| Facades.BuildHelperTeam | fantasy_motogp_helper/fantasy.py:64 | Team(**datum) for one datum raises its exception or holds the datum's fields |
| Facades.BuildHelperTeams | fantasy_motogp_helper/fantasy.py:64 | the comprehension builds one team per datum, in order, or raises the first datum's exception |
| Facades.HelperRawTeams | fantasy_motogp_helper/fantasy.py:62-64 | the helper's raw_info for teams: strict construction from every datum of website_json |
| Facades.WeekendErrors | fantasy_motogp_explorer/fantasy.py:58 | the exception (or none) of Weekend.from_dict(datum) for every datum: that of dict.update(datum), then those of binding and the setters |
| Facades.BuildWeekend | fantasy_motogp_explorer/fantasy.py:58 | Weekend.from_dict(datum) raises the update's or Weekend's exception, or holds env.get of every declared scalar and of weather, env being the entries the datum gives dict.update |
| Facades.BuildWeekends | fantasy_motogp_explorer/fantasy.py:58 | the comprehension builds one weekend per datum, in order, or raises the first datum's exception |
| Facades.ExplorerRawWeekends | fantasy_motogp_explorer/fantasy.py:56-58 | raw_info for weekends: over a list, the first failing datum's exception or one weekend per datum; a non-empty string or dict website_json raises ValueError (its first datum is a string), a number, boolean or None TypeError, and an empty string or dict gives no weekends |
| Facades.ExplorerRawInfoError | fantasy_motogp_explorer/fantasy.py:56-58 | for riders, constructors and teams raw_info succeeds only on empty data; otherwise AttributeError (no from_dict), or TypeError for a non-iterable |
| Facades.SlotTable | fantasy_motogp_helper/fantasy.py:105 | concatenating no frame (no entity has an item) raises ValueError |
| Facades.SlotTableSorted | fantasy_motogp_helper/fantasy.py:105-106 | the table is in key order, a permutation of the tagged rows, with width × entities rows |
| Facades.SlotTableHasItem | fantasy_motogp_helper/fantasy.py:99-106 | every item of every list is in the table, tagged with its 1-based position |
| Facades.SlotTableRows | fantasy_motogp_helper/fantasy.py:99-106 | every row of the table holds its entity's item at its tag − 1, or none past the end |
| Facades.WeekendEvents | fantasy_motogp_explorer/fantasy.py:191-202 | events builds the slot table of the weekends' races, tagged weekend_event, ordered by event_id |
| Facades.WeekendEventsOrder | fantasy_motogp_explorer/fantasy.py:202 | the event rows come in ascending event_id, rows without a race last |
| Facades.HelperHistory | fantasy_motogp_helper/fantasy.py:95-106 | the helper's history builds the slot table of the events, tagged event_id, ordered by entity index |
| Facades.HelperHistoryOrder | fantasy_motogp_helper/fantasy.py:102-106 | the history rows are grouped by entity in index order, and a row tagged t holds the entity's event at t − 1 |
| Facades.SlotTableEntities | fantasy_motogp_helper/fantasy.py:99-106 | every row of the table belongs to one of the entities and sits in the slot of its tag |
| Facades.HistoryTable | fantasy_motogp_explorer/fantasy.py:114-127 | the explorer's history raises ValueError iff no entity has an event (pd.concat of no frame) |
| Facades.HistoryTableSorted | fantasy_motogp_explorer/fantasy.py:123 | sort_values("event_num") orders the history: of two rows with events the earlier has the smaller or equal event_num, and a row without an event is followed only by rows without an event_num |
| Facades.ExplorerHistoryRows | fantasy_motogp_explorer/fantasy.py:123-125 | every history row carries the identifier of the entity whose event it holds, with one row per entity and slot |
| Facades.ExplorerHistory | fantasy_motogp_explorer/fantasy.py:114-127 | the loop, the sort by event_num and the inserted identifier column give exactly the history table |
| Facades.ExplorerHistoryBySlot | fantasy_motogp_explorer/fantasy.py:123 | as every event records its own position, ordering by event_num orders the rows by slot |
| Facades.StatsRows | fantasy_motogp_explorer/fantasy.py:111 | the stats rows are ordered descending by Total Fantasy Points, NaN last, as a permutation |
| Snapshot.Pad | fantasy_motogp_explorer/fantasy.py:40 | zero-padding gives exactly w decimal digits |
| Snapshot.ReadPad | fantasy_motogp_explorer/fantasy.py:40 | padded digits read back as the number |
| Snapshot.Stamp | fantasy_motogp_explorer/fantasy.py:40 | the date stamp is eight decimal digits |
| Snapshot.StampRoundTrip | fantasy_motogp_explorer/fantasy.py:40 | the stamp reads back as its day |
| Snapshot.SnapshotPath | fantasy_motogp_explorer/fantasy.py:41-44 | the snapshot file lies in data/<name>/ |
| Snapshot.PathRoundTrip | fantasy_motogp_explorer/fantasy.py:41-44 | the path holds the name between "data/" and the stamp, and the stamp before ".json" |
| Snapshot.PathInjective | fantasy_motogp_explorer/fantasy.py:41-44 | two sources or two days never share a snapshot file |
| Snapshot.Website.Get | fantasy_motogp_explorer/fantasy.py:51 | a fetch records its URL and returns what the website serves |
| Snapshot.HitKeepsFiles | fantasy_motogp_explorer/fantasy.py:45-48 | on a hit nothing is written and the stored value is returned |
| Snapshot.MissThenHit | fantasy_motogp_explorer/fantasy.py:49-54 | a successful miss returns the fetched value and writes it, so a later read the same day hits and returns it again |
| Snapshot.SnapshotsIsolated | fantasy_motogp_explorer/fantasy.py:41-54 | a read of one source's snapshot leaves every other source's and day's file as it was |
| Snapshot.Source.constructor | fantasy_motogp_explorer/fantasy.py:24-32 | a facade records its URL, name and record class, with nothing cached |
| Snapshot.Source.WebsiteJson | fantasy_motogp_explorer/fantasy.py:38-54 | the first successful read makes the directory, returns the file on a hit and fetches once, writes and returns on a miss, then keeps the value; later reads touch neither store nor website; a failure keeps nothing |
| Snapshot.FantasyStats.Riders | fantasy_motogp_explorer/fantasy.py:211-213 | riders is built once, as the "rider" facade, and returned afterwards |
| Snapshot.FantasyStats.Constructors | fantasy_motogp_explorer/fantasy.py:215-217 | constructors is built once and returned afterwards |
| Snapshot.FantasyStats.Teams | fantasy_motogp_explorer/fantasy.py:219-221 | teams is built once and returned afterwards |
| Snapshot.FantasyStats.Weekends | fantasy_motogp_explorer/fantasy.py:223-225 | weekends is built once and returned afterwards |
| Snapshot.FacadeFilesDistinct | fantasy_motogp_explorer/fantasy.py:41-44 | the four facades' snapshot files are distinct on any day |

The helper's `website_json` (fantasy_motogp_helper/fantasy.py:44-60) and
`FantasyStats` (fantasy_motogp_helper/fantasy.py:204-219) match the
explorer's line for line and are covered by the same members. So are the
helper's `Weekends.info` and `Weekends.events` (fantasy_motogp_helper/fantasy.py:177-196).

## Left out

- pandas itself is not modelled: `DataFrame`, `json_normalize`, index alignment in `join`/`merge`/`concat`, and dtypes. Tables are column-label sequences and tagged rows.
- The values in table cells are not modelled. The column algebra and the row order are.
- The `_info` loop that converts object columns with `to_datetime`: it is library date parsing, and it changes no column label or row.
- `json.loads` and `json.dumps` are not modelled. A stored file is a JSON value or "not JSON" (a decode error on read).
- `requests.get` is the `Website` object's `serve` function. A request or decode failure is an error value.
- `os.makedirs` and `open` are the `FileStore` state. The file system has no other failure mode in the model.
- `datetime.now()` is the `today` parameter of `WebsiteJson`. `datetime.fromisoformat` is the `parse` parameter (a `Parser`), so timestamps are uninterpreted.
- `strftime("%Y")` for years outside 1000–9999 depends on the platform. `WebsiteJson` requires a four-digit year.
- Logging and the Streamlit pages are not modelled: they are side effects and layout only.
- `Teams.CostInMillions`: computes with exact rationals. Binary float error and Python's float tie-breaking of `round(x, 2)` are not modelled.
- `Teams.AsFloat`: takes every string as unparsable. `float("123")` would succeed in Python.
- `Text.Title`, `Text.Upper`: ASCII only. Non-ASCII case mapping is not modelled.
- `Ordering.SortBy`: one fixed order among equal keys. pandas' default sort is not stable, so the contracts state sortedness and permutation only.
- `Facades.BuildHelperTeams`, `Facades.HelperRawTeams`: state only the fields no setter touches (id, name, num_riders, cost) per built team. `HelperTeams.Team.Build` states the flag and the stats.
- `Facades.BuildWeekends`, `Facades.ExplorerRawWeekends`: state only the scalars and the weather per built weekend. `Weekends.Weekend.Build` states the timestamps and races.
- `Facades.BuildHelperTeams`, `Facades.BuildWeekends`: do not state that the records are fresh or distinct objects.
- `Kwargs.UpdateEntry`: a two-key dict among a list datum's elements binds nothing. Python iterates its keys in insertion order and binds the first to the second, but a JSON object here keeps no key order.
- `Facades.WeekendDatumError`, `Facades.WeekendErrors`, `Facades.BuildWeekend`: inherit that approximation of `Kwargs.UpdateEntry` for a list datum holding a two-key dict.
- `Facades.ExplorerRawWeekends`: gives ValueError for every non-empty dict website_json. Python iterates the dict's keys, and a first key that is the empty string updates nothing and reaches the start setter's TypeError; key order is not modelled.
- `Riders.Rider.ShortName`: `show` stands for Python's str() of a value that is not a string, which is not modelled. Slicing a dict last name is a TypeError, as on Python 3.10 and 3.11; from 3.12 slices are hashable and it is a KeyError.
- `Columns.ExplorerStats`: takes the identifier and "Cost $M" once each. When info repeats either label, `info[[identifier, "Cost $M"]]` selects every copy.
- `Facades.ExplorerHistory`: the identifier column holds the entity's identifier value, aligned by index. Its column label and the humanized headers are stated separately by `Columns.ExplorerHistory`.
- The explorer's `basic_info`, `complete_info`, `all_data` and `rider_full_data` are not modelled, nor the helper's `complete_info` and `all_data`. They are joins and merges of the modelled tables, and their result depends on pandas' alignment.
- The helper's own `data_models` for riders, constructors and weekends are not part of this model. The helper's `raw_info` is modelled for teams, whose record is shown.
- The `urls` module is not part of this model. The URLs are constructor parameters of `FantasyStats`.
- The in-memory memo of `raw_info` and `_info` is not modelled. Only `website_json` and the facade slots are.
- The derived flags `finished` and `had_fastest_lap` do not appear in the modelled files, so the model has no such flags.
