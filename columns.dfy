/** The column-header algebra of the two facades: strict and tolerant drop,
    rename that ignores absent labels, the header humanizers, and the column
    lists of info, stats, history and events. A table's columns are a
    sequence of labels; duplicates are allowed, as in a DataFrame. */
module Columns {
  import opened JsonValues
  import opened Text

  /** The columns not named in labels, in their order: what a drop removes,
      every column with a dropped label included. */
  function Without(cols: seq<string>, labels: set<string>): (r: seq<string>)
    ensures |r| <= |cols|
    ensures forall c :: c in r <==> c in cols && c !in labels
  {
    if cols == [] then []
    else (if cols[0] in labels then [] else [cols[0]]) + Without(cols[1..], labels)
  }

  /** A drop works column by column: the kept columns of a + b are those of
      a followed by those of b, so the kept columns stay in order. */
  lemma {:induction false} WithoutAppend(a: seq<string>, b: seq<string>, labels: set<string>)
    ensures Without(a + b, labels) == Without(a, labels) + Without(b, labels)
  {
    if a == [] {
      assert a + b == b;
    } else {
      WithoutAppend(a[1..], b, labels);
      TailOfAppend(a, b);
    }
  }

  lemma TailOfAppend<T>(a: seq<T>, b: seq<T>)
    requires a != []
    ensures (a + b)[0] == a[0] && (a + b)[1..] == a[1..] + b
  {
  }

  /** A drop removes every column with a dropped label and keeps every other
      column as often as it occurs. */
  lemma {:induction false} WithoutCount(cols: seq<string>, labels: set<string>, c: string)
    ensures Count(Without(cols, labels), c) == if c in labels then 0 else Count(cols, c)
  {
    if cols != [] {
      WithoutCount(cols[1..], labels, c);
      var head := if cols[0] in labels then [] else [cols[0]];
      CountAppend(head, Without(cols[1..], labels), c);
    }
  }

  /** A label starting with an upper-case letter is none of the list fields
      stats drops. */
  lemma NotDropped(x: string)
    requires x != [] && 'A' <= x[0] <= 'Z'
    ensures x !in StatsDrops
  {
    forall l | l in StatsDrops
      ensures l != x
    {
      assert l[0] == 'p' || l[0] == 'e' || l[0] == '_';
    }
  }

  lemma WithoutPair(x: string, y: string, labels: set<string>)
    requires x !in labels && y !in labels
    ensures Without([x, y], labels) == [x, y]
  {
    assert [x, y][1..] == [y];
    assert Without([y], labels) == [y] + Without([], labels);
  }

  /** A drop that names no present column changes nothing. */
  lemma {:induction false} WithoutNothing(cols: seq<string>, labels: set<string>)
    requires forall c :: c in cols ==> c !in labels
    ensures Without(cols, labels) == cols
  {
    if cols != [] {
      WithoutNothing(cols[1..], labels);
      assert cols == [cols[0]] + cols[1..];
    }
  }

  /** The number of columns labelled c. */
  function Count(cols: seq<string>, c: string): nat
  {
    if cols == [] then 0 else (if cols[0] == c then 1 else 0) + Count(cols[1..], c)
  }

  lemma {:induction false} CountAppend(a: seq<string>, b: seq<string>, c: string)
    ensures Count(a + b, c) == Count(a, c) + Count(b, c)
  {
    if a == [] {
      assert a + b == b;
    } else {
      CountAppend(a[1..], b, c);
      assert (a + b)[1..] == a[1..] + b;
    }
  }

  /** A label is present exactly when it is counted. */
  lemma {:induction false} CountPositive(cols: seq<string>, c: string)
    ensures Count(cols, c) > 0 <==> c in cols
  {
    if cols != [] {
      CountPositive(cols[1..], c);
      assert c in cols <==> cols[0] == c || c in cols[1..];
    }
  }

  /** drop(columns=labels): a KeyError when some label is not a column. */
  function DropStrict(cols: seq<string>, labels: set<string>): (r: Result<seq<string>>)
    ensures r.Ok? <==> forall l :: l in labels ==> l in cols
    ensures r.Err? ==> r.error == KeyError
    ensures r.Ok? ==> forall c :: c in r.value <==> c in cols && c !in labels
  {
    if forall l :: l in labels ==> l in cols then Ok(Without(cols, labels))
    else Err(KeyError)
  }

  /** drop(columns=labels, errors="ignore"). */
  function DropIgnore(cols: seq<string>, labels: set<string>): (r: seq<string>)
    ensures forall c :: c in r <==> c in cols && c !in labels
  {
    Without(cols, labels)
  }

  /** rename(columns=m): a column named in m takes its new label, and the
      other columns, and keys of m that are no column, are left alone. */
  function Rename(cols: seq<string>, m: map<string, string>): (r: seq<string>)
    ensures |r| == |cols|
    ensures forall i :: 0 <= i < |cols| ==> r[i] == (if cols[i] in m then m[cols[i]] else cols[i])
  {
    seq(|cols|, i requires 0 <= i < |cols| => if cols[i] in m then m[cols[i]] else cols[i])
  }

  /** A rename whose keys are all absent changes nothing. */
  lemma RenameAbsent(cols: seq<string>, m: map<string, string>)
    requires forall c :: c in cols ==> c !in m
    ensures Rename(cols, m) == cols
  {
  }

  /** Renaming from into to: the columns labelled to are the old ones plus
      the renamed ones, none is labelled from any more, and every other
      label keeps its count. */
  lemma {:induction false} RenameCounts(cols: seq<string>, from: string, to: string, c: string)
    requires from != to
    ensures Count(Rename(cols, map[from := to]), c) ==
      if c == to then Count(cols, from) + Count(cols, to)
      else if c == from then 0
      else Count(cols, c)
  {
    if cols != [] {
      RenameCounts(cols[1..], from, to, c);
      assert Rename(cols, map[from := to]) == Rename(cols[..1], map[from := to]) + Rename(cols[1..], map[from := to]);
      CountAppend(Rename(cols[..1], map[from := to]), Rename(cols[1..], map[from := to]), c);
    }
  }

  /** Renaming from into to gives as many columns labelled to as there were
      labelled from, when no column had the label to already. */
  lemma RenameCount(cols: seq<string>, from: string, to: string)
    requires from != to && to !in cols
    ensures Count(Rename(cols, map[from := to]), to) == Count(cols, from)
  {
    RenameCounts(cols, from, to, to);
    CountPositive(cols, to);
  }

  /** Renaming distributes over the columns. */
  lemma RenameAppend(a: seq<string>, b: seq<string>, m: map<string, string>)
    ensures Rename(a + b, m) == Rename(a, m) + Rename(b, m)
  {
  }

  /** Renaming from into to: a label is present afterwards exactly when it
      was present and is not from, or it is to and from was present. */
  lemma RenameOne(cols: seq<string>, from: string, to: string)
    ensures forall c :: c in Rename(cols, map[from := to]) <==> (c in cols && c != from) || (c == to && from in cols)
  {
    var r := Rename(cols, map[from := to]);
    forall c | c in r
      ensures (c in cols && c != from) || (c == to && from in cols)
    {
      var i :| 0 <= i < |r| && r[i] == c;
      assert cols[i] in cols;
    }
    forall c | (c in cols && c != from) || (c == to && from in cols)
      ensures c in r
    {
      var i :| 0 <= i < |cols| && cols[i] == (if c == to && from in cols then from else c);
      assert r[i] == c;
    }
  }

  /** The stats header: replace("_", " "), title-case, replace("Gp", "GP"),
      applied to every column. */
  function HumanizeStatsAll(cols: seq<string>): (r: seq<string>)
    ensures |r| == |cols|
    ensures forall i :: 0 <= i < |cols| ==> r[i] == HumanizeStats(cols[i])
  {
    seq(|cols|, i requires 0 <= i < |cols| => HumanizeStats(cols[i]))
  }

  lemma HumanizeStatsAllAppend(a: seq<string>, b: seq<string>)
    ensures HumanizeStatsAll(a + b) == HumanizeStatsAll(a) + HumanizeStatsAll(b)
  {
  }

  /** The history header: replace("_", " ") then title-case. */
  function HumanizeHistoryAll(cols: seq<string>): (r: seq<string>)
    ensures |r| == |cols|
    ensures forall i :: 0 <= i < |cols| ==> r[i] == HumanizeHistory(cols[i])
  {
    seq(|cols|, i requires 0 <= i < |cols| => HumanizeHistory(cols[i]))
  }

  /** The identifier column: "Rider" if info has it, else "Name". */
  function Identifier(infoCols: seq<string>): (id: string)
    ensures id == "Rider" <==> "Rider" in infoCols
    ensures id == "Name" <==> "Rider" !in infoCols
  {
    if "Rider" in infoCols then "Rider" else "Name"
  }

  // ---- explorer

  const ExplorerInfoDrops: set<string> := {"stats", "_stats", "_cost_millions"}

  const ExplorerInfoRenames: map<string, string> :=
    map["first_name" := "Name", "name" := "Name", "last_name" := "Surname", "country" := "From",
        "number" := "#", "status" := "Status", "cost" := "Cost $M", "rider" := "Rider",
        "num_riders" := "Riders"]

  /** The explorer's BaseStats.info: the strict drop of stats, _stats and
      _cost_millions, then the tolerant rename. */
  function ExplorerInfo(cols: seq<string>): (r: Result<seq<string>>)
    ensures r.Ok? <==> "stats" in cols && "_stats" in cols && "_cost_millions" in cols
    ensures r.Err? ==> r.error == KeyError
  {
    match DropStrict(cols, ExplorerInfoDrops)
    case Err(e) => Err(e)
    case Ok(kept) => Ok(Rename(kept, ExplorerInfoRenames))
  }

  /** After info, a kept column is present under its new label when the
      rename map names it and unchanged otherwise, and nothing else is
      present. */
  lemma ExplorerInfoColumns(cols: seq<string>)
    requires ExplorerInfo(cols).Ok?
    ensures forall c :: c in cols && c !in ExplorerInfoDrops && c !in ExplorerInfoRenames ==> c in ExplorerInfo(cols).value
    ensures forall c :: c in cols && c !in ExplorerInfoDrops && c in ExplorerInfoRenames ==> ExplorerInfoRenames[c] in ExplorerInfo(cols).value
    ensures forall c :: c in ExplorerInfo(cols).value ==>
      (c in cols && c !in ExplorerInfoDrops && c !in ExplorerInfoRenames) ||
      (exists o :: o in cols && o !in ExplorerInfoDrops && o in ExplorerInfoRenames && ExplorerInfoRenames[o] == c)
  {
    var kept := DropStrict(cols, ExplorerInfoDrops).value;
    var r := ExplorerInfo(cols).value;
    forall c | c in cols && c !in ExplorerInfoDrops
      ensures (if c in ExplorerInfoRenames then ExplorerInfoRenames[c] else c) in r
    {
      var i :| 0 <= i < |kept| && kept[i] == c;
      assert r[i] == (if c in ExplorerInfoRenames then ExplorerInfoRenames[c] else c);
    }
    forall c | c in r
      ensures (c in cols && c !in ExplorerInfoDrops && c !in ExplorerInfoRenames) ||
        (exists o :: o in cols && o !in ExplorerInfoDrops && o in ExplorerInfoRenames && ExplorerInfoRenames[o] == c)
    {
      var i :| 0 <= i < |r| && r[i] == c;
      assert kept[i] in kept;
    }
  }

  /** The explorer's TeamStats.info: info, then the strict drop of
      _is_wildcard. */
  function ExplorerTeamInfo(cols: seq<string>): (r: Result<seq<string>>)
    ensures r.Ok? <==> ExplorerInfo(cols).Ok? && "_is_wildcard" in ExplorerInfo(cols).value
    ensures r.Err? ==> r.error == KeyError
  {
    match ExplorerInfo(cols)
    case Err(e) => Err(e)
    case Ok(info) => DropStrict(info, {"_is_wildcard"})
  }

  const StatsDrops: set<string> := {"prices", "_prices", "events", "_events"}

  const TotalRename: map<string, string> := map["Total Points" := "Total Fantasy Points"]

  /** The columns stats puts after the identifier and "Cost $M": the
      flattened stats without the list fields, humanized, any "Total Fantasy
      Points" dropped and "Total Points" renamed into it. */
  function StatsBody(statsCols: seq<string>): seq<string>
  {
    Rename(Without(HumanizeStatsAll(Without(statsCols, StatsDrops)), {"Total Fantasy Points"}), TotalRename)
  }

  /** The explorer's BaseStats.stats columns: info[[identifier, "Cost $M"]]
      joined with the flattened stats (a KeyError when info lacks either
      column, a ValueError when the stats repeat one of them), the tolerant
      drop of the list fields, the stats humanizer, the tolerant drop of
      "Total Fantasy Points" and the rename of "Total Points" into it;
      sort_values then needs exactly one such column (a KeyError without,
      a ValueError with several). */
  function ExplorerStats(infoCols: seq<string>, statsCols: seq<string>): (r: Result<seq<string>>)
    ensures !(Identifier(infoCols) in infoCols && "Cost $M" in infoCols) ==> r == Err(KeyError)
    ensures Identifier(infoCols) in infoCols && "Cost $M" in infoCols &&
      (Identifier(infoCols) in statsCols || "Cost $M" in statsCols)
      ==> r == Err(ValueError)
    ensures Identifier(infoCols) in infoCols && "Cost $M" in infoCols &&
      Identifier(infoCols) !in statsCols && "Cost $M" !in statsCols
      ==> (&& (r.Ok? <==> Count(StatsBody(statsCols), "Total Fantasy Points") == 1)
         && (Count(StatsBody(statsCols), "Total Fantasy Points") == 0 ==> r == Err(KeyError))
         && (Count(StatsBody(statsCols), "Total Fantasy Points") > 1 ==> r == Err(ValueError)))
    ensures r.Ok? ==> r.value == [HumanizeStats(Identifier(infoCols)), HumanizeStats("Cost $M")] + StatsBody(statsCols)
    ensures r.Ok? ==> Count(r.value, "Total Fantasy Points") == 1
  {
    var id := Identifier(infoCols);
    if !(id in infoCols && "Cost $M" in infoCols) then Err(KeyError)
    else if id in statsCols || "Cost $M" in statsCols then Err(ValueError)
    else
      var renamed := Rename(DropIgnore(ExplorerStatsHeaders(infoCols, statsCols), {"Total Fantasy Points"}), TotalRename);
      ExplorerStatsSplit(infoCols, statsCols);
      StatsLeadCount(id, StatsBody(statsCols));
      if Count(renamed, "Total Fantasy Points") == 0 then Err(KeyError)
      else if Count(renamed, "Total Fantasy Points") > 1 then Err(ValueError)
      else Ok(renamed)
  }

  /** The identifier and "Cost $M" lead the stats columns untouched by the
      drops and the rename, so "Total Fantasy Points" is counted in the rest
      alone. */
  lemma ExplorerStatsSplit(infoCols: seq<string>, statsCols: seq<string>)
    ensures Rename(DropIgnore(ExplorerStatsHeaders(infoCols, statsCols), {"Total Fantasy Points"}), TotalRename)
      == [HumanizeStats(Identifier(infoCols)), HumanizeStats("Cost $M")] + StatsBody(statsCols)
  {
    var id := Identifier(infoCols);
    var h := [HumanizeStats(id), HumanizeStats("Cost $M")];
    var rest := HumanizeStatsAll(Without(statsCols, StatsDrops));
    StatsLeadHumanized(id, statsCols);
    HumanizeProperties(id);
    HumanizeProperties("Cost $M");
    NotTotal(h[0]);
    NotTotal(h[1]);
    LeadPasses(h[0], h[1], rest, {"Total Fantasy Points"}, TotalRename);
  }

  /** A label shorter than "Total Points" is neither it nor "Total Fantasy
      Points". */
  lemma NotTotal(x: string)
    requires |x| < 12
    ensures x !in {"Total Fantasy Points"} && x !in TotalRename
  {
    assert |"Total Points"| == 12 && |"Total Fantasy Points"| == 20;
  }

  /** Neither humanized leading column is a "Total Fantasy Points". */
  lemma StatsLeadCount(id: string, body: seq<string>)
    requires |id| < 12
    ensures Count([HumanizeStats(id), HumanizeStats("Cost $M")] + body, "Total Fantasy Points")
      == Count(body, "Total Fantasy Points")
  {
    var h := [HumanizeStats(id), HumanizeStats("Cost $M")];
    HumanizeProperties(id);
    HumanizeProperties("Cost $M");
    NotTotal(h[0]);
    NotTotal(h[1]);
    CountAppend(h, body, "Total Fantasy Points");
  }

  /** The identifier and "Cost $M" survive the drop of the list fields and
      are humanized ahead of the rest. */
  lemma StatsLeadHumanized(id: string, statsCols: seq<string>)
    requires id != [] && 'A' <= id[0] <= 'Z'
    ensures HumanizeStatsAll(Without([id, "Cost $M"] + statsCols, StatsDrops))
      == [HumanizeStats(id), HumanizeStats("Cost $M")] + HumanizeStatsAll(Without(statsCols, StatsDrops))
  {
    NotDropped(id);
    NotDropped("Cost $M");
    WithoutAppend([id, "Cost $M"], statsCols, StatsDrops);
    WithoutPair(id, "Cost $M", StatsDrops);
    HumanizeStatsAllAppend([id, "Cost $M"], Without(statsCols, StatsDrops));
  }

  /** Two leading columns that are neither dropped nor renamed pass a drop
      followed by a rename unchanged, ahead of the rest. */
  lemma LeadPasses(x: string, y: string, rest: seq<string>, labels: set<string>, m: map<string, string>)
    requires x !in labels && y !in labels && x !in m && y !in m
    ensures Rename(Without([x, y] + rest, labels), m) == [x, y] + Rename(Without(rest, labels), m)
  {
    WithoutAppend([x, y], rest, labels);
    WithoutPair(x, y, labels);
    RenameAppend([x, y], Without(rest, labels), m);
    RenameAbsent([x, y], m);
  }

  /** The humanized stats columns before the "Total Points" substitution. */
  function ExplorerStatsHeaders(infoCols: seq<string>, statsCols: seq<string>): seq<string>
  {
    HumanizeStatsAll(DropIgnore([Identifier(infoCols), "Cost $M"] + statsCols, StatsDrops))
  }

  /** The "Total Fantasy Points" column of stats is the renamed "Total
      Points": any column already so named is dropped first, so stats
      succeeds past the header steps exactly when exactly one humanized
      header reads "Total Points". */
  lemma ExplorerStatsTotal(infoCols: seq<string>, statsCols: seq<string>)
    requires Identifier(infoCols) in infoCols && "Cost $M" in infoCols
    requires Identifier(infoCols) !in statsCols && "Cost $M" !in statsCols
    ensures ExplorerStats(infoCols, statsCols).Ok? <==> Count(ExplorerStatsHeaders(infoCols, statsCols), "Total Points") == 1
  {
    var human := ExplorerStatsHeaders(infoCols, statsCols);
    var kept := DropIgnore(human, {"Total Fantasy Points"});
    assert "Total Fantasy Points" !in kept;
    RenameCount(kept, "Total Points", "Total Fantasy Points");
    TotalPointsKept(human);
  }

  /** Dropping "Total Fantasy Points" keeps every "Total Points". */
  lemma {:induction false} TotalPointsKept(cols: seq<string>)
    ensures Count(DropIgnore(cols, {"Total Fantasy Points"}), "Total Points") == Count(cols, "Total Points")
  {
    if cols != [] {
      TotalPointsKept(cols[1..]);
      var head := if cols[0] == "Total Fantasy Points" then [] else [cols[0]];
      CountAppend(head, Without(cols[1..], {"Total Fantasy Points"}), "Total Points");
    }
  }

  /** The explorer's history columns. sort_values("event_num") needs exactly
      one event_num column (a KeyError without, a ValueError with several);
      self.info[identifier] needs the identifier in info (a KeyError
      without), and insert needs it there once (a ValueError for the frame
      several such columns select) and not among the event columns (a
      ValueError); then the identifier leads and the history humanizer
      relabels every column. */
  function ExplorerHistory(infoCols: seq<string>, eventCols: seq<string>): (r: Result<seq<string>>)
    ensures Count(eventCols, "event_num") == 0 ==> r == Err(KeyError)
    ensures Count(eventCols, "event_num") > 1 ==> r == Err(ValueError)
    ensures Count(eventCols, "event_num") == 1 && Identifier(infoCols) !in infoCols ==> r == Err(KeyError)
    ensures Count(eventCols, "event_num") == 1 && Identifier(infoCols) in infoCols ==>
      && (r.Ok? <==> Count(infoCols, Identifier(infoCols)) == 1 && Identifier(infoCols) !in eventCols)
      && (r.Err? ==> r.error == ValueError)
    ensures r.Ok? ==> |r.value| == |eventCols| + 1
    ensures r.Ok? ==> r.value[0] == HumanizeHistory(Identifier(infoCols))
    ensures r.Ok? ==> forall i :: 0 <= i < |eventCols| ==> r.value[i + 1] == HumanizeHistory(eventCols[i])
  {
    var id := Identifier(infoCols);
    CountPositive(infoCols, id);
    if Count(eventCols, "event_num") == 0 then Err(KeyError)
    else if Count(eventCols, "event_num") > 1 then Err(ValueError)
    else if id !in infoCols then Err(KeyError)
    else if Count(infoCols, id) > 1 then Err(ValueError)
    else if id in eventCols then Err(ValueError)
    else Ok(HumanizeHistoryAll([id] + eventCols))
  }

  // ---- helper

  const HelperInfoDrops: set<string> := {"stats", "_stats"}

  /** The helper's BaseStats.info. */
  function HelperInfo(cols: seq<string>): (r: Result<seq<string>>)
    ensures r.Ok? <==> "stats" in cols && "_stats" in cols
    ensures r.Ok? ==> forall c :: c in r.value <==> c in cols && c != "stats" && c != "_stats"
  {
    DropStrict(cols, HelperInfoDrops)
  }

  /** The helper's BaseStats.stats: the list fields dropped strictly. */
  function HelperStats(statsCols: seq<string>): (r: Result<seq<string>>)
    ensures r.Ok? <==> "prices" in statsCols && "_prices" in statsCols && "events" in statsCols && "_events" in statsCols
    ensures r.Ok? ==> forall c :: c in r.value <==> c in statsCols && c !in StatsDrops
  {
    DropStrict(statsCols, StatsDrops)
  }

  /** The helper's RiderStats.basic_info: the three id columns dropped from
      info. */
  function HelperRiderBasicInfo(cols: seq<string>): (r: Result<seq<string>>)
    ensures r.Ok? <==> ("stats" in cols && "_stats" in cols
      && "squad_id" in cols && "constructor_id" in cols && "team_id" in cols)
    ensures r.Ok? ==> forall c :: c in r.value <==>
      c in cols && c !in HelperInfoDrops && c != "squad_id" && c != "constructor_id" && c != "team_id"
  {
    match HelperInfo(cols)
    case Err(e) => Err(e)
    case Ok(info) =>
      assert "squad_id" in info <==> "squad_id" in cols;
      assert "constructor_id" in info <==> "constructor_id" in cols;
      assert "team_id" in info <==> "team_id" in cols;
      var ids := {"squad_id", "constructor_id", "team_id"};
      assert (forall l :: l in ids ==> l in info) <==> "squad_id" in info && "constructor_id" in info && "team_id" in info;
      DropStrict(info, ids)
  }

  /** The helper's TeamStats.info: info without _is_wildcard. */
  function HelperTeamInfo(cols: seq<string>): (r: Result<seq<string>>)
    ensures r.Ok? <==> "stats" in cols && "_stats" in cols && "_is_wildcard" in cols
    ensures r.Ok? ==> forall c :: c in r.value <==> c in cols && c !in HelperInfoDrops && c != "_is_wildcard"
  {
    match HelperInfo(cols)
    case Err(e) => Err(e)
    case Ok(info) => DropStrict(info, {"_is_wildcard"})
  }

  /** The helper's TeamStats.basic_info: team info without is_wildcard. */
  function HelperTeamBasicInfo(cols: seq<string>): (r: Result<seq<string>>)
    ensures r.Ok? <==> HelperTeamInfo(cols).Ok? && "is_wildcard" in HelperTeamInfo(cols).value
    ensures r.Ok? ==> forall c :: c in r.value <==>
      c in cols && c !in HelperInfoDrops && c != "_is_wildcard" && c != "is_wildcard"
  {
    match HelperTeamInfo(cols)
    case Err(e) => Err(e)
    case Ok(info) => DropStrict(info, {"is_wildcard"})
  }

  // ---- weekends (the same in both facades)

  const WeekendInfoDrops: set<string> := {"_start", "_end", "_races", "races", "weather"}

  /** Weekends.info: the strict drop of the backing and nested fields, the
      rename of position to number, and the flattened weather columns
      appended. */
  function WeekendInfo(cols: seq<string>, weatherCols: seq<string>): (r: Result<seq<string>>)
    ensures r.Ok? <==> forall l :: l in WeekendInfoDrops ==> l in cols
    ensures r.Err? ==> r.error == KeyError
    ensures r.Ok? ==> |r.value| >= |weatherCols|
    ensures r.Ok? ==> r.value[|r.value| - |weatherCols|..] == weatherCols
    ensures r.Ok? ==> forall c :: c in r.value[..|r.value| - |weatherCols|] <==>
      (c in cols && c !in WeekendInfoDrops && c != "position") || (c == "number" && "position" in cols)
  {
    match DropStrict(cols, WeekendInfoDrops)
    case Err(e) => Err(e)
    case Ok(kept) =>
      var renamed := Rename(kept, map["position" := "number"]);
      RenameOne(kept, "position", "number");
      assert (renamed + weatherCols)[..|renamed|] == renamed;
      Ok(renamed + weatherCols)
  }

  /** Weekends.events columns: each slot frame is the flattened Event with
      weekend_event set (appended, or overwritten where the events already
      have it); the concatenation drops _start and _end strictly (a KeyError
      when the events lack them), renames id to event_id, and sort_values
      then needs exactly one event_id column (a KeyError without, a
      ValueError with several). */
  function WeekendEventColumns(eventCols: seq<string>): (r: Result<seq<string>>)
    ensures r.Ok? <==> ("_start" in eventCols && "_end" in eventCols &&
      Count(eventCols, "id") + Count(eventCols, "event_id") == 1)
    ensures !("_start" in eventCols && "_end" in eventCols) ==> r == Err(KeyError)
    ensures "_start" in eventCols && "_end" in eventCols ==>
      && (Count(eventCols, "id") + Count(eventCols, "event_id") == 0 ==> r == Err(KeyError))
      && (Count(eventCols, "id") + Count(eventCols, "event_id") > 1 ==> r == Err(ValueError))
    ensures r.Ok? ==> forall c :: c in r.value <==>
      (c in eventCols && c != "_start" && c != "_end" && c != "id") || c == "weekend_event" || (c == "event_id" && "id" in eventCols)
    ensures r.Ok? ==> Count(r.value, "weekend_event") == if "weekend_event" in eventCols then Count(eventCols, "weekend_event") else 1
  {
    EventLabelsDistinct();
    var cols := if "weekend_event" in eventCols then eventCols else eventCols + ["weekend_event"];
    assert forall c :: c in cols <==> c in eventCols || c == "weekend_event";
    var times := {"_start", "_end"};
    assert (forall l :: l in times ==> l in cols) <==> "_start" in cols && "_end" in cols;
    match DropStrict(cols, times)
    case Err(e) => Err(e)
    case Ok(kept) =>
      var renamed := Rename(kept, map["id" := "event_id"]);
      WeekendEventMembers(eventCols, cols, renamed);
      WeekendEventCounts(eventCols, cols, kept, renamed);
      if Count(renamed, "event_id") == 0 then Err(KeyError)
      else if Count(renamed, "event_id") > 1 then Err(ValueError)
      else Ok(renamed)
  }

  /** The labels events handles are pairwise distinct. */
  lemma EventLabelsDistinct()
    ensures "weekend_event" !in {"_start", "_end"} && "id" !in {"_start", "_end"} && "event_id" !in {"_start", "_end"}
    ensures "weekend_event" != "id" && "weekend_event" != "event_id" && "id" != "event_id"
  {
    assert |"weekend_event"| == 13 && |"event_id"| == 8 && |"id"| == 2;
    assert |"_start"| == 6 && |"_end"| == 4;
  }

  /** The labels of the events columns: those of the events except the
      times and id, weekend_event, and event_id when id was there. */
  lemma WeekendEventMembers(eventCols: seq<string>, cols: seq<string>, renamed: seq<string>)
    requires cols == if "weekend_event" in eventCols then eventCols else eventCols + ["weekend_event"]
    requires renamed == Rename(Without(cols, {"_start", "_end"}), map["id" := "event_id"])
    ensures forall c :: c in renamed <==>
      (c in eventCols && c != "_start" && c != "_end" && c != "id") || c == "weekend_event" || (c == "event_id" && "id" in eventCols)
  {
    EventLabelsDistinct();
    assert forall c :: c in cols <==> c in eventCols || c == "weekend_event";
    RenameOne(Without(cols, {"_start", "_end"}), "id", "event_id");
  }

  /** The counts of event_id and weekend_event through the steps of events. */
  lemma WeekendEventCounts(eventCols: seq<string>, cols: seq<string>, kept: seq<string>, renamed: seq<string>)
    requires cols == if "weekend_event" in eventCols then eventCols else eventCols + ["weekend_event"]
    requires kept == Without(cols, {"_start", "_end"})
    requires renamed == Rename(kept, map["id" := "event_id"])
    ensures Count(renamed, "event_id") == Count(eventCols, "id") + Count(eventCols, "event_id")
    ensures Count(renamed, "weekend_event") == if "weekend_event" in eventCols then Count(eventCols, "weekend_event") else 1
  {
    EventLabelsDistinct();
    AppendAbsentCount(eventCols, "weekend_event", "id");
    AppendAbsentCount(eventCols, "weekend_event", "event_id");
    AppendAbsentCount(eventCols, "weekend_event", "weekend_event");
    CountPositive(eventCols, "weekend_event");
    DropRenameCounts(cols, {"_start", "_end"}, "id", "event_id", "event_id");
    DropRenameCounts(cols, {"_start", "_end"}, "id", "event_id", "weekend_event");
  }

  /** Appending x where it is absent adds one column labelled x. */
  lemma AppendAbsentCount(cols: seq<string>, x: string, c: string)
    ensures Count(if x in cols then cols else cols + [x], c)
      == Count(cols, c) + (if c == x && x !in cols then 1 else 0)
  {
    if x !in cols {
      CountAppend(cols, [x], c);
      CountSingle(x, c);
    }
  }

  /** A drop followed by a rename of from into to, neither of them dropped:
      the columns labelled to are the kept ones labelled from or to, and every
      other kept label keeps its count. */
  lemma DropRenameCounts(cols: seq<string>, drops: set<string>, from: string, to: string, c: string)
    requires from != to && from !in drops && to !in drops
    ensures Count(Rename(Without(cols, drops), map[from := to]), c) ==
      if c == to then Count(cols, from) + Count(cols, to)
      else if c == from || c in drops then 0
      else Count(cols, c)
  {
    WithoutCount(cols, drops, from);
    WithoutCount(cols, drops, to);
    WithoutCount(cols, drops, c);
    RenameCounts(Without(cols, drops), from, to, c);
  }

  lemma CountSingle(x: string, c: string)
    ensures Count([x], c) == if x == c then 1 else 0
  {
    assert [x][1..] == [];
  }
}
