/** The helper's team record: the wildcard flag and the nested TeamStats,
    with the cost kept as the raw integer. */
module HelperTeams {
  import opened JsonValues
  import opened Kwargs
  import opened Common
  import Teams

  /** The parameters without a default; cost is a plain field here. */
  const HelperTeamScalars: set<string> := {"id", "name", "num_riders", "cost"}

  /** is_wildcard and stats are shadowed by their properties. */
  const HelperTeamProperties: set<string> := {"is_wildcard", "stats"}

  lemma HelperTeamFieldsDisjoint()
    ensures HelperTeamScalars !! HelperTeamProperties
  {
  }

  const HelperTeamSignature: Signature := DataclassSignature(HelperTeamScalars, HelperTeamProperties, map[])

  /** Team(**kwargs) binds exactly when every scalar is named and nothing
      undeclared is. */
  lemma HelperTeamBinds(kwargs: map<string, Json>)
    ensures Bind(HelperTeamSignature, kwargs).Ok? <==> HelperTeamScalars <= kwargs.Keys <= HelperTeamScalars + HelperTeamProperties
  {
    HelperTeamFieldsDisjoint();
    BindsDataclass(HelperTeamScalars, HelperTeamProperties, map[], kwargs);
  }

  /** The exception Team(**kwargs) raises, if any: binding, then the stats
      setter's TeamStats(**stats). */
  ghost function HelperTeamError(kwargs: map<string, Json>): Option<Error>
  {
    if !(HelperTeamScalars <= kwargs.Keys <= HelperTeamScalars + HelperTeamProperties) then Some(TypeError)
    else if StarTarget(PropertyArg(kwargs, "stats")).Err? then Some(TypeError)
    else StatsError(kwargs["stats"].fields)
  }

  /** A team of the helper. */
  class Team {
    const id: Json
    const name: Json
    const numRiders: Json
    const cost: Json
    var isWildcard: bool
    var stats: Stats?

    /** The generated __init__ up to the stats field. */
    constructor Scalars(kwargs: map<string, Json>)
      requires HelperTeamScalars <= kwargs.Keys
      ensures id == kwargs["id"] && name == kwargs["name"]
      ensures numRiders == kwargs["num_riders"] && cost == kwargs["cost"]
      ensures isWildcard == Teams.WildcardFlag(PropertyArg(kwargs, "is_wildcard"))
      ensures stats == null
    {
      id := kwargs["id"];
      name := kwargs["name"];
      numRiders := kwargs["num_riders"];
      cost := kwargs["cost"];
      isWildcard := Teams.WildcardFlag(PropertyArg(kwargs, "is_wildcard"));
      stats := null;
    }

    /** This object holds what Team(**kwargs) stores. */
    ghost predicate BuiltFrom(kwargs: map<string, Json>)
      reads this, if stats != null then {stats} else {}
    {
      && HelperTeamScalars <= kwargs.Keys
      && id == kwargs["id"] && name == kwargs["name"]
      && numRiders == kwargs["num_riders"] && cost == kwargs["cost"]
      && isWildcard == Teams.WildcardFlag(PropertyArg(kwargs, "is_wildcard"))
      && "stats" in kwargs && kwargs["stats"].JObj?
      && stats != null && stats.BuiltFrom(kwargs["stats"].fields)
    }

    /** The is_wildcard getter returns the stored flag. */
    function IsWildcard(): (b: bool)
      reads this
      ensures b == isWildcard
    {
      isWildcard
    }

    /** The is_wildcard setter: _is_wildcard = bool(is_wildcard). */
    method SetIsWildcard(a: Arg)
      modifies this`isWildcard
      ensures IsWildcard() == Teams.WildcardFlag(a)
    {
      isWildcard := Teams.WildcardFlag(a);
    }

    /** The stats setter: TeamStats(**stats). */
    method SetStats(a: Arg) returns (r: Result<()>)
      modifies this`stats
      ensures StarTarget(a).Err? ==> r == Err(TypeError) && stats == old(stats)
      ensures StarTarget(a).Ok? ==> (r.Err? <==> StatsError(StarTarget(a).value).Some?)
      ensures StarTarget(a).Ok? && r.Err? ==> r.error == StatsError(StarTarget(a).value).value && stats == old(stats)
      ensures r.Ok? ==> stats != null && fresh(stats) && stats.BuiltFrom(StarTarget(a).value)
    {
      match StarTarget(a)
      case Err(e) =>
        return Err(e);
      case Ok(m) =>
        var built := Stats.Build(m);
        if built.Err? {
          return Err(built.error);
        }
        stats := built.value;
        return Ok(());
    }

    /** Team(**kwargs): the cost is stored as given. */
    static method Build(kwargs: map<string, Json>) returns (r: Result<Team>)
      ensures HelperTeamError(kwargs) == (if r.Err? then Some(r.error) else None)
      ensures r.Ok? ==>
        && fresh(r.value)
        && r.value.id == kwargs["id"] && r.value.name == kwargs["name"]
        && r.value.numRiders == kwargs["num_riders"] && r.value.cost == kwargs["cost"]
        && r.value.isWildcard == Teams.WildcardFlag(PropertyArg(kwargs, "is_wildcard"))
        && "stats" in kwargs && kwargs["stats"].JObj?
        && r.value.stats != null && fresh(r.value.stats)
        && r.value.stats.BuiltFrom(kwargs["stats"].fields)
      ensures r.Ok? ==> r.value.BuiltFrom(kwargs)
    {
      HelperTeamBinds(kwargs);
      if Bind(HelperTeamSignature, kwargs).Err? {
        return Err(TypeError);
      }
      var team := new Team.Scalars(kwargs);
      var s := team.SetStats(PropertyArg(kwargs, "stats"));
      if s.Err? {
        return Err(s.error);
      }
      return Ok(team);
    }
  }
}
