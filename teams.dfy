/** The explorer's team record: the wildcard flag, the nested TeamStats, and
    the cost, stored in micros and read back in millions rounded to two
    decimals. */
module Teams {
  import opened JsonValues
  import opened Kwargs
  import opened Common

  /** round(y) to the nearest integer, ties to the even neighbour. */
  function RoundHalfEven(y: real): (n: int)
    ensures -0.5 <= n as real - y <= 0.5
    ensures y == y.Floor as real ==> n == y.Floor
    ensures n as real - y == 0.5 || y - n as real == 0.5 ==> n % 2 == 0
  {
    var f := y.Floor;
    var frac := y - f as real;
    if frac < 0.5 then f
    else if frac > 0.5 then f + 1
    else if f % 2 == 0 then f
    else f + 1
  }

  /** float(x) for the values a cost can hold: numbers and booleans convert;
      a string is taken as unparsable and raises ValueError, and None, a
      list, a dict or the property object raise TypeError. */
  function AsFloat(a: Arg): (r: Result<real>)
    ensures a.Given? && a.value.JInt? ==> r == Ok(a.value.i as real)
    ensures a.Given? && a.value.JFloat? ==> r == Ok(a.value.x)
    ensures a.Given? && a.value.JBool? ==> r == Ok(if a.value.b then 1.0 else 0.0)
    ensures a.Given? && a.value.JStr? ==> r == Err(ValueError)
    ensures r.Err? && r.error != ValueError ==> r.error == TypeError
  {
    if !a.Given? then Err(TypeError)
    else
      match a.value
      case JInt(i) => Ok(i as real)
      case JFloat(x) => Ok(x)
      case JBool(b) => Ok(if b then 1.0 else 0.0)
      case JStr(_) => Err(ValueError)
      case _ => Err(TypeError)
  }

  /** The cost getter on the stored micros: round(float(micros) / 1000000, 2)
      with exact rationals. The result is a whole number of hundredths,
      within half a hundredth of the exact amount. */
  function CostInMillions(stored: Arg): (r: Result<real>)
    ensures r.Ok? <==> AsFloat(stored).Ok?
    ensures r.Err? ==> r.error == AsFloat(stored).error
    ensures r.Ok? ==> (r.value * 100.0).Floor as real == r.value * 100.0
    ensures r.Ok? ==> -0.005 <= r.value - AsFloat(stored).value / 1000000.0 <= 0.005
  {
    match AsFloat(stored)
    case Err(e) => Err(e)
    case Ok(micros) =>
      HundredthsClose(micros);
      Ok(RoundHalfEven(micros / 10000.0) as real / 100.0)
  }

  /** Dividing the rounded count of hundredths by 100 keeps it a whole number
      of hundredths, at most half a hundredth from micros / 10^6. */
  lemma HundredthsClose(micros: real)
    ensures var v := RoundHalfEven(micros / 10000.0) as real / 100.0;
      (v * 100.0).Floor as real == v * 100.0 && -0.005 <= v - micros / 1000000.0 <= 0.005
  {
    var q := micros / 10000.0;
    var n := RoundHalfEven(q);
    var v := n as real / 100.0;
    assert v * 100.0 == n as real;
    assert micros / 1000000.0 == q / 100.0;
    assert v - micros / 1000000.0 == (n as real - q) / 100.0;
  }

  /** A cost that is a whole number of hundredths of a million reads back
      exactly. */
  lemma CostExact(micros: int)
    requires micros % 10000 == 0
    ensures CostInMillions(Given(JInt(micros))) == Ok(micros as real / 1000000.0)
  {
    var k := micros / 10000;
    assert micros == k * 10000;
    assert micros as real == k as real * 10000.0;
    assert micros as real / 10000.0 == k as real;
    assert (k as real).Floor == k;
    assert RoundHalfEven(k as real) == k;
    assert k as real / 100.0 == micros as real / 1000000.0;
  }

  /** is_wildcard = bool(x): JSON truthiness, and the property object of a
      missing keyword is truthy. */
  function WildcardFlag(a: Arg): (b: bool)
    ensures a.Given? && a.value.JInt? ==> (b <==> a.value.i != 0)
    ensures a.Given? && a.value.JBool? ==> b == a.value.b
    ensures a.Given? && a.value.JNull? ==> !b
    ensures a.PropertyObject? ==> b
  {
    if a.Given? then Truthy(a.value) else true
  }

  /** The Team parameters without a default. */
  const TeamScalars: set<string> := {"id", "name", "num_riders"}

  /** is_wildcard, cost and stats are shadowed by their properties. */
  const TeamProperties: set<string> := {"is_wildcard", "cost", "stats"}

  lemma TeamFieldsDisjoint()
    ensures TeamScalars !! TeamProperties
  {
  }

  const TeamSignature: Signature := DataclassSignature(TeamScalars, TeamProperties, map[])

  /** Team(**kwargs) binds exactly when every scalar is named and nothing
      undeclared is. */
  lemma TeamBinds(kwargs: map<string, Json>)
    ensures Bind(TeamSignature, kwargs).Ok? <==> TeamScalars <= kwargs.Keys <= TeamScalars + TeamProperties
  {
    TeamFieldsDisjoint();
    BindsDataclass(TeamScalars, TeamProperties, map[], kwargs);
  }

  /** The exception Team(**kwargs) raises, if any: binding, then the stats
      setter's TeamStats(**stats); the wildcard and cost setters never
      raise. */
  ghost function TeamError(kwargs: map<string, Json>): Option<Error>
  {
    if !(TeamScalars <= kwargs.Keys <= TeamScalars + TeamProperties) then Some(TypeError)
    else if StarTarget(PropertyArg(kwargs, "stats")).Err? then Some(TypeError)
    else StatsError(kwargs["stats"].fields)
  }

  /** A team of the explorer. */
  class Team {
    const id: Json
    const name: Json
    const numRiders: Json
    var isWildcard: bool
    var costMicros: Arg
    var stats: Stats?

    /** The generated __init__ up to the stats field: the wildcard and cost
        setters run on the keywords or on the property objects. */
    constructor Scalars(kwargs: map<string, Json>)
      requires TeamScalars <= kwargs.Keys
      ensures id == kwargs["id"] && name == kwargs["name"] && numRiders == kwargs["num_riders"]
      ensures isWildcard == WildcardFlag(PropertyArg(kwargs, "is_wildcard"))
      ensures costMicros == PropertyArg(kwargs, "cost")
      ensures stats == null
    {
      id := kwargs["id"];
      name := kwargs["name"];
      numRiders := kwargs["num_riders"];
      isWildcard := WildcardFlag(PropertyArg(kwargs, "is_wildcard"));
      costMicros := PropertyArg(kwargs, "cost");
      stats := null;
    }

    /** The is_wildcard setter: the stored flag is always a bool. */
    method SetIsWildcard(a: Arg)
      modifies this`isWildcard
      ensures isWildcard == WildcardFlag(a)
    {
      isWildcard := WildcardFlag(a);
    }

    /** The cost setter stores the raw micros unchanged. */
    method SetCost(a: Arg)
      modifies this`costMicros
      ensures costMicros == a
      ensures Cost() == CostInMillions(a)
    {
      costMicros := a;
    }

    /** The cost getter: the stored micros in millions, rounded to two
        decimals. Reading it changes nothing. */
    function Cost(): (r: Result<real>)
      reads this
      ensures r == CostInMillions(costMicros)
      ensures r.Ok? ==> -0.005 <= r.value - AsFloat(costMicros).value / 1000000.0 <= 0.005
    {
      CostInMillions(costMicros)
    }

    /** The stats setter: TeamStats(**stats), which declares nothing beyond
        Stats. */
    method SetStats(a: Arg) returns (r: Result<()>)
      modifies this`stats
      ensures StarTarget(a).Err? ==> r == Err(TypeError) && stats == old(stats)
      ensures StarTarget(a).Ok? ==> (r.Err? <==> StatsError(StarTarget(a).value).Some?)
      ensures StarTarget(a).Ok? && r.Err? ==> r.error == StatsError(StarTarget(a).value).value && stats == old(stats)
      ensures r.Ok? ==> stats != null && fresh(stats) && stats.BuiltFrom(StarTarget(a).value)
    {
      match StarTarget(a)
      case Err(e) =>
        return Err(e);
      case Ok(m) =>
        var built := Stats.Build(m);
        if built.Err? {
          return Err(built.error);
        }
        stats := built.value;
        return Ok(());
    }

    /** Team(**kwargs). */
    static method Build(kwargs: map<string, Json>) returns (r: Result<Team>)
      ensures TeamError(kwargs) == (if r.Err? then Some(r.error) else None)
      ensures r.Ok? ==>
        && fresh(r.value)
        && r.value.id == kwargs["id"] && r.value.name == kwargs["name"]
        && r.value.numRiders == kwargs["num_riders"]
        && r.value.isWildcard == WildcardFlag(PropertyArg(kwargs, "is_wildcard"))
        && r.value.costMicros == PropertyArg(kwargs, "cost")
        && "stats" in kwargs && kwargs["stats"].JObj?
        && r.value.stats != null && fresh(r.value.stats)
        && r.value.stats.BuiltFrom(kwargs["stats"].fields)
    {
      TeamBinds(kwargs);
      if Bind(TeamSignature, kwargs).Err? {
        return Err(TypeError);
      }
      var team := new Team.Scalars(kwargs);
      var s := team.SetStats(PropertyArg(kwargs, "stats"));
      if s.Err? {
        return Err(s.error);
      }
      return Ok(team);
    }
  }
}
