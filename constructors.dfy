/** The constructor (manufacturer) record: plain scalars with the cost kept
    raw, and the nested ConstructorStats. */
module Constructors {
  import opened JsonValues
  import opened Kwargs
  import opened Common

  /** The parameters without a default. */
  const ConstructorScalars: set<string> := {"id", "name", "cost", "num_riders"}

  /** stats is shadowed by its property. */
  const ConstructorProperties: set<string> := {"stats"}

  lemma ConstructorFieldsDisjoint()
    ensures ConstructorScalars !! ConstructorProperties
  {
  }

  const ConstructorSignature: Signature := DataclassSignature(ConstructorScalars, ConstructorProperties, map[])

  /** Constructor(**kwargs) binds exactly when every scalar is named and nothing
      undeclared is. */
  lemma ConstructorBinds(kwargs: map<string, Json>)
    ensures Bind(ConstructorSignature, kwargs).Ok? <==> ConstructorScalars <= kwargs.Keys <= ConstructorScalars + ConstructorProperties
  {
    ConstructorFieldsDisjoint();
    BindsDataclass(ConstructorScalars, ConstructorProperties, map[], kwargs);
  }

  /** The exception Constructor(**kwargs) raises, if any: binding, then the
      stats setter's ConstructorStats(**stats). */
  ghost function ConstructorError(kwargs: map<string, Json>): Option<Error>
  {
    if !(ConstructorScalars <= kwargs.Keys <= ConstructorScalars + ConstructorProperties) then Some(TypeError)
    else if StarTarget(PropertyArg(kwargs, "stats")).Err? then Some(TypeError)
    else StatsError(kwargs["stats"].fields)
  }

  /** A constructor. The stats slot is empty until the stats setter runs. */
  class Constructor {
    const id: Json
    const name: Json
    const cost: Json
    const numRiders: Json
    var stats: Stats?

    /** The generated __init__ up to the stats field. */
    constructor Scalars(kwargs: map<string, Json>)
      requires ConstructorScalars <= kwargs.Keys
      ensures id == kwargs["id"] && name == kwargs["name"]
      ensures cost == kwargs["cost"] && numRiders == kwargs["num_riders"]
      ensures stats == null
    {
      id := kwargs["id"];
      name := kwargs["name"];
      cost := kwargs["cost"];
      numRiders := kwargs["num_riders"];
      stats := null;
    }

    /** The stats getter: the stored ConstructorStats, an AttributeError
        before the setter ran. */
    function StatsValue(): (r: Result<Stats>)
      reads this
      ensures r.Ok? <==> stats != null
      ensures r.Ok? ==> r.value == stats
      ensures r.Err? ==> r.error == AttributeError
    {
      if stats == null then Err(AttributeError)
      else
        var s: Stats := stats;
        Ok(s)
    }

    /** The stats setter: ConstructorStats(**stats), which declares nothing
        beyond Stats. */
    method SetStats(a: Arg) returns (r: Result<()>)
      modifies this`stats
      ensures StarTarget(a).Err? ==> r == Err(TypeError) && stats == old(stats)
      ensures StarTarget(a).Ok? ==> (r.Err? <==> StatsError(StarTarget(a).value).Some?)
      ensures StarTarget(a).Ok? && r.Err? ==> r.error == StatsError(StarTarget(a).value).value && stats == old(stats)
      ensures r.Ok? ==> stats != null && fresh(stats) && stats.BuiltFrom(StarTarget(a).value)
    {
      match StarTarget(a)
      case Err(e) =>
        return Err(e);
      case Ok(m) =>
        var built := Stats.Build(m);
        if built.Err? {
          return Err(built.error);
        }
        stats := built.value;
        return Ok(());
    }

    /** Constructor(**kwargs): id, name, cost and num_riders are stored as
        given. */
    static method Build(kwargs: map<string, Json>) returns (r: Result<Constructor>)
      ensures ConstructorError(kwargs) == (if r.Err? then Some(r.error) else None)
      ensures r.Ok? ==>
        && fresh(r.value)
        && r.value.id == kwargs["id"] && r.value.name == kwargs["name"]
        && r.value.cost == kwargs["cost"] && r.value.numRiders == kwargs["num_riders"]
        && "stats" in kwargs && kwargs["stats"].JObj?
        && r.value.StatsValue().Ok? && fresh(r.value.stats)
        && r.value.StatsValue().value.BuiltFrom(kwargs["stats"].fields)
    {
      ConstructorBinds(kwargs);
      if Bind(ConstructorSignature, kwargs).Err? {
        return Err(TypeError);
      }
      var c := new Constructor.Scalars(kwargs);
      var s := c.SetStats(PropertyArg(kwargs, "stats"));
      if s.Err? {
        return Err(s.error);
      }
      return Ok(c);
    }
  }
}
