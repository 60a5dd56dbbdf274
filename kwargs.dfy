/** Keyword binding of a dataclass __init__, and the tolerant from_dict
    builder that fills every declared parameter before calling it. */
module Kwargs {
  import opened JsonValues

  /** How a parameter of a generated __init__ gets a value when no keyword
      supplies one. A field annotated and then shadowed by a @property of the
      same name has the property object itself as its class-level default. */
  datatype Default =
    | Required
    | Property
    | Factory(value: Json)

  /** The parameters of inspect.signature(cls), by name. */
  type Signature = map<string, Default>

  /** What a setter receives: a JSON value, or the property object that stood
      in as the default of a field nobody passed. */
  datatype Arg = Given(value: Json) | PropertyObject

  function DefaultArg(d: Default): Arg
  {
    match d
    case Required => PropertyObject
    case Property => PropertyObject
    case Factory(v) => Given(v)
  }

  /** cls(**kwargs) binds: every keyword is a parameter and every parameter
      without a default is supplied. */
  predicate Binds(sig: Signature, kwargs: map<string, Json>)
  {
    && kwargs.Keys <= sig.Keys
    && forall p :: p in sig && sig[p] == Required ==> p in kwargs
  }

  /** Binding of cls(**kwargs): a TypeError for an unexpected or a missing
      keyword, otherwise one argument per parameter, the keyword's value where
      given and the parameter's default elsewhere. */
  function Bind(sig: Signature, kwargs: map<string, Json>): (r: Result<map<string, Arg>>)
    ensures r.Ok? <==> Binds(sig, kwargs)
    ensures r.Err? ==> r.error == TypeError
    ensures r.Ok? ==> r.value.Keys == sig.Keys
    ensures r.Ok? ==> forall p :: p in kwargs ==> r.value[p] == Given(kwargs[p])
    ensures r.Ok? ==> forall p :: p in sig && p !in kwargs ==> sig[p] != Required && r.value[p] == DefaultArg(sig[p])
  {
    if !Binds(sig, kwargs) then Err(TypeError)
    else Ok(map p | p in sig :: if p in kwargs then Given(kwargs[p]) else DefaultArg(sig[p]))
  }

  /** cls(name=value, **star): the double star needs a mapping, and a key of
      it that repeats an explicit keyword is a TypeError. */
  function BindWith(sig: Signature, explicit: map<string, Json>, star: Json): (r: Result<map<string, Arg>>)
    ensures r.Ok? <==> star.JObj? && explicit.Keys !! star.fields.Keys && Binds(sig, explicit + star.fields)
    ensures r.Err? ==> r.error == TypeError
    ensures r.Ok? ==> forall p :: p in explicit ==> p in r.value && r.value[p] == Given(explicit[p])
  {
    if !star.JObj? || !(explicit.Keys !! star.fields.Keys) then Err(TypeError)
    else Bind(sig, explicit + star.fields)
  }

  /** from_dict: start from {p: None for every parameter p}, update it with
      env, then keep only the parameters. */
  function FromDict(sig: Signature, env: map<string, Json>): (kwargs: map<string, Json>)
    ensures kwargs.Keys == sig.Keys
    ensures forall p :: p in sig && p in env ==> kwargs[p] == env[p]
    ensures forall p :: p in sig && p !in env ==> kwargs[p] == JNull
  {
    var defaultEnv := map p | p in sig :: JNull;
    var updated := defaultEnv + env;
    map k | k in updated && k in sig :: updated[k]
  }

  /** The entry one element of a non-mapping argument gives dict.update: the
      element must be a sequence of exactly two items (a ValueError for any
      other length, a TypeError for what is not iterable); a two-item list
      binds its first item to its second, which must be hashable (a TypeError
      for a list or dict key), a two-character string binds its first
      character to its second, and a key that is no string can name no
      parameter, so only string keys are kept. A two-key dict iterates its
      keys in insertion order, which a JSON object here does not keep, so it
      binds nothing. */
  function UpdateEntry(e: Json): (r: Result<Option<(string, Json)>>)
    ensures r.Err? ==> r.error == TypeError || r.error == ValueError
    ensures (e.JArr? && |e.items| != 2) || (e.JStr? && |e.s| != 2) || (e.JObj? && |e.fields| != 2)
      ==> r == Err(ValueError)
    ensures e.JNull? || e.JBool? || e.JInt? || e.JFloat? ==> r == Err(TypeError)
    ensures e.JArr? && |e.items| == 2 && e.items[0].JStr? ==> r == Ok(Some((e.items[0].s, e.items[1])))
    ensures e.JStr? && |e.s| == 2 ==> r == Ok(Some(([e.s[0]], JStr([e.s[1]]))))
  {
    match e
    case JArr(items) =>
      if |items| != 2 then Err(ValueError)
      else if items[0].JArr? || items[0].JObj? then Err(TypeError)
      else if items[0].JStr? then Ok(Some((items[0].s, items[1])))
      else Ok(None)
    case JStr(s) => if |s| != 2 then Err(ValueError) else Ok(Some(([s[0]], JStr([s[1]]))))
    case JObj(fields) => if |fields| != 2 then Err(ValueError) else Ok(None)
    case _ => Err(TypeError)
  }

  /** env.update(items) for a sequence argument: the elements in order, a
      later entry overwriting an earlier one, the first bad element raising. */
  function UpdatePairs(env: map<string, Json>, items: seq<Json>): (r: Result<map<string, Json>>)
    ensures r.Ok? ==> env.Keys <= r.value.Keys
    ensures r.Ok? <==> forall i :: 0 <= i < |items| ==> UpdateEntry(items[i]).Ok?
    decreases |items|
  {
    if items == [] then Ok(env)
    else match UpdateEntry(items[0])
      case Err(e) => Err(e)
      case Ok(entry) =>
        var next := if entry.Some? then env[entry.value.0 := entry.value.1] else env;
        var r := UpdatePairs(next, items[1..]);
        assert forall i :: 1 <= i < |items| ==> items[i] == items[1..][i - 1];
        r
  }

  /** env.update(other): a dict adds its entries, a list adds those of its
      elements, a string is iterated by characters, each a one-item sequence
      (a ValueError unless the string is empty), and anything else is not
      iterable (a TypeError). */
  function Update(env: map<string, Json>, other: Json): (r: Result<map<string, Json>>)
    ensures other.JObj? ==> r == Ok(env + other.fields)
    ensures other.JStr? ==> r == (if other.s == "" then Ok(env) else Err(ValueError))
    ensures other.JNull? || other.JBool? || other.JInt? || other.JFloat? ==> r == Err(TypeError)
    ensures other.JArr? ==> r == UpdatePairs(env, other.items)
    ensures r.Err? ==> r.error == TypeError || r.error == ValueError
  {
    match other
    case JObj(fields) => Ok(env + fields)
    case JArr(items) => UpdatePairsErrors(env, items); UpdatePairs(env, items)
    case JStr(s) => if s == "" then Ok(env) else Err(ValueError)
    case _ => Err(TypeError)
  }

  /** The exception a sequence update raises is that of its first bad
      element. */
  lemma {:induction false} UpdatePairsErrors(env: map<string, Json>, items: seq<Json>)
    ensures UpdatePairs(env, items).Err? ==> UpdatePairs(env, items).error == TypeError || UpdatePairs(env, items).error == ValueError
    decreases |items|
  {
    if items != [] && UpdateEntry(items[0]).Ok? {
      var entry := UpdateEntry(items[0]).value;
      UpdatePairsErrors(if entry.Some? then env[entry.value.0 := entry.value.1] else env, items[1..]);
    }
  }

  /** The entries from_dict's default environment receives from other: its
      update of the empty dict. */
  function Entries(other: Json): (r: Result<map<string, Json>>)
    ensures other.JObj? ==> r == Ok(other.fields)
  {
    assert other.JObj? ==> map[] + other.fields == other.fields;
    Update(map[], other)
  }

  /** A sequence update writes the same entries over any environment. */
  lemma {:induction false} UpdatePairsOver(env: map<string, Json>, acc: map<string, Json>, items: seq<Json>)
    ensures UpdatePairs(env + acc, items).Ok? ==> UpdatePairs(acc, items).Ok?
    ensures UpdatePairs(env + acc, items).Ok? ==> UpdatePairs(env + acc, items).value == env + UpdatePairs(acc, items).value
    decreases |items|
  {
    if items != [] && UpdateEntry(items[0]).Ok? {
      var entry := UpdateEntry(items[0]).value;
      if entry.Some? {
        assert (env + acc)[entry.value.0 := entry.value.1] == env + acc[entry.value.0 := entry.value.1];
        UpdatePairsOver(env, acc[entry.value.0 := entry.value.1], items[1..]);
      } else {
        UpdatePairsOver(env, acc, items[1..]);
      }
    }
  }

  /** env.update(other) succeeds exactly when other has entries to give, and
      then leaves env with those entries written over it: from_dict's
      default environment updated with other is the defaults overwritten by
      Entries(other). */
  lemma UpdateOver(env: map<string, Json>, other: Json)
    ensures Update(env, other).Ok? <==> Entries(other).Ok?
    ensures Update(env, other).Err? ==> Update(env, other) == Entries(other)
    ensures Update(env, other).Ok? ==> Update(env, other).value == env + Entries(other).value
  {
    if other.JArr? {
      assert env + map[] == env;
      UpdatePairsOver(env, map[], other.items);
      UpdatePairsErrorsAgree(env, map[], other.items);
    }
  }

  /** A sequence update fails on the same element whatever it starts from. */
  lemma {:induction false} UpdatePairsErrorsAgree(env: map<string, Json>, acc: map<string, Json>, items: seq<Json>)
    ensures UpdatePairs(env, items).Err? ==> UpdatePairs(env, items) == UpdatePairs(acc, items)
    decreases |items|
  {
    if items != [] && UpdateEntry(items[0]).Ok? {
      var entry := UpdateEntry(items[0]).value;
      UpdatePairsErrorsAgree(
        if entry.Some? then env[entry.value.0 := entry.value.1] else env,
        if entry.Some? then acc[entry.value.0 := entry.value.1] else acc,
        items[1..]);
    }
  }

  /** A list of the [key, value] pairs of a dict's entries binds that dict:
      dict.update(list(d.items())) is dict.update(d), whatever the order or
      repetition of the pairs, provided every key is listed. */
  lemma {:induction false} UpdateItemPairs(env: map<string, Json>, keys: seq<string>, d: map<string, Json>)
    requires forall i :: 0 <= i < |keys| ==> keys[i] in d
    ensures UpdatePairs(env, ItemPairs(keys, d)) == Ok(env + map k | k in d && k in keys :: d[k])
    decreases |keys|
  {
    if keys != [] {
      var pairs := ItemPairs(keys, d);
      assert pairs[1..] == ItemPairs(keys[1..], d);
      UpdateItemPairs(env[keys[0] := d[keys[0]]], keys[1..], d);
      assert pairs[0] == JArr([JStr(keys[0]), d[keys[0]]]);
      assert env[keys[0] := d[keys[0]]] + (map k | k in d && k in keys[1..] :: d[k])
        == env + map k | k in d && k in keys :: d[k];
    } else {
      assert ItemPairs(keys, d) == [];
      assert UpdatePairs(env, []) == Ok(env);
      assert env + map[] == env;
    }
  }

  /** [[k, d[k]] for k in keys]. */
  function ItemPairs(keys: seq<string>, d: map<string, Json>): seq<Json>
    requires forall i :: 0 <= i < |keys| ==> keys[i] in d
  {
    seq(|keys|, i requires 0 <= i < |keys| && forall j :: 0 <= j < |keys| ==> keys[j] in d => JArr([JStr(keys[i]), d[keys[i]]]))
  }

  /** With every key of d listed, the pairs bind exactly d, as d itself does. */
  lemma EntriesOfItemPairs(keys: seq<string>, d: map<string, Json>)
    requires forall i :: 0 <= i < |keys| ==> keys[i] in d
    requires forall k :: k in d ==> k in keys
    ensures Entries(JArr(ItemPairs(keys, d))) == Entries(JObj(d))
  {
    UpdateItemPairs(map[], keys, d);
    assert (map[] + map k | k in d && k in keys :: d[k]) == d;
  }

  /** Tolerant construction never fails to bind, and never falls back to a
      declared default: every parameter is passed env.get(p). */
  lemma FromDictBinds(sig: Signature, env: map<string, Json>)
    ensures Bind(sig, FromDict(sig, env)).Ok?
    ensures forall p :: p in sig ==> Bind(sig, FromDict(sig, env)).value[p] == Given(Get(env, p))
  {
  }

  /** The signature of a dataclass whose parameters all lack defaults. */
  function AllRequired(names: set<string>): (sig: Signature)
    ensures sig.Keys == names
    ensures forall p :: p in sig ==> sig[p] == Required
  {
    map p | p in names :: Required
  }

  /** With no defaults, a keyword set binds exactly when it names every
      parameter and nothing else. */
  lemma BindsAllRequired(names: set<string>, kwargs: map<string, Json>)
    ensures Binds(AllRequired(names), kwargs) <==> kwargs.Keys == names
  {
  }

  /** The receiver of x.get(...): only a dict has that method; anything else,
      the property object included, raises AttributeError. */
  function GetTarget(a: Arg): (r: Result<map<string, Json>>)
    ensures r.Ok? <==> a.Given? && a.value.JObj?
    ensures r.Ok? ==> r.value == a.value.fields
    ensures r.Err? ==> r.error == AttributeError
  {
    if a.Given? && a.value.JObj? then Ok(a.value.fields) else Err(AttributeError)
  }

  /** The operand of cls(**x): anything but a mapping, the property object
      included, raises TypeError. */
  function StarTarget(a: Arg): (r: Result<map<string, Json>>)
    ensures r.Ok? <==> a.Given? && a.value.JObj?
    ensures r.Ok? ==> r.value == a.value.fields
    ensures r.Err? ==> r.error == TypeError
  {
    if a.Given? && a.value.JObj? then Ok(a.value.fields) else Err(TypeError)
  }

  /** cls(event_num=i, **raw) for a record whose parameters all lack
      defaults: it binds exactly when raw is a mapping whose keys are the
      other parameters, and then every parameter but event_num comes from raw. */
  lemma BindWithPosition(payload: set<string>, i: int, raw: Json)
    requires "event_num" !in payload
    ensures BindWith(AllRequired(payload + {"event_num"}), map["event_num" := JInt(i)], raw).Ok?
      <==> raw.JObj? && raw.fields.Keys == payload
  {
    var explicit := map["event_num" := JInt(i)];
    if raw.JObj? {
      BindsAllRequired(payload + {"event_num"}, explicit + raw.fields);
      if raw.fields.Keys == payload {
        assert (explicit + raw.fields).Keys == payload + {"event_num"};
      }
    }
  }

  /** The argument a property-backed parameter receives: the keyword's value,
      or the property object when the keyword is absent. */
  function PropertyArg(kwargs: map<string, Json>, p: string): Arg
  {
    if p in kwargs then Given(kwargs[p]) else PropertyObject
  }

  /** The signature of a dataclass: the fields named in required have no
      default, those in props are shadowed by properties, and those in
      factories have a default_factory producing the given value. */
  function DataclassSignature(required: set<string>, props: set<string>, factories: map<string, Json>): (sig: Signature)
    requires required !! props && required !! factories.Keys && props !! factories.Keys
    ensures sig.Keys == required + props + factories.Keys
    ensures forall p :: p in required ==> sig[p] == Required
    ensures forall p :: p in props ==> sig[p] == Property
    ensures forall p :: p in factories ==> sig[p] == Factory(factories[p])
  {
    map p | p in required + props + factories.Keys ::
      if p in required then Required else if p in props then Property else Factory(factories[p])
  }

  /** Such a signature binds exactly the keyword sets that name every
      required field and nothing undeclared. */
  lemma BindsDataclass(required: set<string>, props: set<string>, factories: map<string, Json>, kwargs: map<string, Json>)
    requires required !! props && required !! factories.Keys && props !! factories.Keys
    ensures Bind(DataclassSignature(required, props, factories), kwargs).Ok?
      <==> required <= kwargs.Keys <= required + props + factories.Keys
  {
  }

  /** When it binds, a property-backed field receives its keyword or the
      property object, and a field with a factory its keyword or the
      factory's value. */
  lemma BindDataclass(required: set<string>, props: set<string>, factories: map<string, Json>, kwargs: map<string, Json>)
    requires required !! props && required !! factories.Keys && props !! factories.Keys
    ensures Bind(DataclassSignature(required, props, factories), kwargs).Ok? ==>
      forall p :: p in props ==> Bind(DataclassSignature(required, props, factories), kwargs).value[p] == PropertyArg(kwargs, p)
    ensures Bind(DataclassSignature(required, props, factories), kwargs).Ok? ==>
      forall p :: p in factories ==>
        Bind(DataclassSignature(required, props, factories), kwargs).value[p] == Given(if p in kwargs then kwargs[p] else factories[p])
  {
  }
}
