/** The strategy registry: a name-keyed map of strategies, filled with the three built-ins, and a
    factory handing out a fresh instance per request so that concurrent backtests never share
    prepared state. */
module StrategyRegistry {
  import opened Wrappers
  import SmaCross
  import Rsi
  import Macd
  import MultiConfirm

  datatype StrategyKind = SmaCrossKind | RsiKind | MacdKind | MultiConfirmKind

  /** The `name` each strategy class declares. */
  function KindName(k: StrategyKind): string
  {
    match k
    case SmaCrossKind => "SMA_CROSS"
    case RsiKind => "RSI"
    case MacdKind => "MACD"
    case MultiConfirmKind => "MULTI_CONFIRM"
  }

  /** A strategy object of one of the four classes. */
  datatype Strategy =
    | SmaCrossInstance(sma: SmaCross.SmaCrossStrategy)
    | RsiInstance(rsi: Rsi.RsiStrategy)
    | MacdInstance(macd: Macd.MacdStrategy)
    | MultiConfirmInstance(multi: MultiConfirm.MultiConfirmStrategy)
  {
    function Kind(): StrategyKind
    {
      match this
      case SmaCrossInstance(_) => SmaCrossKind
      case RsiInstance(_) => RsiKind
      case MacdInstance(_) => MacdKind
      case MultiConfirmInstance(_) => MultiConfirmKind
    }

    /** The strategy object itself, for frames. */
    function Instance(): object
    {
      match this
      case SmaCrossInstance(x) => x
      case RsiInstance(x) => x
      case MacdInstance(x) => x
      case MultiConfirmInstance(x) => x
    }
  }

  datatype RegistryError = NotFound(name: string) | NotImplemented(name: string)

  function Message(e: RegistryError): string
  {
    match e
    case NotFound(name) => "Strategy " + name + " not found"
    case NotImplemented(name) => "Strategy " + name + " not implemented in factory"
  }

  /** The names the constructor registers, in order. */
  const BuiltIns: seq<string> := ["SMA_CROSS", "RSI", "MACD"]

  predicate Distinct(names: seq<string>)
  {
    forall i, j :: 0 <= i < j < |names| ==> names[i] != names[j]
  }

  /** The key order of a JavaScript `Map` after `set(name, …)`: a new key goes last, an existing
      key keeps its place. */
  function Registered(names: seq<string>, name: string): (r: seq<string>)
    ensures forall n :: n in r <==> n in names || n == name
    ensures |names| <= |r| && r[..|names|] == names
    ensures Distinct(names) ==> Distinct(r)
  {
    if name in names then names else names + [name]
  }

  /** What `get` decides for a name: the class it builds, or why it throws. The factory only
      knows the three built-in names, whatever else has been registered. */
  function Resolve(names: seq<string>, name: string): (r: Result<StrategyKind, RegistryError>)
    ensures r.Ok? ==> name in names && KindName(r.value) == name
    ensures r == Err(NotFound(name)) <==> name !in names
    ensures r.Ok? ==> r.value != MultiConfirmKind
  {
    if name !in names then Err(NotFound(name))
    else if name == "SMA_CROSS" then Ok(SmaCrossKind)
    else if name == "RSI" then Ok(RsiKind)
    else if name == "MACD" then Ok(MacdKind)
    else Err(NotImplemented(name))
  }

  /** The multi-criteria strategy is not registered, so asking for it fails; once it is
      registered the factory still does not build it. */
  lemma MultiConfirmIsUnavailable(names: seq<string>)
    ensures Resolve(BuiltIns, "MULTI_CONFIRM") == Err(NotFound("MULTI_CONFIRM"))
    ensures Resolve(Registered(names, "MULTI_CONFIRM"), "MULTI_CONFIRM") == Err(NotImplemented("MULTI_CONFIRM"))
  {
  }

  /** Registering never takes a strategy away: whatever `get` built before, it still builds. */
  lemma RegisterKeepsStrategies(names: seq<string>, added: string, name: string)
    requires Resolve(names, name).Ok?
    ensures Resolve(Registered(names, added), name) == Resolve(names, name)
  {
  }

  /** After construction exactly the built-ins resolve, each to its own class. */
  lemma BuiltInsResolve(name: string)
    ensures Resolve(BuiltIns, name).Ok? <==> name in BuiltIns
    ensures Resolve(BuiltIns, name).Ok? ==> KindName(Resolve(BuiltIns, name).value) == name
  {
  }

  class Registry {
    /** The keys of the `strategies` map, in insertion order. */
    var names: seq<string>

    ghost predicate Valid()
      reads this
    {
      Distinct(names)
    }

    /** Registers the three built-ins; the multi-criteria strategy is not among them. */
    constructor()
      ensures Valid() && names == BuiltIns
      ensures "MULTI_CONFIRM" !in names
    {
      names := [];
      new;
      var sma := new SmaCross.SmaCrossStrategy();
      Register(SmaCrossInstance(sma));
      assert names == ["SMA_CROSS"];
      var rsi := new Rsi.RsiStrategy();
      Register(RsiInstance(rsi));
      assert names == ["SMA_CROSS", "RSI"];
      var macd := new Macd.MacdStrategy();
      Register(MacdInstance(macd));
      assert names == BuiltIns;
    }

    /** `register`: stores the strategy under its name. */
    method Register(strategy: Strategy)
      requires Valid()
      modifies this
      ensures Valid() && names == Registered(old(names), KindName(strategy.Kind()))
    {
      var name := KindName(strategy.Kind());
      if name !in names {
        names := names + [name];
      }
    }

    /** `get`: a fresh, unprepared instance of the named strategy, or the reason it throws. */
    method Get(name: string) returns (r: Result<Strategy, RegistryError>)
      ensures r.Err? ==> Resolve(names, name) == Err(r.error)
      ensures r.Ok? ==> Resolve(names, name) == Ok(r.value.Kind())
      ensures r.Ok? && r.value.SmaCrossInstance? ==> fresh(r.value.sma) && r.value.sma.params.None?
      ensures r.Ok? && r.value.RsiInstance? ==> fresh(r.value.rsi) && r.value.rsi.params.None?
      ensures r.Ok? && r.value.MacdInstance? ==> fresh(r.value.macd) && r.value.macd.params.None?
      ensures r.Ok? ==> !r.value.MultiConfirmInstance?
    {
      if name !in names {
        return Err(NotFound(name));
      }
      if name == "SMA_CROSS" {
        var s := new SmaCross.SmaCrossStrategy();
        return Ok(SmaCrossInstance(s));
      }
      if name == "RSI" {
        var s := new Rsi.RsiStrategy();
        return Ok(RsiInstance(s));
      }
      if name == "MACD" {
        var s := new Macd.MacdStrategy();
        return Ok(MacdInstance(s));
      }
      return Err(NotImplemented(name));
    }

    /** `getAvailableStrategies`: the registered names in insertion order, each once. */
    method GetAvailableStrategies() returns (r: seq<string>)
      requires Valid()
      ensures r == names && Distinct(r)
    {
      r := names;
    }
  }
}
