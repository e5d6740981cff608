/** `EvilCat.Plugin`, the base class of EvilCat plugins, and `EvilCat.Plugins`,
    the registry of their singleton instances: registration by name, the
    per-instance cache of parsed parameters, and the routing of plugin
    commands issued by the event interpreter. */
module Plugins {
  import opened Values
  import opened Parsers

  /** What a subclass of `EvilCat.Plugin` brings to its instance. */
  datatype PluginClass = PluginClass(
    name: string,                       // the constructor's name (`this.constructor.name`)
    commandsList: Option<seq<string>>,  // what an overriding `makeCommandsList` assigns, if it overrides it
    callable: set<string>,              // the names whose property on an instance is a function
    parsers: map<string, Parser>)       // the class's own static `parse<Type>` members, by member name

  // ---------------------------------------------------------------------------
  // Parameters
  // ---------------------------------------------------------------------------

  /** The value a parameter read produces (or the error it throws), and the
      cache of parsed parameters afterwards. */
  datatype Step = Step(result: Outcome<Value>, cache: map<string, Value>)

  /** JavaScript truthiness of an optional type name: absent and "" are both false. */
  predicate HasType(typeName: Option<string>) {
    typeName.Some? && typeName.value != ""
  }

  /** `_parseParam(param, type, name)`: resolve `"parse" + type` on the plugin's
      class, apply it, and cache the parsed value under `name` when a name is given. */
  function ParseParamSpec(cache: map<string, Value>, overrides: map<string, Parser>,
                          param: Value, typeName: string, name: Option<string>): (s: Step)
    ensures ParserByName(overrides, typeName).None? ==>
              s == Step(Thrown("no parse method for " + typeName), cache)
    ensures ParserByName(overrides, typeName).Some? ==>
              s.result == Apply(ParserByName(overrides, typeName).value, param)
    ensures s.result.Thrown? || name.None? ==> s.cache == cache
    ensures s.result.Ok? && name.Some? ==> s.cache == cache[name.value := s.result.value]
  {
    match ParserByName(overrides, typeName)
    case None => Step(Thrown("no parse method for " + typeName), cache)
    case Some(p) =>
      var parsed := Apply(p, param);
      if parsed.Ok? && name.Some? then Step(parsed, cache[name.value := parsed.value])
      else Step(parsed, cache)
  }

  /** `parameter(name, type, by_default)` on a plugin whose parsed-parameter
      cache is `cache`, whose raw parameter table is `raw` and whose class
      defines the static parsers `overrides`. `byDefault == Undefined` means
      no default was given. */
  function ParameterSpec(cache: map<string, Value>, raw: map<string, Value>, overrides: map<string, Parser>,
                         name: string, typeName: Option<string>, byDefault: Value): (s: Step)
    // a cached name is answered from the cache, whatever the other arguments
    ensures name in cache ==> s == Step(Ok(cache[name]), cache)
    // a missing raw parameter is required unless a default is given
    ensures name !in cache && name !in raw && byDefault == Undefined ==>
              s == Step(Thrown("Required param: " + name), cache)
    // the default is returned as it is, without coercion
    ensures name !in cache && name !in raw && byDefault != Undefined ==> s.result == Ok(byDefault)
    // without a type the raw value is returned as it is
    ensures name !in cache && name in raw && !HasType(typeName) ==> s.result == Ok(raw[name])
    // with a type the raw value goes through the parser resolved from the type
    ensures name !in cache && name in raw && HasType(typeName) ==>
              s == ParseParamSpec(cache, overrides, raw[name], typeName.value, Some(name))
    // the cache only ever gains `name`, bound to the value returned, and only on success
    ensures s.result.Thrown? ==> s.cache == cache
    ensures s.result.Ok? ==> s.cache == cache[name := s.result.value]
  {
    if name in cache then Step(Ok(cache[name]), cache)
    else if name !in raw then
      if byDefault == Undefined then Step(Thrown("Required param: " + name), cache)
      else Step(Ok(byDefault), cache[name := byDefault])
    else
      var param := raw[name];
      if HasType(typeName) then ParseParamSpec(cache, overrides, param, typeName.value, Some(name))
      else Step(Ok(param), cache[name := param])
  }

  /** A parameter is coerced at most once: after a read succeeds, every later
      read of the same name returns the same value and leaves the cache alone,
      even with another type, another default or another raw table. */
  lemma CachedReadIsStable(cache: map<string, Value>, raw: map<string, Value>, overrides: map<string, Parser>,
                           name: string, typeName: Option<string>, byDefault: Value,
                           raw': map<string, Value>, overrides': map<string, Parser>,
                           typeName': Option<string>, byDefault': Value)
    requires ParameterSpec(cache, raw, overrides, name, typeName, byDefault).result.Ok?
    ensures var first := ParameterSpec(cache, raw, overrides, name, typeName, byDefault);
            ParameterSpec(first.cache, raw', overrides', name, typeName', byDefault') == first
  {
  }

  /** A failed read caches nothing, so the same read fails again the same way. */
  lemma FailedReadIsRepeated(cache: map<string, Value>, raw: map<string, Value>, overrides: map<string, Parser>,
                             name: string, typeName: Option<string>, byDefault: Value)
    requires ParameterSpec(cache, raw, overrides, name, typeName, byDefault).result.Thrown?
    ensures var first := ParameterSpec(cache, raw, overrides, name, typeName, byDefault);
            first.cache == cache && name !in cache
  {
  }

  /** A typed read of a present raw value, with no class-specific parsers,
      gives what the base parser of that type gives. */
  lemma {:induction false} TypedReadUsesBaseParser(raw: map<string, Value>, name: string, rule: Rule)
    requires name in raw
    ensures var t := match rule
                     case BoolRule => "Bool" case IntRule => "Int" case FloatRule => "Float"
                     case StringRule => "String" case ColorRule => "Color";
            ParameterSpec(map[], raw, map[], name, Some(t), Undefined).result == Apply(Builtin(rule), raw[name])
  {
    BaseCatalogue();
  }

  // ---------------------------------------------------------------------------
  // Plugin commands
  // ---------------------------------------------------------------------------

  /** An argument of an invoked plugin command: the map event that runs the
      command (`$gameMap.event(eventId)`), or one of the command's words. */
  datatype Arg = EventOf(eventId: int) | Text(s: string)

  /** What a plugin command does: go to the engine's own handler, invoke a
      member of a registered plugin, or throw. */
  datatype Dispatch =
    | Fallback(command: string, args: seq<string>)
    | Invoke(plugin: string, member: string, callArgs: seq<Arg>)
    | Error(msg: string)

  /** `_getCommandMethod(command)`: an undeclared command has no method; a
      declared one must be a function member. `command` is `None` when
      `args[0]` is `undefined`. */
  function GetCommandMethod(validCommands: seq<string>, callable: set<string>,
                            command: Option<string>): (r: Outcome<Option<string>>)
    ensures r.Thrown? <==> command.Some? && command.value in validCommands && command.value !in callable
    ensures r.Thrown? ==> r.msg == "bad plugin command"
    ensures r.Ok? && r.value.Some? <==> command.Some? && command.value in validCommands && command.value in callable
    ensures r.Ok? && r.value.Some? ==> r.value == command
  {
    match command
    case None => Ok(None)
    case Some(c) =>
      if c !in validCommands then Ok(None)
      else if c !in callable then Thrown("bad plugin command")
      else Ok(Some(c))
  }

  function Texts(words: seq<string>): seq<Arg> {
    seq(|words|, i requires 0 <= i < |words| => Text(words[i]))
  }

  /** `_eventCommand(interpreter, args)` on the plugin `plugin`: `args[0]`
      names the member to invoke; the event that runs the command comes
      first among its arguments, followed by `args[1..]`. */
  function EventCommand(plugin: string, validCommands: seq<string>, callable: set<string>,
                        args: seq<string>, eventId: int): (d: Dispatch)
    ensures !d.Fallback?
    ensures d.Invoke? <==> |args| > 0 && args[0] in validCommands && args[0] in callable
    ensures d.Invoke? ==> d.plugin == plugin && d.member == args[0]
    ensures d.Invoke? ==> |d.callArgs| == |args| && d.callArgs[0] == EventOf(eventId)
    ensures d.Invoke? ==> forall i :: 1 <= i < |args| ==> d.callArgs[i] == Text(args[i])
    ensures |args| == 0 ==> d == Error("unknown command undefined")
    ensures |args| > 0 && args[0] !in validCommands ==> d == Error("unknown command " + args[0])
    ensures |args| > 0 && args[0] in validCommands && args[0] !in callable ==> d == Error("bad plugin command")
  {
    var command := if |args| > 0 then Some(args[0]) else None;
    match GetCommandMethod(validCommands, callable, command)
    case Thrown(m) => Error(m)
    case Ok(None) => Error("unknown command " + (if |args| > 0 then args[0] else "undefined"))
    case Ok(Some(c)) => Invoke(plugin, c, [EventOf(eventId)] + Texts(args[1..]))
  }

  // ---------------------------------------------------------------------------
  // The plugin instance and the registry
  // ---------------------------------------------------------------------------

  /** An instance of a subclass of `EvilCat.Plugin`. */
  class Plugin {
    const name: string
    const callable: set<string>
    const parsers: map<string, Parser>
    const commandsList: Option<seq<string>>
    /** The raw parameter table the engine holds for this plugin (`parameters()`). */
    const raw: map<string, Value>
    var validCommands: seq<string>
    var parsedParams: map<string, Value>

    /** The part of the constructor that runs once the name is accepted. */
    constructor (cls: PluginClass, raw: map<string, Value>)
      ensures name == cls.name && callable == cls.callable && parsers == cls.parsers
      ensures commandsList == cls.commandsList && this.raw == raw
      ensures validCommands == cls.commandsList.GetOr([])
      ensures parsedParams == map[]
    {
      name, callable, parsers, commandsList, this.raw := cls.name, cls.callable, cls.parsers, cls.commandsList, raw;
      validCommands := [];
      parsedParams := map[];
      new;
      MakeCommandsList();
    }

    /** `makeCommandsList()`: the base class declares no commands; a subclass
        that overrides it declares its own list. */
    method MakeCommandsList()
      modifies this`validCommands
      ensures commandsList.None? ==> validCommands == []
      ensures commandsList.Some? ==> validCommands == commandsList.value
    {
      match commandsList
      case None => validCommands := [];
      case Some(list) => validCommands := list;
    }

    /** `_parseParam(param, type, name)`. */
    method ParseParam(param: Value, typeName: string, name: Option<string>) returns (r: Outcome<Value>)
      modifies this`parsedParams
      ensures Step(r, parsedParams) == ParseParamSpec(old(parsedParams), parsers, param, typeName, name)
    {
      var parser := ParserByName(parsers, typeName);
      if parser.None? {
        return Thrown("no parse method for " + typeName);
      }
      r := Apply(parser.value, param);
      if r.Ok? && name.Some? {
        parsedParams := parsedParams[name.value := r.value];
      }
    }

    /** `parameter(name, type, by_default)`. */
    method Parameter(name: string, typeName: Option<string>, byDefault: Value) returns (r: Outcome<Value>)
      modifies this`parsedParams
      ensures Step(r, parsedParams) == ParameterSpec(old(parsedParams), raw, parsers, name, typeName, byDefault)
    {
      if name in parsedParams {
        return Ok(parsedParams[name]);
      }
      if name !in raw {
        if byDefault == Undefined {
          return Thrown("Required param: " + name);
        }
        parsedParams := parsedParams[name := byDefault];
        return Ok(byDefault);
      }
      var param := raw[name];
      if HasType(typeName) {
        r := ParseParam(param, typeName.value, Some(name));
      } else {
        parsedParams := parsedParams[name := param];
        r := Ok(param);
      }
    }

    method ParamBool(name: string, byDefault: Value) returns (r: Outcome<Value>)
      modifies this`parsedParams
      ensures Step(r, parsedParams) == ParameterSpec(old(parsedParams), raw, parsers, name, Some("Bool"), byDefault)
    {
      r := Parameter(name, Some("Bool"), byDefault);
    }

    method ParamInt(name: string, byDefault: Value) returns (r: Outcome<Value>)
      modifies this`parsedParams
      ensures Step(r, parsedParams) == ParameterSpec(old(parsedParams), raw, parsers, name, Some("Int"), byDefault)
    {
      r := Parameter(name, Some("Int"), byDefault);
    }

    method ParamFloat(name: string, byDefault: Value) returns (r: Outcome<Value>)
      modifies this`parsedParams
      ensures Step(r, parsedParams) == ParameterSpec(old(parsedParams), raw, parsers, name, Some("Float"), byDefault)
    {
      r := Parameter(name, Some("Float"), byDefault);
    }

    method ParamString(name: string, byDefault: Value) returns (r: Outcome<Value>)
      modifies this`parsedParams
      ensures Step(r, parsedParams) == ParameterSpec(old(parsedParams), raw, parsers, name, Some("String"), byDefault)
    {
      r := Parameter(name, Some("String"), byDefault);
    }

    method ParamColor(name: string, byDefault: Value) returns (r: Outcome<Value>)
      modifies this`parsedParams
      ensures Step(r, parsedParams) == ParameterSpec(old(parsedParams), raw, parsers, name, Some("Color"), byDefault)
    {
      r := Parameter(name, Some("Color"), byDefault);
    }
  }

  /** `EvilCat.Plugins`: the singleton instance of every plugin class, by name. */
  class Registry {
    var plugins: map<string, Plugin>

    /** Every registered plugin is registered under its own, non-empty, name. */
    ghost predicate Valid()
      reads this
    {
      forall k :: k in plugins ==> k != "" && plugins[k].name == k
    }

    constructor ()
      ensures Valid() && plugins == map[]
    {
      plugins := map[];
    }

    /** `new <PluginClass>()`: the `EvilCat.Plugin` constructor checks the
        class's name, registers the new instance and initialises it. */
    method Register(cls: PluginClass, raw: map<string, Value>) returns (r: Outcome<Plugin>)
      requires Valid()
      modifies this
      ensures Valid()
      ensures cls.name == "" ==> r == Thrown("Plugin constructor should have a name!")
      ensures cls.name != "" && cls.name in old(plugins) ==> r == Thrown("Duplicate plugin!")
      ensures r.Thrown? ==> plugins == old(plugins)
      ensures r.Ok? <==> cls.name != "" && cls.name !in old(plugins)
      ensures r.Ok? ==> fresh(r.value) && plugins == old(plugins)[cls.name := r.value]
      ensures r.Ok? ==> r.value.name == cls.name && r.value.raw == raw
      ensures r.Ok? ==> r.value.callable == cls.callable && r.value.parsers == cls.parsers
      ensures r.Ok? ==> r.value.commandsList == cls.commandsList
      ensures r.Ok? ==> r.value.validCommands == cls.commandsList.GetOr([]) && r.value.parsedParams == map[]
    {
      if cls.name == "" {
        return Thrown("Plugin constructor should have a name!");
      } else if cls.name in plugins {
        return Thrown("Duplicate plugin!");
      }
      var p := new Plugin(cls, raw);
      plugins := plugins[cls.name := p];
      r := Ok(p);
    }

    /** `Game_Interpreter.prototype.pluginCommand(command, args)` as patched:
        a command named after a registered plugin goes to that plugin's
        `_eventCommand`; any other goes to the engine's own handler, unchanged. */
    function PluginCommand(command: string, args: seq<string>, eventId: int): (d: Dispatch)
      requires Valid()
      reads this, plugins.Values
      ensures d.Fallback? <==> command !in plugins
      ensures command in plugins ==>
                d == EventCommand(command, plugins[command].validCommands, plugins[command].callable, args, eventId)
      ensures d.Invoke? ==> d.plugin == command && plugins[command].name == command
      ensures d.Fallback? ==> d == Fallback(command, args)
      ensures d.Invoke? ==> command in plugins && |args| > 0 && d.member == args[0]
      ensures d.Invoke? ==> d.member in plugins[command].validCommands && d.member in plugins[command].callable
    {
      if command in plugins then
        var p := plugins[command];
        EventCommand(command, p.validCommands, p.callable, args, eventId)
      else Fallback(command, args)
    }
  }
}
