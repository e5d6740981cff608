/** `extractFromMeta` and the `getMeta` member the plugin base adds to the
    engine's actors, map, player, followers and events. */
module Meta {
  import opened Values
  import opened Parsers
  import Plugins

  type MetaTable = map<string, Value>

  /** The `parser` argument: none (`undefined`), a parser's type name, or a
      parser function given directly. */
  datatype ParserArg = NoParser | ByName(typeName: string) | Direct(parser: Parser)

  /** What a meta-data lookup gives: the whole table, one value, or an error. */
  datatype Lookup = Whole(meta: MetaTable) | Found(value: Value) | Failed(msg: string)

  /** JavaScript truthiness of the `parser` argument: "" is false. */
  predicate HasParser(parser: ParserArg) {
    !parser.NoParser? && parser != ByName("")
  }

  /** `extractFromMeta(meta, param, parser, by_default)`. `meta == None` is a
      missing table, `param == None` an undefined key. A parser given by name
      is resolved on `EvilCat.Plugin` itself, so only the base parsers are found. */
  function ExtractFromMeta(meta: Option<MetaTable>, param: Option<string>,
                           parser: ParserArg, byDefault: Value): (r: Lookup)
    // a missing table gives undefined, even when a default is given
    ensures meta.None? ==> r == Found(Undefined)
    // an undefined key gives the whole table
    ensures meta.Some? && param.None? ==> r == Whole(meta.value)
    // a missing key gives the default, which is not parsed
    ensures meta.Some? && param.Some? && param.value !in meta.value ==> r == Found(byDefault)
    ensures meta.Some? && param.Some? && param.value in meta.value ==>
              (!HasParser(parser) ==> r == Found(meta.value[param.value])) &&
              (parser.ByName? && parser.typeName != "" && ParserByName(map[], parser.typeName).None? ==>
                 r == Failed("Bad parser name!"))
    // otherwise the stored value goes through the parser
    ensures meta.Some? && param.Some? && param.value in meta.value && parser.ByName? && parser.typeName != "" &&
            ParserByName(map[], parser.typeName).Some? ==>
              r == FromOutcome(Apply(ParserByName(map[], parser.typeName).value, meta.value[param.value]))
    ensures meta.Some? && param.Some? && param.value in meta.value && parser.Direct? ==>
              r == FromOutcome(Apply(parser.parser, meta.value[param.value]))
    ensures r.Failed? ==> meta.Some? && param.Some? && param.value in meta.value && HasParser(parser)
  {
    match meta
    case None => Found(Undefined)
    case Some(m) =>
      match param
      case None => Whole(m)
      case Some(key) =>
        if key !in m then Found(byDefault)
        else
          var value := m[key];
          match parser
          case NoParser => Found(value)
          case Direct(p) => FromOutcome(Apply(p, value))
          case ByName(t) =>
            if t == "" then Found(value)
            else
              match ParserByName(map[], t)
              case None => Failed("Bad parser name!")
              case Some(p) => FromOutcome(Apply(p, value))
  }

  /** A parser's value is the lookup's value; a parser's error is the lookup's error. */
  function FromOutcome(o: Outcome<Value>): Lookup {
    match o
    case Ok(v) => Found(v)
    case Thrown(msg) => Failed(msg)
  }

  /** Where an entity's meta data comes from: a `_getMetaData()` provider
      (the map, the player, the followers and the events define one, and it
      may find no table), or the entity's own `meta` field (actors), which
      may be missing. */
  datatype MetaSource = Provider(provided: Option<MetaTable>) | OwnField(own: Option<MetaTable>)

  /** `entity.getMeta(param, parser, by_default)`. */
  function GetMeta(source: MetaSource, param: Option<string>, parser: ParserArg, byDefault: Value): (r: Lookup)
    // an entity without a provider and without a table gives the default
    ensures source == OwnField(None) ==> r == Found(byDefault)
    // a provider that finds no table gives undefined, not the default
    ensures source == Provider(None) ==> r == Found(Undefined)
    ensures source.Provider? ==> r == ExtractFromMeta(source.provided, param, parser, byDefault)
    ensures source.OwnField? && source.own.Some? ==> r == ExtractFromMeta(source.own, param, parser, byDefault)
  {
    match source
    case Provider(m) => ExtractFromMeta(m, param, parser, byDefault)
    case OwnField(None) => Found(byDefault)
    case OwnField(Some(m)) => ExtractFromMeta(Some(m), param, parser, byDefault)
  }

  /** Looking a key up in a meta table with a parser named by its type agrees
      with reading a plugin parameter of that type from a table with the same
      contents: the same base parser is applied, and the same error comes back
      when it throws. */
  lemma {:induction false} MetaAgreesWithParameter(m: MetaTable, key: string, typeName: string, byDefault: Value)
    requires key in m && typeName != ""
    requires ParserByName(map[], typeName).Some?
    ensures ExtractFromMeta(Some(m), Some(key), ByName(typeName), byDefault)
            == FromOutcome(Plugins.ParameterSpec(map[], m, map[], key, Some(typeName), byDefault).result)
  {
  }
}
