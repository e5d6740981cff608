# EvilCat plugin base and shadow eraser, modelled in Dafny

Two RPG Maker MV plugins from Rim of the Sky.

`EvilCatUtils.js` provides `EvilCat.Plugin`, the base class of EvilCat plugins, and `EvilCat.Plugins`, the registry of their singleton instances. A plugin class is instantiated once and registered under its constructor's name. It reads its configuration through `parameter(name, type, default)`. That method looks the name up in the raw parameter table, applies the required/default policy, coerces the value with a parser resolved by name (`"parse" + type`) and caches the result per name. Plugin commands issued by map events are routed to the plugin named by the command, which invokes the member named by the first argument. The file also provides `EvilCat.Color`, a small RGB class with a hex codec, and `getMeta` / `extractFromMeta`, which read a field of an entity's meta data with an optional parser.

`EraseShadows.js` zeroes the shadow layer of a map's tile data when the map is loaded. That layer is the second-to-last block of `width * height` cells.

Modules:

- `values.dfy`: `Values`. `Option`, `Outcome` (a value or a thrown message) and `Value`, the JavaScript values the code inspects.
- `color.dfy`: `ColorModel`. The flooring constructor, `create_from_hex`, `to_hex`, and both round trips.
- `parsers.dfy`: `Parsers`. `toLowerCase`/`trim`, the five static parsers, and parser lookup by name.
- `plugin.dfy`: `Plugins`. The parameter cache as pure functions, the `Plugin` class (fields `validCommands` and `parsedParams` updated in place), the `Registry` class holding the name → plugin map, and command routing.
- `meta.dfy`: `Meta`. `extractFromMeta` and `getMeta`.
- `erase_shadows.dfy`: `EraseShadows`. An in-place method on the tile-data `array<int>`, proved against `Erased`, a function on sequences.

Host inputs become explicit parameters:

- The raw parameter table is the immutable field `Plugin.raw`.
- The engine's original `pluginCommand` is the `Fallback` outcome.
- The event that runs a command is `EventOf(eventId)`.
- An entity's meta table is a `MetaSource`.
- A plugin class is described by `PluginClass`: its name, its `makeCommandsList` override, the names of its function-valued members and its own static parsers.

Two behaviours of the code are easy to misread; the model follows the code as written:

- A command addressed to a registered plugin whose first word is not in `validCommands` throws `'unknown command ' + args[0]` (EvilCatUtils.js:66-67). It does not fall through to the engine's handler.
- The `Color` constructor floors every channel (EvilCatUtils.js:179-181). Channels are therefore always integers, NaN or ±Infinity (`Color.parse("1e400")` gives `Color(NaN, NaN, Infinity)`); the model leaves out the non-finite values, and `to_hex` never sees fractions.

## Model

| member | source | states |
|---|---|---|
| ColorModel.NewColor | js/plugins/EvilCatUtils.js:177-182 | each channel of the new color is the floor of the argument: c.r <= r < c.r + 1, and the same for g and b |
| ColorModel.JsRem | js/plugins/EvilCatUtils.js:189-190 | JavaScript `%` by a positive divisor: a == trunc(a / d) * d + m with division truncated toward zero, so the remainder lies strictly between -d and d, agrees with `%` on non-negative dividends and is never positive on negative ones |
| ColorModel.CreateFromHex | js/plugins/EvilCatUtils.js:186-193 | for hex >= 0, red and green lie in [0, 255] and blue is hex / 65536; for negative hex every channel is non-positive |
| ColorModel.ToHex | js/plugins/EvilCatUtils.js:206-209 | for byte-sized red and green and non-negative blue, the hex is non-negative, its low byte is red and everything from the third byte up is blue; the hex is below 2^53 (exact as a JavaScript number) iff blue is below 2^37, and below 2^24 when blue is a byte; HexRoundTrip and ColorRoundTrip make it the inverse of create_from_hex |
| ColorModel.NewColorKeepsIntegers | js/plugins/EvilCatUtils.js:179-181 | the constructor leaves integer channels unchanged |
| ColorModel.HexRoundTrip | js/plugins/EvilCatUtils.js:206-209 | to_hex(create_from_hex(n)) == n for every n >= 0 |
| ColorModel.ColorRoundTrip | js/plugins/EvilCatUtils.js:206-209 | create_from_hex(to_hex(c)) == c for every color with red and green in [0, 255] and blue >= 0 (guaranteed in JavaScript's doubles only while blue < 2^37, which covers the promised [0, 255]; above that it can fail) |
| Parsers.ToLowerCase | js/plugins/EvilCatUtils.js:135 | lower-casing keeps the length and maps each character on its own |
| Parsers.TrimStart | js/plugins/EvilCatUtils.js:135 | the result is a suffix of the input, everything dropped is whitespace, and the result does not start with whitespace |
| Parsers.TrimEnd | js/plugins/EvilCatUtils.js:135 | the result is a prefix of the input, everything dropped is whitespace, and the result does not end with whitespace |
| Parsers.Trim | js/plugins/EvilCatUtils.js:135 | the result is empty exactly when the input is all whitespace, and otherwise neither starts nor ends with whitespace |
| Parsers.TrimPadded | js/plugins/EvilCatUtils.js:135 | trim removes exactly the whitespace padding around a word that neither starts nor ends with whitespace |
| Parsers.BoolWordsDisjoint | js/plugins/EvilCatUtils.js:136-137 | no word is accepted both as true and as false |
| Parsers.ParseBool | js/plugins/EvilCatUtils.js:132-139 | booleans pass through. A string gives true iff its trimmed lower-case form is one of true/y/yes/on/1, and false iff it is one of false/n/no/off/0. Any other string throws 'unknown boolean value: ' plus that form. Every other value throws |
| Parsers.ParseBoolPadded | js/plugins/EvilCatUtils.js:135-137 | any casing of an accepted word, padded with any whitespace, parses to that word's boolean |
| Parsers.ParseInt | js/plugins/EvilCatUtils.js:141-145 | never throws; an integer is returned unchanged; anything else goes to the host's numeric coercion |
| Parsers.ParseFloat | js/plugins/EvilCatUtils.js:147-151 | never throws; a finite number (an integer here) is returned unchanged; anything else goes to the host's `Number` |
| Parsers.ParseString | js/plugins/EvilCatUtils.js:153-157 | never throws; a string is returned unchanged; anything else goes to the host's `String` |
| Parsers.ParseColor | js/plugins/EvilCatUtils.js:159-163 | never throws; a Color is returned unchanged; a non-negative integer decodes to a color with byte-sized red and green whose hex is that integer |
| Parsers.ParseColorOfHex | js/plugins/EvilCatUtils.js:184 | parsing the hex of a color with byte-sized red and green and non-negative blue gives back that color (guaranteed in JavaScript's doubles only while blue < 2^37; above that it can fail) |
| Parsers.BaseParser | js/plugins/EvilCatUtils.js:132-163 | the base class has a parser exactly for the five names parseBool, parseInt, parseFloat, parseString and parseColor |
| Parsers.ParserByName | js/plugins/EvilCatUtils.js:123-129 | "parse" + name is found iff the plugin class defines it or the base class does; the class's own parser shadows the base one |
| Parsers.BaseCatalogue | js/plugins/EvilCatUtils.js:123-129 | with no class-specific parsers, Bool, Int, Float, String and Color each resolve to their own base parser |
| Plugins.ParseParamSpec | js/plugins/EvilCatUtils.js:111-118 | an unresolvable type throws 'no parse method for ' + type and caches nothing. Otherwise the result is the parser's result; the cache gains name → result only when parsing succeeds and a name is given |
| Plugins.ParameterSpec | js/plugins/EvilCatUtils.js:90-104 | a cached name returns the cached value whatever the type, default or raw table. A missing raw value with no default throws 'Required param: ' + name. A default is returned uncoerced. A raw value is returned as is without a type and parsed with one. The cache changes only on success, by binding name to the returned value |
| Plugins.CachedReadIsStable | js/plugins/EvilCatUtils.js:92 | after a successful read, any later read of the same name returns the same value and leaves the cache unchanged, even with a different type, default, raw table or parsers |
| Plugins.FailedReadIsRepeated | js/plugins/EvilCatUtils.js:95-99 | a read that throws leaves the cache unchanged and the name uncached |
| Plugins.TypedReadUsesBaseParser | js/plugins/EvilCatUtils.js:101-102 | on a plugin without its own parsers, a typed read of a present value gives what the base parser of that type gives |
| Plugins.GetCommandMethod | js/plugins/EvilCatUtils.js:73-79 | an undeclared or undefined command has no method. A declared command throws 'bad plugin command' iff it is not a function member, and otherwise resolves to itself |
| Plugins.EventCommand | js/plugins/EvilCatUtils.js:64-71 | never falls back. It invokes args[0] iff args[0] is declared and callable, passing the triggering event first and then args[1..]. Empty args throw 'unknown command undefined', an undeclared command throws 'unknown command ' + args[0], and a declared command without a function throws 'bad plugin command' |
| Plugins.Plugin.constructor | js/plugins/EvilCatUtils.js:47-57 | a new instance has its class's name, the commands its makeCommandsList declares (none by default) and an empty parsed-parameter cache |
| Plugins.Plugin.MakeCommandsList | js/plugins/EvilCatUtils.js:62 | the base class declares no valid commands; an overriding class declares its own list |
| Plugins.Plugin.ParseParam | js/plugins/EvilCatUtils.js:111-118 | the returned value and the new cache are those of ParseParamSpec on the old cache |
| Plugins.Plugin.Parameter | js/plugins/EvilCatUtils.js:90-104 | the returned value and the new cache are those of ParameterSpec on the old cache |
| Plugins.Plugin.ParamBool | js/plugins/EvilCatUtils.js:105 | a parameter read with type Bool |
| Plugins.Plugin.ParamInt | js/plugins/EvilCatUtils.js:106 | a parameter read with type Int |
| Plugins.Plugin.ParamFloat | js/plugins/EvilCatUtils.js:107 | a parameter read with type Float |
| Plugins.Plugin.ParamString | js/plugins/EvilCatUtils.js:108 | a parameter read with type String |
| Plugins.Plugin.ParamColor | js/plugins/EvilCatUtils.js:109 | a parameter read with type Color |
| Plugins.Registry.constructor | js/plugins/EvilCatUtils.js:165 | the registry starts empty |
| Plugins.Registry.Register | js/plugins/EvilCatUtils.js:47-57 | an empty name throws 'Plugin constructor should have a name!'. A taken name throws 'Duplicate plugin!'. On either error the registry is unchanged. Otherwise the registry gains exactly name → a fresh instance, with its declared commands and an empty cache, and every plugin stays registered under its own non-empty name. The new instance carries the class's name, raw table, declared commands, callable members and own parsers, with an empty cache |
| Plugins.Registry.PluginCommand | js/plugins/EvilCatUtils.js:167-172 | a command falls back to the engine's handler iff no plugin is registered under its name, and then with the command and arguments unchanged. A command for a registered plugin is exactly that plugin's `_eventCommand` (EventCommand) on its declared commands and callable members, so every error and the forwarded arguments carry over. An invoked plugin is the one registered under the command's own name |
| Meta.ExtractFromMeta | js/plugins/EvilCatUtils.js:214-232 | a missing table gives undefined even when a default is given. An undefined key gives the whole table; a missing key gives the default unparsed. An unresolvable parser name throws 'Bad parser name!'. Otherwise the value is returned through the parser, or raw without one. Errors arise only from a present key with a parser |
| Meta.GetMeta | js/plugins/EvilCatUtils.js:234-241 | an entity with neither a meta-data provider nor a meta table gives the default. A provider that finds no table gives undefined, not the default. Otherwise it is extractFromMeta on the table |
| Meta.MetaAgreesWithParameter | js/plugins/EvilCatUtils.js:226-229 | a meta lookup with a parser named by type agrees with a typed parameter read of the same table and key, errors included |
| EraseShadows.Erased | js/plugins/EraseShadows.js:23-30 | with c = width * height and len the data length: indices in [len - 2c, len - c) hold 0, every other index keeps its value, and the length is unchanged |
| EraseShadows.ErasedTwice | js/plugins/EraseShadows.js:26-29 | erasing twice leaves the same data as erasing once |
| EraseShadows.ErasedEmptyMap | js/plugins/EraseShadows.js:25-26 | a map with no cells keeps its data |
| EraseShadows.EraseShadowsOf | js/plugins/EraseShadows.js:23-30 | after the in-place loop, the tile data array equals Erased of its old contents |
| EraseShadows.DataMap.constructor | js/plugins/EraseShadows.js:25 | a map record holds the given width, height and tile data |

## Left out

- Host-engine glue is not modelled: the `DataManager.onLoad` wrapper (EraseShadows.js:15-21), the `Game_Interpreter.prototype.pluginCommand` patch's host objects, and the `getMeta` / `_getMetaData` installations on `Game_Actor`, `Game_Map`, `Game_Player`, `Game_Follower` and `Game_Event` (EvilCatUtils.js:243-272). Their inputs are explicit: `MetaSource`, `eventId` and the `Fallback` outcome.
- `merge_with_color` and `merge_with_white` (EvilCatUtils.js:195-204) are left out. They blend with fractional factors, which is floating-point arithmetic.
- Parsers.ParseInt: `Math.floor(Number(x))` on a non-integer is not computed. The result is the symbolic `Unconverted("Int", x)`. JavaScript's numeric-literal grammar, fractional numbers and NaN are not modelled.
- Parsers.ParseFloat: the `Value` type has no fractional numbers. Only integers pass through; every other input goes to the symbolic `Unconverted("Float", x)`.
- Parsers.ParseString: `String(x)` on a non-string is not computed. The result is the symbolic `Unconverted("String", x)`.
- Parsers.ParseColor: `Color.parse` is decoded only on integer input. On other input, `Number(x)` is not computed and the result is `Unconverted("Color", x)`.
- Parsers.ToLowerCase: only ASCII letters are lower-cased. Non-ASCII case mappings are left out. They do not change which strings `parseBool` accepts, but they can change the text of its error message.
- Parsers.ParseBool: on a value that is neither a boolean nor a string, the TypeError's exact wording depends on the engine. The model uses one fixed message.
- Class-name introspection (`this.constructor.name`), the `static` getter and static inheritance are JavaScript runtime features. They are replaced by the explicit `PluginClass` description: its name, its `makeCommandsList` override, its function-valued member names and its own `parse<Type>` members, which are checked before the base ones.
- The `_paramaters` misspelling (EvilCatUtils.js:84) makes `parameters()` re-fetch the raw table on every call. The raw table is modelled as the immutable field `Plugin.raw`, so this re-fetching is not captured.
- Plugins.Registry.PluginCommand: the registry is a Dafny `map`. JavaScript object-prototype keys on `EvilCat.Plugins` are not modelled: a command or plugin named `toString` or `constructor` would find an inherited property. Likewise, keys named `hasOwnProperty` are not modelled: a cached parameter of that name (which a default at EvilCatUtils.js:98 can produce) breaks the look-up at line 92, a raw-table key of that name breaks line 95, and a meta key of that name breaks line 220.
- Plugins.CachedReadIsStable: a parameter named `__proto__` is never cached in JavaScript, because the writes at EvilCatUtils.js:98, 103 and 116 go to the prototype setter and add no own key; every read of that name is repeated from the raw table or default. The model's cache is a `map` and caches that name like any other, so the lemma's "at most once" does not hold in JavaScript for `__proto__`.
- ColorModel.ToHex: JavaScript numbers are doubles, exact only below 2^53. Its `h % 0x100 == c.r` and `h / 0x10000 == c.b`, and with them ColorModel.ColorRoundTrip and Parsers.ParseColorOfHex, are guaranteed in JavaScript only while the hex is below 2^53, which ToHex states is exactly when blue is below 2^37; for a blue channel in the promised [0, 255] the hex is below 2^24. Above 2^53 they can fail: `Color(1, 0, 2^37)` gives 2^53 + 1, which rounds to 2^53 and decodes with red 0, while `Color(0, 0, 2^37)` and `Color(2, 0, 2^37)` still round-trip because their sums are representable. The model's `int` is unbounded, so it does not capture this rounding.
- ColorModel.ColorRoundTrip: guaranteed in JavaScript only for blue below 2^37, and can fail above; see the ColorModel.ToHex line.
- Parsers.ParseColorOfHex: guaranteed in JavaScript only for blue below 2^37, and can fail above; see the ColorModel.ToHex line.
- Plugins.EventCommand: the invoked member is not run. Its effect belongs to the individual plugin, and the model stops at the `Invoke` outcome.
- EraseShadows.EraseShadowsOf: it requires `2 * width * height <= data.length`. When that fails, the loop writes to negative indices, which in JavaScript creates object properties rather than array elements. Width and height are modelled as naturals.
