/** The static parsers of `EvilCat.Plugin` (`parseBool`, `parseInt`,
    `parseFloat`, `parseString`, `parseColor`) and their lookup by name
    (`_parserByName`). */
module Parsers {
  import opened Values
  import opened ColorModel

  // ---------------------------------------------------------------------------
  // String.prototype.toLowerCase and String.prototype.trim
  // ---------------------------------------------------------------------------

  /** The characters `trim` removes: ECMAScript's WhiteSpace (tab, vertical
      tab, form feed, space, no-break space, byte order mark and the Unicode
      space separators) and LineTerminator. */
  predicate IsJsSpace(c: char) {
    c in {'\t', '\U{000B}', '\U{000C}', ' ', '\U{00A0}', '\U{FEFF}',
          '\U{1680}', '\U{2000}', '\U{2001}', '\U{2002}', '\U{2003}', '\U{2004}', '\U{2005}',
          '\U{2006}', '\U{2007}', '\U{2008}', '\U{2009}', '\U{200A}', '\U{202F}', '\U{205F}', '\U{3000}',
          '\n', '\r', '\U{2028}', '\U{2029}'}
  }

  predicate AllSpace(s: string) {
    forall i :: 0 <= i < |s| ==> IsJsSpace(s[i])
  }

  /** Lower-casing of one character (ASCII letters only; see README). */
  function LowerChar(c: char): (l: char)
    ensures 'A' <= c <= 'Z' ==> 'a' <= l <= 'z' && l as int - c as int == 32
    ensures !('A' <= c <= 'Z') ==> l == c
  {
    if 'A' <= c <= 'Z' then (c as int + 32) as char else c
  }

  function ToLowerCase(s: string): (r: string)
    ensures |r| == |s|
    ensures forall i :: 0 <= i < |s| ==> r[i] == LowerChar(s[i])
  {
    if s == [] then [] else [LowerChar(s[0])] + ToLowerCase(s[1..])
  }

  /** Drops the leading whitespace: the result is a suffix of `s`, everything
      dropped is whitespace and the result does not start with whitespace. */
  function TrimStart(s: string): (r: string)
    ensures |r| <= |s| && r == s[|s| - |r|..]
    ensures AllSpace(s[..|s| - |r|])
    ensures r != [] ==> !IsJsSpace(r[0])
  {
    if s != [] && IsJsSpace(s[0]) then TrimStart(s[1..]) else s
  }

  /** Drops the trailing whitespace: the result is a prefix of `s`, everything
      dropped is whitespace and the result does not end with whitespace. */
  function TrimEnd(s: string): (r: string)
    ensures |r| <= |s| && r == s[..|r|]
    ensures AllSpace(s[|r|..])
    ensures r != [] ==> !IsJsSpace(r[|r| - 1])
  {
    if s != [] && IsJsSpace(s[|s| - 1]) then TrimEnd(s[..|s| - 1]) else s
  }

  /** `trim`: the result is empty exactly when `s` is all whitespace, and
      otherwise neither starts nor ends with whitespace. */
  function Trim(s: string): (r: string)
    ensures |r| <= |s|
    ensures r == [] <==> AllSpace(s)
    ensures r != [] ==> !IsJsSpace(r[0]) && !IsJsSpace(r[|r| - 1])
  {
    var t := TrimStart(s);
    assert s == s[..|s| - |t|] + t;
    TrimEnd(t)
  }

  /** Padding a word that neither starts nor ends with whitespace is undone by `trim`. */
  lemma {:induction false} TrimPadded(p: string, w: string, q: string)
    requires AllSpace(p) && AllSpace(q)
    requires w != [] && !IsJsSpace(w[0]) && !IsJsSpace(w[|w| - 1])
    ensures Trim(p + w + q) == w
  {
    TrimStartPadded(p, w + q);
    assert p + w + q == p + (w + q);
    TrimEndPadded(w, q);
  }

  lemma {:induction false} TrimStartPadded(p: string, s: string)
    requires AllSpace(p) && s != [] && !IsJsSpace(s[0])
    ensures TrimStart(p + s) == s
  {
    if p != [] {
      assert (p + s)[1..] == p[1..] + s;
      TrimStartPadded(p[1..], s);
    } else {
      assert p + s == s;
    }
  }

  lemma {:induction false} TrimEndPadded(s: string, q: string)
    requires AllSpace(q) && s != [] && !IsJsSpace(s[|s| - 1])
    ensures TrimEnd(s + q) == s
  {
    if q != [] {
      assert (s + q)[..|s + q| - 1] == s + q[..|q| - 1];
      TrimEndPadded(s, q[..|q| - 1]);
    } else {
      assert s + q == s;
    }
  }

  lemma {:induction false} LowerConcat(a: string, b: string)
    ensures ToLowerCase(a + b) == ToLowerCase(a) + ToLowerCase(b)
  {
    var l, r := ToLowerCase(a + b), ToLowerCase(a) + ToLowerCase(b);
    assert |l| == |r|;
    forall i | 0 <= i < |l| ensures l[i] == r[i] {
      if i < |a| {
        assert (a + b)[i] == a[i];
      } else {
        assert (a + b)[i] == b[i - |a|];
      }
    }
  }

  // ---------------------------------------------------------------------------
  // The parsers
  // ---------------------------------------------------------------------------

  /** The words `parseBool` reads as true and as false, after lower-casing and trimming. */
  const TrueWords: set<string> := {"true", "y", "yes", "on", "1"}
  const FalseWords: set<string> := {"false", "n", "no", "off", "0"}

  /** No word means both true and false, so `parseBool` is well defined. */
  lemma BoolWordsDisjoint()
    ensures TrueWords !! FalseWords
  {
  }

  /** `parseBool`: booleans pass through; a string is lower-cased, trimmed and
      classified; any other value has no `toLowerCase` and raises a TypeError. */
  function ParseBool(param: Value): (r: Outcome<Value>)
    ensures r.Ok? ==> r.value.Boolean?
    ensures param.Boolean? ==> r == Ok(param)
    ensures param.Str? ==> (r == Ok(Boolean(true)) <==> Trim(ToLowerCase(param.s)) in TrueWords)
    ensures param.Str? ==> (r == Ok(Boolean(false)) <==> Trim(ToLowerCase(param.s)) in FalseWords)
    ensures param.Str? && r.Thrown? ==> r.msg == "unknown boolean value: " + Trim(ToLowerCase(param.s))
    ensures !param.Boolean? && !param.Str? ==> r.Thrown?
  {
    BoolWordsDisjoint();
    match param
    case Boolean(_) => Ok(param)
    case Str(s) =>
      var t := Trim(ToLowerCase(s));
      if t in TrueWords then Ok(Boolean(true))
      else if t in FalseWords then Ok(Boolean(false))
      else Thrown("unknown boolean value: " + t)
    case _ => Thrown("param.toLowerCase is not a function")
  }

  /** No accepted word is empty or begins or ends with whitespace. */
  lemma AcceptedWordUntrimmed(w: string)
    requires w in TrueWords + FalseWords
    ensures w != [] && !IsJsSpace(w[0]) && !IsJsSpace(w[|w| - 1])
  {
    assert w in {"true", "y", "yes", "on", "1", "false", "n", "no", "off", "0"};
    if w == "true" || w == "false" || w == "yes" || w == "off" || w == "no" || w == "on" {
      assert 'a' <= w[0] <= 'z' && 'a' <= w[|w| - 1] <= 'z';
    } else {
      assert |w| == 1;
    }
  }

  /** Every casing of an accepted word, padded with any whitespace, is accepted. */
  lemma {:induction false} ParseBoolPadded(p: string, s: string, q: string)
    requires AllSpace(p) && AllSpace(q)
    requires ToLowerCase(s) in TrueWords + FalseWords
    ensures ParseBool(Str(p + s + q)) == Ok(Boolean(ToLowerCase(s) in TrueWords))
  {
    var w := ToLowerCase(s);
    LowerOfSpaces(p);
    LowerOfSpaces(q);
    LowerConcat(p, s);
    LowerConcat(p + s, q);
    assert ToLowerCase(p + s + q) == p + w + q;
    AcceptedWordUntrimmed(w);
    TrimPadded(p, w, q);
    assert Trim(ToLowerCase(p + s + q)) == w;
  }

  /** Lower-casing leaves whitespace alone. */
  lemma LowerOfSpaces(p: string)
    requires AllSpace(p)
    ensures ToLowerCase(p) == p
  {
    forall i | 0 <= i < |p| ensures ToLowerCase(p)[i] == p[i] {
      assert IsJsSpace(p[i]);
    }
  }

  /** `parseInt`: an integer passes through; anything else goes through the
      host's `Math.floor(Number(param))`, which is not computed here. */
  function ParseInt(param: Value): (r: Outcome<Value>)
    ensures r.Ok?
    ensures param.Integer? ==> r.value == param
    ensures !param.Integer? ==> r.value == Unconverted("Int", param)
  {
    if param.Integer? then Ok(param) else Ok(Unconverted("Int", param))
  }

  /** `parseFloat`: a finite number (here, an integer) passes through;
      anything else goes through the host's `Number(param)`. */
  function ParseFloat(param: Value): (r: Outcome<Value>)
    ensures r.Ok?
    ensures param.Integer? ==> r.value == param
    ensures !param.Integer? ==> r.value == Unconverted("Float", param)
  {
    if param.Integer? then Ok(param) else Ok(Unconverted("Float", param))
  }

  /** `parseString`: a string passes through; anything else goes through the
      host's `String(param)`. */
  function ParseString(param: Value): (r: Outcome<Value>)
    ensures r.Ok?
    ensures param.Str? ==> r.value == param
    ensures !param.Str? ==> r.value == Unconverted("String", param)
  {
    if param.Str? then Ok(param) else Ok(Unconverted("String", param))
  }

  /** `parseColor`: a Color passes through; anything else is decoded by
      `Color.parse`, i.e. `create_from_hex(Number(param))`. `Number` is the
      identity on an integer; on other values it is the host's. */
  function ParseColor(param: Value): (r: Outcome<Value>)
    ensures r.Ok?
    ensures param.ColorObj? ==> r.value == param
    ensures param.Integer? && param.i >= 0 ==> r.value.ColorObj? && ToHex(r.value.c) == param.i
    ensures param.Integer? && param.i >= 0 ==> 0 <= r.value.c.r < 0x100 && 0 <= r.value.c.g < 0x100
  {
    match param
    case ColorObj(_) => Ok(param)
    case Integer(n) =>
      if n >= 0 then HexRoundTrip(n); Ok(ColorObj(CreateFromHex(n)))
      else Ok(ColorObj(CreateFromHex(n)))
    case _ => Ok(Unconverted("Color", param))
  }

  /** A color written as its hex number parses back to that color. */
  lemma ParseColorOfHex(c: Color)
    requires 0 <= c.r < 0x100 && 0 <= c.g < 0x100 && 0 <= c.b
    ensures ParseColor(Integer(ToHex(c))) == Ok(ColorObj(c))
  {
    ColorRoundTrip(c);
  }

  // ---------------------------------------------------------------------------
  // Lookup by name
  // ---------------------------------------------------------------------------

  datatype Rule = BoolRule | IntRule | FloatRule | StringRule | ColorRule

  /** A parser: one of the base class's static parsers, or a function a plugin
      class defines as its own static `parse<Type>`. */
  datatype Parser = Builtin(rule: Rule) | Custom(run: Value -> Outcome<Value>)

  function Apply(p: Parser, param: Value): Outcome<Value> {
    match p
    case Builtin(BoolRule) => ParseBool(param)
    case Builtin(IntRule) => ParseInt(param)
    case Builtin(FloatRule) => ParseFloat(param)
    case Builtin(StringRule) => ParseString(param)
    case Builtin(ColorRule) => ParseColor(param)
    case Custom(f) => f(param)
  }

  /** The names of the static parsers `EvilCat.Plugin` defines. */
  const BaseParserNames: set<string> := {"parseBool", "parseInt", "parseFloat", "parseString", "parseColor"}

  /** The static member `member` of `EvilCat.Plugin`, if it is a parser. */
  function BaseParser(member: string): (r: Option<Parser>)
    ensures r.Some? <==> member in BaseParserNames
    ensures r.Some? ==> r.value.Builtin?
  {
    if member == "parseBool" then Some(Builtin(BoolRule))
    else if member == "parseInt" then Some(Builtin(IntRule))
    else if member == "parseFloat" then Some(Builtin(FloatRule))
    else if member == "parseString" then Some(Builtin(StringRule))
    else if member == "parseColor" then Some(Builtin(ColorRule))
    else None
  }

  /** `_parserByName(name)` resolved on a plugin class whose own static parsers
      are `overrides` (keyed by method name): the class's own `parse<name>`
      shadows the inherited one. On `EvilCat.Plugin` itself `overrides` is empty. */
  function ParserByName(overrides: map<string, Parser>, parserName: string): (r: Option<Parser>)
    ensures r.Some? <==> ("parse" + parserName in overrides || "parse" + parserName in BaseParserNames)
    ensures "parse" + parserName in overrides ==> r == Some(overrides["parse" + parserName])
    ensures "parse" + parserName !in overrides ==> r == BaseParser("parse" + parserName)
  {
    var member := "parse" + parserName;
    if member in overrides then Some(overrides[member]) else BaseParser(member)
  }

  /** With no overrides, each of the five type names resolves to its own base parser. */
  lemma BaseCatalogue()
    ensures ParserByName(map[], "Bool") == Some(Builtin(BoolRule))
    ensures ParserByName(map[], "Int") == Some(Builtin(IntRule))
    ensures ParserByName(map[], "Float") == Some(Builtin(FloatRule))
    ensures ParserByName(map[], "String") == Some(Builtin(StringRule))
    ensures ParserByName(map[], "Color") == Some(Builtin(ColorRule))
  {
    assert "parse" + "Bool" == "parseBool";
    assert "parse" + "Int" == "parseInt";
    assert "parse" + "Float" == "parseFloat";
    assert "parse" + "String" == "parseString";
    assert "parse" + "Color" == "parseColor";
  }
}
