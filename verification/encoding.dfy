/** Resolution of one channel argument into a Vega-Lite encoding object:
    Altair-style type suffixes, type inference from a column's storage type,
    and the literal-versus-column fallback. */
module Encoding {

  import opened Results
  import opened JsonData

  const Quantitative := "quantitative"
  const Ordinal := "ordinal"
  const Nominal := "nominal"
  const Temporal := "temporal"
  const Geojson := "geojson"

  /** The Altair shorthands: a two-character suffix naming the field type. */
  const SuffixToType: map<string, string> :=
    map[":Q" := Quantitative, ":O" := Ordinal, ":N" := Nominal, ":T" := Temporal, ":G" := Geojson]

  /** Storage types read as nominal; this set is tested first. */
  const NominalDtypes: set<string> := {"object", "string", "bool", "categorical"}

  /** Storage types read as quantitative (the repeated "string" can never
      reach this set, since the nominal set is tested first). */
  const NumericDtypes: set<string> := {"float64", "float32", "int64", "int32", "int8", "string"}

  const DatetimePrefix := "datetime64"

  /** What a caller may pass for one channel. Python booleans and floats are
      not modelled separately: a literal number is an integer here. */
  datatype ChannelArg =
    | Str(name: string)
    | Num(n: int)
    | Obj(enc: Dict)
    | Absent

  /** Python truthiness of a channel argument. */
  predicate ArgTruthy(a: ChannelArg) {
    match a
    case Str(s) => s != ""
    case Num(n) => n != 0
    case Obj(m) => |m| > 0
    case Absent => false
  }

  /** The shorthand string for field `name` with suffix `code`, e.g. "price:Q". */
  function Shorthand(name: string, code: string): string {
    name + code
  }

  /** Splits an Altair shorthand such as "price:Q" into ("price", quantitative).
      Strings of two characters or fewer, and strings with any other ending,
      come back unchanged with no type. */
  function SplitSuffix(s: string): (r: (string, Option<string>))
    ensures r.1.Some? ==>
      && |s| > 2
      && |r.0| > 0
      && s[|s| - 2..] in SuffixToType
      && s == Shorthand(r.0, s[|s| - 2..])
      && r.1.value == SuffixToType[s[|s| - 2..]]
    ensures r.1.None? ==> r.0 == s && (|s| <= 2 || s[|s| - 2..] !in SuffixToType)
  {
    if |s| > 2 && s[|s| - 2..] in SuffixToType then
      (s[..|s| - 2], Some(SuffixToType[s[|s| - 2..]]))
    else
      (s, None)
  }

  /** Appending a recognised suffix to a non-empty name and splitting again
      gives back the name and the suffix's type. */
  lemma SplitShorthand(name: string, code: string)
    requires |name| > 0 && code in SuffixToType
    ensures SplitSuffix(Shorthand(name, code)) == (name, Some(SuffixToType[code]))
  {
    var s := Shorthand(name, code);
    assert |code| == 2;
    assert s[|s| - 2..] == code;
    assert s[..|s| - 2] == name;
  }

  /** Every type a suffix can name is one of the five Vega-Lite field types,
      and no two suffixes name the same type. */
  lemma SuffixTypesDistinct(c1: string, c2: string)
    requires c1 in SuffixToType && c2 in SuffixToType
    ensures SuffixToType[c1] in {Quantitative, Ordinal, Nominal, Temporal, Geojson}
    ensures SuffixToType[c1] == SuffixToType[c2] <==> c1 == c2
  {
  }

  /** The type a column's storage type suggests, if any. */
  function DtypeKind(dtype: string): (r: Option<string>)
    ensures r.Some? ==> r.value in {Nominal, Quantitative, Temporal}
    ensures r == Some(Nominal) <==> dtype in NominalDtypes
    ensures r == Some(Quantitative) <==> dtype !in NominalDtypes && dtype in NumericDtypes
    ensures r == Some(Temporal) <==>
      dtype !in NominalDtypes && dtype !in NumericDtypes && IsPrefix(DatetimePrefix, dtype)
  {
    if dtype in NominalDtypes then Some(Nominal)
    else if dtype in NumericDtypes then Some(Quantitative)
    else if IsPrefix(DatetimePrefix, dtype) then Some(Temporal)
    else None
  }

  predicate IsPrefix(p: string, s: string) {
    |p| <= |s| && s[..|p|] == p
  }

  /** "string" is listed among both the nominal and the numeric storage
      types; the nominal test comes first, so it reads as nominal. */
  lemma StringDtypeIsNominal()
    ensures "string" in NumericDtypes
    ensures DtypeKind("string") == Some(Nominal)
  {
  }

  /** Outcome of guessing a string argument: a field with an optional type,
      or (when the string is no column) a literal value. */
  datatype Guess = AsField(name: string, kind: Option<string>) | AsValue(literal: string)

  /** Guess what a string channel argument means, in strict priority order:
      shorthand suffix, then column lookup, then storage type. */
  function GuessType(data: Table, s: string): (r: Guess)
    requires ValidTable(data)
    ensures SplitSuffix(s).1.Some? ==> r == AsField(SplitSuffix(s).0, SplitSuffix(s).1)
    ensures SplitSuffix(s).1.None? && s !in data.columns ==> r == AsValue(s)
    ensures SplitSuffix(s).1.None? && s in data.columns ==> r == AsField(s, DtypeKind(data.dtypes[s]))
    ensures r.AsValue? <==> SplitSuffix(s).1.None? && s !in data.columns
  {
    var (prefix, suffixType) := SplitSuffix(s);
    if suffixType.Some? then AsField(prefix, suffixType)
    else if s !in data.columns then AsValue(s)
    else AsField(s, DtypeKind(data.dtypes[s]))
  }

  /** A shorthand is resolved before any column lookup: two tables give the
      same answer for it, even if one has a column spelled like the shorthand. */
  lemma ShorthandIgnoresData(d1: Table, d2: Table, name: string, code: string)
    requires ValidTable(d1) && ValidTable(d2)
    requires |name| > 0 && code in SuffixToType
    ensures GuessType(d1, name + code) == GuessType(d2, name + code)
    ensures GuessType(d1, name + code) == AsField(name, Some(SuffixToType[code]))
  {
    SplitShorthand(name, code);
  }

  function KindJson(kind: Option<string>): Json {
    match kind
    case None => JNull
    case Some(t) => JStr(t)
  }

  /** `_clean_encoding`: resolve one channel argument into an encoding
      object, merged with the caller's options `opts`.
      - a string with a pinned "type" option becomes a field as written;
      - a string naming a field gets {field, type} and every option overrides;
      - a string that is no column becomes the options plus {value};
      - a number gets {value} and every option overrides;
      - a custom dict keeps its own keys over the options;
      - an absent argument gives exactly the options. */
  function Clean(data: Table, arg: ChannelArg, opts: Dict): (r: Dict)
    requires ValidTable(data)
    ensures arg.Str? && "type" in opts ==>
      && r.Keys == opts.Keys + {"field"}
      && (forall k :: k in opts ==> r[k] == opts[k])
      && ("field" !in opts ==> r["field"] == JStr(arg.name))
    ensures arg.Str? && "type" !in opts && GuessType(data, arg.name).AsField? ==>
      && r.Keys == opts.Keys + {"field", "type"}
      && (forall k :: k in opts ==> r[k] == opts[k])
      && ("field" !in opts ==> r["field"] == JStr(GuessType(data, arg.name).name))
      && r["type"] == KindJson(GuessType(data, arg.name).kind)
    ensures arg.Str? && "type" !in opts && GuessType(data, arg.name).AsValue? ==>
      && r.Keys == opts.Keys + {"value"}
      && r["value"] == JStr(arg.name)
      && (forall k :: k in opts && k != "value" ==> r[k] == opts[k])
    ensures arg.Num? ==>
      && r.Keys == opts.Keys + {"value"}
      && (forall k :: k in opts ==> r[k] == opts[k])
      && ("value" !in opts ==> r["value"] == JInt(arg.n))
    ensures arg.Obj? ==>
      && r.Keys == opts.Keys + arg.enc.Keys
      && (forall k :: k in arg.enc ==> r[k] == arg.enc[k])
      && (forall k :: k in opts && k !in arg.enc ==> r[k] == opts[k])
    ensures arg.Absent? ==> r == opts
  {
    match arg
    case Str(s) => if "type" in opts then map["field" := JStr(s)] + opts else CleanGuessed(data, s, opts)
    case Num(n) => map["value" := JInt(n)] + opts
    case Obj(m) => opts + m
    case Absent => opts
  }

  /** A string argument without a pinned type: a field with its inferred
      type, or a constant value. */
  function CleanGuessed(data: Table, s: string, opts: Dict): (r: Dict)
    requires ValidTable(data)
    ensures GuessType(data, s).AsField? ==>
      && r.Keys == opts.Keys + {"field", "type"}
      && (forall k :: k in opts ==> r[k] == opts[k])
      && ("field" !in opts ==> r["field"] == JStr(GuessType(data, s).name))
      && ("type" !in opts ==> r["type"] == KindJson(GuessType(data, s).kind))
    ensures GuessType(data, s).AsValue? ==>
      && r.Keys == opts.Keys + {"value"}
      && r["value"] == JStr(s)
      && (forall k :: k in opts && k != "value" ==> r[k] == opts[k])
  {
    match GuessType(data, s)
    case AsField(name, kind) => map["field" := JStr(name), "type" := KindJson(kind)] + opts
    case AsValue(v) => opts + map["value" := JStr(v)]
  }

  /** With no field/value option, a string or number argument resolves to
      exactly one of `field` and `value`. */
  lemma FieldXorValue(data: Table, arg: ChannelArg, opts: Dict)
    requires ValidTable(data)
    requires arg.Str? || arg.Num?
    requires "field" !in opts && "value" !in opts
    ensures ("field" in Clean(data, arg, opts)) != ("value" in Clean(data, arg, opts))
  {
  }

  /** A pinned type skips inference: the table is never consulted, and a
      shorthand or non-column string is kept verbatim as the field. */
  lemma PinnedTypeSkipsInference(d1: Table, d2: Table, s: string, opts: Dict)
    requires ValidTable(d1) && ValidTable(d2)
    requires "type" in opts && "field" !in opts
    ensures Clean(d1, Str(s), opts) == Clean(d2, Str(s), opts)
    ensures Clean(d1, Str(s), opts)["field"] == JStr(s)
    ensures Clean(d1, Str(s), opts)["type"] == opts["type"]
  {
  }

  /** A custom dict is never re-resolved: cleaning it with no options gives
      it back, and cleaning a result again as a dict changes nothing. */
  lemma CleanCustomIdempotent(data: Table, arg: ChannelArg, opts: Dict)
    requires ValidTable(data)
    ensures Clean(data, Obj(Clean(data, arg, opts)), map[]) == Clean(data, arg, opts)
    ensures Clean(data, Obj(Clean(data, arg, opts)), opts) == Clean(data, arg, opts)
  {
  }
}
