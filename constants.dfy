/**
 * `Tool::Constant`: read-only settings with nested sections, looked up by
 * calling a method named after the key (`constants.database.user`) or with
 * `[]`. A section that is itself a hash comes back wrapped in a new
 * `Constant`, so lookups can be chained one level at a time.
 */
module Constants {
  import opened Base
  import opened RubyText

  /** The values a settings file holds. Hash keys are strings, as YAML gives them for named sections. */
  datatype Value =
    | Nil
    | Bool(b: bool)
    | Int(i: int)
    | Str(s: string)
    | List(items: seq<Value>)
    | Hash(entries: map<string, Value>)

  /** A `Constant` wraps one hash; it never changes after construction. */
  datatype Constant = Constant(constants: map<string, Value>)

  /** `Constant.new` with its default argument `{}`. */
  const Default: Constant := Constant(map[])

  /** What a lookup returns: a plain value (nil among them), or a sub-hash wrapped as a `Constant`. */
  datatype Fetched = Plain(value: Value) | Wrapped(constant: Constant)

  /** The argument of `[]`: a symbol, a string or an integer, all converted with `to_s`. */
  datatype Key = Symbol(name: string) | Text(text: string) | Integer(n: int)

  /** `key.to_s`. */
  function KeyName(k: Key): string {
    match k
    case Symbol(name) => name
    case Text(text) => text
    case Integer(n) => IntToS(n)
  }

  /** `value.is_a?(Hash) ? Constant.new(value) : value`. */
  function Wrap(v: Value): Fetched {
    if v.Hash? then Wrapped(Constant(v.entries)) else Plain(v)
  }

  /** `c.name` for a name the class does not define: the setting under that name, wrapped if it is a hash; nil when absent. */
  function MethodMissing(c: Constant, name: string): (r: Fetched)
    ensures r.Wrapped? <==> name in c.constants && c.constants[name].Hash?
    ensures r.Wrapped? ==> r.constant.constants == c.constants[name].entries
    ensures r.Plain? ==> r.value == if name in c.constants then c.constants[name] else Nil
  {
    if name in c.constants then Wrap(c.constants[name]) else Plain(Nil)
  }

  /** `c[key]`: the hash is indexed with `key.to_s`; an absent key indexes to nil. */
  function Index(c: Constant, key: Key): (r: Fetched)
    ensures r == MethodMissing(c, KeyName(key))
  {
    var name := KeyName(key);
    var value := if name in c.constants then c.constants[name] else Nil;
    Wrap(value)
  }

  /** A symbol key and the string of the same name find the same setting. */
  lemma SymbolAndStringKeysAgree(c: Constant, name: string)
    ensures Index(c, Symbol(name)) == Index(c, Text(name))
  {
  }

  /** An integer key finds the setting stored under its decimal spelling. */
  lemma IntegerKeyIsItsDecimal(c: Constant, n: int)
    ensures Index(c, Integer(n)) == Index(c, Text(IntToS(n)))
  {
  }

  /** The default, empty `Constant` answers nil to every lookup. */
  lemma DefaultIsNilEverywhere(key: Key)
    ensures Index(Default, key) == Plain(Nil)
    ensures MethodMissing(Default, KeyName(key)) == Plain(Nil)
  {
  }

  /** The value reached by following `names` through nested hashes; None once a step meets a value that is not a hash. */
  function Dig(v: Value, names: seq<string>): (r: Option<Value>)
    ensures names == [] ==> r == Some(v)
    ensures names != [] && !v.Hash? ==> r.None?
    ensures |names| == 1 && v.Hash? ==> r == Some(if names[0] in v.entries then v.entries[names[0]] else Nil)
    decreases names
  {
    if names == [] then Some(v)
    else
      match v
      case Hash(m) => Dig(if names[0] in m then m[names[0]] else Nil, names[1..])
      case _ => None
  }

  /**
   * `c.n1.n2 ... .nk`: each call goes to the `Constant` the previous one
   * returned. None once a call would go to a plain value instead: nil has
   * no such method and raises NoMethodError. A String or an Array answers
   * the methods Ruby defines for it (`size`, `first`, ...); settings are
   * not looked up that way, and this model takes every such chain as failing.
   */
  function Chain(c: Constant, names: seq<string>): (r: Option<Fetched>)
    requires names != []
    ensures |names| == 1 ==> r == Some(MethodMissing(c, names[0]))
    ensures |names| > 1 && !(names[0] in c.constants && c.constants[names[0]].Hash?) ==> r.None?
    decreases names
  {
    var f := MethodMissing(c, names[0]);
    if |names| == 1 then Some(f)
    else
      match f
      case Wrapped(d) => Chain(d, names[1..])
      case Plain(_) => None
  }

  /** Chained lookups go one level deeper into the nested hashes at each call. */
  lemma {:induction false} ChainFollowsNesting(c: Constant, names: seq<string>)
    requires names != []
    ensures Chain(c, names) == match Dig(Hash(c.constants), names) {
              case Some(v) => Some(Wrap(v))
              case None => None
            }
    decreases names
  {
    var m := c.constants;
    var first := if names[0] in m then m[names[0]] else Nil;
    assert Dig(Hash(m), names) == Dig(first, names[1..]);
    if |names| > 1 {
      match first
      case Hash(inner) =>
        ChainFollowsNesting(Constant(inner), names[1..]);
      case _ =>
    }
  }
}
