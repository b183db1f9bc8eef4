/**
 * Credential precedence in the database commands: a value given on the
 * command line wins; otherwise the field is read from the `database`
 * section of the constants, and only when that section exists.
 */
module Credentials {
  import opened Base
  import opened Constants
  import opened Shell

  /** Ruby truthiness: everything but nil and false. */
  predicate Truthy(f: Fetched) {
    f != Plain(Nil) && f != Plain(Bool(false))
  }

  predicate IsNil(f: Fetched) {
    f == Plain(Nil)
  }

  /**
   * `option || c.database && c.database.<field>`. The section lookup yields
   * nil when absent; a section that is truthy but not a hash (a string, say)
   * has no method named after the field, which raises NoMethodError.
   */
  function Resolve(option: Option<string>, c: Constant, field: string): (r: Result<Fetched, Error>)
    ensures option.Some? ==> r == Ok(Plain(Str(option.value)))
    ensures option.None? && "database" !in c.constants ==> r == Ok(Plain(Nil))
    ensures option.None? && "database" in c.constants && c.constants["database"] in {Nil, Bool(false)} ==>
              r == Ok(Plain(c.constants["database"]))
    ensures option.None? && "database" in c.constants && c.constants["database"].Hash? ==>
              var entries := c.constants["database"].entries;
                  r == Ok(if field in entries then Wrap(entries[field]) else Plain(Nil))
    ensures r.Err? <==> option.None? && "database" in c.constants
                        && c.constants["database"] !in {Nil, Bool(false)} && !c.constants["database"].Hash?
    ensures r.Err? ==> r.error == NoMethodError(field)
  {
    match option
    case Some(given) => Ok(Plain(Str(given)))
    case None =>
      var section := MethodMissing(c, "database");
      if !Truthy(section) then Ok(section)
      else
        match section
        case Wrapped(d) => Ok(MethodMissing(d, field))
        case Plain(_) => Err(NoMethodError(field))
  }

  /** Several credentials resolved in order; the first lookup that raises ends the sequence. */
  function ResolveAll(options: seq<Option<string>>, c: Constant, fields: seq<string>): (r: Result<seq<Fetched>, Error>)
    requires |options| == |fields|
    ensures r.Ok? <==> forall k | 0 <= k < |fields| :: Resolve(options[k], c, fields[k]).Ok?
    ensures r.Ok? ==> |r.value| == |fields|
                      && forall k | 0 <= k < |fields| :: Resolve(options[k], c, fields[k]) == Ok(r.value[k])
    ensures r.Err? ==> exists k | 0 <= k < |fields| ::
                         (forall j | 0 <= j < k :: Resolve(options[j], c, fields[j]).Ok?)
                         && Resolve(options[k], c, fields[k]) == Err(r.error)
    decreases |fields|
  {
    if fields == [] then Ok([])
    else
      match Resolve(options[0], c, fields[0])
      case Err(e) => Err(e)
      case Ok(first) =>
        match ResolveAll(options[1..], c, fields[1..])
        case Err(e) => Err(e)
        case Ok(rest) => Ok([first] + rest)
  }

  /** The constants file is not consulted when the option is given, whatever it holds. */
  lemma CommandLineWins(given: string, c: Constant, d: Constant, field: string)
    ensures Resolve(Some(given), c, field) == Resolve(Some(given), d, field)
  {
  }
}
