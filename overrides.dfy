/** The attribute override registry (`LdapperAttributeOverride`): formatters keyed by the
    exact class of a value, and formatters keyed by attribute name. */
module Overrides {
  import opened Values
  import opened Errors

  /** A registered formatter: an opaque function that may return a string or anything else. */
  type Formatter = Value -> Value

  /** What is offered for registration: a callable, or any other object (by its class name). */
  datatype Callee = Callable(f: Formatter) | NotCallable(cls: string)

  /** The seeded datetime formatter, `lambda x: x.isoformat()`. It is only reached for values of
      class `datetime`; anything else is returned as it came. */
  function IsoFormat(v: Value): Value
  {
    match v
    case DateTime(date, time) => Str(date + "T" + time)
    case _ => v
  }

  /** The class-keyed formatters a new registry starts with. */
  function DefaultObjects(): map<string, Formatter>
  {
    map["datetime" := IsoFormat]
  }

  function NotCallableMessage(cls: string): string
  {
    "'" + cls + "' is not callable."
  }

  /** `object(val)`: the formatter registered for the exact class of `v` replaces `v`,
      but only when what it returns is a string. */
  function ObjectOverride(objects: map<string, Formatter>, v: Value): (r: Value)
    ensures r == v || r.Str?
    ensures r != v ==> ClassOf(v) in objects && r == objects[ClassOf(v)](v)
    ensures ClassOf(v) in objects && objects[ClassOf(v)](v).Str? ==> r == objects[ClassOf(v)](v)
    ensures ClassOf(v) !in objects ==> r == v
  {
    if ClassOf(v) in objects then
      var overwritten := objects[ClassOf(v)](v);
      if overwritten.Str? then overwritten else v
    else
      v
  }

  /** With the default registry a datetime reaches the directory as its ISO-8601 text,
      and a value of any other class is left alone. */
  lemma DefaultFormatsDatetimes(v: Value)
    ensures v.DateTime? ==> ObjectOverride(DefaultObjects(), v) == Str(v.date + "T" + v.time)
    ensures ClassOf(v) != "datetime" ==> ObjectOverride(DefaultObjects(), v) == v
  {
  }

  /** `attribute(attr, val)` as the source has it: the branch for a registered name reads
      `self.attributes`, which the registry does not have. */
  function AttributeAsWritten(attributes: map<string, Formatter>, name: string, v: Value): (r: Result<Value>)
    ensures name in attributes <==> r.Err?
    ensures r.Err? ==> r.error == AttributeError("attributes")
    ensures r.Ok? ==> r.value == v
  {
    if name in attributes then Err(AttributeError("attributes")) else Ok(v)
  }

  /** `all(attr, val)` as the source has it: `object` is called with two arguments. */
  function AllAsWritten(attributes: map<string, Formatter>, name: string, v: Value): (r: Result<Value>)
  {
    match AttributeAsWritten(attributes, name, v)
    case Err(e) => Err(e)
    case Ok(_) => Err(TypeError("object() takes 2 positional arguments but 3 were given"))
  }

  /** As written, `all` never returns a value, whatever is registered. */
  lemma AllAsWrittenAlwaysFails(attributes: map<string, Formatter>, name: string, v: Value)
    ensures AllAsWritten(attributes, name, v).Err?
    ensures name in attributes ==> AllAsWritten(attributes, name, v).error.AttributeError?
    ensures name !in attributes ==> AllAsWritten(attributes, name, v).error.TypeError?
  {
  }

  /** `attribute(attr, val)` as evidently intended: the formatter registered for the name is
      applied, and its result is used whatever its type (unlike `object`, there is no string guard). */
  function AttributeIntended(attributes: map<string, Formatter>, name: string, v: Value): (r: Value)
    ensures name in attributes ==> r == attributes[name](v)
    ensures name !in attributes ==> r == v
  {
    if name in attributes then attributes[name](v) else v
  }

  /** `all(attr, val)` as evidently intended: the name's formatter, then the class's. */
  function AllIntended(objects: map<string, Formatter>, attributes: map<string, Formatter>, name: string, v: Value): (r: Value)
    ensures r == AttributeIntended(attributes, name, v) || r.Str?
    ensures name !in attributes && ClassOf(v) !in objects ==> r == v
  {
    ObjectOverride(objects, AttributeIntended(attributes, name, v))
  }

  /** An attribute formatter's non-string result is kept, while the class path discards the
      same result: the asymmetry is kept as the code has it. */
  lemma AttributePathHasNoStringGuard(name: string, v: Value, out: Value)
    requires !out.Str? && out != v
    ensures AttributeIntended(map[name := _ => out], name, v) == out
    ensures ObjectOverride(map[ClassOf(v) := _ => out], v) == v
  {
  }

  class AttributeOverride {
    var objects: map<string, Formatter>
    var attributes: map<string, Formatter>

    /** A new registry holds the datetime formatter and no attribute formatters. */
    constructor ()
      ensures objects == DefaultObjects() && attributes == map[]
    {
      objects := DefaultObjects();
      attributes := map[];
    }

    /** `add_object(cls, f)`: refuses anything that is not callable and then changes nothing. */
    method AddObject(cls: string, f: Callee) returns (r: Result<()>)
      modifies this
      ensures f.Callable? ==> r == Ok(()) && objects == old(objects)[cls := f.f]
      ensures f.NotCallable? ==> r == Err(TypeError(NotCallableMessage(f.cls))) && objects == old(objects)
      ensures attributes == old(attributes)
    {
      if !f.Callable? {
        return Err(TypeError(NotCallableMessage(f.cls)));
      }
      objects := objects[cls := f.f];
      r := Ok(());
    }

    /** `add_attribute(name, f)`: the same, keyed by attribute name. */
    method AddAttribute(name: string, f: Callee) returns (r: Result<()>)
      modifies this
      ensures f.Callable? ==> r == Ok(()) && attributes == old(attributes)[name := f.f]
      ensures f.NotCallable? ==> r == Err(TypeError(NotCallableMessage(f.cls))) && attributes == old(attributes)
      ensures objects == old(objects)
    {
      if !f.Callable? {
        return Err(TypeError(NotCallableMessage(f.cls)));
      }
      attributes := attributes[name := f.f];
      r := Ok(());
    }
  }
}
