/** Python values as the model definition, the wrapper and the override registry see them. */
module Values {

  datatype Option<+T> = None | Some(value: T)

  /** A Python value. Every class the code distinguishes has its own case;
      every other object is kept by its exact class name and its str() text. */
  datatype Value =
    | Nil                                   // None
    | Str(s: string)                        // str
    | List(items: seq<Value>)               // list
    | DateTime(date: string, time: string)  // datetime.datetime, as the two halves of its ISO-8601 text
    | Obj(cls: string, text: string)        // any other object

  /** The name of the exact class of `v` (`v.__class__`). */
  function ClassOf(v: Value): string
  {
    match v
    case Nil => "NoneType"
    case Str(_) => "str"
    case List(_) => "list"
    case DateTime(_, _) => "datetime"
    case Obj(cls, _) => cls
  }

  /** `str(v)`: the text that `%s` substitutes. A datetime prints its ISO text with a
      space for the `T`; a list prints its elements, strings quoted. */
  function Display(v: Value): string
    decreases v, 1
  {
    match v
    case Nil => "None"
    case Str(s) => s
    case List(items) => "[" + Reprs(items) + "]"
    case DateTime(date, time) => date + " " + time
    case Obj(_, text) => text
  }

  /** The elements of a printed list, separated by ", ". */
  function Reprs(items: seq<Value>): string
    decreases items, 0
  {
    if items == [] then ""
    else
      var head := match items[0] case Str(s) => "'" + s + "'" case _ => Display(items[0]);
      if |items| == 1 then head else head + ", " + Reprs(items[1..])
  }

  /** Whether `%` treats `v` as a mapping: a list or a dict (strings are excluded). */
  predicate IsMapping(v: Value)
  {
    v.List? || (v.Obj? && v.cls == "dict")
  }

  /** Names starting with `_` are the wrapper's own instance state. */
  predicate IsInternalName(name: string)
  {
    |name| > 0 && name[0] == '_'
  }
}
