/** What a directory server does with a Modify request (section 4.6 of RFC 4511), for the
    three operation kinds the code sends. It is the reference the change set of `save` is
    proved against. */
module Directory {
  import opened Values

  datatype Operation = Add | Delete | Replace

  /** One element of a modify request: `(MODIFY_ADD, values)` and so on. */
  datatype Modification = Modification(op: Operation, values: seq<Value>)

  /** An entry's attributes: each present attribute holds at least one value. */
  type Attributes = map<string, seq<Value>>

  /** One attribute of an entry, as the server sees it while applying modifications. */
  datatype Attr = Absent | Present(values: seq<Value>)

  function At(dir: Attributes, name: string): Attr
  {
    if name in dir then Present(dir[name]) else Absent
  }

  function Held(a: Attr): seq<Value>
  {
    if a.Present? then a.values else []
  }

  /** An attribute left without values no longer exists. */
  function Keep(values: seq<Value>): Attr
  {
    if values == [] then Absent else Present(values)
  }

  /** `values` with every element of `gone` removed. */
  function Without(values: seq<Value>, gone: seq<Value>): seq<Value>
  {
    if values == [] then []
    else (if values[0] in gone then [] else [values[0]]) + Without(values[1..], gone)
  }

  /** One modification of one attribute; `None` is a rejection by the server.
      - add: the values join the attribute, which is created if needed; adding nothing or
        a value the attribute already holds is rejected;
      - delete with no values: the attribute goes; deleting from a missing attribute, or
        deleting a value it does not hold, is rejected;
      - replace: the attribute holds exactly the new values, and goes when there are none. */
  function ApplyModification(a: Attr, m: Modification): Option<Attr>
  {
    match m.op
    case Add =>
      if m.values == [] || exists i :: 0 <= i < |m.values| && m.values[i] in Held(a) then None
      else Some(Present(Held(a) + m.values))
    case Delete =>
      if a.Absent? then None
      else if m.values == [] then Some(Absent)
      else if exists i :: 0 <= i < |m.values| && m.values[i] !in a.values then None
      else Some(Keep(Without(a.values, m.values)))
    case Replace =>
      Some(Keep(m.values))
  }

  /** The modifications listed for one attribute, in order. */
  function ApplyAll(a: Attr, ms: seq<Modification>): Option<Attr>
    decreases ms
  {
    if ms == [] then Some(a)
    else
      match ApplyModification(a, ms[0])
      case None => None
      case Some(next) => ApplyAll(next, ms[1..])
  }

  /** The attribute `name` after the request, when its modifications succeed. */
  function Final(dir: Attributes, changes: map<string, seq<Modification>>, name: string): Attr
  {
    if name in changes && ApplyAll(At(dir, name), changes[name]).Some? then
      ApplyAll(At(dir, name), changes[name]).value
    else
      At(dir, name)
  }

  predicate Accepted(dir: Attributes, changes: map<string, seq<Modification>>)
  {
    forall name :: name in changes ==> ApplyAll(At(dir, name), changes[name]).Some?
  }

  /** A whole Modify request on one entry. The request is atomic: either every
      modification is applied or the entry is left as it was (`None`). */
  function Modify(dir: Attributes, changes: map<string, seq<Modification>>): (r: Option<Attributes>)
    ensures r.Some? <==> Accepted(dir, changes)
    ensures r.Some? ==> forall name :: name !in changes ==> At(r.value, name) == At(dir, name)
  {
    if Accepted(dir, changes) then
      Some(map name | name in dir.Keys + changes.Keys && Final(dir, changes, name).Present?
             :: Final(dir, changes, name).values)
    else
      None
  }

  /** What `Modify` leaves for one attribute, read back through `At`. */
  lemma ModifiedAt(dir: Attributes, changes: map<string, seq<Modification>>, name: string)
    requires Accepted(dir, changes)
    ensures At(Modify(dir, changes).value, name) == Final(dir, changes, name)
  {
  }
}
