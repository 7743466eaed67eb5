/** The entry wrapper (`LdapperModelWrapper`): a pending-changes map laid over an entry that
    is never changed in place. */
module EntryWrapper {
  import opened Values
  import opened Errors
  import opened Client

  class ModelWrapper {
    /** The wrapped entry; `None` for an object that is not in the directory yet. */
    var entry: Option<Entry>
    /** `_newValues`: every public name written since the wrapper was made (or the map
        assigned to `_newValues` itself). */
    var newValues: map<string, Value>
    /** Any other `_`-prefixed instance state written through the wrapper. */
    var internal: map<string, Value>

    /** The two names `__init__` itself sets are the fields above, not part of `internal`. */
    static predicate IsBookkeeping(name: string)
    {
      name == "_entry" || name == "_newValues"
    }

    ghost predicate Valid()
      reads this
    {
      forall name :: name in internal ==> IsInternalName(name) && !IsBookkeeping(name)
    }

    /** A new wrapper has no pending changes. */
    constructor (entry: Option<Entry>)
      ensures Valid()
      ensures this.entry == entry && newValues == map[] && internal == map[]
    {
      this.entry := entry;
      newValues := map[];
      internal := map[];
    }

    /** Reading `name`: instance state first (Python finds it before `__getattr__`), then a
        pending value, even a pending `None`, then the entry's value; otherwise no such attribute. */
    function Get(name: string): (r: Result<Value>)
      reads this
      ensures name in internal ==> r == Ok(internal[name])
      ensures name !in internal && name in newValues ==> r == Ok(newValues[name])
      ensures name !in internal && name !in newValues ==>
        r == if entry.Some? && name in entry.value.attributes then Ok(entry.value.attributes[name])
             else Err(AttributeError(name))
    {
      if name in internal then Ok(internal[name])
      else if name in newValues then Ok(newValues[name])
      else if entry.Some? && name in entry.value.attributes then Ok(entry.value.attributes[name])
      else Err(AttributeError(name))
    }

    /** Writing `name`: a public name goes to the pending map, a `_` name to instance state.
        Afterwards `name` reads as `value` and every other name reads as before.
        Writes to `_entry` and `_newValues` are `SetEntry` and `SetNewValues`. */
    method Set(name: string, value: Value)
      requires Valid() && !IsBookkeeping(name)
      modifies this
      ensures Valid()
      ensures entry == old(entry)
      ensures !IsInternalName(name) ==> newValues == old(newValues)[name := value] && internal == old(internal)
      ensures IsInternalName(name) ==> internal == old(internal)[name := value] && newValues == old(newValues)
      ensures Get(name) == Ok(value)
      ensures forall other :: other != name ==> Get(other) == old(Get(other))
    {
      if !IsInternalName(name) {
        newValues := newValues[name := value];
      } else {
        internal := internal[name := value];
      }
    }

    /** `w._entry = e`: the `_` branch of `__setattr__` replaces the wrapped entry; the pending
        map is kept, and `save` then reads its changes against the new entry. */
    method SetEntry(e: Option<Entry>)
      requires Valid()
      modifies this
      ensures Valid()
      ensures entry == e && newValues == old(newValues) && internal == old(internal)
    {
      entry := e;
    }

    /** `w._newValues = m`: the `_` branch of `__setattr__` replaces the pending map wholesale. */
    method SetNewValues(m: map<string, Value>)
      requires Valid()
      modifies this
      ensures Valid()
      ensures newValues == m && entry == old(entry) && internal == old(internal)
      ensures forall name :: name !in internal && name in m ==> Get(name) == Ok(m[name])
    {
      newValues := m;
    }
  }
}
