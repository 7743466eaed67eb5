/** The change set `save` sends for an existing entry: one modification per pending change,
    and the proof that the directory, once it applies them, holds what the wrapper showed. */
module Changes {
  import opened Values
  import opened Directory
  import opened Client

  /** A list value is sent as its elements; any other value as a one-element list. */
  function AsValues(v: Value): seq<Value>
  {
    if v.List? then v.items else [v]
  }

  /** The modification for one pending change: `None` deletes the attribute, a name the entry
      does not have is added, and a name it has is replaced. */
  function ChangeFor(present: bool, v: Value): seq<Modification>
  {
    if v.Nil? then [Modification(Delete, [])]
    else if !present then [Modification(Add, AsValues(v))]
    else [Modification(Replace, AsValues(v))]
  }

  /** The whole change map for pending changes over an entry whose attribute names are `present`. */
  function ChangeSet(present: set<string>, pending: map<string, Value>): map<string, seq<Modification>>
  {
    map name | name in pending :: ChangeFor(name in present, pending[name])
  }

  /** The change map covers exactly the pending names, with one modification each, whose kind
      and values are fixed by the pending value and by whether the entry has the name. */
  lemma ChangeSetShape(present: set<string>, pending: map<string, Value>, name: string)
    ensures name in ChangeSet(present, pending) <==> name in pending
    ensures name in pending ==>
      var ms := ChangeSet(present, pending)[name];
      && |ms| == 1
      && (ms[0].op == Delete <==> pending[name].Nil?)
      && (ms[0].op == Add <==> !pending[name].Nil? && name !in present)
      && (ms[0].op == Replace <==> !pending[name].Nil? && name in present)
      && ms[0].values == (if pending[name].Nil? then [] else AsValues(pending[name]))
  {
  }

  /** The loop of `save` that fills `changes` from the wrapper's pending map. */
  method BuildChanges(entry: Entry, pending: map<string, Value>) returns (changes: map<string, seq<Modification>>)
    ensures changes == ChangeSet(entry.attributes.Keys, pending)
  {
    changes := map[];
    var todo := pending.Keys;
    while todo != {}
      invariant todo <= pending.Keys
      invariant changes.Keys == pending.Keys - todo
      invariant forall name :: name in changes ==> changes[name] == ChangeFor(name in entry.attributes, pending[name])
      decreases todo
    {
      var key :| key in todo;
      var value := pending[key];
      if value.Nil? {
        changes := changes[key := [Modification(Delete, [])]];
      } else if key !in entry.attributes {
        if value.List? {
          changes := changes[key := [Modification(Add, value.items)]];
        } else {
          changes := changes[key := [Modification(Add, [value])]];
        }
      } else {
        if value.List? {
          changes := changes[key := [Modification(Replace, value.items)]];
        } else {
          changes := changes[key := [Modification(Replace, [value])]];
        }
      }
      todo := todo - {key};
    }
  }

  /** The attribute `name` as the wrapper shows it, in directory terms: a pending `None` is no
      attribute, a pending value is its list of values, and anything else is the entry's own. */
  function Written(dir: Attributes, pending: map<string, Value>, name: string): Attr
  {
    if name in pending then
      if pending[name].Nil? then Absent else Keep(AsValues(pending[name]))
    else
      At(dir, name)
  }

  /** The server accepts the change set unless a `None` names an attribute the entry lacks
      (deleting it is rejected) or an empty list names one (adding nothing is rejected). */
  predicate Sendable(dir: Attributes, pending: map<string, Value>)
  {
    forall name :: name in pending ==> PendingSendable(dir, pending, name)
  }

  predicate PendingSendable(dir: Attributes, pending: map<string, Value>, name: string)
    requires name in pending
  {
    && (pending[name].Nil? ==> name in dir)
    && (name !in dir && !pending[name].Nil? ==> AsValues(pending[name]) != [])
  }

  lemma OneChange(dir: Attributes, pending: map<string, Value>, name: string)
    requires name in pending
    ensures ApplyAll(At(dir, name), ChangeFor(name in dir, pending[name]))
         == if PendingSendable(dir, pending, name) then Some(Written(dir, pending, name)) else None
  {
    var v := pending[name];
    var ms := ChangeFor(name in dir, v);
    assert ms[1..] == [];
    if !v.Nil? && name !in dir {
      assert Held(At(dir, name)) + AsValues(v) == AsValues(v);
    }
  }

  /** For an entry fetched with all its attributes, applying the change set of `save` as a
      Modify request succeeds exactly when it is `Sendable`, and then leaves every attribute
      as the wrapper showed it: pending names with their pending values, and the rest untouched. */
  lemma {:induction false} SaveWritesOverlay(dir: Attributes, pending: map<string, Value>)
    ensures Modify(dir, ChangeSet(dir.Keys, pending)).Some? <==> Sendable(dir, pending)
    ensures Sendable(dir, pending) ==>
      forall name :: At(Modify(dir, ChangeSet(dir.Keys, pending)).value, name) == Written(dir, pending, name)
  {
    var changes := ChangeSet(dir.Keys, pending);
    forall name | name in pending
      ensures ApplyAll(At(dir, name), changes[name]).Some? <==> PendingSendable(dir, pending, name)
    {
      OneChange(dir, pending, name);
    }
    if Sendable(dir, pending) {
      forall name ensures At(Modify(dir, changes).value, name) == Written(dir, pending, name) {
        ModifiedAt(dir, changes, name);
        if name in pending {
          OneChange(dir, pending, name);
        }
      }
    }
  }
}
