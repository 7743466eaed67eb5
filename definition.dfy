/** The model definition (`LdapperModelDefinition`): a search base, a filter template, the
    attributes to fetch, an optional connection, the wrapper flag and a shared override
    registry. It is never changed after construction; `using` makes a new one. */
module Definitions {
  import opened Values
  import opened Errors
  import opened Template
  import opened Overrides
  import opened Directory
  import opened Client
  import opened Changes
  import opened EntryWrapper

  datatype ModelDefinition = ModelDefinition(
    searchBase: string,
    primarySearch: string,
    attributes: seq<string>,
    connection: Option<Connection>,
    wrapper: bool,
    overrides: AttributeOverride)

  /** The attribute list used when none is given. */
  const ALL_ATTRIBUTES: seq<string> := ["*"]

  /** What construction guarantees of every definition: the stored template has a `(`. */
  predicate WellFormed(d: ModelDefinition)
  {
    '(' in d.primarySearch
  }

  /** `__init__` given a registry: the template is parenthesized, everything else kept. */
  function Make(searchBase: string, primarySearch: string, attributes: seq<string>,
                connection: Option<Connection>, wrapper: bool, overrides: AttributeOverride): (d: ModelDefinition)
    ensures WellFormed(d)
    ensures d.primarySearch == Parenthesize(primarySearch)
    ensures d.searchBase == searchBase && d.attributes == attributes && d.connection == connection
    ensures d.wrapper == wrapper && d.overrides == overrides
  {
    ModelDefinition(searchBase, Parenthesize(primarySearch), attributes, connection, wrapper, overrides)
  }

  /** `__init__` (and `LdapperInterface.define`), with its defaults: every attribute, no
      connection, results wrapped, and a new default registry when none is given. */
  method Define(searchBase: string, primarySearch: string, attributes: seq<string> := ALL_ATTRIBUTES,
                connection: Option<Connection> := None, wrapper: bool := true,
                overrides: Option<AttributeOverride> := None)
    returns (d: ModelDefinition)
    ensures overrides.Some? ==> d == Make(searchBase, primarySearch, attributes, connection, wrapper, overrides.value)
    ensures overrides.None? ==>
      && d == Make(searchBase, primarySearch, attributes, connection, wrapper, d.overrides)
      && fresh(d.overrides)
      && d.overrides.objects == DefaultObjects() && d.overrides.attributes == map[]
  {
    var registry: AttributeOverride;
    if overrides.None? {
      registry := new AttributeOverride();
    } else {
      registry := overrides.value;
    }
    d := Make(searchBase, primarySearch, attributes, connection, wrapper, registry);
  }

  /** `using(connection)`: a copy bound to `connection` that shares the same registry object;
      the stored template passes through `__init__` again and comes out unchanged. */
  function Using(d: ModelDefinition, connection: Option<Connection>): (r: ModelDefinition)
    ensures WellFormed(r) && r.connection == connection
    ensures WellFormed(d) ==> r.primarySearch == d.primarySearch
    ensures r.searchBase == d.searchBase && r.attributes == d.attributes
    ensures r.wrapper == d.wrapper && r.overrides == d.overrides
  {
    Make(d.searchBase, d.primarySearch, d.attributes, connection, d.wrapper, d.overrides)
  }

  /** Rebinding twice is rebinding once, to the later connection. */
  lemma UsingTwice(d: ModelDefinition, c1: Option<Connection>, c2: Option<Connection>)
    ensures Using(Using(d, c1), c2) == Using(d, c2)
  {
    ParenthesizeIdempotent(d.primarySearch);
  }

  // ----- get -----

  /** The filter `get` searches with: the stored template with the key, after the
      registry's class formatter, in place of `%s`. */
  function PrimaryFilter(d: ModelDefinition, primary: Value): Result<string>
    reads d.overrides
  {
    var key := ObjectOverride(d.overrides.objects, primary);
    Substitute(d.primarySearch, Display(key), IsMapping(key))
  }

  /** What `get` returns: nothing found, an entry's raw attributes, or an entry to wrap. */
  datatype Fetched = NotFound | Raw(attributes: map<string, Value>) | Wrap(entry: Entry)

  /** The decision logic of `get`. */
  function GetOutcome(d: ModelDefinition, primary: Value): (r: Reply<Fetched>)
    reads d.overrides
    ensures d.connection.None? ==> r == Reply([], Err(NoConnection))
    ensures r.sent == [] || (d.connection.Some? && PrimaryFilter(d, primary).Ok?
                             && r.sent == [SearchRequest(d.searchBase, PrimaryFilter(d, primary).value, d.attributes)])
    ensures r.sent == [] ==> r.outcome.Err?
    ensures d.connection.Some? && PrimaryFilter(d, primary).Ok? ==>
      r.sent == [SearchRequest(d.searchBase, PrimaryFilter(d, primary).value, d.attributes)]
    ensures d.connection.Some? && PrimaryFilter(d, primary).Err? ==>
      r == Reply([], Err(PrimaryFilter(d, primary).error))
    ensures d.connection.Some? && r.sent != [] ==>
      var c := d.connection.value;
      && (r.outcome.Err? <==> !c.searchSucceeds)
      && (r.outcome.Err? ==> r.outcome.error == Failed(c))
      && (r.outcome == Ok(NotFound) <==> c.searchSucceeds && |c.response| != 1)
      && (r.outcome.Ok? && |c.response| == 1 ==>
            r.outcome.value == if d.wrapper then Wrap(c.response[0]) else Raw(c.response[0].attributes))
  {
    match d.connection
    case None => Reply([], Err(NoConnection))
    case Some(c) =>
      match PrimaryFilter(d, primary)
      case Err(e) => Reply([], Err(e))
      case Ok(filter) =>
        var sent := [SearchRequest(d.searchBase, filter, d.attributes)];
        if !c.searchSucceeds then Reply(sent, Err(Failed(c)))
        else if |c.response| != 1 then Reply(sent, Ok(NotFound))
        else if d.wrapper then Reply(sent, Ok(Wrap(c.response[0])))
        else Reply(sent, Ok(Raw(c.response[0].attributes)))
  }

  /** For a template with a single `%s`, `get` searches for the formatted key put in its place. */
  lemma GetSearchesForKey(d: ModelDefinition, primary: Value, pre: string, post: string)
    requires d.connection.Some?
    requires d.primarySearch == pre + "%s" + post && '%' !in pre && '%' !in post
    ensures GetOutcome(d, primary).sent
         == [SearchRequest(d.searchBase, pre + Display(ObjectOverride(d.overrides.objects, primary)) + post, d.attributes)]
  {
    var key := ObjectOverride(d.overrides.objects, primary);
    SubstituteOnce(pre, post, Display(key), IsMapping(key));
  }

  /** What the `get` method hands back. */
  datatype Row = NoRow | RawRow(attributes: map<string, Value>) | WrappedRow(w: ModelWrapper)

  /** `get(primary)`: a found entry is wrapped in a new wrapper with no pending changes. */
  method Get(d: ModelDefinition, primary: Value) returns (sent: seq<Request>, r: Result<Row>)
    ensures sent == GetOutcome(d, primary).sent
    ensures match GetOutcome(d, primary).outcome
      case Err(e) => r == Err(e)
      case Ok(NotFound) => r == Ok(NoRow)
      case Ok(Raw(attributes)) => r == Ok(RawRow(attributes))
      case Ok(Wrap(entry)) =>
        && r.Ok? && r.value.WrappedRow? && fresh(r.value.w) && r.value.w.Valid()
        && r.value.w.entry == Some(entry) && r.value.w.newValues == map[] && r.value.w.internal == map[]
  {
    if d.connection.None? {
      return [], Err(NoConnection);
    }
    var c := d.connection.value;
    var filter := PrimaryFilter(d, primary);
    if filter.Err? {
      return [], Err(filter.error);
    }
    sent := [SearchRequest(d.searchBase, filter.value, d.attributes)];
    if !c.searchSucceeds {
      return sent, Err(Failed(c));
    }
    if |c.response| != 1 {
      return sent, Ok(NoRow);
    }
    if d.wrapper {
      var w := new ModelWrapper(Some(c.response[0]));
      r := Ok(WrappedRow(w));
    } else {
      r := Ok(RawRow(c.response[0].attributes));
    }
  }

  // ----- find_raw -----

  /** What `find_raw` returns: the response as it is, or its entries to be wrapped. */
  datatype Found = RawEntries(entries: seq<Entry>) | WrapEach(entries: seq<Entry>)

  /** The decision logic of `find_raw`: every matched entry, in the connection's order. */
  function FindRawOutcome(d: ModelDefinition, search: string): (r: Reply<Found>)
    ensures d.connection.None? ==> r == Reply([], Err(NoConnection))
    ensures d.connection.Some? ==>
      var c := d.connection.value;
      && r.sent == [SearchRequest(d.searchBase, search, d.attributes)]
      && (r.outcome.Err? <==> !c.searchSucceeds)
      && (r.outcome.Err? ==> r.outcome.error == Failed(c))
      && (r.outcome.Ok? ==> r.outcome.value.entries == c.response && (r.outcome.value.WrapEach? <==> d.wrapper))
  {
    match d.connection
    case None => Reply([], Err(NoConnection))
    case Some(c) =>
      var sent := [SearchRequest(d.searchBase, search, d.attributes)];
      if !c.searchSucceeds then Reply(sent, Err(Failed(c)))
      else if d.wrapper then Reply(sent, Ok(WrapEach(c.response)))
      else Reply(sent, Ok(RawEntries(c.response)))
  }

  /** What the `find_raw` method hands back. */
  datatype Rows = RawRows(entries: seq<Entry>) | WrappedRows(ws: seq<ModelWrapper>)

  function Objects(r: Result<Rows>): set<object>
  {
    if r.Ok? && r.value.WrappedRows? then set i | 0 <= i < |r.value.ws| :: r.value.ws[i] else {}
  }

  /** `r` is what the method returns for the outcome `o`: the same error, the same raw
      entries, or one distinct, clean wrapper per entry, in order. */
  ghost predicate Delivers(o: Result<Found>, r: Result<Rows>)
    reads Objects(r)
  {
    match o
    case Err(e) => r == Err(e)
    case Ok(RawEntries(entries)) => r == Ok(RawRows(entries))
    case Ok(WrapEach(entries)) =>
      && r.Ok? && r.value.WrappedRows? && |r.value.ws| == |entries|
      && (forall i :: 0 <= i < |entries| ==>
            && r.value.ws[i].Valid() && r.value.ws[i].entry == Some(entries[i])
            && r.value.ws[i].newValues == map[] && r.value.ws[i].internal == map[])
      && (forall i, j :: 0 <= i < j < |entries| ==> r.value.ws[i] != r.value.ws[j])
  }

  /** `find_raw(search)`: the wrappers are all new. */
  method FindRaw(d: ModelDefinition, search: string) returns (sent: seq<Request>, r: Result<Rows>)
    ensures sent == FindRawOutcome(d, search).sent
    ensures Delivers(FindRawOutcome(d, search).outcome, r)
    ensures forall w :: w in Objects(r) ==> fresh(w)
  {
    if d.connection.None? {
      return [], Err(NoConnection);
    }
    var c := d.connection.value;
    sent := [SearchRequest(d.searchBase, search, d.attributes)];
    if !c.searchSucceeds {
      return sent, Err(Failed(c));
    }
    if !d.wrapper {
      return sent, Ok(RawRows(c.response));
    }
    var ws: seq<ModelWrapper> := [];
    var i := 0;
    while i < |c.response|
      invariant 0 <= i <= |c.response| && |ws| == i
      invariant forall k :: 0 <= k < i ==>
        && fresh(ws[k]) && ws[k].Valid() && ws[k].entry == Some(c.response[k])
        && ws[k].newValues == map[] && ws[k].internal == map[]
      invariant forall k, l :: 0 <= k < l < i ==> ws[k] != ws[l]
    {
      var w := new ModelWrapper(Some(c.response[i]));
      ws := ws + [w];
      i := i + 1;
    }
    r := Ok(WrappedRows(ws));
  }

  // ----- find -----

  /** `find(**kwargs)` as the source has it: the first pair's value goes through `all`, which
      always raises; were it to return, assigning into the `(key, value)` tuple would raise.
      Only an empty call reaches the search, with the filter `(&)`. */
  function FindAsWrittenOutcome(d: ModelDefinition, kwargs: seq<(string, Value)>): Reply<Found>
    reads d.overrides
  {
    if kwargs == [] then FindRawOutcome(d, "(&)")
    else
      match AllAsWritten(d.overrides.attributes, kwargs[0].0, kwargs[0].1)
      case Err(e) => Reply([], Err(e))
      case Ok(_) => Reply([], Err(TypeError("'tuple' object does not support item assignment")))
  }

  /** As written, `find` with any keyword argument sends nothing and raises, whether or not a
      connection is bound, and never the "no connection" error. */
  lemma FindAsWrittenFails(d: ModelDefinition, kwargs: seq<(string, Value)>)
    requires kwargs != []
    ensures FindAsWrittenOutcome(d, kwargs).sent == []
    ensures FindAsWrittenOutcome(d, kwargs).outcome.Err?
    ensures !FindAsWrittenOutcome(d, kwargs).outcome.error.LdapperException?
  {
    AllAsWrittenAlwaysFails(d.overrides.attributes, kwargs[0].0, kwargs[0].1);
  }

  /** One `(name=value)` clause, the value after the name's and the class's formatters. */
  function Clause(objects: map<string, Formatter>, attributes: map<string, Formatter>, pair: (string, Value)): string
  {
    "(" + pair.0 + "=" + Display(AllIntended(objects, attributes, pair.0, pair.1)) + ")"
  }

  /** The clauses for the pairs, in keyword order. */
  function Clauses(objects: map<string, Formatter>, attributes: map<string, Formatter>, kwargs: seq<(string, Value)>): string
  {
    if kwargs == [] then ""
    else Clauses(objects, attributes, kwargs[..|kwargs| - 1]) + Clause(objects, attributes, kwargs[|kwargs| - 1])
  }

  /** The AND filter `find` evidently means to build. */
  function Conjunction(objects: map<string, Formatter>, attributes: map<string, Formatter>, kwargs: seq<(string, Value)>): string
  {
    "(&" + Clauses(objects, attributes, kwargs) + ")"
  }

  /** The loop of `find` that accumulates the filter, as evidently intended. */
  method BuildFilter(objects: map<string, Formatter>, attributes: map<string, Formatter>, kwargs: seq<(string, Value)>)
    returns (search: string)
    ensures search == Conjunction(objects, attributes, kwargs)
  {
    search := "(&";
    for i := 0 to |kwargs|
      invariant search == "(&" + Clauses(objects, attributes, kwargs[..i])
    {
      var (name, value) := kwargs[i];
      var formatted := AllIntended(objects, attributes, name, value);
      var clause := "(" + name + "=" + Display(formatted) + ")";
      assert clause == Clause(objects, attributes, kwargs[i]);
      assert kwargs[..i + 1][..i] == kwargs[..i];
      assert Clauses(objects, attributes, kwargs[..i + 1]) == Clauses(objects, attributes, kwargs[..i]) + clause;
      search := search + clause;
    }
    assert kwargs[..|kwargs|] == kwargs;
    search := search + ")";
  }

  /** With no formatters that apply, two string pairs give `(&(a=x)(b=y))`. */
  lemma ConjunctionOfTwo(objects: map<string, Formatter>, attributes: map<string, Formatter>)
    requires "str" !in objects && "a" !in attributes && "b" !in attributes
    ensures Conjunction(objects, attributes, [("a", Str("x")), ("b", Str("y"))]) == "(&(a=x)(b=y))"
  {
    var kwargs := [("a", Str("x")), ("b", Str("y"))];
    assert kwargs[..1] == [("a", Str("x"))] && kwargs[..1][..0] == [];
    assert Clause(objects, attributes, kwargs[0]) == "(a=x)" by {
      assert AllIntended(objects, attributes, "a", Str("x")) == Str("x");
    }
    assert Clause(objects, attributes, kwargs[1]) == "(b=y)" by {
      assert AllIntended(objects, attributes, "b", Str("y")) == Str("y");
    }
    assert Clauses(objects, attributes, kwargs[..1]) == "(a=x)";
    assert Clauses(objects, attributes, kwargs) == "(a=x)" + "(b=y)";
  }

  /** `find(**kwargs)` as evidently intended: the conjunction filter, then `find_raw`. */
  method Find(d: ModelDefinition, kwargs: seq<(string, Value)>) returns (sent: seq<Request>, r: Result<Rows>)
    ensures sent == FindRawOutcome(d, Conjunction(d.overrides.objects, d.overrides.attributes, kwargs)).sent
    ensures Delivers(FindRawOutcome(d, Conjunction(d.overrides.objects, d.overrides.attributes, kwargs)).outcome, r)
    ensures forall w :: w in Objects(r) ==> fresh(w)
  {
    var search := BuildFilter(d.overrides.objects, d.overrides.attributes, kwargs);
    sent, r := FindRaw(d, search);
  }

  /** The discrepancy on one input: as written `find(cn="x")` raises and sends nothing, where
      the evident intent searches for `(&(cn=x))`. */
  lemma FindOneKeyword(d: ModelDefinition)
    requires d.connection.Some? && "str" !in d.overrides.objects && "cn" !in d.overrides.attributes
    ensures FindAsWrittenOutcome(d, [("cn", Str("x"))]).sent == []
    ensures FindAsWrittenOutcome(d, [("cn", Str("x"))]).outcome.Err?
    ensures FindRawOutcome(d, Conjunction(d.overrides.objects, d.overrides.attributes, [("cn", Str("x"))])).sent
         == [SearchRequest(d.searchBase, "(&(cn=x))", d.attributes)]
  {
    var kwargs := [("cn", Str("x"))];
    assert kwargs[..0] == [];
    assert Clause(d.overrides.objects, d.overrides.attributes, kwargs[0]) == "(cn=x)" by {
      assert AllIntended(d.overrides.objects, d.overrides.attributes, "cn", Str("x")) == Str("x");
    }
    assert Clauses(d.overrides.objects, d.overrides.attributes, kwargs) == "" + "(cn=x)";
    assert Conjunction(d.overrides.objects, d.overrides.attributes, kwargs) == "(&(cn=x))";
  }

  // ----- save -----

  /** The decision logic of `save` for a wrapper's entry and pending changes. A new object
      (no entry) sends nothing; an existing one sends one Modify request with the change set,
      even an empty one, to the entry's DN. The pending changes are not cleared. */
  function SaveOutcome(d: ModelDefinition, entry: Option<Entry>, pending: map<string, Value>): (r: Reply<()>)
    ensures d.connection.None? ==> r == Reply([], Err(NoConnection))
    ensures d.connection.Some? && entry.None? ==> r == Reply([], Ok(()))
    ensures d.connection.Some? && entry.Some? ==>
      && r.sent == [ModifyRequest(entry.value.dn, ChangeSet(entry.value.attributes.Keys, pending))]
      && (r.outcome.Ok? <==> d.connection.value.modifySucceeds)
      && (r.outcome.Err? ==> r.outcome.error == Failed(d.connection.value))
  {
    match d.connection
    case None => Reply([], Err(NoConnection))
    case Some(c) =>
      match entry
      case None => Reply([], Ok(()))
      case Some(e) =>
        var sent := [ModifyRequest(e.dn, ChangeSet(e.attributes.Keys, pending))];
        if c.modifySucceeds then Reply(sent, Ok(())) else Reply(sent, Err(Failed(c)))
  }

  /** `save(w)`; it reads the wrapper and changes nothing in it. */
  method Save(d: ModelDefinition, w: ModelWrapper) returns (r: Reply<()>)
    ensures r == SaveOutcome(d, w.entry, w.newValues)
  {
    if d.connection.None? {
      return Reply([], Err(NoConnection));
    }
    var c := d.connection.value;
    if w.entry.None? {
      return Reply([], Ok(()));
    }
    var changes := BuildChanges(w.entry.value, w.newValues);
    var sent := [ModifyRequest(w.entry.value.dn, changes)];
    if !c.modifySucceeds {
      return Reply(sent, Err(Failed(c)));
    }
    r := Reply(sent, Ok(()));
  }

  /** What `save` sends, applied by the server to the stored entry whose attribute names are
      those of the wrapped entry: it is accepted exactly when the pending values are sendable,
      and then leaves every attribute as the wrapper shows it (`Written`: a pending value
      first, the stored one otherwise). */
  lemma SaveRequestWritesOverlay(d: ModelDefinition, e: Entry, pending: map<string, Value>, dir: Attributes)
    requires d.connection.Some? && e.attributes.Keys == dir.Keys
    ensures SaveOutcome(d, Some(e), pending).sent[0].ModifyRequest?
    ensures var changes := SaveOutcome(d, Some(e), pending).sent[0].changes;
      && (Modify(dir, changes).Some? <==> Sendable(dir, pending))
      && (Sendable(dir, pending) ==>
            forall name :: At(Modify(dir, changes).value, name) == Written(dir, pending, name))
  {
    SaveWritesOverlay(dir, pending);
  }

  /** No connection, no call: every data operation raises the "no connection" error and sends nothing. */
  lemma NoConnectionNoCall(d: ModelDefinition, primary: Value, search: string, kwargs: seq<(string, Value)>,
                           entry: Option<Entry>, pending: map<string, Value>)
    requires d.connection.None?
    ensures GetOutcome(d, primary) == Reply([], Err(NoConnection))
    ensures FindRawOutcome(d, search) == Reply([], Err(NoConnection))
    ensures FindRawOutcome(d, Conjunction(d.overrides.objects, d.overrides.attributes, kwargs)) == Reply([], Err(NoConnection))
    ensures SaveOutcome(d, entry, pending) == Reply([], Err(NoConnection))
  {
  }
}
