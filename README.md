# ldapp3r in Dafny

A model of `ldapp3r/ldapper.py`, a thin mapping layer over the `ldap3` client. A *model
definition* holds a search base, a primary-search filter template, the attributes to fetch,
a wrapper flag and an override registry, and may be bound to a connection. Through it a
caller can `get` one entry by primary key, `find_raw` entries with a literal filter, `find`
them by field equality, and `save` the changes buffered in an *entry wrapper*.

The model is split by component:

- `values.dfy` (`Values`): Python values. These are `None`, `str`, `list` and `datetime` (kept
  as the two halves of its ISO-8601 text), plus any other object by its class name and `str()`
  text. Also `str()` itself and the `_` rule for internal names.
- `errors.dfy` (`Errors`): `LdapperException`, `TypeError`, `ValueError` and `AttributeError` as values,
  and the "no connection" message.
- `template.dfy` (`Template`): the parenthesisation of the template, and Python's
  `template % key` for `%s` and `%%`.
- `overrides.dfy` (`Overrides`): the override registry as a class with two formatter maps. Its
  `object`, `attribute` and `all` lookups are pure functions of those maps.
- `directory.dfy` (`Directory`): what a server does with a Modify request under section 4.6 of
  RFC 4511. It is the reference the change set of `save` is proved against.
- `client.dfy` (`Client`): the connection as a value. A search and a modify each have a
  success flag, and the connection also holds the `response` entries and the `result`
  diagnostic. Every data operation reports the requests it sent, so "no call" means the
  list of sent requests is empty.
- `changes.dfy` (`Changes`): the change set built by `save`, the loop that builds it, and the
  theorem that ties it to the wrapper's view.
- `wrapper.dfy` (`EntryWrapper`): the wrapper as a class with the pending map `newValues`.
- `definition.dfy` (`Definitions`): the definition and its operations. Each operation has a
  function for its decision logic and a method that carries it out.

In three places the model follows the code where a reader might expect otherwise:

- `save` never clears the pending map, even after a successful modify.
- `save` sends the pending values as they are: no formatter is applied to them.
- `save` sends a modify request even when nothing is pending.

## Model

| member | source | states |
|---|---|---|
| `Template.Parenthesize` | ldapp3r/ldapper.py:16-18 | The stored template always contains `(`. A template that already had one is kept unchanged; any other is wrapped as `"(" + t + ")"`. |
| `Template.ParenthesizeIdempotent` | ldapp3r/ldapper.py:16-18 | Parenthesising a stored template again changes nothing. |
| `Template.ScanPlain` | ldapp3r/ldapper.py:37 | Under `%`, text without `%` is copied verbatim. It is an error only if the argument was never consumed and is not a mapping (a list or a dict). |
| `Template.SubstituteOnce` | ldapp3r/ldapper.py:37 | For a template with exactly one `%s` and no other `%`, the key text appears once, in place of the `%s`, whether or not the key is a mapping. |
| `Template.NoPlaceholder` | ldapp3r/ldapper.py:37 | A template without `%` rejects a non-mapping key with "not all arguments converted", so no search is sent. A mapping key (a list or a dict) is accepted, and the template comes back unchanged. |
| `Overrides.ObjectOverride` | ldapp3r/ldapper.py:113-119 | The result is either the value itself or a string. It differs from the value only when a formatter is registered for the value's exact class and returns a string, and then it is that output. With no formatter for the class, the value is returned unchanged. |
| `Overrides.DefaultFormatsDatetimes` | ldapp3r/ldapper.py:100-101 | With the default registry, a datetime becomes its ISO-8601 text, and a value of any other class is unchanged. |
| `Overrides.AttributeAsWritten` | ldapp3r/ldapper.py:121-124 | As written, `attribute` fails with `AttributeError('attributes')` exactly when the name is registered; otherwise it returns the value. |
| `Overrides.AllAsWrittenAlwaysFails` | ldapp3r/ldapper.py:126-128 | As written, `all` always raises: `AttributeError` for a registered name and `TypeError` for any other. |
| `Overrides.AttributeIntended` | ldapp3r/ldapper.py:121-124 | Corrected `attribute`: the name's formatter is applied, with no string guard. An unregistered name leaves the value unchanged. |
| `Overrides.AllIntended` | ldapp3r/ldapper.py:126-128 | Corrected `all`: the result is the attribute-formatted value or a string. With nothing registered it is the value itself. |
| `Overrides.AttributePathHasNoStringGuard` | ldapp3r/ldapper.py:113-124 | The two paths are asymmetric: a non-string formatter output is kept on the attribute path and discarded on the class path. |
| `Overrides.AttributeOverride.constructor` | ldapp3r/ldapper.py:95-101 | A new registry holds only the datetime formatter and no attribute formatters. |
| `Overrides.AttributeOverride.AddObject` | ldapp3r/ldapper.py:103-106 | A callable is stored under the class and replaces any earlier one. A non-callable gives `TypeError("'<class>' is not callable.")` and leaves both maps unchanged. |
| `Overrides.AttributeOverride.AddAttribute` | ldapp3r/ldapper.py:108-111 | The same, keyed by attribute name. The class map is never touched. |
| `Directory.Modify` | ldapp3r/ldapper.py:86-87 | Describes what the server does with the modify request. The request is accepted exactly when every attribute's modifications apply, and then attributes that are not named keep their values. |
| `Changes.ChangeSetShape` | ldapp3r/ldapper.py:72-85 | The change map has exactly the pending keys, with one modification each. `None` gives `(DELETE, [])`. A name the entry lacks gives ADD, and a name it has gives REPLACE. A list is sent as-is and a scalar as `[value]`. |
| `Changes.BuildChanges` | ldapp3r/ldapper.py:72-85 | The loop over `_newValues` builds exactly `ChangeSet(entry attribute names, pending)`. |
| `Changes.OneChange` | ldapp3r/ldapper.py:74-85 | One pending change, applied by the server, gives the wrapper's view of that attribute, or is rejected exactly when it cannot be sent. |
| `Definitions.SaveRequestWritesOverlay` | ldapp3r/ldapper.py:67-86 | The server applies the modify request that `SaveOutcome` sends to a stored entry with the wrapped entry's attribute names. It is accepted iff no `None` names a missing attribute and no empty list is added. Once accepted, every attribute reads as the wrapper's view, `Changes.Written`: the pending value first, the stored one otherwise. |
| `Changes.SaveWritesOverlay` | ldapp3r/ldapper.py:72-86 | Assumes the entry was fetched with all its attributes. Then the change set's modify is accepted iff no `None` names a missing attribute and no empty list is added. When accepted, every attribute afterwards is the wrapper's view as given by `Changes.Written`: pending values for pending names, and the stored values for the rest. |
| `EntryWrapper.ModelWrapper.constructor` | ldapp3r/ldapper.py:132-134 | A new wrapper has the given entry and no pending changes. |
| `EntryWrapper.ModelWrapper.Get` | ldapp3r/ldapper.py:136-140 | A read takes `_` instance state first, then a pending value (even `None`), then the entry's value. A name found in none of them raises `AttributeError`. |
| `EntryWrapper.ModelWrapper.Set` | ldapp3r/ldapper.py:142-146 | A public name goes into the pending map and a `_` name into instance state, never the pending map. Afterwards the name reads as the written value, every other name reads as before, and the entry is unchanged. |
| `EntryWrapper.ModelWrapper.SetEntry` | ldapp3r/ldapper.py:145-146 | Writing `_entry` replaces the wrapped entry and keeps the pending map. The next `save` compares the pending map against the new entry. |
| `EntryWrapper.ModelWrapper.SetNewValues` | ldapp3r/ldapper.py:145-146 | Writing `_newValues` replaces the pending map wholesale. Afterwards every name in the new map that is not `_` instance state reads as its value there. |
| `Definitions.Make` | ldapp3r/ldapper.py:13-24 | Construction with a given registry stores the parenthesised template and keeps every other argument. |
| `Definitions.Define` | ldapp3r/ldapper.py:13-24 | The defaults are: every attribute (`['*']`), no connection, results wrapped, and no registry. Without a registry, a new default registry is made. With one, that same object is used. |
| `Definitions.Using` | ldapp3r/ldapper.py:26-32 | Returns a definition bound to the given connection. Base, template, attribute list and wrapper flag are the same, and so is the registry object. The original is a value, so it is left unchanged. |
| `Definitions.UsingTwice` | ldapp3r/ldapper.py:26-32 | Rebinding twice is the same as rebinding once, to the later connection. |
| `Definitions.GetOutcome` | ldapp3r/ldapper.py:34-45 | With no connection, `get` raises "no connection" and sends nothing. Otherwise, when the key formats into the template, it sends exactly one search, with that filter, the base and the attribute list. When the key does not format, it raises the formatting error and sends nothing. A failed search raises the connection's result. A response whose length is not 1 gives `None`. Exactly one entry gives that entry, wrapped or as raw attributes according to the flag. |
| `Definitions.GetSearchesForKey` | ldapp3r/ldapper.py:37 | With a single-`%s` template, `get` searches for the class-formatted key in place of the `%s`. |
| `Definitions.Get` | ldapp3r/ldapper.py:34-45 | Carries out `GetOutcome`. A found entry comes back in a new wrapper with no pending changes. |
| `Definitions.FindRawOutcome` | ldapp3r/ldapper.py:55-63 | With no connection, `find_raw` raises and sends nothing. Otherwise it sends one search with the literal filter. A failure raises the connection's result, and success gives every response entry in order, to be wrapped or left raw by the flag. |
| `Definitions.FindRaw` | ldapp3r/ldapper.py:55-63 | Carries out `FindRawOutcome`. It returns one new, distinct wrapper with no pending changes per entry, in order, or the raw response. |
| `Definitions.FindAsWrittenFails` | ldapp3r/ldapper.py:47-53 | As written, `find` with any keyword argument raises without sending anything, and never with the "no connection" error. |
| `Definitions.BuildFilter` | ldapp3r/ldapper.py:47-52 | The corrected filter loop builds `(&` followed by one `(name=value)` per keyword, in order, then `)`. Each value passes through the name's and then the class's formatter. |
| `Definitions.ConjunctionOfTwo` | ldapp3r/ldapper.py:48-52 | With no formatter that applies, `a="x", b="y"` gives `(&(a=x)(b=y))`. |
| `Definitions.Find` | ldapp3r/ldapper.py:47-53 | Corrected `find`: `find_raw` with the conjunction filter. |
| `Definitions.FindOneKeyword` | ldapp3r/ldapper.py:47-53 | On `find(cn="x")` with a bound connection, the code as written raises and sends nothing. The corrected version searches for `(&(cn=x))`. |
| `Definitions.SaveOutcome` | ldapp3r/ldapper.py:65-87 | With no connection, `save` raises and sends nothing. A wrapper with no entry sends nothing and succeeds. Otherwise it sends exactly one modify of the change set to the entry's DN, and raises the connection's result iff the modify fails. |
| `Definitions.Save` | ldapp3r/ldapper.py:65-87 | Carries out `SaveOutcome`, building the change set with the loop. It leaves the wrapper unchanged. |
| `Definitions.NoConnectionNoCall` | ldapp3r/ldapper.py:34-67 | An unbound definition makes `get`, `find_raw`, the corrected `find` and `save` raise "No connection for ModelDefinition, consider chaining with using()" and send nothing. |

## Left out

- The `ldap3` connection itself: the network, TLS, binding and the real `search`/`modify` calls. The connection is a value, and a bound connection object is taken to be truthy.
- The DN of a wrapped entry: `get` and `find_raw` wrap `.attributes` (lines 43 and 61), yet `save` reads `_entry.entry_dn` (line 86), which an attribute collection does not obviously have. The model's wrapped entry is the response entry, DN included, so `save` has a DN to send to.
- Python's dynamic dispatch: `__getattr__`/`__setattr__` are explicit `Get`/`Set` members, `callable()` is a tag on the registration, and class-keyed lookup uses the exact class name. A `str` subclass is not distinguished from `str`.
- Formatters that raise: formatters are total functions from values to values.
- `Template.Substitute`: only `%s` and `%%` are modelled, with a single non-tuple argument. Only a list or an object of class `dict` counts as a mapping; other mapping types are not. Any other conversion (`%d`, `%r`, flags, widths, `%(name)s`) is reported as a `ValueError`, where Python may accept it.
- `Values.Display`: a list prints its string elements in quotes without escaping, and its other elements by their `str()` text instead of their `repr()`.
- `EntryWrapper.ModelWrapper.Get`: names that Python resolves before `__getattr__` are not modelled. These are the bookkeeping fields `_entry` and `_newValues` and the class's own attributes such as `__class__`. Only `_` names written through `Set` are.
- `EntryWrapper.ModelWrapper.Set`: does not take `_entry` or `_newValues`. Writes to those go through `SetEntry` and `SetNewValues`, which take an entry and a pending map. Assigning some other kind of object to either name is not modelled. Neither is the aliasing of a dict assigned to `_newValues`, since the model copies it.
- `Directory.Modify`: value equality stands in for LDAP matching rules. Duplicate values inside one add list, and schema checks, are not modelled.
- `Changes.SaveWritesOverlay`: this is proved only for an entry fetched with all its attributes. With a narrower attribute list, `hasattr` can miss an attribute the directory holds, and the ADD then targets an existing attribute.
- `MODIFY_INCREMENT` is imported but never sent, so it has no operation kind here.
- The exception classes themselves: errors are values, and `LdapperException.message` is the `Message` they carry.

## Findings

| source | as written | input that shows it | evidently intended | confidence | as-written member | corrected member |
|---|---|---|---|---|---|---|
| ldapp3r/ldapper.py:123 | `val = self.attributes[attr]` reads a field the registry does not have and never calls the formatter | `add_attribute("cn", f)` then `attribute("cn", "x")` raises `AttributeError` | `val = self._attributes[attr](val)` | high; not executed | `Overrides.AttributeAsWritten` | `Overrides.AttributeIntended` |
| ldapp3r/ldapper.py:128 | `self.object(attr, val)` passes two arguments to a one-argument method | `all("cn", "x")` with nothing registered raises `TypeError` | `self.object(val)` | high; not executed | `Overrides.AllAsWrittenAlwaysFails` | `Overrides.AllIntended` |
| ldapp3r/ldapper.py:50 | assigns into the `(key, value)` tuple from `dict.items()`, after calling `all`, which raises first | `find(cn="x")` on a bound definition raises and sends no search | search with `(&(cn=x))` | high; not executed | `Definitions.FindAsWrittenFails` | `Definitions.BuildFilter` |
