/** The bound LDAP connection, seen from this layer as a value: whether its next search and
    modify succeed, what a search leaves in `response`, and the diagnostic in `result`.
    Every data operation reports the requests it sent, so "no call" is an empty list. */
module Client {
  import opened Values
  import opened Errors
  import opened Directory

  /** A directory entry: its distinguished name and the value each attribute reads as. */
  datatype Entry = Entry(dn: string, attributes: map<string, Value>)

  datatype Connection = Connection(
    searchSucceeds: bool,
    modifySucceeds: bool,
    response: seq<Entry>,
    result: Diagnostic)

  datatype Request =
    | SearchRequest(base: string, filter: string, attributes: seq<string>)
    | ModifyRequest(dn: string, changes: map<string, seq<Modification>>)

  /** What an operation sent to the connection, and what it returned or raised. */
  datatype Reply<+T> = Reply(sent: seq<Request>, outcome: Result<T>)

  /** The exception raised when the connection reports a failed call. */
  function Failed(c: Connection): Error
  {
    LdapperException(ConnectionResult(c.result))
  }
}
