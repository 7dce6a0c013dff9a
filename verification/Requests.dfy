/** What the servers share: clients' requests on a key/value map, and the table of each client's latest request. */
module Requests {

  datatype Kind = Get | Put | Append

  datatype Request = Request(client: nat, id: nat, kind: Kind, key: string, value: string)

  // The value of a key; a missing key reads as the empty string.
  function Lookup(db: map<string, string>, key: string): string {
    if key in db then db[key] else ""
  }

  // The effect of a request, without any check for repetitions.
  function Write(db: map<string, string>, req: Request): map<string, string> {
    match req.kind
    case Get => db
    case Put => db[req.key := req.value]
    case Append => db[req.key := Lookup(db, req.key) + req.value]
  }

  // The table has seen this request of the client, or a later one.
  predicate IsInvalidRequest(last: map<nat, nat>, client: nat, id: nat) {
    client in last && id <= last[client]
  }

  function UpdateLastRequest(last: map<nat, nat>, client: nat, id: nat): map<nat, nat> {
    if client !in last || last[client] < id then last[client := id] else last
  }
}
