/**
  Sequences of requests against one server. Each request is served by the
  handler it names, in order, starting from a given table; the lemmas state
  what holds across every such sequence.
 */
module Replay {

  import opened Wrappers
  import opened CommandServer

  datatype Request =
    | List                                                                   // GET /commands
    | Add(authHeader: Option<string>, name: Option<string>, response: Option<string>) // POST /api/commands
    | Delete(authHeader: Option<string>, commandName: string)               // DELETE /api/commands/<name>

  /** The header a request carries; a listing needs none. */
  function HeaderOf(req: Request): Option<string>
  {
    if req.List? then None else req.authHeader
  }

  /** The table after serving one request. */
  function Serve(apiKey: Option<string>, table: Table, req: Request): Table
  {
    match req
    case List => table
    case Add(h, n, r) => AddCommand(apiKey, table, h, n, r).table
    case Delete(h, n) => DeleteCommand(apiKey, table, h, n).table
  }

  /** The table after serving the requests in order. */
  function Run(apiKey: Option<string>, table: Table, reqs: seq<Request>): Table
    decreases |reqs|
  {
    if reqs == [] then table else Run(apiKey, Serve(apiKey, table, reqs[0]), reqs[1..])
  }

  /** Without a configured API key no sequence of requests changes the table. */
  lemma {:induction false} RunFailsClosed(apiKey: Option<string>, table: Table, reqs: seq<Request>)
    requires Falsy(apiKey)
    ensures Run(apiKey, table, reqs) == table
    decreases |reqs|
  {
    if reqs != [] {
      RunFailsClosed(apiKey, Serve(apiKey, table, reqs[0]), reqs[1..]);
    }
  }

  /** Requests none of which carries the right bearer token change nothing. */
  lemma {:induction false} RunWithoutTokenUnchanged(apiKey: Option<string>, table: Table, reqs: seq<Request>)
    requires forall i :: 0 <= i < |reqs| ==> !Authorized(apiKey, HeaderOf(reqs[i]))
    ensures Run(apiKey, table, reqs) == table
    decreases |reqs|
  {
    if reqs != [] {
      assert !Authorized(apiKey, HeaderOf(reqs[0]));
      RunWithoutTokenUnchanged(apiKey, Serve(apiKey, table, reqs[0]), reqs[1..]);
    }
  }

  /** A name stored without the sentinel is never removed: every delete
      looks up a name that starts with `!`. */
  lemma {:induction false} RunKeepsBareNames(apiKey: Option<string>, table: Table, reqs: seq<Request>, k: string)
    requires k in table && !StartsWithBang(k)
    ensures k in Run(apiKey, table, reqs)
    decreases |reqs|
  {
    if reqs != [] {
      var next := Serve(apiKey, table, reqs[0]);
      assert k in next;
      RunKeepsBareNames(apiKey, next, reqs[1..], k);
    }
  }

  /** Requests that never name `k` leave its entry as it was. */
  lemma {:induction false} RunPreservesUntouched(apiKey: Option<string>, table: Table, reqs: seq<Request>, k: string)
    requires forall i :: 0 <= i < |reqs| ==> !Names(reqs[i], k)
    ensures k in Run(apiKey, table, reqs) <==> k in table
    ensures k in table ==> Run(apiKey, table, reqs)[k] == table[k]
    decreases |reqs|
  {
    if reqs != [] {
      assert !Names(reqs[0], k);
      RunPreservesUntouched(apiKey, Serve(apiKey, table, reqs[0]), reqs[1..], k);
    }
  }

  /** Whether a request can touch the entry stored under `k`. */
  predicate Names(req: Request, k: string)
  {
    match req
    case List => false
    case Add(_, n, _) => n == Some(k)
    case Delete(_, n) => Normalize(n) == k
  }

  /** A command added under a bare name answers 404 to a delete by that same
      name, and stays in the table. */
  lemma AddBareThenDelete(apiKey: Option<string>, table: Table, header: Option<string>, name: string, response: string)
    requires Authorized(apiKey, header)
    requires name != "" && response != "" && !StartsWithBang(name) && "!" + name !in table
    ensures var added := AddCommand(apiKey, table, header, Some(name), Some(response));
      var deleted := DeleteCommand(apiKey, added.table, header, name);
      && added.status == Created
      && deleted.status == NotFound
      && deleted.table[name] == response
  {
  }

  /** A command added under a `!` name is removed by a delete given that name,
      or the name without its leading `!` provided what remains does not
      itself start with `!`; the rest of the table is then as before. */
  lemma AddBangThenDelete(apiKey: Option<string>, table: Table, header: Option<string>, name: string, response: string, given: string)
    requires Authorized(apiKey, header)
    requires response != "" && StartsWithBang(name) && name !in table
    requires given == name || ("!" + given == name && !StartsWithBang(given))
    ensures var added := AddCommand(apiKey, table, header, Some(name), Some(response));
      var deleted := DeleteCommand(apiKey, added.table, header, given);
      && added.status == Created
      && deleted.status == Ok
      && deleted.table == table
  {
  }
}
