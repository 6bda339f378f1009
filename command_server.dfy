/**
  The custom-command table of the command server and its HTTP handlers.

  The table maps a command name to the response text the bot answers with.
  Reads are public; the two write handlers are guarded by a bearer token
  that must match the configured API key. Each handler reduces to a status
  code, a reply body and the table afterwards.
 */
module CommandServer {

  import opened Wrappers

  type Table = map<string, string>

  // HTTP status codes the handlers return
  const Ok: nat := 200
  const Created: nat := 201
  const BadRequest: nat := 400
  const Unauthorized: nat := 401
  const NotFound: nat := 404

  /** The JSON body of a reply. */
  datatype Reply =
    | Failed(error: string)          // {"error": ...}
    | Added(command: string)         // {"success": true, "command": ...}
    | Deleted(commandDeleted: string) // {"success": true, "command_deleted": ...}

  /** What a write handler answers and the table it leaves behind. */
  datatype Outcome = Outcome(status: nat, reply: Reply, table: Table)

  /** Python truthiness of an optional string: absent or empty is false. */
  predicate Falsy(s: Option<string>)
  {
    s.None? || s.value == ""
  }

  predicate StartsWithBang(s: string)
  {
    |s| > 0 && s[0] == '!'
  }

  /** The bearer-token gate in front of both write handlers. A missing or
      empty API key rejects every request, whatever the header says. */
  function Authorized(apiKey: Option<string>, authHeader: Option<string>): (ok: bool)
    ensures ok <==> apiKey.Some? && apiKey.value != "" && authHeader == Some("Bearer " + apiKey.value)
    ensures Falsy(apiKey) ==> !ok
  {
    !(Falsy(apiKey) || Falsy(authHeader) || authHeader.value != "Bearer " + apiKey.value)
  }

  /** The name a delete looks up: the sentinel `!` is prefixed when missing. */
  function Normalize(name: string): (key: string)
    ensures StartsWithBang(key)
    ensures key == name <==> StartsWithBang(name)
    ensures key != name ==> key[1..] == name
  {
    if StartsWithBang(name) then name else "!" + name
  }

  /** Normalising is idempotent. */
  lemma NormalizeIdempotent(name: string)
    ensures Normalize(Normalize(name)) == Normalize(name)
  {
  }

  /** Two names reach the same key exactly when they are equal or one is the
      other with the sentinel prefixed. */
  lemma NormalizeSameKey(a: string, b: string)
    ensures Normalize(a) == Normalize(b) <==>
      a == b || (a == "!" + b && !StartsWithBang(b)) || (b == "!" + a && !StartsWithBang(a))
  {
  }

  /** The effect of POST /api/commands on the table. */
  function AddCommand(apiKey: Option<string>, table: Table, authHeader: Option<string>,
                      name: Option<string>, response: Option<string>): (o: Outcome)
    ensures o.status == Unauthorized <==> !Authorized(apiKey, authHeader)
    ensures o.status == BadRequest <==> Authorized(apiKey, authHeader) && (Falsy(name) || Falsy(response))
    ensures o.status == Created <==> Authorized(apiKey, authHeader) && !Falsy(name) && !Falsy(response)
    ensures o.status != Created ==> o.table == table
    ensures o.status != Created ==> o.reply.Failed?
    ensures o.status == Created ==>
      && o.reply == Added(name.value)
      && o.table.Keys == table.Keys + {name.value}
      && o.table[name.value] == response.value
      && (forall k :: k in table && k != name.value ==> o.table[k] == table[k])
  {
    if !Authorized(apiKey, authHeader) then
      Outcome(Unauthorized, Failed("Unauthorized"), table)
    else if Falsy(name) || Falsy(response) then
      Outcome(BadRequest, Failed("Missing name or response"), table)
    else
      Outcome(Created, Added(name.value), table[name.value := response.value])
  }

  /** The effect of DELETE /api/commands/<name> on the table. */
  function DeleteCommand(apiKey: Option<string>, table: Table, authHeader: Option<string>,
                         commandName: string): (o: Outcome)
    ensures o.status == Unauthorized <==> !Authorized(apiKey, authHeader)
    ensures o.status == Ok <==> Authorized(apiKey, authHeader) && Normalize(commandName) in table
    ensures o.status == NotFound <==> Authorized(apiKey, authHeader) && Normalize(commandName) !in table
    ensures o.status != Ok ==> o.table == table
    ensures o.status != Ok ==> o.reply.Failed?
    ensures o.status == Ok ==>
      && o.reply == Deleted(Normalize(commandName))
      && o.table.Keys == table.Keys - {Normalize(commandName)}
      && (forall k :: k in o.table ==> o.table[k] == table[k])
    ensures forall k :: k in table && !StartsWithBang(k) ==> k in o.table
  {
    if !Authorized(apiKey, authHeader) then
      Outcome(Unauthorized, Failed("Unauthorized"), table)
    else
      var key := Normalize(commandName);
      if key in table then
        Outcome(Ok, Deleted(key), table - {key})
      else
        Outcome(NotFound, Failed("Command not found"), table)
  }

  /** The server process: the API key read once at start-up and the
      in-memory command table that the handlers update in place. */
  class Server {
    const apiKey: Option<string>
    var commands: Table

    constructor (apiKey: Option<string>)
      ensures this.apiKey == apiKey && commands == map[]
    {
      this.apiKey := apiKey;
      commands := map[];
    }

    /** GET /commands: the current table, unchanged. */
    method GetCommands() returns (view: Table)
      ensures view == commands
    {
      view := commands;
    }

    /** POST /api/commands */
    method AddCommandApi(authHeader: Option<string>, name: Option<string>, response: Option<string>)
      returns (status: nat, reply: Reply)
      modifies this
      ensures var o := AddCommand(apiKey, old(commands), authHeader, name, response);
        status == o.status && reply == o.reply && commands == o.table
    {
      if Falsy(apiKey) || Falsy(authHeader) || authHeader.value != "Bearer " + apiKey.value {
        return Unauthorized, Failed("Unauthorized");
      }
      if Falsy(name) || Falsy(response) {
        return BadRequest, Failed("Missing name or response");
      }
      commands := commands[name.value := response.value];
      return Created, Added(name.value);
    }

    /** DELETE /api/commands/<commandName> */
    method DeleteCommandApi(authHeader: Option<string>, commandName: string)
      returns (status: nat, reply: Reply)
      modifies this
      ensures var o := DeleteCommand(apiKey, old(commands), authHeader, commandName);
        status == o.status && reply == o.reply && commands == o.table
    {
      if Falsy(apiKey) || Falsy(authHeader) || authHeader.value != "Bearer " + apiKey.value {
        return Unauthorized, Failed("Unauthorized");
      }
      var key := commandName;
      if !StartsWithBang(key) {
        key := "!" + key;
      }
      if key in commands {
        commands := commands - {key};
        return Ok, Deleted(key);
      } else {
        return NotFound, Failed("Command not found");
      }
    }
  }
}
