# Custom-command table of the Twitch command server

This project models, in Dafny, the core of `command_server.py`: the
in-memory table `COMMANDS` that maps a chat-bot command name to the text the
bot answers with. It also models the three handlers that use the table:

- `GET /commands` lists the table; anyone may call it.
- `POST /api/commands` adds or overwrites one entry.
- `DELETE /api/commands/<name>` removes one entry.

Both write handlers sit behind a bearer-token gate. The request must carry
`Authorization: Bearer <API_KEY>`. If `API_KEY` is unset or empty, every
write is refused.

Files:

- `wrappers.dfy` (module `Wrappers`): `Option`, used for absent request fields,
  an absent header and an unset environment variable.
- `command_server.dfy` (module `CommandServer`) holds:
  - the gate `Authorized`;
  - the delete-side name normalisation `Normalize`;
  - each write handler as a pure function from the old table to an `Outcome`
    (status code, reply body, new table);
  - the class `Server`, whose `commands` field is the table that the methods
    update in place. Each method is proved equal to its pure function.
- `replay.dfy` (module `Replay`): runs a sequence of requests against a table,
  with lemmas that hold across every such sequence.

The model follows the code as written:

- Add stores the name exactly as given and silently overwrites an existing
  entry.
- Delete prefixes `!` when it is missing before the lookup.

So a command added as `hello` can never be deleted: a delete of `hello`
looks up `!hello` (`AddBareThenDelete`, `RunKeepsBareNames`).

Add has no duplicate check and does not normalise the name, and there is no
edit operation.

## Model

| member | source | states |
|---|---|---|
| `CommandServer.Authorized` | command_server.py:29-31 | A write is authorised exactly when the API key is set and non-empty and the header equals `"Bearer " + key`. An unset or empty key refuses every header, so writes fail closed. |
| `CommandServer.Normalize` | command_server.py:55-56 | The lookup key always starts with `!`. It equals the given name exactly when that name already starts with `!`. Otherwise it is `!` followed by the name. |
| `CommandServer.NormalizeIdempotent` | command_server.py:55-56 | Normalising twice gives the same result as normalising once. |
| `CommandServer.NormalizeSameKey` | command_server.py:55-58 | Two names reach the same entry exactly when they are equal, or when one is the other with `!` prefixed and the shorter one does not start with `!`. |
| `CommandServer.AddCommand` | command_server.py:26-44 | 401 exactly when the gate refuses. 400 exactly when the request is authorised and the name or response is missing or empty. 201 otherwise. Every non-201 leaves the table unchanged and answers with an error body. On 201 the name is stored as given with the new response, any existing entry for it is overwritten, every other entry is unchanged, and the reply echoes the name. |
| `CommandServer.DeleteCommand` | command_server.py:47-64 | 401 exactly when the gate refuses. 200 exactly when the request is authorised and the normalised name is in the table; 404 exactly when it is not. On 200 only that key is removed, every other entry keeps its value, and the reply names the normalised key. Every non-200 leaves the table unchanged and answers with an error body. A name without a leading `!` always survives a delete. |
| `CommandServer.Server.constructor` | command_server.py:5-10 | The server starts with an empty table and the API key it was given. |
| `CommandServer.Server.GetCommands` | command_server.py:19-22 | Returns the current table and does not change it. |
| `CommandServer.Server.AddCommandApi` | command_server.py:26-44 | The in-place handler returns the same status and reply as `AddCommand`, and leaves `commands` equal to `AddCommand`'s table. |
| `CommandServer.Server.DeleteCommandApi` | command_server.py:47-64 | The in-place handler normalises the name by reassigning its variable. It returns the same status and reply as `DeleteCommand`, and leaves `commands` equal to `DeleteCommand`'s table. |
| `Replay.RunFailsClosed` | command_server.py:30 | With the API key unset or empty, no sequence of requests changes the table. |
| `Replay.RunWithoutTokenUnchanged` | command_server.py:50-52 | A sequence of requests none of which passes the gate leaves the table unchanged. |
| `Replay.RunKeepsBareNames` | command_server.py:55-60 | A name stored without a leading `!` stays in the table after any sequence of requests. |
| `Replay.RunPreservesUntouched` | command_server.py:41-60 | An entry that no add names and no delete normalises to keeps its presence and value across any sequence of requests. |
| `Replay.AddBareThenDelete` | command_server.py:41-64 | After an authorised add of a name without `!`, an authorised delete of the same name returns 404 and the entry remains, provided `!` followed by the name was not already in the table. |
| `Replay.AddBangThenDelete` | command_server.py:41-62 | After an authorised add of a new name starting with `!`, a delete returns 200 and restores the original table. This holds for a delete of that name, or of the name without its `!` when what remains does not start with `!`. |

## Left out

- Flask routing, the `/` page (`render_template`), `CORS`, `jsonify` serialisation and `app.run` are framework plumbing. Replies are modelled as the `Reply` datatype.
- Reading `COMMANDS_API_KEY` from the environment is not modelled. The key is a constructor parameter, `Server.apiKey`.
- The `print` debug logging after an add and after a delete is I/O only.
- A request whose JSON body is absent or not an object raises before the fields are read; only well-formed bodies are modelled.
- `name` and `response` are modelled as optional strings. JSON values of other types (numbers, lists, booleans) and their Python truthiness are not modelled.
- A stored value is the dictionary `{"response": text}`. It is modelled as the text alone.
- The route converter never passes an empty path to delete. The model accepts any name, including the empty one.
- Concurrent requests against the shared dictionary are not modelled. The source has no locking, and handlers are modelled as running one at a time.
- The fixed command catalog, the categorised merged listing, the edit operation, duplicate rejection (409) and database or file storage are not part of this `command_server.py`. They are not modelled.
