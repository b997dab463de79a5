# Management-protocol client examples, modelled in Dafny

The repository holds small Python clients for a game server's management
protocol: JSON-RPC 2.0 over a WebSocket. The server also pushes
`notification:` messages over the same socket. This project models the
deterministic logic of two of those clients:

- **The GUI client** (`management-server-gui.py`). This covers four parts:
  - `MinecraftRPCClient` builds requests and owns two fields, the request
    counter and the connected flag (`rpc_client.dfy`, class
    `RpcClient.Client`).
  - The method dialog turns typed parameter text into arguments
    (`method_dialog.dfy`).
  - The method browser groups the catalogue by namespace (`method_tree.dfy`).
  - A double-click looks up a method by name (`method_tree.dfy`).
- **The notification listener** (`management-server-notification.py`). It
  decides whether each message is a notification or a response. It also
  extracts fields from each event family (`notifications.dfy`).

`json.dfy` holds the shared JSON value type. It also models Python
truthiness, `str.startswith` and `dict.get`.

The model follows what the code does, not what a fuller protocol client
would do. The code correlates nothing by `id`:
- `_call_method` takes the next inbound message as its reply.
- The listener classifies a message by its `method` prefix alone.

There is no table of pending calls in the model either.
`Notifications.ReceiveIgnoresId` states that the `id` plays no part in
classification.

The socket is not modelled, so two things are inputs to the model:
- the outcome of each connect attempt (`connectOk`);
- the decoded reply (`reply`). `None` there means the send, the receive or
  the decoding failed.

## Model

| member | source | states |
|---|---|---|
| `RpcClient.BuildRequest` | management-server-gui.py:91-98 | The request has "jsonrpc" = "2.0", "id" = the given id and "method" = the given name. It has "params" exactly when the parameter list is non-empty, and then carries that list. None or [] omits "params". |
| `RpcClient.ReadBuiltRequest` | management-server-gui.py:91-98 | A reader of the JSON-RPC 2.0 requests this client can send (section 4 of the JSON-RPC 2.0 specification, restricted to integer ids and by-position params) recovers the id, method and parameters from every built request. An omitted "params" reads as []. |
| `RpcClient.BuildReadRequest` | management-server-gui.py:91-98 | Conversely, a request that reader accepts, with no explicit empty "params", is exactly the request built from what the reader extracts. |
| `RpcClient.Client.constructor` | management-server-gui.py:33-40 | A new client keeps the given host and port. It is not connected, has no socket, and its counter is 1 with no ids issued. |
| `RpcClient.Client.Connect` | management-server-gui.py:53-62 | The result is the attempt's outcome. Success sets the flag and opens a socket; failure changes nothing. The counter is untouched. |
| `RpcClient.Client.Disconnect` | management-server-gui.py:72-77 | Afterwards the client is not connected. The counter is untouched. |
| `RpcClient.Client.CallMethod` | management-server-gui.py:85-108 | Suppose the client is not connected and the connect attempt fails: nothing is sent, the result is None, and the counter and issued ids are unchanged. Otherwise the request sent is built with id = the old counter, and the counter rises by exactly 1. That id is consumed even when the exchange then fails, in which case the result is None. The invariant keeps the issued ids equal to 1, 2, …, counter − 1. |
| `RpcClient.IssuedIdsIncrease` | management-server-gui.py:91-100 | The ids one client has put into requests are strictly increasing and lie in [1, counter). |
| `MethodDialog.ParseInt` | management-server-gui.py:198-203 | Integer text is accepted exactly when one or more ASCII digits follow an optional sign. The digits, leading zeros removed, are the decimal text of the value's magnitude. Only a '-' sign gives a negative value. |
| `MethodDialog.StripZerosValue` | management-server-gui.py:200 | Digit text with its leading zeros removed is exactly the decimal text of its value. |
| `MethodDialog.ParseIntText` | management-server-gui.py:198-203 | Integer parsing reads back every integer from its decimal text, negative ones included. |
| `MethodDialog.CoerceOne` | management-server-gui.py:187-207 | Only an entry with non-empty text can fail, and a failure names its parameter. It fails with an invalid-JSON error exactly for an array parameter whose text does not decode. It fails with an invalid-integer error exactly for an integer parameter whose text does not parse. Otherwise a check box gives its boolean, non-empty array text gives the decoded JSON, and non-empty integer text gives the parsed integer. Empty text, and text of any other type, is passed on as the string itself. |
| `MethodDialog.EmptyTextPassesThrough` | management-server-gui.py:190-205 | Empty text of a non-boolean parameter, array and integer included, becomes the empty string and never fails. |
| `MethodDialog.IntegerTextCoerces` | management-server-gui.py:198-200 | An integer parameter holding the text of n yields the JSON integer n. |
| `MethodDialog.Execute` | management-server-gui.py:181-211 | The call is made exactly when every parameter coerces. The arguments then follow declaration order, one per parameter, and are None exactly when there are no parameters. Otherwise the error is that of the first parameter that fails, and no call is made. |
| `MethodTree.Namespace` | management-server-gui.py:286 | The namespace is the prefix of the name up to the first ':'. It contains no ':', and the next character of the name, if any, is ':'. |
| `MethodTree.ListedMethodsMembers` | management-server-gui.py:280-284 | The listed entries are exactly the catalogue entries that have a name and a description and whose name does not start with "notification:". |
| `MethodTree.FirstOccurrencesDistinct` | management-server-gui.py:286-289 | The namespace order has no duplicates, and it holds exactly the namespaces that occur. |
| `MethodTree.FirstOccurrencesOrder` | management-server-gui.py:286-292 | Namespaces are ordered by the position of their first occurrence. |
| `MethodTree.InNamespaceMembers` | management-server-gui.py:286-289 | A method is in the group of namespace ns exactly when it is listed and its namespace is ns. |
| `MethodTree.GroupedPartition` | management-server-gui.py:286-300 | The tree's method nodes, taken together, are a permutation of the listed methods. |
| `MethodTree.GroupedSound` | management-server-gui.py:280-300 | Every method node of the tree is a listed catalogue entry, and it sits under its own namespace. |
| `MethodTree.GroupedComplete` | management-server-gui.py:280-300 | Every listed catalogue entry appears in the node of its own namespace. |
| `MethodTree.GroupedProperties` | management-server-gui.py:280-300 | The tree's namespaces are distinct. Every method node is a listed catalogue entry under its own namespace. Every listed entry appears under its namespace, and each appears exactly once overall. |
| `MethodTree.PopulateMethodTree` | management-server-gui.py:276-300 | Both loops together produce exactly the reference tree: namespaces by first occurrence, each with its listed methods in catalogue order. |
| `MethodTree.FindMethod` | management-server-gui.py:307-315 | The result opens the first entry whose name is the selected text. If no entry matches, nothing happens. An entry without "name" that comes before any match stops the scan with a KeyError. |
| `Notifications.Receive` | management-server-notification.py:44-57 | A message counts as a response exactly when it has no "method", or a string "method" without the "notification:" prefix. A notification whose handler succeeds yields that event. The listener stops exactly on a non-string "method" or a handler that raises. |
| `Notifications.ReceiveIgnoresId` | management-server-notification.py:47-52 | Adding or changing "id" does not change the classification, nor the event handled. |
| `Notifications.Handle` | management-server-notification.py:59-126 | Every handled event is the family announced under the message's method name. The catch-all is reached exactly for names outside the table. Only a name whose branch reads a payload, with true params, can raise. Such a branch always raises when the params are true but are not a list whose first element is an object (a string, an object, a non-zero number, or a list starting with a non-object). |
| `Notifications.UnknownPassesThrough` | management-server-notification.py:124-126 | A name outside the table never raises. It reaches the catch-all with the method name and the params intact; absent params read as []. |
| `Notifications.LifecycleNeverRaises` | management-server-notification.py:105-115 | server/started, stopping, saving and saved read no payload and always succeed. |
| `Notifications.DefaultsWithoutParams` | management-server-notification.py:62-122 | With params absent or false, every family succeeds with its documented defaults: "未知玩家", "未知ID", "未知", "未知规则" and "未知值". A status then has 0 players, started = False and "未运行". |
| `Notifications.PlayerFieldsFromPayload` | management-server-notification.py:67-103 | With a payload object present, players/joined, players/left, allowlist/added and allowlist/removed read "name", and joined also reads "id". gamerules/updated reads "key" and "value". Each field is the payload's value when the key is present, and its own default ("未知玩家", "未知ID", "未知规则", "未知值") otherwise. |
| `Notifications.OperatorFieldsFromPayload` | management-server-notification.py:88-97 | With a payload object present, operators/added and removed raise exactly when "player" is present but not an object. An absent "player" gives "未知玩家". Otherwise the name is the nested "name", or "未知玩家" when missing. The permission level of operators/added is "permissionLevel", or "未知" when missing. |
| `Notifications.StatusHeartbeat` | management-server-notification.py:117-122 | With a payload object present, a status heartbeat raises exactly when "players" is present without a length (not a list, object or string). Otherwise the player count is the length of "players", or 0 when it is absent; `started` is the payload's value, or False when absent. The text is "运行中" exactly when `started` is present and true. |
| `Notifications.ReceiveAnnounce` | management-server-notification.py:59-122 | The server sends each event under its method name. The families that carry a payload send it as "params": [payload]; the lifecycle events send no "params", and an unknown name sends its params as given. The listener classifies every such message as a notification and recovers exactly the event that was sent. |

## Left out

- Network I/O is not modelled: the WebSocket connect, send, recv and close calls, and the listener's `async for` receive loop. The connect outcome and the decoded reply or message are inputs instead. The per-message step of the receive loop is `Notifications.Receive`.
- The asyncio event-loop thread is not modelled (`start_loop`, `_run_loop`, `run_coroutine_threadsafe`). Neither are the public `connect`, `disconnect` and `call_method` wrappers, which only forward to the coroutines. This is concurrency plumbing.
- Tkinter is not modelled: widget construction, message-box texts, `log_response`, the dialog closing itself, and opening tree nodes. All of it is presentation.
- Loading `discover.json` at import time is file I/O. The catalogue is a parameter instead.
- `json.loads` of array parameter text is the function parameter `parseJson`, whose None stands for `json.JSONDecodeError`. A decoder that raises some other exception, which `execute` does not catch, is not modelled. Python 3.11 and later raise a plain ValueError for a number literal longer than 4300 digits, and that error escapes `execute`.
- The listener's messages arrive already decoded as JSON objects. Frames that are not JSON, and JSON values that are not objects, are not modelled. In the source, a list or string without the element or substring "method" is logged as a response, because `"method" in data` is then a membership or substring test. Any other non-object value, and a frame that is not JSON, ends the listener.
- `json.dumps` is not modelled. The request is a map, so the key order of the serialised request is not captured.
- Logging configuration and the text of log lines are not modelled. Only the values the listener logs are extracted.
- JSON numbers are integers only. Floats are not modelled, so neither is the truthiness of 0.0.
- Python's `None` from a reply of JSON `null` is not distinguished. `RpcClient.Client.CallMethod` returns Some(JNull) there.
- `MethodDialog.ParseInt` accepts only an optional sign followed by ASCII digits. Python's `int()` also accepts surrounding whitespace, underscores between digits and non-ASCII digits. Conversely, Python 3.11 and later (and security releases of 3.7 to 3.10) reject text of more than 4300 digits with ValueError, so the dialog shows the invalid-integer error. `ParseInt` accepts such text, because the source does not fix a Python version.
- `MethodDialog.Execute` requires that each parameter's widget matches its type: a check box for boolean parameters, text otherwise. The source can break this only when two parameters share a name. Then the later widget serves both. Suppose that widget is a check box and the other parameter is an array or an integer. An unchecked box is false, skips both branches and is passed on as False. A checked box reaching the integer branch becomes `int(True)`, which is 1. A checked box reaching the array branch makes `json.loads` raise TypeError, which `execute` does not catch. Suppose instead the serving widget is a text entry and the other parameter is boolean: the text becomes `bool(text)`, so any non-empty text, "false" included, gives True. A check box serving a string or untyped parameter is passed on as a Python bool.
- `MethodTree.MethodInfo` types "name" and "description" as optional strings. A catalogue entry whose name is not a string, or that lacks "schema" on a parameter, is not modelled.
- `Notifications.Len` counts a string's characters, which are Unicode scalar values. Python's `len` counts code points, including the lone surrogates a JSON escape such as "\ud800" decodes to; a Dafny string cannot hold those, so such strings are not modelled.
- management-server.py is not part of this model. It is a fixed script of three literal request/response exchanges, with no logic of its own.
