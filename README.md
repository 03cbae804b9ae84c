# Valetudo REST client, modelled in Dafny

This project models the Python client for the local REST API of a vacuum robot
running Valetudo (`valetudo.py`). The client holds one address. Each robot operation
becomes one HTTP request, GET or PUT, to `http://{ip}/api/{endpoint}`. The endpoint
comes from a fixed command table. Volume and fan speed are clamped to [0, 100], and
numbers are sent as decimal strings. The HTTP outcome is mapped to a result or a typed
error. `send_home` is the only operation that issues two requests: stop, then
drive home.

Modules, one concept each:

- `Options` (options.dfy): the optional value used for an absent request body and for lookups.
- `Decimal` (decimal.dfy): Python's `str(n)` / `'%d' % n` on integers, a parser as its partner, and the round trip between them.
- `Endpoints` (endpoints.dfy): the command table, with GET commands and PUT commands, and the literal path segments.
- `Http` (http.dfy): JSON bodies, wire requests, the URL template, and the transport.
  The transport is an oracle object (`Network`) that answers the n-th exchange with `respond(n, request)` and logs every request in order.
- `Errors` (errors.dfy): the error variants, the request-error message and its string form, and the classification of a transport outcome.
- `Client` (client.dfy): clamping, payload construction, and the class `Valetudo` with the two primitives and every public operation.
  Each method states the exact requests it appends to the transport's log and the exact result it returns.

## Model

| member | source | states |
|---|---|---|
| `Endpoints.ParseName` | valetudo.py:6-22 | every command's path segment reads back as that command, so the fourteen names are distinct |
| `Endpoints.NameInjective` | valetudo.py:6-22 | two commands with the same path segment are the same command |
| `Endpoints.Name` | valetudo.py:7-22 | each command's literal path segment, never empty and never containing '/', so it is always the single last segment of its URL |
| `Endpoints.VerbOf` | valetudo.py:6-22 | a command is issued with GET exactly when its path segment is one of those listed as GET commands (`current_status`, `consumable_status`, `token`, `get_sound_volume`), and with PUT exactly when it is not |
| `Decimal.NatToString` | valetudo.py:120 | the decimal text of a natural number is non-empty, all digits, and has no leading zero; it is "0" exactly for 0 |
| `Decimal.IntToString` | valetudo.py:173 | `str` of an integer is non-empty and starts with '-' exactly when the integer is negative |
| `Decimal.NatRoundTrip` | valetudo.py:120 | parsing the digits of a natural number gives the number back |
| `Decimal.IntRoundTrip` | valetudo.py:173 | `str` of any integer, negatives included, is a well-formed integer literal that parses back to the integer |
| `Decimal.IntToStringInjective` | valetudo.py:173 | distinct integers never get the same text |
| `Decimal.NonNegativeIsDigits` | valetudo.py:186 | a non-negative integer renders as digits only and reads back as itself |
| `Http.Url` | valetudo.py:4 | the filled template `http://{ip}/api/{endpoint}` starts with the scheme, and an endpoint without '/' is exactly its last path segment |
| `Http.UrlRoundTrip` | valetudo.py:58 | both the address and the command can be read back from `http://{ip}/api/{endpoint}` |
| `Http.UrlInjective` | valetudo.py:71 | different (address, command) pairs never share a URL |
| `Http.Network.Exchange` | valetudo.py:72 | a transport exchange appends the request to the log and returns the answer for its position |
| `Errors.Error.IsValetudoError` | valetudo.py:25-44 | the base error of the client's hierarchy covers exactly the connection error and the request error; no contract of its own, `Classify` states that every error it produces is one |
| `Errors.RequestErrorMessage` | valetudo.py:38-42 | the message is the "internal error (you may re-try)" one exactly when status >= 500, and "request failed" exactly when status < 500 |
| `Errors.Describe` | valetudo.py:46-47 | the string form `'<msg> (<status>)'`; no contract of its own, its properties are `DescribeRoundTrip` and `DescribeInjective` |
| `Errors.DescribeRoundTrip` | valetudo.py:46-47 | the string form starts with the message, then " (", and ends with ')'; the text in between parses back to exactly the status |
| `Errors.DescribeInjective` | valetudo.py:46-47 | distinct statuses have distinct string forms |
| `Errors.Classify` | valetudo.py:60-66 | success exactly for status 200, and then the body unchanged; a connection error, with its cause, exactly for a transport failure; a request error, with the exact status, for any other status |
| `Client.Clamp` | valetudo.py:116-119 | the result lies in [0, 100]; in-range inputs are unchanged, negatives become 0, and values above 100 become 100 |
| `Client.ClampIdempotent` | valetudo.py:182-185 | clamping twice is clamping once |
| `Client.LevelPayload` | valetudo.py:116-120 | the volume (and fan-speed) body has the single given key, whose value is a digit string that reads as the clamped level |
| `Client.GoToPayload` | valetudo.py:173 | the go-to body has exactly the keys "x" and "y", each an integer literal that reads as the unclamped coordinate |
| `Client.GoToDefaults` | valetudo.py:166 | the default coordinates send `{"x": "0", "y": "0"}` |
| `Client.TokenField` | valetudo.py:87 | the result is the body's `token` field exactly when the body is an object that has one; otherwise it is a lookup failure on "token" |
| `Client.CallsFollowTable` | valetudo.py:55-79 | every request an operation issues (each operation's contract states its requests through `Call`) has a URL naming exactly its command and the verb the table assigns to the command that URL names: GET exactly when that command's name is one of the listed GET command names |
| `Client.Valetudo.constructor` | valetudo.py:52-53 | the client keeps the given address and transport |
| `Client.Valetudo.GetRequest` | valetudo.py:55-66 | exactly one GET to `http://{ip}/api/{endpoint}` with no body is logged; the result is that exchange's outcome, classified |
| `Client.Valetudo.PutRequest` | valetudo.py:68-79 | exactly one PUT to `http://{ip}/api/{endpoint}` carrying the given optional body is logged; the result is that exchange's outcome, classified |
| `Client.Valetudo.GetToken` | valetudo.py:81-87 | one GET to `token`; a failure is returned unchanged, otherwise the body's `token` field (or a lookup failure) |
| `Client.Valetudo.GetStatus` | valetudo.py:89-94 | one GET to `current_status`; the classified outcome is returned |
| `Client.Valetudo.GetConsumable` | valetudo.py:96-101 | one GET to `consumable_status`; the classified outcome is returned |
| `Client.Valetudo.GetVolume` | valetudo.py:103-108 | one GET to `get_sound_volume`; the classified outcome, with the body unchanged on success |
| `Client.Valetudo.SetVolume` | valetudo.py:110-121 | one PUT to `set_sound_volume` carrying `{"volume": str(c)}` for the clamped value c; the classified outcome is returned |
| `Client.Valetudo.Find` | valetudo.py:123-128 | one PUT without a body to `find_robot` |
| `Client.Valetudo.TestVolume` | valetudo.py:130-135 | one PUT without a body to `test_sound_volume` |
| `Client.Valetudo.StartCleaning` | valetudo.py:137-142 | one PUT without a body to `start_cleaning` |
| `Client.Valetudo.StopCleaning` | valetudo.py:144-149 | one PUT without a body to `stop_cleaning`; nothing in the client's state stops it being re-issued |
| `Client.Valetudo.PauseCleaning` | valetudo.py:151-156 | one PUT without a body to `pause_cleaning` |
| `Client.Valetudo.SendHome` | valetudo.py:158-164 | if the stop fails, only the stop is logged and its error is the result; otherwise the log gains the stop and then `drive_home`, and the result is the classified drive-home outcome |
| `Client.Valetudo.GoTo` | valetudo.py:166-174 | one PUT to `go_to` carrying the unclamped coordinates as strings, with defaults 0 and 0 |
| `Client.Valetudo.SetFanspeed` | valetudo.py:176-187 | one PUT to `fanspeed` carrying `{"speed": str(c)}` for the clamped value c |
| `Client.Valetudo.StartSpotCleaning` | valetudo.py:189-194 | one PUT without a body to `spot_clean`; failures propagate, and a success returns no body |

## Left out

- The HTTP transport itself (`requests.get`, `requests.put`) is foreign network I/O. It is the `Network` oracle: any answer, including a failure, may come back for any exchange.
- The 2-second timeout on GET, and the missing timeout on PUT, are about timing. The model has no clock; a timeout is one of the transport failures.
- JSON decoding of the response (`response.json()`) is left out. The body arrives already parsed. A malformed body, which has no distinct handling in the code, is not modelled. JSON numbers are integers only, with no floating point.
- Exception-class mechanics (inheritance, `super().__init__`, `args`) are left out. Errors are a tagged `Result`. `IsValetudoError` marks the two variants of the client's own hierarchy.
- Python's `KeyError`/`TypeError` from `['token']` on a body without that field is modelled as `LookupError("token")`. It is not a client error.
- The string form of a connection error is the underlying exception's text. It stays an opaque `cause` string.
- Decimal.IntToString: Python 3.11 and later (and security releases of 3.7 to 3.10) refuse by default to convert an int of more than 4300 digits to a string and raise `ValueError`. The model renders integers of any size, because the interpreter version is not fixed by the code and the limit is configurable.
- Client.Valetudo.GoTo: for a coordinate of more than 4300 digits, those interpreters raise before any request is sent; the model instead logs a PUT carrying the full digit string (see `IntToString` above).
- Operations take `int` arguments. The source is dynamically typed, and `str` of a float or other value is not modelled.
- example.py is a demo script with sleeps and prints. setup.py is packaging metadata. Neither is part of this model.
- Concurrency is left out. The client has no shared mutable state of its own.
