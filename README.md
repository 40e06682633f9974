# gotify `push` command: input resolution and payload building

This project models the decision logic of the `push` command of the gotify
command-line client. One run of the command turns its inputs into one
notification message, or into an error that ends the process with status 1.
The inputs are the positional arguments, standard input, the flags and the
configuration file.

The model decides these things, in the source's order:

- **Message text.** The positional arguments are joined with single spaces.
  The text is that join or standard input, whichever is non-empty. It is an
  error when both are empty, and also when both are non-empty.
- **Unescaping.** The backslash evaluator is applied to the text unless
  `--disable-unescape-backslash` is set.
- **Token and server URL.** A non-empty flag wins. An empty flag falls back
  to the configuration, which must have loaded. Otherwise the run fails with
  "token is not configured" or "url is not configured", and the token is
  checked first.
- **Priority.** An explicitly set `--priority` wins, even when it is 0.
  Otherwise the configuration's default priority is used.
- **Extras.** The `extras` map gets `client::display` →
  `{contentType: …}` exactly when `--contentType` is non-empty. It gets
  `client::notification` → `{click: {url: …}}` exactly when `--clickUrl` is
  non-empty. It has no other keys.
- **URL check.** The resolved URL string must parse. Otherwise the run fails
  with "invalid url" and that string, before anything is sent.

`strings.dfy` (module `Strings`) models Go's `strings.Join`. It also gives
`Split` as its inverse on non-empty lists of parts that do not contain the
separator, so that "joined with a single space and nothing
else" can be stated as a round trip. `push.dfy` (module `Push`) holds the
data model, `ReadMessage` (a pure function, as `readMessage` is a
branch-only choice) and `DoPush`. `DoPush` is a method with mutable locals
and an early return for each exit, as `doPush` is. Its step that fills the
`extras` map one entry at a time is the method `BuildExtras`.

Two calls are parameters of `DoPush` because their code is not part of this
model:

- `unescape: string -> string` stands for `utils.Evaluate`;
- `urlParses: string -> bool` stands for "Go's `url.Parse` returns no error".

The configuration is an input: `Loaded(config)` or `LoadFailed`. Standard
input is an input string.

Notes on what the code does, which the model follows where a reader might
expect stricter behaviour:

- The URL is only required to parse (`url.Parse`), not to be absolute. The
  empty string, or a relative reference, can pass the check.
- The token or URL taken from a loaded configuration is used even when it is
  empty. No error is raised for that.
- When the configuration failed to load but `--token` and `--url` are given,
  the fallback priority is read from the record returned with the error.
  That record comes from the config package, which is not part of this
  model. It is taken to be the zero-valued record, so the priority is 0.

## Model

| member | source | states |
|---|---|---|
| `Strings.Join` | command/push.go:124 | Go's `strings.Join` of the positional arguments with one space: the first argument is always a prefix of the joined text (nothing is put before it). |
| `Strings.JoinLength` | command/push.go:124 | The joined arguments are exactly as long as all arguments together plus one separator between each two neighbours. |
| `Strings.JoinEmptyIff` | command/push.go:124-128 | The joined arguments are empty exactly when there are no arguments or only one argument, which is empty. So two empty arguments already give a non-empty text. |
| `Strings.SplitJoin` | command/push.go:124 | Round trip: for a non-empty argument list in which no argument contains the separator, splitting the joined text on it gives back exactly the argument list. (The empty list joins to "", which splits to [""], so `gotify push` and `gotify push ""` give the same text.) |
| `Push.ReadMessage` | command/push.go:123-141 | "A message must be set" exactly when the joined arguments and standard input are both empty. "Set via stdin and arguments" exactly when both are non-empty. The result is a message exactly when one of them is non-empty, and the message is that non-empty source. |
| `Push.NoArgumentsReadsStdin` | command/push.go:128-137 | With no arguments (or one empty argument), the message is standard input, or the missing-message error when that is empty. |
| `Push.MissingMessageIff` | command/push.go:124-130 | The missing-message error happens exactly when standard input is empty and the argument list is empty or a single empty string. |
| `Push.ArgumentsBecomeMessage` | command/push.go:124-140 | With empty standard input, space-free arguments that are not a lone empty string become the message, and splitting it on spaces recovers them one by one. |
| `Push.DoPush` | command/push.go:39-105 | Errors come in this order: message-source errors, then missing token, then missing URL, then invalid URL carrying the resolved string. Success happens exactly when none of them applies. On success: the text is the chosen source, unescaped exactly when unescaping is not disabled; a non-empty token or URL flag wins, and an empty one uses the loaded configuration; an explicitly set priority (even 0) wins over the configured default, which is read from `Effective(config)`, the zero-valued record when loading failed; title and quiet are copied; `extras` is the map `BuildExtras` promises for the content-type and click-URL flags. |
| `Push.BuildExtras` | command/push.go:81-96 | Starting from an empty map, `extras` holds `client::display` → `{contentType: …}` exactly when the content type is non-empty, and `client::notification` → `{click: {url: …}}` exactly when the click URL is non-empty. It holds no other key, so it is empty but present when neither is given. |
| `Push.ExitArgs` | command/push.go:56-133 | The arguments each early exit hands to the exit helper. The body holds the four fixed texts of lines 56, 65, 129 and 133; the contract states that each of those exits passes one argument, and that the invalid-URL exit passes two, "invalid url" and the offending URL string (line 100). |
| `Push.ExitArgsDistinct` | command/push.go:54-102 | Each exit message (the token, URL and invalid-URL ones here, and those of the message source) identifies its error, and the invalid-URL exit names the offending URL. |
| `Push.DeliveredReportFollowsQuiet` | command/push.go:104-117 | For a delivery resolved by `DoPush`, a successful request leaves the run silent exactly when the delivery's quiet flag is set, and otherwise prints "message created". |
| `Push.DeliveryReport` | command/push.go:107-121 | After the create-message request, an error ends the run and is reported. Success prints "message created" unless quiet is set, and prints nothing when it is. |

## Left out

- `Push()` flag declarations (command/push.go:18-37): command-line library wiring. The parsed flags are the `Flags` input, and "was `--priority` given" is its `prioritySet` field.
- Reading the configuration file and finding its locations (command/push.go:40): file-system I/O. The result is the `ConfigLoad` input.
- Reading standard input (command/push.go:126): I/O. It is the `stdin` input string.
- `utils.Evaluate` (command/push.go:44): its code is not part of this model. It is the uninterpreted `unescape` parameter, so no escape rule (such as `\n` becoming a newline) is modelled or proved.
- `url.Parse` (command/push.go:98): Go's standard-library URL parser. It is the `urlParses` predicate. The parsed URL value itself is not modelled; `Delivery` carries the string.
- `pushMessage` (command/push.go:107-121): the HTTP client, the authenticated create-message request and the printing are network and terminal I/O. Only the choice of what is reported, given the request's outcome, is modelled, by `DeliveryReport`.
- The process exit done by `utils.Exit1With`: modelled as an error result, not as termination. How the helper formats its arguments is not modelled; `ExitArgs` is the argument list it receives.
