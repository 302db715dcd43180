# vscode-supercollider: a verified model of the extension's core logic

The code modelled here comes from the SuperCollider extension for VS Code. The extension starts `sclang` as a language server and talks to it over UDP. It also keeps a separate formatter process for documents, and it shows the audio server's status in the status bar. Most of the extension is glue around VS Code, Node's child processes and the language client. This project models the parts that make decisions or keep state:

- **FormattingProvider.ts** (`formatter.dfy`, module `Formatting`). This is the formatter's request queue. A format request enqueues a listener and writes the document followed by a NUL. `onData` splits the formatter's output on NUL and resolves listeners from the front. `start`, `end` and `restart` manage the nullable process slot. `onData` is modelled as written. A corrected version sits next to it (see Findings).
- **context.ts** (`context.dfy`, module `Context`). `processOptions` builds the launch arguments and updates `process.env` in place. `disposeProcess` and `createProcess` manage the `sclangProcess` handle. The `data`, `end`, `error` and `exit` handlers installed once the reader socket is bound do the readiness check and the disposal bookkeeping.
- **defaults.ts** (`defaults.dfy`, module `Defaults`). This file resolves paths per platform: the executable name, the configuration directory with its environment-variable fallbacks, the Windows install path found by a first-match registry search, and the sclang path.
- **extension.ts** (`extension.dfy`, module `Extension`). This covers the text inserted when files are dropped into a document, and the order of steps of the `supercollider.restart` command.
- **ServerStatusBar.ts** (`status_bar.dfy`, module `StatusBar`). `updateStatusBar` zeroes the figures of a stopped server, selects the icon, command and tooltip in priority order, and lays out the text.
- **Shared helpers.** `text.dfy` (module `Text`) holds the JavaScript string operations the code relies on: `join`, `split` on one character, `indexOf`, the decimal `toString` of a non-negative integer, and `path.join` read as a separator join. `wrappers.dfy` holds an `Option` type that stands for `undefined`.

Objects whose fields the code updates are classes: the formatter, the context, the handlers' shared state, the status-bar item, `process.env` and the spawned processes. Each of their methods is specified against pure functions, and lemmas state the properties of those functions. Foreign effects are stand-ins:
- A spawned process records its launch options and what was done to it.
- A resolved promise is an entry in a log.
- The system-supplied values are parameters: the pid, the registry, the environment, the home directory, the language client's state and the percent formatter.

Some behaviour of the code is worth knowing when reading the model:
- The `exit` handler at src/context.ts:149-153 clears only the closure's copy of the process. The context's `sclangProcess` field keeps referring to the exited process. `ServerSession.OnExit` changes only the session.
- `createProcess` kills the old process but does not reset the field. `serverOptions` assigns the field, and the result may be null. With a null process, the bind callback fails when it reads `stdout` (`ServerSession.OnBind` returns `TypeError`).
- `SuperColliderContext` declares no `activated` field. In the code as shown, `supercolliderContext.activated` is therefore always `undefined`, and the restart command always takes the activation branch. `Extension.RestartSteps` takes the flag as a parameter so that every branch of the decision is covered.
- The ports come from configuration (src/context.ts:38-39). There is no port allocator in this code, and none is modelled.
- The code names its constants `MAX_MAJOR_VERSION = 20` and `MAX_MINOR_VERSION = 6`, but they bound the minor and patch parts of `3.m.p`. The model keeps both names and says so.

## Model

| member | source | states |
|---|---|---|
| Text.Split | src/providers/FormattingProvider.ts:92 | `split` on one character gives at least one piece. No piece contains the separator. There is exactly one piece iff the separator is absent, and then that piece is the whole input. |
| Text.JoinSplit | src/providers/FormattingProvider.ts:92 | Joining the pieces of `s.split(d)` with `d` gives back `s`. |
| Text.SplitJoin | src/providers/FormattingProvider.ts:92 | Splitting separator-free pieces that were joined with `d` gives back the pieces. |
| Text.SplitAfterPiece | src/providers/FormattingProvider.ts:92 | A separator-free prefix followed by the separator is split off as the first piece. |
| Text.SplitHeadIsPrefix | src/providers/FormattingProvider.ts:92-98 | When the separator occurs, the first piece followed by the separator is a prefix of the input. So `chunks[0]` is the text before the first NUL. |
| Text.IndexOf | src/context.ts:132 | `indexOf` is -1 iff the needle occurs nowhere. Otherwise it is an occurrence with no earlier occurrence. |
| Text.IndexFrom | src/context.ts:132 | The search from a start position finds the first occurrence at or after it, or -1 when there is none. |
| Text.NatToString | src/providers/FormattingProvider.ts:36 | `toString` of a non-negative integer is a non-empty string of digits with no leading zero (except for the value 0 itself). It has one digit iff the value is below 10. |
| Text.DecimalRoundTrip | src/context.ts:43-44 | Reading back the decimal text of a port gives the port. |
| Text.NatToStringInjective | src/context.ts:43-44 | Different ports get different decimal texts. |
| Text.JoinPair | src/util/defaults.ts:41 | Joining two parts puts exactly one separator between them. |
| Text.Join | src/extension.ts:33 | `join` of no parts is empty, and the first part begins the result. The separator placement is stated by `Text.JoinPair` and `Text.JoinSnoc`. |
| Text.JoinSnoc | src/util/defaults.ts:76-89 | A join of two or more parts is the join of all but the last, then a separator, then the last part. |
| Text.PathJoinEndsWith | src/util/defaults.ts:79-87 | A `path.join` of two or more parts ends with the separator followed by the last part. |
| Text.PathJoin | src/util/defaults.ts:41 | A `path.join` begins with its first part, and with two or more parts the separator follows that first part immediately. The end of the path is stated by `Text.PathJoinEndsWith`. |
| Defaults.SclangExecutable | src/util/defaults.ts:14-19 | The executable is `sclang.exe` exactly on win32, and `sclang` on every other platform. |
| Defaults.UserConfigPath | src/util/defaults.ts:21-38 | A configuration path exists exactly on win32, darwin, linux, freebsd and openbsd. Every other platform yields `undefined`. |
| Defaults.FirstSet | src/util/defaults.ts:24-34 | An `a \|\| b \|\| fallback` chain over environment variables yields the first variable that is defined and non-empty, else the fallback. |
| Defaults.ConfigBase | src/util/defaults.ts:23-36 | The platform's first variable wins whenever it is set (defined and non-empty). The whole `\|\|` chain with its home-relative fallback is stated by `Defaults.UserConfigPathByPreference`. |
| Defaults.UserConfigPathByPreference | src/util/defaults.ts:21-38 | The configuration directory is `SuperCollider` inside the first set variable of the platform's chain, or inside its home-relative fallback: `LOCALAPPDATA` then `AppData/Local`; `XDG_CONFIG_HOME`, `XDG_DATA_HOME` then `Library/Application Support`; `XDG_CONFIG_HOME` then `.config`. |
| Defaults.SclangConfYamlPath | src/util/defaults.ts:40-42 | The yaml path exists iff the configuration directory does (otherwise `path.join` throws on the undefined directory), and then it is that directory, a separator and `sclang_conf.yaml`. |
| Defaults.Reversed | src/util/defaults.ts:48-56 | `reverse` keeps the length. |
| Defaults.ReversedAt | src/util/defaults.ts:48-56 | Element `k` after `reverse` is element `n-1-k` before it. |
| Defaults.CountDown | src/util/defaults.ts:48-56 | The reversed index list holds `n-1-k` at position `k`: it counts down to 0. |
| Defaults.DecreasingCountDown | src/util/defaults.ts:48-56 | The reversed index list is strictly decreasing. |
| Defaults.VersionPairs | src/util/defaults.ts:62-64 | The nested loops visit `|minors| * |patches|` pairs, each made of a listed minor and a listed patch. |
| Defaults.VersionPairsAt | src/util/defaults.ts:62-64 | The `j`-th inner iteration of the `k`-th outer iteration visits `(minors[k], patches[j])`. |
| Defaults.VersionPairsNewestFirst | src/util/defaults.ts:62-64 | With both lists strictly decreasing, the visited versions are strictly decreasing in (minor, patch) order. |
| Defaults.CountDownPairsShape | src/util/defaults.ts:48-64 | Two nested count-down loops visit `a*b` pairs in strictly decreasing order. Slot (k, j) holds `(a-1-k, b-1-j)`, and every pair is below `(a, b)`. |
| Defaults.VersionCandidatesShape | src/util/defaults.ts:45-64 | The candidate list has 21 × 7 entries. They are in strictly descending (minor, patch) order, and every entry has minor ≤ 20 and patch ≤ 6. |
| Defaults.KeysFor | src/util/defaults.ts:59-66 | The keys are the `CurrentVersion` key first, then one `SOFTWARE\SuperCollider\3.m.p` key per candidate, in candidate order. |
| Defaults.FirstPresent | src/util/defaults.ts:58-69 | The search stops at the first key the registry holds. Every key before it is absent. |
| Defaults.FirstPresentAt | src/util/defaults.ts:58-69 | The first present key is the one at `idx` when it is present and none before it is. |
| Defaults.FirstValueOr | src/util/defaults.ts:58-71 | With no key present the result is the fallback. Otherwise it is the value of a present key with every earlier key absent: the first registry hit wins. |
| Defaults.GetInstallPathWin | src/util/defaults.ts:44-72 | The install path is the `CurrentVersion` value whenever that key exists. In every case it is either a value the registry holds or `c:\Program Files\SuperCollider`. |
| Defaults.FirstVersionHit | src/util/defaults.ts:62-69 | Without `CurrentVersion`, the first listed version whose key is present gives the result. |
| Defaults.NewestVersionHit | src/util/defaults.ts:62-69 | For nested count-down loops of any size, without `CurrentVersion`, the result is the value of the newest version present. |
| Defaults.InstallPathPrefersNewestVersion | src/util/defaults.ts:44-72 | Without `CurrentVersion`, the install path is the value of the newest registered version from 3.20.6 down to 3.0.0. |
| Defaults.InstallPathDefault | src/util/defaults.ts:71 | With no candidate key present, the path is `c:\Program Files\SuperCollider`. |
| Defaults.SclangPathDarwin | src/util/defaults.ts:81-83 | On darwin the sclang path is exactly `/Applications/SuperCollider.app/Contents/MacOS/sclang`, an absolute path into the application bundle. |
| Defaults.SclangPathEndsWithExecutable | src/util/defaults.ts:76-89 | On every listed platform the path ends with the platform's separator and executable name. |
| Defaults.SclangPathUnix | src/util/defaults.ts:84-88 | On linux, freebsd and openbsd the path is the relative `usr/bin/sclang`, without a leading slash. |
| Defaults.SclangPathWindows | src/util/defaults.ts:78-80 | On win32 the path is the install path, `\` and `sclang.exe`. |
| Defaults.SclangPath | src/util/defaults.ts:76-90 | A path exists exactly for the platforms the `switch` lists; an unlisted platform gives `undefined`. |
| Formatting.FormatterArgs | src/providers/FormattingProvider.ts:36-39 | The arguments are exactly `-i <tabSize> -w` when spaces are wanted, and exactly `-i <tabSize> -w -t` otherwise, so `-t` appears iff spaces are not wanted. |
| Formatting.ResolveAllInOrder | src/providers/FormattingProvider.ts:94-99 | The loop resolves the listeners front first, one resolution each, each with the listener's text plus the first chunk. |
| Formatting.OnDataAsWritten | src/providers/FormattingProvider.ts:87-103 | The handler as written ends normally iff the output holds no NUL and someone waits. Then the queue keeps its length and nothing is resolved. When it fails, the queue is left empty. |
| Formatting.OnDataWithoutTerminator | src/providers/FormattingProvider.ts:92-102 | A chunk without NUL keeps the queue length, appends the whole chunk to the front listener and resolves nothing. |
| Formatting.OnDataWithTerminator | src/providers/FormattingProvider.ts:92-102 | A chunk with a NUL resolves every queued listener, front first, each with its text plus the text before the first NUL. It empties the queue and ends in the TypeError. |
| Formatting.OnDataEmptyQueue | src/providers/FormattingProvider.ts:88-102 | Data with nobody waiting resolves nothing and ends in the TypeError at the front-listener access. |
| Formatting.QueueOkAscending | src/providers/FormattingProvider.ts:66-72 | The queue invariant gives distinct requests, oldest first, all already made. |
| Formatting.QueueOkPush | src/providers/FormattingProvider.ts:68 | Enqueuing the next request keeps the queue invariant. |
| Formatting.SuperColliderFormatter.constructor | src/providers/FormattingProvider.ts:20-27 | The constructor stores the settings and starts a fresh formatter: the formatter path as command, the computed arguments, not killed, nothing written to its stdin, stdin open and not disconnected. Nothing waits. |
| Formatting.SuperColliderFormatter.Start | src/providers/FormattingProvider.ts:34-48 | With a process present nothing changes. Otherwise a fresh, unkilled formatter is spawned with the formatter path and the computed arguments. |
| Formatting.SuperColliderFormatter.End | src/providers/FormattingProvider.ts:50-61 | With no process it is a no-op. Otherwise the process is killed and disconnected, it is sent EOT and has its stdin ended only when `connected` (otherwise its stdin is untouched), and afterwards the slot is null and the queue empty. |
| Formatting.SuperColliderFormatter.Restart | src/providers/FormattingProvider.ts:29-32 | Any old process was killed and disconnected. Afterwards a fresh formatter runs with the formatter path and the computed arguments, not killed, with empty and open stdin and not disconnected, and the queue is empty. |
| Formatting.SuperColliderFormatter.ProvideDocumentFormattingEdits | src/providers/FormattingProvider.ts:63-73 | With a process, exactly one empty listener for the new request is appended at the back, and the text and one NUL are written. Without a process nothing changes and the result is `undefined`. |
| Formatting.SuperColliderFormatter.OnData | src/providers/FormattingProvider.ts:87-103 | The log line is written iff the queue was empty. The queue, the resolutions and the outcome are those of `OnDataAsWritten`. The queue invariant is kept. |
| Formatting.SuperColliderFormatter.OnDataCorrected | src/providers/FormattingProvider.ts:87-103 | The corrected handler gives the queue and resolutions of `OnDataIntended`, with the same logging and with the queue invariant kept. |
| Formatting.Deliver | src/providers/FormattingProvider.ts:87-103 | In the character-level reference reading the resolved and the still-waiting listeners together number exactly the listeners that waited. That they are the same requests in order is `Formatting.DeliverKeepsRequests`. |
| Formatting.ResolvePieces | src/providers/FormattingProvider.ts:92-102 | Resolving piece by piece resolves as many listeners as there are NUL-terminated pieces, capped by the queue length. The resolved and the still-waiting listeners together number exactly the listeners that waited, and `Formatting.ResolvePiecesKeepsRequests` says they are the same requests in order. |
| Formatting.OnDataIntended | src/providers/FormattingProvider.ts:87-103 | The resolved and the still-waiting listeners of the corrected handler together number exactly the listeners that waited. Output without NUL resolves nobody and keeps the queue length. Output with a NUL resolves at least the front listener when someone waits. Its equality with the reference is `Formatting.IntendedMatchesReference`. |
| Formatting.DeliverCharKeepsRequests | src/providers/FormattingProvider.ts:92-102 | One character of output either answers the front waiting request, when it is the end-of-result character, or leaves every waiting request in place. |
| Formatting.DeliverKeepsRequests | src/providers/FormattingProvider.ts:87-103 | The requests answered by the reference reading, followed by those still waiting, are exactly the requests that waited, in order. No request is lost, answered twice or reordered. |
| Formatting.DeliverConcat | src/providers/FormattingProvider.ts:87-103 | The character-level reading of the protocol gives the same result however the decoded output text is cut into `data` events between characters. |
| Formatting.DeliverNobody | src/providers/FormattingProvider.ts:88-90 | Output with nobody waiting resolves nothing. |
| Formatting.DeliverPiece | src/providers/FormattingProvider.ts:102 | A NUL-free stretch only extends the front listener's text. |
| Formatting.ResolvePiecesDeliver | src/providers/FormattingProvider.ts:92-102 | Resolving one listener per NUL-terminated piece agrees with the character-level reading of the joined pieces. |
| Formatting.ResolvePiecesKeepsRequests | src/providers/FormattingProvider.ts:92-102 | Piece by piece, the answered requests followed by the waiting ones are exactly the requests that waited, in order. |
| Formatting.IntendedKeepsRequests | src/providers/FormattingProvider.ts:87-103 | The corrected handler answers the waiting requests front first, each at most once, and keeps the rest waiting in their order. |
| Formatting.IntendedMatchesReference | src/providers/FormattingProvider.ts:87-103 | The corrected `onData` equals the character-level reading for every queue and stream. |
| Formatting.IntendedChunkingInvariant | src/providers/FormattingProvider.ts:87-103 | Feeding `a` and then `b` to the corrected `onData` equals feeding `a + b`. |
| Formatting.AsWrittenResolvesEveryListener | src/providers/FormattingProvider.ts:94-100 | With two waiting requests and the output `x␀`, the code as written resolves both with `x` and fails. The corrected handler resolves only the older one and keeps the newer one waiting. |
| Context.LaunchArgs | src/context.ts:59-61 | The spawn arguments are the configured ones in order, followed by `-i vscode -l <confYaml>`. |
| Context.LspVariables | src/context.ts:42-45 | Exactly the four `SCLANG_LSP_*` variables are set. Their values are stated by `Context.LspVariablesSet`. |
| Context.LaunchEnvironment | src/context.ts:41-48 | The launch environment holds exactly the inherited variables, the four `SCLANG_LSP_*` variables and the configured ones. Configured variables override any other value, the `SCLANG_LSP_*` ones included. Every other inherited variable passes through unchanged. |
| Context.LspVariablesSet | src/context.ts:42-45 | Unless overridden: `SCLANG_LSP_ENABLE` is `1`; the two port variables are the decimal texts of the read and write ports and read back as those ports; the log level is the configured one. |
| Context.SuperColliderContext.ProcessOptions | src/context.ts:29-64 | `process.env` itself becomes the launch environment. The result carries the command, the launch arguments and that environment. |
| Context.SuperColliderContext.DisposeProcess | src/context.ts:66-73 | The handle is null afterwards and a present process was killed. Without a process nothing changes, so a second call is a no-op. |
| Context.SuperColliderContext.CreateProcess | src/context.ts:75-91 | Any current process is killed and the field is not reassigned. The new process is returned iff its pid is truthy, and it is fresh, unkilled and launched with the computed options. |
| Context.SuperColliderContext.ServerOptions | src/context.ts:111-114 | The field takes the result of `createProcess`, non-null iff the pid is truthy. The closure state starts unbound with that process. |
| Context.ContainsMarker | src/context.ts:132 | A chunk counts as ready iff `***LSP READY***` occurs in it at some position. |
| Context.ReadyAfter | src/context.ts:130-135 | The promise is not resolved before any output, is resolved once a chunk carries the marker, and stays resolved after later chunks. |
| Context.ReadyAfterSomeChunk | src/context.ts:130-135 | Readiness is reached iff some single stdout chunk contains `***LSP READY***`. |
| Context.MarkerSplitAcrossChunks | src/context.ts:130-135 | A marker cut into two chunks is never detected, though the two chunks together contain it. |
| Context.ServerSession.OnBind | src/context.ts:123-129 | The handlers are installed iff the closure's process is non-null. Otherwise the callback ends in the TypeError. |
| Context.ServerSession.OnStdoutData | src/context.ts:130-137 | The promise is resolved by this chunk iff the chunk contains the marker. The chunk is forwarded to the output channel in every case. Readiness stays the readiness of all chunks seen. |
| Context.ServerSession.OnStdoutClosed | src/context.ts:138-147 | Stream end and stream error each dispose the reader and the writer once. Nothing else changes. |
| Context.ServerSession.OnExit | src/context.ts:149-153 | Exit clears the closure's process and disposes the reader and the writer once. |
| Extension.Quote | src/extension.ts:26 | A quoted path is the path between two double quotes. |
| Extension.QuotedFiles | src/extension.ts:22-28 | The `files` array has at most one entry per item. Its exact contents, one quoted path per file item in order, are stated by `Extension.QuotedFilesArePaths`. |
| Extension.QuotedFilesArePaths | src/extension.ts:22-28 | The `files` array holds one quoted path per item that has a file, in transfer order. Items without a file are skipped. |
| Extension.FilePathsConcat | src/extension.ts:23-28 | The collected paths of a concatenated transfer are the concatenation of the parts' paths, so order is kept. |
| Extension.ProvideDocumentDropEdits | src/extension.ts:21-35 | The loop builds exactly the quoted-file list, and the edit text is the final choice applied to it. |
| Extension.DropText | src/extension.ts:30-34 | One path is inserted as it is. Any other number gives an array literal between `[` and `]`, and no path gives `[]`. |
| Extension.DropOneFile | src/extension.ts:30-31 | Exactly one file gives that single quoted path as the edit text. |
| Extension.DropNoFile | src/extension.ts:32-33 | Zero files give `[]`. |
| Extension.DropSeveralFiles | src/extension.ts:32-33 | Two or more files give `[`, the quoted paths joined with `, `, then `]`. |
| Extension.RestartSteps | src/extension.ts:84-94 | The restart takes one or two steps. It activates iff the context is not activated. It stops iff it is activated with a running client. It starts iff the client is present and not running at the second check, and it fails on a missing client there. With two steps, stop or activate comes before start. |
| Extension.RestartWhenNotActivated | src/extension.ts:85-87 | A context that is not activated is activated first and never stopped. |
| Extension.RestartRunningClient | src/extension.ts:88-94 | A running client that has stopped by the second check is stopped and then started. |
| StatusBar.Displayed | src/ServerStatusBar.ts:42-50 | A stopped server shows as responsive with zero CPU figures and four zero counts. A running one shows as reported. |
| StatusBar.ShownState | src/ServerStatusBar.ts:42-72 | The shown state is stopped iff not running, whatever the `unresponsive` flag says. It is unresponsive iff running and unresponsive, and running otherwise. |
| StatusBar.StateOf | src/ServerStatusBar.ts:56-72 | The state is unresponsive iff the flag is set, running iff running and not unresponsive, and stopped iff neither. |
| StatusBar.Icon | src/ServerStatusBar.ts:56-60 | Every icon is a codicon reference `$(name)`. |
| StatusBar.Command | src/ServerStatusBar.ts:62-66 | Every command is one of the extension's `supercollider.internal.*` commands. |
| StatusBar.Tooltip | src/ServerStatusBar.ts:68-72 | Every tooltip is a sentence beginning `Server is ` and ending in a full stop. |
| StatusBar.StatusText | src/ServerStatusBar.ts:78 | The text begins with the icon and a space, and ends with the SynthDef count followed by `d`. |
| StatusBar.SelectionsDistinguishStates | src/ServerStatusBar.ts:56-72 | The three states get three distinct icons, commands and tooltips, so command and tooltip follow the same priority. |
| StatusBar.StoppedTextCounts | src/ServerStatusBar.ts:78 | A stopped server's text is the stop icon, both percentages, then `0u 0s 0g 0d`. |
| StatusBar.ServerStatusBar.constructor | src/ServerStatusBar.ts:18-25 | The item is named and shown. |
| StatusBar.ServerStatusBar.UpdateStatusBar | src/ServerStatusBar.ts:31-79 | Only `command`, `tooltip` and `text` are written. They are the selections for the shown state and the text layout of the shown figures. |

## Left out

- Process spawning, `kill`, standard streams and their events are foreign. A process is an opaque handle that records its launch options, its pid and what was done to it. Stdout is a sequence of chunks given to the handlers.
- The UDP sockets, their bind, `UDPMessageReader` and `UDPMessageWriter` are foreign. The reader and writer count as disposals only, and `that.readerSocket` is not modelled.
- `LanguageClient`, every `vscode.*` API, the output channel's display and `console.log` are foreign. The client's state is a parameter of the restart decision, and output-channel lines are a log.
- Promises and the order of asynchronous callbacks are not modelled. A `resolve` call is an entry in a log, and later calls of the readiness `res` are not distinguished from the first.
- The returned `TextEdit` and its range constants are UI (src/providers/FormattingProvider.ts:75-83). A format request returns the number of the request its promise waits for.
- `cork`/`uncork` only batch the two writes, so they are not modelled.
- `dispose()` of the formatter is empty and is not modelled.
- Formatting.SuperColliderFormatter.End: `disconnect()` is taken to succeed. Node defines it only for a process with an IPC channel, and the formatter is spawned with plain pipes (`connected` is always false), so the code may throw there instead.
- Formatting.SuperColliderFormatter.Restart: the `data` listener of a killed formatter stays attached. Output it still emits would reach the new queue; this is not modelled. If `disconnect()` throws, `restart()` stops after `kill()`. The killed process stays in the slot and the listeners stay queued. A later `start()` sees a process and spawns nothing. The model takes `disconnect()` to succeed, so a restart always ends with a fresh process.
- `tabSize` is a `Number` in the code. The model takes a natural number, so fractional or negative sizes are not covered.
- The workspace configuration is a record of values that are present. A missing port in the code makes `toString` throw; this is not modelled.
- `Object.assign` copying non-string values into `process.env` is not modelled. Neither is the case-insensitivity of variable names on Windows.
- `dispose`, the rest of `activate` (client options, file watcher, evaluate-selection feature) and `executeCommand` of the context are glue and are not modelled.
- The Windows registry is a map from key path (under HKEY_CURRENT_USER, default value) to value. Any failure of `GetStringRegKey` counts as an absent key.
- Defaults.GetInstallPathWin: the first-match search relies on `GetStringRegKey` throwing for an absent key (the `try`/`catch` at src/util/defaults.ts:58-60 and 65-67). If the call returned `undefined` for an absent key instead, the code would stop at `CurrentVersion`; the model does not cover that reading.
- The call of `getInstallPathWin()` when the module loads (src/util/defaults.ts:74) has no observable result and is not modelled.
- `os.homedir()`, `os.platform()` and `process.env` are parameters.
- Node's `path.join` normalisation (`.`, `..`, repeated separators) is not modelled. It is read as a plain separator join.
- The `supercollider.updateLanguageServer` command (temp files plus a spawn) is pure I/O. It and the other commands that only forward to `executeCommand` are not modelled.
- The exports of the undefined `addInstance` and `instances` at the end of src/extension.ts are not modelled.
- `asFile()` is called twice per item in the drop handler; the model reads it once, taking both calls to give the same file.
- Extension.ProvideDocumentDropEdits: `asFile().uri` is optional in VS Code's `DataTransferFile`. A file entry without a uri makes the handler throw at `uri.path`; the model takes every file entry to carry a uri path.
- `Intl.NumberFormat` with two fraction digits is locale-dependent floating-point formatting. It is a function parameter of `UpdateStatusBar`.
- The counts in the status report are taken to be whole numbers. The `name` field is carried through but never displayed, as in the code.
- Formatting.DeliverConcat: each `data` chunk is taken as already-decoded text. The code decodes every Buffer on its own (`stream.toString()`), so a multi-byte UTF-8 character cut across two chunks becomes U+FFFD in both the as-written and the corrected handler. Per-chunk decoding is not modelled.
- Text.NatToString: the model matches JavaScript's `toString` only for safe integers (below 2^53). From 10^21 up, JavaScript prints exponent notation such as `1e+21`, and above 2^53 numbers are not exact integers. Every value the code formats (ports, `tabSize`, status counts) lies far below that limit.

## Findings

| source | as written | input that shows it | evidently intended | confidence | as-written member | corrected member |
|---|---|---|---|---|---|---|
| src/providers/FormattingProvider.ts:94-102 | The `while (chunks.length > 1)` loop never shortens `chunks`. Once the output holds a NUL, every waiting listener is resolved with the text before the first NUL, and then `listener.text` is read from an empty queue (TypeError). Line 102 also appends the whole stream, not the text after the last NUL. | Two waiting requests; the formatter writes `x` followed by NUL | One listener resolved and dequeued per NUL-terminated chunk; the text after the last NUL kept for the next listener | high, not executed | Formatting.SuperColliderFormatter.OnData, Formatting.AsWrittenResolvesEveryListener | Formatting.SuperColliderFormatter.OnDataCorrected, Formatting.IntendedMatchesReference |
