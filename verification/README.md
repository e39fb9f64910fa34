# OpsUp: verified model

OpsUp is a web front end for SSH terminals, SFTP and remote desktops. This project models the
protocols inside it whose guarantees need an argument over whole runs, and proves those guarantees.
`dafny verify dfyconfig.toml` checks everything.

## What is modelled

- **Terminal input** (`TerminalClient`, `TerminalInput`). The browser connection is a class with the
  hook's variables; `Pump` is its loop, in which `queueIndex` moves on before `ws.send` can throw.
  Each method is proved to be a step of the relation `TerminalClient.Next`, and `TerminalInput` runs
  that relation against the FIFO socket, the server's reader with its 32 slots, the goroutine that
  writes to standard input, and a cancellation at any moment. Resize frames bypass the client's queue,
  so order is claimed for standard input only.
- **Terminal output** (`TerminalOutput`). Two pumps, the setup code and the ping ticker share one
  locked writer. `PumpTerminalOutput` is one pump's loop; the state machine interleaves all of them.
- **Rate limiter** (`RateLimit`). `Limiter.Attempt` sweeps and updates the table in place; `Serve` is
  what it does to the table, and the claims are about every trace of requests. The clock is read
  before the lock, so traces are taken to be ordered by their readings.
- **Upload publication** (`Upload`). Names lead to nodes and handles keep their node. Any number of
  uploads, one remote call per step, interleave with each other and with other programs that create,
  replace, link and remove names. A call that fails may have taken effect; a close that fails may have
  lost data.
- **Transports** (`Transport`). Dial, DialViaJump, NewSession and the SFTP NewClient against the setup
  timer, the context hook (which may be started and run later, or stopped), watchers and the caller.
- **Directory view** (`Directory`). The hook is a class; a render and its effects are one commit.
- **Startup storage** (`Credentials` over `Crypto`, `Secrets`, `Migrations`). Transactions are copies
  assigned at the commit; every call may fail, which also stands for a crash. Secrets files are read
  while another process may be writing them.
- **Remote desktop requests** (`RdpRequest` over `Der`). A lenient decoder, the canonical re-encoding
  and the X.224 checks.
- **Server records and routes** (`Servers`, `Routes`). Handlers read and write in separate steps.

A state machine is a step function or relation, `RunAll` or `Run` over a list of steps, an invariant
and a theorem about every run. The classes carry the code that updates its variables in place.

## Assumptions

- The cipher is two functions with `Sound`: what was sealed opens again. `Committing` (one ciphertext,
  one key) is assumed only by `Credentials.LegacyKeyIsRetired`.
- `Secrets.ReadsJson` is what is assumed of JSON decoding: it reads back what was rendered and refuses
  an object whose brace is never closed.
- Temporary upload names do not collide with each other or with destinations (`Upload.Distinct`), and
  other programs neither touch them nor write into existing files in place: they create, replace, link
  and remove other names (`Upload.Enabled`).
- A terminal size is a JSON object of two numbers and takes at most 67 bytes (`TerminalClient.SIZE_BYTES`).
- The limiter's window is positive and clock readings do not decrease in lock order; its only caller
  passes 10 requests and one minute (`internal/api/router.go:55`).
- A WebSocket delivers no message while it is still connecting.

## Where the code is narrower or wider than one would expect

- **A lost keystroke without a warning.** When `ws.send` throws, the frame has left the queue already
  and is lost. The user is warned exactly when another frame was queued or the socket held data
  (`ThrowWarning`); `UnwarnedLoss` is a run with one keystroke, an idle socket and no warning. Input
  that has left the browser is never warned about once the socket's buffer is empty:
  `UnwarnedOverflow` loses 33 keystrokes to the server's full channel in silence.
- **The sliding bound is 2 * limit - 1.** A bucket always begins with an admission, so two buckets never
  both fit fully into one window (`SlidingWindow`), and the bound is reached (`SlidingWindowIsTight`).
- **The 4096 byte limit on X.224 requests never decides.** The one-byte length indicator already limits
  a request to 260 bytes (`CheckedIsFramed`).
- **Upgrading a record can turn a NULL password into an empty one**, because the query reads it through
  COALESCE and the update writes both columns (`Credentials.Upgraded`).
- **The table is an exact refinement only while it has room.** A newcomer who meets 4096 running windows
  is refused although its own counter would admit it; `RefinesCounters` is an equivalence.

## Model

| member | source | states |
|---|---|---|
| `TerminalClient.FramesRoundTrip` | ui/src/hooks/useTerminalConnection.ts:10-18 | the frames cut from any text carry exactly its bytes in order, each a stdin frame, all but the last with exactly 16 KiB of payload |
| `TerminalClient.InputFrames` | ui/src/hooks/useTerminalConnection.ts:10-18 | the chunking loop yields those frames |
| `TerminalClient.Connection.Fail` | ui/src/hooks/useTerminalConnection.ts:80-90 | a failure ends an intact connection once, drops the queue and decides on the warning before dropping it |
| `TerminalClient.Connection.SendNext` | ui/src/hooks/useTerminalConnection.ts:96-97 | one turn of the pump hands over the next frame, or fails with that frame already out of the queue |
| `TerminalClient.Connection.Pump` | ui/src/hooks/useTerminalConnection.ts:92-100 | a pump sends a run of frames in order, stops at the buffer limit with a timer armed, empties the queue, or fails |
| `TerminalClient.Connection.PumpTimerFires` | ui/src/hooks/useTerminalConnection.ts:56-60 | a scheduled pump acts only for the current connection |
| `TerminalClient.Connection.SendInput` | ui/src/hooks/useTerminalConnection.ts:101-105 | typed text is queued whole and pumped unless a pump is scheduled, and ignored unless live |
| `TerminalClient.Connection.SendResize` | ui/src/hooks/useTerminalConnection.ts:106-113 | a resize goes straight to the socket or fails the connection |
| `TerminalClient.Connection.OnConnected` | ui/src/hooks/useTerminalConnection.ts:126-147 | only an intact connection becomes connected; its size follows at once |
| `TerminalClient.Connection.Cleanup` | ui/src/hooks/useTerminalConnection.ts:152-173 | cleanup ends the connection's generation and its timers |
| `TerminalClient.ClientStepKeeps` | ui/src/hooks/useTerminalConnection.ts:80-173 | every turn of the event loop keeps: sent plus unsent input equals accepted input, and unsent input has a pump scheduled |
| `TerminalClient.EndedStaysSilent` | ui/src/hooks/useTerminalConnection.ts:80-90 | a failed or replaced connection sends, accepts and reports nothing and never becomes connected |
| `TerminalClient.AcceptedIsTyped` | ui/src/hooks/useTerminalConnection.ts:101-105 | typed text is accepted whole while the connection is live, and nothing else ever is |
| `TerminalClient.SizesAreSent` | ui/src/hooks/useTerminalConnection.ts:106-147 | a size goes out at once as one 0x01 frame, also when the shell reports that it is connected, or the connection fails |
| `TerminalClient.FailuresEnd` | ui/src/hooks/useTerminalConnection.ts:80-90 | a failure closes the socket, drops the queue and warns exactly if input was queued or the socket held data |
| `TerminalClient.PumpProgress` | ui/src/hooks/useTerminalConnection.ts:92-100 | a pump with room in the socket strictly shrinks what is left to send |
| `TerminalClient.PumpBound` | ui/src/hooks/useTerminalConnection.ts:96-98 | a pump leaves at most 256 KiB and one frame buffered, and stops with frames left only above 256 KiB and with its timer armed |
| `TerminalClient.ThrowWarning` | ui/src/hooks/useTerminalConnection.ts:84-97 | exactly when a throwing send leads to a warning, and that input is lost either way |
| `TerminalClient.UnwarnedLoss` | ui/src/hooks/useTerminalConnection.ts:84-97 | a concrete loss without a warning |
| `TerminalInput.InputIsAPrefix` | internal/api/terminal_handler.go:77-184 | in every interleaving stdin received a prefix of the accepted bytes; until a failure, delivered, in hand, queued, on the wire and unsent together are exactly the accepted bytes |
| `TerminalInput.InputIsNeverStranded` | ui/src/hooks/useTerminalConnection.ts:98-104 | in every reachable state unsent input of a live connection has a pump scheduled |
| `TerminalInput.EndIsFinal` | ui/src/hooks/useTerminalConnection.ts:80-173 | over any continuation of a run an ended connection sends and accepts nothing more |
| `TerminalInput.EndedIsClosing` | ui/src/hooks/useTerminalConnection.ts:80-173 | in every reachable state an ended connection's socket is closing or closed, and a replaced one has nothing queued or scheduled |
| `TerminalInput.ServerVerdicts` | internal/api/terminal_handler.go:77-184 | exactly which messages end the reader (over 64 KiB, the 33rd in the channel, a cancelled context) and the writer (neither input nor an applicable size) |
| `TerminalInput.UnwarnedOverflow` | internal/api/terminal_handler.go:87-98 | a concrete run: 33 keystrokes all leave the browser, overflow the server's channel, never reach the shell, and the failure message does not mention lost input |
| `TerminalInput.InputCanProceed` | internal/api/terminal_handler.go:77-184 | in every reachable healthy state with undelivered input, either a named server step fails nothing, keeps the invariant and leaves strictly less work, or the browser has a pump scheduled |
| `TerminalInput.InputCanArrive` | internal/api/terminal_handler.go:77-184 | from every reachable state of a live, healthy session some continuation delivers every accepted byte without any failure: no deadlock and no early loss |
| `TerminalOutput.PumpTerminalOutput` | internal/api/terminal_handler.go:191-207 | one pump sends everything up to its reader's end unless a write is refused, also bytes returned with the end, and succeeds exactly at end of file without a refusal |
| `TerminalOutput.SendTyped` | internal/api/terminal_handler.go:209-214 | one message carries its payload in its stream, or fails |
| `TerminalOutput.StepKeeps` | internal/api/terminal_handler.go:35-47 | the lock keeps the account of both streams through every step |
| `TerminalOutput.OutputIsFaithful` | internal/api/terminal_handler.go:137-207 | in every interleaving stdout and stderr messages carry prefixes of their streams after the connected message; streams ended by end of file were sent completely; two pumps are never in the socket together |
| `TerminalOutput.GivingUpHasACause` | internal/api/terminal_handler.go:191-207 | a pump gives up exactly when its write is refused or its reader fails |
| `TerminalOutput.CancellationHasACause` | internal/api/terminal_handler.go:102-187 | a step cancels the session exactly if a pump gives up, the greeting or a ping is refused, or the cancellation comes from outside |
| `TerminalOutput.StepSends` | internal/api/terminal_handler.go:138-214 | what each step puts on the socket: the greeting, a ping or one pump's whole chunk under its own kind |
| `TerminalOutput.OutputCanArrive` | internal/api/terminal_handler.go:137-207 | from every reachable healthy state some continuation ends both pumps in success with both streams sent completely |
| `RateLimit.Limiter.DropExpired` | internal/api/rate_limit.go:23-27 | the sweep loop keeps exactly the running windows |
| `RateLimit.Limiter.Attempt` | internal/api/rate_limit.go:19-37 | verdict, window end and new table of one request |
| `RateLimit.SlidingWindow` | internal/api/rate_limit.go:19-36 | at most 2 * limit - 1 admissions of an IP in any interval as long as the window, over every ordered trace of all IPs |
| `RateLimit.SlidingWindowIsTight` | internal/api/rate_limit.go:19-36 | for every positive limit a trace reaches that bound |
| `RateLimit.AccountHolds` | internal/api/rate_limit.go:28-36 | the inductive account: a bucket that began before the interval has an admission outside it |
| `RateLimit.TableRemembers` | internal/api/rate_limit.go:23-36 | the table holds precisely the last bucket of each IP while it runs |
| `RateLimit.TableIsCapped` | internal/api/rate_limit.go:32-32 | the table never exceeds 4096 entries |
| `RateLimit.RefinesCounters` | internal/api/rate_limit.go:23-36 | answers equal those of independent never-swept counters if and only if no newcomer met a full table |
| `RateLimit.RefusalsAreInert` | internal/api/rate_limit.go:32-36 | a refused request changes no later answer, so it extends no window |
| `RateLimit.RetryAfterSuffices` | internal/api/rate_limit.go:38-39 | for refused quotas and refused newcomers alike, however the float conversion rounds: waiting for Retry-After outlasts the refusing window, by at most a second and a microsecond |
| `RateLimit.CapPasses` | internal/api/rate_limit.go:28-39 | a newcomer refused by a full table has, after Retry-After, outwaited every window that filled it |
| `Upload.StepKeeps` | internal/sftpclient/client.go:56-118 | the invariant of names, nodes and every upload's progress survives every step of everybody |
| `Upload.DestinationsAreWhole` | internal/sftpclient/client.go:53-118 | at every moment every lasting name shows a foreign file or one upload's complete source with the metadata it first saw, or 0600; and between any two moments of a run foreign files stay unmodified |
| `Upload.SuccessPublishes` | internal/sftpclient/client.go:101-117 | success means the whole source is at the destination and the temporary name is gone |
| `Upload.NothingBeforeRename` | internal/sftpclient/client.go:101-112 | before its rename an upload changes no lasting name, and without posix-rename it never changes an existing one, even one that appeared after the second check |
| `Upload.FailedEarlyChangedNothing` | internal/sftpclient/client.go:73-100 | over whole runs: an upload that never requests its rename changed no lasting name in any of its steps |
| `Upload.ContentIsPrivate` | internal/sftpclient/client.go:83-87 | a file gains bytes only while its mode is 0600 |
| `Upload.NoLitter` | internal/sftpclient/client.go:77-82 | an ended upload leaves no temporary name unless a call misreported or Remove failed |
| `Upload.UploadCanSucceed` | internal/sftpclient/client.go:56-118 | from every start, to an absent destination or with posix-rename a regular one, an upload whose calls all succeed publishes the whole source under the permissions and owner it found, or 0600 |
| `Upload.FirstLook` | internal/sftpclient/client.go:57-67 | an upload goes on if and only if its first Lstat answered and found a regular file, whose permissions and owner it keeps, or nothing, and then with 0600 |
| `Transport.StepKeeps` | internal/sshclient/client.go:37-57 | the counts of closes, the hook and the stages agree after every step |
| `Transport.SetupIsClean` | internal/sshclient/client.go:92-167 | failure always has an error and has closed all it owned; nothing is closed twice; after success the setup deadline can no longer close anything |
| `Transport.SuccessIsClosable` | internal/sshclient/session.go:24-43 | after success Close, or a watcher after cancellation, closes target and jump exactly once |
| `Transport.EndingsHaveCauses` | internal/sshclient/client.go:92-167 | a setup fails exactly by a failing call, a passed deadline or a hook that can no longer be stopped, and else succeeds |
| `Transport.SetupCanSucceed` | internal/sshclient/client.go:92-167 | from every reachable state before the deadline, working calls lead to success and close nothing |
| `Transport.CancellationReachesJump` | internal/sshclient/client.go:48-57 | once the jump host is connected, cancelling the caller closes it, during setup of the second hop and ever after |
| `Transport.DeadlineCloses` | internal/sshclient/client.go:102-144 | when the deadline's hook runs, the transport being set up is closed |
| `Directory.Hook.LoadFiles` | ui/src/hooks/useDirectory.ts:18-28 | the synchronous part of a load |
| `Directory.Hook.Continue` | ui/src/hooks/useDirectory.ts:29-37 | the continuation of a request, its finally block included |
| `Directory.Hook.EffectCleanup` | ui/src/hooks/useDirectory.ts:42-45 | leaving an effect invalidates and aborts |
| `Directory.Hook.Render` | ui/src/hooks/useDirectory.ts:14-46 | a commit with possibly new properties |
| `Directory.ShownIsTheAnswer` | ui/src/hooks/useDirectory.ts:18-46 | in every committed open state ready rows are the answer to the latest request for this server and path, the spinner is on exactly while it is out, and at most one request is unaborted |
| `Directory.MountStarts` | ui/src/hooks/useDirectory.ts:7-46 | an open view starts by asking for the root of its server, a closed one asks for nothing |
| `Directory.RenderStartsOver` | ui/src/hooks/useDirectory.ts:14-46 | from every reachable state, opening or another server starts over at that server's root, closing aborts and asks for nothing, the same properties change nothing |
| `Directory.EventsRespond` | ui/src/hooks/useDirectory.ts:18-46 | from every reachable state: a load issues one request for its path, a current answer shows its files, a current refusal ends the spinner, anything else is silent |
| `Directory.LateAnswersAreIgnored` | ui/src/hooks/useDirectory.ts:29-37 | late or out-of-order answers change nothing on the screen |
| `Directory.StaleCapturesStayStale` | ui/src/hooks/useDirectory.ts:48-53 | a capture that stopped being current never is again and refreshes nothing; in committed states its generation decides alone |
| `Directory.CurrentCapturesRefresh` | ui/src/hooks/useDirectory.ts:48-53 | a current capture's refresh asks once more for its own server and path |
| `Crypto.HexRoundTrip` | internal/crypto/encryption.go:37-51 | decoding undoes hexadecimal encoding |
| `Crypto.DecryptEncrypt` | internal/crypto/encryption.go:15-70 | a value encrypted under a key decrypts under it to itself and is not empty |
| `Crypto.EncryptLayout` | internal/crypto/encryption.go:15-37 | the stored text is the hexadecimal of 12 nonce bytes and the sealed value, for every usable key |
| `Crypto.DecryptMeans` | internal/crypto/encryption.go:39-70 | exactly which texts decrypt, and to what |
| `Credentials.Database.UpgradeValue` | internal/database/credentials.go:33-50 | one credential is kept if the active key opens it, else carried over from the legacy key; it fails exactly if neither can be or a call fails |
| `Credentials.Database.UpgradeRow` | internal/database/credentials.go:26-54 | a row is updated exactly when one of its values needs the legacy key |
| `Credentials.Database.UpgradeCredentials` | internal/database/credentials.go:10-70 | succeeds exactly if no call fails and every credential can be carried over; an error changes nothing; success carries every credential over and returns the number of rows that needed it |
| `Credentials.ChangesSuffice` | internal/database/credentials.go:61-65 | running the collected updates by id produces exactly the intended table |
| `Credentials.SecondRunIsIdle` | internal/database/credentials.go:37-39 | a second run returns 0 and changes nothing |
| `Credentials.LegacyKeyIsRetired` | internal/database/credentials.go:10-10 | if ciphertexts commit to their key, nothing opens under the legacy key afterwards |
| `Secrets.PartialFileIsRefused` | internal/config/config.go:71-82 | no proper part of a secrets file passes for the file |
| `Secrets.StepKeeps` | internal/config/config.go:71-115 | every system call or crash keeps the file and the settled keys |
| `Secrets.KeysPersist` | internal/config/config.go:45-115 | over every interleaving and crash, from any moment to any later one, a file that exists is never replaced, also one created during the run, and successful starts agree on every key they do not override |
| `Secrets.ConfigMeans` | internal/config/config.go:45-67 | exactly which secrets Load accepts, and that environment values win over the file |
| `Secrets.EnvironmentWins` | internal/config/config.go:45-67 | over every run, a successful start uses its environment's values where set and else the settled keys |
| `Secrets.FailureHasACause` | internal/config/config.go:45-115 | a start fails exactly by a crash, a failed call, an unreadable file or unusable values |
| `Secrets.LoadCanSucceed` | internal/config/config.go:45-115 | an undisturbed start whose calls succeed runs with the file's keys, or draws keys and leaves exactly them in the file |
| `Secrets.DrawnKeysAreUsed` | internal/config/config.go:57-69 | drawn secrets pass validation unchanged, except the one key that equals the old default |
| `Secrets.CreatorsKeysAreUsed` | internal/config/config.go:45-115 | a start without overrides runs with exactly the keys of whoever created the file |
| `Migrations.Database.AddServerColumn` | internal/database/migrations.go:94-117 | a column is added unless the scan found it |
| `Migrations.Database.RunMigration` | internal/database/migrations.go:39-68 | one entry of the list adds its columns to the table it found or created |
| `Migrations.Database.Migrate` | internal/database/migrations.go:70-92 | an error rolls back and comes only from a failed call, a newer version or a missing table; success runs exactly the missing migrations |
| `Migrations.MigrationPreserves` | internal/database/migrations.go:8-92 | from every supported database all columns are present, old cells unchanged, new ones at their defaults, and the only successful rerun changes nothing |
| `Migrations.MigratedSchema` | internal/database/migrations.go:8-68 | name by name: the columns of the newest version and what old rows hold in each column they lacked |
| `Der.ReadHeaderBack` | internal/api/rdp_handler.go:42-48 | the decoder reads back every identifier and length the encoder writes |
| `Der.IntRoundTrip` | internal/api/rdp_handler.go:27-32 | integers are encoded minimally and read back |
| `RdpRequest.UnmarshalMarshal` | internal/api/rdp_handler.go:40-51 | for every request the decoder can take, decoding undoes encoding exactly when its text is UTF-8 |
| `RdpRequest.MarshalIsInjective` | internal/api/rdp_handler.go:46-51 | different requests have different encodings |
| `RdpRequest.CheckedIsFramed` | internal/api/rdp_handler.go:52-59 | the checks accept exactly framed X.224 connection requests for NLA of 19 to 260 bytes |
| `RdpRequest.AcceptsExactly` | internal/api/rdp_handler.go:40-61 | a byte string is accepted as a request if and only if it is the one encoding of an acceptable request |
| `RdpRequest.AcceptedBytes` | internal/api/rdp_handler.go:27-51 | accepted bytes spelled out: four explicit fields 0, 2, 3 and 6 with their universal tags, version 3390, shortest lengths |
| `Servers.ValidateInPlace` | internal/api/server_handler.go:36-84 | the assignments of validate compute the normal form, or refuse |
| `Servers.ValidIsNormal` | internal/api/server_handler.go:36-84 | what passes has a port in range, a known protocol and auth type, well-formed fingerprints, and for remote desktops no SSH settings |
| `Servers.ValidateMeans` | internal/api/server_handler.go:36-84 | exactly which requests are accepted, and each field of the normal form in terms of what was sent |
| `Servers.ResolvedIsStored` | internal/api/server_handler.go:117-151 | resolved credentials decrypt to something submitted and suit the authentication type |
| `Servers.ResolveMeans` | internal/api/server_handler.go:117-151 | what a request submits replaces the credential it authenticates with, a copied key stands in for a key not submitted, the other credential is kept; refused exactly when the needed one would be empty or the key is unusable |
| `Servers.StepKeeps` | internal/api/server_handler.go:161-240 | every read, write or deletion of any handler keeps table and handlers good |
| `Servers.EveryTableIsGood` | internal/api/server_handler.go:161-240 | every reachable table: no credentials, pin or jump on remote desktops, a usable submitted credential on SSH rows, valid ports, no self jump |
| `Servers.EveryRowWasRequested` | internal/api/server_handler.go:161-227 | in every reachable table each record is, field by field, what one accepted request asked for |
| `Servers.SavesStoreTheRequest` | internal/api/server_handler.go:206-224 | exactly when a step answers success, and then one record, the next or the updated one, holds the request field by field and no other changes; otherwise none changes |
| `Servers.OtherStepsStoreNothing` | internal/api/server_handler.go:161-240 | a deletion removes one record; an arriving request waits exactly if it is valid and changes no record |
| `Servers.SavedAlone` | internal/api/server_handler.go:161-227 | an undisturbed valid request is saved if and only if its record and jump exist and its credentials resolve |
| `Routes.DialsExactly` | internal/api/connection.go:29-88 | for any table the dialled route is exactly the record, or one different direct SSH record and the record, each with its own pin and credentials |
| `Routes.HopsNeedTheirPins` | internal/sshclient/client.go:59-70 | every hop of every route is trusted exactly if its own record pins the key it shows |
| `Routes.ReachableRowsConnect` | internal/sshclient/client.go:72-90 | on reachable tables every SSH record has a configuration and password records never lack a password |
| `Routes.ReachableRecordsDial` | internal/api/connection.go:42-88 | on reachable tables, even if they change between reading a record and its jump, dialling succeeds exactly for SSH records that are direct or whose jump then is a direct SSH record, and never fails for a missing or undecryptable credential |

## Left out

- Upload: one upload is a machine of remote calls on values rather than a method, because others interleave between any two calls; the extension check is a constant of the run.
- Secrets and server handlers: likewise machines on values; `Servers.Validate` is both a function and a method, `Resolve` and `Load`'s checks are functions.
- Connections of one hook: one connection is modelled against any number of later ones, which only raise the generation; terminal rendering, touch and fit are not.
- Raw WebSocket framing, pings on the wire, read deadlines and pongs: a read failure may happen at any time instead.
- Real time: setup timers and the 16 ms pump timer are events; progress is a decreasing measure per pump.
- Der.ReadHeader: refuses long-form tags and the text decoder refuses BMPString, where the original decodes some of these and refuses them later.
- Migrations: a negative stored version, which makes the original index out of range, and a view named servers.
- Servers: record timestamps, and the binding rules of JSON requests; fingerprint syntax and trimming are parameters.
- Environment and path handling of the configuration beyond the two keys.
- The gateway's TLS policy, X.224 response and byte relay; `relayRDP` repeats the terminal argument in a simpler form.
- Routing, JSON answers, static files, logging, JWT, bcrypt, page components and the session registry: no invariant beyond plumbing.
