# Verified model of tumgrd

`tumgrd` keeps three parties in step for every tunnel node: a row in SQLite, the entry of a remote
server, and the client entry of the local kernel module. It rotates the XOR key of a node by
write-ahead: the new key is committed to the row first (state 1), sent to the server, the row is moved
on (state 2), the local client is reset, and the row returns to state 0. Any external call or SQL
statement can fail, and the process can die between any two of them; the next pass resumes from the row
alone. This project models that protocol, the subprocess deadline it depends on, and the URL and address
parsing in front of it, and proves what they are for.

## How the model is built

**The protocol.** `protocol.dfy` is one reconcile pass as a small-step machine with a label between every
two external effects. `system.dfy` is the daemon around it: a run is any sequence of register, refresh,
deregister, timer and interface events, environment answers, and crashes. A crash abandons the pass
wherever it is, keeps every committed row, may lose any kernel entries, may change the configuration, and
leaves the forced startup pass of every node outstanding. An external call is acknowledged, or fails, and a
failed call may or may not have taken effect and may or may not have been killed at its deadline.
The peers name entries as the command lines do, so two rows can share one: the server knows a node by host, port
and uid, the local client by host, uid and address family. `pass_safety.dfy` and `system_safety.dfy` prove an inductive invariant; `theorems.dfy` reads the results
off it, for all runs from an empty table, `witnesses.dfy` reaches its exceptions; `convergence.dfy` starts from any row and any contents of the
peers instead.

**The code.** `store.dfy`, `reconcile.dfy` and `daemon.dfy` are the code in its own form: a database object
with one method per statement, a node that a pass updates field by field, and the handlers that drive
them. `ReconcileOne` is proved to perform exactly the machine's pass, `ReconcileAll` the machine's sweep,
and every handler to extend the machine's run, so each theorem about runs holds of the states they leave.

**The deadline.** In `watchdog.dfy` and `subprocess.dfy` the clock, the alarm, the pending signal, the
signal mask and the child are fields, and the environment moves them: time passes and SIGALRM is delivered
between any two statements and inside every blocking call. `kill` and `waitpid` require a child not yet
collected and closing a descriptor requires it to be open, so reap safety and the absence of a double
close hold on every path by verification. The loops terminate by explicit measures: whether the deadline has
passed, then the space left in the buffer, then the time to the deadline.

**The parsers.** `url.dfy`, `extract.dfy` and `text.dfy` model the URL parser with its Host header printer,
and the extractor that finds an address in a response, over buffers of characters.

Assumptions: an acknowledged `server-add` (exit status 0 and the success marker) wrote the entry; a failed
statement changed nothing; a generated key is 128 characters; `inet_pton` accepts only short text without
delimiters, quotes or brackets.

Two places where the code departs from what it says of itself:

- A row stamped in the future is logged as "treating as expired" (`src/db.c:117`), but its time is replaced by 1,
  so with a lifetime above now - 1 it is kept (`Expiry.FutureStampKept`). `Expiry.FutureStampVerdict` gives the
  exact condition; every lifetime below 1600000000 meets it.
- The parser takes any text between brackets for a host, not only an IPv6 literal, and the Host header drops
  the brackets of any other text. `Url.RoundTrip` gives the exact condition under which the printed form is
  read back, and `Url.BracketedNonLiteralIsLost` a URL for which it is not.

## Model

| member | source | states |
|---|---|---|
| `Theorems.Agreement` | src/reconcile.c:35-232 | in every reachable state a settled row (state 0, active) that no pass is working on has both ends last written from it: at the server its client port, key, client comment and address (its current one or, where configured, the placeholder), at the local client its client port, key and description; the exceptions are an outstanding startup pass, a failed error mark, a deregistration that kept its row, and another node having changed an entry the two share |
| `Theorems.DoubtHasACause` | src/reconcile.c:222-224 | a node becomes an exception to agreement only by a crash, by the return of a failed pass whose error mark failed, by a deregistration reaching the server, or by a step of another node that shares an entry with it and changes that entry |
| `Theorems.AgreementOfSeparateRows` | src/runner.c:716-779 | along a run in which no two rows share an entry at a peer (same host, port and uid for the server; same host, uid and address family for the local client), agreement holds with the first three exceptions only |
| `Witnesses.SharingBreaksAgreement` | src/db.c:218-219 | and for every two nodes that share an entry there is a run, two successful registrations, after which the first is settled, under no other exception and not what that peer holds: the condition cannot be dropped |
| `Theorems.EclipseHasACause` | src/runner.c:757-779 | a node finds an entry changed under it only by a pass or deregistration of another node that shares the entry |
| `Theorems.CompletionAgrees` | src/reconcile.c:190-202 | the event that takes a row from state 2 to state 0 leaves both ends equal to the row |
| `Theorems.WriteAhead` | src/reconcile.c:133-183 | any key a peer's entry holds was, strictly earlier in the run, committed as the key of a row that the entry belongs to |
| `Theorems.CommittedAtSomePoint` | src/db.c:644-682 | the recorded history of committed keys is sound: each was a row's key at some prefix of the run |
| `Theorems.RecoverySound` | src/db.c:721-767 | a row in state 2 has exactly its key on the server, unless a deregistration removed the entry or another node that shares it changed it |
| `Theorems.RowsWellFormed` | src/db.c:644-844 | every reachable row is in state 0, 1 or 2, has a pending key exactly outside state 0, equal to its nonempty key, an application time that is 0 or at least 1600000000, and a lifetime that is 0 or in 60..2147483647 |
| `Theorems.RowHistory` | src/db.c:340-352 | per event, a surviving row's state stays or advances 0 to 1, 1 to 2, 2 to 0; its key changes only as a rotation begins, with keys enabled and one in place, or, in state 0, by a register that names one; its application time, once set on a rotated key, moves only as a rotation completes |
| `Theorems.MemoryCoherent` | src/reconcile.c:60-108 | at every point of a pass, every send and the return included, the node in memory has the committed key, pending key, state, port and settings |
| `Theorems.NoStaleKeySent` | src/reconcile.c:121-150 | on a sane clock, no server-add is issued in state 0 for a rotated key with a set application time whose age at the pass's clock reading has reached its nonzero lifetime |
| `Theorems.TimeoutEndsPass` | src/runner.c:675-679 | at most the last subprocess of a pass timed out, and none before any further one is run |
| `Theorems.RegisterTruth` | src/ubus_if.c:329-338 | when a register's pass returns 0 the row is settled and both ends are written from it |
| `Theorems.ReturnTruth` | src/reconcile.c:159-169 | a pass that returns 0 leaves the detected address in the row, and either applied the row or skipped one that is in state 0, not marked error or syncing, owes no apply, and ran no subprocess |
| `Theorems.SkipsExactlyWhen` | src/reconcile.c:156-169 | a pass ends at detection without an apply if and only if it is not forced, the row has the detected address up to case, and the status is neither error nor syncing |
| `Theorems.FailureTruth` | src/reconcile.c:222-224 | a failed pass whose error mark committed leaves status error and the detected address or, failing that, the one the node had |
| `Theorems.ApplyEndsDoubt` | src/reconcile.c:171-217 | a pass that applied its node ends every exception to agreement and every debt |
| `Theorems.OwedWorkIsResumed` | src/reconcile.c:159-169 | a pass that reaches detection on a node that owes an apply applies it, for every address; a node owes once an apply is decided and not completed, except while its startup pass is outstanding after a crash or its last error mark failed |
| `Theorems.DecisionIsOwed` | src/reconcile.c:161-163 | deciding to apply records the node as having an apply outstanding, from which it owes unless its startup pass is outstanding or its last error mark failed |
| `Theorems.DebtIsKept` | src/reconcile.c:222-224 | a node that owes keeps owing across every event but the return of a pass that applied it, the return of a failed pass whose error mark failed, the deletion of its row, and a crash |
| `Theorems.OwedUntilApplied` | src/reconcile.c:159-224 | along any run in which none of those four happens, a node that owes keeps owing, and every pass on it that reaches detection applies, for every address |
| `Theorems.FailureIsOwed` | src/reconcile.c:222-224 | a pass that decided to apply and failed leaves a node that owes, if its error mark committed, even after a crash or an earlier failed mark |
| `Theorems.AppliedWhatever` | src/reconcile.c:159-163 | a pass applies for every address if and only if it is forced or its node is marked error or syncing |
| `Witnesses.CrashForgetsDebt` | src/reconcile.c:159-169 | the exception is real: for every node and two addresses there is a run in which a pass decides to apply the second, the process dies, and an unforced pass before the startup pass detects the first again and skips |
| `Theorems.AdvanceEvolves` | src/reconcile.c:121-217 | a pass step changes its own row as RowHistory allows and leaves every other row alone |
| `Theorems.RegisterEvolves` | src/db.c:340-352 | an upsert over a row keeps its state, its application time and, during a rotation, its key |
| `SystemSafety.InvStep` | src/reconcile.c:35-232 | every event of the daemon keeps the whole invariant |
| `SystemSafety.InvRun` | src/reconcile.c:35-232 | the invariant holds after every run from an empty table |
| `SystemSafety.RegisterKeeps` | src/ubus_if.c:194-338 | storing a request, over a rotation in progress or not, keeps every node sound |
| `SystemSafety.RemoveKeeps` | src/ubus_if.c:411-413 | each step of a deregistration, whatever the calls returned, keeps every node sound |
| `SystemSafety.CrashKeeps` | src/ubus_if.c:720-724 | a process death at any label keeps every node sound |
| `SystemSafety.OtherKeeps` | src/runner.c:644-779 | a step of one node keeps every other node sound, sharing entries or not |
| `SystemSafety.StepSendsCommittedKey` | src/runner.c:644-696 | a pass step puts no key into any entry of either end but its row's committed one, and that only under its own names |
| `SystemSafety.LoadAllFresh` | src/db.c:498-565 | every node of a listing, each loaded on its own clock reading, agrees with its row |
| `PassSafety.StepKeeps` | src/reconcile.c:52-231 | every step of a pass keeps the label-by-label pass invariant, whatever the environment answers |
| `PassSafety.StepFrame` | src/reconcile.c:52-231 | a step touches no other row, and no peer entry under any name but its own node's |
| `PassSafety.StepMovesForward` | src/reconcile.c:111-217 | a step moves its row's state only forward, changes the key only to begin a rotation, and keeps port, settings and lifetime |
| `Convergence.Converges` | src/reconcile.c:52-217 | from any row, any state and pending key, any peers and either enable_xor, a pass whose environment cooperates and that is forced, finds the node marked or detects another address returns 0 with the row in closed form settled, both ends equal to it, the placeholder sent exactly where it is configured and taken, memory in step and no other node touched |
| `Convergence.RepairedKeyIsYoung` | src/reconcile.c:121-217 | on a sane clock such a pass leaves a row whose age is below its lifetime |
| `Convergence.PassKeepsSettings` | src/reconcile.c:35-232 | no pass touches the operator's columns of a row, and the only key a pass installs is the generated one |
| `Convergence.SweepConverges` | src/reconcile.c:245-261 | a forced sweep repairs the row of each listed node whose own environment cooperates, whatever happens to the others, and leaves both ends equal to it unless a node listed later shares an entry |
| `Convergence.SweepFrame` | src/reconcile.c:249-253 | a sweep leaves the row of a node outside its queue as it was, and its peer entries too unless a queued node shares one |
| `Convergence.PassFrame` | src/reconcile.c:35-232 | a whole pass touches only its own row and its own entries |
| `Convergence.NoFailures` | src/reconcile.c:255-261 | the failure count is 0 exactly when every pass returned 0 |
| `Expiry.ExpiryVerdict` | src/db.c:109-121 | load clamping followed by the expiry test equals a closed-form verdict on the stored 64-bit columns, and a pass is forced by it exactly then |
| `Expiry.QuietPass` | src/reconcile.c:111-169 | an unforced pass over a row in state 0 that is not marked, not expired and has the detected address runs no subprocess, changes nothing and returns 0 |
| `Expiry.NoOverflow` | src/db.c:109-121 | neither the clamping nor the age test overflows 64 bits, for every column value |
| `Expiry.FutureStampVerdict` | src/db.c:117-121 | a future-stamped row is expired exactly when 0 < lifetime <= now - 1, hence for every nonzero lifetime below 1600000000 |
| `Expiry.FutureStampKept` | src/db.c:117-121 | a future-stamped row that is nevertheless kept |
| `Store.Database.GetNode` | src/db.c:418-466 | returns the row with lifetime and application time clamped, 1 if there is none, -1 if the query fails |
| `Store.Database.ListNodes` | src/db.c:498-565 | the growing buffer ends up with every listed row, each clamped on its own clock reading, in order |
| `Store.Database.Upsert` | src/db.c:330-416 | insert, or update that keeps state, pending key and application time, keeps the key during a rotation and the lifetime unless given; a client port in use fails |
| `Store.Database.DeleteNode` | src/db.c:468-496 | deletes the row, or reports that there is none, or fails and changes nothing |
| `Store.Database.UpdateRuntime` | src/db.c:571-606 | sets address and status of the row; succeeds without one |
| `Store.Database.UpdateApplied` | src/db.c:608-642 | sets the application time of the row; fails without one |
| `Store.Database.BeginRotation` | src/db.c:644-682 | from state 0 only, installs key and pending key and state 1 in one statement |
| `Store.Database.CompleteRotation` | src/db.c:684-719 | from a nonzero state only, returns to state 0, clears the pending key and stamps |
| `Store.Database.UpdateRotationState` | src/db.c:721-767 | between pending states only, and leaves the keys alone |
| `Store.Database.ReplaceRotation` | src/db.c:769-806 | from any state, installs a fresh rotation |
| `Store.Database.ClearRotation` | src/db.c:808-844 | from any state, returns to state 0 without a pending key |
| `Reconcile.Runner.ServerAdd` | src/runner.c:644-696 | the placeholder first, then the detected address unless the first try timed out: the machine's two send steps |
| `Reconcile.Runner.ResetLocalClient` | src/runner.c:781-788 | delete then add, a failed delete tolerated unless it timed out: the machine's two client steps |
| `Reconcile.Runner.ServerDel` | src/runner.c:698-714 | removes the server's entry for the uid when the call took effect, and leaves the client alone |
| `Reconcile.Runner.ClientDel` | src/runner.c:757-779 | removes the kernel's entry for host, uid and family when the call took effect, and leaves the server alone |
| `Reconcile.Runner.ClientAdd` | src/runner.c:716-755 | writes port, key and description of the node under host, uid and family when the call took effect |
| `Reconcile.HealNode` | src/reconcile.c:61-81 | a corrupt rotation becomes a fresh one in row and memory alike if keys rotate, else state 0; on failure neither changes |
| `Reconcile.DecideLifetime` | src/reconcile.c:111-150 | resume, distrust the clock, seed, expire with a begun rotation, or leave alone, exactly as the machine decides |
| `Reconcile.ConfirmServer` | src/reconcile.c:173-183 | after an acknowledged send, row and memory move from state 1 to 2 together or not at all |
| `Reconcile.FinishNode` | src/reconcile.c:190-217 | completes the rotation or stamps an expired node, exactly as the machine does |
| `Reconcile.ReconcileOne` | src/reconcile.c:35-232 | performs exactly the machine's pass: same table, peers, node in memory, subprocesses in order and return code; 0 without an apply means the detected address is the node's, unforced and unmarked |
| `Reconcile.ReconcileAll` | src/reconcile.c:234-268 | performs exactly the machine's sweep; after a successful listing returns 0 if and only if no pass failed |
| `Daemon.Daemon.constructor` | src/ubus_if.c:720-724 | a process started on the state an earlier run left continues that run |
| `Daemon.Daemon.BuildRequested` | src/ubus_if.c:216-324 | the node a register asks for, or the refusal, field by field as the machine builds it |
| `Daemon.Daemon.StoreRequested` | src/ubus_if.c:236-329 | a register is stored exactly when its identifiers, ports, key and lifetime are in order, the port is free, a key is at hand and the statements succeed; then the row has every column as requested, kept or defaulted; otherwise the table is left alone and the status blames the request only if its fields are wrong |
| `Daemon.BuildsWhenWellFormed` | src/ubus_if.c:216-327 | a node is built exactly when the request is in order and a key is at hand |
| `Daemon.StoresWhatIsAsked` | src/db.c:340-352 | the upsert of a built node succeeds exactly when its port is free, and its row has every column as requested, kept or defaulted |
| `Daemon.Daemon.HandleRegister` | src/ubus_if.c:194-361 | extends the run by the stored row and one forced pass, whose result the table and peers are; the row has the requested settings and key unless the pass generated one; an "ok" reply means that pass returned 0, the row is settled with the detected address and both ends match it |
| `Daemon.Daemon.HandleDeregister` | src/ubus_if.c:376-437 | extends the run; the flags report each call's and the deletion's outcome, each reported deletion is true, and everything else is untouched |
| `Daemon.Daemon.HandleRefresh` | src/ubus_if.c:454-539 | extends the run by one pass, whose result the table and peers are; "ok" means that pass returned 0: state 0, neither error nor syncing, the detected address in the row, and if forced, settled with both ends matching |
| `Daemon.Daemon.HandleRefreshAll` | src/ubus_if.c:673-731 | extends the run by the whole sweep, whose result the table and peers are, "ok" exactly when no pass failed; forced, every listed node whose environment cooperates is settled, with both ends matching unless a node listed after it shares an entry |
| `Daemon.DrivePass` | src/reconcile.c:35-232 | the environment's answers carry a pass in flight to its return within the run |
| `Daemon.DriveSweep` | src/reconcile.c:249-253 | and a whole sweep likewise, to the state of the sweep function |
| `Watchdog.Supervisor.Tick` | src/runner.c:70-82 | an unmasked alarm that falls due is delivered at once, sets the flag and has the next alarm armed one retry interval on; a masked one becomes pending and leaves the flag alone |
| `Watchdog.Supervisor.Block` | src/runner.c:251-270 | between arm and disarm no blocking call outlasts the armed alarm |
| `Watchdog.Supervisor.Arm` | src/runner.c:127-149 | whatever an earlier run left armed, pending or flagged, the new deadline starts clean and live |
| `Watchdog.Supervisor.Disarm` | src/runner.c:127-159 | leaves no alarm and no pending signal, restores the mask, keeps the flag |
| `Watchdog.Supervisor.CheckChild` | src/runner.c:164-188 | in time, does nothing; past the deadline, kills the process group and collects the child within one retry interval, terminating by the child's state, unless the wait is refused; never signals a collected child |
| `Subprocess.PreparePipeEnd` | src/runner.c:314-328 | lifts an end off 0, 1 and 2, closing the original; the open descriptors stay exactly the base and the ends |
| `Subprocess.OpenPipes` | src/runner.c:370-378 | on success six distinct ends, all at least 3; on failure what is open is still accounted for |
| `Subprocess.Launch` | src/runner.c:370-425 | the pipes, the duplications, each from an end that is no standard descriptor, and the spawn; a child runs exactly on success |
| `Subprocess.WriteStdin` | src/runner.c:438-463 | terminates under any alarms and blocks at most one retry interval past the deadline; the child is given a prefix of the input, all of it unless the deadline passed or the pipe broke |
| `Subprocess.ReadAll` | src/runner.c:240-275 | terminates under any alarms and retries an interruption only before the deadline; the buffer ends up with a terminated prefix of what the child wrote, with as much of it as fits unless the deadline passed or a read failed |
| `Subprocess.Collect` | src/runner.c:493-527 | success exactly for a child collected before the deadline with exit status 0, unless the wait was refused; a timeout is never taken for a plain failure or a success |
| `Subprocess.Converse` | src/runner.c:427-527 | every exit leaves the child collected unless the wait was refused, and the descriptors accounted for |
| `Subprocess.CloseAll` | src/runner.c:549-566 | closes every end still open, once, and nothing else |
| `Subprocess.ExecWithStdio` | src/runner.c:330-568 | terminates over all interleavings; open descriptors as on entry; no alarm or signal left; child collected unless the wait was refused; 0 exactly when a child was started and collected before the deadline with exit status 0, and then the flag is clear, all input was given and the buffers hold all output that fits unless a pipe failed; a timeout is never early; blocked time is bounded |
| `Subprocess.RunCall` | src/runner.c:570-642 | a subprocess run is one of the outcomes the protocol allows for, acknowledged exactly when it exits with status 0 before the deadline with the marker in its output, as far as the buffers show it; the flag it leaves says whether that very call timed out |
| `Subprocess.Mentions` | src/runner.c:618-622 | the search for the marker finds it exactly when it occurs in the text of the buffer |
| `Subprocess.DropEnd` | src/runner.c:549-566 | closing one end keeps the account of open descriptors |
| `Subprocess.PutEnd` | src/runner.c:314-328 | a new end keeps the account of open descriptors |
| `Text.TrimInplace` | src/helper.c:90-112 | the buffer, shifted and cut in place, holds the text without leading and trailing white space |
| `Types.SameTextIgnoresCase` | src/helper.c:74-80 | two addresses are the same exactly when they differ at most in the case of letters |
| `Types.FamiliesDiffer` | src/runner.c:215-229 | IPv4, IPv6 and no family are told apart |
| `Url.HasUrlScheme` | src/ipdetect.c:269-279 | an initial letter, the longest run of scheme characters, then `://` |
| `Url.HasSchemeIffSchemed` | src/ipdetect.c:269-279 | a URL has a scheme exactly when some run of scheme characters that starts with a letter is followed by `://` |
| `Url.ParseUrlHostPath` | src/ipdetect.c:287-378 | the walk over any URL ends with the parser function's verdict, host and path in their buffers and the port returned |
| `Url.ParseIffWritten` | src/ipdetect.c:287-378 | the parser accepts a URL with given parts if and only if the URL is written as those parts, bracketed or plain host, optional port, optional path, and they fit |
| `Url.Accepted` | src/ipdetect.c:328-378 | success gives a nonempty host, a port in 1..65535, a path starting with `/`, all within the buffers |
| `Url.RoundTrip` | src/ipdetect.c:454-464 | parsing `http://`, the printed Host header and the path returns the same host, port and path if and only if the host is an IPv6 literal or has no `:` or `/` and no leading `[` |
| `Url.BracketedNonLiteralIsLost` | src/ipdetect.c:309-318 | a URL with a bracketed host that is no literal, which is not read back |
| `Url.ValueOfDecimal` | src/ipdetect.c:455-461 | the printed port reads back as itself |
| `Url.ValueIsDecimal` | src/ipdetect.c:347-354 | the value read from digits is the decimal one |
| `Url.HeaderFits` | src/ipdetect.c:450-464 | the Host header of a host that fits its buffer always fits the header buffer |
| `Extract.ExtractIp` | src/ipdetect.c:54-122 | with its trimming, whole-text fast paths and cut tokens, returns the first address token of the first 511 characters, cut to the output buffer, or fails and leaves the buffer alone |
| `Extract.FirstAddressIsFirst` | src/ipdetect.c:84-119 | the specification means: the first maximal delimiter-free token that is an address of the requested family, and none if there is none |
| `Extract.TrimKeepsFirst` | src/ipdetect.c:63-64 | trimming does not change the answer |
| `Extract.WholeText` | src/ipdetect.c:71-79 | the fast paths agree with the scan |
| `Extract.CutToken` | src/ipdetect.c:102-110 | cutting a token to 127 characters neither makes nor loses an address |

## Left out

- Subprocess.ExecWithStdio: requires an installed SIGALRM handler and SIGALRM unblocked by the caller, as the comments in the source do; without a handler the source runs with no deadline at all.
- Subprocess.ExecWithStdio: the bound on blocked time leaves out the spawn itself, which no signal interrupts, and the time the process spends running rather than blocked.
- Subprocess.RunCall: the output is not trimmed before the marker is looked for, which begins and ends with no white space; a marker beyond the buffers is not seen, as in the source.
- Watchdog.Supervisor.Block: an interruption by another signal takes at least one tick of the clock, so unrelated signals cannot interrupt infinitely often before the deadline.
- Watchdog.Supervisor.KillChild: a direct SIGKILL makes the child collectable at once; no other part of the process collects it, as the source's ownership comment demands.
- Theorems.Agreement: entries are identified by the names the commands give; two host names of one address, or an unspecified family resolving to the entry of a specified one, count as different entries.
- Extract.ExtractIp: the family is a parameter; the mapping from the `ip_version` text to it, and NULL arguments, are not modelled.
- Url.ParseUrlHostPath: the NULL check is not modelled; a run of digits too long for `strtol` saturates in C and is a large number here, out of range either way.
- The columns `last_updated` and `created_at`, which the protocol never reads, and the length limits of text columns.
- Client comment sanitizing, command lines and passing of the pre-shared key and memory limit to the subprocesses; failures to allocate memory.
- NULL or 64-bit rotation states, several writers of one database, and the schema migration.
- Loss of committed transactions at power failure; `Convergence.Converges` starts from any row and so covers what such a loss leaves.
- Normalizing and parsing of ubus messages; status and dump replies; resolution of a node by partial key.
- Sockets, DNS and the HTTP exchange: their outcome is the detection a pass is given.
- The environment block and attributes given to `posix_spawn`; the stages before the spawn fail without effect on what is modelled.
- A startup listing that fails leaves the startup pass outstanding; the source does not repeat that timer.
