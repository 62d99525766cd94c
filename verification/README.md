# Verification of the IVPN daemon's control logic

The daemon of the IVPN desktop application decides when a VPN connection is made, kept, paused and
ended, and which of the features around it (firewall, Split Tunnel, trusted WiFi, DNS override) may be
active together. This project models that logic in Dafny and proves what it keeps over all runs. The
operating system, the firewall, the Split Tunnel driver, the routing commands and the VPN processes are
devices whose calls may fail; the answers are parameters.

`dafny verify dfyconfig.toml` checks everything.

## Layout

| files | component |
|---|---|
| `ConnectionRequests`, `ConnectionRuns`, `Protocol` | connection requests: a one-slot channel, a mutex, a WaitGroup, one processor and the disconnect flag, as an interleaved step system, and the object that runs it |
| `KeepConnection` | the retry loop of the service |
| `KillSwitch`, `KillSwitchRuns`, `Service` | kill switch, persistent firewall, Inverse Split Tunnel, pause and the firewall of a connection |
| `AutoResume` | the routines that end a pause |
| `WifiActions`, `WifiRuns`, `WifiService` | trusted WiFi networks and LAN access |
| `DnsOverride`, `DnsRuns`, `DnsService` | DNS override and its owner |
| `ProcessForest`, `SplitTunnelLinux` | Split Tunnel processes on Linux |
| `InverseRoutes`, `SplitTunnelDriver`, `AppListCodec` | Split Tunnel on Windows: routes, driver, buffer of applications |
| `PingTracker`, `PingStatistics`, `PingTimestamp`, `Pinger` | the ICMP pinger |
| `PortTest`, `ConnectionTest` | the shared test of accessible ports |
| `Int64`, `Wrappers` | 64-bit arithmetic, option and result types |

A component that changes state is a class whose methods are proved equal to a function from state to
state; the theorems are about that function, its runs and its interleavings. Loops are loops. An
iteration over a Go map takes the keys in an arbitrary order.

## Where the code differs from what it promises

Each of these is proved, with the exact condition under which the promise holds.

- On Windows, making the firewall non-persistent enables it when it was disabled
  (daemon/service/firewall/firewall_windows.go:120-140), also while Inverse Split Tunnel is active.
- Activating Inverse Split Tunnel ignores that the state of the firewall could not be read
  (daemon/service/service.go:1135-1188).
- A connection that asked for the firewall "during connection" switches off a firewall that was enabled
  before it, if it ends before it has read the state, or if the firewall was also asked for permanently.
  The comment above `connect` says the second setting is ignored then
  (daemon/service/service_connect.go:596, 657-663).
- A second pause while paused overwrites the saved firewall state (daemon/service/service.go:666), so a
  firewall that the first pause switched off does not come back. A refused pause may leave the firewall off.
- Automatic resuming compares whole seconds, so a pause may end up to one second early. A pause that takes
  effect while an earlier routine waits for the network can be ended by that routine, and one that takes
  effect while an earlier routine is about to reset the deadline can be forgotten, with the VPN object still
  paused, or be ended at once by its own routine (daemon/service/service.go:700-727).
- A disconnection is lost when it looks for the VPN object while none is registered but one is going to be:
  from the check of the disconnect flag up to daemon/service/service_connect.go:630, and between retries
  (daemon/service/service.go:595-599). It is lost too when the object refuses to stop, as WireGuard on
  Linux does before it runs (daemon/vpn/wireguard/wireguard_linux.go:306), and when the retry loop starts
  after it (daemon/service/service_connect.go:521).
- A UI client that leaves is not followed by a check, so LAN may stay blocked until the next one. Switching
  Enhanced App Authentication is not either: off, LAN may stay allowed on a network that should block it;
  on, LAN may stay blocked.
- The "VPN off" action of a network vetoes connecting on launch only if the network was processed before.
- `SetDnsOverride` may fail after it has saved; the temporary DNS then has no owner and nobody can change it until
  the daemon restarts. Requests of two clients at once, and a client that leaves during its request, have the same effect.
- A DNS that the VPN object rejects is saved all the same, and a reset of the settings is not applied, so a
  connection may go on with another DNS than the effective one (daemon/service/service_dns.go:73-79).
- Connection settings are stored without asking whether the client may change the DNS, and without comparing
  them with an Inverse Split Tunnel that allows any DNS (daemon/service/service.go:1032-1049). Settings that
  wait for the end of a connection overwrite what was set after them.
- `isPortsEquals` takes lists with duplicates for the same set; a panic in a port test leaves an empty
  result for the next caller.
- The pinger relies on new tracker UUIDs: one that comes again lets a request count as received twice.
- The sum of squared deviations of the pinger overflows 64 bits for round-trip times of five and zero seconds.
- A driver whose old configuration cannot be cleaned stays connected after the failure; while it is being
  stopped, such a failure is ignored.

## Model

| member | source | states |
|---|---|---|
| `ConnectionRequests.StepKeepsInv` | daemon/protocol/protocol.go:1236-1344 | every step of a registration, of the 'Disconnect' command and of the processor keeps: the mutex has one holder, the WaitGroup counts the open registrations, the slot holds the newest request, every sent request is waiting, taken or replaced, taken requests get their verdicts in order, and finished requests were reported unless a newer one is on its way |
| `ConnectionRequests.TakeKeepsTickets` | daemon/protocol/protocol.go:1281 | receiving from the channel keeps the order of the sends and loses no request |
| `ConnectionRequests.SendKeepsTickets` | daemon/protocol/protocol.go:1255-1257 | a send puts the newest request into the channel and loses no request |
| `ConnectionRequests.DrainKeepsTickets` | daemon/protocol/protocol.go:1248-1253 | draining the channel drops only a request that is about to be replaced by a newer one |
| `ConnectionRuns.RunKeepsInv` | daemon/protocol/protocol.go:1236-1344 | the invariant holds after every interleaving |
| `ConnectionRuns.SendNeverBlocks` | daemon/protocol/protocol.go:1257 | the send into the one-slot channel never blocks |
| `ConnectionRuns.SlotHoldsNewest` | daemon/protocol/protocol.go:1244-1258 | what waits in the channel is always the request sent last |
| `ConnectionRuns.WaitPassesIffNoneOpen` | daemon/protocol/protocol.go:1282 | the ready wait passes if and only if no registration is open |
| `ConnectionRuns.VerdictsFollowSendOrder` | daemon/protocol/protocol.go:1281-1282 | requests are checked in the order they were sent, none twice, and never one that was replaced; a taken request may be overtaken by a newer one that then gets its own verdict |
| `ConnectionRuns.NewestGetsVerdict` | daemon/protocol/protocol.go:1233-1258 | newest wins: when nothing is pending any more, the request with the last verdict is the one sent last |
| `ConnectionRuns.QuiescentIsDisconnected` | daemon/protocol/protocol.go:1305-1332 | processor idle, channel empty and no registration open: the stored VPN state is DISCONNECTED and the last broadcast reported the last request |
| `ConnectionRuns.ReportSkippedIffNewerPending` | daemon/protocol/protocol.go:1305-1308 | the DISCONNECTED broadcast is skipped exactly when a newer request sat in the channel and no disconnection was requested |
| `ConnectionRuns.FlagMeaning` | daemon/protocol/protocol.go:1174-1187 | the flag is set exactly when 'Disconnect' came after the latest registration |
| `ConnectionRuns.CheckDecides` | daemon/protocol/protocol.go:1346-1360 | a checked request reaches Service.Connect exactly when no 'Disconnect' came after the latest registration |
| `ConnectionRuns.ReportReasonMeaning` | daemon/protocol/protocol.go:1305-1332 | over all runs, a DISCONNECTED broadcast is about the request taken last; it names a manual disconnection exactly when 'Disconnect' came after the latest registration, else an authentication error exactly when the VPN state stored last before the report was EXITING with one, else no reason |
| `ConnectionRuns.StoredState` | daemon/protocol/protocol.go:1362-1391 | the stored VPN state is the one of the latest notification, announcement or report |
| `ConnectionRuns.CancelledNeverConnects` | daemon/protocol/protocol.go:1354-1357 | a cancelled request never reaches Service.Connect, before or after its cancellation |
| `ConnectionRuns.DisconnectEndsTheCall` | daemon/service/service_connect.go:521-591 | once the retry loop runs, a disconnection is not overwritten: until the next request is checked the required state stays DISCONNECTED, and no VPN object is created beyond one that was already on its way |
| `ConnectionRuns.DisconnectOverwritten` | daemon/service/service_connect.go:521 | of all steps of all goroutines, exactly the start of the retry loop overwrites a required disconnection |
| `ConnectionRuns.DisconnectLostIffEscapes` | daemon/service/service.go:586-622 | the running call still sees CONNECTED after a disconnection, in some execution before the next request is checked, if and only if the disconnection looked for the VPN object while none was registered and the call was going to register one, or the object did not stop, or the required state had been overwritten and CONNECTED seen; a 'Disconnect' command without a later registration is lost for good exactly then |
| `ConnectionRuns.ConnectsIffStillConnects` | daemon/service/service_connect.go:521-630 | in every state, the running call can still see CONNECTED if and only if it is yet to create or register a VPN object, its object was not told to stop, or the loop is going to retry |
| `ConnectionRuns.EscapesWithoutOverwriting` | daemon/service/service.go:595-599 | as long as no retry loop starts after it required DISCONNECTED, only a VPN object that is not registered yet, or that does not stop, lets a disconnection escape |
| `ConnectionRuns.AwaitedIsOver` | daemon/service/service.go:616-619 | a disconnection that told the VPN object to stop waits exactly until the attempt of that object is over |
| `ConnectionRuns.SectionsInOrder` | daemon/protocol/protocol.go:1233-1270 | a registration and a disconnection run through their sections in order, one goroutine at a time, and wait only for a VPN object that they stop |
| `ConnectionRuns.ParametersAreKept` | daemon/protocol/protocol.go:1233-1258 | what a registration sends is what it was called with |
| `ConnectionRuns.LostBeforeLoop` | daemon/service/service_connect.go:519-521 | an execution in which 'Disconnect' completes between the check of the flag and the start of the retry loop, and the connection is kept |
| `ConnectionRuns.LostBeforeObject` | daemon/service/service_connect.go:527-630 | an execution in which 'Disconnect' completes while the VPN object is being created, and the VPN comes up although DISCONNECTED is required |
| `ConnectionRuns.NewestWaitsBehindOlder` | daemon/service/service_connect.go:519-521 | an execution in which the newest request waits behind an older connection that is kept |
| `Protocol.Protocol.StartRegistration` | daemon/protocol/protocol.go:1236-1237 | lowering the flag, as one step of the protocol, keeps the invariant |
| `Protocol.Protocol.ResumeRegistration` | daemon/protocol/protocol.go:1239-1270 | the next section of a registration is the next step of the protocol; it waits only for the slot mutex and for the end of a VPN object that it told to stop |
| `Protocol.Protocol.LockSlot` | daemon/protocol/protocol.go:1245-1247 | the slot mutex is taken if and only if it is free |
| `Protocol.Protocol.DrainSlot` | daemon/protocol/protocol.go:1248-1253 | removes the previous unprocessed request, if any |
| `Protocol.Protocol.SendToSlot` | daemon/protocol/protocol.go:1257 | sends without blocking |
| `Protocol.Protocol.CloseRegistration` | daemon/protocol/protocol.go:1241-1242 | the WaitGroup counter is positive when a registration closes |
| `Protocol.Protocol.StartDisconnect` | daemon/protocol/protocol.go:1174-1176 | raising the flag, as one step of the protocol |
| `Protocol.Protocol.ResumeProcessor` | daemon/protocol/protocol.go:1272-1344 | the next section of the processor is the next step of the protocol; it waits only for a request and for open registrations |
| `Protocol.Protocol.Report` | daemon/protocol/protocol.go:1305-1332 | the deferred report, section by section, keeps the invariant |
| `Protocol.Protocol.ResumeDisconnect` | daemon/protocol/protocol.go:1184-1186 | likewise for the rest of the 'Disconnect' command: requiring the state, telling the VPN object to stop, waiting for its end |
| `Protocol.Protocol.StopObject` | daemon/service/service.go:595-614 | a registration looks for the VPN object and tells it to stop; it waits only if there was one and it stops |
| `Protocol.Protocol.AwaitObject` | daemon/service/service.go:616-619 | the wait blocks exactly while the attempt of that object is not over |
| `Protocol.Protocol.EnterLoop` | daemon/service/service_connect.go:501-521 | Service.Connect returns early or starts the retry loop, which requires a connection |
| `Protocol.Protocol.CreateVpnObject` | daemon/service/service_connect.go:527-532 | a VPN object is created and not yet known to the service, or the call fails |
| `Protocol.Protocol.RegisterVpnObject` | daemon/service/service_connect.go:598-630 | connect() makes the object known to the service |
| `Protocol.Protocol.ForgetVpnObject` | daemon/service/service_connect.go:674-677 | connect() forgets the object after its goroutines ended |
| `Protocol.Protocol.ProcessConnectRequest` | daemon/protocol/protocol.go:1346-1360 | the check of the flag and its consequence are the next steps of the protocol |
| `Protocol.Protocol.Receive` | daemon/protocol/protocol.go:1281-1282 | receiving and waiting are separate sections; each blocks exactly when its step is not possible |
| `Protocol.Protocol.OnVpnStateChanged` | daemon/protocol/protocol.go:1362-1391 | a state change of the VPN object stores the state and keeps an established connection required |
| `Protocol.OpenRegistrationIsCounted` | daemon/protocol/protocol.go:1239-1242 | an open registration is counted, so closing it never makes the counter negative |
| `KeepConnection.Run` | daemon/service/service_connect.go:501-591 | retries happen only after CONNECTED was seen in the same call and before any disconnection; attempts are separated by exactly the promised pause; Inverse Split Tunnel keeps each attempt from the firewall; the ending says why the loop left, and the error of a failed attempt is returned exactly when nothing had connected and nobody had disconnected |
| `KeepConnection.DeliverSignals` | daemon/service/service_connect.go:800-804 | after the signals of an attempt: a disconnection is final, a first connection is kept |
| `KeepConnection.PauseBeforeReconnect` | daemon/service/service_connect.go:568-577 | the polling pause ends at its full length or with the disconnection that interrupted it |
| `KeepConnection.SignalsOfOneMore` | daemon/service/service_connect.go:539-550 | the required state is a function of the signals of all attempts so far |
| `KeepConnection.SignalsMean` | daemon/service/service_connect.go:800-804 | a disconnection stays required whatever arrives after it; CONNECTED is remembered unless it is disconnected |
| `KeepConnection.ErrorsComeFromFirstAttempt` | daemon/service/service_connect.go:540-547 | an error reaches the caller only from the very first attempt |
| `KeepConnection.DisconnectIsFinal` | daemon/service/service_connect.go:549-588 | an attempt during which a disconnection arrives is the last one |
| `KillSwitchRuns.ExclusiveUnlessGap` | daemon/service/service.go:821-884 | firewall and Inverse Split Tunnel are not made active together by any operation, whatever the devices do, if and only if the operation is not one of three gaps: non-persistence on Windows, an unanswered firewall status, a daemon start with both in its settings |
| `KillSwitchRuns.RunKeepsExclusive` | daemon/service/service.go:1135-1202 | the same over every sequence of operations |
| `KillSwitchRuns.WorkingRunIsSound` | daemon/service/service.go:821-884 | on Linux and macOS with working devices no sequence of operations and restarts activates both, and a persistent firewall is always enabled |
| `KillSwitchRuns.WindowsGapIsReachable` | daemon/service/service.go:866-884 | on Windows two operations with working devices activate both |
| `KillSwitchRuns.SuccessMeans` | daemon/service/service.go:647-1202 | what the caller of each of the thirteen operations can rely on after success, among it: a switched kill switch is as asked and passed its guards; a persistent firewall is enabled; activating Inverse Split Tunnel with a known firewall status means that the firewall is off; a blocked Split Tunnel cannot be enabled; after a resume the VPN runs and the kill switch changed only to its saved state; a started daemon has its persistent firewall enabled if the device works |
| `KillSwitchRuns.SetStateReplies` | daemon/service/service.go:821-847 | switching the kill switch succeeds if and only if the call works, nothing is paused, switching off does not meet a persistent firewall and switching on does not meet Inverse Split Tunnel; each refusal has its exact condition, and a failing call its exact effect |
| `KillSwitchRuns.SetPersistentReplies` | daemon/service/service.go:866-884 | likewise for the persistence, with the device of each platform |
| `KillSwitchRuns.SplitTunnelReplies` | daemon/service/service.go:1135-1188 | likewise for a Split Tunnel configuration, its five objections in their order |
| `KillSwitchRuns.PauseReplies` | daemon/service/service.go:647-734 | likewise for a pause; a refused one has paused nothing |
| `KillSwitchRuns.ResumeReplies` | daemon/service/service.go:737-758 | likewise for a resume by the user |
| `KillSwitchRuns.ResumeVpnReplies` | daemon/service/service.go:761-792 | the internal resume restores the saved kill switch exactly when it may, and its failure to do so is ignored |
| `KillSwitchRuns.FirewallReplies` | daemon/service/service_connect.go:943-976 | likewise for the firewall phase of connect(), and what it remembers of the firewall |
| `KillSwitchRuns.EndConnectionReplies` | daemon/service/service_connect.go:635-684 | the deferred clean-up switches the firewall off exactly when it found it off for this connection, and may |
| `KillSwitchRuns.StartMeans` | daemon/service/service.go:262-271 | a start of the daemon keeps the settings and enables a persistent firewall as far as the device does |
| `KillSwitchRuns.RefusalMeans` | daemon/service/service.go:821-1188 | a refused setting changes nothing unless a device failed; Split Tunnel settings are rolled back even then; a refused request changes the settings exactly if it changes the persistence and passes its guards |
| `KillSwitchRuns.PausedStep` | daemon/service/service.go:826-828 | while paused every kill-switch change is refused and the saved state is kept |
| `KillSwitchRuns.PausedRun` | daemon/service/service.go:867-869 | the same over every sequence of operations that neither pauses, resumes nor ends the connection |
| `KillSwitchRuns.PauseThenResumeRestores` | daemon/service/service.go:647-792 | pause, any such operations, resume: the original kill-switch state is back exactly unless it was enabled, not persistent, and Inverse Split Tunnel is active at the resume |
| `KillSwitchRuns.SecondPauseForgets` | daemon/service/service.go:659-666 | pause, any operations that keep the pause, a second pause, any such operations, resume: the kill-switch state of before the first pause is back exactly unless it was enabled and not persistent |
| `KillSwitchRuns.SecondPauseSucceeds` | daemon/service/service.go:647-683 | a pause while paused succeeds exactly if the kill switch is off or persistent, so the case above happens |
| `KillSwitchRuns.RefusedPauseKeepsKillSwitch` | daemon/service/service.go:647-734 | a refused pause changes the kill switch exactly when it had already switched it off |
| `KillSwitchRuns.ConnectRestoresFirewall` | daemon/service/service_connect.go:635-684 | a connection that asks for the firewall during the connection leaves it as found, on every exit, exactly unless it found it enabled and did not read that state |
| `KillSwitchRuns.InverseConnectionLeavesFirewall` | daemon/service/service_connect.go:536-540 | with Inverse Split Tunnel no connection touches the firewall |
| `Service.Service.SetKillSwitchState` | daemon/service/service.go:821-847 | the method is the operation of the runs above: guards for persistence, pause and Inverse Split Tunnel, then the device; it keeps the interlock |
| `Service.Service.SetKillSwitchIsPersistent` | daemon/service/service.go:866-884 | the settings change before the device is called and stay changed when it fails; the interlock survives exactly outside the Windows gap |
| `Service.Service.SplitTunnellingSetConfig` | daemon/service/service.go:1135-1188 | the settings are rolled back when they cannot be applied; the interlock survives exactly unless an enabled firewall did not answer |
| `Service.Service.SplitTunnellingReset` | daemon/service/service.go:1189-1202 | resetting Split Tunnel; it keeps the interlock |
| `Service.Service.ResetPreferences` | daemon/service/service.go:1020-1026 | resetting the settings; it keeps the interlock |
| `Service.Service.Pause` | daemon/service/service.go:647-734 | pausing saves the firewall state, switches it off, then pauses the VPN object; it keeps the interlock |
| `Service.Service.ResumeVpn` | daemon/service/service.go:761-792 | resuming the VPN object and restoring the firewall; it keeps the interlock |
| `Service.Service.Resume` | daemon/service/service.go:737-758 | resuming on request of the user; it keeps the interlock |
| `Service.Service.Connect` | daemon/service/service_connect.go:598-684 | one run of connect() up to any of its exits, with its deferred clean-up; it keeps the interlock |
| `Service.Service.InitializeFirewall` | daemon/service/service_connect.go:943-976 | the firewall phase of connect(); it keeps the interlock |
| `Service.Service.CleanUp` | daemon/service/service_connect.go:637-684 | the deferred clean-up of connect(); it keeps the interlock |
| `Service.Service.DeviceSetPersistent` | daemon/service/firewall/firewall_windows.go:120-140 | on Windows setting the persistence, on or off, enables a disabled firewall; elsewhere only switching it on does |
| `AutoResume.NeverResumedEarly` | daemon/service/service.go:692-731 | with any number of leftover routines, an automatic resume happens only when the deadline in force has passed to the second, less than a second early, as long as no pause takes effect while a routine that saw its deadline pass waits for the network |
| `AutoResume.RunKeepsDeadlines` | daemon/service/service.go:692-731 | in every such run, the deadline that a waiting routine read is the one in force |
| `AutoResume.PausedIsWatched` | daemon/service/service.go:692-703 | in all runs, while paused, the routine of the latest pause is running and does not mistake the pause for a resumed connection, although its test and its reading of the deadline are separate steps |
| `AutoResume.SecondPauseCutShort` | daemon/service/service.go:708-727 | in every state, a pause that takes effect can be ended before its deadline if and only if a routine that saw its deadline pass is waiting for the network |
| `AutoResume.EarlyIffBehindWaitingRoutine` | daemon/service/service.go:692-731 | over all runs: the connection can be resumed early at some moment if and only if some pause took effect behind a waiting routine |
| `AutoResume.WokenEarlyIffRoutineLeft` | daemon/service/service.go:681-727 | after a pause of some seconds took effect, in no run without another pause or a resume by the user does a routine make the VPN run again before those whole seconds are over, if and only if no routine of an earlier pause was waiting for the network or about to reset the deadline; the stored deadline is not mentioned |
| `AutoResume.WakesWhenOver` | daemon/service/service.go:692-727 | after any time and any polling, a routine that polls makes the VPN run again, with the network ready, if and only if the whole seconds of the requested pause are over |
| `AutoResume.PauseForgottenIffRoutineSawUnpaused` | daemon/service/service.go:700-702 | a new pause can be forgotten, with the VPN object still paused, if and only if an earlier routine has seen the connection unpaused and not yet reset the deadline |
| `AutoResume.ForgottenIffBehindForgetter` | daemon/service/service.go:692-731 | over all runs: the pause in effect can be forgotten at some moment if and only if some pause took effect behind such a routine |
| `AutoResume.ResumedWithinTheLastSecond` | daemon/service/service.go:704-705 | a polling routine resumes exactly once the whole seconds have passed, which is before the deadline if and only if the deadline is not a whole second |
| `AutoResume.WhenRoutineLives` | daemon/service/service.go:695-730 | a routine lives from its pause until it has resumed or has seen no pause |
| `AutoResume.UnpausedRoutineEnds` | daemon/service/service.go:700-702 | a routine that polls ends without resuming if and only if the connection is not paused, and leaves no deadline |
| `WifiRuns.StartSynchronises` | daemon/service/service_autoconnect.go:158-187 | the first check after the start takes the current network into account |
| `WifiRuns.CheckSynchronises` | daemon/service/service_autoconnect.go:158-187 | one check brings LAN access to what the setting and the network want, unless it is a duplicate of a check that already did |
| `WifiRuns.StepKeepsLan` | daemon/service/service_autoconnect.go:247-377 | network changes, settings changes, LAN-setting changes, duplicated events and connecting clients keep LAN access as wanted |
| `WifiRuns.BlocksLanMeans` | daemon/service/service_autoconnect.go:363-365 | blocked LAN is asked for if and only if the user is logged in, background actions are permitted, WiFi actions apply, the first entry of the network or else the default says untrusted, and the settings block LAN on untrusted networks |
| `WifiRuns.FirewallActionMeans` | daemon/service/service_autoconnect.go:319-377 | the firewall action of a network, blocking LAN apart, from its trust and the settings alone |
| `WifiRuns.VpnActionMeans` | daemon/service/service_autoconnect.go:319-377 | the VPN action of a network, from its trust and the settings alone |
| `WifiRuns.LanAlwaysAsWanted` | daemon/service/service_autoconnect.go:158-377 | the same over every run |
| `WifiRuns.LeavingClientKeepsLan` | daemon/service/service_autoconnect.go:310-317 | after a leaving UI client LAN access is as wanted exactly unless the allowed LAN was blocked for the current network and only the client permitted that, because background actions need it under Enhanced App Authentication or by the WiFi settings |
| `WifiRuns.LanNeverLeaks` | daemon/service/service_autoconnect.go:158-187 | over all runs, leaving clients and changes of Enhanced App Authentication included, LAN traffic never passes on a network that asks for blocking it, except after the gap below; and the next check that is no duplicate makes LAN access as wanted again |
| `WifiRuns.SafeUnlessGap` | daemon/protocol/protocol_private.go:80-86 | every event keeps LAN traffic safe, if and only if it is not the gap: Enhanced App Authentication is switched off, which permits background actions without a check, while the current network was not processed or its LAN was allowed meanwhile |
| `WifiRuns.AuthenticationKeepsLan` | daemon/protocol/protocol_private.go:80-86 | after Enhanced App Authentication is switched LAN access is as wanted exactly unless it is switched on without UI client while the current network blocks the allowed LAN |
| `WifiRuns.CheckAppliesLan` | daemon/service/service_autoconnect.go:158-308 | a check that is no duplicate leaves LAN access as if it were applied from scratch to the current network |
| `WifiRuns.VetoNeedsProcessedNetwork` | daemon/service/service_autoconnect.go:196-220 | an action 'VPN off' of the network vetoes connecting on launch exactly when the network was already processed |
| `WifiRuns.NewNetworkCalls` | daemon/service/service_autoconnect.go:319-377 | on a new network, exactly which firewall and VPN calls are made, from trust, settings and connection state |
| `WifiRuns.CheckCalls` | daemon/service/service_autoconnect.go:158-308 | the same for a check for any reason, on new and on processed networks: a connection is requested if and only if there is none, its parameters are valid, and the launch, the action of a new network or an insecure new network wants it; the firewall comes first, and its parameter follows the firewall call |
| `WifiRuns.CheckRenewsLan` | daemon/service/service_autoconnect.go:247-270 | a check notes network and settings, and renews LAN access exactly when the old or the new settings may have blocked it |
| `WifiRuns.EventsAreNoticed` | daemon/service/service_wifi.go:45-75 | every event is stored before it is checked, and a check changes no setting |
| `WifiRuns.EventConnects` | daemon/service/service_autoconnect.go:97-109 | a start, a login, a connecting client or a network change requests a connection exactly when the check with that reason wants it |
| `WifiRuns.OnlyMeaningfulVpnCalls` | daemon/service/service_autoconnect.go:275-305 | VPN calls are only made when they change something |
| `WifiRuns.NoDuplicatesLeft` | daemon/service/service.go:1059-1068 | stored networks have distinct names |
| `WifiRuns.DeduplicationKeepsTrust` | daemon/service/service.go:1059-1068 | removing duplicates does not change whether a network is trusted |
| `WifiService.WifiService.AutoConnectIfRequired` | daemon/service/service_autoconnect.go:140-308 | the method makes the calls and changes of the check used in the runs above |
| `WifiService.WifiService.GetActionForWifiNetwork` | daemon/service/service_autoconnect.go:319-377 | the action is the one of the network, or of the default trust, when actions are applicable |
| `WifiService.WifiService.SetWifiSettings` | daemon/service/service.go:1051-1078 | storing new settings without duplicates, then a check |
| `WifiService.WifiService.SetKillSwitchAllowLan` | daemon/service/service.go:896-919 | the LAN setting changes, and the firewall as far as the network lets it |
| `WifiService.WifiService.RemoveDuplicates` | daemon/service/service.go:1059-1068 | the loop keeps the first entry of each name |
| `DnsRuns.OwnedUnlessGap` | daemon/service/service_dns.go:33-80 | the temporary DNS is defined exactly when one connected client owns it, after every request, if and only if the request is not a permitted change that was saved and then rejected by the VPN object |
| `DnsRuns.RunKeepsOwned` | daemon/service/service_dns.go:33-80 | the same over every sequence of requests, clients, steps of the connection and Split Tunnel settings |
| `DnsRuns.OverrideTemp` | daemon/service/service_dns.go:83-129 | a request about the temporary DNS changes nothing else, and its reply tells whether it took effect |
| `DnsRuns.SetThenClearRestores` | daemon/service/service_dns.go:159-195 | setting and clearing the temporary DNS restores the saved parameters and the effective DNS |
| `DnsRuns.SuccessIsSavedAndApplied` | daemon/service/service_dns.go:33-195 | a successful change is saved as asked, AntiTracker with a normalised block list, and an existing VPN object uses the effective DNS |
| `DnsRuns.RefusalKeepsSettings` | daemon/service/service_dns.go:38-59 | an invalid or conflicting change changes nothing |
| `DnsRuns.OverrideReplies` | daemon/service/service_dns.go:33-80 | which reply a change of the DNS gets: invalid, in conflict, unknown block list, not applied, in this order, each with its exact condition |
| `DnsRuns.ObjectionMeans` | daemon/protocol/protocol_private.go:203-214 | a client is refused if and only if it is unknown, or a temporary DNS that it does not own names a host; nothing changes then |
| `DnsRuns.ValidMeans` | daemon/service/dns/dns_settings.go:79-116 | a DNS is valid if and only if each server that names a host has a known encryption and the template it needs |
| `DnsRuns.AnyDnsMeans` | daemon/service/service.go:1152-1162 | any DNS is refused if and only if it is switched on while the settings ask for a manual DNS or AntiTracker |
| `DnsRuns.WhoIsConnected` | daemon/protocol/protocol.go:315-326 | clients come and go, and only an accepted change of the temporary DNS makes an owner |
| `DnsRuns.CallsMean` | daemon/service/service_connect.go:100-123 | a call begins without waiting settings and with those of the request; every VPN object begins without DNS |
| `DnsRuns.GapOrphans` | daemon/service/service_dns.go:73-79 | the gap that defines the temporary DNS leaves it without owner |
| `DnsRuns.GapLocksOut` | daemon/service/service_dns.go:73-79 | without owner the temporary DNS stays, and every client is refused, whatever requests follow |
| `DnsRuns.OnlyOwnerChangesDns` | daemon/protocol/protocol_private.go:203-214 | while a client owns the temporary DNS, nobody else changes it or the DNS that takes effect, and a connection that gets ready uses it; the settings below it change exactly to those of a ConnectSettings or Connect request, of the end of a call, or of a reset, which are stored without asking |
| `DnsRuns.OwnerKeepsDns` | daemon/protocol/protocol.go:888-1218 | the same for the temporary and the effective DNS, over every sequence of what others do |
| `DnsRuns.ExclusiveUnlessUnchecked` | daemon/service/service.go:1152-1162 | an Inverse Split Tunnel with any DNS excludes every DNS override after each request, if and only if the request is not one that nobody checks: any DNS is switched on under a temporary DNS, or settings with an override are stored as a whole |
| `DnsRuns.InUseUnlessOldDns` | daemon/service/service_dns.go:33-195 | with an unchanged list of servers, a ready connection uses the effective DNS after every request, if and only if the request is not one that passes its guards, stores settings with another effective DNS, and finds a VPN object that rejects a DNS, an AntiTracker without DNS, or, at a reset, is not asked to apply anything; all of it is decided by the state before the request |
| `DnsRuns.RunKeepsInUse` | daemon/service/service_dns.go:33-195 | the same over every sequence of requests without such a one |
| `DnsRuns.RejectedDnsExample` | daemon/service/service_dns.go:73-79 | one server as temporary DNS that the VPN object rejects: it is stored, and the connection goes on with its default DNS |
| `DnsRuns.ResetExample` | daemon/service/service.go:1020-1026 | a reset while a manual DNS is in use: the connection goes on with a DNS that is not in the settings any more |
| `DnsRuns.StoredSettingsArrive` | daemon/service/service.go:1032-1040 | settings received while there is a VPN object are those at the end of the call, whatever is set meanwhile, the DNS included |
| `DnsRuns.EndKeepsSettings` | daemon/service/service_connect.go:108-123 | the settings that are stored during a call survive its end if and only if no others are waiting, so settings that arrive between two VPN objects lose against older ones |
| `DnsRuns.LeavingOwnerRestores` | daemon/protocol/protocol.go:321-326 | a leaving owner restores the settings, even when the VPN object rejects the change |
| `DnsRuns.InterleavedRequestsShareOwnership` | daemon/protocol/protocol.go:920-944 | two clients that both pass the check first end with one owner or none, as the DNS is defined or not, if and only if the change stored first clears the DNS, in either order of the marks |
| `DnsRuns.LeavingBeforeStoring` | daemon/protocol/protocol.go:915-944 | a client that leaves between the check and the change leaves a DNS without owner if and only if the change defines it |
| `DnsRuns.LeavingBeforeMarking` | daemon/protocol/protocol.go:938-944 | a client that leaves between the change and the mark does so if and only if it defines the DNS and was not its owner before |
| `DnsService.DnsService.OnSetTempPrioritizedDns` | daemon/protocol/protocol.go:913-949 | the handler is the request of the runs above: the ownership flag follows a successful change only |
| `DnsService.DnsService.OnSetAlternateDns` | daemon/protocol/protocol.go:888-912 | likewise for the DNS of the user |
| `DnsService.DnsService.OnClientConnected` | daemon/protocol/protocol.go:385-386 | a connecting client owns nothing |
| `DnsService.DnsService.OnClientDisconnected` | daemon/protocol/protocol.go:315-326 | likewise for a leaving client |
| `DnsService.DnsService.SetConnectionParams` | daemon/service/service.go:1032-1049 | while there is a VPN object the settings wait, else they are stored |
| `DnsService.DnsService.BeginConnect` | daemon/service/service_connect.go:100-123 | waiting settings are forgotten and those of the request stored |
| `DnsService.DnsService.EndConnect` | daemon/service/service_connect.go:113-120 | waiting settings are stored |
| `DnsService.DnsService.InitializeDns` | daemon/service/service_connect.go:994-1000 | a connection gets ready exactly when its effective DNS is accepted |
| `DnsService.DnsService.AllowAnyDns` | daemon/service/service.go:1152-1162 | any DNS is refused exactly while the settings ask for a manual DNS or AntiTracker, whatever the temporary DNS is |
| `DnsService.DnsService.SetDnsOverride` | daemon/service/service_dns.go:33-80 | refused requests save nothing; permitted ones are saved before they are applied |
| `DnsService.DnsService.SaveDnsParams` | daemon/service/service_dns.go:83-129 | the temporary DNS is stored even when the block list is unknown |
| `DnsService.DnsService.ApplyDnsOverride` | daemon/service/service_dns.go:181-195 | the effective DNS is applied while the VPN is connected |
| `DnsService.DnsService.GetEffectiveDnsOverride` | daemon/service/service_dns.go:159-175 | temporary DNS before AntiTracker before manual DNS |
| `ProcessForest.RootIsFirstOnChain` | daemon/splittun/splittun_linux.go:425-445 | the root of a process is the one named first on the chain of its ancestors with falling parent PIDs; it is unknown exactly when nobody on the chain names one. The recursion ends on every PID map, cyclic ones included |
| `ProcessForest.RootComesFrom` | daemon/splittun/splittun_linux.go:425-445 | the root is the registered parent, else the registered process itself, else the registered assigned root of the first process on the chain that has one |
| `ProcessForest.KnownRootIsRegistered` | daemon/splittun/splittun_linux.go:425-445 | a known root is registered |
| `ProcessForest.ChildIffChainNames` | daemon/splittun/splittun_linux.go:447-462 | a process is a child exactly when some process on that chain has the parent as its parent PID or as its assigned root |
| `ProcessForest.RemovalSetMembers` | daemon/splittun/splittun_linux.go:188-206 | what is removed is the process itself and exactly the listed processes with such a chain |
| `ProcessForest.RemovalClosedUnderChildren` | daemon/splittun/splittun_linux.go:188-206 | what is removed is closed under children, for processes younger than their parent |
| `ProcessForest.TouchingIsStatic` | daemon/splittun/splittun_linux.go:425-445 | whether a chain touches a root depends on PIDs alone, not on the order of earlier assignments |
| `SplitTunnelLinux.SplitTunnel.GetRunningApps` | daemon/splittun/splittun_linux.go:291-373 | for every order of the map iterations: roots are live listed PIDs and do not grow in number; each is a surviving root with its command or the smallest unresolved process of one dead root with that root's command; every process that touches a root, or names a live one in its environment, is assigned, and only to a registered root it descends from or was started under; each process is shown once |
| `SplitTunnelLinux.SplitTunnel.ForgetDeadRoots` | daemon/splittun/splittun_linux.go:291-303 | exactly the roots that are not running are forgotten |
| `SplitTunnelLinux.SplitTunnel.AssignRoots` | daemon/splittun/splittun_linux.go:305-341 | every process touching a root is assigned; the detached ones are the smallest unresolved of their environment id |
| `SplitTunnelLinux.SplitTunnel.AssignOne` | daemon/splittun/splittun_linux.go:309-340 | one round of that loop, in any order |
| `SplitTunnelLinux.SplitTunnel.AdoptDetached` | daemon/splittun/splittun_linux.go:343-360 | each dead root gets at most one heir, with its command; the number of roots grows by at most one per dead root |
| `SplitTunnelLinux.SplitTunnel.HandOver` | daemon/splittun/splittun_linux.go:346-350 | the heir of one dead root is registered with the dead root's command |
| `SplitTunnelLinux.SplitTunnel.AssignUnresolved` | daemon/splittun/splittun_linux.go:351-359 | the second look assigns everything that now touches a root and changes no earlier assignment |
| `SplitTunnelLinux.KnownRootIsJustified` | daemon/splittun/splittun_linux.go:425-445 | a process is only assigned to a root that its chain is a child of or was started under |
| `SplitTunnelLinux.DetachedAreHeirs` | daemon/splittun/splittun_linux.go:326-335 | detached processes are no roots themselves and differ from each other |
| `SplitTunnelLinux.InheritedOneMore` | daemon/splittun/splittun_linux.go:345-350 | handing over one more dead root keeps the earlier heirs |
| `SplitTunnelLinux.RootsAreListed` | daemon/splittun/splittun_linux.go:291-350 | after the handover every root is a listed process |
| `SplitTunnelLinux.MakeResult` | daemon/splittun/splittun_linux.go:362-372 | each process once, root processes with their command |
| `SplitTunnelLinux.CollectChildren` | daemon/splittun/splittun_linux.go:188-203 | collects exactly the process and its children |
| `SplitTunnelLinux.RegisteredStaysRoot` | daemon/splittun/splittun_linux.go:161-180 | what registering a process means while it runs: at the next listing it is a root, is shown with its command, and every process with it or a child of it on its chain belongs to a root |
| `SplitTunnelLinux.RegisteredIsInherited` | daemon/splittun/splittun_linux.go:291-350 | what it means once the process has died: it is no root any more, and its command goes to the smallest of the processes that were started under it and have no other root |
| `SplitTunnelLinux.SplitTunnel.RemovePid` | daemon/splittun/splittun_linux.go:182-220 | the process and, after a listing, exactly the processes that have it on their chain as parent PID or assigned root are removed as far as the script accepts them; the call succeeds exactly if it accepts all; without a listing only the process itself is tried |
| `InverseRoutes.StaysAllOrNothing` | daemon/splittun/splittun_windows.go:326-393 | the /2 rules in the routing table are all four via the applied next hop, or none, exactly as long as no delete command that is reached fails, wherever adding fails; other routes are untouched; a failure leaves no rules unless no interface was found |
| `InverseRoutes.LeadsToGateway` | daemon/splittun/splittun_windows.go:356-380 | applied rules lead to the default gateway, or into the black hole if there is none |
| `InverseRoutes.EraseClears` | daemon/splittun/splittun_windows.go:341-352 | erasing leaves none of the rules exactly when its deletes work |
| `InverseRoutes.AddIsAllOrNothing` | daemon/splittun/splittun_windows.go:381-391 | adding with rollback leaves all rules or none exactly when the deletes of the rollback work |
| `InverseRoutes.LeftoverStays` | daemon/splittun/splittun_windows.go:341-352 | a rule that could not be deleted stays whatever is added later |
| `InverseRoutes.MasksCoverAddresses` | daemon/splittun/splittun_windows.go:332-338 | every 32-bit and 128-bit address lies in exactly one of the four networks |
| `InverseRoutes.AppliedRulesOverrideVpn` | daemon/splittun/splittun_windows.go:293-309 | with the rules applied, longest-prefix match routes every address to their next hop, past the default route and the two /1 routes of the VPN, unless a network longer than /2 contains it |
| `InverseRoutes.ErasedRulesLeaveVpn` | daemon/splittun/splittun_windows.go:293-309 | without them the two /1 routes lead every address into the VPN |
| `InverseRoutes.InverseRoutes.Apply` | daemon/splittun/splittun_windows.go:326-393 | the method is the function of the results above |
| `InverseRoutes.InverseRoutes.AddRoutes` | daemon/splittun/splittun_windows.go:381-392 | the loop stops at the first failing command and erases only what was added |
| `InverseRoutes.InverseRoutes.EraseRoutes` | daemon/splittun/splittun_windows.go:341-352 | the loop goes on after a failing command and forgets the next hop |
| `InverseRoutes.ApplyInverseSplitTunRoutingRules` | daemon/splittun/splittun_windows.go:310-324 | both families are handled even if the first fails |
| `SplitTunnelDriver.ConnectedAfterApply` | daemon/splittun/splittun_windows.go:172-273 | after success the driver is connected exactly when the disabling condition is false; after a failure it is connected exactly when the old configuration could not be cleaned; and both in terms of the state before and the answers of the devices |
| `SplitTunnelDriver.ApplySucceeds` | daemon/splittun/splittun_windows.go:172-273 | a configuration that reaches the driver succeeds if and only if the driver must be stopped or all steps of starting it work, and the rules do not fail |
| `SplitTunnelDriver.FamilyFailsMeans` | daemon/splittun/splittun_windows.go:326-393 | the rules of one family fail exactly if there is no route command or, when they are wanted, no next hop, or another next hop and an add that fails |
| `SplitTunnelDriver.StartedAsConfigured` | daemon/splittun/splittun_windows.go:224-257 | a started driver has the given applications and the addresses of its mode |
| `SplitTunnelDriver.SplitsWhenWanted` | daemon/splittun/splittun_windows.go:184-213 | after success with a working clean, the driver splits if and only if Split Tunnel is enabled, there are applications, and with VPN some address is known, without VPN the inverse mode blocks |
| `SplitTunnelDriver.AddressesOfDriver` | daemon/splittun/splittun_windows.go:184-240 | what a started driver was told, from the interface addresses, in each mode |
| `SplitTunnelDriver.FailedConfigurationStays` | daemon/splittun/splittun_windows.go:224-252 | a start that fails while the driver is configured leaves it idle, with what it was told, until a clean works |
| `SplitTunnelDriver.AddressesAreExchanged` | daemon/splittun/splittun_windows.go:226-240 | in inverse mode public and tunnel addresses are exchanged; without a public IPv6 address the tunnel address stands for both |
| `SplitTunnelDriver.RulesAfterApply` | daemon/splittun/splittun_windows.go:203-270 | when deletes work, both families have their rules exactly after success in inverse mode with the VPN up, and neither has in any other case, failures included |
| `SplitTunnelDriver.BlockedWithoutVpn` | daemon/splittun/splittun_windows.go:172-273 | in inverse mode without VPN and without permission for the default connection, the driver afterwards does not split or has the black-hole addresses, whatever fails, if and only if the old configuration is cleaned away or was harmless, or, with Split Tunnel enabled and no applications, the final clean works and the route command of a family is missing; after success it splits exactly if it should or the clean of a splitting driver failed |
| `SplitTunnelDriver.RunBlocksWithoutVpn` | daemon/splittun/splittun_windows.go:172-273 | with working cleans, the same after every sequence of configurations that ends with such a one |
| `SplitTunnelDriver.ApplyKeepsRunningConnected` | daemon/splittun/splittun_windows.go:172-273 | the driver splits only while it is connected, after every configuration, if and only if it is not one of two cases, decided by the state before and the answers of the devices: a splitting driver is stopped and its clean fails, with no second clean that works; or a started driver is given up, because its running applications or the rules fail, and its clean fails |
| `SplitTunnelDriver.FailedCleanKeepsSplitting` | daemon/splittun/splittun_windows.go:205-270 | when a splitting driver is stopped and the rules do not fail, the call succeeds, and the driver keeps splitting, though disconnected, if and only if its clean fails |
| `SplitTunnelDriver.Driver.Apply` | daemon/splittun/splittun_windows.go:172-273 | the method is the function of the results above |
| `SplitTunnelDriver.Driver.Switch` | daemon/splittun/splittun_windows.go:205-260 | stopping the driver, or swapping the addresses and starting it |
| `SplitTunnelDriver.Driver.ConnectAndStart` | daemon/splittun/splittun_windows.go:215-257 | connect, clean, configure, start, and give up after a failure of the last two |
| `SplitTunnelDriver.Driver.Renew` | daemon/splittun/splittun_windows.go:262-270 | renewing the rules, and giving up when that fails |
| `SplitTunnelDriver.Driver.Connect` | daemon/splittun/splittun_windows.go:416-454 | the flag is set exactly after a working call |
| `SplitTunnelDriver.Driver.Disconnect` | daemon/splittun/splittun_windows.go:456-481 | the flag is cleared whatever the driver answers |
| `AppListCodec.RoundTrip` | daemon/splittun/splittun_windows.go:598-644 | for every list of NUL-free paths, parsing the written buffer gives the list back, and the size in the header is the buffer's length, if and only if the buffer is shorter than 2^32 bytes |
| `AppListCodec.Injective` | daemon/splittun/splittun_windows.go:598-644 | different lists have different buffers |
| `AppListCodec.ReadsWhatWasWritten` | daemon/splittun/splittun_windows.go:721-737 | the reading loop undoes the writing loop |
| `AppListCodec.WordRoundTrip` | daemon/splittun/splittun_windows.go:626-627 | four little-endian bytes hold a number modulo 2^32 |
| `AppListCodec.UnitsRoundTrip` | daemon/splittun/splittun_windows.go:621-623 | two little-endian bytes per UTF-16 unit are read back |
| `AppListCodec.NulFreeIsWhole` | daemon/splittun/splittun_windows.go:736 | cutting a string at its first NUL changes only strings with one |
| `AppListCodec.MakeRawBuffAppsConfig` | daemon/splittun/splittun_windows.go:598-644 | the loop writes the buffer, or panics exactly when a path contains a NUL |
| `AppListCodec.ParseRawBuffAppsConfig` | daemon/splittun/splittun_windows.go:695-740 | the loop reads as the specification does, with its errors for short buffers, wrong sizes and wrapped offsets |
| `AppListCodec.ParseErrors` | daemon/splittun/splittun_windows.go:695-740 | which buffer is rejected with which error, the position that wraps to 32 bits included |
| `AppListCodec.ReadFailsIffShort` | daemon/splittun/splittun_windows.go:721-737 | the strings cannot be read if and only if a size or a unit is missing |
| `PingTracker.Conservation` | daemon/ping/ping.go:453-503 | in every run with fresh UUIDs: sent = received + in flight; sent = 65536 (UUIDs - 1) + next number; numbers fit the 16-bit field of an echo message (RFC 792, Echo or Echo Reply Message); no pair of UUID and number is received twice; received <= sent <= Count when Count is positive |
| `PingTracker.StepKeepsInv` | daemon/ping/ping.go:453-503 | every step keeps the bookkeeping: what was sent is either in flight or received |
| `PingTracker.StartHasInv` | daemon/ping/ping.go:88-112 | the bookkeeping holds when the loop begins |
| `PingTracker.ReusedUuidCountsTwice` | daemon/ping/ping.go:759-764 | at every rollover of a run: with the new UUID a request can come to count as received twice if and only if the UUID was used before and one of its received numbers is sent again before the count is used up |
| `PingTracker.CountsTwiceIffSentAgain` | daemon/ping/ping.go:678-769 | in every such state, with fresh UUIDs from then on, a request can come to count twice if and only if the loop goes on and a received pair is still to be sent |
| `PingTracker.SendKeepsAccounted` | daemon/ping/ping.go:702-769 | a request that is sent is a new one and in flight, rollover included |
| `PingTracker.ReceiveKeepsInv` | daemon/ping/ping.go:678-688 | a counted reply was in flight and is not any more |
| `PingTracker.CountedWhenFirst` | daemon/ping/ping.go:678-688 | an accepted reply counts as received exactly when its request was sent and not received yet, else as a duplicate |
| `PingTracker.OnlyRepliesCount` | daemon/ping/ping.go:631-700 | a message changes something if and only if it is a complete echo reply with the identifier and a UUID of this pinger |
| `PingTracker.StartMeans` | daemon/ping/ping.go:453-470 | the loop begins with one request in flight; if that cannot be sent it does not go on |
| `PingTracker.EndsWhenAllReceived` | daemon/ping/ping.go:499-501 | the loop ends by itself only when all Count requests were sent and received and none is in flight |
| `PingTracker.RolloverConserves` | daemon/ping/ping.go:759-764 | at a rollover conservation survives exactly if the new UUID has nothing in flight |
| `Pinger.Pinger.RunLoop` | daemon/ping/ping.go:453-503 | the loop is the run of the results above, and its statistics are those of the recorded round-trip times |
| `Pinger.Pinger.SendICMP` | daemon/ping/ping.go:702-769 | sending changes the bookkeeping as specified and leaves the statistics |
| `Pinger.Pinger.ProcessPacket` | daemon/ping/ping.go:631-700 | a reply changes the bookkeeping as specified, and is recorded exactly when it counts as received |
| `Pinger.Pinger.UpdateStatistics` | daemon/ping/ping.go:278-304 | the fields are updated in 64-bit arithmetic |
| `PingStatistics.MeanError` | daemon/ping/ping.go:298-299 | after n packets, n times the mean is within n(n-1)/2 of the sum, although every division truncates |
| `PingStatistics.DeviationError` | daemon/ping/ping.go:298-301 | the recurrence with its truncated means is within range n(n-1)/2 of the true sum of squared deviations from the mean, where range is the spread of the values |
| `PingStatistics.MeanIsBetween` | daemon/ping/ping.go:287-301 | minimum <= mean <= maximum, and the sum of squared deviations is never negative |
| `PingStatistics.ExtremesAreAttained` | daemon/ping/ping.go:287-293 | minimum and maximum are those of the packets, with zero for the maximum |
| `PingStatistics.DeviationGrows` | daemon/ping/ping.go:300-301 | the sum of squared deviations never decreases, so its square root is defined |
| `PingStatistics.UpdateMovesTowards` | daemon/ping/ping.go:298-299 | the mean moves towards the new value and not past it |
| `PingStatistics.OnlyDeviationWraps` | daemon/ping/ping.go:295-301 | in 64 bits everything is exact except the sum of squared deviations, which is exact if and only if it is below 2^63 |
| `PingStatistics.ExactInSmallRange` | daemon/ping/ping.go:295-301 | n packets whose round-trip times lie between two bounds, with (n - 1) times the squared distance of the bounds below 2^63, are counted exactly |
| `PingStatistics.OverflowExample` | daemon/ping/ping.go:301 | two packets of five and zero seconds make it negative |
| `PingTimestamp.NanosecondsRoundTrip` | daemon/ping/ping.go:794-813 | every int64 count of nanoseconds, negative ones included, is decoded from its bytes |
| `PingTimestamp.TimeRoundTrip` | daemon/ping/ping.go:794-813 | a moment is decoded from its bytes exactly if its nanoseconds fit an int64 |
| `PingTimestamp.BytesRoundTrip` | daemon/ping/ping.go:794-813 | every eight bytes are the stamp of exactly one moment |
| `PingTimestamp.UnixRoundsDown` | daemon/ping/ping.go:799 | truncating division and normalisation together round down, also before 1970 |
| `PingTimestamp.UnixNormalises` | daemon/ping/ping.go:799 | any numbers of seconds and nanoseconds make the moment that is their sum, within a second |
| `PingTimestamp.TimeToBytes` | daemon/ping/ping.go:806-813 | the shifting loop writes the bytes in two's complement, the highest first |
| `PingTimestamp.BytesToTime` | daemon/ping/ping.go:794-800 | the shifting loop reads them, wrapping to 64 bits at each step |
| `PortTest.AtMostOneTest` | daemon/service/service_conntest.go:57-76 | in every interleaving of callers at most one test runs |
| `PortTest.ReusedResult` | daemon/service/service_conntest.go:62-68 | a reused result is complete exactly if its test did not panic, and was computed for the same set of ports if the tested list had no duplicates |
| `PortTest.ResultIsOutcome` | daemon/service/service_conntest.go:70-81 | over every run, the ports and the result of a test are those of the caller that began and finished it |
| `PortTest.DecideMeans` | daemon/service/service_conntest.go:62-73 | a caller with the lock reuses the test it waited for if and only if there was one whose list is as long as its own and holds nothing else; else it begins a test for its own ports |
| `PortTest.AnswersMean` | daemon/service/service_conntest.go:47-85 | over every run, a caller waits for the test that it saw announced, reuses that one, and else returns the outcome of its own test |
| `PortTest.PanicEnds` | daemon/service/service_conntest.go:59-60 | a panic ends the call and releases the lock |
| `PortTest.AnnouncedOnlyAfterPanic` | daemon/service/service_conntest.go:70-81 | a test is announced only while it is in progress or after it panicked |
| `PortTest.PanicIsReused` | daemon/service/service_conntest.go:59-81 | after a panic the next caller takes the missing result exactly if its ports equal those of the test |
| `PortTest.StepKeepsInv` | daemon/service/service_conntest.go:47-85 | every step of every caller keeps the locks and the shared results consistent |
| `PortTest.RunKeepsInv` | daemon/service/service_conntest.go:47-85 | the same over every interleaving |
| `PortTest.EqualIffSameSet` | daemon/service/service_conntest.go:197-211 | for lists without duplicates the comparison decides equality of sets, by the pigeonhole principle |
| `PortTest.RightIffDistinct` | daemon/service/service_conntest.go:197-211 | the comparison with a tested list is right for all lists if and only if the tested list has no duplicates |
| `PortTest.ArePortsEqual` | daemon/service/service_conntest.go:197-211 | the loops decide: equal lengths, and everything of the second list in the first |
| `ConnectionTest.ConnectionTest.TakeResultOrAnnounce` | daemon/service/service_conntest.go:62-73 | the section that reuses a result or announces a test is the step of the results above; what it reuses is as stated there |
| `ConnectionTest.ConnectionTest.SaveResult` | daemon/service/service_conntest.go:76-79 | the result is filled into the object the waiting calls refer to |
| `ConnectionTest.ConnectionTest.Unlock` | daemon/service/service_conntest.go:80-84 | the announcement is taken back before the lock is released |
| `ConnectionTest.ConnectionTest.UnlockInPanic` | daemon/service/service_conntest.go:60 | a panic releases the lock and leaves the announcement |
| `ConnectionTest.ConnectionTest.Enter` | daemon/service/service_conntest.go:48-54 | a call looks at the announced test when it enters |
| `ConnectionTest.ConnectionTest.Lock` | daemon/service/service_conntest.go:59-60 | one call at a time gets the lock |

## Left out

- Sockets, JSON, TLS, API requests, the command line and the user interface: transport and output.
- VPN, V2Ray and obfsproxy processes, key exchange and hashing: devices that work or fail.
- The insides of firewall and DNS packages: their effect on the modelled state is a parameter or a contract.
- Shared fields are read and written in atomic steps: data races of the Go memory model are not part of this model.
- KillSwitch and KillSwitchRuns: operations of the service run one after the other; only pausing routines, connection requests and port tests are interleaved.
- ConnectionRuns.DisconnectLostIffEscapes: resuming a paused VPN object before it is told to stop is not modelled here; a notification of CONNECTED on its way when the object is told to stop counts as having come before.
- KeepConnection.Run: what the VPN and the users do during the loop is a script of any length; ending the script stands for the loop going on.
- AutoResume.NeverResumedEarly: the clock never goes backwards.
- WifiRuns.LanAlwaysAsWanted: logging in or out between checks is not modelled; every change of the network is delivered before other steps.
- DnsRuns.RunKeepsOwned: in a run the requests are handled one at a time; what interleaved ones do is stated for two requests, and for a client that leaves during its own. The VPN object accepts a DNS or not; what it remembers of a rejected one is not modelled.
- DnsRuns.StoredSettingsArrive: of the connection settings only the DNS part is modelled, with one bit for whether they are defined.
- SplitTunnelLinux.SplitTunnel.GetRunningApps: the listing of /proc is an input with positive PIDs; its parsing is not modelled.
- SplitTunnelLinux.SplitTunnel.RemovePid: the script calls are a set of PIDs that it accepts.
- InverseRoutes.AppliedRulesOverrideVpn: metrics and interfaces of routes are not modelled, networks are compared by prefix alone.
- SplitTunnelDriver.ConnectedAfterApply: a failing device call changes nothing in the device except what it had done before.
- AppListCodec.RoundTrip: paths are given as UTF-16 units, so the conversion from and to Go strings is not modelled; the parser is a comment in the source. The platform integer has 64 bits.
- PingTracker.Conservation: UUIDs are numbers supplied from outside; retrying on full buffers and the reply channel are not modelled.
- PingStatistics.OnlyDeviationWraps: the square root itself, in floating point, is not modelled; round-trip times are not negative here.
- Pinger.Pinger.RunLoop: round-trip times are always recorded, as a new pinger is set up to do.
- PortTest.ReusedResult: what a test does to find accessible ports is its outcome.
- Ordering hosts by ping times, choosing random servers and estimating distances: floating point without a promise.
- Detecting route changes and V2Ray routes: decided by the operating system.
- Stopping the daemon, logging, tips, help texts and launchers.
