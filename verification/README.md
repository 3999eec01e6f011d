# IT Platform: what its hardest parts promise

Models, in Dafny, of the parts of the IT Platform whose correctness is about all inputs
and whole runs, and proofs of what those parts are there for. `dafny verify dfyconfig.toml`
checks everything. Outside systems (Asterisk, Postgres, the VPN service, Docker, the file
system, browsers) are abstract state; every call to one is a step that may fail, may be
done with its answer lost, or, where it matters, may be where the process dies.

- **Phones** (`Pbx`, `ConfText`, `PhoneFiles`, `Dialplan`, `Asterisk`, `Calls`,
  `DialplanLoads`, `DialplanMeaning`, `DialplanClosed`, `DialplanText`, `Render`,
  `CallerView`). The
  generator of Asterisk's three files, as a compiler: its output as text, a reader of that
  text, a loader, and an interpreter for the applications it emits. A call through the
  bytes of the generated file ends and does what the settings say.
- **Audit log** (`AuditChain`, `AuditWriters`). The hash chain, its verifier, any number of
  writers at once, and pruning.
- **VPN account** (`Netbird`, `OfficePorts`, `RulePolicies`, `GatewaySync`, `OfficeSync`,
  `AccessPolicy`, `Gateway`). Bringing an account from any state to the wanted one, one
  call at a time, with what holds at every call.
- **Modules** (`Modules`, `ModuleUpdate`). Install, enable, disable, uninstall, and update
  with rollback; what happens to files, catalog, records and secrets.
- **Chat** (`ChatDelivery`, `Chat`, `Hub`). One page and one thread against the server's
  rows, pushes and queues; which thread a message belongs to; the hub's connections.
- **Smaller algorithms**: nil lists (`EmptyLists`), merged logs (`StableSort`,
  `MergedLogs`), sliding windows (`SlidingWindow`, `SendLimit`, `LoginLimit`), failed phone
  sign-ins (`FailureTracker`), migrations (`Migrations`), the calendar's users file
  (`UsersFile`). `Text` holds strings as the Go code uses them, `Options` a value that may be
  missing.

Methods that change state are classes or take the account they change; their contracts give
the new state as a function or relation of the old one, and the lemmas are about those
functions and relations over all runs. A call's outcome is a nondeterministic choice or a
parameter, so a contract holds for every pattern of failures; where an operation may fail, its
contract also says that it fails only if something outside did, counted in a ghost field or
named by the parameter.

## Where the code and what it says differ

Each is stated as an exact condition or shown by a run in the table below.

- The audit log's separator is not rejected in the fields it separates: rows with it are
  ambiguous (`AuditChain.UniqueIffMiddleFree`). Stamps are taken before the lock, so pruning
  can leave a gap (`AuditWriters.PruneIffContiguous`, `AuditWriters.OvertakenThenPruned`).
- An address range of the office network is kept for its address alone, in whatever groups
  it is (`OfficeSync.RangeReachedIff`).
- An `office-network` route with an empty network matches the missing entry of the wanted
  routes and is kept (`GatewaySync.SyncRoutes`).
- Of two policies with one wanted name only one is replaced (`RulePolicies.ExactIff`,
  `RulePolicies.StaleTwin`).
- An existing "approved devices" policy is trusted by its name
  (`AccessPolicy.StayJoinedIff`, `AccessPolicy.WrongGroupCutsOff`).
- A failed read of an install row counts as no row, and a failed install's empty row hides
  the archive (`Modules.InstallKeepsIff`, `Modules.LostAfterFailedRead`,
  `Modules.LostAfterFailedReinstall`).
- After an update's failed or empty catalog reload the new files stay, and after a rollback
  whose own reload fails the catalog stays new (`ModuleUpdate.ApplyBundle`).
- Chat pushes of two senders may leave in another order than their ids, a connection is
  accepted before it is registered, and an empty thread is never backfilled. What a
  reconnect then brings back, and what only a reload does, is exactly
  `ChatDelivery.ReconnectIff` and `ChatDelivery.LostIff`. Lost for good:
  `ChatDelivery.LatePushIsLost`, `ChatDelivery.EmptyThreadIsLost`,
  `ChatDelivery.BehindBlockIsLost`; late until the next reconnect, or lost if another
  message comes before it: `ChatDelivery.RegisteredLateIsLate`,
  `ChatDelivery.ReloadedWhilePagingIsLate`.
- The error of reading the schema version mark is ignored (`Migrations.MarkFallsIff`).
- The comment above the incoming context says any dialed number is taken; a single digit or
  a name is not (`DialplanMeaning.OutsideCalls`).
- A phone address is forgotten an hour after its last log line, which may be as little as
  fifty minutes after its last attempt where the code's comment says an hour of quiet
  (`FailureTracker.ForgottenAfterQuiet`, `FailureTracker.ForgottenBeforeAnHourOfQuiet`).
- Arrays are not looked into when nil lists are replaced (`EmptyLists.NoNilLeftIff`).

## Model

| member | source | states |
|---|---|---|
| `ConfText.ReadsAsMeant` | modules/voip/service/internal/pbx/pbx.go:8-11 | A file written from lines whose values passed the checks, read back by Asterisk's rules (comments cut at `;`, blanks trimmed, sections and templates, `=` and `=>`), gives exactly the sections and settings that were meant, in order: no value breaks out of its line |
| `Dialplan.LiveDials` | modules/voip/service/internal/pbx/pbx.go:327-336 | The dial string of a menu key is its targets that exist, in order; the first of them is known when it is the only one |
| `Dialplan.RenderKey` | modules/voip/service/internal/pbx/pbx.go:326-348 | A key is written exactly when it is a digit 1 to 9 with a target that exists |
| `Dialplan.RenderMenu` | modules/voip/service/internal/pbx/pbx.go:316-361 | The menu context's lines, and none when the menu is off, has no greeting or no key to offer |
| `Dialplan.RenderInternal` | modules/voip/service/internal/pbx/pbx.go:193-250 | The lines of the phones' own context for every combination of menu, recorder and outside line |
| `Dialplan.RenderRing` | modules/voip/service/internal/pbx/pbx.go:255-271 | The main group's lines: every extension in the group dialed together, no Dial at all for an empty group |
| `Dialplan.RenderDialplan` | modules/voip/service/internal/pbx/pbx.go:188-278 | The whole of extensions.conf as the sequence of lines that the meaning theorems are about |
| `PhoneFiles.RenderPJSIP` | modules/voip/service/internal/pbx/pbx.go:115-186 | pjsip.conf as lines: three sections for each phone and five for the outside line when there is one |
| `PhoneFiles.RenderVoicemail` | modules/voip/service/internal/pbx/pbx.go:280-290 | voicemail.conf as lines: the shared mailbox and one for each phone |
| `PhoneFiles.PjsipReadsAsMeant` | modules/voip/service/internal/pbx/pbx.go:115-186 | For valid extensions and settings, reading the text of pjsip.conf gives exactly the settings meant for each section |
| `PhoneFiles.VoicemailReadsAsMeant` | modules/voip/service/internal/pbx/pbx.go:280-290 | The same for voicemail.conf |
| `PhoneFiles.EndpointsAreThePhones` | modules/voip/service/internal/pbx/pbx.go:96-145 | The endpoints pjsip.conf defines are the extensions, each with the LAN-only rule, and the trunk without it exactly when there is an outside line |
| `PhoneFiles.BoxesAreThePhones` | modules/voip/service/internal/pbx/pbx.go:283-288 | voicemail.conf defines the mailboxes 0 and the extensions, in order, in the context `default` that the dial plan names, and none in any other |
| `PhoneFiles.PjsipParts` | modules/voip/service/internal/pbx/pbx.go:115-186 | pjsip.conf section by section, each setting with its name and value: what a phone may dial, its login and registration, and the provider's |
| `PhoneFiles.LoginsAre` | modules/voip/service/internal/pbx/pbx.go:137-140 | One can log in as a section exactly with an extension's number and that extension's password, the provider's own account apart |
| `PhoneFiles.VoicemailParts` | modules/voip/service/internal/pbx/pbx.go:280-290 | voicemail.conf is one section with a box for the main number and one for each extension with its name |
| `Render.RenderFiles` | modules/voip/service/internal/pbx/pbx.go:85-92 | The three file names and their contents, with the trunk used only when it is on and has a host and a user |
| `DialplanLoads.LoadsAsDescribed` | modules/voip/service/internal/pbx/pbx.go:188-278 | Loading the generated lines the way Asterisk does gives exactly the described contexts, each with its extensions, priorities and labels |
| `DialplanText.AppReads` | modules/voip/service/internal/pbx/pbx.go:195-275 | Every generated application call, written as text and parsed back by a reader that takes nothing it does not understand to the last character (channel technology, offset and length of the compared part, mailbox context, options, labels), is the call that was meant |
| `DialplanText.LineReads` | modules/voip/service/internal/pbx/pbx.go:195-275 | So is every generated line, its priority 1, n or n(label) included |
| `DialplanText.TextLoads` | modules/voip/service/internal/pbx/pbx.go:188-278 | For valid settings, the bytes of extensions.conf, so read, load as the lines the generator meant |
| `DialplanMeaning.OutsideCalls` | modules/voip/service/internal/pbx/pbx.go:252-278 | Whatever an outside caller presses, keeps silent, and whoever answers or not, the loaded program ends and does what the settings say: menu or main group, and exactly the dialed numbers described are taken |
| `DialplanMeaning.PhoneCalls` | modules/voip/service/internal/pbx/pbx.go:193-250 | The same for every string an office phone may dial: own extension, 0, the star codes, the outside line, and nothing for anything else |
| `DialplanMeaning.MenuRuns` | modules/voip/service/internal/pbx/pbx.go:352-360 | From the announcement on, the looping menu ends after at most one more try and then rings the main group |
| `DialplanMeaning.KeyRuns` | modules/voip/service/internal/pbx/pbx.go:337-348 | A key rings its live targets together for 25 seconds, then leaves the caller at the only target's own mailbox, or at the shared one for a group |
| `DialplanMeaning.RingRuns` | modules/voip/service/internal/pbx/pbx.go:267-271 | The main group is rung for 30 seconds if it has members, then the shared mailbox |
| `DialplanMeaning.OutsideRuns` | modules/voip/service/internal/pbx/pbx.go:235-249 | An outside call is put through with the caller id set, unless it is international and these are off: then it is refused with an announcement |
| `DialplanMeaning.RecorderRuns` | modules/voip/service/internal/pbx/pbx.go:219-234 | Only the recorder's own endpoint gets to record the greeting |
| `DialplanClosed.EverythingResolves` | modules/voip/service/internal/pbx/pbx.go:115-290 | In every context, every Goto and GotoIf has its context, extension and label, every Dial an endpoint of pjsip.conf, and every mailbox is in the context `default` of voicemail.conf |
| `DialplanClosed.NothingAmbiguous` | modules/voip/service/internal/pbx/pbx.go:193-250 | No dialed string matches two extensions of the phones' context |
| `DialplanClosed.MenuIsBounded` | modules/voip/service/internal/pbx/pbx.go:352-360 | In every call the announcement is played at most twice |
| `DialplanClosed.OutsideLineOnlyWhenAllowed` | modules/voip/service/internal/pbx/pbx.go:235-249 | An outside call is made exactly when the trunk is on, the number has the shape of one and, unless international calls are allowed, starts with neither 00 nor 011; then it is that number, with the caller id set |
| `Render.GeneratedFileServesOutsideCalls` | modules/voip/service/internal/pbx/pbx.go:85-92 | From settings through the bytes of the file to the call: an outside call does what the settings say |
| `Render.GeneratedFileServesPhones` | modules/voip/service/internal/pbx/pbx.go:85-92 | And so does a call from an office phone |
| `CallerView.OutsideCallRings` | modules/voip/service/internal/pbx/pbx.go:252-278 | Through the bytes of the file, and told without the generator's own pieces: where no menu can be offered, an outside call rings for 30 seconds exactly the numbers of the extensions in the main group, in their order, then the shared mailbox; with nobody in the group, the mailbox at once |
| `CallerView.OutsideCallGets` | modules/voip/service/internal/pbx/pbx.go:261-271 | There is a menu exactly when it is on, has a greeting, and some option is a digit 1 to 9 with a target that is an extension's number; a caller is then answered and hears the greeting, and else rings the group as above |
| `CallerView.KeyPressed` | modules/voip/service/internal/pbx/pbx.go:326-348 | Key 0 rings the group; any other the first option for that digit with a target that exists: those of its targets that exist, in their order, for 25 seconds, then the only one's own mailbox or, for several, the shared one; a key without such an option is a miss |
| `CallerView.PhoneDialGets` | modules/voip/service/internal/pbx/pbx.go:205-234 | A phone dialing 0 rings the group, *50 gets the menu exactly when there is one, and *99 the recording exactly when a number of two to five digits from 1 to 8 on is named, for that phone alone |
| `CallerView.OutsideNumberGets` | modules/voip/service/internal/pbx/pbx.go:86-249 | 9 and an outside number is taken exactly when the outside line is on and has a host and a user name, and put through for 60 seconds unless calls abroad are off and it starts with 00 or 011 |
| `CallerView.OnePositions` | modules/voip/service/internal/pbx/pbx.go:255-260 | Exactly the extensions wanted, in the order of the settings: only one list is that |
| `AuditChain.HashedTextInjective` | backend/internal/audit/audit.go:48-57 | Two rows with the same hashed text are the same, whatever one of them holds, if the other meets the condition below |
| `AuditChain.UniqueIffMiddleFree` | backend/internal/audit/audit.go:48-57 | After a previous hash without the separator, a row is the only one with its hashed text if and only if none of its five middle fields holds the separator and no piece of its detail but the last reads as a status; the code checks neither, and a second row is given in every other case |
| `AuditChain.Verify` | backend/internal/audit/audit.go:203-231 | OK exactly for intact chains, with all rows checked; otherwise the first row that does not fit, and Missing exactly when its link is what breaks |
| `AuditChain.TamperEvident` | backend/internal/audit/audit.go:201-231 | Any table that verifies and whose newest row carries the hash of an honest row is, ids apart, exactly the honest rows up to that one, as many as it has; or two different texts share a digest |
| `AuditChain.BothEndsKnown` | backend/internal/audit/audit.go:201-231 | With the first row's empty link and the newest hash known it is the whole honest history |
| `AuditChain.CutUnseen` | backend/internal/audit/audit.go:201-203 | Cutting off newest or oldest rows goes unseen |
| `AuditChain.IdsUnseen` | backend/internal/audit/audit.go:46-57 | So does changing ids, which are not hashed |
| `AuditWriters.CommittedRowSays` | backend/internal/audit/audit.go:73-107 | However writers interleave, each commit adds one row, which says what that writer was handed when it began: kind, action, address and status as they were, the time of that moment, and actor, target and detail whole up to 200, 300 and 500 characters and cut there beyond |
| `AuditWriters.EveryRowHasOrigin` | backend/internal/audit/audit.go:73-107 | And no row of the log says anything else, whatever is pruned |
| `AuditWriters.AuditLog.Record` | backend/internal/audit/audit.go:73-107 | One row more, linked to the newest, with its own id and saying what the entry says as above; nothing when the transaction fails; the chain is kept |
| `AuditWriters.AuditLog.Prune` | backend/internal/audit/audit.go:233-238 | Exactly the rows older than the cutoff go |
| `AuditWriters.PruneKeepsChain` | backend/internal/audit/audit.go:233-238 | Pruning without a gap keeps the chain |
| `AuditWriters.PruneIffContiguous` | backend/internal/audit/audit.go:233-238 | Pruning a stretch of honest history keeps it verifiable if and only if no removed row has a kept one on both sides, unless a digest collides |
| `AuditWriters.EveryInterleavingVerifies` | backend/internal/audit/audit.go:73-100 | However any number of writers interleave their steps, fail and retry, the log verifies, as long as each prune is safe when it happens |
| `AuditWriters.IdsFollowTheChain` | backend/internal/audit/audit.go:82-97 | Ids rise along the chain in every such run |
| `AuditWriters.TimeOrderIsSafe` | backend/internal/audit/audit.go:74-97 | Every run whose log is in time order whenever it is pruned verifies at its end |
| `AuditWriters.RunsAreHonest` | backend/internal/audit/audit.go:73-100 | What any interleaving of writers leaves is an honest history, so the tamper theorems apply to it |
| `AuditWriters.OvertakenThenPruned` | backend/internal/audit/audit.go:74-84 | The time order is needed, for the stamp is taken before the lock: in this run of two writers the log verifies, and after a prune takes the middle row it does not |
| `OfficePorts.ParseOfficePorts` | backend/internal/api/officeports.go:20-66 | A list parses if and only if it is blank or each trimmed piece is an item; its rules then admit exactly the flows some item names (everything for a blank list); otherwise the first bad item is reported |
| `OfficePorts.CaseIgnored` | backend/internal/api/officeports.go:31-33 | Capitals read as the small letters, and everything else as itself |
| `OfficePorts.ReadsIff` | backend/internal/api/officeports.go:14-45 | The pattern and the bounds accept exactly the written items, each with one reading |
| `RulePolicies.SetRulePolicies` | backend/internal/netbird/client.go:497-541 | At every call only policies under the prefix change, each to one of the wanted; a finished run leaves exactly the state that follows from the order in which the policies were listed |
| `RulePolicies.NothingBack` | backend/internal/netbird/client.go:497-541 | A policy that is written goes by the prefix and the rule's number, and lets nothing through the other way |
| `RulePolicies.DeletePoliciesWithPrefix` | backend/internal/netbird/client.go:543-558 | It succeeds exactly when no call fails. Exactly the policies under the prefix and not to be kept go; a failed run removes no other |
| `RulePolicies.BetweenAdmits` | backend/internal/netbird/client.go:497-541 | At no call is anything let through that neither the old policies nor the new rules let through |
| `RulePolicies.FinalAdmits` | backend/internal/netbird/client.go:497-541 | That state lets a flow through if and only if the rules do, or a policy that shares a wanted name and was not the last listed did before |
| `RulePolicies.ExactIff` | backend/internal/netbird/client.go:497-541 | Whatever the order of the listing, exactly the rules are in force afterwards: that is so if and only if no policy that shares its wanted name with another lets through more than the rules |
| `RulePolicies.SettledAdmits` | backend/internal/netbird/client.go:497-541 | With unique names the policies left let a flow through if and only if the rules do |
| `RulePolicies.StaleTwin` | backend/internal/netbird/client.go:508-511 | A finished run that leaves an old policy in force: two policies of one name, the other listed last |
| `GatewaySync.SyncRoutes` | backend/internal/api/gateway.go:138-164 | A finished run leaves exactly one wanted internal-services route and no other of ours, if and only if there was no matching office-network route with an empty network, and in any case none a next run would touch; foreign routes are never touched; on routes of ours that all look wanted, one for each name, nothing is called |
| `GatewaySync.ClearRoutes` | backend/internal/api/gateway.go:138-155 | Of our routes only one wanted route for a name is left |
| `OfficeSync.ClearRouters` | backend/internal/api/gateway.go:234-247 | Every router but one through the gateway goes; a single right one is left alone |
| `OfficeSync.ClearResources` | backend/internal/api/gateway.go:254-267 | The same for the address range |
| `OfficeSync.SyncOffice` | backend/internal/api/gateway.go:183-275 | At every call foreign networks, groups, policies, routes and peers are unchanged, a right network is not touched, and every address range is one from before or in the office-lan group; a finished run has the network with one router and one range, or none when off, and policies that let through exactly what the list says, the range being one from before with that address if there was any and otherwise a new one in the group the policies lead to; a bad list changes nothing |
| `OfficeSync.RangeReachedIff` | backend/internal/api/gateway.go:254-275 | The range a finished run leaves is in the group the policies lead to if and only if those of the office network with its address were, all or none of them |
| `Gateway.GatewayPeer` | backend/internal/api/gateway.go:277-289 | The peer with the gateway's host name; an error exactly when the listing fails or there is none |
| `Gateway.SyncGatewayRoutes` | backend/internal/api/gateway.go:106-166 | It succeeds if and only if every call and listing does, a peer has the host name and the list of ports, where the office network is on, is good. At every call foreign objects are unchanged and enrolled devices stay connected; a finished run has everything as wanted, and leaves every account right that had one peer of the host name, one approved group and no office route without a network; where routes and network are already settled for the peer and group it picks, a run creates and deletes no route, network, router or address range |
| `Gateway.DoneByName` | backend/internal/api/gateway.go:106-166 | What a finished sync leaves, by the names themselves: one route internal-services to 10.201.28.2/32 through that peer for that group and no office-network one, the network office with one router and one range or none, no policy Default, the group vpn-approved, and office access policies for exactly the listed ports to the group office-lan |
| `Gateway.OthersStay` | backend/internal/api/gateway.go:106-166 | And what no call of it touches: every policy, group, network and route of another name, and every peer |
| `Gateway.SyncUntilDone` | backend/internal/api/gateway.go:76-83 | With such a peer and list it gives up only after ten failed calls. Through up to ten failing runs the same holds, and when one succeeds the result is that of a single run from the first state, for routes, office and access policy, and the peer is the gateway |
| `Gateway.SyncTwice` | backend/internal/api/gateway.go:76-105 | Convergence: from any account, after any failures and one success, another sync with the same settings creates and deletes no route, network, router or address range at any of its calls, unless it picks another peer of the host name or another approved group; with one of each it cannot, and all stays right |
| `AccessPolicy.EnsureAccessPolicy` | backend/internal/api/vpn.go:190-238 | It succeeds exactly when no call fails. At every call all enrolled peers stay joined by the Default or the approved policy, under the stated assumption; a finished run leaves the group, its policy and no Default policy it found |
| `AccessPolicy.EnrolledStayConnected` | backend/internal/api/vpn.go:186-189 | So at every call every two peers enrolled at the start can reach each other |
| `AccessPolicy.OnlyApprovedReach` | backend/internal/api/vpn.go:181-189 | From an account with one Default policy at most and an approved policy, if any, for the approved group: afterwards Default is gone and by these policies only members of the approved group reach each other |
| `AccessPolicy.EnrolledAreApproved` | backend/internal/api/vpn.go:228-236 | Every peer enrolled under a Default policy is then such a member |
| `AccessPolicy.StillReachIff` | backend/internal/api/vpn.go:205-235 | After a run that found the Default policy, two enrolled peers reach each other if and only if there was no "approved devices" policy before, or some other policy that was there lets them once everybody is in the approved group |
| `AccessPolicy.StayJoinedIff` | backend/internal/api/vpn.go:205-235 | And all enrolled peers stay joined by one policy if and only if there was no "approved devices" policy, or one of those there connects them once everybody is in that group |
| `AccessPolicy.OwnFormConnectsIff` | backend/internal/netbird/client.go:253-271 | For a policy of the form the platform makes that is: it is for the approved group, or for a group that has everybody already |
| `AccessPolicy.WrongGroupCutsOff` | backend/internal/api/vpn.go:214-227 | The assumption is needed: an "approved devices" policy for another group makes a finished run cut off two enrolled peers |
| `Modules.ResolvedAt` | backend/internal/modules/lifecycle.go:508-528 | Exactly the schema's fields are settled: what is handed in non-blank as it is, everything else to its default or a new secret, the last of fields with one key deciding |
| `Modules.NewSecretResolved` | backend/internal/modules/lifecycle.go:508-520 | A secret without value or default gets a new random one |
| `Modules.InstalledHas` | backend/internal/modules/lifecycle.go:490-574 | After an install that goes through: running, and each field of the schema the same in the containers' settings and in the row, namely what was handed in non-blank, else stored non-blank, else its default or a new secret; stored values outside the schema stay in the row and are not handed to the containers |
| `Modules.FixedValues` | backend/internal/modules/lifecycle.go:490-507 | The six values the platform gives every module, the database's and the host's address exactly when asked for, and no other key outside the schema |
| `Modules.StatusAfter` | backend/internal/modules/lifecycle.go:408-691 | The status every operation leaves, for each outcome of its calls |
| `Modules.StepKeepsIff` | backend/internal/modules/lifecycle.go:408-691 | A secret on record, and in the running containers' settings, is kept by a step if and only if the step is careful: every enable, disable, update and uninstall is, whatever in it fails |
| `Modules.InstallKeepsIff` | backend/internal/modules/lifecycle.go:442-574 | An install, with either read working or not, any values handed in, any schema and any failure, keeps the secret if and only if it leaves no row without it in front of the archive and whatever value it gets as far as writing (handed in, else found, else fresh) is the one on record |
| `Modules.RunKeeps` | backend/internal/modules/lifecycle.go:442-463 | Hence by every run of enables, disables, updates kept or rolled back, uninstalls and careful installs |
| `Modules.BlankInstallKeepsIff` | backend/internal/modules/lifecycle.go:442-470 | With both reads working and the field left blank that is: there is a row, or nothing was recorded, or the install succeeds with the field in its schema |
| `Modules.LostAfterFailedReinstall` | backend/internal/modules/lifecycle.go:465-470 | After an uninstall, a failed install's empty row hides the archive, and the next install makes a new secret |
| `Modules.LostAfterFailedRead` | backend/internal/modules/lifecycle.go:445-448 | A failed read of the row is taken for a missing row, and unless the archive happens to have the field an install then overwrites the secret on record |
| `ModuleUpdate.Manager.DoInstall` | backend/internal/modules/lifecycle.go:490-574 | The new row, .env and outcome for every point of failure; stored values outside the schema stay |
| `ModuleUpdate.AnswerIs` | backend/internal/modules/lifecycle.go:418-441 | Which of the refusals an install gets: an unknown module, one without a compose file, a line break in a value, an operation under way, in this order |
| `ModuleUpdate.Manager.Install` | backend/internal/modules/lifecycle.go:418-487 | An unknown module, one without a compose file, a value with a line break and a module with an operation under way are refused, in this order, and change nothing; otherwise the state after an install, from the reads of earlier values to the end of its background run, for every outcome of every call |
| `ModuleUpdate.Manager.Uninstall` | backend/internal/modules/lifecycle.go:653-691 | Refused while an operation is under way; otherwise the row goes to the archive before it is deleted, for every point of failure |
| `ModuleUpdate.UnpackedAt` | backend/internal/modules/bundle.go:20-77 | After unpacking each path holds the bundle's last entry for it, and every other path what it held |
| `ModuleUpdate.Manager.Extract` | backend/internal/modules/bundle.go:20-77 | Unpacking finishes exactly when every write works and no entry names a place outside the directory; it then overlays the bundle; a failed one changes no path the bundle does not name |
| `ModuleUpdate.InsideIff` | backend/internal/modules/bundle.go:38-52 | That is, no entry's path but the directory's own starts with a slash or two dots |
| `ModuleUpdate.Manager.Reload` | backend/internal/modules/registry.go:35-62 | An error exactly for a broken manifest here or elsewhere, which leaves the catalog; else the catalog is the manifest of the files on disk |
| `ModuleUpdate.CopyDir` | backend/internal/modules/update_safe.go:135-165 | A copy that meets no error overlays exactly the regular files |
| `ModuleUpdate.Manager.RestoreFiles` | backend/internal/modules/update_safe.go:104-107 | Unless one of its two ignored errors happens, exactly the copied files are there |
| `ModuleUpdate.WaitHealthy` | backend/internal/modules/health.go:47-73 | Whatever the checks find until the time is up: yes exactly when four in a row are good, and at the first such four |
| `ModuleUpdate.ApplyBundle` | backend/internal/modules/update_safe.go:34-102 | For everything that may go well or not outside, which of its fourteen returns it takes, and for each: which files are in the directory, what the catalog says, what was started with which values and recorded, and which snapshot was taken |
| `ModuleUpdate.InstalledIsProtected` | backend/internal/modules/update_safe.go:41-65 | A module whose row says running, stopped, installing or error: nothing in its directory changes before the snapshot of the whole database (where it needs one), the volumes' copies and the files' copy are made; it is never just fetched; the new version is kept only started and healthy; and otherwise, ignored errors and unreadable new files apart, its regular files are as they were |
| `ModuleUpdate.RunStatuses` | backend/internal/modules/lifecycle.go:408-691 | Every run of operations leaves a row with one of these four statuses, or none |
| `ModuleUpdate.UpdatesIff` | backend/internal/modules/update_safe.go:34-83 | Such a module is updated if and only if the copies are made, the bundle unpacks and reads as a module, and the new version starts and gets healthy |
| `ModuleUpdate.RollsBackIff` | backend/internal/modules/update_safe.go:84-101 | And rolled back to a healthy old version if and only if the new one fails after that and the old files are read, start and get healthy |
| `ModuleUpdate.FetchesIff` | backend/internal/modules/update_safe.go:60-74 | A module nobody installed is fetched if and only if its bundle unpacks and reads as a module |
| `ModuleUpdate.UpdateKeepsSecrets` | backend/internal/modules/update_safe.go:77-101 | However an update ends, a recorded secret stays on record and no container is started with another |
| `ChatDelivery.ThreadStaysComplete` | frontend/src/stores/chat.ts:75-144 | In every run under the stated conditions a loaded thread never holds an id twice, holds every id from its oldest loaded one whenever the page is connected and quiet, and the whole thread when it says there is no more |
| `ChatDelivery.StepKeeps` | frontend/src/stores/chat.ts:75-144 | Every single step (insert, push, register, open, deliver, answer, finish, disconnect, reload, asking for an older page and its answer) keeps the invariant this rests on |
| `ChatDelivery.LatestHas` | modules/chat/service/internal/api/messages.go:202-206 | The last page is the newest ids, all of them when there are fewer than fifty |
| `ChatDelivery.OlderHas` | modules/chat/service/internal/api/messages.go:197-201 | A page back is the newest ids before the given one, and a short page means there is nothing older |
| `ChatDelivery.NewerHas` | modules/chat/service/internal/api/messages.go:193-196 | A backfill answer is every newer id when there are at most five hundred |
| `ChatDelivery.AddedAllHas` | frontend/src/stores/chat.ts:134-144 | Rows added one by one leave no duplicate and lose none |
| `ChatDelivery.ReconnectIff` | frontend/src/stores/chat.ts:113-125 | A page that was away has a message after its next reconnect, or has it still to come, if and only if it was to come already, or it is newer than the last one in the list and fewer than five hundred stand between |
| `ChatDelivery.LostIff` | frontend/src/stores/chat.ts:115-125 | A message that a quiet page misses is lost, so that no run of newer inserts, pushes in any order, losses, reconnects and older pages brings it, if and only if the list is empty, or ends with a newer one, or has five hundred in a row between its end and the message; otherwise reconnecting brings it |
| `ChatDelivery.OvertakenIsLost` | frontend/src/stores/chat.ts:115-144 | The same for a page that is not quiet: a message is lost once it is not on its way and every backfill that is, or may start, falls short of it |
| `ChatDelivery.NextOvertakes` | frontend/src/stores/chat.ts:134-144 | A message that a quiet page misses is lost as soon as the next one comes |
| `ChatDelivery.ReloadBringsAll` | frontend/src/stores/chat.ts:75-80 | But a reload leaves nothing missing, from the oldest message it loads on |
| `ChatDelivery.LatePushIsLost` | modules/chat/service/internal/api/messages.go:158-164 | Completeness does fail: pushes out of id order and a reconnect leave a message lost for good |
| `ChatDelivery.EmptyThreadIsLost` | frontend/src/stores/chat.ts:115-117 | So does a thread that was empty when loaded: what came while away is lost for good, and the page says it has the whole thread |
| `ChatDelivery.BehindBlockIsLost` | modules/chat/service/internal/api/messages.go:193-196 | So does a slow backfill whose row ends up behind five hundred newer ones: one dropped push after it is lost for good |
| `ChatDelivery.RegisteredLateIsLate` | modules/chat/service/internal/hub/hub.go:202-212 | A connection the page sees before the hub does leaves a quiet page without a message, which is late and not lost: the next reconnect brings it, unless one more message comes first |
| `ChatDelivery.ReloadedMeanwhileIsDoubled` | frontend/src/stores/chat.ts:75-80 | And history reloaded in the middle of a long backfill puts ids in twice |
| `ChatDelivery.ReloadedWhilePagingIsLate` | frontend/src/stores/chat.ts:85-95 | History reloaded while an older page is on its way: the page goes in front of the list from before the reload, and a message pushed since is out of it again, late in the same way |
| `Chat.KeyRoundTrip` | frontend/src/stores/chat.ts:13-15 | A thread's key gives back its kind and name, whatever the name holds |
| `Chat.KeyAgrees` | frontend/src/stores/chat.ts:17-25 | For everything that concerns a person, the page files a message under a thread's key if and only if the server's query for that thread returns it |
| `Chat.ChatStore.AddMessage` | frontend/src/stores/chat.ts:134-144 | A known id is refused, a new one goes at the end, an unopened thread stays unopened, other threads are untouched |
| `Chat.ChatStore.FetchOlder` | frontend/src/stores/chat.ts:85-95 | The page goes in front of the list object held when it was asked for: the thread with all that was pushed onto it since, or, after a reload in between, what the list was before that; other threads are untouched |
| `Chat.ChatStore.Backfill` | frontend/src/stores/chat.ts:113-125 | All rows end up in their own thread as by adding them one by one, and no other thread changes |
| `Chat.ChatStore.OnMessage` | frontend/src/stores/chat.ts:286-300 | Added to its thread unless known, and counted as unread unless known, one's own, or being looked at |
| `Chat.ChatStore.OnUpdated` | frontend/src/stores/chat.ts:301-312 | Exactly the first message of that id is replaced, where it stands; no id moves |
| `Hub.Hub.Register` | modules/chat/service/internal/hub/hub.go:169-178 | One new connection with an empty queue |
| `Hub.Hub.Unregister` | modules/chat/service/internal/hub/hub.go:182-192 | Only that connection goes, and it was the last exactly when the user has none left |
| `Hub.Hub.SendTo` | modules/chat/service/internal/hub/hub.go:133-148 | Each connection is offered the event once for each time its user is named, and nobody else; what is queued stays in front; a full queue only drops its own |
| `Hub.OfferedTimesIs` | modules/chat/service/internal/hub/hub.go:133-178 | A queue takes an event as often as it is offered until it holds thirty-two, behind what it holds |
| `Hub.TimesSplit` | modules/chat/service/internal/hub/hub.go:133-148 | How often that is: once for each place in the list where the user is named |
| `Hub.Hub.Broadcast` | modules/chat/service/internal/hub/hub.go:152-167 | Once to every connection |
| `Hub.Hub.Online` | modules/chat/service/internal/hub/hub.go:112-120 | Exactly the users with a connection |
| `EmptyLists.Fix` | backend/internal/api/emptylists.go:23-75 | The copying, looping form is the recursive one the theorems are about |
| `EmptyLists.ScanType` | backend/internal/api/emptylists.go:77-93 | The field scan finds a type in need of fixing exactly when there is one |
| `EmptyLists.Fixed` | backend/internal/api/emptylists.go:20-75 | The result has the same type, no nil list in an exported position outside arrays and byte slices, and is otherwise the same value |
| `EmptyLists.OnlyFixed` | backend/internal/api/emptylists.go:20-75 | Those three properties determine it: any such value is the result |
| `EmptyLists.NoNilLeftIff` | backend/internal/api/emptylists.go:20-75 | The result holds no nil list anywhere, arrays included, if and only if the exported arrays of the value hold none |
| `EmptyLists.ArrayKeepsNil` | backend/internal/api/emptylists.go:26-75 | An array with a nil list in it stays as it is |
| `EmptyLists.NoFixNoNil` | backend/internal/api/emptylists.go:32-34 | A type that needs no fix holds no nil list, which justifies every skip |
| `EmptyLists.SkipIsIdentity` | backend/internal/api/emptylists.go:77-93 | All its values stay as they are |
| `EmptyLists.UnchangedIff` | backend/internal/api/emptylists.go:20-75 | A value stays as it is if and only if it holds no nil list |
| `EmptyLists.Idempotent` | backend/internal/api/emptylists.go:20-75 | Fixing twice is fixing once |
| `StableSort.SortedIsStable` | backend/internal/docker/logs.go:52 | The sort is in order and keeps the order of lines with one stamp |
| `StableSort.StableSortIsSorted` | backend/internal/docker/logs.go:52 | Nothing else does: any stable sort gives this result |
| `StableSort.StampOrder` | backend/internal/docker/logs.go:51-52 | Stamps of one layout with fixed widths sort as text in time order (section 5.1 of RFC 3339) |
| `MergedLogs.TailsSuffice` | backend/internal/docker/logs.go:28-55 | Taking each container's last n lines first, then merging and keeping the last n, gives the last n of everything, for any number of containers and any ties |
| `MergedLogs.OrderIsNeeded` | backend/internal/docker/logs.go:33 | Without time order inside a container it does not |
| `MergedLogs.LogsOf` | backend/internal/docker/logs.go:28-61 | An error exactly when one container's logs cannot be read; otherwise the printed tail of the stable sort of all lines read |
| `MergedLogs.ReadPrintedText` | backend/internal/docker/logs.go:43-49 | Lines read back from a container's output are the lines printed, tagged, blank ones included |
| `MergedLogs.PageShowsLatest` | backend/internal/docker/logs.go:28-61 | From the containers to the page: the last n lines of all of them together |
| `MergedLogs.PageText` | backend/internal/docker/logs.go:30-60 | The text itself, line by line: for containers whose logs are in time order, the last n lines of all of them together, oldest first, lines of one stamp in the order of the containers, each as its stamp, the container's name in brackets and its text, and a line end after each |
| `SlidingWindow.Window.Prune` | modules/chat/service/internal/api/limits.go:41-46 | The in-place compaction leaves exactly the recent times, in order, in the same buffer |
| `SlidingWindow.Window.Append` | modules/chat/service/internal/api/limits.go:51 | One time more, in the buffer or in a larger copy |
| `SendLimit.RateLimiter.Allow` | modules/chat/service/internal/api/limits.go:38-53 | The user's times and the answer; no other user's times change |
| `SendLimit.HeldIsRecent` | modules/chat/service/internal/api/limits.go:38-53 | The compacted list is always the recent part of the full history of allowed calls |
| `SendLimit.AtMostTwenty` | modules/chat/service/internal/api/limits.go:14-18 | With a clock that does not go back, at most twenty calls are allowed in every ten seconds |
| `SendLimit.RefusedIffFull` | modules/chat/service/internal/api/limits.go:47-50 | A call is refused if and only if twenty allowed ones lie in the ten seconds before it, and otherwise counts among the allowed from then on |
| `LoginLimit.Limiter.Allowed` | backend/internal/ratelimit/ratelimit.go:28-34 | The answer and the cleaned list; other keys unchanged |
| `LoginLimit.Limiter.RecordFailure` | backend/internal/ratelimit/ratelimit.go:37-41 | One failure more after cleaning; other keys unchanged |
| `LoginLimit.Limiter.Reset` | backend/internal/ratelimit/ratelimit.go:46-50 | Nothing is left for the key; other keys unchanged |
| `LoginLimit.CountsSinceReset` | backend/internal/ratelimit/ratelimit.go:25-63 | After any run the answer is the one from the full history: the failures since the last reset inside the window |
| `FailureTracker.Tracker.Note` | modules/voip/service/internal/api/security.go:44-87 | The tracker's new state and the line, for every event |
| `FailureTracker.LinesTenMinutesApart` | modules/voip/service/internal/api/security.go:78-81 | Over any run with a clock that does not go back, two lines for one address are at least ten minutes apart |
| `FailureTracker.CountedIffNotRepeated` | modules/voip/service/internal/api/security.go:56-66 | A failure is counted if and only if none from the same address and port was counted in the ten seconds before |
| `FailureTracker.LineIff` | modules/voip/service/internal/api/security.go:67-97 | A counted failure is written about if and only if nothing was about its address in the ten minutes before; the line names the third part of the remote address, the account tried and the reason |
| `FailureTracker.CountInLine` | modules/voip/service/internal/api/security.go:67-86 | The count in a line is the number of attempts counted for the address since it was last forgotten |
| `FailureTracker.ForgottenAfterQuiet` | modules/voip/service/internal/api/security.go:67-81 | In every run an address is forgotten by the first failure counted from anywhere after more than an hour without a counted attempt of its own, and by none within fifty minutes of one |
| `FailureTracker.ForgottenBeforeAnHourOfQuiet` | modules/voip/service/internal/api/security.go:67-78 | In between it may be: of attempts at 0, 599 and 3601 seconds all are counted, and the line for the third says it is the first, for the hour is that since the last line |
| `Migrations.Database.Migrate` | backend/internal/db/db.go:35-131 | Whatever fails and wherever it crashes, a start does a beginning of what it has to do (a snapshot of what it found, if it found some files applied and some not; then each missing file, in order; then the mark), and the database and the snapshots on disk are exactly what those steps make of them; it succeeds if and only if every step and query does, but for the reading of the mark, and that mark is not newer, and then all of it was done |
| `Migrations.Database.ApplyAll` | backend/internal/db/db.go:93-125 | The missing ones of some first files are run, in order, each recorded with it, and nothing else changes |
| `Migrations.RunOnceInOrder` | backend/internal/db/db.go:28-34 | After any number of starts of any versions and crashes, exactly a beginning of the files has been run, each once and in order |
| `Migrations.SnapshotFirst` | backend/internal/db/db.go:85-91 | A start that runs a file on a database with files applied has, as its very first step, saved that database exactly as it found it |
| `Migrations.OlderRunsNothing` | backend/internal/db/db.go:67-71 | A version older than the mark runs nothing, and changes nothing when it can read the mark |
| `Migrations.MarkFallsIff` | backend/internal/db/db.go:67-71 | The mark goes down if and only if an older version cannot read it and does its whole plan: that read's error is ignored |
| `Migrations.FailedReadLowersMark` | backend/internal/db/db.go:67-71 | Such a start, written out |
| `Migrations.MarkedWhenDone` | backend/internal/db/db.go:127-129 | The mark is written only when every file the version knows is recorded |
| `UsersFile.ParseUsers` | backend/internal/radicalefs/sync.go:55-69 | The line by line reading is the map the round trip is about |
| `UsersFile.FormatUsers` | backend/internal/radicalefs/sync.go:71-77 | Every account once, in some order of the map |
| `UsersFile.ParsedIsPlain` | backend/internal/radicalefs/sync.go:55-69 | Whatever the file holds, the names and hashes read from it are plain |
| `UsersFile.RoundTripIff` | backend/internal/radicalefs/sync.go:53-77 | Written in any order and read back, a map is the same if and only if every name is free of colon, newline and leading blank and every hash free of newline and trailing blank |

## Left out

- ValidName: lets every character past ASCII through, where the code asks for a letter or a number; the theorems hold for the larger set.
- HashedTextInjective: the digest itself is an arbitrary function, and theorems end in "or two different texts share a digest"; texts are clipped by characters, not by bytes, so a letter cut in half is not modelled.
- AuditChain.Verify: database errors while reading rows, which end it without a verdict.
- ParseOfficePorts: letters past ASCII other than the dotted capital I are left as they are when turned into small letters, which changes no answer; the error texts are not modelled.
- SyncGatewayRoutes: looking up the VPN's client and the settings before it starts, with no VPN meaning nothing to do; the two-factor setting in between, whose failure is only logged; devices that enroll or leave during a run; other administrators changing the account at the same time.
- SyncOffice: names, descriptions and metrics of new objects.
- ApplyBundle: the tars of data volumes beyond succeeding or not; directories without files; which of several errors is reported; users saving between the snapshot and the restart.
- Modules.RunKeeps: two operations on one module at once; each is refused while the in-flight mark is set, and is one step here.
- ThreadStaysComplete: one thread of one page; other threads and other events count only as a push that may be dropped. Loading history is one step, asking for an older page and its answer are two, and one older page is on its way at a time.
- LostIff: runs in which an older message is committed after the newer one was missed, or a backfill is still on its way when the next connection starts another.
- MergedLogs.LogsOf: how stdout and stderr of one container come together, and the name lookup's fallback to the container's id.
- Fix: copying as such (that no list is shared with the input), since values have no identity here; types that contain themselves.
- RateLimiter.Allow and Limiter.Allowed: the mutex; each call is one step.
- Migrations.RunOnceInOrder: two starts at the same time, and a feature module recording a file of the same name in the shared table.
- DialplanMeaning.OutsideCalls: a caller hanging up while a recording plays ends the call at the next wait; Asterisk beyond the applications the generator emits.
- Writing the generated files (temporary file and rename), HTTP handlers, sessions, password hashing, certificates and the clients of outside services.
- Text masking, search, the user interface, backups' schedule and health history: nothing to prove over all inputs, or easy members only.
