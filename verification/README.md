# Petitboot, modelled and proved in Dafny

Petitboot's discovery daemon is a single-threaded event system on top of a hierarchical,
reference-counted allocator. This project models its hard parts in Dafny and proves what
they keep over every run, input or interleaving. `dafny verify dfyconfig.toml` checks it all.

| files | part of the program |
|---|---|
| `TallocForest`, `TallocHeap`, `TallocMemory`, `TallocFree`, `TallocSurvivors`, `Talloc` | the allocator: raw sibling, parent and reference links, the ownership forest they represent, and what a free leaves behind |
| `GrubEnv`, `GrubEnvBlock`, `GrubEnvSave` | the GRUB environment block: the in-place edit, the loader, and saving as an update of the loaded variables |
| `Boot` | a boot task, its asynchronous loads, and cancelling |
| `Waiter` | the event loop, whose callbacks change the set being walked |
| `Autoboot`, `Notify`, `DeviceHandler` | default selection and countdown; messages to any number of clients; devices, options and the resolve queue |
| `GrubArgv`, `GrubScript`, `GrubScriptLaws` | word splitting and expansion; the script interpreter and its default options; what each construct of a script means |
| `Wire`, `ProtocolConfig`, `ProtocolSystemInfo` | the wire protocol: exact lengths and round trips |
| `Common` | definitions the others share |
| `Fold`, `Url`, `Params` | text folding, URLs, and the network and boot device parameters |

How the models are built:

- Code that updates state in place is a class or a method with loops; each is proved
  against a specification (a forest edit, a map update, a big-step meaning, a reference
  definition without rewinding, a byte sequence), and the laws are proved of that.
- What the program cannot control is a parameter: the address malloc returns, a destructor's
  refusal, which load finishes when and how, what a callback registers and removes, which
  write to a client fails, what an unknown command does to the environment, the clock.
- A failed `assert` of the source is an outcome (`ok` is false), and the contract says exactly when.

Where the code departs from the obvious claim, the project says exactly when the claim holds:

- `TallocForest.MoveAcyclicIff`: re-parenting keeps ownership and reference acyclic exactly when
  the chunk does not already reach its new owner.
- `TallocSurvivors.SurvivesIff`: what survives a free is exactly what is still held from outside the
  freed part, provided no destructor refuses and the null context holds no reference into that part.
  A reference of the null context does not protect a grandchild (`TallocSurvivors.NullHolderTwoDown`
  for all such heaps, `Talloc.NullReferenceLost` for one).
- `GrubEnvSave.SavedIff`: a saved variable is loaded back exactly when no later line of the block
  defines it differently, because saving rewrites the first entry and loading keeps the last
  (`GrubEnvSave.DuplicateShadowsSave`).
- `Boot.BootTask.FreedExactlyIfAtMostOne`: a cancelled task is freed exactly when at most one load
  was in flight at the cancel (`Boot.TwoInFlightLeak`).
- `Waiter.WaitSet.Poll`: the assertion in `waiter_remove` holds exactly when every callback removes
  registered waiters only, and a one-shot waiter's callback does not remove that waiter.
- `Autoboot.ManualBootLosesTimer`: a manual boot during a countdown leaves a stale timer behind,
  so the countdown claims are about runs without one (`calm`).
- `Fold.EndsIff`: folding comes to an end by itself exactly when no character of the text is wider than a line.
- `Autoboot.OrderEnablesIff`: a configured order enables a device exactly if one of its first 252 entries matches;
  behind those the position is out of the range of priorities.
- `Notify.RemovedDeviceStays`: a client that connects while a device is tracked but not yet announced gets it twice,
  and keeps one of the two after its removal; `Notify.RemovalForgets` says exactly when a removal is forgotten.
- `Notify.AnnouncedIff` and `Notify.NewcomerInformedIff`: a message over 64 KiB is never sent and the client
  stays connected, so a client's assertion holds exactly when the announcements of its devices fit
  (`Notify.OversizedOptionBreaksClient` is a run in which it fails).
- `GrubScript.FixedDefault`: a script that sets `default` to a numeral before its first menu entry and then leaves
  it alone has exactly one default option (`GrubScript.DefaultIndex` for every menu behind `set default=K`);
  one that changes it between menu entries can have several (`GrubScript.MovingDefault`).
- `GrubScript.UnparsableTwice`: sourcing a file that cannot be parsed frees the statements that are running, so
  the second time they are freed twice.
- `ProtocolConfig.TempLengthIff`: the announced length of a temporary override is exact for device
  types only; for a UUID it is four bytes short.
- `Url.UrlBackIff`: a printed URL is parsed back exactly when its path does not disturb the search
  for the port. `Params.ArrivesIff` and `Params.LegibleIff` say the same of interfaces and boot devices.

Two more places where code and its comments or intent differ, modelled as the code is: a finished
load is reported as an error status (discover/boot.c:388-393), so `BootStart` allows a running boot
that has reported one; and the receiver of system information does not count the link flag of an
interface (lib/pb-protocol/pb-protocol.c:1134-1135), so its later checks are loose.

## Model

| member | source | states |
|---|---|---|
| `TallocHeap.ListAdd` | lib/talloc/talloc.c:134-146 | adding at the head of a doubly linked list gives the list with the new element in front, and touches no other list |
| `TallocHeap.ListRemove` | lib/talloc/talloc.c:148-158 | removing an element leaves exactly the list without it, well linked |
| `TallocHeap.ChainedIff` | lib/talloc/talloc.c:134-158 | a list reached step by step from its head is the same as one whose neighbours all point at each other |
| `TallocHeap.ParentChunk` | lib/talloc/talloc.c:164-169 | walking back to the list head and reading its parent finds the unique owner of any sibling |
| `TallocHeap.UnlinkSibling` | lib/talloc/talloc.c:570-580 | unlinking a child keeps the rule that only list heads carry a parent |
| `TallocHeap.LinkChild` | lib/talloc/talloc.c:705-711 | linking a child at the head moves the parent pointer to it and keeps all other lists |
| `TallocMemory.DetachChunk` | lib/talloc/talloc.c:678-706 | the links then represent the forest with the chunk detached |
| `TallocMemory.AttachChunk` | lib/talloc/talloc.c:707-711 | the links then represent the forest with the chunk under its new owner |
| `TallocMemory.ReferChunk` | lib/talloc/talloc.c:272-283 | a handle on the reference list represents one more reference edge |
| `TallocMemory.UnreferChunk` | lib/talloc/talloc.c:243-254 | taking a handle off the list removes exactly that edge |
| `TallocForest.MoveAcyclicIff` | lib/talloc/talloc.c:664-714 | a new owner keeps ownership and reference acyclic if and only if the chunk does not reach it |
| `Talloc.Heap.Alloc` | lib/talloc/talloc.c:180-217 | a chunk appears under its context unless it is too large or malloc fails, and the heap stays a forest |
| `Talloc.Heap.SetUserDestructor` | lib/talloc/talloc.c:226-230 | the chunk gets or loses a destructor of the program; nothing else changes |
| `Talloc.Heap.Steal` | lib/talloc/talloc.c:664-714 | only the parent entry among the owners of the chunk changes; stealing from itself changes nothing |
| `Talloc.StolenOwners` | lib/talloc/talloc.c:664-714 | the multiset of owners after a steal: the old parent replaced by the new one, nobody else's owners changed |
| `Talloc.Heap.Reference` | lib/talloc/talloc.c:265-284 | the context becomes one more owner of the chunk, and nobody else's owners change; the handle is the newest reference |
| `Talloc.Heap.Unreference` | lib/talloc/talloc.c:291-312 | exactly the newest handle held by the context goes, if there is one |
| `TallocFree.HandleOfOwners` | lib/talloc/talloc.c:291-312 | there is a handle to give up exactly if the context is an owner by reference; giving it up takes the context out once |
| `Talloc.Heap.Unlink` | lib/talloc/talloc.c:318-366 | exactly one occurrence of the context leaves the owners of the chunk and nobody else's owners change; exactly when it was the only one a free is attempted, which succeeds exactly if the destructor agrees |
| `Talloc.Heap.Promote` | lib/talloc/talloc.c:352-363 | the holder of the newest reference becomes the parent; the old parent leaves the owners once, and nobody else's owners change |
| `TallocFree.PromoteFits` | lib/talloc/talloc.c:352-363 | promoting a holder cannot close a cycle |
| `Talloc.Heap.DestroyReference` | lib/talloc/talloc.c:243-254 | destroying a handle frees the handle and nothing else |
| `Talloc.Heap.RunDestructor` | lib/talloc/talloc.c:555-566 | the free goes on exactly if the destructor is not running already and agrees; a refused or re-entered free changes nothing |
| `Talloc.Heap.Free` | lib/talloc/talloc.c:540-584 | terminates; a referenced chunk loses its newest reference and stays; otherwise it is freed exactly if its destructor agrees, and then a chunk below it goes only if its owner and all its holders go; a chunk whose destructor always refuses stays |
| `Talloc.Heap.FreeChildren` | lib/talloc/talloc.c:498-530 | terminates with no child left; a child that went had lost every owner, and one that stayed was handed to a reference holder or to the grandparent |
| `TallocFree.HandOverShrinks` | lib/talloc/talloc.c:516-527 | each turn of the child loop loses a chunk or shortens the list of children |
| `TallocFree.HeirFits` | lib/talloc/talloc.c:509-527 | whoever takes over a child ranks below it, so re-parenting builds no cycle |
| `Talloc.Heap.FreePointer` | lib/talloc/talloc.c:540-584 | an unreferenced chunk is freed exactly if its destructor agrees; only the subtree can go; a sealed subtree whose destructors all agree goes entirely; whatever is held from outside, or always refuses, survives, and without refusals and null holders nothing else does |
| `TallocFree.FreedWhole` | lib/talloc/talloc.c:498-584 | freeing a subtree nothing outside refers into removes exactly the subtree |
| `TallocSurvivors.SurvivesIff` | lib/talloc/talloc.c:498-584 | if no destructor refuses and the null context holds no reference into the subtree, a chunk survives if and only if it is outside, or owned by or referenced from something that is itself held |
| `TallocSurvivors.HeldWhole` | lib/talloc/talloc.c:498-530 | a held chunk survives with everything under it, owned by its old owner, a living holder, or, if it refused or the null context held it, the owner of what was freed |
| `TallocSurvivors.OutsideHolder` | lib/talloc/talloc.c:508-527 | one reference from a chunk outside the subtree is enough to be held |
| `TallocSurvivors.NullHolderLoses` | lib/talloc/talloc.c:508-527 | the only reference to a chunk being the null context's, the chunk goes with its owner, however deep it lies below the children of what is freed |
| `TallocSurvivors.NullHolderTwoDown` | lib/talloc/talloc.c:517-522 | a reference of the null context to a grandchild does not save it: it moves up to the freed chunk, whose own loop frees it |
| `Talloc.NullReferenceLost` | lib/talloc/talloc.c:498-584 | the same through the operations themselves: three nested chunks, the innermost referenced by the null context, and freeing the outermost loses it |
| `TallocFree.OwnersDropHandle` | lib/talloc/talloc.c:291-312 | dropping a handle takes its holder out of the owners once |
| `TallocFree.OwnersReferred` | lib/talloc/talloc.c:265-284 | a new handle adds its holder to the owners of its target once |
| `GrubEnv.ParseBufToEnv` | discover/grub2/env.c:18-54 | without the signature nothing is loaded; otherwise the lines define variables in order |
| `GrubEnv.EntryIff` | discover/grub2/env.c:36-50 | a line is an entry if and only if it is a name, the separator and a value, and no comment |
| `GrubEnv.FindPlace` | discover/grub2/env.c:118-165 | the scan finds the first entry for the name, else the last line without separator, else the end |
| `GrubEnv.UpdateEnv` | discover/grub2/env.c:97-205 | the buffer becomes the edited one of the same length, or no byte changes |
| `GrubEnvBlock.UpdateIsReplacement` | discover/grub2/env.c:97-205 | on a block of whole lines and padding the edit fails exactly if the entry does not fit, and otherwise replaces or appends one line and keeps the form |
| `GrubEnvSave.LoadBlock` | discover/grub2/env.c:18-54 | loading a well-formed block is loading its lines |
| `GrubEnvSave.SavedIff` | discover/grub2/env.c:97-205 | the loader returns the old variables with only the saved one changed if and only if no later line defines it otherwise |
| `GrubEnvSave.DuplicateShadowsSave` | discover/grub2/env.c:159-163 | with two entries for the name a save has no effect on what is loaded |
| `GrubEnvSave.SaveEnv` | discover/grub2/env.c:257-268 | the file becomes the result of one update after the other |
| `GrubEnvSave.SaveAllMeans` | discover/grub2/env.c:257-268 | saving several variables keeps the form and loads as the fold of the successful updates |
| `GrubEnvSave.SaveThenLoad` | discover/grub2/env.c:18-54 | the same on the bytes of the file |
| `Boot.BootTask.CleanupCancellations` | discover/boot.c:416-449 | every other load in flight is cancelled; the task is freed exactly if no other load is still cancelled |
| `Boot.BootTask.BootProcess` | discover/boot.c:469-517 | kexec is loaded exactly if not cancelled, all loads are good and the preboot check passes |
| `Boot.BootTask.StartUrlLoad` | discover/boot.c:519-535 | a local file's callback runs before its result is recorded and never starts kexec |
| `Boot.BootTask.ProcessExit` | discover/paths.c:105-144 | a cancelled load stays cancelled; the last good load starts kexec |
| `Boot.BootTask.Boot` | discover/boot.c:659-707 | the caller gets the task exactly if every load could be started; kexec runs at once exactly if all were local |
| `Boot.BootTask.Stop` | discover/boot.c:696-717 | the loads in flight are remembered as cancelled and the task is freed if there were none |
| `Boot.BootTask.Run` | discover/boot.c:469-717 | in every interleaving kexec is loaded at most once, never after a cancel, and a freed task stays freed |
| `Boot.BootTask.FreedExactlyIfAtMostOne` | discover/boot.c:440-448 | once all downloads have exited, a cancelled task is freed if and only if at most one was in flight at the cancel |
| `Boot.BootTask.NotFreedInFlight` | discover/boot.c:416-449 | a task is never freed while a download may still call back |
| `Boot.TwoInFlightLeak` | discover/paths.c:120-121 | two downloads in flight at the cancel: the task is never freed |
| `Waiter.WaitSet.New` | lib/waiter/waiter.c:61-120 | a new waiter is active, registered last, and alive |
| `Waiter.WaitSet.Remove` | lib/waiter/waiter.c:122-143 | exactly the registered waiter leaves the array, the others stay in order, and it is the next to be freed; the assertion fails exactly if it is not registered |
| `Waiter.WaitSet.UpdateWaiters` | lib/waiter/waiter.c:145-202 | the snapshots hold the waiters of each kind in order, with their files, and the next timeout is the earliest |
| `Waiter.WaitSet.Dispatch` | lib/waiter/waiter.c:234-263 | one callback and its removal; the assertion holds exactly if the callback behaves |
| `Waiter.WaitSet.PollTimers` | lib/waiter/waiter.c:251-263 | every due timer leaves the set; one that was not called was removed by another callback |
| `Waiter.WaitSet.FreeRemoved` | lib/waiter/waiter.c:267-271 | each removed waiter is freed once and nothing else is |
| `Waiter.WaitSet.Timeout` | lib/waiter/waiter.c:215-224 | sleeping never passes the first timer and never ends a whole millisecond early |
| `Waiter.WaitSet.Poll` | lib/waiter/waiter.c:204-274 | only waiters registered before are called, at most once, only if ready or due; due timers exactly once unless another callback removed them; removed ones are freed; when the assertion fails |
| `Waiter.AfterRemoval` | lib/waiter/waiter.c:237-238 | in a legal life nothing but the freeing follows a removal: no call does |
| `Waiter.AfterFreeing` | lib/waiter/waiter.c:268-271 | nothing follows the freeing, so it happens once |
| `Waiter.SelfRemoval` | lib/waiter/waiter.c:260-262 | the removal after a callback succeeds exactly if the callback did not remove the waiter itself |
| `Autoboot.AutobootOptionPriority` | discover/device-handler.c:860-873 | the first configured entry that matches gives the priority |
| `Autoboot.MatchesMeans` | discover/device-handler.c:845-858 | an entry matches a device by its UUID, by its type, or because it is for any device |
| `Autoboot.OrderEnablesIff` | discover/device-handler.c:860-929 | with an order configured, a device is enabled if and only if one of the first 252 entries matches it |
| `Autoboot.AnyEnables` | discover/device-handler.c:860-929 | an entry for any device enables every device, at a priority no worse than its own |
| `Autoboot.UuidsEnable` | discover/device-handler.c:860-929 | a list of UUIDs enables exactly the devices that have one of them |
| `Autoboot.BuiltInOrder` | discover/platform.c:142-148 | the built-in order gives network devices priority 3 and all others 4 |
| `Autoboot.IpmiEnables` | discover/device-handler.c:822-843 | an IPMI setting enables exactly the device types of its table |
| `Autoboot.OverrideEnables` | discover/device-handler.c:886-895 | a temporary override enables exactly the devices it matches |
| `Autoboot.Autoboot.DefaultOptionPriority` | discover/device-handler.c:880-929 | a temporary override decides alone, then IPMI alone, then the configured order, else any device will do |
| `Autoboot.Autoboot.DefaultTimeout` | discover/device-handler.c:785-820 | counts down and re-arms, or boots the default, or does nothing |
| `Autoboot.Autoboot.Fire` | discover/device-handler.c:785-820 | a tick of an undisturbed countdown re-arms the timer or attempts the boot |
| `Autoboot.Autoboot.SetDefault` | discover/device-handler.c:931-983 | the state afterwards is that of one more option presented; the winner among all presented stays the default; nothing happens when autoboot is off or the option is disabled |
| `Autoboot.PresentedInOrder` | discover/device-handler.c:931-983 | with autoboot on and no boot attempted, the offers grow by exactly the enabled ones of the options presented, in order, and there is a default as soon as there is an offer; with autoboot off nothing changes |
| `Autoboot.Presented` | discover/device-handler.c:951-969 | one more option: it replaces the earliest of minimal priority exactly if it beats it |
| `Autoboot.FewReplacements` | discover/device-handler.c:45-51 | at most 253 replacements, since each lowers the priority |
| `Autoboot.WinnerUnique` | discover/device-handler.c:931-983 | the earliest option of minimal priority is unique |
| `Autoboot.Autoboot.BootDefault` | discover/device-handler.c:809-819 | the attempt is recorded with the winning option and, if undisturbed, after exactly T + 2k ticks with k at most 253 |
| `Autoboot.Autoboot.CancelDefault` | discover/device-handler.c:1637-1660 | autoboot is off and there is no default; the assertion fails exactly if the timer is stale, never in an undisturbed run |
| `Autoboot.Autoboot.ApplyTempAutoboot` | discover/device-handler.c:1003-1045 | a default that does not match gives way to the first matching option, which with no timeout is booted at once; nothing is enabled that was not |
| `Autoboot.Autoboot.ManualBoot` | discover/device-handler.c:1610-1635 | exactly a permitted boot during a countdown disturbs it |
| `Autoboot.ManualBootLosesTimer` | discover/device-handler.c:1639-1640 | a manual boot during any countdown leaves the timer registered; it fires and goes but is still remembered, so a cancel fails the assertion and changes nothing |
| `Autoboot.Autoboot.WithdrawForRequery` | discover/device-handler.c:1460-1475 | a requery withdraws its default and leaves autoboot as it was |
| `Autoboot.Autoboot.Reinit` | discover/device-handler.c:430-444 | no default, nothing pending, autoboot off |
| `Autoboot.Autoboot.Run` | discover/device-handler.c:785-1045 | in every run from a state without autoboot no default boot is ever attempted again |
| `Notify.DiscoverClient.Process` | ui/common/discover-client.c:61-119 | each message changes the client's devices as `Handle` says; the assertion fails exactly if the option's device is missing |
| `Notify.OptionArrives` | ui/common/discover-client.c:75-91 | a new option joins those of its device, and no other device changes |
| `Notify.RemovalForgets` | ui/common/discover-client.c:93-119 | a removal takes out one device with the id and no other; the client still has the id if and only if it had it twice |
| `Notify.HandleShows` | ui/common/discover-client.c:61-119 | a client that shows what has been announced goes on to, message by message: for every announced device its options, the latest first, and nothing for any other |
| `Notify.ClosedForGood` | discover/discover-server.c:102-116 | a failed write closes the connection: that message and all later ones are lost |
| `Notify.Written` | lib/pb-protocol/pb-protocol.c:813-835 | whatever is written, skipped or fails, an informed client stays informed, unless the message is a device announcement over the size limit |
| `Notify.AnnouncedIff` | discover/discover-server.c:118-150 | a client can process the announcement of an option if and only if it knows the device, or is told of it now in a message that fits |
| `Notify.DiscoverServer.Broadcast` | discover/discover-server.c:662-689 | to every client exactly what its own write does; clients stay informed of the announced devices, and show their options, as long as the messages fit |
| `Notify.DiscoverServer.Connect` | discover/discover-server.c:565-660 | a new client is sent the enumeration of all devices and options up to the first message that does not fit or cannot be written; only a failed write closes it |
| `Notify.NewcomerInformedIff` | discover/discover-server.c:612-644 | an open new client knows every announced device if and only if all of them come before the first message that does not fit |
| `Notify.NewcomerCurrent` | discover/discover-server.c:627-644 | a new client that is sent the whole enumeration shows what has been announced |
| `Notify.RemovedDeviceStays` | discover/discover-server.c:627-644 | a client that connects between tracking and announcement keeps the device after its removal |
| `Notify.DiscoverServer.Deliver` | ui/common/discover-client.c:75-91 | the next message is accepted exactly if its device is known; while every announcement has fitted it always is |
| `Notify.DiscoverServer.DeliverAll` | ui/common/discover-client.c:61-119 | a client gets through its queue exactly if every message in it finds its device |
| `Notify.OversizedOptionBreaksClient` | discover/discover-server.c:612-642 | an option over the limit cuts a new client's enumeration short, and the next option of a later device fails its assertion |
| `Notify.Dequeued` | ui/common/discover-client.c:175-297 | processing the first message leaves the outcome of the queue unchanged |
| `Notify.StillHas` | ui/common/discover-client.c:93-119 | only its own removal makes a client forget a device |
| `DeviceHandler.Resolve` | discover/device-handler.c:1064-1089 | an option resolves exactly if each open resource can be resolved; the call through a null pointer is made exactly if the parser has no resolver and a resource is open |
| `DeviceHandler.ExactlyOnePlace` | discover/device-handler.c:1133-1154 | a live option is in its device's list or in the queue, never both, never twice, never elsewhere |
| `DeviceHandler.DeviceHandler.NotifyBootOption` | discover/device-handler.c:1121-1131 | each client is sent the device, unless it was announced, and then the option, as far as messages fit and writes succeed |
| `DeviceHandler.DeviceHandler.ListOption` | discover/device-handler.c:1091-1119 | a resolved option is listed, finalised once and announced; the assertions hold; autoboot is presented with it exactly if it is marked as default |
| `DeviceHandler.DeviceHandler.Finalise` | discover/device-handler.c:1091-1119 | an option that is not marked as default leaves autoboot unchanged; one that is is presented to it |
| `DeviceHandler.DeviceHandler.CommitOption` | discover/device-handler.c:1940-1976 | an option without image is dropped; one that the parser can neither resolve nor retry crashes; otherwise it is listed exactly if it resolves and queued if not |
| `DeviceHandler.DeviceHandler.Commit` | discover/device-handler.c:1931-1977 | the device is tracked once; up to the first option that crashes, if any, the live options are the old ones and the new ones with an image, each final exactly if it resolves; with autoboot on and no boot attempted the offers grow by exactly the enabled default options that resolved, in order |
| `DeviceHandler.DeviceHandler.ProcessQueue` | discover/device-handler.c:1133-1154 | no option is lost; exactly those that resolve become final and move from the queue to their device, and the enabled default ones among them become offers, in order |
| `DeviceHandler.DeviceHandler.Remove` | discover/device-handler.c:505-558 | exactly the device and its options go, a default among them is cancelled; each client is sent the removal exactly if the device was tracked and announced |
| `DeviceHandler.DeviceHandler.Requery` | discover/device-handler.c:1431-1483 | the device stays without options and unannounced, its withdrawal is sent to every client; autoboot stays as it was |
| `DeviceHandler.DeviceHandler.Reinitialise` | discover/device-handler.c:430-503 | no option, no tracked device and no announced device is left |
| `DeviceHandler.DeviceHandler.CreateDevice` | discover/device-handler.c:304-327 | a tracked device with the UUID, or a fresh one |
| `DeviceHandler.DeviceHandler.Connect` | discover/discover-server.c:627-644 | a new client is told of every tracked device and its options in order, up to a message that does not fit or cannot be written |
| `DeviceHandler.DeviceHandler.FirstDefaults` | discover/device-handler.c:1026-1044 | for each tracked device in order its first default option, and each of them is listed |
| `DeviceHandler.DefaultOfFirst` | discover/device-handler.c:1026-1044 | a device contributes the first of its options that is marked as default, and nothing if there is none |
| `DeviceHandler.DeviceHandler.Override` | discover/device-handler.c:1026-1044 | rescanning picks the first match among the first default option of each tracked device |
| `DeviceHandler.DeviceHandler.Run` | discover/device-handler.c:505-1154 | every run keeps the books, the default listed with a tracked device, and autoboot off once it is off; if every message fits, no client's assertion fails, however the run ends, and an open client that has processed its queue lists for every announced device exactly the options the handler lists; it fails early only after a manual boot disturbed a countdown, or on an option that crashes |
| `GrubScript.Interpreter.EnvGet` | discover/grub2/script.c:55-64 | the first entry with the name |
| `GrubScript.Interpreter.EnvSet` | discover/grub2/script.c:66-87 | replaces the first entry or adds one in front |
| `GrubArgv.AssignLookup` | discover/grub2/script.c:55-87 | a variable that is set is read back and no other changes |
| `GrubArgv.VariableExpands` | discover/grub2/script.c:89-98 | a variable stands for its value, an unset one for nothing |
| `GrubArgv.Argv.AppendText` | discover/grub2/script.c:126-142 | the current argument grows by the text |
| `GrubArgv.Argv.AppendWord` | discover/grub2/script.c:147-200 | the in-place scan equals splitting into fields: unsplit text extends the argument, further fields open new ones |
| `GrubArgv.Argv.ProcessExpansions` | discover/grub2/script.c:207-230 | the array is the specified argument list; no entry is null, so nothing is trimmed |
| `GrubArgv.FieldsConserve` | discover/grub2/script.c:174-199 | the fields of a piece are its text without blanks, each solid and not empty |
| `GrubArgv.FieldsSeparate` | discover/grub2/script.c:174-199 | a solid stretch in front of a blank is a field of its own, and blanks in front of a field do not count |
| `GrubArgv.ThreeFields` | discover/grub2/script.c:100-103 | both blanks and tabs separate |
| `GrubArgv.ExtendSplits` | discover/grub2/script.c:174-199 | a split piece lengthens the current argument by its first stretch, and every further field is an argument |
| `GrubArgv.ArgumentsConserve` | discover/grub2/script.c:207-230 | the arguments hold all text in order except the blanks of split pieces, and each word is at least one argument |
| `GrubArgv.TrailingBlankJoins` | discover/grub2/script.c:176-199 | a blank at the end of a piece does not separate it from the next piece |
| `GrubScript.Interpreter.Expansions` | discover/grub2/script.c:207-230 | the words of a statement, expanded in the script's environment, are the specified arguments |
| `GrubScript.Interpreter.InitEnv` | discover/grub2/script.c:432-456 | the environment holds the directory of the file, or the usual one, and the feature setting, and nothing else |
| `GrubScript.FindId` | discover/grub2/script.c:341-353 | the first usable `--id` |
| `GrubScriptLaws.IdMeans` | discover/grub2/script.c:341-353 | `--id=X` and `--id X` give the id X, a bare `--id` none |
| `GrubScript.Interpreter.ExecuteAll` | discover/grub2/script.c:232-243 | the statements run in order, as the big-step meaning says |
| `GrubScript.Interpreter.Execute` | discover/grub2/script.c:283-324 | each kind of statement has its meaning |
| `GrubScriptLaws.IfTaken` | discover/grub2/script.c:290-324 | an `if` is its conditions up to the first that succeeds, followed by the body of that case alone |
| `GrubScriptLaws.IfNot` | discover/grub2/script.c:290-324 | if none succeeds it is all the conditions, followed by the else part if there is one |
| `GrubScriptLaws.ChosenMenu` | discover/grub2/script.c:290-324 | a script that chooses between two menus adds exactly the options of the chosen one |
| `GrubScriptLaws.ChooseMenu` | discover/grub2/script.c:493-511 | the same through the interpreter |
| `GrubScriptLaws.BlockMeans` | discover/grub2/script.c:283-288 | a block is its statements |
| `GrubScriptLaws.ForMeans` | discover/grub2/script.c:411-430 | a loop is its body written out once per value, behind an assignment of the value |
| `GrubScriptLaws.CallMeans` | discover/grub2/script.c:379-393 | a call runs the body with the arguments as numbered variables and no other variable changed |
| `GrubScriptLaws.DefinitionMeans` | discover/grub2/script.c:395-409 | a definition binds its name and no other |
| `GrubScriptLaws.EntryMeans` | discover/grub2/script.c:326-377 | an entry adds one option, with the title, id and image its arguments and body give it, or none |
| `GrubScriptLaws.UnknownCommand` | discover/grub2/script.c:271-275 | a name bound to nothing fails and changes nothing |
| `GrubScriptLaws.SpacedMeans` | discover/grub2/builtins.c:36-37 | further words of `set` are appended behind single blanks |
| `GrubScriptLaws.SelfSource` | discover/grub2/builtins.c:445-447 | a file that sources itself is entered until the tenth level and leaves everything as it was |
| `GrubScriptLaws.PrefixMeans` | discover/grub2/script.c:438-452 | the prefix is the directory of the file |
| `GrubScript.Interpreter.ExecuteMenuentry` | discover/grub2/script.c:326-377 | an entry with a boot image adds one option, marked by its position, id or name |
| `GrubScript.Interpreter.ExecuteSimple` | discover/grub2/script.c:245-281 | assignment, unknown command, function call or command |
| `GrubScript.Interpreter.ExecuteFor` | discover/grub2/script.c:411-430 | the body runs once per value of the list the statement started with |
| `GrubScript.Interpreter.ExecuteSource` | discover/grub2/builtins.c:432-476 | at most ten files deep, and the depth is restored; a file that cannot be parsed frees the running statements in place of its own, and freeing them again ends the run |
| `GrubScript.UnparsableTwice` | discover/grub2/builtins.c:432-476 | one unparsable file does no more than free the running statements; a second one frees them twice |
| `GrubScript.CommandMeans` | discover/grub2/builtins.c:19-80 | `set` gives the named variable its value and changes no other; `linux` gives the current option the image its argument names, which may be none, and no other option |
| `GrubScript.CommandFails` | discover/grub2/builtins.c:19-80 | exactly when they fail, and that a failed command changes nothing |
| `GrubScript.ResourceIff` | discover/grub2/grub2.c:55-158 | an argument names no image exactly if it is a device in brackets, or an open bracket, with nothing behind it and no URL |
| `GrubScript.Interpreter.SetFallbackDefault` | discover/grub2/script.c:471-491 | the first option becomes the default exactly if there is none |
| `GrubScript.Interpreter.ScriptExecute` | discover/grub2/script.c:493-511 | from the environment that `init_env` sets up: `n_options` is the number of options; an option is default exactly if `default` pointed at it, or it is the first and none was pointed at; whenever `default` was the numeral k throughout, and so if the first statements set it before any option and the rest leave it alone, there is exactly one default, at k or at 0 |
| `GrubScript.RunAll` | discover/grub2/script.c:232-243 | running keeps every option marked by its position and only ever adds options |
| `GrubScript.RunFuel` | discover/grub2/script.c:379-393 | a script that ends does so in the same way with any larger allowance for nested calls |
| `GrubScript.FallbackMeans` | discover/grub2/script.c:471-491 | which options are defaults after the fallback, whatever they were before |
| `GrubScript.SomeDefault` | discover/grub2/script.c:471-511 | there is a default as soon as there is an option |
| `GrubScript.FixedNumeral` | discover/grub2/script.c:105-124 | while `default` is the numeral k, exactly the option at position k is the default, or the first if there is none |
| `GrubScript.FixedDefault` | discover/grub2/script.c:493-511 | if `pre` adds no option and leaves the numeral k in `default`, and `rest` does not assign it, then `pre` and `rest` together add exactly one default, at k or at 0 |
| `GrubScript.DefaultIndex` | test/parser/test-grub2-default-index.c:4-14 | `set default=VALUE` with any numeral and any menu of kernels meets that condition, runs to the end and adds one option per kernel |
| `GrubScriptLaws.NumeralBack` | discover/grub2/script.c:110-119 | every number that fits is read from its decimal form |
| `GrubScriptLaws.DefaultNumber` | discover/grub2/script.c:105-124 | `set default=K` in front of a menu makes the entry at position K, and no other, the default |
| `GrubScriptLaws.NamedDefault` | discover/grub2/script.c:120-123 | a value that is no numeral marks entries by id or title |
| `GrubScript.DefaultIndexScript` | test/parser/test-grub2-default-index.c:17-33 | through the interpreter itself: of the three options the second, and no other, is the default |
| `GrubScript.MovingDefault` | discover/grub2/script.c:105-124 | a script that sets `default` to 0 and then to 1 between two menu entries marks both options |
| `Wire.U32Back` | lib/pb-protocol/pb-protocol.c:153-163 | every 32-bit number comes back |
| `Wire.NetworkOrder` | lib/pb-protocol/pb-protocol.c:98-118 | the most significant byte comes first |
| `Wire.FlagBack` | lib/pb-protocol/pb-protocol.c:1203-1205 | a flag written in either byte order comes back |
| `Wire.StringBack` | lib/pb-protocol/pb-protocol.c:98-151 | every string comes back, the empty one as null |
| `Wire.StringsBack` | lib/pb-protocol/pb-protocol.c:1270-1277 | so does every list of strings |
| `Wire.Reader.String` | lib/pb-protocol/pb-protocol.c:125-151 | reads what the specification reads, on any payload, however much too high the count of bytes left is |
| `ProtocolConfig.SerialiseConfig` | lib/pb-protocol/pb-protocol.c:612-688 | writes the specified bytes |
| `ProtocolConfig.ConfigLength` | lib/pb-protocol/pb-protocol.c:281-350 | announces exactly the number of bytes that are written |
| `ProtocolConfig.InterfaceBack` | lib/pb-protocol/pb-protocol.c:1191-1229 | an interface comes back; an ignored one keeps its address only |
| `ProtocolConfig.StaticArrives` | lib/types/types.h:151-154 | addresses arrive for method 1, the static one, and for no other |
| `ProtocolConfig.HeadLayout` | lib/pb-protocol/pb-protocol.c:612-640 | where the first four fields are |
| `ProtocolConfig.ConfigBack` | lib/pb-protocol/pb-protocol.c:1231-1351 | every configuration that can be sent comes back in normal form, with nothing left over |
| `ProtocolConfig.ArrivesTwice` | lib/pb-protocol/pb-protocol.c:1231-1351 | the normal form is stable |
| `ProtocolConfig.DeserialiseConfig` | lib/pb-protocol/pb-protocol.c:1231-1351 | reads what the specification reads, on any payload, and fails when it does |
| `ProtocolConfig.Transmit` | lib/pb-protocol/pb-protocol.c:612-688 | length, serialising and deserialising together are the normal form |
| `ProtocolConfig.TempLengthIff` | lib/pb-protocol/pb-protocol.c:378-391 | the announced length is exact if and only if the override names a device type |
| `ProtocolSystemInfo.SerialiseInfo` | lib/pb-protocol/pb-protocol.c:501-578 | writes the specified bytes |
| `ProtocolSystemInfo.InfoLength` | lib/pb-protocol/pb-protocol.c:234-279 | announces exactly the number of bytes that are written |
| `ProtocolSystemInfo.InfoBack` | lib/pb-protocol/pb-protocol.c:1049-1189 | every record that can be sent comes back in normal form, an all-zero BMC address as null |
| `ProtocolSystemInfo.DeserialiseInfo` | lib/pb-protocol/pb-protocol.c:1049-1189 | the cursor, whose count is too high by one for each interface, reads what the specification reads on any payload |
| `ProtocolSystemInfo.Transmit` | lib/pb-protocol/pb-protocol.c:501-578 | length, serialising and deserialising together are the normal form |
| `Fold.FoldText` | lib/fold/fold.c:12-94 | for any text, width and callback: the first lines, as many as are looked at, are those of the reference, up to the one whose callback stops it |
| `Fold.FoldedWell` | lib/fold/fold.c:12-94 | if the lines come to an end, every one fits and holds no newline; lines and dropped newlines and spaces put together are the text; and a line ends only at a newline or because the next character does not fit, then at the last space if there is one |
| `Fold.ReachAdvances` | lib/fold/fold.c:71-83 | no progress exactly at a character wider than the line |
| `Fold.EndsIff` | lib/fold/fold.c:28-94 | the lines come to an end if and only if no character before the end of the text is wider than a line |
| `Url.FindScheme` | lib/url/url.c:107-131 | a scheme of the string, if it has one |
| `Url.OneScheme` | lib/url/url.c:41-84 | no string has two schemes |
| `Url.SchemeTable` | lib/url/url.c:41-84 | the names of the schemes, in any case of letters |
| `Url.Parse` | lib/url/url.c:157-243 | the scheme, if any, decides how the rest is read |
| `Url.SplitParts` | lib/url/url.c:133-148 | directory and file make up the path |
| `Url.AuthorityBack` | lib/url/url.c:189-234 | host, port and path come back if and only if the path does not disturb the search for the port |
| `Url.UrlBackIff` | lib/url/url.c:265-283 | a well-formed record is parsed back from its printed form if and only if its path is undisturbing |
| `Url.PrintAndParse` | lib/url/url.c:265-283 | the same for the whole string, scheme included |
| `Url.ColonInPathBreaks` | lib/url/url.c:200-215 | a colon in the path is taken for the port's |
| `Url.Join` | lib/url/url.c:308-338 | an absolute path replaces the path, a relative one its last component, so that joining a URL with its own file changes nothing; a missing directory is printed as `(null)`; a relative join stays well formed, and the full string parses back to the record |
| `Params.ParseMac` | discover/platform.c:295-318 | six pairs of digits, whatever stands between them |
| `Params.MacBack` | discover/platform.c:598-601 | a printed hardware address is parsed back |
| `Params.MacCapitals` | discover/platform.c:295-318 | capital and small digits are read alike |
| `Params.ParseInterface` | discover/platform.c:320-392 | refuses exactly what is unreadable, and reads back whatever was printed for an interface |
| `Params.InterfaceBack` | discover/platform.c:592-618 | a printed interface is read back, also a static one with a URL and no gateway |
| `Params.ArrivesIff` | discover/platform.c:356-371 | it is unchanged if and only if a lone gateway is no URL and a lone URL is one |
| `Params.PopulateNetwork` | discover/platform.c:414-439 | each token adds an interface or name servers |
| `Params.UpdateNetworkValues` | discover/platform.c:635-672 | prints interfaces and name servers with single blanks between them |
| `Params.NetworkBack` | discover/platform.c:635-672 | the printed parameter gives back the interfaces and the same name servers |
| `Params.PopulateBootdev` | discover/platform.c:483-530 | reads the entries in order; one that is neither prefix nor known type counts as whatever its fresh memory holds; an empty result keeps the old list |
| `Params.UpdateBootdevValues` | discover/platform.c:674-706 | prints every entry with a blank behind it |
| `Params.BootdevsBack` | discover/platform.c:441-481 | for UUIDs without blanks: the legible entries come back in order, an illegible one as its stale memory decides |
| `Params.PrefixMeans` | discover/platform.c:441-481 | either prefix names a device by what follows it |
| `Params.LegibleIff` | lib/types/types.c:46-83 | the list is unchanged whatever the fresh memory holds if and only if every type is known and no UUID is empty |
| `Params.BootdevRoundTrip` | discover/platform.c:483-706 | through the loops themselves: a list that is printed and read comes back exactly if every entry is legible; an empty one leaves the old list in place |

## Left out

- Talloc.Heap: chunks are addresses and each field of a chunk is a map from addresses, so Dafny's own object frames are not used; pointer arithmetic, chunk flags, names, realloc and reports are not modelled, and no null context is tracked (nothing in the program enables one).
- Talloc.Heap.Steal: a new owner that the chunk reaches is excluded; the source accepts it and builds a cycle (`TallocForest.MoveAcyclicIff`).
- Talloc.Heap.Reference: a context that the chunk reaches is excluded for the same reason.
- Talloc.Heap.RunDestructor: a destructor is an oracle that agrees or refuses; its own calls into the allocator are not modelled.
- GrubEnvSave.SaveEnv: choosing, reading and writing back the file is not modelled.
- Boot.BootTask.Boot: building the resources, signature URLs and kexec itself are not modelled, nor is the queue of jobs waiting for the network.
- Waiter.WaitSet.Poll: a callback that polls the same set again is not modelled; nothing in the program does that.
- Autoboot.Autoboot.Fire: the countdown claim is about timeouts up to 2^32 - 507 seconds, behind which the counter can wrap.
- DeviceHandler.DeviceHandler.Commit: ids and UUIDs of devices are distinct, which the source does not enforce.
- DeviceHandler.DeviceHandler.CreateDevice: a null UUID, for which the source looks the device up by its id, and an id that is used again are not modelled.
- DeviceHandler.DeviceHandler.Remove: mounting, snapshots, ramdisks, encrypted devices and plugins are not modelled.
- Notify.DiscoverServer.Connect: status backlog and plugins, which follow the devices, are not modelled.
- GrubScript.Interpreter.Execute: calls of functions nest as deep as a parameter allows (`RunFuel` shows that it does not matter otherwise); each call of a command other than `set`, `linux` and `source` may change the environment in its own way but adds no options, which leaves out blscfg.
- GrubScript.Interpreter.ExecuteSource: freeing statements a second time is taken to be noticed; what happens if their memory has been used again by then is not modelled.
- GrubScript.CommandMeans: an image is known by the argument that names it; the device it is looked up on is not modelled.
- GrubScript.FixedDefault: that the commands but for `load_env` and `search` leave `default` alone is a condition on the commands that are not modelled (`Builtin`).
- GrubScript.Interpreter.ExecuteFor: the source stores the expanded list in the statement and reads it again each turn, so a function that enters the same `for` again while it runs rewrites its list; here every run of the statement has its own.
- ProtocolConfig.SerialiseConfig: bytes are appended to a sequence instead of stored in a buffer of the announced length; `ConfigLength` shows that they fill it exactly.
- Fold.FoldText: text is decoded already; bytes that are no character, which fail an assertion, are not modelled.
- Url.Parse: records are values; numeric IPv6 hosts are recognised by a parameter.
- Params.UpdateNetworkValues: the override of a first interface, which suppresses the update, is not modelled.
- The other message types of the wire protocol: they would repeat the primitives with fewer cases.
- The lexer and grammar of GRUB scripts, the syslinux, yaboot, kboot, pxe and blscfg parsers: field copying.
- User interfaces, udev, netlink, IPMI transactions, device mapper, signatures and encryption: foreign calls.
- Authentication and client permissions, beyond the rule for who may change the default.
