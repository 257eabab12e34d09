# Verified models of Chromium's D-Bus bindings and stateful crypto helpers

The project models the parts of `dbus/` and `crypto/` whose behaviour is a state machine, a codec or a one-pass
algorithm, and proves what they promise on every run, every message and every input.

- **The two-thread bus.** `BusLedger` holds what a `Bus` records on its D-Bus thread (owned names, counted match rules,
  filters, registered paths, owner-change listeners) and what one exported object or object proxy does to it.
  `BusProtocol` puts it under an origin thread and a D-Bus thread that exchange tasks over FIFO queues. A run is a
  sequence of actions; each action says who moves and what libdbus replies, so "for every sequence" is "for every
  interleaving and every reply", with and without a D-Bus thread, and with a shutdown from the queue or called directly.
  `BusReplies`, `BusResults`, `BusGenerations`, `BusExports`, `BusGuarantees`, `BusListeners`, `MatchRules` and
  `ObjectTables` hold the theorems. `BusClasses` and `BusMessages` are the objects
  updated in place, each method proved equal to the function that the theorems are about; `BusShutdown` does so for
  the shutdown of a whole bus.
- **Messages.** `MessageCodec`, `MessageReading`, `MessageText`, `MessagePrinter` and `PrintedText` model a libdbus message body as a flat tape of tokens
  with begin and end marks, and an iterator as a position on it. That is an assumption about libdbus. On top of it come
  the writer, the reader, any sequence of pops with or without sub-readers, and the printer.
- **Call statistics.** `Statistics` is the counter map and the one-pass report loop.
- **TPM token and slots.** `TokenManager` and `PrivateSlots` model the deferred questions of `ChromeOSTokenManager` and
  the private-slot requests of its users.
- **Windows Hello keys.** `Foregrounder` is the polling chain raced by `Stop`; `KeyFlows` is signing, generating and
  getting, with the three split callbacks and the foregrounder in one machine.
- **Process-bound strings.** `ProcessBound` is the rounding mask with its real width and the string round trip.

Replies of libdbus, of the daemon, of the TPM threads and of WinRT are parameters of the steps.

What the code does differently from its documentation or from a first reading, and the model follows the code:

- `AddMatch` counts a rule also when the daemon refuses it (dbus/bus.cc:752-756). A refused listen therefore leaves a
  counted rule behind for good, and a filter until another listener comes and goes (`RefusedListenLeaks`).
  `Ledger.refused` keeps the history; `ListenerLedgers` says exactly when the filter follows the listeners, and the
  shutdown theorems name what was refused.
- The owner-change rule has the same text whether a listener or an object proxy adds it, so its count is one for the
  listeners of a service plus one for each proxy of that service, not always one (`ListenerAndProxyShareRule`).
- `ShutdownAndBlock` does not unlisten; a listener left registered keeps its rule and filter
  (`ListenerOutlivesShutdown`; the exact condition is `QueuedShutdown`).
- Called directly, not through the queue, `ShutdownAndBlock` misses objects dropped from the table whose release is
  still queued: exported objects keep their path, proxies their filter and rules (`DroppedExportKeepsPath`,
  `DroppedProxyKeepsFilter`; the exact condition is `DirectShutdown`).
- A finish that overtakes the initialise reply lets the reply move a final state back; two callers may then get
  different verdicts (`OvertakenVerdictsDiffer`; the exact condition is `VerdictsAgreeIff`). No question is lost or
  answered twice even then.
- A null private slot is stored as null, so requests made after it wait for ever (`NullSlotStrands`; the exact condition
  is `SlotSetAtMostOnce`).
- The getter of a user-verifying key shares its completion handlers with the generator, and so records a creation result
  when a handler fires, but none when it fails earlier.
- A failed `get_Status` leaves the status unset, and signing looks at it all the same
  (crypto/user_verifying_key_win.cc:241-254), so the caller may be told of a cancellation that nobody reported
  (`UnreadStatusTakenForRefusal`; the exact condition is `UnreportedCancellation`).
- A printed message escapes nothing: a string with a newline in it may print like two items (`NewlineForges`). Without
  newlines the text tells the message up to what numbers and cut strings show (`TextDeterminesMessage`).
- The rounding mask has 32 bits, so the round-up fails exactly for sizes above 2^32 minus the block.

## Model

| member | source | states |
|---|---|---|
| BusProtocol.RegisteredPathsExact | dbus/bus.cc:804-850 | On every run the registered paths are exactly the paths of the registered objects, one object a path, counting objects no longer in the table |
| BusProtocol.MatchCountsExact | dbus/bus.cc:734-784 | On every run the stored count of every rule is the number of its holders (connection, listeners of the service, proxies, refused additions), and the rule is stored exactly while there is one |
| BusProtocol.StepKeepsCore | dbus/bus.cc:879-889 | Every action of either thread keeps the ledger invariant |
| BusLedger.ListenKeeps | dbus/bus.cc:977-1016 | Listening keeps paths and counts exact, lists non-empty and duplicate-free, and the filter installed while needed, also when the daemon refuses the rule |
| BusLedger.UnlistenKeeps | dbus/bus.cc:1030-1063 | Unlistening keeps them; the last listener takes its rule and the filter along |
| BusLedger.ExportKeeps | dbus/exported_object.cc:94-119 | Exporting keeps paths in step with the registered objects on every branch |
| BusLedger.ReleaseKeeps | dbus/exported_object.cc:188-196 | Unregistering an exported object or detaching a proxy gives back exactly what it held |
| BusLedger.ConnectSignalKeeps | dbus/object_proxy.cc:425-451 | Connecting a proxy to a signal keeps every count equal to the number of holders, also on refusal |
| BusReplies.RepliesConserved | dbus/exported_object.cc:274-376 | On every run calls answered HANDLED equal replies sent plus replies dropped while disconnected plus calls in flight in a queue or an unused sender |
| BusReplies.AtMostOneReply | dbus/exported_object.cc:35-78 | On every run no call gets two replies, and a call replied to is neither dropped nor in flight |
| BusReplies.AnswerIsFinal | dbus/exported_object.cc:344-376 | Through every continuation an answered call keeps that one answer, in exactly one place: sent, dropped or queued, with no sender or other task left for the call |
| BusReplies.RespondAnswers | dbus/exported_object.cc:356-376 | On every run, once a client ran its sender, any reply ever sent for the call carries that response, a null one as the Failed error, and the call has no other answer anywhere |
| BusReplies.AnswerDropped | dbus/exported_object.cc:356-376 | A run without a D-Bus thread in which a call is answered behind a direct shutdown: the answer is dropped and nothing is left in flight |
| BusResults.NoneDroppedBeforeShutdown | dbus/exported_object.cc:356-376 | On every run no reply is dropped before a shutdown: only a bus that took no call is without a connection until then |
| BusResults.ResponseSent | dbus/exported_object.cc:344-376 | On every run, once a client answered and nothing about the call is queued any more, its response, or the Failed error for a null one, has been sent to that call exactly once, unless the bus is shut down by then |
| BusResults.CompletionReplies | dbus/exported_object.cc:356-376 | Running a completion on a connected bus sends one reply, the response itself or the Failed error for a null one; only without a connection the call is dropped |
| BusResults.ResponseHandedOn | dbus/exported_object.cc:344-354 | The sender is spent; the response goes to the D-Bus thread, or is sent at once without one |
| BusResults.CallHandedOver | dbus/exported_object.cc:274-320 | A message is handed over if and only if it is a method call with an interface of an exported method, under the next number and to the right thread; otherwise nothing changes |
| BusResults.CallbackRun | dbus/exported_object.cc:322-342 | The callback gets one sender, or if it was cancelled the unknown-method error is on its way to the D-Bus thread |
| BusResults.ExportTold | dbus/exported_object.cc:198-212 | The client is told of success if and only if the method is new, the bus connects, and the object is registered or its path is free and libdbus registers it; exactly then the method is stored and the path registered |
| BusResults.UnexportTold | dbus/exported_object.cc:214-225 | The client is told whether the method was there, and it is gone |
| BusResults.SignalTold | dbus/object_proxy.cc:233-274 | The client is told whether both rules are stored: the owner-change rule first, then the rule of the signal, each stored, counted already or not refused |
| BusResults.SignalConnectedNow | dbus/object_proxy.cc:246-253 | Without a D-Bus thread the proxy is connected at once, to the same effect and with no task posted |
| BusResults.NameReleased | dbus/bus.cc:580-610 | A name is given up exactly if the daemon lets go of it |
| BusResults.NameTold | dbus/bus.cc:539-578 | The client is told whether the bus owns the name: it owned it before or the daemon grants it |
| BusResults.RemovalTold | dbus/bus.cc:261-268 | Removing a proxy runs the callback of its client |
| BusResults.ConnectOutcome | dbus/bus.cc:381-434 | A connection that opens installs the filter and counts the rule for disconnection; one that fails to say hello stays set without them |
| BusResults.SignalOutcome | dbus/object_proxy.cc:425-451 | Which rules the proxy stores, from what was stored, counted and refused |
| BusResults.ReleaseOutcome | dbus/object_proxy.cc:297-321 | Each stored rule is given back once, the filter only while connected, and the path of a registered object |
| BusReplies.CancelledCallAnswered | dbus/exported_object.cc:322-334 | On every run a call whose callback was found cancelled, in its own task or at once without a D-Bus thread, has the unknown-method error as its one answer for ever |
| BusExports.ExportRunsAfterUnregister | dbus/bus.cc:270-313 | On every run whose exports are posted for objects in the table with no shutdown made or queued, whatever else clients do and whenever a shutdown comes: when an export runs, all older objects of that path have run their unregister and no other object holds the path, over any number of generations |
| BusExports.ExportSucceeds | dbus/exported_object.cc:94-119 | On the same runs an export never fails because of another object: its client is told of success, and the object is registered with the method, if and only if the method is new, the bus connects and the object is registered or libdbus registers it |
| BusExports.StepKeepsExports | dbus/bus.cc:286-313 | Every such action keeps: no export follows the drop of its object, neither export nor drop of an older generation follows an export, each older generation has its drop posted, and only an object with an export run and no drop run is registered |
| BusGuarantees.QueuedShutdown | dbus/bus.cc:446-507 | Running the queued shutdown readies the bus for its destructor if and only if every owned name is released, every listener was unlistened and no rule was ever refused; objects with a queued unregister are included |
| BusGuarantees.ShutdownReadiesDestructor | dbus/bus.cc:192-203 | In every later state the connection stays null and no path is registered, and the destructor's demands hold exactly when no name, listener or refused rule was left |
| BusGuarantees.DirectShutdown | dbus/bus.cc:446-507 | At any moment of any run, disciplined or not, a shutdown called directly meets all the destructor's demands if and only if every owned name is released, every listener was unlistened, no rule was ever refused, and every object that holds a path, a rule or a filter is still in the table |
| BusGuarantees.ReadyIff | dbus/bus.cc:192-203 | A disconnected bus meets the destructor's demands exactly when no name, listener or refused rule is left and no object holds anything |
| BusGuarantees.DroppedExportKeepsPath | dbus/bus.cc:286-313 | A disciplined run after which a direct shutdown leaves the path of a dropped object registered, so the destructor's demands fail |
| BusGuarantees.DroppedProxyKeepsFilter | dbus/bus.cc:239-259 | A disciplined run without exported objects after which a direct shutdown leaves the filter of a dropped proxy installed, so the destructor's demands fail |
| BusGuarantees.ListenerOutlivesShutdown | dbus/bus.cc:446-507 | A disciplined run whose queued shutdown leaves a listener registered and fails the destructor |
| BusGenerations.StepKeepsTables | dbus/bus.cc:211-313 | Every action, disciplined or not, keeps: the table lists the newest object of a name, an object listed has no release posted, and before a shutdown one not listed has |
| BusGenerations.StepKeeps | dbus/bus.cc:239-313 | Every disciplined action keeps: nothing follows the release of an object in the queue, no work follows a shutdown, only an object not yet released holds anything, and nothing does behind the shutdown |
| BusGenerations.ShutdownFrees | dbus/bus.cc:446-507 | Shutdown frees exactly what the objects of the tables hold and keeps only names the daemon did not release |
| BusListeners.ListenRefines | dbus/bus.cc:977-1016 | An accepted listen is an insertion into the list of (service, callback) pairs |
| BusListeners.UnlistenRefines | dbus/bus.cc:1030-1063 | An unlisten is the deletion of its pair |
| BusListeners.AcceptedIff | dbus/bus.cc:977-1003 | A listen is accepted if and only if the bus connects and the service is listened to, its rule is counted, or the daemon does not refuse it |
| BusListeners.RegistrationOrder | dbus/bus.cc:1006-1063 | A new registration comes last, a repeated one changes nothing, and a deletion leaves the others in order |
| BusListeners.CallbacksInOrder | dbus/bus.cc:1187-1190 | The callbacks of a service stand in the order of its registrations |
| BusListeners.OwnerChangeNotifiesRegistered | dbus/bus.cc:1157-1193 | On every run, whatever was accepted or refused, an owner change appends one task for each registered callback of the service, the i-th for the i-th registered, and no other; a listen that was not accepted registered nothing |
| BusListeners.ListenerLedgers | dbus/bus.cc:977-1063 | On every run lists are non-empty and duplicate-free, the filter follows the map if and only if no refused first listen left it stray, and each service's rule is counted once for its listeners, once for each proxy that holds it and once for each refused addition |
| BusListeners.ListenerAndProxyShareRule | dbus/object_proxy.cc:425-451 | A run in which the owner-change rule of one service is counted twice |
| BusListeners.RefusedListenLeaks | dbus/bus.cc:998-1003 | A run in which a refused listen, another listen and an unlisten leave a counted rule behind |
| MatchRules.CountsAndDaemonAgree | dbus/bus.cc:734-784 | For every sequence of additions and removals the count is additions minus successful removals and at least one, and the daemon hears add, remove, add in turn, the last an addition exactly while the count is positive |
| BusClasses.Bus.Connect | dbus/bus.cc:381-434 | The in-place method computes the connection step, with its failure that leaves the connection set |
| BusClasses.Bus.AddMatch | dbus/bus.cc:734-757 | New counts, the error, and the call made to the daemon |
| BusClasses.Bus.RemoveMatch | dbus/bus.cc:759-784 | New counts, success exactly if the rule was there, and the call made to the daemon |
| BusClasses.Bus.Listen | dbus/bus.cc:977-1016 | The loop over the callbacks computes the listening step |
| BusClasses.Bus.Unlisten | dbus/bus.cc:1030-1063 | The erasing loop computes the unlistening step |
| BusClasses.Bus.RequestOwnership | dbus/bus.cc:539-578 | It succeeds if and only if the bus connects and the name is owned already or granted, and the name is owned then; connection included |
| BusClasses.Bus.ReleaseAllNames | dbus/bus.cc:446-507 | Releasing each owned name while walking the set leaves exactly the names the daemon kept |
| BusClasses.ExportedObject.ExportMethodAndBlock | dbus/exported_object.cc:94-119 | It succeeds if and only if the method is new, the bus connects and the object is registered or can be; exactly then the method is stored; bus and object are those of the export function |
| BusClasses.ExportedObject.Unregister | dbus/exported_object.cc:188-196 | Bus and object are those of the release function |
| BusClasses.ObjectProxy.ConnectToSignalAndBlock | dbus/object_proxy.cc:256-274 | Filter, owner-change rule and signal rule are added as the ledger function says; it succeeds exactly if the bus connects and both rules are then stored |
| BusClasses.ObjectProxy.ConnectToNameOwnerChangedSignal | dbus/object_proxy.cc:425-451 | Bus, object and result are those of the ledger function |
| BusClasses.ObjectProxy.Detach | dbus/object_proxy.cc:297-321 | The loop over the stored rules removes each once |
| BusClasses.ShutdownAndBlock | dbus/bus.cc:446-507 | Nothing changes if the bus was shut down before; otherwise, over the objects of the tables, nothing stays registered or matched, each proxy is detached once, and the ledger is that of unregistering, releasing, detaching and disconnecting |
| BusShutdown.ReleaseOrderIrrelevant | dbus/bus.cc:446-507 | Releasing the objects of the tables in any order gives the same ledger and objects |
| BusShutdown.LedgerDetermined | dbus/bus.cc:734-850 | The invariant determines registered paths and match counts: two ledgers that agree on the rest are equal |
| BusShutdown.InPlaceShutdownIsShutdown | dbus/bus.cc:446-507 | The ledger of unregistering the exported objects and detaching each proxy once, in any order, is the ledger of the shutdown step of the run theorems |
| BusShutdown.ShutdownInPlace | dbus/bus.cc:446-507 | Called on objects in memory that stand for a state of any run, the shutdown leaves bus and every object exactly as the shutdown step of the run theorems does |
| BusMessages.MethodCalls.Handle | dbus/exported_object.cc:274-320 | Handled if and only if it is a method call with an interface of an exported method; queues, senders and replies change as the protocol's message step says, and one call is numbered exactly if it is handled |
| BusMessages.MethodCalls.RunMethodCallback | dbus/exported_object.cc:322-342 | A cancelled callback is answered, any other gets one sender |
| BusMessages.MethodCalls.RunSender | dbus/exported_object.cc:35-78 | Running a sender spends it and sends its response |
| BusMessages.MethodCalls.OnMethodCompleted | dbus/exported_object.cc:356-376 | On a connected bus one reply is sent, the response or the Failed error; otherwise the call is dropped |
| BusMessages.MethodCalls.OnServiceOwnerChanged | dbus/bus.cc:1157-1193 | A NameOwnerChanged signal of the daemon with three strings appends one task for each callback, from the first to the last; any other signal changes nothing |
| ObjectTables.ConcatenationIsInvisible | dbus/bus.cc:211-259 | Over valid names every sequence of gets and removes is answered, detached and left the same by the concatenated keys as by separate components |
| ObjectTables.InvisibleIffInjective | dbus/bus.h:761-782 | On any set of names the two tables answer alike over all sequences if and only if no two names collide |
| ObjectTables.ValidNamesInjective | dbus/bus.cc:315-353 | Service names without '/' and paths beginning with '/' never collide |
| ObjectTables.InvalidNamesCollide | dbus/bus.h:761-782 | A service name with '/' may collide with a valid name |
| ObjectTables.RepliesMean | dbus/bus.cc:211-259 | Over every sequence a get hands out the object under the name or one not handed out before, a remove tells whether there was one and posts exactly it, and every object created is under one name or was posted once |
| ObjectTables.ProxyTable.GetObjectProxyWithOptions | dbus/bus.cc:211-229 | The in-place lookup computes the table step |
| ObjectTables.ProxyTable.RemoveObjectProxyWithOptions | dbus/bus.cc:239-259 | The in-place removal computes the table step and posts the object |
| MessageText.WriteThenRead | dbus/message.cc:478-752 | Every well-typed tree of values, of any nesting, is read back as the wire carries it with no data left over, and equal to what was written if and only if its strings hold no NUL |
| MessageText.ReadAll | dbus/message.cc:776-848 | Popping until no data is left returns exactly the items ahead |
| MessagePrinter.ToStringInternal | dbus/message.cc:91-235 | On every well-formed message the cursor-driven printer terminates, prints what a left-to-right walk over the tape with a stack of open containers prints, and never prints "[broken message]" |
| MessagePrinter.RendererPrintsTape | dbus/message.cc:188-221 | The recursive renderer and the walk with the stack print the same, for any nesting |
| PrintedText.EveryLineIndented | dbus/message.cc:91-235 | If no text has a newline, every line is begun by one token, behind what the tokens before it print, with the given indent and exactly two spaces for each container open there |
| PrintedText.TextTells | dbus/message.cc:96-187 | Two basic values print alike if and only if they have one type and the same number, truth or shown text |
| PrintedText.TextDeterminesMessage | dbus/message.cc:91-235 | Two well-formed messages whose texts have no newline print alike if and only if they are the same trees with basic values that print alike |
| PrintedText.NewlineForges | dbus/message.cc:162-179 | A message with one string and a message with two that print alike |
| PrintedText.BasicTexts | dbus/message.cc:96-187 | The literal text of a message of one basic value, for each type, strings cut from 100 characters on |
| PrintedText.ContainerTexts | dbus/message.cc:188-221 | The literal text of a container with one item, for each kind and any indent |
| MessageText.WireTyped | dbus/message.cc:520-542 | Cutting strings at a NUL changes neither signature nor typing |
| MessageCodec.WireExact | dbus/message.cc:520-542 | A value reaches the wire unchanged if and only if its strings hold no NUL |
| MessageCodec.WireCuts | dbus/message.cc:520-542 | On the wire a text is cut at its first NUL, and nothing else changes |
| MessageCodec.TypeCodes | dbus/message.h:66-84 | The type codes and the signatures of containers |
| MessageCodec.NextSkips | dbus/message.cc:1044-1073 | Advancing an iterator passes exactly one item, whatever its nesting |
| MessageCodec.WriteValue | dbus/message.cc:544-595 | Bracketed open, append and close calls write exactly the encoding of the tree |
| MessageCodec.MessageWriter.AppendArrayOf | dbus/message.cc:653-673 | The loop writes the array of the given elements, also when empty |
| MessageCodec.MessageWriter.AppendVariantOfBasic | dbus/message.cc:745-752 | It writes the variant of the basic value |
| MessageReading.PopsAreSubsequence | dbus/message.cc:850-954 | Over any sequence of succeeding and failing pops, of basic values, whole arrays, variants or sub-readers, the contents come from items at increasing positions, each the content that the very pop that returned it looks for |
| MessageReading.ContentIs | dbus/message.cc:850-954 | A pop finds something if and only if the item is made of it: the one value, a variant of it, the array of these values or the container with these items, all of the type asked for |
| MessageReading.ItemsTaken | dbus/message.cc:850-954 | After any sequence of pops the items gone are one for each success and one for each right container with wrong contents, and none for a wrong outer type |
| MessageReading.MessageReader.GetDataSignature | dbus/message.cc:1034-1042 | The signature read off the tape is that of the next item, of any nesting |
| MessageReading.RunPops | dbus/message.cc:771-1080 | Running the pops on a reader returns exactly those contents and leaves exactly the rest; each sub-reader handed out stands inside its container whatever was popped since |
| MessageReading.MessageReader.PopBasic | dbus/message.cc:1053-1063 | It succeeds exactly on an item of that type, returns it and moves past it; otherwise nothing moves |
| MessageReading.MessageReader.PopContainer | dbus/message.cc:1065-1073 | The sub-reader stands at the contents, this reader behind the container |
| MessageReading.MessageReader.PopArray | dbus/message.cc:927-954 | The loop returns all elements if all have the type, and fails past the array otherwise |
| MessageReading.MessageReader.PopFixedArray | dbus/message.cc:850-925 | Looking at the first element's type only is right for every well-typed array |
| Statistics.GetAsLines | dbus/dbus_statistics.cc:163-244 | One line for each group of the calls counted and no other, in key order, with that group's exact sums; totals over all lines are the numbers of calls counted |
| Statistics.ReportLines | dbus/dbus_statistics.cc:163-244 | The one-pass loop with running totals equals the group-by over the sorted entries |
| Statistics.DBusStatistics.AddStat | dbus/dbus_statistics.cc:65-103 | The entries stay sorted and count exactly the calls from the origin thread |
| Statistics.NewGroup | dbus/dbus_statistics.cc:174-196 | In key order a group, once left, does not come back |
| Statistics.LessStringIs | dbus/dbus_statistics.cc:26-29 | The order of strings: a proper beginning first, otherwise the first difference |
| Statistics.GroupIs | dbus/dbus_statistics.cc:188-192 | Two calls share a line if and only if they agree in the parts of the key that the level shows |
| Statistics.CountIsNumber | dbus/dbus_statistics.cc:65-83 | The count of a group is the number of its calls |
| Statistics.TallyCountsCalls | dbus/dbus_statistics.cc:65-83 | The three kinds add up to the number of calls |
| TokenManager.EveryQuestionAnsweredOnce | crypto/nss_util_chromeos.cc:174-281 | In every run not overtaken, once finish was called each question asked before or since has one answer, in order: enabled or not, or the slot held, which is the slot of the one reply, non-null exactly if the token is enabled; before that all wait |
| TokenManager.SlotIsReplied | crypto/nss_util_chromeos.cc:237-261 | In every run there is at most one reply, and the slot held is its slot, or null without one |
| TokenManager.NoQuestionLostOrRepeated | crypto/nss_util_chromeos.cc:428-446 | In every run, overtaken or not, answers are for the first questions asked, one each in order, and the rest wait |
| TokenManager.FinalStatesStayFinal | crypto/nss_util_chromeos.cc:491-501 | Final state and slot stay over any events without an overtaken reply |
| TokenManager.StaysFinalIffNeverOvertaken | crypto/nss_util_chromeos.cc:256-258 | Over any events a final state is kept throughout if and only if finish never overtook a successful reply |
| TokenManager.VerdictsAgreeIff | crypto/nss_util_chromeos.cc:198-281 | Over every run all callers get one verdict if and only if finish overtook no successful reply, or nothing was asked before the overtaken reply, or nothing after it, or finish was not called again; an overtaken run answers exactly disabled and null to the questions before the reply, enabled and the slot to those after it |
| TokenManager.OvertakenVerdictsDiffer | crypto/nss_util_chromeos.cc:198-219 | A run in which two callers get different verdicts |
| TokenManager.ChromeOSTokenManager.FinishInitializingTPMTokenAndSystemSlot | crypto/nss_util_chromeos.cc:198-219 | The notifying loop answers each waiting question once and queues none again |
| TokenManager.ChromeOSTokenManager.AskNow | crypto/nss_util_chromeos.cc:263-281 | In a final state the answer posted says whether the token is enabled, or names the slot held; otherwise the question is queued |
| TokenManager.ChromeOSTokenManager.OnInitializedTPMTokenAndSystemSlot | crypto/nss_util_chromeos.cc:237-261 | The reply sets the slot, and the state only if there is one |
| PrivateSlots.EveryUserAnswered | crypto/nss_util_chromeos.cc:315-383 | In every run over all users, each user's answers are for the first requests, one each in order with the slot held, the rest wait, and none waits once a non-null slot is held |
| PrivateSlots.RequestsAnsweredOnce | crypto/nss_util_chromeos.cc:71-93 | The same for one user, whatever slots are delivered, and nothing is answered before the slot is set |
| PrivateSlots.SlotSetAtMostOnce | crypto/nss_util_chromeos.cc:89-93 | After the setting the slot never changes, no other setting is possible, and later requests are all answered if and only if the slot is non-null or there are none |
| PrivateSlots.SlotUnsetWhenSet | crypto/nss_util_chromeos.cc:89-93 | Whenever the slot is set it was null and nothing was answered |
| PrivateSlots.NullSlotStrands | crypto/nss_util_chromeos.cc:71-93 | A request behind a delivered null slot waits through every continuation |
| PrivateSlots.UsersIndependent | crypto/nss_util_chromeos.cc:315-324 | Over any interleaving each user is in the state its own events lead to |
| PrivateSlots.ChromeOSUserData.SetPrivateSlot | crypto/nss_util_chromeos.cc:89-93 | The notifying loop calls back each waiting request once, in order |
| PrivateSlots.ChromeOSUserData.GetPrivateSlot | crypto/nss_util_chromeos.cc:71-87 | The slot is returned if set; otherwise null, and the callback waits |
| PrivateSlots.UserMap.GetPrivateSlotForChromeOSUser | crypto/nss_util_chromeos.cc:401-419 | Only the named user changes; without a name a null answer is posted |
| PrivateSlots.UserMap.OnInitializedTPMForChromeOSUser | crypto/nss_util_chromeos.cc:357-365 | The delivered slot goes to the named user only |
| Foregrounder.OutcomeRecordedOnce | crypto/user_verifying_key_win.cc:112-207 | For every placement of Stop: at most one outcome, exactly one once the chain has ended, and an iteration count of at most 40 |
| Foregrounder.OutcomeIsFirstSight | crypto/user_verifying_key_win.cc:155-207 | The reported iteration is the first at which the window was there, and each outcome says what was seen |
| Foregrounder.SearchBounded | crypto/user_verifying_key_win.cc:155-207 | First-appearance polling is left within 41 polls after the start |
| Foregrounder.StopEndsChain | crypto/user_verifying_key_win.cc:125-163 | Once stopped the next task ends the chain with one outcome recorded |
| Foregrounder.HelloDialogForegrounder.BringHelloDialogToFront | crypto/user_verifying_key_win.cc:155-207 | The in-place body computes the polling step |
| KeyFlows.CallbackRunsOnce | crypto/user_verifying_key_win.cc:223-344 | Over every interleaving the callback has run exactly once when the flow has settled and not before; sign and generate record exactly one result, get one exactly if a handler fired |
| KeyFlows.StoppedBeforeCallback | crypto/user_verifying_key_win.cc:393-509 | Whenever the callback has run, the foregrounder was told to stop before it, or was never and will never be started |
| KeyFlows.ForegrounderSettles | crypto/user_verifying_key_win.cc:300-344 | A settled flow whose chain is over recorded one foregrounding outcome if it was started and none otherwise, and any later start or poll ends the chain |
| KeyFlows.StartIsFirst | crypto/user_verifying_key_win.cc:119-123 | The start never meets a foregrounder already started |
| KeyFlows.RecordMatchesAnswer | crypto/user_verifying_key_win.cc:234-298 | Success is recorded exactly when the caller gets a payload, just before it |
| KeyFlows.CallerToldOutcome | crypto/user_verifying_key_win.cc:234-450 | Over every interleaving the caller is told a payload if and only if a handler fired with every platform call behind it successful, and then that payload, and a cancellation if and only if the status variable holds one, which signing believes also when it was never set |
| KeyFlows.OutcomeTable | crypto/user_verifying_key_win.cc:234-577 | Over every interleaving each result code is recorded, and each error told, if and only if the first failing platform call or the status given calls for it |
| KeyFlows.UnreportedCancellation | crypto/user_verifying_key_win.cc:234-258 | Over every interleaving the caller is told of a cancellation the platform did not report if and only if signing could not read the status and the unset variable holds one |
| KeyFlows.UnreadStatusTakenForRefusal | crypto/user_verifying_key_win.cc:241-254 | A signing run whose status could not be read and whose caller is told of a cancellation that nobody reported |
| KeyFlows.KeyOperation.OnSuccess | crypto/user_verifying_key_win.cc:393-450 | The success handlers stop, record and answer as the step says, branch by branch |
| KeyFlows.KeyOperation.SignInternal | crypto/user_verifying_key_win.cc:300-344 | Signing fails at the first failing call with one record and one callback, or registers the handlers |
| KeyFlows.KeyOperation.GetInternal | crypto/user_verifying_key_win.cc:528-577 | Getting fails with one callback and no record, or registers the handlers |
| ProcessBound.RoundsUpWithinMask | crypto/process_bound_string.cc:33-40 | The mask expression is the least multiple of the block not below the size if and only if the size is at most 2^32 minus the block; otherwise it is below the size |
| ProcessBound.MaskKeepsBits | crypto/process_bound_string.cc:33-36 | The bitwise and with the mask keeps exactly the bits between block and mask width |
| ProcessBound.MaskWidth | crypto/process_bound_string.cc:33-40 | The mask has 32 bits |
| ProcessBound.StoreThenRead | crypto/process_bound_string.h:74-118 | Within the bound every string comes back unchanged whether encryption is off, fails or succeeds; beyond it the tail is lost or the read leaves the buffer; a string not ending in zero comes back if and only if it fits |

## Left out

- Object managers: they hold one filter and one rule like an object proxy and are released at shutdown in the same way; their table is covered by `ObjectTables` with constant options.
- The task queues, the object table and the thread hand-off are modelled on values (`BusProtocol.System`); the classes cover what runs inside one task.
- The ledgers after new work is issued behind a shutdown: the theorems about a queued shutdown are about clients that post nothing after it and do not use an object once they dropped it.
- BusClasses.ShutdownAndBlock: the CleanUp of object managers, which give back their filter and rule like a proxy.
- OwnerChangeNotifiesRegistered: an invalid NameOwnerChanged signal is not an action, because it changes nothing, as `OnServiceOwnerChanged` states.
- BusMessages.MethodCalls.RunSender: a client that never runs its sender aborts the process in the source; here the call stays in flight.
- Match rules are a datatype, not text; rules of equal text are equal values.
- ObjectProxy method calls, signal dispatch and name-owner tracking, file-descriptor watches, timers, blocking-call scopes, crash keys and histogram plumbing.
- Message headers, file descriptors, protobuf arrays and the writers of fixed arrays (they put the same items on the tape as single appends).
- Integer ranges of basic values: they are unbounded integers on the tape; the source's types bound them before they are written.
- ToStringInternal: number formatting and UTF-8 truncation are parameters, and unhandled type codes do not occur on the modelled tapes.
- GetAsLines: gives lines as a label key and three totals; their text, the per-minute division and the two texts for no statistics are not modelled, nor is the overflow of `int` counters.
- AddStat: finds the place in the ordered map by walking it; the ordered map of the source is a foreign container.
- Opening and closing of NSS databases, public slots, test hooks and resets; a callback that asks again for a private slot while it is being notified.
- PrivateSlots.ChromeOSUserData.SetPrivateSlot: with a null slot and requests waiting the source calls `PK11_ReferenceSlot` on null; that NSS then returns null is assumed.
- InitializeTpm: whether the chaps module is loaded is a parameter of the event.
- KeyFlows: deletion, availability of the key manager and algorithm selection, which have one callback and no race.
- KeyFlows.KeyOperation.SignInternal: ends at the registration of the handlers; starting the foregrounder is a step of its own because a handler may fire in between.
- BoundString: the cipher works on characters instead of bytes; decryption of a buffer encrypted in this process is assumed to succeed; wiping of memory is not modelled.
- BoringSSL, NSS, CNG and Keychain wrappers for hashes, signatures, keys and ciphers: each forwards to a foreign library.
