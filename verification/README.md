# Bourse: a verified model of the exchange server

This project models a multithreaded exchange server ("Bourse") in Dafny and proves properties of the
model. Clients connect, log in as traders, move funds and units in and out of their accounts, and post
buy and sell orders, which a matchmaker turns into trades. The model is built in layers, and the top
layer joins them.

**Client registry** (`RegistryProtocol`, `RegistryInvariant`, `RegistryTermination`, `RegistryShutdown`,
`ClientRegistries`). Every P, V, array write and counter update of `creg_register`, `creg_unregister`,
`creg_shutdown_all` and `creg_wait_for_empty` is one step of one thread. Any number of service threads
interleave with one terminating thread. An accounting invariant says who holds each unit of each
semaphore; from it follow mutual exclusion, dead error branches, the single place of the `count_mutex`
token, the exact set of states in which nothing moves, which connections a shutdown reaches, and when it
ends. The structure itself is a class whose methods are proved equal to the protocol's steps run without interference.

**Accounts and exchange** (`Accounts`, `Market`, `Ledger`, `MarketLaws`, `Tape`, `Guarantees`; in
place: `TraderMaps`, `Exchanges`). Accounts are 32-bit and wrap around without a check. Each operation is a
function on values and, where the program updates in place, a method proved to compute it. A history of
acknowledged changes is kept beside the state (`journal`, and `balanceWraps`, `inventoryWraps` for lost
carries); it is bookkeeping of the proof and nothing in the model reads it. `Ledger` proves operation by
operation that accounts plus encumbrances equal what the history says, per trader and per order.
Amounts are added up by repeated addition (`Sums.Product`, `Accounts.Low`, `Accounts.Carry`) to keep
the proofs linear; `Sums.ProductIs` and `Accounts.LowAndCarry` say what they are.

**Service threads** (`Service`, `RequestEffects`, `ClientServices`). One request as `brs_client_service`
dispatches it, the replies it sends, and the loop of one thread. `RequestEffects` says what each request,
login, logout and trade does in plain numbers, without the functions that compute it.

**Whole server** (`Server`, `ServerSafety`, `ServerHistory`, `Wraparound`). Registry protocol, sessions,
exchange, matchmaker and terminating thread in one transition system; invariants and theorems over all its
runs.

**Streams and packets** (`Sockets`, `RobustIO`, `Protocol`, `Packets`). read(2) and write(2) follow a script
of short counts, interruptions and failures that the theorems quantify over. The buffered and unbuffered
robust I/O routines refine the plain byte stream, packet lists round-trip, and a client's visit is the
same whatever the network does to its bytes.

**Number printing** (`SignalSafeIO`). `sio_ltoa` with its in-place reversal, inverted by a parser.

## Assumptions

- `Accept` yields descriptors that are >= 0 and distinct from all open ones; a descriptor is open until
  the `Close` of its thread; `shutdown` ends the read side of the open connection of that descriptor.
- The registry has any number n of entries; src/client_registry.c:22 takes FD_SETSIZE.
- One thread shuts down and waits, in the order sweep, wait. The model lets connections be accepted at any
  time; theorems about the end of shutdown say where they need that none is.
- Each service thread unregisters the descriptor it registered.
- Login, logout and each other request act on the traders map and the exchange as one atomic step, and so
  does a trade. The map-wide scans have no lock of their own in src/trader.c.
- The reference count of a new trader starts from 0. The code leaves it unset (src/trader.c:97); its two
  `trader_ref` calls intend 0.
- A trader pointer is the slot of the trader in the map.
- The exchange is known by include/exchange.h only. A successful cancel returns what the order still
  encumbers, which the header implies and does not spell out. `quantity * price` is exact: a post whose
  maximum cost exceeds the balance fails. The last trade price before any trade is a parameter.
- A payload holds at least the structure its type needs. A login name is the payload up to its first NUL.
- A long has 64 bits in two's complement, negation included, and / and % truncate toward zero.
- Once a descriptor's script of transfers is used up, calls transfer all they can.

Where documentation and code disagree the model follows the code:

- include/trader.h:61-62 promises two references for a trader returned by a login. `Service.LoginReferences`
  gives the exact condition, `Service.ThreeReferences` a run in which there are three, because a refused
  login never returns its reference (src/trader.c:57 and 80-82).
- include/protocol.h:185-186 promises that 0 means a packet was received. `Protocol.SuccessIsWhole` gives
  the exact condition; short headers and payloads are accepted otherwise (src/protocol.c:57-85).
- Conservation of funds fails when a balance wraps. `Wraparound.ConservedWhenCreditsFit` gives the exact
  condition, a guard read before each step; `Guarantees.ConservationCanFail` a run.
- src/main.c:100-101 expects the sweep to end every service thread. `RegistryShutdown.SweepIsExact` and
  `RegistryShutdown.ShutdownIsExact` give the exact condition, `RegistryShutdown.LateClientIsMissed` a run
  that waits for ever. Where the condition holds, an end is promised as long as the terminator is scheduled:
  `RegistryShutdown.EndlessIsStarved` says that nothing else can keep a run going, and
  `RegistryShutdown.ChattyClient` that this can.
- `sio_ltoa` does not print LONG_MIN, whose negation overflows: `SignalSafeIO.WrittenExactly`.

## Model

| member | source | states |
|---|---|---|
| RegistryProtocol.Find | src/client_registry.c:41-48 | the first position of a value in the entries, or -1 exactly when it is not there |
| RegistryInvariant.InitInv | src/client_registry.c:18-38 | a fresh registry of any size satisfies the accounting |
| RegistryInvariant.AlwaysInv | src/client_registry.c:41-121 | main result: after any interleaving of any number of threads, slots + threads past P(slots) before their write + occupied entries + threads that cleared and have not posted = n; items + writers before V(items) + takers before their clear = occupied entries; one holder of mutex; the count_mutex token in one place; entries and threads in correspondence |
| RegistryInvariant.ApplyKeepsInv | src/client_registry.c:56-121 | every single P, V, array write, counter update, test, delivery, hang-up and signal keeps that accounting |
| RegistryInvariant.OneHolder | src/client_registry.c:59-73 | mutual exclusion: a thread between P(mutex) and V(mutex) excludes every other and the sweep |
| RegistryInvariant.SearchFinds | src/client_registry.c:61-64 | searchForEmptySlot under the lock never returns -1, so the return that keeps the mutex is dead |
| RegistryInvariant.ScanFinds | src/client_registry.c:84-103 | a thread that unregisters its own descriptor always finds it, so the miss branch is dead |
| RegistryInvariant.TokenAvailable | src/client_registry.c:68-70 | P(count_mutex) under the lock finds the token unless the waiter has taken it |
| RegistryInvariant.ItemAvailable | src/client_registry.c:81 | P(items) never blocks |
| RegistryInvariant.TokenWindows | src/client_registry.c:68-70 | counted and admitted clients differ exactly by the two windows between the counter update and the settled token, and the windows belong to the lock holder |
| RegistryInvariant.InWindow | src/client_registry.c:88-92 | inside a window exactly one client is counted and not admitted, or admitted and not counted |
| RegistryInvariant.RegisterKeepsToken | src/client_registry.c:67-73 | every statement of creg_register keeps the token in exactly one place |
| RegistryInvariant.UnregisterKeepsToken | src/client_registry.c:88-94 | every statement of creg_unregister keeps the token in exactly one place |
| RegistryTermination.WaitMeansEmpty | src/client_registry.c:107-112 | when creg_wait_for_empty can pass, every client that got past the guarded P has given its departure; an entry still there belongs to a client that has not got past it |
| RegistryTermination.NoAdmissionAfterWait | src/client_registry.c:67-70 | once the waiter has passed, in every continuation no client gets past the guarded P |
| RegistryTermination.LockHolderRuns | src/client_registry.c:59-73 | no thread that holds mutex ever blocks, until the waiter has the token |
| RegistryTermination.StuckStates | src/client_registry.c:56-112 | main result, deadlock freedom: nothing can move only when every unfinished thread awaits its own client, or waits for a slot while all n entries belong to such threads |
| RegistryTermination.ActionMeasure | src/server.c:33-57 | each statement of a thread or of the terminator takes away from the work left; only an accept or an arriving packet adds to it |
| RegistryTermination.WorkIsBounded | src/server.c:33-57 | main result: over every run the statements performed never exceed the initial work plus what arrived |
| RegistryShutdown.AlwaysEndedOnExit | src/server.c:39-57 | a thread leaves its service loop only after the read side of its connection has ended and every packet that had arrived has been received |
| RegistryShutdown.SweepThenWait | src/main.c:99-106 | in every run the terminator is where the number of its statements puts it: all entries swept under the lock, then the wait, and nothing before a signal |
| RegistryShutdown.SweepIsExact | src/client_registry.c:114-121 | main result, exact: whatever threads, clients and new connections do meanwhile, the sweep ends the connection of a client that stays on line if and only if it had ended before or its entry was in the registry when the lock was taken |
| RegistryShutdown.SweepAlone | src/client_registry.c:114-121 | the sweep without interference ends exactly the open connections whose descriptors are entries and frees the lock |
| RegistryShutdown.SweepEnds | src/client_registry.c:116-120 | a sweep that finds every open connection ended or registered is over once the terminator has executed its n + 1 statements; after it no client can add work |
| RegistryShutdown.LateClientIsMissed | src/main.c:99-106 | a concrete run, for every registry size: a client accepted before the signal that registers after the sweep keeps the waiter waiting for ever |
| RegistryShutdown.DrainIsFinite | src/client_registry.c:114-121 | after the sweep every run is finite, bounded by the work left |
| RegistryShutdown.ShutdownIsBounded | src/main.c:99-106 | main result: in that situation, with no client started after, what follows the terminator's n + 1 statements is no longer than the work then left; the bound is conditional on the terminator being scheduled that often |
| RegistryShutdown.EndlessIsStarved | src/main.c:99-106 | main result: in that situation an endless run exists only by starving the terminator: from some point on it can always execute a statement and never does |
| RegistryShutdown.ChattyClient | src/client_registry.c:116-120 | a concrete endless run of that kind: a client that keeps sending during the sweep |
| RegistryShutdown.ShutdownTerminates | src/main.c:99-106 | main result: in that situation a finite run that cannot be continued has let the waiter pass, and finished every thread when all had their entries announced or nearly |
| RegistryShutdown.UnregisteredIsMissed | src/main.c:99-106 | the converse: from any such sweep over at least one entry, an open connection that is neither ended nor registered has a run, with no client doing anything, that gets stuck with the waiter waiting |
| RegistryShutdown.ShutdownIsExact | src/main.c:99-106 | main result, exact: every run from the start of the sweep that cannot be continued has let the waiter pass if and only if every open connection had ended or was registered at that start |
| ClientRegistries.ClientRegistry.constructor | src/client_registry.c:18-38 | n empty entries, count 0, semaphores 1, 1, n and 0 |
| ClientRegistries.ClientRegistry.SearchForEmptySlot | src/client_registry.c:41-48 | the first empty entry or -1 |
| ClientRegistries.ClientRegistry.Register | src/client_registry.c:56-76 | in place: exactly the protocol steps run without interference; 0 with the entry written, or -1 with the lock held exactly when no entry is empty |
| ClientRegistries.ClientRegistry.Unregister | src/client_registry.c:79-103 | in place: exactly the protocol steps run without interference; 0 with the entry cleared, or -1 exactly when the descriptor is missing |
| ClientRegistries.ClientRegistry.ShutdownAll | src/client_registry.c:114-121 | in place: asks for the shutdown of every entry in order, empty ones included; exactly the open connections with an entry end, and the registry is as it was |
| ClientRegistries.ClientRegistry.WaitForEmpty | src/client_registry.c:107-112 | takes the token and nothing else |
| ClientRegistries.RegisterAlone | src/client_registry.c:56-76 | registering completes exactly when no P on its way would block and an entry is empty; then the registry has one client more |
| ClientRegistries.UnregisterAlone | src/client_registry.c:79-103 | unregistering an unknown descriptor posts slots without freeing an entry, and only then is reported |
| ClientRegistries.UnregisterUndoesRegister | src/client_registry.c:56-103 | register followed by unregister of the same descriptor gives back the registry, token included |
| Accounts.LowAndCarry | src/trader.c:230-234 | what a 32-bit += keeps and carries out: remainder and quotient by 2^32 |
| Accounts.FindFirst | src/trader.c:50-71 | the first match of a front-to-back scan of the map, or -1 exactly when there is none |
| Accounts.FreshLogin | src/trader.c:89-124 | a new name goes into slot count, so getFirstAvailableIndex returns the old count and never -1, and the map stays packed with distinct names |
| Accounts.RepeatedLogin | src/trader.c:74-87 | a known name changes neither count nor the packing |
| Accounts.FoundByName | src/trader.c:127-164 | the scans by name in logout and removal find the trader itself |
| Accounts.UnrefRemovesItself | src/trader.c:151-175 | should a count reach zero, the trader removed by the scan for its name is the trader itself |
| TraderMaps.Trader.IncreaseBalance | src/trader.c:230-234 | in place: the sum reduced to 32 bits, the carry remembered |
| TraderMaps.Trader.DecreaseBalance | src/trader.c:236-249 | in place: -1 and unchanged exactly when the balance is too small |
| TraderMaps.Trader.IncreaseInventory | src/trader.c:251-255 | in place: the sum reduced to 32 bits, the carry remembered |
| TraderMaps.Trader.DecreaseInventory | src/trader.c:257-270 | in place: -1 and unchanged exactly when the inventory is too small |
| TraderMaps.Trader.TakeRef | src/trader.c:141-149 | in place: one reference more and nothing else |
| TraderMaps.TraderMap.constructor | src/trader.c:25-31 | 64 empty slots |
| TraderMaps.TraderMap.SlotNamed | src/trader.c:52-54 | the first slot with a trader of that name, or -1 exactly when there is none |
| TraderMaps.TraderMap.CheckOldTraderAndLogin | src/trader.c:50-62 | in place: the first trader of that name with one more reference, or null and no change |
| TraderMaps.TraderMap.GetFirstAvailableIndex | src/trader.c:64-71 | the first empty slot or -1 |
| TraderMaps.TraderMap.Login | src/trader.c:74-124 | in place: exactly the login on values, pointer and slot |
| TraderMaps.TraderMap.Logout | src/trader.c:127-139 | in place: exactly the logout on values |
| TraderMaps.TraderMap.RemoveTraderIfEmpty | src/trader.c:151-164 | in place: at zero references the first slot of that name is emptied, otherwise nothing changes |
| TraderMaps.TraderMap.Unref | src/trader.c:166-175 | in place: exactly the release of one reference on values |
| Ledger.DepositEven | src/trader.c:230-255 | deposits and escrows change account and history by the same amounts, wraps counted |
| Ledger.WithdrawEven | src/trader.c:236-270 | withdrawals and releases, refused ones included, keep the books even |
| Ledger.PostBuyEven | include/exchange.h:101-118 | posting a buy moves the maximum cost from the account to the order and takes one reference |
| Ledger.PostSellEven | include/exchange.h:120-137 | posting a sell moves the units from the account to the order and takes one reference |
| Ledger.CancelBuyEven | include/exchange.h:139-158 | canceling a buy returns what it still encumbers and its reference |
| Ledger.CancelSellEven | include/exchange.h:139-158 | canceling a sell returns what it still encumbers and its reference |
| Ledger.TradeSays | include/exchange.h:52-62 | proceeds, refund and remaining encumbrance add up to what the buy had set aside |
| Ledger.TradeEven | include/exchange.h:43-64 | a trade moves funds, units and references between the two accounts and orders, column by column, also when a trader trades with itself |
| MarketLaws.OpeningSound | include/exchange.h:81-86 | the empty exchange satisfies the invariant |
| MarketLaws.DepositSound | src/trader.c:230-255 | deposit and escrow keep the invariant: packed map, orderly book, even books for every trader and every order |
| MarketLaws.WithdrawSound | src/trader.c:236-270 | withdraw and release keep the invariant |
| MarketLaws.PostBuySound | include/exchange.h:101-118 | posting a buy keeps the invariant |
| MarketLaws.PostSellSound | include/exchange.h:120-137 | posting a sell keeps the invariant |
| MarketLaws.CancelSound | include/exchange.h:139-158 | canceling keeps the invariant |
| MarketLaws.TradeSound | include/exchange.h:31-64 | a trade keeps the invariant |
| MarketLaws.LogInSound | src/trader.c:74-124 | a login, successful or not, keeps the invariant |
| MarketLaws.LogOutSound | src/trader.c:127-139 | a logout keeps the invariant |
| MarketLaws.RefAccounting | src/trader.c:50-62 | exact reference accounting: map + session + pending orders + refused logins |
| MarketLaws.NeverRemoved | src/trader.c:151-175 | no reference count reaches zero, so removeTraderIfEmpty never removes |
| MarketLaws.PairHoldsRefs | include/exchange.h:101-105 | the orders of a matching pair hold references of their own, two when one trader posted both |
| Tape.ClampIsClosest | include/exchange.h:37-41 | the trade price is the price in the overlap closest to the last one |
| Tape.TradeTruthful | include/exchange.h:37-41 | after any trade the whole history is still truthful: every trade and cancellation goes back to earlier postings with its traders and limits, prices follow the rule, every posting has a number of its own |
| Tape.PostTruthful | include/exchange.h:75-77 | a posting keeps the history truthful; its number is new |
| Tape.SessionNow | src/trader.c:74-139 | a trader has a session exactly when it has logged in once more than it has logged out |
| Tape.LogoutBetween | src/trader.c:74-87 | between two successful logins of a trader there is a logout |
| Guarantees.Conservation | include/exchange.h:43-64 | main result: balances + 2^32 * wraps + quantity * max price of pending buys = deposits - withdrawals, and the same for units |
| Guarantees.ConservedExactly | src/trader.c:230-255 | conservation without the remembered wraps holds if and only if no balance (no inventory) has wrapped; the condition on the calls is in Wraparound.ConservedWhenCreditsFit |
| Guarantees.NoWraparound | src/trader.c:230-255 | while net deposits (escrows) fit 32 bits no balance (inventory) has wrapped, whatever was traded or refunded |
| Guarantees.DepositWraps | src/trader.c:230-234 | a deposit wraps exactly when balance plus amount passes 32 bits, and then the balance drops |
| Guarantees.ConservationCanFail | src/trader.c:230-234 | a concrete run in which two deposits lose funds |
| Guarantees.AccountIsReplay | src/server.c:102-143 | each balance and inventory equals the fold of its acknowledged changes modulo 2^32, across all sessions |
| Guarantees.OrderQuantity | include/exchange.h:43-50 | for every order, given by its one posting, over all partial fills: quantity posted = traded + canceled + pending on its side |
| Guarantees.OrderFunds | include/exchange.h:52-62 | for every buy order, given by its one posting: quantity * price posted = paid + refunded + returned on cancel + maximum cost of the rest |
| Guarantees.OfOnePosting | include/exchange.h:75-77 | pending orders, trades and cancellations with the number of a posting are of its side, trader and limit, and later than it |
| Guarantees.TradeShrinks | include/exchange.h:43-50 | every trade removes at least one order, so matching ends |
| Guarantees.Bid | include/protocol.h:148 | the highest price among the pending buys |
| Guarantees.Ask | include/protocol.h:149 | the lowest price among the pending sells |
| Guarantees.BidBelowAsk | include/exchange.h:26-34 | no orders match if and only if the bid is below the ask |
| Exchanges.Exchange.constructor | include/exchange.h:81-86 | in place: the empty exchange over an empty map |
| Exchanges.Exchange.PostBuy | include/exchange.h:101-118 | in place: exactly the posting on values, 0 when the funds are not there, also when the cost passes 32 bits |
| Exchanges.Exchange.PostSell | include/exchange.h:120-137 | in place: exactly the posting on values, 0 when the units are not there |
| Exchanges.Exchange.Cancel | include/exchange.h:139-158 | in place: exactly the cancellation on values; only the poster, only while pending |
| Exchanges.Exchange.GetStatus | include/exchange.h:96-99 | highest bid, lowest ask and last price of the book |
| Exchanges.Exchange.Settle | include/exchange.h:52-64 | in place: exactly the settlement on values: proceeds, units, refund, references |
| Exchanges.Exchange.TradePair | include/exchange.h:31-64 | in place: exactly one trade of the pair on values |
| Exchanges.Exchange.Matchmake | include/exchange.h:26-34 | main result: the loop with any choice of pairs ends, adds trades only, keeps books even and history traceable, and leaves no matching pair |
| Service.HandleSound | src/server.c:58-200 | every request of every client keeps the exchange invariant |
| Service.HandleTruthful | src/server.c:58-200 | every request keeps the history traceable |
| Service.LoginFirst | src/server.c:92-95 | before a login nothing but a login has an effect or an answer |
| Service.LoginAnswer | src/server.c:63-89 | a login is answered once; refused exactly when the name has a session or is new to a full map; it touches no other session |
| Service.NameOfPayload | src/server.c:73-76 | the name in a login payload is its part before the first NUL, or all of it |
| Service.LoginReferences | include/trader.h:60-62 | exact, read before the login: the returned trader has two references if and only if the name is new or its trader had no pending order and no refused login, that is, if the map held its only reference |
| Service.ThreeReferences | src/trader.c:74-87 | a concrete run with three references at a login |
| Service.OneAnswer | src/server.c:96-198 | each request of a logged-in client, a second login included, gets exactly one reply to its session: Nack with nothing changed exactly under the stated condition per request, else an Ack with balance, inventory, best bid, best ask and last price as they are now, each in its field |
| Service.LoggedInSessions | src/server.c:96-198 | no request of a logged-in client changes a session, a name or a slot |
| Service.VisitEndsSession | src/server.c:39-57 | whatever a client sends, its visit ends with even books and no session of its descriptor |
| Service.ServingOneMore | src/server.c:33-57 | the replies to one more packet follow those to the packets before it |
| Service.ServingInOrder | src/server.c:33-57 | the replies to the first packets are the first replies |
| RequestEffects.AcknowledgedEffect | src/server.c:102-198 | main result: an acknowledged request does exactly what its own fields say to the balance, inventory and references of its trader, to the book, the next order number and the history, and changes nothing else |
| RequestEffects.PostReturnsNumber | include/exchange.h:114-115 | a posting returns the number of its order, the next one, or 0 exactly when the account does not cover it |
| RequestEffects.CancelTakesTheOrder | include/exchange.h:139-158 | a cancellation takes the pending order with that number posted by that trader, returns its pending quantity and what it encumbers, and leaves every order with another number |
| RequestEffects.TradeEffect | include/exchange.h:37-64 | main result: a trade in its own numbers for every trader, buyer, seller, both or neither: price, quantity, proceeds, refund, units, references, both orders, last price and history |
| RequestEffects.LoginEffect | src/trader.c:74-124 | an acknowledged login gives the session and a reference to the account with the name in the payload, or makes an empty one with two references, and changes no other |
| RequestEffects.LogoutEffect | src/trader.c:127-139 | a logout ends the session and takes its reference, and changes no other account, no order and no name |
| ClientServices.ClientService.ReceiveLogin | src/server.c:63-89 | in place: exactly the login request on values, with its reply |
| ClientServices.ClientService.Receive | src/server.c:58-200 | in place: exactly one request on values, with its replies |
| ClientServices.ClientService.Serve | src/server.c:33-57 | in place: the whole loop and the logout after it compute the visit on values, replies in order |
| Server.StartSafe | src/main.c:55-60 | the server starts in a safe state |
| Server.OwnTrader | src/server.c:67-78 | no two threads have the same trader |
| Server.LoginTaken | src/trader.c:74-87 | a login that succeeds is for a trader that no thread has |
| Server.LoginSessions | src/server.c:63-89 | a login keeps sessions and threads in correspondence |
| Server.LogOutSessions | src/server.c:55 | the logout of a thread keeps sessions and threads in correspondence |
| ServerSafety.StepSafe | src/server.c:17-215 | every step of threads, clients, matchmaker and terminator keeps registry accounting, exchange invariant, history and sessions |
| ServerSafety.RunSafe | src/server.c:17-215 | main result: they hold after every run of the whole server |
| ServerSafety.SessionSafety | src/server.c:67-78 | main result: in every run a logged-in trader has the descriptor of exactly one thread, open and in the registry |
| ServerSafety.DistinctDescriptors | src/server.c:205-212 | in every run distinct logged-in traders have distinct descriptors |
| ServerSafety.DistinctEntries | src/client_registry.c:56-103 | in every run the entries of the registry are pairwise distinct |
| ServerSafety.NobodyLoggedIn | src/client_registry.c:107-112 | main result: when creg_wait_for_empty has passed every trader is logged out |
| ServerSafety.EveryRunConserves | include/exchange.h:43-64 | conservation without wraps in every run whose net deposits (escrows) fit 32 bits |
| ServerSafety.EveryTradeIsTraceable | include/exchange.h:75-77 | in every run a trade goes back to exactly one posting per side, both earlier, by its traders with its limits; its price follows the rule |
| ServerSafety.AnsweredToSender | src/server.c:63-198 | what a thread sends while handling a packet goes to its own client, at most once |
| ServerSafety.RunProjects | src/server.c:17-215 | a run of the server is a run of the registry protocol with matches in between |
| ServerSafety.DrainingStep | src/main.c:99-106 | after the sweep every step, matchmaker included, takes away from the work left: a packet adds at most one order |
| ServerSafety.ServerDrains | src/main.c:99-106 | after the sweep every run of the whole server, matchmaker included, is finite |
| ServerSafety.ServerIsBounded | src/main.c:99-106 | main result: from a sweep that finds every connection ended or registered, what follows the terminator's n + 1 statements is no longer than the work then left, matchmaker included |
| ServerSafety.EndlessServerIsStarved | src/main.c:99-106 | main result: an endless run of the whole server from there is one in which from some point on the terminator can always execute a statement and never does |
| ServerSafety.ServerEnds | src/main.c:99-106 | main result: from there a finite run in which no thread and not the terminator can move any more has let the waiter pass, with nobody logged in |
| ServerHistory.EveryRequestInSession | src/server.c:92-95 | main result: in every run each acknowledged request of a trader comes after a login of it, with no logout in between |
| ServerHistory.HistoryIsWhatWasAcknowledged | src/server.c:102-198 | main result: over every run the requests in the history, orders and cancellations included, are exactly those that clients were sent an Ack for, in order and with the values of the requests |
| ServerHistory.RunKeepsNames | src/trader.c:89-97 | in every run a trader in the map stays, under its name |
| ServerHistory.SameTraderSameName | src/trader.c:50-62 | main result: two acknowledged logins with any run between them reach the same trader if and only if their payloads name the same, without NUL if and only if they are equal |
| Wraparound.RequestWraps | src/server.c:102-198 | a request leaves no balance (no inventory) wrapped exactly when none was and what it credits, a deposit, an escrow or the rest of a canceled order, fits the account before it |
| Wraparound.TradeWraps | include/exchange.h:52-62 | the same for a trade: proceeds and refund, added up when one trader posted both orders, and the units bought |
| Wraparound.StepWraps | src/trader.c:230-255 | the same for every step of the server, with a guard read before the step |
| Wraparound.ConservedWhenCreditsFit | src/trader.c:230-255 | main result, exact: after a run funds (units) are conserved if and only if at every step of it the credits fitted the accounts as they were before the step |
| RobustIO.ReadN | src/csapp.c:749-768 | the first n bytes of the stream or all of it, placed in order, whatever the short counts and interruptions; -1 only after a hard error |
| RobustIO.WriteN | src/csapp.c:775-792 | all bytes once and in order, a prefix of them after a hard error |
| RobustIO.Rio.constructor | src/csapp.c:837-842 | an empty buffer: everything is still in the stream |
| RobustIO.Rio.Refill | src/csapp.c:809-820 | refilling loses nothing: buffer and stream together are unchanged |
| RobustIO.Rio.Read | src/csapp.c:805-830 | a nonempty piece from the head of what is pending, none only at its end |
| RobustIO.Rio.ReadN | src/csapp.c:849-864 | exactly the first min(n, pending) bytes, whatever the chunks |
| RobustIO.LineLength | src/csapp.c:871-894 | the line at the head of a stream: up to the newline, the limit or the end |
| RobustIO.LineLengthIs | src/csapp.c:871-894 | that characterization has one solution |
| RobustIO.Rio.ReadLine | src/csapp.c:871-894 | the line, capped at maxlen-1 bytes, NUL behind it within maxlen (none at end of file before the first byte), the return value being the bytes consumed |
| RobustIO.ReadPieces | src/csapp.c:849-894 | main result: any mix of rio_readnb and rio_readlineb returns consecutive pieces of the stream, a function of the stream and the calls alone |
| RobustIO.ReadLines | src/csapp.c:871-894 | lines until 0: ends, and the lines joined are the whole stream |
| Protocol.WordRoundTrip | src/protocol.c:22-23 | ntohl undoes htonl, cutting off what does not fit 32 bits |
| Protocol.NetworkOrder | src/protocol.c:22-23 | words are in network byte order: bytes compare from the first as the numbers do |
| Protocol.Stamped | src/protocol.c:20-23 | stamping changes the two time fields and nothing else of the header |
| Protocol.StampedFields | src/protocol.c:22-23 | after stamping the seconds are read back from bytes 4 to 7 and the nanoseconds from bytes 8 to 11, both modulo 2^32 |
| Protocol.SendPacket | src/protocol.c:17-52 | in place: header stamped, header and payload appended to what was written; -1 only after a hard error, with a prefix written |
| Protocol.ReceivePacket | src/protocol.c:54-90 | exactly what header and payload become for every stream, cut short or not, and what is left of it; without hard errors -1 only at end of file |
| Protocol.SuccessIsWhole | include/protocol.h:185-186 | exact: a success has read a whole packet if and only if the stream held one |
| Protocol.HeaderCutShort | src/protocol.c:57-66 | a concrete stream of one byte that is reported as a success |
| Protocol.FirstFrame | src/protocol.c:54-90 | a receive stops exactly at the next frame boundary |
| Protocol.StreamInjective | src/protocol.c:17-52 | different packet lists have different byte streams |
| Protocol.SendAll | src/protocol.c:17-52 | a list of packets is written as its frames one after the other, whatever the short counts |
| Protocol.ReceiveAll | src/protocol.c:54-90 | receiving until end of file gives exactly the packets of the stream |
| Protocol.RoundTrip | src/protocol.c:17-90 | main result: for every fragmentation and interruption of writing and reading the packets received are the packets sent, with their stamps |
| Packets.DecodeEncode | src/server.c:73-185 | the request read out of a packet is the one the client put in |
| Packets.DecodeReads | src/server.c:96-198 | by packet type number, which word of the payload is which value; the size field in network byte order |
| Packets.DecodeReadsName | src/server.c:73-76 | a login payload is read byte by byte as it stands |
| Packets.VisitOverNetwork | src/server.c:33-57 | main result: effect and replies of a client visit are determined by its requests, whatever the network does to the bytes |
| SignalSafeIO.ParseOfPrinted | src/csapp.c:238-255 | reading back in base b what was printed gives the number, for every base 2 to 36 |
| SignalSafeIO.DigitsPlain | src/csapp.c:245-247 | no superfluous leading zero, no NUL and no sign among the digits |
| SignalSafeIO.WrittenFits | src/csapp.c:276-282 | any 64-bit number with sign and NUL takes at most 65 bytes |
| SignalSafeIO.WrittenExactly | src/csapp.c:238-255 | exact: what is written for a long reads back as it, in every base 2 to 36, if and only if it is not LONG_MIN |
| SignalSafeIO.StrLen | src/csapp.c:258-265 | the position of the first NUL |
| SignalSafeIO.Reverse | src/csapp.c:226-235 | in place: the string in front of the NUL mirrored, everything else as it was |
| SignalSafeIO.StoreDigits | src/csapp.c:245-247 | in place: the digit loop leaves the numeral back to front |
| SignalSafeIO.Ltoa | src/csapp.c:238-255 | in place, for every long: the digits, sign and NUL at the start of the buffer, the rest as it was |
| SignalSafeIO.PutL | src/csapp.c:276-282 | what is handed to write reads back as the number if and only if it is not LONG_MIN |

## Left out

- Sockets, `accept`, DNS, process, signal, mmap and stdio wrappers of src/csapp.c: calls without logic of their own.
- src/main.c apart from the order sweep, wait: argument handling, the context in which the signal handler
  runs, the sharing of `connfdp`.
- Freeing of memory: `creg_fini`, `trader_fini`, `exchange_fini`, payload and header buffers. The registry
  model makes no claim about `creg_unregister` touching the registry after it has posted the token.
- Threads that register after the sweep are outside the termination theorems, as
  `RegistryShutdown.UnregisteredIsMissed` shows they must be.
- Data races on the unlocked traders map and between the map and the exchange; the in-place methods of
  `TraderMaps`, `Exchanges` and `ClientServices` are proved without interference, and interleavings are
  covered by `Server` at the grain of whole requests and trades.
- The per-trader recursive mutexes: under that grain they have no effect.
- Sends that fail (src/trader.c:180-183, which returns with the mutex held) and replies lost on the way.
- Broadcasts and notifications (POSTED, CANCELED, TRADED, BOUGHT, SOLD packets) as packets; their order is the
  order of the history. Broadcasts to logged-out traders (src/trader.c:191-194).
- The order id and quantity fields of an ACK, which the server sets without byte-order conversion before the
  status call fills in the rest; the effect of that call is not visible.
- Order ids are unbounded naturals, not 32-bit.
- The order book is a `seq` of orders in the class `Exchange`: how src stores it is not part of this model.
- Payloads shorter than their structure, and LOGIN without a payload: what src/server.c then reads is not part
  of this model.
- Hard I/O errors beyond the return value: bytes taken before a -1 from `rio_readn` or `rio_readnb` are lost, and
  the contracts say nothing about them.
- write(2) returning 0, for which `rio_writen` looks at an `errno` that the call has not set.
- Protocol.RoundTrip: stated for complete frames and no hard I/O error, because a receive accepts less as success;
  `Protocol.SuccessIsWhole` gives the exact condition.
