# StuStaPay, modelled and proved

A Dafny 4.11 model of the parts of StuStaPay where money and receipts can go wrong: the pipeline that has
every order signed by a security module (TSE) and prints the result as a QR code, the redemption of vouchers
and the daily report that has to explain it, the ledger with the cashier close-out and the payout runs, the
DSFinV-K export, and the synchronisation with the ticket shop. `dafny verify dfyconfig.toml` checks all of it.

The database is explicit state (maps and sequences); one SQL statement or one serializable transaction is one
step. Objects whose methods update fields in place are classes, and each such method is proved against a
function on its old state; the lemmas are about those functions.

| module | what it models | main results |
|---|---|---|
| `VirtualTse` | the simulated device: counters, open transactions, clients | books balance over any command sequence; the bounds the guards really enforce |
| `SignatureTable`, `Signing`, `SigningSafety` | the signing protocol: any number of wrappers, delayed and lost answers, requests of lost connections that arrive late, sweeps, moving tills, restarts | one pending signature per till, first in first out, statuses only move forward, distinct numbers, signatures belong to their order |
| `SigningHistory`, `SigningClients` | what happened on a device between its answers | exactly when an order is signed under its own number; exactly when a wrapper is right about the clients of its device |
| `SigningRequests` | the requests on their way to a device | none is lost or doubled, and none is about a client hidden from the wrapper |
| `SmallWorld`, `LateStart`, `LateRemoval`, `LostAnswer` | whole runs with one TSE and one till | an order signed under another's number; a start for a till the device does not know; a till the history never learns of |
| `Handler` | matching answers to requests | answers reach only their own request; exactly which answers end the receive loop |
| `Calendar`, `Der`, `QrCode` | log times, the signed DER message, the QR printer and the verifier | the verifier accepts the printed receipt if and only if the process type and data hold no `;` and the order was signed under its own number |
| `Kassenbeleg` | the process data of a receipt | the five tax sums add up; the text decodes back if and only if no separator is in it |
| `TillAssignment`, `TillHistory` | least-loaded assignment; registration history and lookup | load stays balanced; exactly which steps of the protocol let history and device part |
| `Greedy`, `Voucher`, `DailyReport` | voucher redemption and its inverse in the report | optimality by exchange; the report explains every sale completely, product by product |
| `Ledger`, `CloseOut`, `PayoutSelection`, `Payout` | bookings, close-out, payout runs | conservation, idempotent replay, register at exactly zero, who is paid and nobody twice, what a lost tag leaves behind |
| `Dsfinvk`, `NumberFormat` | the export's aggregations of the same lines and its number texts | each business case holds exactly its lines, the totals agree if and only if unsigned orders sum to zero, the two tax breakdowns per key if and only if as much changed into the key as out of it; printed numbers read back rounded |
| `Pretix` | ticket shop synchronisation | what a synchronisation leaves of each voucher; idempotent; cancellation final; checked-in tickets frozen |
| `Text`, `Wrappers` | split, join, numerals; Option, Result | |

Where the code does less than its documentation, its comments or its names promise, the code is modelled and
the exact condition is proved:

- the device refuses a start above 512 open transactions, but compares before adding, so 513 can be open and the
  next start is refused (`VirtualTse.OpenBoundIsReached`); in the same way 101 clients can be registered where 100
  are said to be allowed (`VirtualTse.ClientBoundIsReached`);
- the device signs its latest transaction number, not the number the finish command names: after two starts, a
  finish of number 1 signs number 2 (`VirtualTse.OtherNumberSigned`), and in any run the two agree if and only if
  nothing was started in between (`VirtualTse.SignedNumberIsOwn`). The wrapper starts nothing in between on its
  own connection, but a start left over from a lost one can arrive there: a signed order carries its own number
  if and only if none did (`SigningHistory.NumberIsOwn`), and `LateStart.WrongNumberSigned` is a whole run in
  which one does;
- requests of lost connections also register and deregister tills behind the wrapper's back: the wrapper is right
  about a client of its device if and only if an even number of them changed the client since the device told
  its clients (`SigningClients.RightUnlessLate`), and with one it sends a start for a till the device does not
  know (`LateRemoval.UnknownClient`);
- the history of registrations is written when the wrapper gets the answer, and takes any spelling of a till's
  number for the till. History and device agree after every step of a run if and only if no late request changes
  a till, no confirmation of a till's registration or deregistration is lost, and no other spelling of a
  registered till's number is removed (`TillHistory.HistoryIsTheDevice`). `LostAnswer.NeverNoted` is a run after
  which the till works and the lookup finds no TSE for it; removing the foreign client "+7" beside till 7 writes
  that till 7 left (`TillHistory.PlusSeven`);
- an answer nobody waits for any more does not get logged, as the handler's code means it to: removing it from
  the dictionary, or answering a request that gave up, raises and ends the receive loop (`Handler.AcceptedIfWaiting`);
  and an answer that echoes `true` instead of a number is taken for the answer to request 1 (`Handler.TrueAnswersOne`);
- `book_transaction` snaps balances below a tenth of a cent to zero, so money is conserved exactly when no such
  balance other than zero is left or two of them cancel, and always for whole cents (`Ledger.PostConserves`, `Ledger.RunConserves`);
- the limit on the sum of a payout run holds only while no customer whose donation exceeds the balance stands
  before one who is paid (`PayoutSelection.SumLimitHolds`, for one run `PayoutSelection.SumLimitOfRun`), and a created
  run can be empty (`PayoutSelection.NeverEmpty`, for one run `PayoutSelection.NonEmptyIfTotalFits`);
- a payout run that is done leaves out customers whose account lost its tag since the run was created
  (`Payout.CustomerEndsAtZero`, with the input in `Payout.TagIsLost`), and they are never paid again, even if the
  tag comes back (`Payout.LostTagIsFinal`);
- the tax breakdown of an order takes the tax type from the line's own rate, the one of its lines from the product
  as it is at the time of the export (`Dsfinvk.BreakdownsAgree`);
- a business case whose gross sum is zero is left out of the export, and its tax with it (`Dsfinvk.TaxOfCases`, with
  the input in `Dsfinvk.TaxLeftOut`);
- the validator puts the group symbol into its pattern unescaped (`NumberFormat.AcceptedIsReadable`);
- the check of a currency looks at its first three letters only (`Kassenbeleg.CurrencyWithSeparator`);
- cancelling a whole ticket order also cancels checked-in vouchers, removing a position does not (`Pretix.SyncRespects`).

## Model

| member | source | states |
|---|---|---|
| VirtualTse.VirtualTSE.CountOpen | stustapay/tse/diebold_nixdorf_usb/simulator.py:202-205 | summing the sizes of the clients' sets gives the number of distinct open transactions, because no two clients share one |
| VirtualTse.VirtualTSE.StartTrans | stustapay/tse/diebold_nixdorf_usb/simulator.py:180-230 | reply and new state of a start in all branches: missing parameter, blocked, wrong password, unknown client, too many open, started |
| VirtualTse.VirtualTSE.FinishTrans | stustapay/tse/diebold_nixdorf_usb/simulator.py:272-316 | reply and new state of a finish; the signed fields carry the latest transaction number and the new counter |
| VirtualTse.VirtualTSE.UpdateTrans | stustapay/tse/diebold_nixdorf_usb/simulator.py:232-270 | reply and new state of an update; an unsigned one leaves the counter alone |
| VirtualTse.VirtualTSE.RegisterClientID | stustapay/tse/diebold_nixdorf_usb/simulator.py:396-427 | reply and new state of a registration, including the illegal id, the full device and the known client |
| VirtualTse.VirtualTSE.DeregisterClientID | stustapay/tse/diebold_nixdorf_usb/simulator.py:429-459 | reply and new state of a deregistration; a client with open transactions is refused |
| VirtualTse.VirtualTSE.ActOnCommand | stustapay/tse/diebold_nixdorf_usb/simulator.py:147-177 | every command keeps the invariant: disjoint open sets within the issued numbers, at most 513 open, at most 101 clients |
| VirtualTse.ActKeeps | stustapay/tse/diebold_nixdorf_usb/simulator.py:147-316 | accepted or refused, a command keeps the invariant, moves the counters by exactly the number or signature it issued, and keeps every client with an open transaction |
| VirtualTse.ActKeepsClients | stustapay/tse/diebold_nixdorf_usb/simulator.py:429-459 | no command but a deregistration removes a client |
| VirtualTse.RegisterOutcome | stustapay/tse/diebold_nixdorf_usb/simulator.py:396-427 | a registration adds exactly its client when it succeeds and nothing otherwise, and issues no number |
| VirtualTse.DeregisterOutcome | stustapay/tse/diebold_nixdorf_usb/simulator.py:429-459 | a deregistration removes exactly its client when it succeeds and nothing otherwise |
| VirtualTse.BlockedStays | stustapay/tse/diebold_nixdorf_usb/simulator.py:186-188 | over any command sequence, once blocked the device changes nothing and signs nothing any more |
| VirtualTse.ThreeWrongBlock | stustapay/tse/diebold_nixdorf_usb/simulator.py:186-196 | at any point of any command sequence three wrong passwords in a row change no client, transaction or counter and block the device |
| VirtualTse.RunAccounts | stustapay/tse/diebold_nixdorf_usb/simulator.py:180-316 | over any command sequence: issued numbers are open or finished and never both, none finishes twice, the signature counter counts starts, finishes and signed updates and is handed out strictly increasing |
| VirtualTse.OpenPlusFinished | stustapay/tse/diebold_nixdorf_usb/simulator.py:180-316 | over any command sequence, open plus finished transactions equal the last number issued |
| VirtualTse.OpenBoundIsReached | stustapay/tse/diebold_nixdorf_usb/simulator.py:207-208 | the guard lets 513 transactions be open and refuses the next start with code 21 |
| VirtualTse.ClientBoundIsReached | stustapay/tse/diebold_nixdorf_usb/simulator.py:418-419 | the guard lets 101 clients be registered and refuses the next one with code 21 |
| VirtualTse.SignedNumberIsOwn | stustapay/tse/diebold_nixdorf_usb/simulator.py:180-316 | over any command sequence, a finished transaction is signed under its own number if and only if no other one was started between its start and its finish |
| VirtualTse.OtherNumberSigned | stustapay/tse/diebold_nixdorf_usb/simulator.py:508-557 | two starts and a finish of the first: number 2 is signed |
| SignatureTable.SignatureTable.GrabNextRequest | stustapay/tse/wrapper.py:302-361 | takes the oldest new order of a till assigned to this TSE that has nothing pending, and makes it pending at this TSE; or returns none when every new order of a till of this TSE waits behind a pending one of the same till |
| SignatureTable.SignatureTable.FailStaleRequests | stustapay/tse/wrapper.py:77-133 | fails exactly the new orders of tills assigned to this TSE that wait behind nothing pending and were booked more than ten seconds ago; every other row stays as it is |
| SigningSafety.StepKeepsInv | stustapay/tse/wrapper.py:74-135 | every step of the protocol, with registrations, deregistrations and signatures of lost connections arriving late, keeps the invariant that ties the table, the wrappers, the queues on their connections and their devices together |
| SigningSafety.InvAlways | stustapay/tse/wrapper.py:74-541 | the invariant holds in every state of every run, over all interleavings of bookings, assignments, connections, signings, time-outs, lost connections, their late requests, sweeps and restarts |
| SigningSafety.OnePendingAndFifo | stustapay/tse/wrapper.py:302-361 | at any time a till has at most one pending signature, and every order that left 'new' precedes every order of its till that is still 'new', even when the till moves between TSEs |
| SigningSafety.LeavesNewForItsTse | stustapay/tse/wrapper.py:302-361 | in every run, an order leaves 'new' only for the TSE its till is assigned to at that moment, while no order of the till is pending, and to failure only by a sweep and when older than ten seconds |
| SigningSafety.SweepFailsTheOld | stustapay/tse/wrapper.py:77-133 | in every run, a sweep fails each order that its TSE could take and that is older than ten seconds |
| SigningSafety.CompletionInOrder | stustapay/tse/wrapper.py:111-133 | the orders of a till reach done or failure in the order they were booked |
| SigningSafety.StatusMoves | stustapay/tse/wrapper.py:422-467 | one step moves a row only from new to pending or failure and from pending to done or failure, keeping its TSE |
| SigningSafety.ClosedStays | stustapay/tse/signature_processor.py:45-55 | over any run nothing moves backwards: done and failure are absorbing, restarts included |
| SigningSafety.SignaturesGrow | stustapay/tse/diebold_nixdorf_usb/handler.py:221-240 | among the orders one TSE signed, transaction numbers and signature counters strictly increase in the order of completion |
| SigningSafety.NumbersDistinct | stustapay/tse/diebold_nixdorf_usb/simulator.py:215-218 | two signed orders of one TSE never share a transaction number or a signature counter |
| SigningSafety.DoneIsGenuine | stustapay/tse/diebold_nixdorf_usb/handler.py:221-240 | the row of a signed order holds what the device put under the signature: its own till, its own data, counter and time; the number signed is the one its own start returned or a later one |
| SigningHistory.StepKeepsHistory | stustapay/tse/diebold_nixdorf_usb/handler.py:221-231 | every step keeps, for each order signed or being signed, where among all requests its device took its own start and finish are |
| SigningHistory.NumberIsOwn | stustapay/tse/diebold_nixdorf_usb/handler.py:221-240 | for every signed order of every run: between its start and its finish the device took no start but late ones, and it signed the order's own number if and only if it took none at all |
| LateStart.WrongNumberSigned | stustapay/tse/diebold_nixdorf_usb/simulator.py:604-621 | a run from an empty table in which an order is done with number 1 in its row and number 2 under its signature |
| SigningSafety.SyncStarted | stustapay/tse/wrapper.py:245-259 | the assignment reconciled to is that of the latest plan, and nothing but the reconciliation happened since |
| SigningClients.StepKeepsClients | stustapay/tse/wrapper.py:245-259 | every step keeps, for each connection whose device has told its clients, how what the wrapper is about to know differs from them |
| SigningClients.RightUnlessLate | stustapay/tse/wrapper.py:243-259 | in every state of every run, the wrapper is right about a client of its device if and only if requests of lost connections changed it an even number of times since the device told its clients |
| SigningClients.SigningClientIsRegistered | stustapay/tse/wrapper.py:469-475 | while a signature is under way its till is registered on the device if and only if that number is even for it |
| SigningClients.ReadyIsReconciled | stustapay/tse/wrapper.py:245-259 | when a wrapper is ready, the set it keeps is that of the tills assigned when it planned its changes, and it is right about each client if and only if that number is even for it |
| SigningClients.ReadyShowsOnlyItsTills | stustapay/tse/wrapper.py:245-259 | ... so the device shows exactly those tills if and only if that number is even for every client |
| LateRemoval.UnknownClient | stustapay/tse/wrapper.py:506-514 | a run from an empty table after which a start is on its way for a till that the wrapper keeps, the device dropped and will refuse |
| SigningRequests.HiddenStayHidden | stustapay/tse/diebold_nixdorf_usb/handler.py:260-280 | in every state of every run no wrapper knows, or ever asked its device to remove, the dummy client or a production client, and one that got past its first question has the dummy client on its device |
| SigningRequests.NoRequestIsLostOrDoubled | stustapay/tse/diebold_nixdorf_usb/handler.py:126-140 | in every step of every run each request stays on its way, left over from a lost connection or taken exactly once, and at most one is added, only when the wrapper sends it: a lost connection, a time-out or a restart neither loses nor doubles one |
| Handler.DieboldNixdorfUSBTSE.ReceiveLoop | stustapay/tse/diebold_nixdorf_usb/handler.py:184-213 | what a sequence of messages, whatever they echo, does to the pending requests, up to the message that ends the loop |
| Handler.AcceptedIfWaiting | stustapay/tse/diebold_nixdorf_usb/handler.py:205-213 | an answer is accepted exactly when the request it echoes still waits, and reaches that request alone; a second, an unasked, a premature and a late answer end the loop, as do a message that is no text and one without an echo; bad frames, bad JSON and other echoes are passed over |
| Handler.LateAnswerEnds | stustapay/tse/diebold_nixdorf_usb/handler.py:140-213 | a request that timed out stays remembered, and the answer that comes too late ends the loop |
| Handler.EndedForGood | stustapay/tse/diebold_nixdorf_usb/handler.py:184-213 | once the loop has ended no request gets an answer any more |
| Handler.LoopIsRun | stustapay/tse/diebold_nixdorf_usb/handler.py:184-213 | the receive loop over a sequence of messages is one received event after another |
| Handler.AnswersCorrelate | stustapay/tse/diebold_nixdorf_usb/handler.py:126-213 | over any interleaving a request only gets the data of a message echoing its own number, where true counts as 1 and false as 0 |
| Handler.TrueAnswersOne | stustapay/tse/diebold_nixdorf_usb/handler.py:206-213 | a message that echoes true answers request 1 |
| Handler.AnswersAreFinal | stustapay/tse/diebold_nixdorf_usb/handler.py:140-213 | an answered or timed-out request never changes again |
| Calendar.CivilOfInstant | stustapay/tse/diebold_nixdorf_usb/handler.py:235-238 | breaking an instant into a civil date and time is valid and loses nothing, from 1970 to 9999 |
| Calendar.PrintStampParses | stustapay/tse/diebold_nixdorf_usb/handler.py:235-238 | the device's log time text with its offset is read back as the same instant |
| Calendar.LogTimeSurvives | stustapay/tse/diebold_nixdorf_usb/tse_verifier.py:65-65 | from the device's clock through the offset text, the handler's conversion to UTC and the verifier's reading, the second is the same |
| Der.IntegerRoundTrip | stustapay/tse/diebold_nixdorf_usb/tse_verifier.py:85-97 | the two's complement contents of an integer (ITU-T X.690 section 8.3) determine it |
| Der.IntegerIsShortest | stustapay/tse/diebold_nixdorf_usb/tse_verifier.py:85-97 | the first nine bits of an integer are never all equal (ITU-T X.690 section 8.3.2) |
| Der.ReadEncoded | stustapay/tse/diebold_nixdorf_usb/tse_verifier.py:85-97 | a value in short or long definite form can be read off the front of any text (ITU-T X.690 sections 8.1.3 and 10.1) |
| Der.EncodeAllInjective | stustapay/tse/diebold_nixdorf_usb/tse_verifier.py:85-97 | values concatenated without an enclosing sequence can still be told apart |
| Der.Utf8Injective | stustapay/tse/diebold_nixdorf_usb/tse_verifier.py:62-62 | two texts with the same UTF-8 bytes are the same |
| Der.MessageInjective | stustapay/tse/diebold_nixdorf_usb/simulator.py:566-579 | two contents that differ in any field never share a signed message |
| Der.MessageLayout | stustapay/tse/diebold_nixdorf_usb/tse_verifier.py:62-97 | the message reads back as eleven values: version 2, 0.4.0.127.0.7.3.7.1.1, operation, client, process data, process type, number, serial number, 0.4.0.127.0.7.1.1.4.1.4, counter and log time, in this order and under their tags (ITU-T X.690 sections 8.1.3 and 8.19) |
| QrCode.RebuildMessage | stustapay/tse/diebold_nixdorf_usb/tse_verifier.py:51-98 | the verifier, filling its records part by part, either builds the message of the content the text states or fails; a wrong version and missing parts give their own errors |
| QrCode.ReadIsPlain | stustapay/tse/diebold_nixdorf_usb/tse_verifier.py:52-65 | no text is ever read as a process type or process data with a separator in it |
| QrCode.VerifierRebuilds | stustapay/bon/bon.py:46-53 | for a genuine signature in calendar range, the message rebuilt from the printed text is the signed one, byte for byte, if and only if process type and process data hold no ';' and the number signed is that of the row |
| QrCode.PrintedParts | stustapay/bon/bon.py:46-53 | splitting the printed text gives twelve parts: version, till, process type and data, number, counter, start and end time, algorithm, time format, and at their places the device's signature and key |
| QrCode.PrintedIsAsked | stustapay/tse/diebold_nixdorf_usb/tse_verifier.py:51-98 | for a text without separators the verifier's answer is exactly whether the device's signature fits the message of what was signed, with the number of the row, under the device's key |
| QrCode.VerifierAccepts | stustapay/tse/diebold_nixdorf_usb/tse_verifier.py:51-98 | a receipt with a signature that fits its own message alone is accepted if and only if process type and process data hold no ';' and the number signed is that of the row |
| QrCode.ReceiptChecks | stustapay/tse/diebold_nixdorf_usb/tse_verifier.py:51-98 | for every signed order in every state of every run of the signing protocol: the verifier accepts the receipt for the device's signature and key if and only if process type and process data hold no ';' and the device took no start between the order's start and its finish |
| QrCode.OwnReceiptsCheck | stustapay/tse/wrapper.py:387-408 | for the receipts the wrapper makes itself the condition is that the event's currency holds no ';' |
| Kassenbeleg.Kassenbeleg_V1.AddPayment | stustapay/tse/kassenbeleg_v1.py:22-31 | an unknown kind or a bad currency is refused and changes nothing; otherwise one payment text is appended, without the currency for EUR |
| Kassenbeleg.WhatIsAccepted | stustapay/tse/kassenbeleg_v1.py:22-29 | the kind is one of the two words in any case, the currency begins with three of the 26 capital letters |
| Kassenbeleg.MakeProcessData | stustapay/tse/wrapper.py:387-408 | the process data holds the five sums of all line items by tax type and one payment of their total |
| Kassenbeleg.RateTotalsAddUp | stustapay/tse/wrapper.py:387-408 | the five sums are those of regular, reduced and untaxed items, the two special ones zero, and add up to the amount paid |
| Kassenbeleg.PrintCentsParses | stustapay/tse/kassenbeleg_v1.py:38-40 | the two-decimal text of an amount in cents reads back as it, also below zero |
| Kassenbeleg.ProcessDataParses | stustapay/tse/kassenbeleg_v1.py:37-45 | the text decodes to exactly its receipt type, amounts and payments if and only if no payment holds a separator |
| Kassenbeleg.CurrencyWithSeparator | stustapay/tse/kassenbeleg_v1.py:27-31 | a currency that passes the check but holds a separator makes one payment read as two |
| TillAssignment.SignatureProcessor.HandleFeralTses | stustapay/tse/signature_processor.py:106-140 | each waiting till goes to the least loaded active TSE its node sees, or is skipped; the branch that fails all waiting signatures is never taken |
| TillAssignment.SignatureProcessor.Rank | stustapay/tse/signature_processor.py:116-124 | sorting the counts puts the first least loaded TSE first |
| TillAssignment.AssignAllSpec | stustapay/tse/signature_processor.py:106-130 | only waiting tills change, and each gets a TSE that is active for it unless there is none |
| TillAssignment.LoadStaysBalanced | stustapay/tse/signature_processor.py:108-130 | assigning any number of tills that see the same active TSEs keeps the largest difference in till counts at its initial value or at one |
| TillHistory.AddAgrees | stustapay/tse/wrapper.py:491-504 | when a registration is confirmed, the device and the history with its new entry go on agreeing |
| TillHistory.RemoveAgrees | stustapay/tse/wrapper.py:506-540 | when a deregistration is confirmed, they do if and only if the client id is not another text that int() reads as the number of a registered till |
| TillHistory.HistoryIsTheDevice | stustapay/tse/wrapper.py:491-540 | over every run of the signing protocol from an agreeing start: folding the history, with the entry for a confirmation on its way, gives exactly the tills on the device after every step, if and only if no late request changes a till, no confirmation about a till is lost and no misspelt client is removed |
| TillHistory.StepSettles | stustapay/tse/wrapper.py:491-540 | a single step keeps the agreement if and only if it is none of these three |
| TillHistory.EntryTellsOfItsMoment | stustapay/tse/wrapper.py:491-540 | in every run nothing but a confirmation writes the history, one entry at a time, and it names the wrapper's TSE, the till the change was about and the till's closing at that moment |
| TillHistory.EntriesInOrder | stustapay/tse/wrapper.py:495-504 | the entries of a run stand in the order of their till's closings, none beyond the present one |
| LostAnswer.NeverNoted | stustapay/tse/wrapper.py:491-504 | a run from an agreeing start after which the wrapper is ready with its till on the device, the history is empty and the lookup finds no TSE for the till in any closing |
| TillHistory.SignedClient | stustapay/tse/wrapper.py:516-531 | removing the client named by a plus sign and a registered till's number deregisters the till in the history and leaves it on the device |
| TillHistory.PlusSeven | stustapay/tse/wrapper.py:516-531 | "+7" is a client id the device accepts, and removing it beside till 7 ends the agreement |
| TillHistory.TseIdForTillAtZNr | stustapay/tse/till_tse_lookup.py:24-42 | the lookup returns the TSE of a registration with the largest z_nr not above the one asked for, and none exactly when there is none |
| TillHistory.LookupIsUnique | stustapay/tse/till_tse_lookup.py:29-42 | with registrations in different closings it is the TSE of the latest registration |
| Greedy.SpendIsFeasible | stustapay/core/service/order/voucher.py:38-68 | the greedy way respects every item's limit and spends exactly the lesser of budget and total capacity |
| Greedy.MoreBudget | stustapay/core/service/order/voucher.py:38-68 | further vouchers are worth at most the best rate each |
| Greedy.GreedyIsOptimal | stustapay/core/service/order/voucher.py:38-68 | no admissible way of spending the vouchers in the visited order is worth more (exchange argument) |
| Greedy.OrderDoesNotMatter | stustapay/core/service/order/voucher.py:31-37 | any two descending orders of the same items are worth the same |
| Greedy.GreedyBeatsAll | stustapay/core/service/order/voucher.py:31-68 | no admissible way of spending the vouchers, for the items in any order, is worth more |
| Greedy.SharesAgree | stustapay/core/service/order/voucher.py:31-68 | with distinct prices per voucher each item's share is the same in every descending order |
| Greedy.AttributeInverts | stustapay/reports/daily_reports.py:242-257 | given only the greedy worth, dividing and flooring offer by offer finds the greedy shares |
| Voucher.SortedSorts | stustapay/core/service/order/voucher.py:31-37 | the visited order is a permutation of the line items with the dearest vouchers first |
| Voucher.VisitIsDescending | stustapay/core/service/order/voucher.py:31-37 | the items are visited in descending value of their vouchers, and no item is lost or doubled by sorting |
| Voucher.ComputeOptimalVoucherUsage | stustapay/core/service/order/voucher.py:23-72 | the loop with its dictionary spends the greedy shares: the number used is their sum, every item shows its own share, and the discount lines come one per tax name in order of first use |
| Voucher.LinesMatchDeductions | stustapay/core/service/order/voucher.py:52-66 | the discount lines of a tax name sum to minus the deductions of its items, all lines to minus the gain, and no tax name gets two |
| Voucher.DiscountPerTax | stustapay/core/service/order/voucher.py:55-66 | each discount line is minus what the vouchers pay for the items of its tax name |
| Voucher.UsageIsOptimal | stustapay/core/service/order/voucher.py:23-72 | no admissible allocation takes more off the price than the discount lines do, and exactly the lesser of the vouchers held and the total capacity is spent |
| DailyReport.ShareOfRow | stustapay/reports/daily_reports.py:245-253 | the loop's arithmetic on prices and quantities is: as many vouchers as fit into the remaining worth, at most those the quantity takes |
| DailyReport.AttributeDiscount | stustapay/reports/daily_reports.py:241-272 | the loop over all rows but the last visits each in turn, moves the pieces and amounts of the attributed shares out of their products, and ends with the worth they do not explain |
| DailyReport.SaleIsExplained | stustapay/reports/daily_reports.py:241-272 | for the rows of any sale, in any order the report's sort may give, the remaining value is exactly 0 and the shares are those of the greedy |
| DailyReport.SharesRecovered | stustapay/reports/daily_reports.py:242-253 | with distinct prices per voucher every row gets exactly the vouchers the sale spent on it |
| DailyReport.SaleLeavesItsRows | stustapay/core/service/order/voucher.py:23-72 | the rows any voucher redemption leaves in an order are the rows of a sale, whatever was bought and however many vouchers were used |
| DailyReport.SaleLeavesItsMoney | stustapay/core/service/order/voucher.py:52-68 | the rows of a sale come to the full price of its items less the greedy worth of its vouchers |
| DailyReport.SortRows | stustapay/reports/daily_reports.py:239-239 | a permutation with descending price per voucher, rows without one last |
| DailyReport.GroupByProduct | stustapay/reports/daily_reports.py:212-225 | one row per product with the sums of its lines |
| DailyReport.GroupSums | stustapay/reports/daily_reports.py:212-227 | one row per name, every name present, sales without the discount product equal all lines less the discount lines |
| DailyReport.MakeProductTable | stustapay/reports/daily_reports.py:209-275 | one row for each product sold but the discount, and for each: pieces and money sold and discounted add up to those of its lines, what is discounted is the sum of its shares over all orders with a discount; the revenue changes by the warned rests alone |
| DailyReport.EveryProductIsShown | stustapay/reports/daily_reports.py:259-275 | product by product: quantity and price shown are the sums over all lines of that name less what vouchers paid for, the discounted pieces are the vouchers attributed to its rows divided by its price in vouchers, and no product is lost or shown twice |
| DailyReport.RevenueIsKept | stustapay/reports/daily_reports.py:237-273 | dropping the discount rows changes the total revenue by exactly what the report warns about |
| DailyReport.SalesAreExplained | stustapay/reports/daily_reports.py:271-273 | if the orders came from voucher redemptions there is no warning and the total revenue is preserved |
| Ledger.PostConserves | stustapay/core/schema/db_code/0004-functions.sql:50-60 | a transaction keeps the sum of all balances if and only if neither account is left with a balance other than zero within the tolerance, or both are and the two cancel; vouchers are always conserved |
| Ledger.SmallRestIsLost | stustapay/core/schema/db_code/0004-functions.sql:53-60 | an input for which money is lost |
| Ledger.PostCents | stustapay/core/schema/db_code/0004-functions.sql:50-60 | in whole cents a transaction moves its amount and rounds nothing |
| Ledger.RunConserves | stustapay/core/service/order/booking.py:30-42 | over any run in whole cents the sum of balances is constant and each balance is its opening balance plus what its transactions brought |
| Ledger.RunMovesVouchers | stustapay/core/schema/db_code/0004-functions.sql:50-60 | over any run, whatever the amounts, each account's vouchers are those it had and those its transactions brought |
| Ledger.SignedTransfer | stustapay/core/schema/db_code/0004-functions.sql:20-60 | money and vouchers leave the source and reach the target with the sign asked for, whichever way the transaction is stored, and no other account changes; the refusals in their order |
| Ledger.RunDriftIsSmall | stustapay/core/schema/db_code/0004-functions.sql:20-58 | whatever the amounts, a run of n transactions moves the sum of the balances by at most n fifths of a cent |
| Ledger.Database.BookTransaction | stustapay/core/schema/db_code/0004-functions.sql:2-61 | refuses opposed signs, a transfer from an account to itself and unknown accounts, in this order and without effect; otherwise stores a non-negative transaction in the right direction and moves the two balances |
| Ledger.BookAllSpec | stustapay/core/service/order/booking.py:30-42 | the bookings of an order succeed exactly when each is between two different accounts that exist, and are then stored once each, in order, with non-negative amounts |
| Ledger.Database.BookPreparedBookings | stustapay/core/service/order/booking.py:30-42 | the loop books all of them or reports the first error |
| Ledger.Database.BookOrder | stustapay/core/service/order/booking.py:93-153 | till first, then uuid; an unknown uuid adds one order and its transactions, a known one nothing; an error leaves the tables as they were |
| Ledger.RunKeeps | stustapay/core/service/order/booking.py:93-153 | over any list of orders the balances are the opening balances moved by the stored transactions, uuids stay unique and transactions belong to existing orders |
| Ledger.OrdersStay | stustapay/core/service/order/booking.py:115-151 | orders are never changed or removed |
| Ledger.BookedIsKept | stustapay/core/service/order/booking.py:108-153 | an order booked under a new uuid is kept as asked for, under the closing its till was in, the cash register for cash alone, and for ever has exactly one transaction for each of its bookings, in order and in their direction |
| Ledger.WhenBooked | stustapay/core/service/order/booking.py:108-153 | an order is booked exactly when its till exists and its uuid is known or each of its bookings is between two different existing accounts |
| Ledger.ReplayIsIdempotent | stustapay/core/service/order/booking.py:115-153 | booking the same uuid again after any other bookings changes nothing and returns the stored id and time |
| CloseOut.RegisterIsEmptied | stustapay/core/service/cashier.py:264-278 | for all expected and counted amounts the register ends at exactly zero, the vault gains the count, the imbalance account expected minus count, up to the ledger's rounding |
| CloseOut.CentsCloseOut | stustapay/core/service/cashier.py:264-278 | in whole cents the vault and the imbalance account gain these amounts exactly |
| CloseOut.LinesCancel | stustapay/core/service/cashier.py:247-271 | the line items of the three money orders are expected, minus count and count minus expected, and sum to zero; the four orders are two transfers, the difference and the end of the shift, for this register, at the virtual till in its closing |
| CloseOut.Cashiers.CloseOutCashier | stustapay/core/service/cashier.py:222-314 | the refusals in their order, without effect; otherwise the four orders, the shift row, the freed register, the next z_nr, the register at zero before the correcting update, and a ledger still consistent |
| PayoutSelection.AmountAndDonation | stustapay/core/service/customer/payout.py:447-448 | amount and donation of a payout add up to the balance, whatever donation was entered |
| PayoutSelection.LongestPrefixIsTaken | stustapay/core/service/customer/payout.py:450-462 | with every donation known and within the balance, the selection is the longest prefix by account number within both limits, and not empty once the check passed |
| PayoutSelection.SumLimitHolds | stustapay/core/service/customer/payout.py:450-462 | for all inputs: the payouts stay within every sum limit if and only if no candidate whose donation exceeds the balance stands before one who is paid something |
| PayoutSelection.NeverEmpty | stustapay/core/service/customer/payout.py:415-431 | for all inputs: a created run is never empty if and only if the first candidate's running total is known and the smallest |
| PayoutSelection.NonEmptyIfTotalFits | stustapay/core/service/customer/payout.py:450-462 | for the limits of one run: it takes someone if and only if one of the first max_num running totals is known and within the sum |
| PayoutSelection.SumLimitOfRun | stustapay/core/service/customer/payout.py:450-462 | for the limits of one run: it keeps its sum if and only if the donations of those it takes exceed their balances by no more than the room under the running total and what was passed over |
| Payout.CreatedWithinLimits | stustapay/core/service/customer/payout.py:433-468 | a run created from ordinary candidates has at least one payout, at most the number allowed, pays at most the sum allowed and could not have gone on |
| Payout.PayoutService.CreatePayoutRun | stustapay/core/service/customer/payout.py:383-468 | the refusals in their order; otherwise one open run and a payout row per selected customer |
| Payout.WhoIsACandidate | stustapay/core/schema/db_code/0001-views.sql:141-146 | the candidates are exactly the customers who entered their data, whose payout was not prevented, whose balance is at least half a cent and who are in no payout, each once, by account number, with balance, donation and wish as they are |
| Payout.NewRowsAreWanted | stustapay/core/service/customer/payout.py:433-468 | a created run leaves the rows there are and adds at most one a customer, only of such customers: the donation entered, as far as the balance goes, or everything, and the rest of the balance to the bank |
| Payout.PreventedIsNotPaid | stustapay/core/service/customer/payout.py:507-540 | over any sequence of operations, from a prevention that was not refused until the payout is allowed again the customer is no candidate and gets no new row |
| Payout.EnteredDataStays | stustapay/core/service/customer/customer.py:248-257 | over any sequence of operations, while a customer has a payout nothing changes the donation and data entered for it |
| Payout.PayoutService.SetPayoutRunAsDone | stustapay/core/service/customer/payout.py:279-325 | refuses unknown, done and revoked runs; otherwise marks the run and books amount and donation of its customers with a tag |
| Payout.PayoutService.RevokePayoutRun | stustapay/core/service/customer/payout.py:362-374 | refuses unknown, done and revoked runs; otherwise removes exactly the rows of the run |
| Payout.InvAlways | stustapay/core/service/customer/payout.py:279-468 | over any sequence of create, done, revoke, other bookings, changed customer data, payouts prevented or allowed, and tags lost or regained: one row per customer, of runs not revoked, and every booking out belongs to a row of a done run |
| Payout.PaidOnce | stustapay/core/service/customer/payout.py:279-468 | over any such sequence a customer is in at most one payout, is paid to the bank at most once and as a donation at most once, and no run is both done and revoked |
| Payout.MoneyIsConserved | stustapay/core/service/customer/payout.py:297-325 | over any such sequence in whole cents the sum of all balances stays the same |
| Payout.EveryBalanceIsBooked | stustapay/core/service/customer/payout.py:297-325 | over any such sequence in whole cents every balance is what it was plus exactly the other bookings and the payouts that were booked |
| Payout.RevokedIsFinal | stustapay/core/service/customer/payout.py:362-374 | once revoked, a run stays revoked, is never done and has no payouts; right after it none of its customers is in any payout and no other row is touched |
| Payout.DoneMovesMoney | stustapay/core/service/customer/payout.py:297-325 | completing a run takes amount and donation from each of its customers with a tag, brings the two exits exactly their sums, and changes no other balance |
| Payout.CustomerEndsAtZero | stustapay/core/service/customer/payout.py:297-325 | a customer who spends nothing between creation and completion ends at zero if and only if the account still has a tag |
| Payout.LostTagIsFinal | stustapay/core/service/account.py:222-228 | a scheduled customer without a tag at completion is never a candidate again and is never paid anything, whatever happens later |
| Payout.TagIsLost | stustapay/core/service/account.py:222-228 | a run in which a scheduled customer's account is disabled: the balance stays and the run is done |
| Dsfinvk.SlotExists | stustapay/dsfinvk/gv_typ.py:26-51 | a line has a business case and a place in the totals exactly when its order type is mapped |
| Dsfinvk.SlotIsOwn | stustapay/dsfinvk/gv_typ.py:26-51 | a line is booked under a business case and tax key if and only if it belongs to them: top-ups, pay-outs and top-ups on tickets are sales of stored value, other ticket lines turnover, sale lines without deposit its use, transfers, imbalances and deposits cases of their own; tax keys are 1, 2, 5 and 1337 |
| Dsfinvk.BookOrdersAdds | stustapay/dsfinvk/generator.py:155-359 | collecting fails exactly when an exported order with lines is of an unmapped type; otherwise the totals sum to the exported lines, and gross, net and tax of each business case and tax key are the sums over the exported lines that belong to it |
| Dsfinvk.CaseIsItsLines | stustapay/dsfinvk/generator.py:321-331 | each business case and tax key has the gross, net and tax sums of exactly the exported lines selected by order type, product type, deposit and tax type |
| Dsfinvk.DepositsAreSeparate | stustapay/dsfinvk/gv_typ.py:39-44 | for each tax key, deposits taken are never negative, deposits paid back never positive, and together they are the balance of all returnable lines of exported sales |
| Dsfinvk.VatOfOrder | stustapay/core/schema/db_code/0001-views.sql:383-397 | an order's groups by tax rate, in whatever order the database returns them, sum to its lines, gross and tax |
| Dsfinvk.BreakdownsAgree | stustapay/dsfinvk/generator.py:258-347 | the tax breakdowns per order and per line agree in total, in money and in tax, and for a tax key if and only if as much was sold under it by products that have another key now as the other way round |
| Dsfinvk.Export.Einzelaufzeichnungsmodul | stustapay/dsfinvk/generator.py:155-359 | aborts exactly when an exported order with lines has no business case; otherwise the total of every business case and tax key is that of the lines that belong to it, unsigned orders are skipped, and the tax breakdown, line and payment records of the others are written |
| Dsfinvk.Export.ExportOrder | stustapay/dsfinvk/generator.py:258-347 | adds the records of one order and its lines' share in the totals |
| Dsfinvk.Export.Stammdatenmodul | stustapay/dsfinvk/generator.py:392-405 | the closing sum and the cash sum over all line items |
| Dsfinvk.SumPerMethod | stustapay/dsfinvk/generator.py:495-516 | one sum per payment method that has lines, each the total of its orders, and the cash total |
| Dsfinvk.WriteCases | stustapay/dsfinvk/generator.py:518-532 | the business cases whose gross total is not zero, in order |
| Dsfinvk.Export.Kassenabschlussmodul | stustapay/dsfinvk/generator.py:487-556 | business cases, payment methods and cash total of the closing |
| Dsfinvk.CasesTotal | stustapay/dsfinvk/generator.py:518-532 | leaving out the empty business cases leaves out no gross money |
| Dsfinvk.CasesAreWritten | stustapay/dsfinvk/generator.py:518-532 | a business case and tax key has one record if the exported lines that belong to it do not sum to zero and none otherwise, and the record holds their gross, net and tax sums |
| Dsfinvk.TaxOfCases | stustapay/dsfinvk/generator.py:518-532 | the tax in the business case records is that of the exported lines if and only if the cases left out for a gross total of zero have no tax between them |
| Dsfinvk.TaxLeftOut | stustapay/dsfinvk/generator.py:518-532 | a line sold at one rate and given back at another of the same tax type: the case is left out and its tax with it |
| Dsfinvk.RecordsOfOrder | stustapay/dsfinvk/generator.py:258-347 | with distinct numbers, an exported order is found by its number as one payment of its method and sum, one position for each line in their order with its key, gross, net and tax, and a tax breakdown of the same sums; an order not yet signed has none of them |
| Dsfinvk.MethodsCoverAll | stustapay/dsfinvk/generator.py:495-545 | the payment methods' totals sum to the closing total |
| Dsfinvk.TotalsAgree | stustapay/dsfinvk/generator.py:258-348 | lines, tax breakdowns, payments and business cases agree; closing total, payment methods and cash agree; and the two groups agree if and only if the orders not yet signed sum to zero |
| Dsfinvk.ChunksJoin | stustapay/dsfinvk/generator.py:65-87 | a certificate is refused exactly above 5000 characters; otherwise the five columns, each filled to 1000 before the next begins, put together are the certificate |
| NumberFormat.RoundingError | stustapay/dsfinvk/dsfinvk/fields.py:59-63 | half-up rounding moves a value by at most half a unit in the last place, the middle away from zero, and not at all where the places suffice |
| NumberFormat.Record.SetNumeric | stustapay/dsfinvk/dsfinvk/fields.py:54-66 | the field gets the printed text, or stays as it was if the value cannot be rounded |
| NumberFormat.GroupedParses | stustapay/dsfinvk/dsfinvk/fields.py:60-64 | without its full stops the grouped text is the number |
| NumberFormat.PrintDecimalParses | stustapay/dsfinvk/dsfinvk/fields.py:60-64 | the German text of a decimal reads back as it, sign included |
| NumberFormat.PrintIntegerParses | stustapay/dsfinvk/dsfinvk/fields.py:65-66 | without decimals the text reads back as the value cut off towards zero, and only a number below zero has a sign |
| NumberFormat.PrintedIsValid | stustapay/dsfinvk/dsfinvk/validate.py:63-63 | every printed value matches the validator's pattern and reads back as the value rounded half up |
| NumberFormat.PatternIsComposed | stustapay/dsfinvk/dsfinvk/validate.py:63-104 | the pattern accepts exactly the texts made of a sign or none, an integer part of digits alone or in groups of three, the comma and the decimals, and perhaps a line feed |
| NumberFormat.WhenPrinted | stustapay/dsfinvk/dsfinvk/fields.py:59-66 | a value is refused exactly when it is rounded to decimals and has more than 28 digits then |
| NumberFormat.AcceptedIsReadable | stustapay/dsfinvk/dsfinvk/validate.py:95-104 | what the pattern accepts is a number if and only if its integer part holds only digits and full stops |
| NumberFormat.GroupSymbolIsAnything | stustapay/dsfinvk/dsfinvk/validate.py:63-63 | a text the pattern accepts that is no number |
| Pretix.TopUpsCountedOnce | stustapay/ticket_shop/pretix.py:223-235 | with unique position ids the tickets' top-ups sum to the prices of exactly the top-up positions attached to tickets, each once |
| Pretix.TicketProvider.StoreExternalTicket | stustapay/ticket_shop/ticket_provider.py:75-164 | inserts an unknown token; otherwise updates the product, and before check-in the amount and any known name and email |
| Pretix.TicketProvider.SynchronizePretixOrder | stustapay/ticket_shop/pretix.py:253-356 | pending orders do nothing, cancelled and expired ones cancel all their vouchers, paid ones store their tickets and cancel removed positions |
| Pretix.EffectTwice | stustapay/ticket_shop/ticket_provider.py:75-164 | storing the same tickets again changes nothing, even if several share a token |
| Pretix.SyncTwice | stustapay/ticket_shop/pretix.py:253-356 | synchronising an unchanged order again changes nothing |
| Pretix.PaidTicket | stustapay/ticket_shop/pretix.py:223-319 | the voucher of a paid order's position has its item and product name, and until check-in the sum of the top-ups attached to it and its name and email, or else the order's; a cancelled one stays cancelled |
| Pretix.NamelessTicket | stustapay/ticket_shop/ticket_provider.py:147-163 | where neither position nor order names anyone, the voucher keeps the name and email it had |
| Pretix.OtherVouchers | stustapay/ticket_shop/pretix.py:271-356 | a cancelled or expired order cancels all of its vouchers, checked in or not; a paid one exactly those of its vouchers that no position has any more and nobody checked in with; nothing else changes |
| Pretix.SyncRespects | stustapay/ticket_shop/pretix.py:329-356 | no voucher disappears, no cancellation is undone, a checked-in ticket keeps amount, name and email, and is cancelled if and only if its whole order is |
| Pretix.RunRespects | stustapay/ticket_shop/ticket_provider.py:130-164 | the same over any sequence of synchronised orders |
| Pretix.CancelledForGood | stustapay/ticket_shop/pretix.py:277-297 | the vouchers an order had when it was cancelled or expired stay cancelled, whatever is synchronised later |

## Left out

- QrCode.RebuildMessage: int() reads ASCII digits, signs, blanks and underscores, of any length; isoparse() reads only the form the handler writes, because only that form is ever printed; the key's digest is a parameter.
- QrCode.VerifierAccepts: whether a signature fits a message under a key is a parameter, and the signature of a receipt is taken to fit the message that was signed and no other; base64 is left out.
- QrCode.ReceiptChecks: clock readings from 1970 to 9999 and process types in ISO 8859-1 only, because the date arithmetic and the printable string of the source fail outside.
- Der.EncodeAllInjective: bytes are natural numbers; a length of 256^127 bytes or more would need a length byte above 255, which no text reaches.
- DailyReport.MakeProductTable: takes the lines of sales and tickets that were not cancelled, as the filters before it leave them; exact rationals instead of floats; prices of voucher products are positive and quantities not negative, and the product's price in vouchers is that of the sale; the order of the rows and the column with the first tax rate of a product are left out.
- Voucher.ComputeOptimalVoucherUsage: exact rationals instead of floats; a discount line is a value until the service returns, its product is always the discount product.
- Voucher.UsageIsOptimal: quantities and voucher prices are not negative, as for anything that can be sold for vouchers.
- CloseOut.Cashiers.CloseOutCashier: the four uuids drawn are new and different; how the start of the shift is found in the orders is a field of the cashier.
- Ledger.Database.BookTransaction: accounts are numbered from 0 and never removed; descriptions, times and conducting users of transactions are not kept.
- Payout.MoneyIsConserved: whole cents only, because the ledger itself does not conserve other amounts (see Ledger.PostConserves).
- Dsfinvk.Export.Einzelaufzeichnungsmodul: master data, texts and quantities are not exported; an order's tax groups come in the order of their first line, where SQL leaves the order open (see Dsfinvk.VatOfOrder); item_count is the number of lines.
- NumberFormat.Record.SetNumeric: decimals with a positive exponent are written out first.
- TillHistory.HistoryIsTheDevice: taking an answer and writing its entry is one step; a crash of the process between the two is not modelled.
- SigningSafety.InvAlways: the sweep is one step with one clock reading; an answer that comes after its request timed out is taken off the connection and the connection may be lost next, where the handler always loses it (Handler.AcceptedIfWaiting); of the requests that open a connection only the question about the clients is modelled, the others change nothing.
- No liveness: an exception after a row was taken leaves it pending until the next restart, as in the source.
- The simulator's broken mode, changepassword and unblockuser, its delays, and the status column of TSEs; disabling a TSE and unassigning its tills appear as assignment steps of the protocol.
- `_return_request`, which nothing calls.
- ECDSA, SHA-2, base64, the websocket, JSON, HTTP, mail and the SEPA XML file.
- CRUD services, audit logs, privileges, terminals, the web front ends, PDF and CSV rendering: easy members.
