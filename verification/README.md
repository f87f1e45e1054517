# TechStore support: a verified model

This project models the parts of the TechStore customer-support system where correctness is hardest to see from one
function, and proves properties of them that hold for every input, every random outcome and every sequence of events.

* **The synthetic world** (`World*.dfy`). A generator fills ten linked tables step by step from random draws: labelled
  anomalies, a showcase customer, happy-path filler, a pinned login, sequential public ids. A separate checker then
  judges the result. A run is a function of a *tape* of draws (`Records.Draws`): each draw reads one cell and narrows it
  to its range, and a uuid is named by its cell. `WorldSpec` says what each builder makes; `WorldGenerator` and
  `WorldAssembly` are the same builders as methods on a mutable `World`, proved equal to the specification;
  `WorldIntegrity` is the checker, proved an exact decision procedure. The main theorem is an equivalence: for every
  tape, clock, profile and setting, a world is built and accepted exactly when the refund window is at least -4 days and
  the approval threshold is below the dearest laptop. The twenty labelled builders of the source differ only in data
  (product, status, age, return), so they are rows of a table (`WorldSpec.ANOMALIES`, `WorldSpec.SHOWCASE`) run by one
  builder method.
* **The streaming chat client** (`Sse*.dfy`, `Bubbles.dfy`). An incremental framer for server-sent events (sections
  9.2.5 and 9.2.6 of the WHATWG HTML Living Standard), shown equal to a line interpreter and compared with the
  standard's, and the message list that turns at-least-once delivery from several channels into one bubble per message.
* **The configuration parser** (`Loader*.dfy`). A mutually recursive, index-threaded parser of an indentation format,
  with a printer for its subset, round trips, and a test on the lines that says when input is silently dropped.
* **Tools and policy** (`Policy*.dfy`, `Tools*.dfy`, `ToolSession.dfy`, `ToolLoop.dfy`). The deterministic rules, the
  billing, logistics and account tools over the shop's tables, and the workers' tool-calling loop. The tools run on the
  same `World` tables the generator makes, so their guarantees start from every generated world.
* **The support workflow and tickets** (`Graph*.dfy`, `Ticket*.dfy`). The graph's wiring as a builder object, one run
  and all turns of a thread; the ticket record and every request on it; and what a ticket's status says about the run.
* **Text and traces** (`Collapse*.dfy`, `Trace*.dfy`, `Chunks.dfy`). Collapsing repeated answers (a problem of string
  periods), the trace recorder, and chunking for ingestion.

Everything outside the modelled code is a parameter: draws are a tape, the clock is an integer (minutes), money is in
cents, and model answers, tool choices, tool results, guardrail verdicts and fresh database ids are arbitrary values.
Functions specify; methods with loops and classes mirror the imperative code and are proved equal to the functions;
lemmas state what holds.

Where a promise that looks true is not, the model keeps the code and the project holds a concrete failing case next to
the exact condition under which the promise holds: a cut inside CR LF (`SsePrinted.CutSplitsEvent`,
`SseCuts.PacketsArriveIff`), dropped input (`LoaderValues.DropsTrailingList`, `LoaderValues.ConsumesAllIff`),
fourfold copies (`Collapse.FourfoldLeavesTwo`, `Collapse.IdempotentIff`), nested tool runs (`Trace.NestedPatchesInner`,
`Trace.PatchesOwnIff`), a demand for a human that a later result drops (`ToolLoop.LaterResultDropsHuman`,
`ToolLoop.DemandSurvivesIff`), an answer rejected without a pending interrupt (`GraphSafety.EndsNeedingHumanIff`),
a reply that raises and strands its ticket (`TicketDesk.FailedReplyStrandsIff`), refunds of one order that add up to
more than was paid (`ToolsRefunds.RefundedTwice`, `ToolsRefunds.RefundsWithinPaidIff`), and redelivery with an optimistic
item on screen (`Bubbles.ReusedIdShowsMore`, `Bubbles.RedeliveryInvisibleIff`).

Differences from documentation: at the end of a body the client dispatches an event that section 9.2.6 discards
(`SseWire.AgreesWithStandardIff`, `SsePrinted.UnterminatedEventArrives`); the collapse routine says it keeps one copy of
two to four, but four copies are caught as two and leave two; the generator needs no non-negative window, only one of at
least -4 days. Its ids are unique by construction, while the checker is shown exact on tables with duplicate ids as well.

## Model

| member | source | states |
|---|---|---|
| WorldTheorem.GeneratorMeetsChecker | app/synthetic/__init__.py:26-56 | For every tape, clock, profile and setting: a world is built and accepted by the checker exactly when the refund window is at least -4 days and the threshold is below the dearest laptop; without such a laptop a builder raises |
| WorldTheorem.BeyondTheChecker | app/synthetic/graph.py:163-303 | What generated worlds also keep and the checker does not test: one shipment per order at most, unique order ids, allowed methods only, every payment and refund for a whole order, what is delivered is paid, refunds within what was paid |
| WorldTally.GeneratedSizes | app/synthetic/graph.py:29-48 | Every generated world holds exactly 24 products, 20 customers and 40 orders (80, 1000 and 3000; 80, 10000 and 25000), a line per order, 8 or 16 returns and refunds, 10 or 30 tickets, 26 or 46 labels |
| WorldTally.ShowcaseOwnsTen | app/synthetic/graph.py:377-384 | In every generated world no two customers share an id, and the showcase customer has its address, name and tier and exactly its ten orders: the filler gives it none |
| WorldLabelled.LabelsAreTrue | app/synthetic/anomalies.py:45-511 | Every generated world carries the labels of one or three copies, the six utterances and the ten of the showcase, in that order, and each is true of its order: product, age, dates, payments, returns and refunds are what the label says |
| WorldStock.GeneratedProducts | app/synthetic/catalogs.py:252-265 | The products are the catalog's, row by row, cycled under new skus past its end |
| WorldIntegrity.AssertIntegrity | app/synthetic/graph.py:440-538 | The checker returns normally exactly on worlds with the declarative predicate (foreign keys, totals to a cent, dates, double payments, refunds within paid, owners, emails), duplicate ids included |
| WorldInvariant.CheckerVerdict | app/synthetic/graph.py:440-538 | On worlds with the builders' invariant and an order for everyone, the checker's verdict is the order of shipping dates and nothing else |
| WorldInvariant.AppendKeepsInv | app/synthetic/graph.py:163-303 | Appending any bundle of one fresh, uniformly priced order keeps every clause of the invariant |
| WorldBuilders.BundleFits | app/synthetic/graph.py:163-303 | What `add_order_bundle` appends is such a bundle, with one paid payment (two when doubled) unless pending or cancelled |
| WorldLabels.BundleSettles | app/synthetic/graph.py:193-260 | What a bundle settles for its plan: line, total, estimate, delivery, shipment, payment methods |
| WorldBuilders.BundleDatesIff | app/synthetic/graph.py:207-210 | A bundle's dates are in order exactly when the clamp to yesterday is harmless for its creation and delivery days |
| WorldBuilders.BundleDated | app/synthetic/graph.py:205-210 | An order at least two days old is dated in order whatever is drawn: the precondition the call sites must meet |
| WorldBuilders.BundleUndated | app/synthetic/graph.py:209-210 | A younger delivered order whose delivery lies ahead is clamped to before it shipped |
| WorldBuilders.BundleTellsOneStory | app/synthetic/graph.py:194-303 | Order and shipment agree, no delivery lies in the future, cancelled orders ship nothing, a shipping time is absent only while processing |
| WorldBuilders.PaymentsInOrder | app/synthetic/graph.py:237-288 | Payments are numbered on from the table: failed ones two hours early, then the first, then the second paid one |
| WorldBuilders.HappyTimingIsCoherent | app/synthetic/graph.py:387-417 | Happy-path orders are at most fifteen days old, delivered ones arrived by now without the clamp, shipped ones are due in two to six days |
| WorldSound.AddOrderSound | app/synthetic/graph.py:163-303 | One order keeps the invariant, appends exactly itself, and keeps dates in order when its plan is old enough |
| WorldSound.RunRecipeSound | app/synthetic/anomalies.py:77-511 | Every labelled builder keeps the invariant and leaves its label, and never raises when a laptop above the threshold exists |
| WorldSound.PickSpec | app/synthetic/anomalies.py:35-42 | Product lookups answer from the catalog; the lookup above the threshold fails exactly when there is no such laptop |
| WorldSound.AddRefundSound | app/synthetic/anomalies.py:544-587 | The return and refund rows keep the invariant, and the paid payment they look for exists |
| WorldSound.PaidCoversTotal | app/synthetic/graph.py:508-519 | One paid payment already covers an order's total |
| WorldRuns.OverlaySound | app/synthetic/anomalies.py:45-70 | The overlay succeeds exactly when a laptop is above the threshold; its dates are in order exactly when the window is at least -4 |
| WorldRuns.BuildCustomerFacts | app/synthetic/graph.py:128-150 | A new customer: the tier, status, name and address given, or an unused address; forty to four hundred days old |
| WorldRuns.GoldInCopies | app/synthetic/anomalies.py:471-489 | With a window of -5 or less the gold-tier order misdates every run |
| WorldRuns.AddNegativesSound | app/synthetic/anomalies.py:514-541 | The security utterances touch nothing but the labels and claim no double payment |
| WorldFilling.ShowcaseSound | app/synthetic/demo_customer.py:20-53 | The showcase keeps the invariant, its address is new, and it succeeds whenever the overlay did |
| WorldFilling.FillSound | app/synthetic/graph.py:331-384 | The filler keeps invariant and dates and gives every customer an order |
| WorldSizes.FillOrdersRows | app/synthetic/graph.py:377-384 | The third loop stops exactly at the target when the owed orders did not pass it, and each of its orders belongs to a customer without the showcase address whenever there is one |
| WorldSizes.FillOwnersRows | app/synthetic/graph.py:373-375 | Only customers without an order get one, one each at most |
| WorldStock.NextOrderGoesTo | app/synthetic/graph.py:377-384 | The next order goes to the eligible customer the next draw points at |
| WorldStock.RandomOrderIs | app/synthetic/graph.py:352-371 | Product and status of a random order are those its first two draws point at |
| WorldStock.StatusesAreWeighted | app/synthetic/graph.py:51-61 | The status of a roll is the one whose weight in the table of percentages holds it |
| WorldFinish.ApplyDemoLoginSound | app/synthetic/__init__.py:59-68 | Pinning the first customer keeps all emails distinct, moves nobody, and gives the documented login |
| WorldFinish.RelabelKeeps | app/synthetic/__init__.py:53-54 | Neither the login nor new public ids disturb the invariant, the dates or anyone's orders |
| WorldFinish.PublicIdsSequential | app/synthetic/graph.py:420-437 | In all eight tables public ids end up sequential and distinct, orders from 1001, the others from one, and numbering again changes nothing |
| WorldShift.TimeShift | app/synthetic/__init__.py:26-56 | With the same tape, moving the clock by d moves every timestamp by d and changes nothing else |
| WorldShift.ShiftAddOrder | app/synthetic/graph.py:163-303 | One order under a moved clock uses the same draws and is the moved order |
| WorldShift.ShiftFillHappyPath | app/synthetic/graph.py:331-417 | The filler under a moved clock uses the same draws and leaves the moved world |
| Emails.Allocate | app/synthetic/graph.py:115-125 | The search for a free address ends and its answer is unused, ignoring case |
| Emails.AllocateLoginEmail | app/synthetic/graph.py:115-125 | The loop over suffixes ends (each try is a different address) at the first free candidate |
| Emails.CandidateInjective | app/synthetic/graph.py:121-124 | Different suffixes give addresses that differ even ignoring case |
| WorldStock.UsualAddress | app/synthetic/graph.py:109-125 | First and last name make `first.last` at the domain of the number, as long as that is free |
| Emails.ShowcaseIsSpecial | app/synthetic/graph.py:57-60 | No allocated address can be the showcase address |
| Catalog.LaptopAbove | app/synthetic/catalogs.py:252-265 | The catalog holds a laptop above a threshold exactly when the threshold is below 7999.00 |
| WorldGenerator.World.BuildCustomer | app/synthetic/graph.py:128-150 | The builder makes the specified customer from the same draws |
| WorldGenerator.World.AddOrderBundle | app/synthetic/graph.py:163-303 | Run in place, the appended rows and the draws used are the specified bundle's |
| WorldGenerator.World.AddTicket | app/synthetic/graph.py:306-328 | Appends the specified ticket and nothing else |
| WorldAssembly.LookUpProduct | app/synthetic/anomalies.py:35-42 | The loop returns the first wanted product, the first product, or nothing, as specified |
| WorldAssembly.AddReturnAndRefund | app/synthetic/anomalies.py:544-587 | Appends the specified return and refund, or raises when no paid payment exists |
| WorldAssembly.BuildScenario | app/synthetic/anomalies.py:77-111 | Orders, optional return and refund, optional ticket and label, in place, as specified |
| WorldAssembly.OverlayAnomalies | app/synthetic/anomalies.py:45-70 | The nested loops over copies and builders compute the specified overlay or raise where it does |
| WorldAssembly.BuildDemoShowcase | app/synthetic/demo_customer.py:20-53 | The showcase built in place is the specified one |
| WorldAssembly.DrawTiming | app/synthetic/graph.py:387-417 | Age, estimate and delivery per status as specified |
| WorldAssembly.FillWithHappyPath | app/synthetic/graph.py:331-384 | The three loops, counting orders in a dictionary, leave the specified world |
| WorldAssembly.CountOrders | app/synthetic/graph.py:352-354 | The dictionary counts every customer's orders |
| WorldAssembly.PinDemoLogin | app/synthetic/__init__.py:59-68 | The loop that frees the login and pins it is the specified renaming |
| WorldAssembly.RenumberWorld | app/synthetic/graph.py:420-437 | The eight loops in place are the specified numbering |
| WorldAssembly.GenerateWorld | app/synthetic/__init__.py:26-56 | The whole run returns a checked world exactly under the stated settings, and it is the specified one |
| Loader.ParseSimpleYaml | app/policies/loader.py:41-51 | The index-threaded loops agree with the specification on values, errors and the index reached |
| Loader.ParseMappingAt | app/policies/loader.py:63-85 | The mapping loop agrees with the specification from any index |
| Loader.ParseListAt | app/policies/loader.py:88-104 | The list loop agrees with the specification from any index |
| Loader.ParseBlock | app/policies/loader.py:54-60 | Every call on a line at its own indent raises or consumes at least one line |
| LoaderValues.RoundTrip | app/policies/loader.py:41-124 | Printing any value of the subset and parsing it returns the value and consumes every line |
| LoaderValues.DocumentRoundTrip | app/policies/loader.py:41-104 | The same for every layout: any indentation steps, blocks and lists deeper than their key by any number of columns |
| LoaderValues.ScalarReadsBack | app/policies/loader.py:107-124 | Printed booleans, nulls, numbers and quoted texts parse back to themselves |
| LoaderValues.BareReadsBack | app/policies/loader.py:107-124 | Every text that is not quoted, not a word for a truth value or for nothing, and not a numeral is read as it stands |
| LoaderValues.WordsAre | app/policies/loader.py:112-118 | yes, no, none, ~ and the others in every case |
| LoaderValues.QuotesComeOff | app/policies/loader.py:108-111 | Either kind of quotes comes off and nothing inside is touched |
| LoaderValues.SignsAre | app/policies/loader.py:119-122 | Digits without a dot are an integer, with either sign |
| LoaderValues.UnderscoresAre | app/policies/loader.py:119-122 | An underscore between digits changes nothing |
| LoaderValues.FloatsAre | app/policies/loader.py:119-121 | A number with a dot is a float, with digits on either side or both |
| LoaderRoundTrip.NodeInverse | app/policies/loader.py:54-104 | A printed node followed by any shallower line parses to its meaning and leaves exactly that line |
| LoaderText.JunkLinesIgnored | app/policies/loader.py:43-49 | Blank and comment lines inserted anywhere change nothing |
| LoaderText.TrailingCommentIgnored | app/policies/loader.py:45-47 | Nor does a comment or blanks at the end of a line |
| LoaderText.LinesAre | app/policies/loader.py:44-49 | Any line break ends a line, and CR LF is one break |
| LoaderText.PutOver | app/policies/loader.py:75-84 | A repeated key takes the new value in its old place |
| LoaderValues.ConsumesAllIff | app/policies/loader.py:41-104 | A parse that does not raise consumes every line exactly when, at the top, no dash line follows a mapping and nothing else follows a list |
| LoaderValues.DropsTrailingList | app/policies/loader.py:71-72 | After a top-level mapping a dash line is dropped without an error |
| LoaderValues.ListAtKeyColumnIsLost | app/policies/loader.py:66-84 | A dash in the key's own column leaves the key without a value and the list unread: an error inside a deeper block, dropped at the top |
| LoaderValues.TopListParses | app/policies/loader.py:88-104 | A list at the top never raises |
| LoaderValues.MappingTakes | app/policies/loader.py:63-85 | A mapping takes no dash line of its own indent and stops only at one or at a shallower line |
| LoaderValues.DashHasItem | app/policies/loader.py:96-103 | A dash line always has text after its dash, so the nested-item branch cannot be reached from text |
| SsePrinted.PacketsRoundTrip | web/hooks/use-chat-stream.ts:14-36 | Packets printed with LF or CR LF line by line, cut anywhere outside CR LF pairs, arrive exactly and in order |
| SseCuts.PacketsArriveIff | web/hooks/use-chat-stream.ts:14-36 | For printed packets under any line ends and any cutting: exactly the packets arrive if and only if every CR LF cut in two ends a blank line, a line before a blank one, or an `event: message` line |
| SseCuts.ItemCut | web/hooks/use-chat-stream.ts:14-36 | One printed event or comment with false blank lines: never fewer packets, and exactly its own if and only if none of them does harm |
| SseCuts.FedIsSeen | web/hooks/use-chat-stream.ts:31-36 | Under any cutting the splitter is fed the normalised body with one more line feed for each CR LF cut in two |
| SseChunks.FedExactlyWhenCutsClean | web/hooks/use-chat-stream.ts:31-36 | The splitter is fed the normalised body if and only if no cut falls inside CR LF |
| SseChunks.ChunksIrrelevant | web/hooks/use-chat-stream.ts:137-162 | Every cutting that spares CR LF pairs yields the packets of the whole body |
| SseChunks.ReadIsFed | web/hooks/use-chat-stream.ts:137-162 | Under any cutting, the packets are those of the text the splitter was fed |
| SseEvents.FramesAreLines | web/hooks/use-chat-stream.ts:14-36 | For every text, splitting at blank lines and parsing frames is interpreting line by line |
| SseWire.ReadOfAnyBody | web/hooks/use-chat-stream.ts:124-162 | For every body and every cutting: the events of the lines fed to the splitter, then the event gathered from what follows the last blank line without its leading blanks |
| SseWire.ReadIsInterpret | web/hooks/use-chat-stream.ts:124-162 | The reader is a line interpreter that also hands on the pending event at the end, unless the trim takes blanks off the first line of the remainder that is not blank |
| SseWire.LineCorrespondsIff | web/hooks/use-chat-stream.ts:14-28 | From corresponding states, client and standard stay in correspondence over a line exactly when it is no bare `data`, no bare `event` that clears a name, and a value loses no more to trimming than one space and is a non-empty name if it is one |
| SseWire.AgreesWithStandard | web/hooks/use-chat-stream.ts:14-28 | On lines read alike the client dispatches what section 9.2.6 dispatches |
| SseWire.ReadAgainstStandard | web/hooks/use-chat-stream.ts:149-155 | The reader hands on the standard's events plus the event the body leaves unterminated |
| SseWire.AgreesWithStandardIff | web/hooks/use-chat-stream.ts:149-155 | On bodies read alike line by line, the reader equals section 9.2.6 exactly when no data line is left without its blank line |
| SsePrinted.UnterminatedEventArrives | web/hooks/use-chat-stream.ts:149-155 | A body of one data line without its blank line: the client hands the event on, the standard discards it |
| SseWire.EndDispatchesPending | web/hooks/use-chat-stream.ts:149-155 | At the end of a remainder whose first line with text is not indented, exactly the gathered event is dispatched, terminated or not |
| SsePrinted.CutInsertsLineFeed | web/hooks/use-chat-stream.ts:31-36 | A cut between CR and LF reads as one more line feed |
| SsePrinted.CutSplitsEvent | web/hooks/use-chat-stream.ts:31-36 | So one event of two data lines arrives as two |
| SseFramer.ParseSseFrame | web/hooks/use-chat-stream.ts:14-29 | The loop over lines gathers the specified event and data |
| SseFramer.ReadSseStream | web/hooks/use-chat-stream.ts:137-162 | The read loop with its buffer hands on the specified packets |
| Bubbles.UpsertDistinct | web/hooks/use-chat-stream.ts:201-235 | Every update keeps ids and fingerprints free of repeats |
| Bubbles.RedeliveryInvisible | web/hooks/use-chat-stream.ts:201-235 | However often messages are redelivered, with first arrivals in order, the list is that of one delivery, as long as no step of that delivery takes an earlier message off the screen |
| Bubbles.TwoChannelsShowOne | web/hooks/use-chat-stream.ts:201-235 | Any interleaving of two in-order copies shows what one copy shows, as long as no step of the single delivery loses a message |
| Bubbles.RedeliveryInvisibleIff | web/hooks/use-chat-stream.ts:201-235 | For messages that are listed once each, that condition is exact: for all redeliveries with first arrivals in order, and already for two channels |
| Bubbles.StaysAbsorbedIff | web/hooks/use-chat-stream.ts:207-235 | A message on screen stays shown by the next update exactly unless that update removes the optimistic item standing for it and is itself not added because its id is on screen |
| Bubbles.NothingLostWhen | web/hooks/use-chat-stream.ts:201-235 | No step loses a message when no optimistic item is on screen, when ids are keys, or on a customer's screen (optimistic items are the customer's, roles are the three there are) |
| Bubbles.RedeliveryInvisibleWhen | web/hooks/use-chat-stream.ts:201-235 | So on these screens any redelivery with first arrivals in order shows what one delivery shows |
| Bubbles.EchoReplaces | web/hooks/use-chat-stream.ts:207-214 | The echo of an optimistic item takes its place, one bubble with the server's id |
| Bubbles.MergeDistinct | web/hooks/use-chat-stream.ts:104-111 | Merging history keeps the live list as a prefix and repeats nothing |
| Bubbles.ExtrasConcat | web/hooks/use-chat-stream.ts:104-111 | History is taken in order, each message as it comes unless it is shown or only local |
| Bubbles.DoneShowsOnce | web/hooks/use-chat-stream.ts:164-177 | An answer's message and its `done` event show one bubble in either order |
| Bubbles.DoneIs | web/hooks/use-chat-stream.ts:164-177 | A done event stands for the answer, or else the draft, under the run id or one made of ticket and text |
| Bubbles.RepeatedTextHidden | web/hooks/use-chat-stream.ts:222-227 | A second message with the same text from the same side is never shown |
| Bubbles.UnnamedAnswersCollide | web/hooks/use-chat-stream.ts:164-177 | Two answers without a run that agree in their first 24 characters share an id, and the second is never shown |
| Bubbles.ReusedIdShowsMore | web/hooks/use-chat-stream.ts:207-227 | With an agent's optimistic item on screen, an id reused for another text loses a message, and redelivery shows one bubble more |
| Bubbles.ChatView.Add | web/hooks/use-chat-stream.ts:201-235 | The update in place is the specified list, and the cache follows exactly when a ticket is open |
| PolicyRules.RefundEligibility | app/policies/rules.py:18-143 | Eligible exactly when verified and covered; an eligible case is for the whole amount; when a human must approve |
| PolicyRules.RefundReasons | app/policies/rules.py:18-143 | Which reason a refusal or a grant gives, and when an inspection is needed |
| PolicyRules.WaitingNeverHelps | app/policies/rules.py:95-143 | What is refused stays refused as days pass, and a needed approval stays needed |
| PolicyRules.AmountOnlyEscalates | app/policies/rules.py:130-143 | The amount never changes eligibility and only ever adds a human |
| PolicyRules.CancelOnlyBeforeShipment | app/policies/rules.py:146-170 | Cancelling is allowed exactly while nothing has left and the order is not cancelled |
| PolicyEscalation.CatalogHit | app/policies/rules.py:221-244 | The closed catalog escalates exactly when one of its facts is present, whatever the order of its branches |
| PolicyEscalation.CatalogCause | app/policies/rules.py:186-244 | Why it escalates: the first of its facts in its order, or else the trigger reported |
| ToolsIsolation.NonInterference | app/tools/lookups.py:60-64 | Databases that agree on a customer's rows and the catalog answer every sequence of calls for that customer alike, still agree, and leave everyone else's rows untouched |
| ToolsIsolation.StepIsolated | app/tools/billing/tools.py:29-202 | Each call commutes with the restriction to the customer's own rows |
| ToolsIsolation.OwnOrder | app/tools/lookups.py:45-64 | The scoped lookup finds the same order, with the same rows, in one's own part of the database |
| ToolsIsolation.CancelIsolated | app/tools/logistics/tools.py:79-107 | Cancelling touches one's own order only |
| ToolsIsolation.RefundIsolated | app/tools/billing/tools.py:145-202 | A refund request reads and writes one's own rows only |
| ToolsReplies.CancelIff | app/tools/logistics/tools.py:79-107 | An own order is cancelled exactly when nothing of it has left and it is not cancelled yet; then that row changes and no other; otherwise nothing, and the refusal says which |
| ToolsReplies.CancelledForGood | app/tools/logistics/tools.py:79-107 | In any run a cancellation announced was made to exactly one own row, which ends the run cancelled |
| ToolsReplies.ChangedBecause | app/tools/logistics/tools.py:79-107 | No order changes in a run but through a turn that announces a cancellation |
| ToolsReplies.ReturnIs | app/tools/logistics/tools.py:110-148 | What a return says: the order, the reason or `other`, and an inspection for defects |
| ToolsReplies.PaymentsShown | app/tools/billing/tools.py:70-108 | All payments of the order in order; charged twice exactly when two or more are paid, all alike |
| ToolsReplies.OrderShown | app/tools/billing/tools.py:29-39 | The order, paid as soon as one payment is, else as its first payment stands |
| ToolsReplies.ItemsShown | app/tools/billing/tools.py:42-67 | The lines of the order one by one, with their products |
| ToolsReplies.ShipmentShown | app/tools/logistics/tools.py:22-76 | The shipment of the order, or that there is none |
| ToolsReplies.NotFound | app/tools/lookups.py:60-64 | Every tool asked for an order of nobody or somebody else says so and does nothing |
| ToolsRefunds.RunIsSafe | app/tools/billing/tools.py:111-202 | Over every run of calls: refund rows are only appended, one per announcement, each for a whole order and within what was paid; each announcement is justified by the state and the moment of its own call (an own order, an identity that counts as verified, an order covered by the rules, and a row for that order, reason and a paid payment, which is `requested` exactly within the threshold and without inspection); orders are only cancelled before they leave |
| ToolsRefunds.GeneratedRunIsSafe | app/tools/billing/tools.py:111-202 | The same from every generated world |
| ToolsRefunds.ShippedNeverCancelled | app/tools/logistics/tools.py:79-107 | An order that has left keeps its row through every run |
| ToolsRefunds.OpenedIsJustified | app/tools/billing/tools.py:145-202 | One request opens a refund exactly for an own order that is covered, asked for by someone who counts as verified; what the row then says; otherwise nothing changes |
| ToolsEntitlement.EntitledIff | app/policies/rules.py:18-143 | From the tables: the engine grants a refund exactly when the identity is verified and the order is delivered recently enough for the reason, or charged twice; and asks for an inspection exactly for electronics that come back late |
| ToolsEntitlement.PrimaryProductIs | app/tools/lookups.py:134-138 | The product the rules look at is the one of the order's first line |
| ToolsRefunds.VerifiedIff | app/tools/account/tools.py:33-48 | After any run the context is verified exactly when the last identity check found an own, active profile, or none was made and it was before |
| ToolsRefunds.UnverifiedOpensNothing | app/tools/billing/tools.py:145-202 | In a run where no call vouches for the identity and no check finds an active profile, no refund is opened |
| ToolsRefunds.RefundsWithinPaidIff | app/tools/billing/tools.py:176-192 | After a successful request an order's refunds stay within what was paid exactly when it had fewer refund rows than paid payments |
| ToolsRefunds.RefundedTwice | app/tools/billing/tools.py:145-202 | Two requests for an order paid once open refunds for twice its amount |
| ToolSession.ToolContext.Invoke | app/tools/billing/tools.py:29-212 | Any call run in place on the session's rows is the specified step |
| ToolSession.ToolContext.CreateRefundRequest | app/tools/billing/tools.py:145-202 | Appends the specified row, or leaves the table as it was |
| ToolSession.ToolContext.CancelInPlace | app/tools/logistics/tools.py:79-107 | Updates the order's status in place, or refuses |
| ToolSession.ToolContext.CreateReturnRequest | app/tools/logistics/tools.py:110-148 | Appends the specified return without looking at the order's status |
| ToolSession.ToolContext.VerifyIdentity | app/tools/account/tools.py:33-48 | Sets the context's flag to what the profile says, and clears it on any error |
| ToolLoop.RunToolLoop | app/agents/tool_loop.py:69-191 | The one-pass loop yields the two-pass conversation; a human is needed exactly when the last deciding result demands one or the facts hit the catalog, and then the decision says so; the refund flags are exactly the announced ones |
| ToolLoop.FactsFromResults | app/agents/tool_loop.py:40-66 | The loop's facts are, one by one, those of the last (or first) error-free result that shows them |
| ToolLoop.HandleCalls | app/agents/tool_loop.py:122-161 | The calls of one turn are handled in order, with one reply each and the running decision kept |
| ToolLoop.ConversationBounds | app/agents/tool_loop.py:112-132 | At most four model turns, and no tool runs that is not offered or not allowed by the scopes |
| ToolRuns.ConversationIs | app/agents/tool_loop.py:112-161 | The conversation is the model's turns up to the first without calls, four at most, each call handled in order with one reply, and the answer of the last turn |
| ToolRuns.EntriesAre | app/agents/tool_loop.py:122-161 | A tool runs exactly when it is authorised and offered, with the next answer; otherwise the entry is an error |
| ToolRuns.AuthorizedIff | app/security/permissions.py:1-27 | Writing tools need a writing scope, general or of their domain, reading tools a reading one |
| ToolRuns.DecisionIs | app/agents/tool_loop.py:135-155 | The decision's trigger is that of the last evaluation or of the eligibility a refund request carries |
| ToolLoop.OneReplyPerCall | app/agents/tool_loop.py:156-161 | One tool message per call, in order |
| ToolLoop.LaterResultDropsHuman | app/agents/tool_loop.py:140-143 | A later evaluation replaces an earlier demand for a human |
| ToolLoop.FailedLookupDropsHuman | app/agents/tool_loop.py:140-141 | Even a failed eligibility lookup drops it |
| ToolLoop.DemandSurvivesIff | app/agents/tool_loop.py:140-155 | Exactly when any further results keep a demand |
| ToolLoop.NoDemandIsFinal | app/agents/tool_loop.py:40-66 | Whatever came before, a verified identity, an arrived parcel and a calm evaluation leave nobody called |
| GraphFlow.BuildSupportGraph | app/graph/workflow.py:27-73 | The successive calls on the builder produce exactly the specified wiring, and each meets the builder's demands |
| GraphFlow.SupportFlowClosed | app/graph/workflow.py:41-71 | Routers answer only with the targets they were given |
| GraphFlow.EveryEdgeDescends | app/graph/workflow.py:41-71 | Every edge lowers the rank, whatever the state |
| GraphSafety.RunDescends | app/graph/workflow.py:41-71 | Every run ends or pauses; it enters no node twice |
| GraphSafety.WorkerRunsIff | app/graph/edges.py:9-54 | A worker (hence a tool) runs in a customer's turn exactly when the input passed, the account is usable, nothing on the thread requires a human, and no earlier node failed |
| GraphSafety.WhichWorker | app/graph/edges.py:28-54 | And it is the worker of the intent, logistics for an unknown one |
| GraphSafety.OneWorkerAtMost | app/graph/workflow.py:49-69 | One worker a run at most |
| GraphSafety.ThreadIsSafe | app/graph/nodes.py:54-121 | Over all turns of a thread: no worker for flagged input or unusable accounts, and none ever again once the decision has required a human |
| GraphSafety.PausesIff | app/graph/edges.py:28-54 | A turn that does not fail pauses exactly when something requires a human before or after the work |
| GraphSafety.EndingIs | app/graph/workflow.py:41-71 | How any turn ends, failing nodes included: it fails, pauses or ends as the first node to fail or to require a human decides |
| GraphSafety.EndsNeedingHumanIff | app/graph/nodes.py:220-235 | A turn ends with a human needed and no interrupt exactly when the output guardrails reject a draft |
| GraphSafety.EndedTurnLeaves | app/graph/nodes.py:220-235 | What a turn that ends leaves on the thread: the work's findings and its draft as the guardrails let it pass |
| GraphSafety.PausedTurnLeaves | app/graph/nodes.py:54-121 | What a turn that pauses leaves, before or after the work |
| GraphSafety.RejectedAnswerPausesNext | app/graph/edges.py:9-26 | After such a turn the next message goes to a human |
| GraphSafety.HumanRunShape | app/graph/nodes.py:159-187 | A human's answer runs escalation and output only, and leaves the decision |
| GraphSafety.HumanTurnLeaves | app/graph/nodes.py:159-187 | A human's answer goes out as the guardrails let it pass; an empty one stands for the usual notice |
| TicketSafety.RunKeeps | app/services/ticket_service.py:188-328 | Over every sequence of requests: escalated tickets know since when and that never changes, one resolution row at most, history and runs only grow, no assistant message echoes the one before it, a closed ticket changes only its agent |
| TicketSafety.PersistKeeps | app/services/ticket_service.py:188-273 | Persisting a graph result always succeeds and adds one run |
| TicketAnswers.PersistWrites | app/services/ticket_service.py:188-273 | Column by column what persisting writes: status, time of escalation, the one resolution, the run, the message |
| TicketAnswers.AnswerIs | app/services/ticket_service.py:218-232 | Which text is stored: of the interrupt, else the draft, else the error, else a stock phrase; and what replaces an empty one |
| TicketAnswers.PersistsIff | app/services/ticket_service.py:557-565 | The answer becomes a message unless it is blank or an assistant or agent has just said it |
| TicketAnswers.ClosingLeaves | app/services/ticket_service.py:280-308 | What closing leaves: no assignee, the notice, the reason beneath the answer |
| TicketAnswers.AppendedMessage | app/services/ticket_service.py:518-544 | A message is appended as it is and describes and names a ticket that has no text of its own |
| TicketSafety.ClosedRefusesAll | app/api/routes/tickets.py:293-415 | On a closed ticket everything but a takeover is refused and changes nothing |
| TicketSafety.GraphRunsIff | app/services/chat_service.py:128-150 | Which requests run the graph: an assigned agent silences it for customers' messages only, not for resolve |
| TicketSafety.EscalatedAfterTurnIff | app/services/ticket_service.py:188-217 | After a customer's message whose run does not fail, the ticket is escalated exactly when something required a human or the output was rejected; after one that fails it is open, or, if the exception has no text, escalated exactly when the thread needed a human |
| TicketDesk.DeskStaysInStep | app/api/routes/tickets.py:134-382 | Ticket and thread in lock step over every sequence of requests whose resumptions go through: an escalated ticket's thread hands the next message to a human and has a pending interrupt unless its last answer was rejected; an interrupt is pending only on tickets escalated, or confirmed or closed since |
| TicketDesk.EscalatedKeepsWaiting | app/services/chat_service.py:128-232 | A customer who writes again on an escalated ticket keeps it escalated and waiting, and no worker runs |
| TicketDesk.FailedReplyStrandsIff | app/api/routes/tickets.py:309-351 | Exactly when a reply that raises leaves the ticket escalated with neither a pending interrupt nor a thread that needs a human |
| TicketSafety.NewTicketKeeps | app/api/routes/tickets.py:47-85 | New tickets have the invariant; creating one raises exactly when an untitled ticket has a blank text |
| TicketService.TicketRecord.PersistGraphResult | app/services/ticket_service.py:188-273 | The field updates are the specified persisting |
| TicketService.TicketRecord.AppendMessage | app/services/ticket_service.py:518-544 | Appends the message, fills description and title, or raises where the source does |
| TicketService.TicketRecord.CloseTicket | app/services/ticket_service.py:280-308 | Closes, unassigns, notes the reason and appends the notice, or conflicts |
| TicketService.TicketRecord.ConfirmResolution | app/services/ticket_service.py:311-328 | Resolves once; a second confirmation changes nothing |
| TicketService.TicketRecord.PostCustomerMessage | app/services/chat_service.py:137-232 | The customer's turn in place, rolled back where it raises |
| TicketService.TicketRecord.PostAgentMessage | app/services/chat_service.py:240-310 | The agent's turn in place, resuming only an interrupted graph |
| TicketService.TicketRecord.Handle | app/api/routes/tickets.py:134-382 | Any request in place is the specified step |
| Collapse.CollapseConcatenatedCopy | app/security/guardrails.py:83-97 | The loop over two, three and four parts is the specified collapse |
| Collapse.CollapseIsRoot | app/security/guardrails.py:83-97 | What is kept is the text, half of it repeated twice, or a third repeated three times, and which |
| Collapse.CollapseIff | app/security/guardrails.py:83-97 | A text is shortened exactly when it is two or three copies of one of twenty characters or more |
| Collapse.FourIsTwo | app/security/guardrails.py:88-96 | Four copies are two copies, so the last case never fires |
| Collapse.IdempotentIff | app/security/guardrails.py:83-97 | Collapsing twice does more than once exactly on four, six and nine copies of at least twenty characters |
| Collapse.FourfoldLeavesTwo | app/security/guardrails.py:88-96 | Every fourfold copy leaves two |
| Collapse.CollapseFullyIsRoot | app/security/guardrails.py:83-97 | Repeated collapsing ends at a text that collapses no further, of which the original is a number of copies |
| CollapseParagraphs.CollapseRepeatedAnswer | app/security/guardrails.py:70-80 | The loop keeps the specified paragraphs |
| CollapseParagraphs.AnswerSplitsAgain | app/security/guardrails.py:70-80 | The answer splits again into exactly its own stripped, non-empty, adjacent-distinct paragraphs |
| CollapseParagraphs.NothingLost | app/security/guardrails.py:73-79 | The kept units are exactly the collapsed paragraphs |
| CollapseParagraphs.KeptAreSqueezed | app/security/guardrails.py:73-79 | The paragraphs kept are the collapsed ones in order, each run of equal ones shrunk to one |
| CollapseParagraphs.InkKept | app/security/guardrails.py:73-79 | Splitting loses only blanks |
| Trace.ReplayNumbered | app/observability/trace_recorder.py:69-93 | Sequence numbers are one to n in order, whatever callbacks come |
| Trace.StartsAreOpen | app/observability/trace_recorder.py:125-200 | The start times kept are exactly those of runs started and not ended |
| Trace.PatchesLatestStart | app/observability/trace_recorder.py:206-223 | On every trace, an end patches the event of the latest run of its kind to start |
| Trace.EndsPatchTheirStart | app/observability/trace_recorder.py:138-200 | Where runs of a kind do not overlap, every end and error patches its own start event |
| Trace.PatchesOwnIff | app/observability/trace_recorder.py:206-223 | An end patches its own event exactly when no other run of its kind has started since |
| Trace.NestedPatchesInner | app/observability/trace_recorder.py:156-172 | A tool that calls a tool: the outer end overwrites the inner event and leaves its own without output |
| TraceContents.EndWrites | app/observability/trace_recorder.py:138-172 | An end writes its output and the time since the run's start into that event and changes nothing else |
| TraceContents.ErrorWrites | app/observability/trace_recorder.py:174-200 | An error writes its text and the time, and keeps the output |
| TraceContents.StartTimeIs | app/observability/trace_recorder.py:125-200 | The time kept for an open run is that of its last start |
| TraceContents.UpdateWrites | app/observability/trace_recorder.py:94-106 | A graph update adds one event a node, in order, an interrupt as a guardrail |
| Trace.BackfillAddsMissing | app/observability/trace_recorder.py:107-123 | Backfilling adds each missing tool name once and nothing else |
| TraceContents.BackfillWrites | app/observability/trace_recorder.py:107-123 | A backfilled event says what the first result of its name says |
| Trace.BackfillIdempotent | app/observability/trace_recorder.py:107-123 | Backfilling twice is backfilling once |
| TraceRecording.TraceRecorder.PatchLast | app/observability/trace_recorder.py:206-223 | The backward scan patches the last event of the kind, or none |
| TraceRecording.TraceRecorder.OnEnd | app/observability/trace_recorder.py:138-172 | Drops the start time and patches, as specified |
| TraceRecording.TraceRecorder.BackfillToolResults | app/observability/trace_recorder.py:107-123 | The loop is the specified backfill |
| Chunks.ChunkText | scripts/ingest_kb.py:24-36 | The loop yields the specified chunks |
| Chunks.ChunksConserve | scripts/ingest_kb.py:24-36 | No word is lost, moved or split |
| Chunks.ChunksWellCut | scripts/ingest_kb.py:24-36 | Every chunk but the last reaches the size and is below it without its last word |
| Chunks.StoredWords | scripts/ingest_kb.py:24-36 | The stored chunks' words, one after another, are the text's words |

## Left out

- WorldTheorem.GeneratorMeetsChecker: a uuid is named by its tape cell, so a collision of two random uuids is not modelled; `random()` is a numerator over 2^53 compared with exact percentages, and a world model that lists no carrier (where the source raises) is outside the type `Records.Company`.
- WorldSpec.BuildCustomer: names are taken as ASCII, so the Unicode decomposition in the email slug is not modelled; the phone keeps its drawn number only.
- WorldSpec.RunRecipe: subjects, messages, payloads and expectations of tickets and scenarios are not modelled, only their kind, owner and order.
- WorldGenerator.World.AddOrderBundle: rows are values in the world's lists, so aliasing between a returned record and the list is not captured; public ids are a prefix and a number, not the zero-padded text.
- Loader.ParseSimpleYaml: a float keeps its literal text, and numerals are ASCII digits (Python also accepts other decimal digits); repeated keys replace the value in place as a Python dictionary does.
- SseWire.ReadIsInterpret: for a remainder whose first line with text is not indented, because the final `trim` moves that line to the margin (`SseWire.ReadOfAnyBody` covers all bodies); a byte order mark, the text decoder and the JSON inside data fields are not modelled.
- SseWire.AgreesWithStandard: a later field can mask an earlier difference, so reading every line alike is exact line by line, not for the packets; `id` and `retry`, which the client ignores, are no part of the packets.
- Bubbles.RedeliveryInvisibleIff: first arrivals are in order and the server's messages are listed once each; creation times of messages are not modelled.
- ToolsIsolation.NonInterference: relies on the database's unique keys; the result label lookups, the knowledge base search and a missing tool context are not modelled.
- ToolsRefunds.RunIsSafe: "verified" is what the code takes for it, the call's own argument or the context's flag; the model may pass that argument unchecked.
- TicketDesk.DeskStaysInStep: whether the checkpointing library still waits after a resumption that failed, and whether it refuses one with nothing to resume, are arbitrary; a refused one raises, otherwise the state comes back unchanged. Reading the snapshot is taken to succeed.
- ToolLoop.RunToolLoop: tool results carry the keys the loop reads, typed; the prompt window and the knowledge base context are the arbitrary initial messages.
- GraphSafety.ThreadIsSafe: a failing node ends the run and keeps the state before it; the checkpointing library itself is not modelled.
- TicketSafety.RunKeeps: requests are atomic and a request that raises is rolled back; concurrent requests on one ticket, confidence values and the flushed event rows are not modelled; append order stands for creation time.
- Trace.ReplayNumbered: payloads are opaque texts, so conversion to JSON is not modelled.
- Model calls, prompts and intent classification: their outputs are arbitrary values.
- Markdown, injection and refund-claim patterns: the sanitizer is an arbitrary function, the verdict on input arbitrary, and that on output an arbitrary function of the draft and of whether a refund was executed.
- PostgreSQL, Redis, streaming heartbeats, API keys and sessions, React components and pages, analytics and migrations: plumbing around the modelled code.
- Embeddings, vector search, reranking and evaluation metrics: they would only add easy members or invisible libraries.
