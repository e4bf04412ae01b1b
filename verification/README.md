# Tickets, billing and gateway: a verified model

The repository runs WhatsApp groups as a ticketing product: a backend files group messages and photos as
tickets, a billing service takes M-Pesa payments and limits the groups a client may use, and a gateway
connects to WhatsApp. This project models the parts that carry state across many messages, together with
the small algorithms they rely on, and proves what holds over every run.

How it is laid out:

- **State machines.** `TicketModel` and `BillingModel` say, as functions on the tables, what each handler
  does; `Apply` performs one step and `Run` a whole sequence. The invariants are proved about `Run`.
- **Ticket invariants**: `TicketFiling` (what one message can do), `TicketChoice` (which ticket is
  chosen), `TicketInvariants` (links), `TicketPhotos`, `TicketFiles`, `TicketGroups`, `TicketRecords`,
  `TicketNames`, `TicketPlates`, `TicketOrder` with `TicketBystanders` (the rest of the traffic).
- **Billing invariants**: `BillingPayments`, `BillingTiers`, `BillingCap`, `BillingDunning`, `BillingSubdomains`.
- **Runs worked out**: `TicketWitnesses`, `BillingOverwrite`, `BillingDowngrade`.
- **The handlers themselves.** `TicketStore` and `BillingService` are classes whose methods update the tables
  statement by statement and loop as the source does. Their `Valid()` is the conjunction of the invariants,
  kept by every handler; each method goes exactly where the function on tables says, and states what that means
  for its caller in the words of `TicketEffects` and `BillingEffects`.
- Every invariant holds of the empty tables (`TicketStart.NewDatabase`, `TicketEffects.EmptySound`,
  `BillingEffects.EmptySound`, `ContactDirectory.EmptyIsSound`), so the theorems about runs cover every
  reachable state.
- **Algorithms**: `VehiclePlate`, `Classifier`, `PortMap`, `Cidr`, `Reports`, `Jid`, `ContactDirectory` with
  `ContactNames` and the class in `ContactStore`; `Text` and `Rows` hold shared text helpers and the order of
  SQL rows.

Modelling choices:

- A handler is one atomic step. The language model's answers, the saved file, the M-Pesa response and the
  clock are arbitrary parameters of the step.
- SQL leaves the order of rows open where no ORDER BY decides it. That order is an arbitrary ranking of the
  row ids (`RowOrder`, `rank`), so every result holds for every order the database may choose.
- A commit that fails half way through a text message is the parameter `failAt`.
- Instants are whole numbers on one time line, dates are day numbers, money is `real`.
- Text is ASCII; message ids are always present, as the webhook substitutes a delivery id.

Places where a promise does not hold as stated, each with a run from the empty tables that fails it and the exact
condition:

- Photos reach another group's ticket if one message id arrives from two groups, because the lookup of a
  message's existing rows ignores the group. A delivery keeps the groups apart exactly when the photo finds no
  ticket or none of its rows waits in another group (`TicketGroups.PhotoInto`, `TicketWitnesses.ReusedIdBreaksIsolation`).
- A photo can be on one ticket twice, or linked and waiting at once, exactly after staff move a follow-up with it to a
  ticket that has it, or send one of its rows back (`TicketPhotos.StepOneHolder`, `TicketWitnesses.StaffDoublePhoto`).
- Making a ticket of a follow-up renumbers its issue to the first, so an issue is forgotten or recorded twice, and a
  reply under the id of a ticket's message records it twice (`TicketRecords.StepRecordsExactly`,
  `TicketWitnesses.PromotionForgetsIssue`, `TicketWitnesses.ReplyRecordsTwice`).
- A later M-Pesa callback that reports a failure overwrites the outcome of an upgrade request
  (`BillingPayments.RepeatedCallback`, `BillingOverwrite.FailureOverwritesUpgrade`).
- A paid upgrade can leave a client with more groups than its tier allows, and on a lower tier, if it was asked for
  before staff moved the client up. A step keeps the cap exactly when it grants no upgrade whose tier lacks the room or
  lowers the cap (`BillingCap.StepCap`, `BillingDowngrade.DownwardUpgradeBreaksCap`).
- A sender loses its name exactly when its @lid is tied, for the first time or anew, to a phone number behind which there
  is no name, by a contact that brings none: the number has an entry without names, or it has no entry and neither has
  the @lid a named one. No other event takes a name away (`ContactNames.NameLostExactly`,
  `ContactNames.MappingHidesName`, `ContactNames.RemappingHidesName`).

## Model

| member | source | states |
|---|---|---|
| TicketInvariants.LinksStayCoherent | backend/main.py:687-1244 | over every run of deliveries and staff actions, a photo's ticket and follow-up exist, a photo under a follow-up is on that follow-up's ticket, an unassigned photo has neither follow-up nor link method, and every follow-up's ticket exists |
| TicketInvariants.StepCoherent | backend/main.py:1790-1998 | each single delivery or staff step keeps that coherence |
| TicketInvariants.PromoteCoherent | backend/main.py:1936-1975 | turning a follow-up into a ticket moves exactly its photos to the new ticket, none left under a follow-up, and keeps every link coherent |
| TicketInvariants.RelinkCoherent | backend/main.py:1977-1998 | moving a follow-up moves exactly its photos to the new ticket, still under the follow-up, and keeps every link coherent |
| TicketInvariants.TextCoherent | backend/main.py:687-850 | a text keeps coherence whatever is classified, whichever issue's commit fails |
| TicketInvariants.PhotoCoherent | backend/main.py:1025-1244 | a photo keeps coherence whichever rule chose its targets |
| TicketFiling.RoutedToOpen | backend/main.py:535-564 | whatever the language model answers, an issue is only routed to one of the open tickets offered |
| TicketFiling.FileIssuesWell | backend/main.py:720-828 | recording a message's issues only adds rows of this message, on tickets of its own group, and changes no photo, file or contact |
| TicketFiling.QuotedTargetGood | backend/main.py:853-886 | the quoted target exists with one of that ticket's own follow-ups, and is of the group while photos are isolated |
| TicketFiling.PlateTargetGood | backend/main.py:889-906 | the plate target is a ticket of the message's own group |
| TicketFiling.CandidateSource | backend/main.py:921-956 | each proximity candidate is a ticket, follow-up or linked photo of the same sender and group inside the window |
| TicketFiling.ProximityTargetGood | backend/main.py:909-962 | the proximity target exists with its own follow-up, and is of the group while photos are isolated |
| TicketFiling.ChosenTargetsGood | backend/main.py:1140-1156 | whichever of the four rules wins, every chosen target exists with its own follow-up, and is of the group while photos are isolated |
| TicketFiling.AttachPhotoStep | backend/main.py:1158-1216 | filing a photo changes only this message's rows, all of them to chosen targets, and adds rows for this message only |
| TicketChoice.OpenTicketsAreNewest | backend/main.py:521-532 | the tickets offered are distinct open tickets of the group, newest first, and one is left out only beyond the limit and is then no newer than those offered |
| TicketChoice.FleetRouting | backend/main.py:551-557 | in fleet mode an issue goes to the first offered ticket with its plate and category, is a new ticket exactly when there is none, and the language model has no say |
| TicketChoice.PlateTargetExact | backend/main.py:889-906 | a text points at a ticket by plate exactly in fleet mode when it names one plate and the group has an open ticket on it, and then at a newest such ticket |
| TicketChoice.ProximityIsNearest | backend/main.py:909-962 | a photo follows a nearest own message in the window, and none exactly when there is none or the sender is unknown |
| TicketChoice.TargetsByConfidence | backend/main.py:1136-1148 | caption targets are the filed issues by descending confidence, and the first is the strongest issue, the one a text would sweep to |
| TicketPhotos.PhotoRowsStayDistinct | backend/main.py:1158-1244 | over any run of deliveries and staff actions in which no photo with other rows is sent back to unassigned and no follow-up is moved with a photo to a ticket that has it, the rows of one photo are a single unassigned row or rows on pairwise distinct tickets, all with one file |
| TicketPhotos.StepOneHolder | backend/main.py:1790-1998 | a step keeps that row property exactly when it is neither of those two |
| TicketWitnesses.StaffDoublePhoto | backend/main.py:1790-1998 | a run from the empty database after which relinking a follow-up, or sending a row back, breaks that row property |
| TicketPhotos.AttachPhotoHolds | backend/main.py:1174-1216 | filing a photo, for the first time or again, leaves one waiting row or rows on distinct tickets, and none waiting if it had a target |
| TicketPhotos.EveryTargetHolds | backend/main.py:1174-1216 | once its file is stored a photo is never lost: every chosen ticket holds it, and without a target it has a row of its own |
| TicketFiles.FilesStayExact | backend/main.py:1165-1215 | over deliveries, uploads, moves and dismissals the stored files are exactly the files that media rows refer to |
| TicketFiles.DismissFiles | backend/main.py:1839-1868 | dismissing a photo keeps the stored files exactly those that other rows refer to |
| TicketGroups.GroupsStayApart | backend/main.py:853-1003 | over any run of deliveries and staff actions in which an id comes from one group and staff do not mix the groups, whatever the language model answers, every new follow-up and every link made by a message lands on a ticket of its own group |
| TicketGroups.StepApart | backend/main.py:1790-1998 | every step keeps the groups apart, except exactly when staff move a photo, alone or with its follow-up, onto a ticket of another group, or make it hold a ticket twice |
| TicketGroups.PhotoInto | backend/main.py:1161-1167 | a photo links only into its own group, and isolation survives exactly when it finds no ticket or none of its rows waits in another group under the same id, both read off the tables before the delivery |
| TicketGroups.LinkedIfTarget | backend/main.py:1025-1156 | a delivered photo is linked exactly when its caption brings an unrecorded issue, or it has none to record and its quote, its one plate or a near message leads to a ticket |
| TicketGroups.TextInto | backend/main.py:687-850 | a text files and sweeps only into its own group |
| TicketWitnesses.ReusedIdBreaksIsolation | backend/main.py:1162-1167 | a run from the empty database after which one more photo puts a row of group B on a ticket of group A |
| TicketRecords.RecordedExactlyOnce | backend/main.py:726-736 | over any run of deliveries and staff actions in which no issue is forgotten or recorded twice by staff, no (message id, issue index) is recorded twice across tickets and follow-ups, and every delivery that did not fail has all its surviving issues recorded for good |
| TicketRecords.StepRecordsExactly | backend/main.py:1936-1975 | every step keeps every record, and each issue recorded at most once, except exactly the promotion of a follow-up of another issue than the first, and a reply under the id of a ticket's message |
| TicketWitnesses.PromotionForgetsIssue | backend/main.py:1936-1949 | a run from the empty database after which promoting a follow-up leaves its issue without a record |
| TicketWitnesses.ReplyRecordsTwice | backend/main.py:2189-2250 | a run from the empty database after which a reply under the id of a ticket's message is a second record of it |
| TicketRecords.RedeliveryAddsNothing | backend/main.py:830-831 | delivering a fully recorded message again leaves tickets and follow-ups as they are, and if it has survivors changes nothing at all |
| TicketRecords.FailedRunLeavesPrefix | backend/main.py:766-769 | when the commit of issue k fails the run stops with the tables as the issues before k left them, and all survivors among those are recorded |
| TicketOrder.PhotosJoinText | backend/main.py:909-1003 | photos of a sender that come before and after its one-issue text, in any order and number and mixed with whatever others send, all end on the record of the text, the ticket or follow-up that the text would be without them |
| TicketOrder.OrderIndependence | backend/main.py:1143-1215 | two runs that differ in where the sender's photos come, with the same other traffic before the text and any after it, leave every photo delivered in both on the same ticket and follow-up |
| TicketBystanders.StepBeside | backend/main.py:965-1003 | no delivery of another sender, reply, upload, status change, edit of a ticket's category or plate, or name sync adds a record or photo of the sender or changes where one stands |
| TicketBystanders.StepSame | backend/main.py:720-828 | which tickets and follow-ups a step leaves, and under which numbers, does not depend on the photos and names in the tables |
| TicketNames.ManualNamesWin | backend/contacts.py:46-87 | over every run each ticket and follow-up of a phone with a manual contact carries that name |
| TicketNames.LearningOnlyFillsUnknown | backend/contacts.py:54-70 | deliveries and contact syncs never change a stored name other than Unknown |
| TicketPlates.FleetPlatesAreWritten | backend/main.py:551-557 | in fleet mode a new ticket's plate, and the plate of a ticket that gains a follow-up, is one the sender wrote, whatever the language model answers |
| TicketEffects.SoundStep | backend/main.py:687-2250 | each handler keeps links coherent, files counted and manual names in place |
| TicketEffects.FilingOne | backend/main.py:738-813 | recording an issue adds one row, of this message and issue, on a ticket of its own group, and changes no other |
| TicketEffects.Sending | backend/main.py:1790-1836 | a photo goes to the ticket exactly when both exist and the ticket has not got it yet, once; sent back it loses ticket, follow-up and method; every other photo stays |
| TicketEffects.Dismissing | backend/main.py:1839-1868 | the dismissed photo is gone, and its file with it exactly when no row is left that has it |
| TicketEffects.Answering | backend/main.py:2189-2250 | a reply is recorded once under its WhatsApp id, as a follow-up of the ticket |
| TicketEffects.LearningName | backend/contacts.py:54-70 | a name learned is the contact's, no row of the phone stays nameless, and no manual contact or other name changes |
| TicketEffects.SettingName | backend/contacts.py:73-87 | a manual name is on the contact and on every row of the phone; an empty one leaves no manual contact and all rows as they are |
| VehiclePlate.MatchLengthExact | backend/vehicle_plate.py:4-4 | the matcher finds a plate of length n exactly when the text has the letters, optional space, digits, optional letter and word boundaries of the pattern |
| VehiclePlate.NoSplice | backend/vehicle_plate.py:27-34 | cutting unknown plates out never joins the text around them into a plate |
| VehiclePlate.ScrubFilters | backend/vehicle_plate.py:33-33 | the plates of the cut text are the known plates of the snippet, in order |
| VehiclePlate.ScrubbedPlates | backend/vehicle_plate.py:27-34 | the plates of a scrubbed snippet are exactly the snippet's plates that occur in the message, or the message's own when nothing is left |
| VehiclePlate.OnlyWrittenPlates | backend/vehicle_plate.py:17-34 | every plate readable in a scrubbed snippet, and the plate its issue resolves to, occurs in the message |
| Classifier.StrongestAreTop | backend/classifier.py:260-263 | the issues kept are exactly the first five of the stable sort by descending confidence, in their original order |
| TicketStore.FindNearest | backend/main.py:959-962 | the loop finds the candidate nearest in time, the earliest one among equals |
| TicketStore.UpdateEach | backend/main.py:994-998 | the loop changes the listed rows and no others |
| TicketStore.Store.Route | backend/main.py:535-564 | the routing branches and the scan for plate and category meet RouteIssue |
| TicketStore.Store.Record | backend/main.py:738-813 | exactly one row is added, of this message and issue, on a ticket of its own group; the link stands and the open list stays within the group |
| TicketStore.Store.SweepUnassignedMedia | backend/main.py:965-1003 | the row-by-row sweep meets Sweep and counts the rows it moved |
| TicketStore.Store.FileSurvivors | backend/main.py:720-828 | the loop over issues with its early return meets FileIssues, finds the strongest issue filed, and every target stands in the message's group |
| TicketStore.Store.HandleTextIngest | backend/main.py:687-850 | the whole text handler meets TextIngest, keeps links, files and manual names, and changes no name but nameless ones |
| TicketStore.Store.ProximityTarget | backend/main.py:909-962 | the nearest own message inside the window meets ProximityTarget of the model |
| TicketStore.Store.FindTargets | backend/main.py:1140-1156 | every chosen link stands and is of the group while photos are isolated, a rule is named exactly when there is a target, and a caption's first ticket is that of its strongest issue |
| TicketStore.Store.Attach | backend/main.py:1158-1216 | the loop over targets with its spare rows meets AttachPhoto |
| TicketStore.Store.HandleMediaIngest | backend/main.py:1025-1244 | the whole photo handler meets PhotoIngest, keeps links, files and manual names, and changes no name but nameless ones |
| TicketStore.Store.AssignMedia | backend/main.py:1790-1836 | the photo is on the ticket by hand, held there once, or sent back without follow-up and method, or, refused, nothing changed; other photos stay and all invariants hold |
| TicketStore.Store.DeleteMedia | backend/main.py:1839-1868 | the photo is gone, its file goes exactly with its last row, and stored files are again exactly those referred to |
| TicketStore.Store.UploadIncidentMedia | backend/main.py:1872-1916 | the ticket has one photo more, with a stored file and the ticket's group, and every other row is as it was |
| TicketStore.Store.PromoteFollowUp | backend/main.py:1936-1975 | refused exactly when the follow-up is gone or its message has a ticket for issue 0; otherwise its photos are on the new ticket and none is under the follow-up |
| TicketStore.Store.RelinkUpdate | backend/main.py:1977-1998 | the follow-up and exactly its photos are on the other ticket, the photos still under it |
| TicketStore.Store.ReplyToIncident | backend/main.py:2189-2250 | the reply is recorded under its WhatsApp id as a follow-up of the ticket without a phone, unless it was recorded before |
| TicketStore.Store.UpdateIncidentStatus | backend/main.py:2004-2037 | refused for a status the mode does not have; otherwise one field of one ticket changes, and the ticket is offered for follow-ups exactly when the status is neither resolved nor ignored |
| TicketStore.Store.UpdateIncidentFields | backend/main.py:2066-2107 | refused for an unknown category; otherwise the ticket has the category and plate given, or those it had, and nothing else changes |
| TicketStore.Store.Learn | backend/contacts.py:54-70 | the name given is the contact's unless a manual one is, no row of the phone stays nameless, and no name other than Unknown and no manual contact changes |
| TicketStore.Store.SetManualName | backend/contacts.py:73-87 | a name is on the manual contact and on every row of the phone; without one there is no manual contact and no row changes; other contacts stay |
| TicketStore.Store.Ingest | backend/main.py:1480-1525 | name resolution, learning and the handler in the source's order meet Apply and keep every invariant |
| BillingPayments.PaymentsStayBound | billing/main.py:578-742 | over every run a conversation waiting for M-Pesa holds an unsettled payment of its own client that no other holds, no checkout has two owners, and a client has at most one unexpired conversation |
| BillingPayments.SettledForGood | billing/main.py:819-894 | a payment once confirmed or failed keeps status, receipt and period for the rest of every run |
| BillingPayments.ConfirmationRenews | billing/main.py:826-840 | a confirmation settles one pending payment, sets that client's renewal date to the payment's period end, clears every overdue mark and changes nothing else |
| BillingPayments.OnlyConfirmationsRenew | billing/main.py:768-895 | a callback that confirms nothing changes no client's status, renewal date or marks |
| BillingPayments.ConfirmedAtMostOnce | billing/main.py:819-840 | no payment is confirmed twice in any run, and each confirmed payment ends paid |
| BillingPayments.RepeatedCallback | billing/main.py:775-817 | whatever happens after the first callback for a checkout, short of the id being issued again, a second one changes nothing exactly when it reports success or every upgrade request left for that checkout is already failed; for renewals it never does |
| BillingOverwrite.FailureOverwritesUpgrade | billing/main.py:788-817 | a run from the empty tables in which a paid upgrade is confirmed and a second callback for it marks it failed |
| BillingPayments.LateCallbackIgnored | billing/main.py:775-784 | a callback for a checkout nothing waits for is ignored however late it comes, until the id is issued again |
| BillingPayments.PaymentsAreCharges | billing/main.py:652-715 | over every run each payment is a positive amount from a mobile number for 30 days, and only a client's message adds one, at the price of its tier |
| BillingTiers.TiersStaySound | billing/main.py:378-397 | over every run each client has at most one pending upgrade, a pending upgrade implies a restricted client, and a restricted client has an existing tier |
| BillingTiers.GrantGivesTheUpgrade | billing/main.py:799-813 | a grant adds the requested group, moves the client to the requested tier, confirms the request and changes nothing else |
| BillingTiers.OnlyGrantsUpgrade | billing/main.py:780-840 | a callback that grants nothing changes no client's groups or tier |
| BillingTiers.GrantedAtMostOnce | billing/main.py:788-817 | no upgrade request is granted twice in any run |
| BillingTiers.LeftPendingNeverGranted | billing/main.py:788-798 | a request that was cancelled, failed or confirmed is never granted afterwards |
| BillingTiers.UpgradeAsksForNextTier | billing/main.py:1282-1317 | a self-service upgrade adds one request at the price of a next tier above the client's cap, pending exactly when M-Pesa took it, or changes nothing |
| BillingTiers.OnlyStaffRestrict | billing/main.py:1205-1301 | an unrestricted client stays unrestricted until staff add a group to it |
| BillingCap.CapHolds | billing/main.py:1205-1318 | from any state within the cap: without staff overruling it and without a grant of an upgrade that waited at the start and does not lead above the cap, a client that ends restricted was so all along, has at most as many groups as its tier allows, and its cap has not gone down |
| BillingCap.CapHoldsExactly | billing/main.py:788-817 | over every run without staff overruling it each step keeps the cap, exactly when no step grants the client an upgrade whose tier lacks the room or lowers the cap |
| BillingCap.StepCap | billing/main.py:788-817 | one step keeps the cap exactly when it grants no such upgrade |
| BillingCap.GrantCap | billing/main.py:799-813 | after a grant the client is within its cap exactly when the requested tier has room for the groups it then has, and the cap has not gone down exactly when that tier's is no lower |
| BillingDowngrade.DownwardUpgradeBreaksCap | billing/main.py:799-813 | a run from the empty tables in which one paid callback takes a client within its cap over it and to a lower cap |
| BillingCap.TierChangeKeepsCap | billing/main.py:275-314 | staff moving a client to a tier leave it within the cap with no upgrade waiting that could break it, exactly when the tier has room and ends below every tier a waiting upgrade leads to |
| BillingDunning.TimelineHolds | billing/scheduler.py:17-82 | over every run active means no overdue mark, grace has its start, suspension comes at least 14 days after it, and each reminder comes at least 48 hours after the notice before it in the same episode |
| BillingDunning.CheckedMarks | billing/scheduler.py:17-82 | one account's check sends a notice in the right order and at the right distance and sets the matching marks, or changes nothing |
| BillingDunning.CheckIsThorough | billing/scheduler.py:85-97 | after a daily check no account past its renewal date is active, none is in grace for 14 days, and every overdue one was warned within 48 hours |
| BillingSubdomains.SubdomainsStayApart | billing/main.py:218-225 | over every run a subdomain names at most one client |
| BillingSubdomains.StepOneOwner | billing/main.py:208-250 | no step changes a client's subdomain, and a new client's differs from every other client's |
| BillingEffects.SoundStep | billing/main.py:208-1320 | each handler keeps payments bound and priced, tiers sound, notices in order and subdomains apart, settles no payment twice and revives no request |
| BillingEffects.SoundRun | billing/main.py:208-1320 | all of that over every run whose clock does not go back and whose checkouts are fresh |
| BillingEffects.Receiving | billing/main.py:578-742 | a group message adds a payment only at the price of the client's tier and leaves groups, tiers, requests and notices alone; the payment command leaves exactly one conversation, a new one |
| BillingEffects.Settling | billing/main.py:769-896 | a callback that confirms renews the account, one that grants gives tier and group, and any other leaves every client as it was |
| BillingEffects.SelfAdding | billing/main.py:1193-1245 | a self-service add is done exactly when a restricted client names a new group and there is room, and otherwise changes nothing |
| BillingPayments.AcceptedNumbers | billing/main.py:517-523 | a text is taken for a number exactly when its digits are 2547 and eight more, or 07 and the same eight |
| BillingService.Service.Push | billing/main.py:706-736 | one payment of the amount is added for the client; sent, it waits for M-Pesa, and in error it is failed and the conversation over; no settled payment changes |
| BillingService.Service.TakeTurn | billing/main.py:652-742 | a turn adds a payment only at the client's tier price and only when the conversation was at its confirmation, and keeps payments bound |
| BillingService.Service.Receive | billing/main.py:578-742 | a payment is added only at the client's tier price, the payment command starts the one conversation, closing closes; groups, tiers and notices stay; all invariants hold |
| BillingService.Service.SettleSession | billing/main.py:819-894 | the conversation is over and its payment settled for good; paid clears every mark of the account, failed leaves all accounts alone |
| BillingService.Service.SettleRequest | billing/main.py:788-817 | a paid pending upgrade is granted, a paid one that left pending changes nothing, a failed one is marked so with all accounts as they were |
| BillingService.Service.Settle | billing/main.py:769-896 | renewal exactly by a confirmation, tier and group exactly by a grant, every client as it was otherwise; all invariants hold |
| BillingService.Service.GetOrSeedTiers | billing/main.py:429-448 | the three fixed tiers are seeded into an empty table and returned by size |
| BillingService.Service.StaffAddGroup | billing/main.py:334-356 | the client is restricted, on an existing tier, and has the group once; no other client changes |
| BillingService.Service.StaffRemoveGroup | billing/main.py:360-374 | the named group goes, the others keep their order, and no other client changes |
| BillingService.Service.StaffReset | billing/main.py:378-397 | the client is unrestricted without tier and none of its upgrades is pending; no other client changes |
| BillingService.Service.AddGroup | billing/main.py:1193-1245 | done exactly when a restricted client names a new group and there is room, then within the cap; otherwise nothing changes |
| BillingService.Service.RequestUpgrade | billing/main.py:1249-1320 | adds one request at the price of a next tier above the cap, pending exactly when M-Pesa took it, or changes nothing |
| BillingService.Service.SetTierPrices | billing/main.py:460-501 | three rising positive prices are written to the tiers by size, others rejected, and no tier changes its bounds |
| BillingService.Service.Register | billing/main.py:208-250 | refused exactly when the subdomain is taken; otherwise a new client with that subdomain starts active without marks, unrestricted, on the chosen tier or an existing one; no other client changes |
| BillingService.Service.Edit | billing/main.py:275-314 | only the date and an existing tier given are taken over; groups, marks and every other client stay |
| BillingService.Service.Activate | billing/main.py:1089-1104 | the account is active with every overdue mark cleared, its date and groups as before, and no other client changes |
| BillingService.Service.CloseAccount | billing/main.py:1110-1119 | only the status of this client changes, and all invariants hold |
| BillingService.Service.CheckStatus | billing/scheduler.py:17-82 | afterwards the account is up to date with its renewal date and its notices in order; no other client changes |
| BillingService.Service.RunDailyChecks | billing/scheduler.py:85-97 | the loop over the accounts that are not closed leaves every account up to date and all invariants in place |
| BillingService.CancelEach | billing/main.py:392-393 | the loop cancels the listed requests and no others |
| BillingService.LeaveOut | billing/main.py:371-371 | the filter keeps the other groups in order |
| PortMap.RoundTrip | billing/nginx_manager.py:20-41 | reading a written file gives the same map exactly when every name is non-empty, made of word characters and hyphens, and not `default` |
| PortMap.UpdateRefines | billing/nginx_manager.py:59-74 | one add or remove of the file is the same map update exactly when it adds no unreadable name, whatever the file held |
| PortMap.RunRefines | billing/nginx_manager.py:59-74 | any run of adds of readable names and removes keeps the file in step with a plain map |
| PortMap.ParseEntryLine | billing/nginx_manager.py:27-29 | a written line is read as its own name and port |
| PortMap.SplitOfJoin | billing/nginx_manager.py:26-41 | splitting joined lines gives the lines back |
| PortMap.PortFile.ReadEntries | billing/nginx_manager.py:20-30 | the reading loop meets Parse |
| PortMap.PortFile.WriteEntries | billing/nginx_manager.py:33-41 | the writing loop meets Print |
| PortMap.PortFile.AddClientPort | billing/nginx_manager.py:59-64 | adds or replaces exactly one entry of what the file says |
| PortMap.PortFile.RemoveClientPort | billing/nginx_manager.py:67-74 | removes exactly one entry of what the file says |
| Cidr.InCidrIsSameBlock | openwa/src/modules/auth/auth.service.ts:229-247 | for any two texts the check succeeds exactly when the prefix length is 0 to 32 and one aligned block of 2^(32-bits) addresses holds both |
| Cidr.QuadIsPositional | openwa/src/modules/auth/auth.service.ts:252-257 | for a valid dotted quad the shifts with 32-bit wrap-around give the base-256 value |
| Cidr.QuadsMatch | openwa/src/modules/auth/auth.service.ts:229-257 | a quad matches quad/bits exactly when bits is at most 32 and the leading bits agree (RFC 4632, section 3.1) |
| Cidr.Masked | openwa/src/modules/auth/auth.service.ts:238-242 | the bitwise AND with the mask clears exactly the low 32-bits positions |
| Cidr.BlockIsPrefix | openwa/src/modules/auth/auth.service.ts:224-228 | lying in the same aligned block is agreeing on the leading bits |
| Cidr.IsIpAllowed | openwa/src/modules/auth/auth.service.ts:206-222 | the loop allows an address exactly when some entry equals it or, with a slash, contains it |
| Reports.RangeHoldsItsDays | backend/reports.py:46-77 | a resolved range is not empty and its instants are exactly those whose local day lies in it, for custom, fixed and all-time ranges |
| Reports.BucketsTile | backend/reports.py:140-167 | the buckets start at the first day, end at the last, follow each other without gap or overlap, with steps of 1, 7 or 28 days by span |
| Reports.BucketCountsItsDays | backend/reports.py:147-159 | for any events a bucket counts exactly those of its days, unless the last bucket's step reaches past the last day onto an event |
| Reports.TrendAddsUp | backend/reports.py:84-137 | for a range of days the bucket counts sum to the new and resolved headline numbers and each bucket counts exactly its days |
| Reports.ResolvedRangeAddsUp | backend/reports.py:75-77 | every range the page resolves is such a range of days |
| Reports.BacklogAddsUp | backend/reports.py:123-135 | the backlog by priority sums to the open tickets exactly when all have one of the four priorities |
| Reports.CategoriesAddUp | backend/reports.py:94-135 | the backlog by category lists each category of an open ticket with its number, the most common first, and sums to the open tickets |
| Reports.SpendAddsUp | backend/reports.py:116-122 | the repair spend of a range is the spend of its two parts wherever it is cut |
| Reports.Tally | backend/reports.py:150-158 | the counting loop counts each event in its bucket and no other |
| Reports.ComputeTrend | backend/reports.py:140-171 | the bucket loop meets TrendOf |
| Reports.FleetOverview | backend/reports.py:87-137 | the overview page's headline numbers, trend, spend and backlog lists meet OverviewOf |
| Jid.EngineRoundTrip | openwa/src/engine/adapters/baileys-jid.util.ts:12-43 | converting to the library's form and back is the identity exactly when the address is not already in that form and is no phone address with a device number |
| Jid.BaileysRoundTrip | openwa/src/engine/adapters/baileys-jid.util.ts:12-43 | the same the other way round |
| ContactDirectory.DirectoryStaysSound | openwa/src/engine/adapters/baileys-contact-directory.ts:85-158 | over every run an entry's id is its key, and the lid map goes only from normalized @lid ids to normalized phone ids that have an entry |
| ContactDirectory.NormalizeIsIdempotent | openwa/src/engine/adapters/baileys-contact-directory.ts:33-40 | normalizing a second time changes nothing |
| ContactDirectory.ResolveIsIdempotent | openwa/src/engine/adapters/baileys-contact-directory.ts:113-117 | resolving twice is resolving once, with the same name |
| ContactDirectory.ListIsEveryPhone | openwa/src/engine/adapters/baileys-contact-directory.ts:127-129 | the list holds every phone entry exactly once and nothing else |
| ContactNames.PhoneNamesStay | openwa/src/engine/adapters/baileys-contact-directory.ts:131-158 | a phone id with a display name has one after every run |
| ContactNames.NameAfterMapping | openwa/src/engine/adapters/baileys-contact-directory.ts:85-104 | once an @lid is tied to a number, for the first time or anew, its sender is without a name exactly when the number has an entry without names, or no entry and the @lid none with a name, and the contact brings none |
| ContactNames.NameLostExactly | openwa/src/engine/adapters/baileys-contact-directory.ts:85-158 | for every event and every sender that has a name: the name is lost exactly by such a tie |
| ContactNames.NamesStay | openwa/src/engine/adapters/baileys-contact-directory.ts:85-158 | over every run a sender with a name has one after each event, exactly when no event of the run is such a tie |
| ContactNames.MappingHidesName | openwa/src/engine/adapters/baileys-contact-directory.ts:85-104 | a run from the empty directory after which a named @lid loses its name by being tied to its number |
| ContactNames.RemappingHidesName | openwa/src/engine/adapters/baileys-contact-directory.ts:91-94 | a run from the empty directory after which tying a named @lid to another, unknown number takes its name |
| ContactNames.SavedExactlyWhenLearned | openwa/src/engine/adapters/baileys-contact-directory.ts:103-110 | an event asks for a save exactly when it changes the lid map or a named entry |
| ContactNames.WhatIsLearned | openwa/src/engine/adapters/baileys-contact-directory.ts:85-104 | a contact with both ids ties its @lid to its number and no other, and all names it brought are found under either id, the saved name first |
| ContactNames.WhatIsSeen | openwa/src/engine/adapters/baileys-contact-directory.ts:107-110 | a push name is found where its sender resolves to, and no @lid is tied anew |
| ContactStore.BaileysContactDirectory.FindEntry | openwa/src/engine/adapters/baileys-contact-directory.ts:131-148 | the loop over the lid map with its early exit meets WithEntry; the directory is sound and no number loses a name |
| ContactStore.BaileysContactDirectory.Record | openwa/src/engine/adapters/baileys-contact-directory.ts:131-158 | the entry has the names given, the flag tells whether one changed, and no number loses a name |
| ContactStore.BaileysContactDirectory.Learn | openwa/src/engine/adapters/baileys-contact-directory.ts:85-104 | an @lid and number given together resolve to the number, a saved name is found under either, no number loses a name, and a save is due exactly if one was or something was learned |
| ContactStore.BaileysContactDirectory.SeePushName | openwa/src/engine/adapters/baileys-contact-directory.ts:107-110 | the sender has a name afterwards, the lid map stays, no number loses a name, and a save is due exactly if one was or something was learned |
| ContactStore.BaileysContactDirectory.List | openwa/src/engine/adapters/baileys-contact-directory.ts:127-129 | the listing loop returns every phone entry exactly once and nothing else |

## Left out

- HTTP, authentication, access checks, templates, the dashboard, prompts and JSON parsing, Docker and nginx reload, PDF statements, schema migrations and network clients: input and output.
- Handlers interleaving at their awaits; the integrity errors that only interleaving can raise.
- Reactions to lead messages; lead, priority, caption, date, escalation and `updated_at` columns and their edits; status history and audit log: they decide no link, record or name.
- The category table is fixed during a run; deleting a category (backend/main.py:3628-3664) gives its tickets another one, as that many edits would.
- A failed commit after a photo was saved (backend/main.py:1224-1229), which would leave its file without a row.
- Upload checks of type and size, and the check that a file to delete lies inside the media directory.
- TicketOrder.OrderIndependence: covers texts with one surviving issue, because with several the sweep follows the most confident issue while proximity breaks equal times by row order (backend/main.py:759, 961); and other traffic that quotes none of the sender's messages, because a quote takes a waiting photo along (backend/main.py:983-984).
- BillingCap.CapHolds: leaves out staff adding groups and changing tiers, which the code allows beyond the cap; BillingCap.StaffAddWithinCap and BillingCap.TierChangeKeepsCap say when they stay within it.
- The unique constraint on M-Pesa receipts (billing/models.py:55), which rejects a confirmation that repeats another payment's receipt.
- Billing promises the code does not make: a restarted conversation drops an in-flight payment's session (billing/main.py:627-629), early payment may move the renewal date back (billing/main.py:706-709), and the pushed amount drops the fraction (billing/mpesa.py:59).
- A daily check reads the clock once; in the source each account reads it again.
- Names and contact fields of clients; tier names, so a price change refused for its names is one that only seeds the tiers.
- PortMap.RoundTrip: ports are natural numbers and the file is ASCII text that is read back as written; a failing write is not modelled.
- Cidr.InCidrIsSameBlock: decimal octets of sixteen digits or more, where JavaScript rounds to a double, are read exactly.
- Report ranges in time zones with daylight saving; the plate table and period lists.
- ContactDirectory: loading and writing the file, the save timer, and the aliasing of entries returned by `list`; entries are values.
- `looks_like_lid`, `is_valid_plate`, `hasPermission`, push reminders and the payment history: each is a single expression or query.
