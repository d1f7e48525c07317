# Client protocols of a self-storage platform, verified

The repository is a web platform for running self-storage facilities. Its hardest client code is a set of small
protocols: an offline outbox that must neither lose nor repeat a customer's request, a map editor that must not put
one unit in two places, a facade sweep, cash amounts in binary floating point, and screens that may act only on what
was just reviewed. This project models those protocols in Dafny 4.11 and proves what each is for, over every input
and every run. `dafny verify dfyconfig.toml` checks everything.

## How the models are built

* **State and steps.** An asynchronous handler becomes two or more steps, one for each stretch between `await`s (in
  the sync pass also around each write it awaits); a run is any sequence of steps, so replies may be late, lost,
  repeated or overtaken and the user may act in between. Conditions on single steps (`Possible`, `Creates`) say what
  buttons, fresh UUIDs and the service guarantee. Where a promise fails on some runs of the code, the condition on
  runs has a name (`Orderly`, `AnsweredAtHome`, `StaleIn`), an exactness lemma and a concrete run on
  which it fails.
* **Two forms.** Code that assigns to variables and arrays is a class (`OfflineWorkspace.Workspace`,
  `FacilityMapEditor.MapEditor`, `MessageLog.CommunicationLog`, `NoticeBatch.NoticeWorkspace`,
  `BulkPricing.PricingDialog`, `SupplyQueue.MerchandiseOrderQueue`, `RequestKeys.CollectionsWorkspace`,
  `RequestKeys.AdjustmentsWorkspace`) whose methods are proved to take the steps; the theorems are about the steps.
* **Aliasing.** Offline queue items are shared objects and queues are shared arrays: a sync pass holds items that an
  edit may have replaced or removed, and a download holds the arrays themselves. In `OfflineWorkspace` items and
  arrays are objects with mutable fields; ghost fields number the items, and `Valid` ties them to the page of
  `OutboxPage`, where queues are lists of references. `OutboxEdits` shows that every user action nevertheless acts
  as one on plain value lists. A write is given the snapshot object and reads its queues only after deriving a key;
  `OutboxWorld` follows the arrays of every snapshot that a write in preparation still holds, while the page, a
  download or nobody else uses them.

| module | source | about |
|---|---|---|
| `OutboxPage`, `OutboxWorld` | `public/offline-workspace.js`, offline services | page, stored record, pending writes, messages, server log |
| `OutboxInvariant`, `OutboxTheorems` | same | queue and server invariants over runs |
| `OutboxWrites`, `OutboxDelivery`, `OutboxConflict`, `OutboxRearm`, `OutboxPass`, `OutboxStatus`, `OutboxDrain`, `OutboxEdits`, `OutboxRaces` | same | storing and downloading, no loss, conflict hold, outcome of a pass, what a status means, emptying the queues, effect of edits, five concrete runs that fall short |
| `OfflineWorkspace` | same | the page's code as a class |
| `FacadeSegments` | `inventory-facade-segments.ts` | interval complement by one sweep |
| `FacilityMap`, `FacilityEditor`, `FacilityPlacement`, `FacilitySave`, `FacilityActions`, `UnitNumbers`, `FacilityMapEditor` | `facility-map-editor.tsx` | geometry, placement, saving, what each action does, numbering |
| `Binary64`, `Decimals`, `DailyClose` | `daily-close-form.tsx` | exact cents through doubles |
| `MessageLog` | `communication-log-workspace.tsx` | latest-request-wins paging |
| `Audience`, `NoticeBatch`, `BulkPricing` | notice and pricing screens | reviewed commits |
| `SupplyQueue` | `merchandise-order-queue.tsx` | lock after an unknown outcome |
| `RequestKeys`, `FollowUps` | collections and adjustments | idempotency keys, queue rotation |

## Where the code falls short of its promise

Each is proved of the code as it is, by a concrete run, with the exact condition under which the promise holds.

* **Conflict hold.** A request answered 409 can be posted again without the user: if its lead's form is saved again
  while the pass is on, the lead is queued beside the conflict, and the lead's next acknowledgement sets the request
  to WAITING (`ConflictLetsGo`). Between passes it stays held exactly when, wherever it is queued, on the page, in the
  stored record or in a write still to land, it is in conflict and its lead is not queued beside it
  (`ConflictHoldsIff`).
* **Writes that overtake each other.** Two unawaited writes may land in either order; the older one landing last loses
  a stored lead at the next reload (`OutOfOrderWriteLosesLead`). A write still in preparation when a download ends
  stores the replaced snapshot, with the same effect (`FormerSnapshotLosesLead`).
* **Downloads.** `download` captures the queue arrays before its awaits, then stores and restores them, while a
  removal or an acknowledgement replaces an array. A lead saved in between can vanish from the record and from the
  page (`DisturbedDownloadLosesLead`), or leave its reservation request behind without it (`DownloadOrphansRequest`).
* **What holds in spite of both.** Every run without its removal keeps an id exactly when the server has it, or the
  page, the record, every write to land or in preparation and the arrays of the pending download all have it
  (`SafeIffNeverLost`). Of single events, a write or the end of a download keeps an id recorded exactly when its
  queues do not leave the id out (`RecordedStaysIff`), and a conflict held exactly when they do not have the request
  unheld (`HoldStaysIff`). Ids stay distinct and links true over every run (`RunIsCoherent`); no request is without its
  lead throughout a run exactly when no write or restored array orphans one (`InvThroughoutIff`), and none does as long
  as no array is replaced under a download or a write in preparation (`UndisturbedRunKeepsInv`).
* **Saving a map and leaving the floor.** The answer to a save overwrites the canvas with what was sent. On another
  floor every unit of the saved floor is then on both (`FloorSwitchDuplicates`). Placement stays single throughout a
  run exactly when each answer finds its floor still shown, or sent a layout without units (`SinglePlacement`).
* **Edits made while a save is out.** The same overwriting silently drops them (`AnswerDropsEdits`): the canvas
  survives exactly when nothing but the units that the answer fills in was changed since (`AnswerKeepsEditsIff`).
* **Unit numbers.** With a unit numbered 9007199254740992 the suggestion loop never ends, because adding 1 to 2^53
  gives 2^53 (`NeverStops`). A larger free number is found exactly when one can be added to the largest number in
  doubles: below 2^53, or below 2^54 if it is twice an odd number (`SuggestsIff`).
* **Message paging.** If a fresh read is parsed just after its own timeout fired, the old rows stay on screen under the
  new filters (`StaleRowsShown`). An idle page shows a prefix of its pinned list throughout a run exactly when that
  never happens (`IdleShowsPrefix`).

## Model

| member | source | states |
|---|---|---|
| OutboxTheorems.RunIsCoherent | public/offline-workspace.js:30-45 | Over every run whatever, in memory, in the arrays a download or a former snapshot holds, in each pending write and in the stored record: lead ids are distinct, request ids are distinct and a lead has at most one request; links are what the server answered; the server holds each submission at most once and each reservation carries its own lead's ids, accepted strictly earlier. |
| OutboxTheorems.RunKeepsInv | public/offline-workspace.js:36-45 | Over every run in which no write and no end of a download orphans a request, moreover, every request is linked or its lead is queued with it, in memory, in each pending write and in the stored record. |
| OutboxTheorems.InvThroughoutIff | public/offline-workspace.js:30-45 | Over any run whatever all of that holds at every moment if and only if no write takes, and no download restores, queues that have a request without its lead. |
| OutboxTheorems.UndisturbedRunKeepsInv | public/offline-workspace.js:30-36 | All of that holds throughout every run in which no queue array is replaced under a pending download or under a write in preparation. |
| OutboxTheorems.DeliveringIsOk | src/lib/offline-lead-service.ts:12-70 | Handling any message, first or repeated, keeps at most one record per submission, distinct lead ids and causality of the server's log. |
| OutboxWrites.AcceptsIff | src/lib/offline-reservation-service.ts:48-84 | The services accept a lead that they do not have, under ids of its own, and a request that they do not have, for a lead answered with these ids, if the unit can be had; anything else leaves their records as they are. |
| OutboxWrites.StoringBringsBack | public/offline-workspace.js:34-36 | A write that lands last brings the queues back after a reload as they were when it was serialised. |
| OutboxWrites.PreparedTakesLatest | public/offline-workspace.js:14-36 | A write takes the queues as they are when it gets to serialise them, whatever happens on the page in between, as long as no download ends; and does so once. |
| OutboxWrites.LandingOnce | public/offline-workspace.js:9-36 | A write that lands is the record from then on, once, and the others wait as before. |
| OutboxWrites.DownloadBringsBack | public/offline-workspace.js:30 | A download with nothing in between stores the page's queues and leaves the page as it was. |
| OutboxWrites.CapturedIsKept | public/offline-workspace.js:30-45 | What a download gives back to the page are the queues in use when it began, whatever was removed meanwhile. |
| OutboxDelivery.NoLoss | public/offline-workspace.js:30-45 | A safe id (accepted, or on the page, in the record, in every write to land or in preparation and in the arrays of the pending download) stays safe over every run in which the user does not remove it: crashes, lost, late and repeated replies, writes of present or former snapshots landing in any order, retries, edits and downloads. |
| OutboxDelivery.SafeIffNeverLost | public/offline-workspace.js:30-45 | An id is accepted or still queued after every run without its removal if and only if it is safe in that sense. |
| OutboxDelivery.PersistedIsSafe | public/offline-workspace.js:30-38 | While writes land in order and nothing is reloaded, a queued id that the pending download and the writes in preparation hold is safe once a write serialised now has landed, downloads and their writes included. |
| OutboxDelivery.RecordedStaysIff | public/offline-workspace.js:30-36 | A write of the page, of a download or of a former snapshot, and the end of a download, keep an id accepted, or on the page, in the record and in every write to land, if and only if the server has it or the queues they store or restore have it. |
| OutboxConflict.ConflictHold | public/offline-workspace.js:41-42 | A held request is not posted by any run in which the user does not re-arm it and no download or former snapshot stores it or brings it back unheld, reloads included once the conflict is in every record. |
| OutboxConflict.HoldStaysIff | public/offline-workspace.js:30-36 | A write of the page, of a download or of a former snapshot, and the end of a download, keep the hold on the page and in every record if and only if the queues they store or restore do not have the request unheld. |
| OutboxConflict.ConflictReplyQuiets | public/offline-workspace.js:42 | A 409 holds the request at once unless its lead is still queued. |
| OutboxConflict.RefreshHolds | public/offline-workspace.js:41-42 | After a conflict and a good refresh every object of that id is in conflict, whatever the user did to it meanwhile; no other request, queue or message changes. |
| OutboxRearm.ConflictHoldsIff | public/offline-workspace.js:34-42 | Between passes no run in which the user does not re-arm a request, and no download or former snapshot revives it, posts it, reloads and any order of writes included, if and only if wherever it is queued or recorded it is in conflict and its lead is not queued there. |
| OutboxRearm.EditIsPosted | public/offline-workspace.js:44 | A queued request whose reservation the user has edited, in conflict or not, can be posted without the user again. |
| OutboxPass.LeadLoopOutcome | public/offline-workspace.js:42 | The lead loop, for any replies: the queue keeps, in order, exactly the unacknowledged leads; a lead posted has one attempt more and the status of its reply, WAITING for 401 and FAILED for a failure, and no other lead changes; the queued requests of an accepted lead, and no others, get its ids and wait; the posts go out in order, a 401 the last; receipts are the 20 newest, newest first. |
| OutboxPass.RequestLoopOutcome | public/offline-workspace.js:42 | The request loop, for any replies and refreshes: the queue keeps, in order, exactly the unconfirmed requests; a request posted has one attempt more and the status of its reply, WAITING for 401, CONFLICT for 409, FAILED for a failure, and no other request changes; the posts go out in order, a 401 the last. |
| OutboxPass.PassOutcome | public/offline-workspace.js:42 | Outcome of a whole uninterrupted pass for any replies: the lead loop over the queue, then the request loop over exactly the queued requests that are then linked and not in conflict; a pass orphans no request. |
| OutboxPass.ConflictAfterPassIff | public/offline-workspace.js:42 | A queued request is in conflict after a pass if and only if it was answered 409 in it, or was in conflict before and its lead was not accepted in it. |
| OutboxPass.OnlyConflictsRemain | public/offline-workspace.js:42 | If every lead is accepted and every request accepted or answered 409, the lead queue is empty and only conflicts remain. |
| OutboxStatus.StatusHasCause | public/offline-workspace.js:38-44 | Whatever happens on the page, a request object keeps its status or has it for its reason: SYNCING just posted, CONFLICT by a 409 to that request or the refresh after it, FAILED by a failed post, WAITING by a 401, by its lead's acceptance or by the user's edit, WAITING_FOR_LEAD by a form of its lead. |
| OutboxStatus.ConflictComesFrom409 | public/offline-workspace.js:30-45 | Over every run from a fresh device, reloads, downloads and writes in any order included, a request is in conflict, in memory, in the record or in a write, only if the server answered 409 to a post of that very request. |
| OutboxStatus.AnswerMarks | public/offline-workspace.js:42 | Whenever the answer to a request comes: accepted, it leaves the queue; 401 makes it WAITING and ends the pass; 409 CONFLICT; any failure FAILED, and the pass goes on; nothing else changes. |
| OutboxStatus.LeadAnswerMarks | public/offline-workspace.js:42 | Whenever the answer to a lead comes: accepted, it leaves the queue and exactly its queued requests get the ids; 401 makes it WAITING and ends the lead loop; any failure FAILED, and the loop goes on; no other lead changes. |
| OutboxDrain.QueuesCanBeDrained | public/offline-workspace.js:42 | From every state between passes in which no request is without its lead there is a pass, without the user, after which the server holds every lead and every request that was queued and not on hold, and only requests on hold are left. |
| OutboxRaces.OutOfOrderWriteLosesLead | public/offline-workspace.js:36-38 | A concrete run with two writes landing out of order in which a stored lead is lost. |
| OutboxRaces.DisturbedDownloadLosesLead | public/offline-workspace.js:30-40 | A concrete run in which a removal inside the download window loses a stored lead, from the record and from the page, and revives the removed one. |
| OutboxRaces.FormerSnapshotLosesLead | public/offline-workspace.js:14-40 | A concrete run in which a write in preparation outlives its snapshot, replaced by a download, and then loses a stored lead and revives a removed one. |
| OutboxRaces.DownloadOrphansRequest | public/offline-workspace.js:30-42 | A concrete run in which a lead is acknowledged during a refresh and the next lead saved is lost while its request stays, waiting for it. |
| OutboxRaces.ConflictLetsGo | public/offline-workspace.js:38-42 | A concrete run from a fresh device that ends between passes with a linked request in conflict, and a continuation without the user that posts it again. |
| OutboxEdits.SaveLeadOnValues | public/offline-workspace.js:37-38 | A saved form takes its lead's place or goes last, and sets, adds or drops that lead's request keeping identity and link; nothing else changes. |
| OutboxEdits.NextFormIsNewLead | public/offline-workspace.js:37-38 | Once a form has been stored and reset, the next one is a new lead: last, under an id never used, with a request of its own if it asks for a unit; nothing queued changes. |
| OutboxEdits.EditedFormReplaces | public/offline-workspace.js:38-39 | A form opened for a queued lead takes that lead's place and id; every other lead stays where it is. |
| OutboxEdits.FormKeepsRequest | public/offline-workspace.js:38 | Saved again, a lead's request keeps its id, link and attempts and waits for the lead with the new choice and the form's move-in date. |
| OutboxEdits.RemoveLeadOnValues | public/offline-workspace.js:40 | Removing a lead removes it and its request only, in order. |
| OutboxEdits.SaveReservationOnValues | public/offline-workspace.js:44 | An edited request changes unit, rate, move-in and status only; other entries are untouched, although objects are shared. |
| OutboxEdits.EditedRequestIs | public/offline-workspace.js:44 | The entry edited has the new unit, rate and move-in date and is WAITING; it keeps its ids, payment method, attempts and link; an unacceptable choice changes nothing. |
| OutboxEdits.RemoveReservationOnValues | public/offline-workspace.js:45 | Removing a request removes that request only. |
| OutboxEdits.AcknowledgeLeadOnValues | public/offline-workspace.js:42 | An acknowledged lead leaves the queue, exactly its requests get the ids returned, and it heads the receipts. |
| OutboxEdits.OpenedEditSaves | public/offline-workspace.js:43-44 | An edit opened for a queued request and saved changes that request as above; after it is cancelled, saving changes nothing. |
| OutboxEdits.FormRefusedIff | public/offline-workspace.js:38 | A lead form changes nothing if and only if a name, a mobile number of seven characters, consent, or part of the reservation asked for is missing. |
| OutboxEdits.ReloadForgets | public/offline-workspace.js:34 | After a reload the page depends on the stored record alone: no pass, form, edit or download survives. |
| OfflineWorkspace.Workspace.SaveQueuedLead | public/offline-workspace.js:37-38 | Searching, replacing, pushing and assigning on shared objects reaches the page that SaveLead of the model gives. |
| OfflineWorkspace.Workspace.RemoveQueuedLead | public/offline-workspace.js:40 | Read from the objects, the queues are the old ones without that lead and without its requests, in order; what a download or a pass holds is not changed. |
| OfflineWorkspace.Workspace.SaveReservationEdit | public/offline-workspace.js:44 | Read from the objects, one entry has the new unit, rate and move-in and waits again; every other entry and the leads are as before, although items are shared. |
| OfflineWorkspace.Workspace.SyncQueue | public/offline-workspace.js:42 | Both loops, over shared items changed in place and arrays replaced, end where the model's pass ends. |
| OfflineWorkspace.Workspace.AdoptDownload | public/offline-workspace.js:30 | What the page would store next is what the captured arrays hold by then, with every change made to their items or pushed into them meanwhile. |
| OfflineWorkspace.Workspace.Unlock | public/offline-workspace.js:34 | Reloading is a round trip: every object is new, and storing the page at once would store the same record again. |
| FacadeSegments.ExposedFacadeSegments | src/components/inventory-facade-segments.ts:5-23 | For any rounding of sums and differences the result covers p exactly when 0 <= p < width and no other footprint with computed gap in [0, 26) covers p from its computed start to its computed end; it is non-empty, increasing, separated and inside the edge. |
| FacadeSegments.WholePlansAreExact | src/components/inventory-facade-segments.ts:5-23 | On plans with whole coordinates up to 2^51 rounding to nearest changes nothing: a list is a correct result if and only if it is canonical, inside the edge and covers exactly the points p that no footprint with gap in [0, 26) contains at unit.x + p. |
| FacadeSegments.CanonicalIsUnique | src/components/inventory-facade-segments.ts:16-22 | A set of points has one canonical list of segments. |
| FacadeSegments.OrderDoesNotMatter | src/components/inventory-facade-segments.ts:7-14 | Permuting or repeating footprints gives the identical list. |
| FacadeSegments.AddingNeverExposes | src/components/inventory-facade-segments.ts:7-22 | Adding footprints exposes no new point. |
| FacadeSegments.LengthIsConserved | src/components/inventory-facade-segments.ts:16-22 | Visible length plus the length of the hidden set is the width. |
| FacilityMap.LayoutRoundTrip | src/components/facility-map-editor.tsx:320-375 | Saving and hydrating a layout returns it unchanged if and only if every element is settled. |
| FacilityMap.HydrationIsAProjection | src/components/facility-map-editor.tsx:320-375 | Hydrating the saved form of a hydrated map changes nothing, and a second hydrate reports no legacy rotation. |
| FacilityMap.MapIsShown | src/components/facility-map-editor.tsx:320-375 | Hydrating shows every element in order at its corner, with its unit, caption, status and flips; walls and windows upright with the width and height that they reach as turned; anything else with frame and rotation kept; a save is asked for exactly when a wall or window was turned. |
| FacilityMap.TurnedIsUpright | src/components/facility-map-editor.tsx:342-351 | A turned wall or window is shown as the same one stored at rotation 0 with width and height exchanged. |
| FacilityActions.FloorChosen | src/components/facility-map-editor.tsx:384-388 | A floor with a stored layout shows it, any other name a blank canvas; nothing stored or sent changes. |
| FacilityActions.StoreChosen | src/components/facility-map-editor.tsx:376-383 | Choosing a store shows its first floor, or a blank ground floor. |
| FacilityActions.FloorAddedIff | src/components/facility-map-editor.tsx:389-402 | A new floor is blank and waits to be saved; a name in use, ignoring case, or none changes nothing. |
| FacilityActions.LoadShows | src/components/facility-map-editor.tsx:220-254 | Reading the stores again goes to the store and floor asked for, or stays, or starts with the first, and shows what is stored there by then. |
| FacilityActions.SaveStoresCanvas | src/components/facility-map-editor.tsx:551-646 | A save with nothing in between stores exactly the canvas under the name and size on screen, with each new unit the one created for it; the canvas stays; every other floor of every store is untouched. |
| FacilityActions.FailedSaveKeeps | src/components/facility-map-editor.tsx:551-592 | A save that fails leaves everything as it was, still to be saved. |
| FacilityActions.ShapeOf | src/components/facility-map-editor.tsx:403-417 | A shape goes last, unturned and without a unit, and is selected. |
| FacilityActions.ReshapeOf | src/components/facility-map-editor.tsx:427-432 | Changing one element keeps what and whose it is, and every other element. |
| FacilityActions.LeavingAndReturning | src/components/facility-map-editor.tsx:384-388 | Leaving a saved floor and coming back shows it as left if and only if no caption is empty and no placed unit lacks details. |
| FacilityActions.RotationOf | src/components/facility-map-editor.tsx:485-498 | Rotating turns doors and stairs by the degrees, modulo a full turn, and exchanges width and height of anything else; nothing else changes. |
| FacilityActions.RemovalOf | src/components/facility-map-editor.tsx:499-504 | Removing takes exactly the selected element away. |
| FacilityActions.DuplicateOf | src/components/facility-map-editor.tsx:505-517 | A copy goes last, 20 to the right and down but inside the canvas; a unit is not copied. |
| FacilityActions.PlacedExistingIff | src/components/facility-map-editor.tsx:518-549 | A unit of the store is placed, once, if and only if it is on no element of the canvas or of any saved floor. |
| FacilityActions.PlacedNewIff | src/components/facility-map-editor.tsx:1546-1565 | A new unit is placed if and only if no unit of the store and no new unit on the canvas has its number, ignoring case. |
| FacilityPlacement.PlacedIffCounted | src/components/facility-map-editor.tsx:180-193 | placedUnitIds holds exactly the units that some saved floor carries. |
| FacilityPlacement.AvailableIsNowhere | src/components/facility-map-editor.tsx:194-203 | A unit the dialog offers is neither on the canvas nor on any saved floor. |
| FacilityPlacement.FacilitiesSplit | src/components/facility-map-editor.tsx:180-193 | Conservation: placements on all floors are those on one floor plus those elsewhere. |
| FacilityPlacement.ShowKeeps | src/components/facility-map-editor.tsx:376-402 | Opening any floor, saved or not, keeps each unit on at most one element. |
| FacilityPlacement.MoveLayerKeeps | src/lib/layer-order.ts:3-27 | Moving a layer keeps placement single and the multiset of elements. |
| FacilityActions.LayerOf | src/lib/layer-order.ts:3-27 | The selected element goes to the top, up or down by one, or to the bottom, and the others keep their order around it. |
| FacilitySave.SinglePlacement | src/components/facility-map-editor.tsx:499-646 | Over every possible run of loads, placements, edits, floor and store switches and saves: a unit is at all times on at most one element of the draft and the other saved floors if and only if each answer finds its floor shown or sent no unit; and then it is on at most one element of all saved floors. |
| FacilitySave.AnswerKeepsIff | src/components/facility-map-editor.tsx:551-647 | An answered save keeps single placement if and only if the floor sent is still shown or the layout sent had no unit. |
| FacilitySave.FloorSwitchDuplicates | src/components/facility-map-editor.tsx:384-388 | A concrete run: leaving the floor while its save is out puts a unit on two floors. |
| FacilitySave.AnswerKeepsEditsIff | src/components/facility-map-editor.tsx:593-623 | After an answer the canvas has exactly the elements sent; it is what the present canvas would have become if and only if nothing was edited since but what the answer fills in. |
| FacilitySave.AnswerDropsEdits | src/components/facility-map-editor.tsx:593-623 | A concrete case: a shape drawn while a save is out is gone after the answer. |
| FacilitySave.UnitsAfterSave | src/components/facility-map-editor.tsx:623-645 | After a save the store's units have no repeated id, none is lost, and exactly those on the saved floor are added. |
| FacilitySave.SavedFloorReopens | src/components/facility-map-editor.tsx:593-623 | Reopening the saved floor shows the canvas unchanged if and only if no caption is empty and no unit was freshly placed without details. |
| FacilitySave.DrawnCreated | src/components/facility-map-editor.tsx:593-605 | A unit created by a save is on one element only. |
| UnitNumbers.AssumptionsHoldTogether | src/components/facility-map-editor.tsx:1507-1518 | What the lemmas on the suggestion assume of the host (rounding to nearest, ties to even, texts of whole numbers) can hold together. |
| UnitNumbers.NextUnitNumber | src/components/facility-map-editor.tsx:1507-1518 | While all numeric numbers are below 2^53: the loop ends with one more than the largest of them, or 1, which is free ignoring case. |
| UnitNumbers.SuggestsIff | src/components/facility-map-editor.tsx:1508-1516 | For any numbers, read and added in doubles: the loop finds a free number above every numeric one if and only if there is none, or the largest is below 2^53, or below 2^54 and twice an odd number. |
| UnitNumbers.NeverStopsIff | src/components/facility-map-editor.tsx:1508-1516 | The loop never ends if and only if there is no such room and the largest number is in use as it would be shown. |
| UnitNumbers.NeverStops | src/components/facility-map-editor.tsx:1516 | With the single number 9007199254740992 every candidate is in use. |
| UnitNumbers.RunKeepsNumbers | src/components/facility-map-editor.tsx:1546-1565 | Over every run whose answers create what was sent, draft numbers differ from each other and from the store's, ignoring case; floors left, layouts loaded and saves sent while a save is out included. |
| FacilityMapEditor.MapEditor.Hydrate | src/components/facility-map-editor.tsx:320-375 | The imperative form shows the map as the model does, legacy flag included. |
| FacilityMapEditor.MapEditor.SubmitNew | src/components/facility-map-editor.tsx:1546-1565 | A number in use is refused; otherwise the draft unit is placed. |
| FacilityMapEditor.MapEditor.SubmitExisting | src/components/facility-map-editor.tsx:1538-1545 | Only a unit of the store that is placed nowhere is placed. |
| FacilityMapEditor.MapEditor.FinishSave | src/components/facility-map-editor.tsx:593-647 | The captured canvas, updated with created units, replaces the canvas and is merged into the captured floor. |
| Binary64.RelativeError | src/components/daily-close-form.tsx:14-15 | Rounding to the nearest double has relative error at most 2^-53 (section 4.3.1 of IEEE 754-2019), proved from the definition of a double. |
| Binary64.RoundingExists | src/components/daily-close-form.tsx:14-15 | Such a rounding exists for every real. |
| DailyClose.ParsesIffMatches | src/components/daily-close-form.tsx:13 | A text has a value if and only if it matches the pattern. |
| DailyClose.CentsIsExact | src/components/daily-close-form.tsx:12-16 | cents accepts a text exactly when it matches and is at most 999,999,999,999.99 in magnitude, and returns its exact cents. |
| DailyClose.CentsIffWritten | src/components/daily-close-form.tsx:12-16 | cents gives k if and only if the text writes k hundredths, as a number with at most two decimals, within the accepted range. |
| DailyClose.FixedRoundTrip | src/components/daily-close-form.tsx:12-16 | cents((k/100).toFixed(2)) is k (toFixed: section 21.1.3.3 of ECMA-262). |
| DailyClose.ConfirmedIffExact | src/components/daily-close-form.tsx:56-59 | A money comparison of the saved record holds if and only if the saved text denotes exactly those cents, in range. |
| DailyClose.FaithfulRecordIsConfirmed | src/components/daily-close-form.tsx:56-59 | A record storing the two amounts and their difference passes all three money comparisons. |
| MessageLog.IdleShowsPrefix | src/components/communication-log-workspace.tsx:17-37 | Over every run: whenever idle the page shows nothing, or a duplicate-free prefix of the list for its filters and pinned snapshot, if and only if no fresh read was parsed after its own timeout over rows already shown. |
| MessageLog.StaleRowsShown | src/components/communication-log-workspace.tsx:26-36 | A concrete run that ends idle with the first page of one filter shown under another. |
| MessageLog.StepKeepsIff | src/components/communication-log-workspace.tsx:28-36 | Every step keeps the paging invariant, with exactly one exception. |
| MessageLog.OlderPageIsShown | src/components/communication-log-workspace.tsx:26-33 | Whenever the page is idle with a cursor, an older load answered from the pinned list shows the next 25 rows behind those shown, or all that are left, under the same filters and snapshot, without error. |
| MessageLog.FreshPageIsShown | src/components/communication-log-workspace.tsx:17-33 | A load with filters shows their first page, of the snapshot the service chose. |
| MessageLog.OtherPageIsRefused | src/components/communication-log-workspace.tsx:28-35 | A page for other filters, or an older page of another snapshot, is never shown: everything is cleared with an error. |
| MessageLog.FailureIsShown | src/components/communication-log-workspace.tsx:34-35 | A load that fails shows nothing, says so, and is over. |
| MessageLog.WholeListIsReached | src/components/communication-log-workspace.tsx:17-36 | From any state some run of one fresh and further older loads shows the whole list of any filters and snapshot. |
| MessageLog.CombinedIsDistinct | src/components/communication-log-workspace.tsx:31 | Whatever a page repeats, no row is shown twice. |
| MessageLog.SupersededChangesNothing | src/components/communication-log-workspace.tsx:28-35 | The end of a superseded request changes nothing. |
| MessageLog.CommunicationLog.Finish | src/components/communication-log-workspace.tsx:26-36 | The imperative form ends a request as the modelled step does, of which the rows above speak. |
| Audience.ExactAudienceIff | src/components/collection-notice-batch-workspace.tsx:14 | Length, number of different values and membership hold together if and only if the values are a permutation of a duplicate-free selection. |
| NoticeBatch.EveryCommitIsReviewed | src/components/collection-notice-batch-workspace.tsx:21-51 | Over every run each prepare, approve and send names, item by item, the review on screen, of exactly the selected accounts, ticked for that action since it was shown, with every item fit for it: unblocked, and an unscheduled draft or none to prepare; an unscheduled current draft in the message's own words that the server lets this user approve; an approved, unscheduled, current notice in the message's own words that may be sent; and an approval has a reference. |
| NoticeBatch.PreviewShownIff | src/components/collection-notice-batch-workspace.tsx:31 | An answered preview is shown, unticked, if and only if it is of the selected accounts, each once, as at one moment, with different notices each of its own account. |
| NoticeBatch.ApprovalShownIff | src/components/collection-notice-batch-workspace.tsx:33 | An approval is reported if and only if the notices are of the selected accounts, each the reviewed one in its reviewed words, approved, in a new revision. |
| NoticeBatch.CommitUsesUp | src/components/collection-notice-batch-workspace.tsx:26-40 | A commit uses up the review and its ticks; a delivery clears the reference too. |
| NoticeBatch.SelectionOf | src/components/collection-notice-batch-workspace.tsx:22 | Ticking or unticking an account changes the selection by it alone and ends the review. |
| NoticeBatch.ApprovalCoversReview | src/components/collection-notice-batch-workspace.tsx:33 | A verified approval has, for every reviewed notice, that notice in its reviewed words and a new revision. |
| NoticeBatch.Deliver | src/lib/collection-notice-delivery.ts:11-28 | Dispatches go out in order, one at a time, and stop at the first unconfirmed one or an abort; a result is accepted if and only if the reply repeats the reviewed notice and says, both ways, that it was accepted. |
| NoticeBatch.NoticeWorkspace.Act | src/components/collection-notice-batch-workspace.tsx:23-38 | A request goes out if and only if there is a review, every item of it is fit for the action, its tick is set and an approval has a reference; and it uses up the review. |
| BulkPricing.EveryApplyIsReviewed | src/components/bulk-unit-pricing-dialog.tsx:34-58 | Over every run each apply carries the token of a preview of the inputs on screen, unchanged since; after an unknown outcome nothing is sent. |
| BulkPricing.SuccessIsAsReviewed | src/components/bulk-unit-pricing-dialog.tsx:46-57 | Success is reported only for the reviewed changes, one for each selected unit, and only once the page has taken note of them. |
| BulkPricing.PreviewOutcome | src/components/bulk-unit-pricing-dialog.tsx:40-57 | A preview is shown as answered if and only if it is good, for this facility, and of each selected unit once; refused access keeps what was shown, anything else clears it; a preview never blocks. |
| BulkPricing.ApplyOutcome | src/components/bulk-unit-pricing-dialog.tsx:40-57 | An apply leaves the dialog usable if and only if its outcome is known: access or request refused, or answered for the selection with the very changes and token reviewed and noted by the page. |
| BulkPricing.PricingDialog.Submit | src/components/bulk-unit-pricing-dialog.tsx:34-38 | A request goes out if and only if none is out, nothing is blocked, units and a value are given and, to apply, there is a preview. |
| BulkPricing.PricingDialog.Finish | src/components/bulk-unit-pricing-dialog.tsx:40-57 | The imperative form handles each reply as the model does; an apply that went through but whose `applied` callback rejects blocks the dialog. |
| SupplyQueue.UncertainSupplyIsRechecked | src/components/merchandise-order-queue.tsx:25-86 | Over every run a supply POST after an unknown outcome follows a read begun after that outcome that shows its order as PAID; no read is out while a supply POST is. |
| SupplyQueue.ScreenIsKnown | src/components/merchandise-order-queue.tsx:25-84 | Over every run the screen shows nothing, or the orders of the last good read, Fulfilled exactly where that read said so or their own supply was confirmed since; supplying is locked exactly while an outcome is unknown that no good read has followed. |
| SupplyQueue.SupplyOutcome | src/components/merchandise-order-queue.tsx:64-84 | A refused supply changes no order and no lock; a confirmed one makes that order alone Fulfilled and starts a read; an unclear one locks; refused access clears the list. |
| SupplyQueue.ReadOutcome | src/components/merchandise-order-queue.tsx:25-54 | A superseded read changes nothing; a good one shows its orders and lifts the lock; refused access clears the list, a failure keeps it, and neither lifts the lock. |
| SupplyQueue.MerchandiseOrderQueue.Fulfil | src/components/merchandise-order-queue.tsx:58-60 | A supply is posted if and only if none is out, no outcome is unknown, and orders are loaded without error. |
| SupplyQueue.MerchandiseOrderQueue.FinishRefresh | src/components/merchandise-order-queue.tsx:30-54 | The imperative form ends a read as the modelled step does. |
| SupplyQueue.MerchandiseOrderQueue.FinishFulfil | src/components/merchandise-order-queue.tsx:68-84 | The imperative form ends a supply POST as the modelled step does. |
| RequestKeys.CollectionsShareKeysIff | src/components/collections-workspace.tsx:15-29 | Across a run two requests share a key if and only if they agree apart from it. |
| RequestKeys.CollectionsApplyOnce | src/components/collections-workspace.tsx:21-29 | At a service with one effect per key, under any retries and losses, an action takes effect exactly once if any request for it arrives, and not at all otherwise. |
| RequestKeys.AdjustmentKeys | src/components/adjustments-workspace.tsx:22-44 | Requests share a key exactly when they come from one preview, and then they are identical; each has the inputs and the fingerprint of the preview that it is for. |
| RequestKeys.AdjustmentsApplyOnce | src/components/adjustments-workspace.tsx:43-44 | Such a service takes exactly one request from each preview of which any request arrives. |
| RequestKeys.RetryRepeats | src/components/adjustments-workspace.tsx:23-27 | A request that was not confirmed can be sent again as it was, under its key, without another preview. |
| RequestKeys.NewPreviewNeeded | src/components/adjustments-workspace.tsx:22-44 | After a request is accepted or an input changes, nothing can be requested before another preview is shown and ticked. |
| FollowUps.EveryFollowUpOnce | src/components/collections-workspace.tsx:40 | From any selection, as many clicks as there are accounts to follow up open each exactly once and no other: those without a finance issue or hold that are overdue and whose next follow-up, if any, has come. |
| FollowUps.QueueIsEmptyIff | src/components/collections-workspace.tsx:40 | There is an account to open if and only if there is one to follow up. |
| FollowUps.ClickPosition | src/components/collections-workspace.tsx:40 | Within a round the k-th click opens the account k places after the start, -1 included. |

## Left out

- Encryption, IndexedDB, `fetch`, timers and abort controllers: they appear as writes that serialise and later land, as replies of any kind, and as tokens.
- Offline `erase`, unlocking again during a pass, a second tab, `prepare` with a locked saved queue, and writes that throw.
- Delivery of the latest edited contents: an item already copied into a pass is posted as it was, and a removed one may still be posted; the theorems are about ids.
- Offline downloads: one at a time; the receipt arrays that a download or a former snapshot holds; writes pending or in preparation at a reload are dropped.
- OfflineWorkspace: the class holds the arrays of the present snapshot and of a download; the arrays of former snapshots are followed in `OutboxWorld` only.
- OutboxConflict.ConflictHold: a lead form saved during the run counts as re-arming when it concerns the request's lead.
- `lastError`, receipt links and the fields of a lead or request that no branch reads; unit availability on the server is arbitrary.
- Map editor: canvas pointer dragging is any change of frame; sizes from unit types are parameters; a `config` flag that is absent and one that is false are one value; fields of a draft unit other than type and number are carried unread.
- FacilitySave.SinglePlacement: one save at a time (the save button is disabled meanwhile), and payloads that do not place a unit of a layout being saved on another floor.
- FacilityMapEditor: handlers that only choose a floor, load, select, or add, remove or copy an element are steps of `FacilityEditor` and have no method.
- UnitNumbers.SuggestsIff: doubles without the ends of the exponent range; case mapping, trimming and printing are any functions that treat plain digits as the host does.
- FacadeSegments.ExposedFacadeSegments: rounding has no exponent range, and the sort compares starts exactly.
- DailyClose: doubles are taken without the ends of the exponent range; a longer text becomes infinite there and is refused here as too large. The form's busy, uncertain and recorded flags are not modelled.
- MessageLog: the service is taken to page one fixed list for each pair of filters and snapshot; leaving the page is not a step.
- Bulk pricing: the filter's collation order and which units match it are not modelled; a selection is any list.
- BulkPricing.EveryApplyIsReviewed: the preview is not used up by a successful apply, so the same token may be sent again while the dialog stays open.
- Services behind the screens other than the offline, map, delivery and layer code named above, all rendering, and all configuration pages: they would add only easy members.
