# Verified models of the ERP engines

This project models, in Dafny 4.11, the engines of the ERP backend whose correctness is not visible from any single
function: the stock and reservation engine with the sales and production orders that drive it, the refresh-token
protocol, the first-fit production scheduler, the IBAN check, the three document printers (PDF, CSV, pain.001 XML),
double-entry posting with the periodic VAT liquidation, three-way invoice matching, and requisition approval.
`dafny verify dfyconfig.toml` checks all of it.

## How it is built

Code that changes state step by step is a class or a method with loops, proved equal to a specification function
(`ApplyAll`, `Step`, `Greedy`, `FileText`, ...). What the system promises is then proved about those functions: over
every input, and for the services over every finite run of requests, each request being one atomic step that either
succeeds completely or changes nothing.

| module | models |
|---|---|
| `Inventory` | stock levels, the movement log, reserve / release / ship / BOM batches, direct movements |
| `Sales`, `Production` | the order status machines around those batches |
| `Fulfilment` | whole runs of the three services over one store |
| `Sessions` | login with lockout, refresh, tenant switch, logout on one user record |
| `Scheduling` | stable sort by key, then first fit with capacity cursors |
| `Iban` | cleaning, rearranging, and the ISO 7064 MOD 97-10 check over unbounded digit strings |
| `Pdf` | pagination, page streams, numbered objects, cross-reference table, and a reader that follows the links |
| `Csv`, `Xml`, `Pain001` | the CSV and XML printers, and readers for both |
| `XmlReader`, `Pain001Reader` | a strict XML reader, and exactly which pain.001 documents it gets through |
| `Pain001Message` | a reader of the message by the place of every element, and the round trip of whole batches |
| `Accounting`, `VatLiquidation` | invoices, postings, the journal, and the liquidation of a month or quarter |
| `ThreeWayMatch` | tolerances, receipt totals, discrepancies |
| `Approvals` | the approval chain and the life of a requisition |
| `Decimal`, `Text`, `Option` | decimal numerals, text replacement, options |

Stored decimals are exact: quantities are hundredths of a unit and money is cents (integers); prices, rates, receipts
and minutes are exact reals. `toFixed` and `Math.round` are modelled as the rounding they perform on exact values.

## What the proofs found

* A reservation is made in the warehouse that is the default at confirmation, but released or shipped in the one that
  is the default then. If a warehouse with a smaller code appears in between, the old reservation stays for ever
  (`Fulfilment.WarehouseDriftLeaksReservation`). For orders without negative lines reservations equal open demand
  throughout a run exactly when no order is closed after such a change that its lines depend on
  (`Fulfilment.AgreesIffStableRun`).
* A quotation line may have a negative quantity, and its conversion does not check it. Such an order can make the clamp
  at zero take effect when another one is cancelled, after which the reservation misses the negative demand
  (`Fulfilment.NegativeLineBreaksReservation`). For quantities of either sign the exact condition is
  `Fulfilment.CloseKeepsReservedIff`, under a stable resolution `Fulfilment.StableSettlesIffCovered`.
* Reserve followed by release restores every level exactly when the reservation it made covers every running demand of
  the batch (`Inventory.ReserveThenRelease`). A batch of +5 and -5 on an unreserved cell does not: five units stay
  reserved (`Inventory.MixedBatchStaysReserved`). Without negative quantities the condition is that no touched cell
  started with a negative reserved quantity (`Inventory.ReserveThenReleaseOfNonNegative`), which only negative lines can
  bring about (`Fulfilment.ReservedNonNegativeOverRuns`).
* Cancelling an order with a negative line reserves more without a check, so two confirmed orders can share the same
  stock (`Fulfilment.NegativeLineOvercommits`). Reserved quantities stay within on-hand throughout a run, drift and
  negative lines included, exactly when no request outside shipping takes more than what is free and no cancellation
  releases into that state (`Fulfilment.AvailableOverRuns`); without negative lines the second part always holds
  (`Fulfilment.AvailableIffTakesOnlyFree`).
* A refresh token displaced by a second login still carries the current version, so presenting it is answered as a
  mismatch and revokes nothing (`Sessions.SecondLoginDisplaces`). It is treated as a replay exactly when a refresh, switch,
  logout, replay or ceiling event has occurred since it was issued (`Sessions.TokenAnswers`).
* The liquidation counts the VAT of split-payment invoices, which is never posted to the books
  (`VatLiquidation.LiquidationAgainstBooks`).
* The procurement service passes tolerances on even when they are undefined, and undefined ones override the documented
  defaults. The model follows the code: an invoice in exact agreement is disputed as soon as an undefined tolerance has
  anything but zeros to judge (`ThreeWayMatch.ExactInvoiceMatchesIff`, `ThreeWayMatch.UndefinedTolerancesDispute`).
* The PDF keeps one byte per character, and PDF readers turn every end of line inside a text string into a line feed. A
  reader recovers the lines exactly when every character is below U+0100 and none is a carriage return
  (`Pdf.DocumentRoundTrip`).
* The execution date is the only payment field that pain.001 prints unescaped. A strict XML reader gets through the
  document and finds control totals that agree with the body exactly when every text field holds only characters that
  XML allows, and the date leaves open what it found open and holds no element that carries totals
  (`Pain001Reader.DocumentReadsWellIff`). A date that opens a transaction element breaks the totals
  (`Pain001.MarkupInDateBreaksTotals`), and after one that opens a comment, a section or a tag without closing it, or
  holds a bare ampersand, no document can be read (`Pain001Reader.UnreadableDates`). The whole message comes back exactly
  when, besides, the date needs no escaping (`Pain001Message.MessageRoundTripIff`).

## Model

| member | source | states |
|---|---|---|
| Inventory.InventoryService.RunBatch | backend/src/inventory/inventory.service.ts:343-548 | The reserve, release, ship and BOM loops: the transaction commits the rows and log entries of every request in order, or, at the first request that fails its check, nothing |
| Inventory.InventoryService.RecordStockMovement | backend/src/inventory/inventory.service.ts:247-273 | An unknown product or a movement that would take a cell below zero is rejected and changes nothing; otherwise the cells move as the kind of movement says and one costed row is logged |
| Inventory.BatchRefinesAggregate | backend/src/inventory/inventory.service.ts:343-548 | For non-negative quantities, repeated cells included, the sequential loop succeeds if and only if every cell admits its total demand, and then leaves exactly the levels obtained by taking each cell's total at once |
| Inventory.BatchSucceedsIffCovered | backend/src/inventory/inventory.service.ts:343-548 | For quantities of either sign the loop of a reservation, shipment or BOM succeeds if and only if every cell has the row the operation needs and the running demand there never exceeds what it may take: the free quantity for a reservation, on-hand otherwise |
| Inventory.BatchLevelAt | backend/src/inventory/inventory.service.ts:343-548 | After a successful batch of non-negative quantities every cell whose reserved quantity was not negative, mentioned or not, has moved by exactly its total demand; no row disappears, and reserving creates the rows it needs |
| Inventory.BatchOrderIrrelevant | backend/src/inventory/inventory.service.ts:343-548 | Any permutation of requests with non-negative quantities succeeds or fails alike and leaves the same levels |
| Inventory.ReserveThenRelease | backend/src/inventory/inventory.service.ts:343-430 | For quantities of either sign, releasing what was just reserved always succeeds, and restores every level if and only if in each touched cell the reservation just made is never exceeded by the running demand of the batch |
| Inventory.ReserveThenReleaseOfNonNegative | backend/src/inventory/inventory.service.ts:343-430 | For quantities that are not negative the condition is that no touched cell started with a negative reserved quantity |
| Inventory.MixedBatchStaysReserved | backend/src/inventory/inventory.service.ts:343-430 | A batch of +5 and -5 on one cell with ten on hand and nothing reserved: reserving and releasing it leaves five reserved |
| Inventory.ReserveLevelAt | backend/src/inventory/inventory.service.ts:343-390 | Reserving quantities of either sign adds exactly their sum to every cell and creates the rows it needs |
| Inventory.TakenLevelAt | backend/src/inventory/inventory.service.ts:397-484 | Releasing or shipping quantities of either sign takes exactly their sum from a stocked cell's reservation, less what the clamps at zero forgive; shipping takes the sum from on-hand as well and releasing leaves on-hand alone; no row is ever created |
| Inventory.ForgivenNothingIff | backend/src/inventory/inventory.service.ts:397-484 | The clamps forgive nothing if and only if the running demand of the batch on the cell never exceeds what was reserved there |
| Inventory.ConsumeKeepsReserved | backend/src/inventory/inventory.service.ts:491-548 | Consuming a BOM never touches a reservation |
| Inventory.MovementSucceedsIff | backend/src/inventory/inventory.service.ts:247-273 | A direct movement succeeds if and only if the product is known and no cell goes below zero on the way; a transfer to the same cell still needs the quantity there |
| Inventory.MovementOnHand | backend/src/inventory/inventory.service.ts:552-616 | A movement changes each cell's on-hand by its signed effect there, never below zero, and no reserved quantity |
| Inventory.FullReplayOvershoots | backend/src/inventory/inventory.service.ts:378-388 | Replaying every row of a log exceeds the replay without reservation rows by the gross reserved plus released quantity |
| Inventory.BatchKeepsLedger | backend/src/inventory/inventory.service.ts:378-548 | Every batch keeps on-hand non-negative and equal to the replay of the log without reservation and release rows |
| Inventory.MovementKeepsLedger | backend/src/inventory/inventory.service.ts:247-273 | So does every direct movement |
| Inventory.TransferConserves | backend/src/inventory/inventory.service.ts:552-616 | Over any list of distinct warehouses a transfer changes a product's total only by what enters the list minus what leaves it |
| Sales.BuildRequests | backend/src/sales/sales.service.ts:212-219 | The requests of an order: one per line that has a product, with the line's warehouse or else the default one |
| Sales.SalesService.DriveOrder | backend/src/sales/sales.service.ts:199-292 | Stock and status change together or not at all; without an active warehouse nothing happens |
| Sales.SalesService.ConfirmSalesOrder | backend/src/sales/sales.service.ts:199-226 | Only a draft can be confirmed; it reserves the demand of its lines |
| Sales.SalesService.CancelSalesOrder | backend/src/sales/sales.service.ts:231-260 | Shipped and invoiced orders cannot be cancelled; an open one gives its reservation back, a draft only changes status |
| Sales.SalesService.ShipSalesOrder | backend/src/sales/sales.service.ts:265-292 | Only a confirmed order ships; it takes on-hand and reservation together and is shipped from then on |
| Sales.RequestsDemand | backend/src/sales/sales.service.ts:212-219 | On every cell the requests of an order, of whatever quantities, add up to the demand of its lines there |
| Sales.DriftLosesDemand | backend/src/sales/sales.service.ts:302-313 | Under another default warehouse no line gains demand in the old one, and a line that relied on it loses its own |
| Production.ProductionService.UpdateProductionOrderStatus | backend/src/production/production.service.ts:315-371 | A status change outside the transition table is refused; starting consumes the whole BOM or fails leaving stock and order alone, and marks the start once |
| Production.UpdateSucceedsIff | backend/src/production/production.service.ts:315-371 | A status change succeeds if and only if it goes to the next stage or cancels before completion, and, on starting with a BOM, the default warehouse exists and has all the material on hand |
| Production.OrderNumberSequence | backend/src/production/production.service.ts:572-580 | An order number ends in its sequence number whatever the prefix and year, also past five digits, so numbers are never shared |
| Fulfilment.LedgerAgreesOverRuns | backend/src/inventory/inventory.service.ts:247-616 | In every run on-hand stays non-negative and equal to the filtered replay of the log in every cell, and the full replay overshoots by exactly the reservation traffic |
| Fulfilment.CloseKeepsReservedIff | backend/src/sales/sales.service.ts:231-292 | Successfully cancelling or shipping an open order, whatever its quantities, keeps reserved equal to open demand in every cell if and only if on every stocked cell what the clamps forgive is what the change of the default warehouse moved there |
| Fulfilment.StableSettlesIffCovered | backend/src/sales/sales.service.ts:231-313 | When every line still resolves to the warehouse it was reserved in, that condition says exactly that the reservation covers the order's requests at every point |
| Fulfilment.SettlesIffStable | backend/src/sales/sales.service.ts:231-313 | Without negative lines it says exactly that every line with a quantity still resolves to the warehouse it was reserved in |
| Fulfilment.StepKeepsReservedIff | backend/src/sales/sales.service.ts:199-292 | Every request of the three services, successful or rejected, keeps reserved equal to open demand if and only if that condition holds of it |
| Fulfilment.ReservedIsDemandOverRuns | backend/src/sales/sales.service.ts:199-313 | Over every run, whatever the quantities, the reserved quantity of each cell is the summed line demand of the confirmed orders after every prefix if and only if every close on the way satisfies that condition |
| Fulfilment.AgreesIffStableRun | backend/src/sales/sales.service.ts:199-313 | Over every run without negative lines the same holds after every prefix if and only if warehouse resolution is stable for every order that is actually cancelled or shipped |
| Fulfilment.ReservedNonNegativeOverRuns | backend/src/inventory/inventory.service.ts:343-484 | Over every run without negative lines no reserved quantity is ever negative, even where warehouses drift |
| Fulfilment.ClampsNeverBite | backend/src/inventory/inventory.service.ts:397-484 | In a state without negative lines that agrees, an open order that still resolves as it did is covered by what is reserved in every cell, so the clamps forgive nothing |
| Fulfilment.WarehouseDriftLeaksReservation | backend/src/sales/sales.service.ts:302-313 | A six-request run after which a cancelled order's five units are still reserved |
| Fulfilment.NegativeLineBreaksReservation | backend/src/sales/sales-depth.service.ts:201-262 | A seven-request run with one order line of -5, as a converted quotation may have, after which nothing is reserved while open demand is -5 |
| Fulfilment.StepKeepsAvailableIff | backend/src/inventory/inventory.service.ts:343-616 | From any state with reserved within on-hand in every cell, whatever the quantities and the warehouses, a request keeps it so if and only if, outside shipping, it takes no more from a cell than what is free there, and, cancelling an open order, what it leaves reserved, clamps included, is on hand |
| Fulfilment.AvailableOverRuns | backend/src/inventory/inventory.service.ts:343-616 | Over every run from such a state, with drift and negative lines, reserved is within on-hand after every prefix if and only if every request on the way satisfies that condition |
| Fulfilment.AvailableIffTakesOnlyFree | backend/src/inventory/inventory.service.ts:343-616 | Over every run without negative lines, drift included, the same holds after every prefix if and only if no request outside shipping takes more from a cell than what is free there |
| Fulfilment.NegativeLineOvercommits | backend/src/sales/sales.service.ts:231-260 | A nine-request run with orders of 5, -5 and 5 on five units: after the second is cancelled ten are reserved, which is the open demand, with five on hand |
| Fulfilment.ConfirmedOrderShips | backend/src/sales/sales.service.ts:265-292 | Shipping a confirmed order, whatever its quantities and wherever the default warehouse now is, succeeds if and only if every cell it asks for has a stock row whose on-hand the running demand never exceeds |
| Fulfilment.OrderlyOrderShips | backend/src/sales/sales.service.ts:265-292 | For an order without negative lines: if and only if every cell it asks for has a stock row with the demand of its lines on hand |
| Fulfilment.OnlyRowsCanBeMissing | backend/src/sales/sales.service.ts:265-292 | Where no order has a negative line, reserved equals open demand and is within on-hand, and the order still resolves as it did, shipping succeeds if and only if the rows exist |
| Fulfilment.UnmovedOrderShips | backend/src/sales/sales.service.ts:265-292 | Where no order has a negative line, reserved equals open demand and is within on-hand, a confirmed order ships whenever the default warehouse is that of its confirmation |
| Fulfilment.ProductionOrderLife | backend/src/production/production.service.ts:315-371 | Over every run an order changes status at most four times and starts at most once, exactly once if it is marked as started |
| Fulfilment.ConsumptionOverRuns | backend/src/inventory/inventory.service.ts:491-548 | Over every run the material logged by BOM consumption under an order's reference is required times planned summed over its BOM if it started, and zero otherwise; references of orders still to come have none |
| Fulfilment.SalesOrderLife | backend/src/sales/sales.service.ts:199-292 | Over every run a sales order changes status only from draft to confirmed to shipped or, before it ships, to cancelled; it is confirmed at most once, shipped exactly once if it ends shipped and never otherwise, and shipped and cancelled are final |
| Fulfilment.SalesSucceedsIff | backend/src/sales/sales.service.ts:199-313 | Confirming succeeds if and only if the order is a draft, an active warehouse exists and the free stock covers the requests at every point; shipping if and only if it is confirmed, an active warehouse exists and stocked on-hand covers them; cancelling if and only if it is not shipped and, when confirmed, an active warehouse exists |
| Fulfilment.SalesLoggedOverRuns | backend/src/inventory/inventory.service.ts:343-484 | Over every run what was reserved, and what was shipped, under an order's reference is for each product the sum of its lines for each time it was confirmed, or shipped |
| Fulfilment.OrdersFitLog | backend/src/sales/sales.service.ts:199-292 | In every run from an empty store the outbound batch rows under the reference of an order add up, product by product, to its lines if its status is shipped and to zero otherwise; its reservation rows to its lines if it is confirmed or shipped and to zero while it is a draft |
| Fulfilment.ReservedIsLoggedOverRuns | backend/src/inventory/inventory.service.ts:343-484 | Over every run, whatever the quantities and the warehouses, the reserved quantity of a cell is what the log says, reserved less released less shipped, plus what the clamps at zero have forgiven |
| Fulfilment.RunsFromEmpty | backend/src/sales/sales.service.ts:199-292 | For every run from an empty store at once: the ledger, reservations against the log, consumption and shipments by order, the status paths of orders with at most four changes and one start in production, the exact conditions for reservations and for availability throughout, whatever the quantities and the warehouses; and without negative lines the simpler conditions, no negative reservation, and, where both hold, that confirmed orders with stock rows ship |
| Sessions.AuthService.Login | backend/src/auth/auth.service.ts:179-279 | One login request: inactive or locked users are refused, a wrong password counts and the fifth locks, a right one stores a token of the current version and starts the session clock |
| Sessions.AuthService.RefreshToken | backend/src/auth/auth.service.ts:357-437 | One refresh request, check by check: a token that does not verify is refused before anything else, ceiling and version mismatch revoke the session, a hash mismatch only refuses, success rotates version and token |
| Sessions.AuthService.MintTokensForTenantSwitch | backend/src/auth/auth.service.ts:473-506 | A switch raises the version, restarts the session clock and stores a token of the new version |
| Sessions.AuthService.LogOut | backend/src/auth/auth.service.ts:508-529 | Logging out drops the stored token and raises the version |
| Sessions.RunKeepsSound | backend/src/auth/auth.service.ts:357-545 | Over every run all issued tokens have a version at most the record's, which never decreases, and a stored token is an issued one of the current version whose session clock is that of the latest login or switch |
| Sessions.AcceptsIff | backend/src/auth/auth.service.ts:357-437 | A refresh succeeds if and only if the user is active, the token is the stored one, and the latest login or switch is at most twelve hours old |
| Sessions.NeverAgain | backend/src/auth/auth.service.ts:357-437 | A token that has been superseded is never stored again |
| Sessions.TokenLife | backend/src/auth/auth.service.ts:357-545 | In every run a stored token is still the stored one if and only if no login, refresh, switch, logout, replay or ceiling event has happened since, refreshes that do not verify left out |
| Sessions.ForgeriesAreInert | backend/src/auth/auth.service.ts:357-369 | Leaving out all refreshes whose token does not verify changes nothing in any run: neither the record nor the issued tokens nor the life of any token |
| Sessions.OnlyIssuedTokensAct | backend/src/auth/auth.service.ts:357-437 | In every permitted run each refresh that changes the record, issues a token or ends the life of one presented a verified token issued before |
| Sessions.DeadUntilReauthentication | backend/src/auth/auth.service.ts:357-437 | Once no token is stored, none is accepted until the next login or switch |
| Sessions.VersionMovesUnlessOnlyLogins | backend/src/auth/auth.service.ts:257-530 | Over every run the version never decreases, and it stays the same if and only if logins are the only events that ended the life of a token |
| Sessions.TokenAnswers | backend/src/auth/auth.service.ts:357-437 | What became of an issued token, over every run: presented in a live session (active user, some token stored, not past the ceiling) it is a detected replay if and only if a refresh, switch, logout, replay or ceiling event has occurred since, a mismatch if and only if logins alone displaced it, and accepted if and only if nothing did |
| Sessions.SupersededToken | backend/src/auth/auth.service.ts:404-428 | Presenting a displaced token in a live session: if logins alone displaced it nothing changes at all, otherwise no token is accepted until the next login or switch |
| Sessions.SecondLoginDisplaces | backend/src/auth/auth.service.ts:257-263 | Two logins from registration, then the token of the first: it is answered as a mismatch, and the token of the second is still accepted |
| Sessions.LockedRate | backend/src/auth/auth.service.ts:210-263 | Once locked, n further password checks need at least n lockout periods |
| Sessions.LockoutRate | backend/src/auth/auth.service.ts:210-263 | With no successful login, the n-th password check comes at least (n - 5) times 15 minutes after the fifth, attempts already spent counting among the five |
| Sessions.LockIsStreak | backend/src/auth/auth.service.ts:210-263 | After every run the counter is the length of the current streak of wrong passwords checked, and the user is locked for 15 minutes from the last of them if there are five or more and not otherwise |
| Sessions.LoginIssuesIff | backend/src/auth/auth.service.ts:179-279 | After every run since registration a login issues a token if and only if the user is active, the password is right and no such lock is in force |
| Sessions.SessionsOverRuns | backend/src/auth/auth.service.ts:357-545 | For every run since registration: refreshes that do not verify made no difference and only verified issued tokens had an effect, versions are bounded, the lock is that of the streak, at most one token is acceptable, and it was issued and lies within twelve hours of the latest login or switch |
| Scheduling.Schedule | backend/src/scheduling/scheduling.service.ts:53-92 | The loop with its cursor dictionary and two lists computes the greedy plan over the stably sorted jobs |
| Scheduling.FirstFit | backend/src/scheduling/scheduling.service.ts:68-71 | The chosen resource is the first with room; none is chosen only if none has room |
| Scheduling.SortByKeySorts | backend/src/scheduling/scheduling.service.ts:58-62 | The sort is a permutation in key order |
| Scheduling.SortByKeyStable | backend/src/scheduling/scheduling.service.ts:58-62 | Jobs with equal keys keep their order |
| Scheduling.GreedyConserves | backend/src/scheduling/scheduling.service.ts:67-86 | Assigned and unassigned ids together are exactly the input jobs, counted with repetition |
| Scheduling.GreedyTiles | backend/src/scheduling/scheduling.service.ts:76-85 | The intervals on each resource tile the time from zero to its cursor without gap or overlap |
| Scheduling.GreedySlots | backend/src/scheduling/scheduling.service.ts:67-86 | Assignments follow the order of the placed jobs, last as long as the job, and end within the capacity of a resource of that id |
| Scheduling.PlacedInOrder | backend/src/scheduling/scheduling.service.ts:58-86 | Jobs are placed in key order |
| Scheduling.ScheduledSoonerFirst | backend/src/scheduling/scheduling.service.ts:58-62 | No job is placed before one that must go sooner, a given priority counting instead of the due date and the smaller number winning |
| Scheduling.UnassignedFitsNowhere | backend/src/scheduling/scheduling.service.ts:67-75 | With non-negative minutes, a job left out when its turn came fits no resource in the final state either |
| Scheduling.GreedyOverflows | backend/src/scheduling/scheduling.service.ts:67-86 | With equal capacities, a used resource and any earlier one together hold more than one capacity |
| Scheduling.FirstFitBound | backend/src/scheduling/scheduling.service.ts:53-86 | If the assigned jobs can be packed on m resources at all, the schedule uses at most 2m - 1, for any order of the jobs |
| Iban.ValidateIban | backend/src/treasury/iban.util.ts:70-83 | The loop that spells out letters accepts exactly the cleaned, well-formed accounts whose rearranged number is 1 modulo 97 |
| Iban.ExpandValue | backend/src/treasury/iban.util.ts:74-81 | The accumulated digit string denotes the number obtained by appending weights with base 10 for digits and 100 for letters |
| Iban.ValidIff | backend/src/treasury/iban.util.ts:70-83 | An account is valid if and only if it is two capital letters, two digits and 11 to 30 capital letters or digits, and account number, country and check digits leave remainder 1 when taken one by one modulo 97, each character counting for its place in the alphabet that starts with the digits |
| Iban.CleanIgnores | backend/src/treasury/iban.util.ts:70-72 | White space and the case of letters make no difference, and every other letter and digit stays |
| Iban.SubstitutionDetected | backend/src/treasury/iban.util.ts:70-83 | Changing one character of a valid account to another of the same kind never validates |
| Iban.SwapDetected | backend/src/treasury/iban.util.ts:70-83 | Swapping two different neighbours of one kind never validates, wherever they stand, including the pair that the rearrangement moves to opposite ends |
| Iban.CheckDigitsUnique | backend/src/treasury/iban.util.ts:70-83 | For each country and account number exactly one check-digit pair in 02..98 validates; of all hundred pairs only those congruent to it do |
| Pdf.PaginateLines | backend/src/compliance/pdf.renderer.ts:58-65 | The loop cuts lines into full pages and a last one, and gives an empty document one blank line |
| Pdf.PaginateFlatten | backend/src/compliance/pdf.renderer.ts:58-65 | The pages hold the lines in order without loss, at most n to a page, and no page is empty |
| Pdf.BuildObjects | backend/src/compliance/pdf.renderer.ts:14-41 | Placeholders pushed first and resolved later end up as the catalog, page tree, page, content and font objects in their places |
| Pdf.WriteBody | backend/src/compliance/pdf.renderer.ts:43-48 | The recorded offset of every object is the length of the file before it |
| Pdf.WriteFile | backend/src/compliance/pdf.renderer.ts:43-54 | Header, objects, cross-reference table and trailer are written one after the other, with the recorded offsets |
| Pdf.RenderMinimalPdf | backend/src/compliance/pdf.renderer.ts:10-56 | The whole renderer, ending in one byte per character; the file opens through its trailer and reads back |
| Pdf.StartxrefLinks | backend/src/compliance/pdf.renderer.ts:49-55 | The number after startxref, read from the end of the file, is the position of the cross-reference table |
| Pdf.TableLinks | backend/src/compliance/pdf.renderer.ts:50 | The reader finds the head of the table there, the free entry first, with one entry for each object besides |
| Pdf.TrailerLinks | backend/src/compliance/pdf.renderer.ts:54 | Behind the last entry the trailer gives the number of entries and names object 1 as the root, and its startxref is the position of the table |
| Pdf.EntryLinks | backend/src/compliance/pdf.renderer.ts:43-53 | Entry i occupies its own 20 bytes and holds the byte position of object i, as long as offsets fit ten digits |
| Pdf.OpenLinks | backend/src/compliance/pdf.renderer.ts:43-53 | At the position entry i gives, the text is the number i, "0 obj", and the object's content |
| Pdf.KidsLink | backend/src/compliance/pdf.renderer.ts:29-41 | The root is a catalog that names the page tree, whose kids are the pages and as many as it counts |
| Pdf.PageLinks | backend/src/compliance/pdf.renderer.ts:33-39 | Each page names the page tree as its parent and the font object as its font, and its content reference leads to a stream whose stated length is its own |
| Pdf.FileLinks | backend/src/compliance/pdf.renderer.ts:10-56 | Following startxref, table, trailer, catalog, kids, font and contents, each checked against its type, yields exactly the page streams in order |
| Pdf.PdfEscapeIsSinglePass | backend/src/compliance/pdf.renderer.ts:77-79 | The three chained replacements escape each backslash and parenthesis once |
| Pdf.ReadEscaped | backend/src/compliance/pdf.renderer.ts:67-79 | A literal-string reader gets an escaped line back, with ends of line in normal form |
| Pdf.DocumentText | backend/src/compliance/pdf.renderer.ts:10-79 | For single-byte text the shown lines of the file, read back through all links, are the input lines up to the form of ends of line |
| Pdf.DocumentPages | backend/src/compliance/pdf.renderer.ts:10-65 | The reader finds one page for every 56 lines or part of them, and one for no lines |
| Pdf.DocumentRoundTrip | backend/src/compliance/pdf.renderer.ts:10-79 | A reader recovers exactly the input lines if and only if every character is below U+0100 and no carriage return |
| Csv.ExportRows | backend/src/bi/report-exporter.service.ts:70-78 | The nested loops print one escaped record per row, joined by CRLF |
| Csv.ReadFieldOf | backend/src/bi/report-exporter.service.ts:164-170 | Any text, with separators, quotes or line breaks in it, is read back from its printed field |
| Csv.ReadRecordOf | backend/src/bi/report-exporter.service.ts:70-78 | A printed record reads back as its fields, and the reader stops at its end |
| Csv.RowsRoundTrip | backend/src/bi/report-exporter.service.ts:70-78 | A semicolon reader recovers exactly the fields of every printed sequence of data rows |
| Xml.EscapeIsSinglePass | backend/src/treasury/sepa-pain001.ts:86-93 | The five chained replacements equal one pass over the characters |
| Xml.UnescapeEscape | backend/src/treasury/sepa-pain001.ts:86-93 | Escaping has a left inverse |
| Xml.EscapedHasNoMarkup | backend/src/treasury/sepa-pain001.ts:86-93 | Escaped text contains no angle bracket |
| Xml.TokenizeShow | backend/src/treasury/sepa-pain001.ts:30-84 | A tokenizer recovers the tags and texts of any document whose items contain no markup |
| Xml.TokenizeCloses | backend/src/treasury/sepa-pain001.ts:30-84 | Reading starts afresh after a tag's closing bracket, whatever came before that tag |
| XmlReader.EscapedIsCharData | backend/src/treasury/sepa-pain001.ts:86-93 | An escaped field is text a strict XML reader accepts if and only if it holds only characters that XML allows |
| XmlReader.UnclosedRefused | backend/src/treasury/sepa-pain001.ts:72 | A text in which an opening bracket is followed by another before any closing one is refused, whatever else it holds and whatever is open |
| Pain001.EuroRoundTrip | backend/src/treasury/sepa-pain001.ts:30-40 | A printed amount, negative ones included, reads back as the same number of cents |
| Pain001.BodyTexts | backend/src/treasury/sepa-pain001.ts:36-83 | Reading the body by element name gives the texts of the leaves of that name in order, whichever lines it is made of |
| Pain001.BodyCount | backend/src/treasury/sepa-pain001.ts:36-83 | Counting opening tags of a name gives the number of containers of that name, whatever the texts contain |
| Pain001.ControlTotalsAgree | backend/src/treasury/sepa-pain001.ts:30-83 | With an execution date that opens no tag, in the parsed document both control sums equal the sum of the parsed amounts, both counts equal the number of transaction elements and of payments, and the amounts are those of the payments in order, whatever the text fields contain |
| Pain001.ControlTotalsAgreeIff | backend/src/treasury/sepa-pain001.ts:30-83 | To a reader that only splits tags from text, for every execution date the totals agree in that sense if and only if the date, read as markup up to its closing tag, holds none of the elements that carry totals |
| Pain001.MarkupInDateBreaksTotals | backend/src/treasury/sepa-pain001.ts:30-83 | A date that opens a transaction element breaks the totals of every batch that prints it |
| Pain001Reader.DocumentWellFormedIff | backend/src/treasury/sepa-pain001.ts:30-83 | For every batch and every execution date a strict reader, which checks characters, names, attributes, entities and the nesting of tags, gets through the document if and only if every text field holds only characters that XML allows and the date, read up to its closing tag, leaves open exactly what it found open but its own element |
| Pain001Reader.DocumentReadsWellIff | backend/src/treasury/sepa-pain001.ts:30-83 | The document gets through that reader with totals that agree if and only if, besides, the date holds none of the elements that carry totals |
| Pain001Reader.PlainDateReadsWellIff | backend/src/treasury/sepa-pain001.ts:30-83 | For a date without opening brackets: if and only if every field, the date included, holds only characters that XML allows, and the date neither a bare ampersand nor the end of a section |
| Pain001Reader.UnclosedDateRefused | backend/src/treasury/sepa-pain001.ts:72 | A date whose last opening bracket has no closing one, a comment or section just begun included, makes every document that prints it unreadable |
| Pain001Reader.UnreadableDates | backend/src/treasury/sepa-pain001.ts:72 | So in particular do an opened comment, an opened section and an opened tag; and so does a bare ampersand |
| Pain001Message.MessageRoundTripIff | backend/src/treasury/sepa-pain001.ts:30-84 | A reader that goes by the place of every element gets back the whole message - identifiers, time, initiator, debtor, date, and each transfer with its reference, amount, currency, creditor, account, bank and remittance text, with counts and sums that agree - if and only if all fields hold only characters that XML allows and the date needs no escaping |
| Pain001Message.TransferRead | backend/src/treasury/sepa-pain001.ts:36-56 | Each transaction is read back field by field, an absent bank or remittance text as empty |
| Accounting.CreateInvoice | backend/src/accounting/accounting.service.ts:244-293 | The loop computes line totals, VAT line by line without the exempt lines, and their sums |
| Accounting.CreatedInvoiceBills | backend/src/accounting/accounting.service.ts:254-280 | Each line total is the nearest cent to quantity times price, half a cent going away from zero; the subtotal is within half a cent per line of their exact sum; the tax is a sum of nearest cents to the VAT of each line, nothing for exempt ones, and within half a cent per taxed line of the exact VAT; the total is their sum |
| Accounting.BillsOverRuns | backend/src/accounting/accounting.service.ts:244-441 | Over every run the table holds one invoice for each creating request in order, and it bills what was asked for, whatever is posted, queued or accepted in between |
| Accounting.AccountingService.PostManually | backend/src/accounting/accounting.service.ts:191-221 | A manual entry is stored if and only if its totals agree within 0.001 |
| Accounting.ManualStoredIff | backend/src/accounting/accounting.service.ts:191-221 | A manual entry is stored as it is if and only if debits and credits differ by at most 0.001 |
| Accounting.AccountingService.Accept | backend/src/accounting/accounting.service.ts:352-423 | Accepting posts receivable, revenue and VAT and marks the invoice, or leaves everything alone; an accepted invoice is answered without effect |
| Accounting.AccountingService.QueueForSdi | backend/src/accounting/accounting.service.ts:425-441 | Only a draft can be queued |
| Accounting.InvoiceLife | backend/src/accounting/accounting.service.ts:352-441 | Over every run an invoice is accepted if and only if a request to accept it succeeded, is queued at most once and only as a draft, and acceptance is never taken back |
| Accounting.AcceptFailsIff | backend/src/accounting/accounting.service.ts:352-423 | An invoice with consistent totals fails to post if and only if it has negative tax and no split payment |
| Accounting.CreatedInvoiceIsAccepted | backend/src/accounting/accounting.service.ts:244-423 | An invoice created from non-negative quantities, prices and rates is always accepted, with and without split payment |
| Accounting.BooksAgreeOverRuns | backend/src/accounting/accounting.service.ts:352-423 | Over every run each accepted invoice is posted exactly once and no other ever, and the generated receivable, revenue and VAT balances equal the sums over accepted invoices (split payment: base only, no VAT) |
| Accounting.PostingsOverRuns | backend/src/accounting/accounting.service.ts:352-423 | Over every run what the journal holds for each single invoice on receivables, revenue and VAT is what the invoice is worth, nothing before it is accepted |
| Accounting.CentsBalanceExactly | backend/src/accounting/accounting.service.ts:191-221 | A manual entry in whole cents passes the tolerance only if it balances exactly |
| Accounting.DriftOverRuns | backend/src/accounting/accounting.service.ts:191-221 | Over every run total debit and credit drift apart by at most 0.001 per manual entry, and not at all when manual entries are in cents |
| Accounting.RunsFromNewBooks | backend/src/accounting/accounting.service.ts:191-423 | For every run from empty books at once: every invoice bills the quantities, prices and rates it was asked for, each is posted once and for what it is worth, debits and credits drift by at most 0.001 per manual entry, and with inputs that are not negative accepting a known invoice never fails |
| VatLiquidation.IvaLiquidation | backend/src/accounting/accounting.service.ts:471-521 | The running totals and the dictionary by rate are the sums over the taxed lines of the accepted invoices in the period |
| VatLiquidation.ByRateAppend | backend/src/accounting/accounting.service.ts:503-514 | Adding a line to its rate's entry, created when missing, is the grouping of the lines by rate |
| VatLiquidation.LiquidationAgainstInvoices | backend/src/accounting/accounting.service.ts:254-280 | The liquidated VAT differs from the tax on the invoices by at most 0.005 for each taxed line, plus 0.005 |
| VatLiquidation.TaxableAgainstInvoices | backend/src/accounting/accounting.service.ts:495-513 | The liquidated taxable amount is the subtotals of the accepted invoices of the period less their exempt lines |
| VatLiquidation.VatIsItsRate | backend/src/accounting/accounting.service.ts:503-514 | The VAT reported for a rate is that percentage of the taxable amount reported for it |
| VatLiquidation.RatesAddUp | backend/src/accounting/accounting.service.ts:503-514 | The entries of all rates add up to the taxable and unrounded VAT totals |
| VatLiquidation.CountsInItsPeriods | backend/src/accounting/accounting.service.ts:480-502 | An invoice counts in the month it is dated in and in the quarter of that month, and in no other of the year, once it is accepted |
| VatLiquidation.LiquidationAgainstBooks | backend/src/accounting/accounting.service.ts:385-521 | In every period the tax on the accepted invoices is what the journal credits to VAT for them plus the tax of the split-payment ones among them |
| VatLiquidation.WholeLiquidation | backend/src/accounting/accounting.service.ts:385-521 | Over a period covering all accepted invoices, the invoiced tax is the VAT worth of all accepted invoices plus the tax of the split-payment ones |
| VatLiquidation.LiquidationOverRuns | backend/src/accounting/accounting.service.ts:471-521 | For every run from empty books and every period the liquidated VAT is within 0.005 for each taxed line, plus 0.005, of the VAT credited for the invoices of the period plus the tax of the split-payment ones, and the taxable amount is their subtotals less exempt lines |
| VatLiquidation.QuarterIsItsMonths | backend/src/accounting/accounting.service.ts:471-521 | A quarter equals its three months exactly rate by rate and in taxable total, and within 0.02 in the rounded VAT |
| ThreeWayMatch.Aggregate | backend/src/procurement/three-way-match.ts:89-96 | The map holds the accepted quantity of each order line, and no other keys |
| ThreeWayMatch.RunThreeWayMatch | backend/src/procurement/three-way-match.ts:85-167 | The loops report exactly the discrepancies of the specification in order, and matched if and only if the declarative conditions hold |
| ThreeWayMatch.SupplierInvoice.RunMatch | backend/src/procurement/procurement.service.ts:1013-1095 | Only a received invoice is matched; it becomes matched if and only if the declarative conditions hold under the tolerances as given, undefined ones included, and keeps the discrepancies found |
| ThreeWayMatch.MatchedIff | backend/src/procurement/three-way-match.ts:85-167 | No discrepancy exactly when every line has an order line with quantity and price in tolerance and the total is in tolerance |
| ThreeWayMatch.IssueIff | backend/src/procurement/three-way-match.ts:98-167 | A discrepancy is reported if and only if it is that of the total, or a line of that id has just this wrong with it: no order line named, the one named unknown, its quantity or its price outside tolerance |
| ThreeWayMatch.MatchesByDefaultIff | backend/src/procurement/three-way-match.ts:62-87 | Without tolerances of its own a match succeeds if and only if every price is within half a percent and half a cent, every quantity within two percent and a ten-thousandth of what was accepted, and the total within one percent and half a cent, zero agreeing only with zero |
| ThreeWayMatch.ReceiptsMayBeReorderedAndSplit | backend/src/procurement/three-way-match.ts:89-96 | Reordering the receipts and splitting one of them changes no discrepancy |
| ThreeWayMatch.UnrelatedReceipt | backend/src/procurement/three-way-match.ts:89-96 | A receipt for an order line that no invoice line names changes no discrepancy of the lines |
| ThreeWayMatch.WiderTolerancesRemoveIssues | backend/src/procurement/three-way-match.ts:54-70 | Raising any tolerance leaves a subsequence of the discrepancies |
| ThreeWayMatch.ExactInvoiceMatchesIff | backend/src/procurement/procurement.service.ts:1062-1073 | An invoice that agrees exactly with its order lines, its receipts and its total is matched if and only if each tolerance is either given or has only zeros to judge |
| ThreeWayMatch.UndefinedTolerancesDispute | backend/src/procurement/procurement.service.ts:1062-1073 | One piece at one euro, ordered, received and billed: matched under the default tolerances, disputed under three undefined ones |
| ThreeWayMatch.ExpectedTotalRounding | backend/src/procurement/three-way-match.ts:149-153 | The expected total is within half a cent per line of the unrounded one |
| Approvals.PurchaseRequisition.SubmitRequisition | backend/src/procurement/procurement.service.ts:208-218 | Submitting moves a draft to submitted, and on to approved when the chain is empty |
| Approvals.PurchaseRequisition.ApproveRequisition | backend/src/procurement/procurement.service.ts:220-254 | The first pending step is approved; the last one also moves the requisition to approved |
| Approvals.PurchaseRequisition.RejectRequisition | backend/src/procurement/procurement.service.ts:256-270 | Rejecting marks the first pending step and the requisition |
| Approvals.PurchaseRequisition.CancelRequisition | backend/src/procurement/procurement.service.ts:272-277 | Cancelling follows the transition table |
| Approvals.PurchaseRequisition.ConvertRequisitionToPo | backend/src/procurement/procurement.service.ts:279-362 | Only an approved requisition without an order is converted, and it names its order from then on |
| Approvals.NextPending | backend/src/procurement/procurement.service.ts:109-111 | The step found is the first pending one; none is found only if none is pending |
| Approvals.SafeOverRuns | backend/src/procurement/procurement.service.ts:89-362 | Whatever the transition table admits, every reachable requisition has the chain its estimate requires, decided from the front; approved or converted ones have all steps approved or an empty chain with an estimate under 50,000 cents; and each is converted at most once |
| Approvals.CreatedIsSafe | backend/src/procurement/procurement.service.ts:89-103 | A new requisition starts out safe, for every estimate |
| Approvals.BuiltAsRequired | backend/src/procurement/procurement.service.ts:85-107 | The chain of an estimate holds a manager exactly from 50,000 to 500,000 cents, an admin exactly above that, and a founder after the admin exactly above 2,500,000, all pending |
| Approvals.RejectionIsFinal | backend/src/procurement/state-machines/purchase-requisition.fsm.ts:13-27 | Under the service's table a rejected, converted or cancelled requisition never changes again, except to be cancelled |
| Approvals.ApprovalProgress | backend/src/procurement/procurement.service.ts:220-254 | While a chain is open approving succeeds, and the requisition becomes approved exactly with its last step |
| Approvals.ChainRecordsRun | backend/src/procurement/procurement.service.ts:220-270 | Over every run under the service's table the chain holds every decision taken so far, in order and with the user who took it, and nothing else |
| Approvals.RequestSucceedsIff | backend/src/procurement/procurement.service.ts:208-362 | On a reachable requisition submitting succeeds exactly for a draft, approving and rejecting for a submitted one, converting for an approved one, cancelling unless it is converted or cancelled, and each leads to its status and only conversion names an order |
| Approvals.RequisitionLife | backend/src/procurement/procurement.service.ts:89-364 | For every requisition from its creation, under the service's table: it is safe, its chain records every decision with its user, a submitted one can always be approved further, and a rejected, converted or cancelled one stays so up to cancellation |

## Left out

- IEEE floating point: money, quantities and rates are exact, so the error of binary fractions and the database's rounding of amounts with too many decimals are not modelled.
- Production.BomRequests: required times planned is an integer product, so fractional products that the database would round are not modelled.
- Interleavings inside one request: the code has no lock or version column, and the inner inventory transaction is opened separately from the outer one; each request is one atomic, all-or-nothing step here, as its comments intend.
- Tenants: one tenant is modelled, so the tenant filters in every query are not.
- Identifiers: orders, invoices and users are positions in a table, so the generation of ids and unknown-id errors other than "past the end" are not modelled.
- Warehouse order: the list of warehouses is taken as the database returns it, sorted by code.
- Cryptography: hashing is taken to be injective on issued tokens, token ids are never drawn twice, only issued tokens verify, and the expiry of a token is part of the same yes or no.
- Access tokens and the user cache: only refresh tokens and the user record are modelled.
- Sales order totals: the subtotal and tax of a new sales order are not modelled.
- Seed data: rows written directly to the database bypass the engines, for example confirmed orders without a reservation.
- Scheduling.Schedule: dates that do not parse give keys that compare as not-a-number; every key is a number here.
- Iban.ValidateIban: only ASCII letters are upper-cased, so characters whose upper case is an ASCII letter or longer than one character are not modelled.
- Encryption and masking of IBANs.
- Pdf.ReadEscaped: the reader does not interpret octal and named escapes; the renderer writes none, because it escapes every backslash.
- Pdf.EntryLinks: files of ten gigabytes or more, whose offsets do not fit ten digits.
- Csv.RowsRoundTrip: is about data rows, because header names are printed without escaping; the printing of numbers and dates into cells is not modelled.
- Characters outside the basic multilingual plane count as one character everywhere, not as two code units.
- Pain001.ControlTotalsAgreeIff: the timestamp is generated by the service and holds no markup, no ampersand and only characters that XML allows.
- Pain001Reader.DocumentReadsWellIff: the reader refuses comments, CDATA sections, processing instructions and character references in a date even where they are well formed, ends a tag at the first closing bracket even inside quotes, knows only ASCII names and no entities but the five predefined ones, and does not look for repeated attributes or undeclared prefixes.
- VatLiquidation.IvaLiquidation: an invoice date counts by its calendar month, so the last second of a period is not told apart; the parsing of period strings, and rates as keys printed from numbers; a rate is its own key here.
- ThreeWayMatch.RunThreeWayMatch: the figures and messages inside a discrepancy; its kind and invoice line are modelled.
- Approvals.SafeOverRuns: a purchase order created directly for a requisition id, which bypasses the requisition's own methods.
- Quotes, purchase orders, goods receipts, supplier-invoice states, work orders, the chart of accounts, FatturaPA XML, SAML, forecasting, reconciliation, consolidation, document preservation, memberships, dashboards, queues and the HTTP layer: easier state changes or plumbing.
