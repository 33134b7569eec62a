# Order settlement and the category index, verified

A Dafny model of how the shop moves money, codes and recharge commands, and of
the category tree it sells from, with proofs of what the code promises about them.

The database offers only single-document compare-and-set. Every guarantee about
money, codes and recharges is built from guarded status transitions plus
compensation, so the concurrent parts are modelled as state machines whose atomic
steps are exactly those writes, and a statement about `Run` holds for every
interleaving of any number of actors. The loops and in-place updates of the
services are methods of classes over shared documents, proved against functions
and relations whose own properties are lemmas.

## Reading order

| files | what they hold |
|---|---|
| `Basics`, `Forest`, `Slugs` | options and results, parent relations and their root chains, numbered names |
| `CategoryTree`, `CategoryCounts`, `CategoryService`, `CatMigrate` | the stored index, what it must mean, the service that keeps it, the migration that builds it |
| `Orders` | the order document, its atomic writes, the path an order takes |
| `Settlement`, `SettlementSafety`, `SettlementTheorems` | one order under every actor at once: steps, invariant, and what undisturbed runs guarantee |
| `SettlementGuarded`, `SettlementVerdicts`, `SettlementPayments` | invariants of all runs, disturbed or not, and which actors can disturb an on-chain order |
| `SettlementWitnesses`, `SettlementExact` | the disturbed runs of every order of the right kind, and the guarantees with their exact conditions |
| `World` | many orders and placement calls: wallets balance, idempotency keys |
| `Codes`, `CodeService`, `Database` | the code pool, its service, the documents services share |
| `Placement`, `Outcomes`, `OrderService`, `AdminService` | the placement saga and refunds, one operation at a time, and what each leaves behind told over documents, rows and balances |
| `SagaRuns` | those operations as runs of the settlement machine |
| `PoolProtocol`, `PoolSafety` | the pool under concurrent claims, releases, edits and recharge commands |
| `DispatchCodes`, `DispatchRuns` | the pool protocol and the settlement machine taken together, step by step and over whole runs: codes counted as held are rows owned |
| `Bridge`, `BridgeProtocol`, `BridgeOverflow`, `BridgeService` | recharge commands: writes, concurrent protocol, the overflowing pass, leasing and reaper loops |
| `SupplierRetry`, `SupplierService` | re-dispatch of a parked supplier order under several replicas, and the settler's pass over all of them |

## Main results

`SettlementExact` states each guarantee of an order with the exact class of orders that
have it in every run, and a run that breaks it for every order outside the class. An
order is on-chain when a positive total is to come by a USDT transfer, and is otherwise
charged at placement. Its cart decides its path: codes alone, codes and manual lines,
supplier, bridge recharge, or by hand.

- **Money.** Counting refunds in flight, money goes back at most once in every run if and
  only if the order costs nothing, or is charged at placement and not a bridge recharge,
  or is on-chain and made of codes alone or of codes and manual lines. A bridge recharge
  charged at placement has it too, until its placement takes it back after a refused
  command. Once a wallet placement has answered success, every cart included, money is
  back or on its way back exactly while the order is refunded. A reverting refund always
  finds the order refunded, and restores it, if and only if the order costs nothing or is
  charged at placement and not a bridge recharge. Once nobody is at work on a wallet
  order, its charge stands exactly when it should, in every run if and only if it is not a
  bridge recharge. Summed over all orders, a wallet holds what it
  received less what its orders keep.
- **Effects.** The award and notification of a completion happen at most once in every
  run, and an awarded order is never processing again, if and only if the order is charged
  at placement, or on-chain and made of codes alone or of codes and manual lines.
- **Dispatch.** An order is dispatched at most once, unconditionally. When payment calls
  do not overlap and no refund, rejection or completion lands during a dispatch, an
  answered call says NotPayable exactly for a failed order that holds no codes, every later
  call repeats its verdict, and credits and effects are single, wherever expiry sweeps and
  mark-failed land. Without the premise on the other actors the verdicts still hold if and
  only if the dispatch records no codes.
- **Codes.** No row serves two units, recorded lines are whole and final, an order whose
  claims fell short or whose command was refused holds nothing once taken back, commands
  carry their own order's card and share none. From the start of a dispatch on, through
  any joint run of both machines, the codes the settlement machine counts as held are
  exactly the rows the order owns, but for the moments of claiming and giving back; so an
  order answered NotPayable owns no row.
- **Placement.** Without interference a placement changes nothing, or leaves a failed
  order and otherwise nothing, or takes exactly the total and exactly the codes owed.
  When it stores an order, when it fails and with which error are exact; the order is
  stored under the caller's key, and a second call with that key changes nothing and
  answers with it. The modes of the lines decide who is asked, the answer decides the
  status, the references and the money, and every code line shows its own codes, none
  twice. Stock mirrors the pool after every operation.
- **One machine.** A dispatch, an operator's refund, a supplier's rejection and a delivery,
  as the services perform them, are runs of the settlement machine with the same status,
  awards, credits, codes held and answer, for every answer of the outside world.
- **Bridge.** Attempts and leases are bounded, with a run one lease over the limit of a
  pass that breaks the bound; results are recorded once per try, by the lease holder; a
  pass of the reaper equals a one-command function applied to every command.
- **Supplier retries.** With one settler and an unavailable supplier, the k-th call comes
  no earlier than the schedule of k less the bumps of the retry clock missed before it, and
  there are at most 27 calls in a day plus one for each missed bump. A bump is missed when
  it finds the order away from processing. Every run keeps the plain schedule if and only
  if the order cannot be retried at all or has no money that a refund could fail to return;
  otherwise any number of calls can fall in one instant.
- **Categories.** The local rule each write keeps is equivalent to the index being exact
  over the parent relation; create, move and delete keep it; roll-up counts equal
  recursive subtree sums; the migration is idempotent, and builds the index exactly when
  the relation it resolves fits.

## Where the code and its comments disagree

The model follows the code.

- The lifecycle diagram at `api/internal/modules/bridge/model.go:27-32` requeues an expired
  lease only below the attempt limit. The bulk requeue at
  `api/internal/modules/bridge/repository.go:343-352` has no such clause; the limit holds
  only because exhausted leases were failed first, and `BridgeOverflow.OverflowBreaksBound`
  shows what happens past the pass limit.
- The comment at `api/internal/modules/order/service.go:847-849` says a failed dispatch has
  already released the codes and marked the order failed. When the guarded write of codes
  finds the order moved, dispatch answers an error without either; the model marks this
  `overwrote` (on-chain) or `lostDelivery` (placement).
- The comment at `api/internal/modules/order/supplier_settler.go:21-23` repeats the last
  delay until the give-up window. The bump that sets the delay does nothing on an order
  away from processing (`api/internal/modules/order/repository.go:433-443`), so after a
  refund that was reverted the old, overdue clock stands and the next tick calls at once:
  `SupplierRetry.ReopenedCallsAtOnce`.

## Model

| member | source | states |
|---|---|---|
| `CategoryTree.TreeOkIffIndexExact` | api/internal/modules/category/repository.go:198-217 | the rule on each stored node and its parent is equivalent to: no dangling parent, every chain the exact root-to-parent path, depth its length and at most 2, one root domain along every path |
| `CategoryTree.TreeIsAcyclic` | api/internal/modules/category/service.go:231-237 | no node of a stored tree is its own ancestor, at any distance |
| `CategoryTree.SubtreeIsReachability` | api/internal/modules/category/repository.go:223-250 | the chain match of the descendant query equals reflexive-transitive reachability over parent pointers |
| `CategoryTree.MoveKeepsTree` | api/internal/modules/category/service.go:239-277 | an accepted move keeps the whole index exact, keeps the subtree's members, and touches nothing outside it |
| `CategoryTree.MoveReparents` | api/internal/modules/category/service.go:263-275 | the parent relation after a move is the old one with only the moved node's parent changed |
| `CategoryCounts.RollUpIsSubtreeCount` | api/internal/modules/category/service.go:96-121 | adding direct counts along every chain gives each node the recursive sum of its subtree |
| `CategoryService.Service.FindSubtree` | api/internal/modules/category/repository.go:201-217 | returns exactly the subtree, each node once, parents before children |
| `CategoryService.Service.UniqueSiblingSlug` | api/internal/modules/category/service.go:322-350 | terminates within one try per sibling and returns the base or its smallest-numbered suffix no sibling has |
| `CategoryService.Service.Create` | api/internal/modules/category/service.go:139-183 | succeeds exactly when named and the parent exists above the depth cap; the new node's index extends its parent's; a refusal writes nothing |
| `CategoryService.Service.NewChains` | api/internal/modules/category/service.go:243-262 | computes every new chain of the subtree, or refuses exactly when one exceeds the cap |
| `CategoryService.Service.Move` | api/internal/modules/category/service.go:226-277 | succeeds exactly when the target is known, outside the subtree and no chain gets too long; then the tree is the moved tree, otherwise unchanged |
| `CategoryService.Service.Delete` | api/internal/modules/category/service.go:281-302 | removes a node exactly when nothing is below it and no product is assigned; otherwise changes nothing |
| `CategoryService.Service.RollUp` | api/internal/modules/category/service.go:96-108 | the accumulating loop computes, for every node, the sum of the direct counts whose chain passes through it |
| `CategoryService.Service.List` | api/internal/modules/category/service.go:63-122 | has-children flags and counts per listed node: the domain's count for a root, the recursive subtree count for the rest |
| `CatMigrate.WalkExactIffChainFits` | api/cmd/catmigrate/main.go:168-183 | the bounded walk yields the exact root-to-parent chain precisely when that chain has at most 16 entries |
| `CatMigrate.WalkOnCycle` | api/cmd/catmigrate/main.go:168-183 | on a cycle no chain exists and the walk stops at its limit |
| `CatMigrate.MigrateTwice` | api/cmd/catmigrate/main.go:112-165 | on any input a second run leaves parents, chains and depths unchanged |
| `CatMigrate.MigrationBuildsTree` | api/cmd/catmigrate/main.go:112-165 | the result satisfies the category service's invariant exactly when in the resolved relation no parent dangles, no chain is longer than the live tree allows, and one domain runs along every edge |
| `CatMigrate.Migration.MigrateCategories` | api/cmd/catmigrate/main.go:112-165 | an applied run keeps a parent already set, sets a missing one to the node owning the legacy number if there is one, and gives every node the chain that climbs from parent to parent for at most sixteen steps; nothing else changes, and a dry run changes nothing |
| `CatMigrate.AncestorsOf` | api/cmd/catmigrate/main.go:168-183 | the prepending loop computes the bounded walk over the parent relation |
| `CatMigrate.SameAncestors` | api/cmd/catmigrate/main.go:267-277 | the element-wise comparison answers equality |
| `Orders.ResolveOrderMode` | api/internal/modules/order/service.go:490-516 | the flag loop finds the one path that serves the cart: a mode all lines share, codes now for a mix of inventory and manual lines and no others, by hand for every other cart |
| `Orders.RouteServes` | api/internal/modules/order/service.go:459-516 | the path of a cart, told by the modes of its lines alone, exists and is the only one |
| `Settlement.Apply` | api/internal/modules/order/repository.go:343-373 | one atomic step never changes an order's terms, never undoes a charge, credit or award, and moves money at most once |
| `SettlementSafety.RunKeeps` | api/internal/modules/order/repository.go:268-373 | the invariant tying status, charges, credits, awards, codes held and the three locks holds after every run |
| `SettlementTheorems.CalmUnlessLate` | api/internal/modules/order/service.go:766-788 | for an order charged at placement the guarantees of an undisturbed run are lost exactly when a refused, already parked bridge order was moved before its compensation ended |
| `SettlementTheorems.DispatchedOnce` | api/internal/modules/order/service.go:821-836 | without any premise: however many payment calls, refunds, reverts and sweeps, an order is dispatched at most once |
| `SagaRuns.SagaIsRun` | api/internal/modules/order/service.go:459-805 | for every answer of the outside world, a dispatch by the service is a run of the machine's dispatching thread, with the same status, award, codes held and answer, and a credit exactly when a charge is taken back |
| `SagaRuns.RefundIsRun` | api/internal/modules/order/admin.go:268-332 | an operator's refund is a run of the machine: it wins exactly when the service does, and ends paid, unpaid or reverted as the service tells it |
| `SagaRuns.RejectIsRun` | api/internal/modules/order/supplier_settler.go:219-277 | so is the refund of an order the supplier rejected |
| `SagaRuns.AcceptIsRun` | api/internal/modules/order/supplier_settler.go:173-208 | and a completion with what the supplier delivered, down to its one award |
| `SettlementGuarded.RunAlways` | api/internal/modules/order/repository.go:343-373 | the invariant that needs no premise on the run, for orders charged at placement or recorded through the guarded write: one refund and one award at a time, and what each status says of them |
| `SettlementVerdicts.RunAgreed` | api/internal/modules/order/service.go:821-862 | for every on-chain order whose dispatch records no codes, in every run: what payment calls were told, and can still be told, agrees with the status unless calls overlapped |
| `SettlementExact.CalmUnlessTakenBack` | api/internal/modules/order/service.go:766-788 | an order charged at placement has every guarantee of an undisturbed run unless it is a bridge recharge being taken back, or taken back, after a refused command |
| `SettlementExact.CreditsAtMostOnce` | api/internal/modules/order/admin.go:268-332 | credits plus refunds in flight are at most one in every run if and only if the order costs nothing, or is charged at placement and not a bridge recharge, or is on-chain and made of codes alone or of codes and manual lines |
| `SettlementExact.CreditedOnceUnlessTakenBack` | api/internal/modules/order/admin.go:268-332 | any order charged at placement, bridge recharges too, is credited at most once until its placement takes it back |
| `SettlementExact.CreditedIffRefunded` | api/internal/modules/order/supplier_settler.go:219-277 | once a wallet placement has answered success, whatever follows: charged once, never failed, and credited or being credited exactly while refunded |
| `SettlementExact.RevertRestores` | api/internal/modules/order/admin.go:296-309 | for an order charged at placement, unless a bridge recharge is taken back: a reverting refund finds the order still refunded and puts the remembered status back, with nothing credited |
| `SettlementExact.RevertsFindRefunded` | api/internal/modules/order/admin.go:296-309 | in every run every reverting refund finds its order refunded if and only if the order costs nothing, or is charged at placement and not a bridge recharge |
| `SettlementExact.AwardsAtMostOnce` | api/internal/modules/order/bridge_settler.go:29-51 | award and notification fire at most once in every run if and only if the order is charged at placement, or on-chain and made of codes alone or of codes and manual lines |
| `SettlementExact.AwardsAreFinal` | api/internal/modules/order/supplier_settler.go:240-258 | for the same orders and no others, no run has an awarded order pending or processing |
| `SettlementExact.GuardedAwards` | api/internal/modules/order/bridge_settler.go:29-51 | and for them a completed order was awarded, or its one award is being made, in every run |
| `SettlementExact.NeverReprocessed` | api/internal/modules/order/supplier_settler.go:240-258 | once such an order is awarded no continuation brings it back to processing or awards it again |
| `SettlementExact.UnintrudedAwards` | api/internal/modules/order/service.go:821-862 | any on-chain order that nobody moves during its dispatch is awarded and credited at most once, and completed only with its award |
| `SettlementExact.UnintrudedReverts` | api/internal/modules/order/admin.go:296-309 | and its reverting refunds find it still refunded and put the remembered status back |
| `SettlementExact.MoneyAtRest` | api/internal/modules/order/service.go:793-805 | with no thread at work, and unless a refused bridge recharge was taken back, a wallet charge stands exactly when the order is processing, completed, or failed with its charge lost on the way |
| `SettlementExact.BalancedExactly` | api/internal/modules/order/service.go:777-805 | that holds in every run that comes to rest if and only if the wallet order is not a bridge recharge |
| `SettlementExact.PaymentVerdicts` | api/internal/modules/order/service.go:821-862 | payment calls apart and nobody moving the order during its dispatch: one dispatch at most; every answered call says NotPayable exactly for a failed order, which holds no codes, and success exactly for a fulfilled or queued one |
| `SettlementExact.VerdictsAlwaysRight` | api/internal/modules/order/service.go:827-849 | without the premise on other actors, calls apart always answer right if and only if the dispatch records no codes |
| `SettlementExact.RepeatedCall` | api/internal/modules/order/service.go:827-838 | a call made after one has answered gives the same verdict and changes nothing |
| `SettlementPayments.UnintrudedIsCalm` | api/internal/modules/order/service.go:821-862 | an on-chain order is disturbed only by a refund, rejection or completion that lands while its dispatch is in flight |
| `SettlementPayments.SweepsLandAnywhere` | api/internal/modules/order/service.go:867-877 | expiry sweeps, mark-failed, payment calls and bookkeeping alone never disturb an on-chain order, wherever they land |
| `SettlementPayments.IntrusionDisturbs` | api/internal/modules/order/service.go:843-849 | for every on-chain order there is a run of payment calls and steps in which an admin refund, and one in which a completion, lands during the dispatch and is overwritten |
| `SettlementPayments.CallsApartNeverOverlap` | api/internal/modules/order/service.go:827-838 | payment calls that each wait for the one before to answer never read an order another call is dispatching |
| `SettlementWitnesses.LateRecallCreditsTwice` | api/internal/modules/order/service.go:777-787 | every bridge order charged a positive total at placement has a run, refunded between the park and a refused command, that ends with two credits for one charge |
| `SettlementWitnesses.LateRecallAtRest` | api/internal/modules/order/service.go:777-787 | the same run comes to rest with the order failed |
| `SettlementWitnesses.LateRecallBlocksRevert` | api/internal/modules/order/service.go:777-787 | and each such order has one in which a refund about to revert finds the order failed |
| `SettlementWitnesses.FailedDuringDelivery` | api/internal/modules/order/admin.go:397-432 | every order of codes alone, charged a positive total at placement, has a run, marked failed during delivery, that ends failed with its charge and codes kept |
| `SettlementWitnesses.ParkReopens` | api/internal/modules/order/service.go:631-643 | every on-chain order not made of codes has a run, completed by hand before the park, in which an awarded order is processing again |
| `SettlementWitnesses.OverwrittenAwardsTwice` | api/internal/modules/order/service.go:711-726 | and one that awards it twice |
| `SettlementWitnesses.OverwrittenCreditsTwice` | api/internal/modules/order/service.go:711-726 | and one, refunded before and after the park, that credits it twice |
| `SettlementWitnesses.ParkBlocksRevert` | api/internal/modules/order/service.go:711-726 | and one in which a refund about to revert finds the order processing |
| `SettlementWitnesses.FailBlocksRevert` | api/internal/modules/order/service.go:793-805 | every on-chain order made of codes has a run in which a refund about to revert finds it failed by its dispatch |
| `SettlementWitnesses.OverlapSplitsVerdicts` | api/internal/modules/order/service.go:827-849 | every on-chain order not served by hand has a run of two overlapping calls with different verdicts |
| `World.WalletConservation` | api/internal/modules/order/service.go:416-421 | after every history of placements, payments, refunds and deposits, a wallet plus what its orders keep equals what it received |
| `World.WalletAtRest` | api/internal/modules/order/service.go:793-805 | once the wallet orders are at rest, and none was moved while being taken back, a wallet is short of its deposits by exactly the orders whose charge stands |
| `World.OneOrderPerKey` | api/internal/modules/order/service.go:184-394 | over every interleaving, a user's non-empty key names at most one order, debited at most once; every call answered under the key names it; a call that lost the insertion race is answered |
| `World.CallAlone` | api/internal/modules/order/service.go:184-394 | a call no other meets answers a known key with its order, and otherwise inserts the caller's order under the caller's key |
| `Codes.ReleaseUndoesClaims` | api/internal/modules/code/repository.go:649-658 | releasing an order's claims gives the pool back row by row |
| `Codes.ClaimsTakeFromAvailable` | api/internal/modules/code/repository.go:593-612 | what was available is still available or now the order's, with the counts adding up |
| `Codes.MirrorRestores` | api/internal/modules/code/service.go:393-397 | recomputing the products whose availability changed makes every product's stock true again |
| `CodeService.Service.ClaimOne` | api/internal/modules/code/repository.go:593-612 | stamps one available row of the product, or reports none exactly when there is none |
| `CodeService.Service.ClaimForOrder` | api/internal/modules/code/service.go:247-261 | succeeds exactly when enough codes are available, stamping that many; otherwise gives back everything the order held |
| `CodeService.Service.ReleaseForOrder` | api/internal/modules/code/service.go:265-273 | frees the order's codes and recomputes the listed products' stock |
| `CodeService.Service.Upload` | api/internal/modules/code/service.go:52-95 | afterwards the product has its old values and the batch's non-blank ones, each once, each with an entry's pin; blank entries are counted invalid, inserted, duplicate and invalid counts add up; stock is true |
| `CodeService.Service.BulkInsert` | api/internal/modules/code/repository.go:141-187 | inserts the values neither stored nor repeated, leaving old rows alone |
| `CodeService.Service.AddCode` | api/internal/modules/code/service.go:332-345 | adds a row exactly when the value is non-blank and new to the product |
| `CodeService.Service.EditCode` | api/internal/modules/code/service.go:350-367 | edits only an available row into a value no other has; each error exactly in its case |
| `CodeService.Service.DeleteCode` | api/internal/modules/code/service.go:371-383 | removes any row but a delivered one; each error exactly in its case |
| `CodeService.Service.Expire` | api/internal/modules/code/service.go:287-305 | expires an available row found by value, an exact match first and then by its last characters under any folding of case; stock stays true |
| `Placement.PlacedExactly` | api/internal/modules/order/service.go:372-447 | a wallet placement lowers the balance by exactly the total and the shelves by exactly the codes owed on success, and by nothing on failure; releasing its codes would restore the pool |
| `Placement.UndoneCharge` | api/internal/modules/order/service.go:793-805 | taking back a charged order leaves only its failed document |
| `OrderService.Service.Compensate` | api/internal/modules/order/service.go:793-805 | codes released, charge returned to where it came from, order failed |
| `OrderService.Service.ClaimInventoryLines` | api/internal/modules/order/service.go:523-544 | claims a code per unit of every inventory line exactly when the pool covers the cart; otherwise everything is as before and stock is true, whichever line failed |
| `OrderService.Service.FulfillCodes` | api/internal/modules/order/service.go:523-611 | fails exactly when the pool cannot cover the cart, and then is undone; otherwise each inventory line shows as many codes as it asks, each the value of a row of its product delivered to this order and stamped with its customer, no row twice, other lines as placed, the first code mirrored, and the status completed or processing |
| `OrderService.FirstCode` | api/internal/modules/order/service.go:548-555 | the scan finds the first code of the first line that has one |
| `OrderService.Service.FulfillProcessing` | api/internal/modules/order/service.go:631-643 | queues the order with no code and no money moved |
| `OrderService.Service.FulfillApi` | api/internal/modules/order/service.go:681-727 | delivered: completed, awarded, with reference and codes; accepted: queued with the reference; unavailable: queued with the retry clock a minute on; not wired: queued; any other error: undone, the charge back |
| `OrderService.Service.FulfillBridge` | api/internal/modules/order/service.go:736-789 | whatever a supplier would say: parked with one queued command and, for a recharge, one card of the product, which the command carries; by hand when the bridge is off or misconfigured; undone exactly when no card is left or the command is not stored, and with the right error |
| `OrderService.Service.DispatchFulfillment` | api/internal/modules/order/service.go:459-472 | the modes of the lines decide which of these outcomes the order has; it fails exactly when its path must, and then leaves nothing behind |
| `OrderService.Service.CodeNeed` | api/internal/modules/order/service.go:255-257 | the accumulating loop computes the units each product is asked for |
| `OrderService.Service.PlaceOrder` | api/internal/modules/order/service.go:133-447 | stores an order exactly when it passes the gate, is priced, covered by stock and under a free key; the document is the caller's, under the caller's key and with the quoted lines, total and payment; then no change but a failed document, or its exact charge and what its dispatch did; a known key answers with its order and changes nothing; every error in its case |
| `OrderService.PlaceTwice` | api/internal/modules/order/service.go:184-191 | a second call under the key of a stored order stores nothing and answers with that order |
| `OrderService.Service.FulfillPaidOrder` | api/internal/modules/order/service.go:821-862 | NotPayable exactly when the order is then failed, holding no codes; no effect on an order that has left pending |
| `AdminService.Service.DoRefund` | api/internal/modules/order/admin.go:268-332 | refunded with its money back in full in the wallet or at the gateway that has its reference (none through an unconfigured one), refused without change, or, when the money cannot be returned, in its status with both events told |
| `AdminService.Service.RefundBulk` | api/internal/modules/order/admin.go:218-261 | each entry gets its right outcome, a repeated id is a conflict, the count is right, each wallet is up by exactly what was paid back to it, and exactly the gateway charges of the refunded orders are reversed |
| `AdminService.Service.Complete` | api/internal/modules/order/admin.go:339-389 | completes exactly a processing order, awarding it once and moving nothing else |
| `AdminService.Service.MarkFailed` | api/internal/modules/order/admin.go:397-432 | fails exactly a pending order; no money moves |
| `PoolSafety.RunKeeps` | api/internal/modules/code/repository.go:593-658 | the invariant tying rows, order lines and commands holds after every run |
| `PoolSafety.RecordedLineIsWhole` | api/internal/modules/order/service.go:561-611 | a recorded line holds exactly its quantity, each the value of a delivered row of its product stamped with its order |
| `PoolSafety.NoDoubleSell` | api/internal/modules/code/repository.go:593-612 | no row serves two units of any orders or lines, and two units of one product never have the same value |
| `PoolSafety.ShortageReturnsAll` | api/internal/modules/order/service.go:531-535 | an order whose claims fell short or whose command was refused holds nothing once its compensation is through |
| `PoolSafety.CodesHeld` | api/internal/modules/order/service.go:523-611 | once its claims are through an order owns exactly as many rows as it wants, and none before claiming, on a path without codes, or once a compensation is about to fail it |
| `DispatchCodes.DispatchHoldsRows` | api/internal/modules/order/service.go:459-611 | every step of a placement in the pool protocol is matched by steps of the settlement machine after which the codes it counts as held are exactly the rows the order owns |
| `DispatchCodes.OthersKeepRows` | api/internal/modules/code/repository.go:593-658 | other orders, pool edits, devices and operators leave that agreement as it is |
| `DispatchRuns.HeldAreOwned` | api/internal/modules/order/service.go:459-611 | from the start of a dispatch on, in every joint run of the two machines: once the claims are through and unless codes are just being given back, the codes counted as held are exactly the rows the order owns |
| `DispatchRuns.NotPayableOwnsNothing` | api/internal/modules/order/service.go:843-849 | a dispatch that answered NotPayable, its calls apart and nobody moving the order during it, leaves no row with the order |
| `PoolSafety.NoOrphanedCodes` | api/internal/modules/code/repository.go:649-658 | every delivered row serves a unit of its owner, or its owner is giving its codes back |
| `PoolSafety.CommandsAreOwned` | api/internal/modules/order/service.go:766-789 | every command's order has left pending, and a recharge's card is a delivered row of that same order |
| `PoolSafety.NoSharedCards` | api/internal/modules/bridge/repository.go:405-432 | no two commands share an order or a card, whatever is retried or cancelled |
| `PoolSafety.RecordedForGood` | api/internal/modules/order/repository.go:307-336 | once recorded, an order's codes never change and never go back on sale |
| `BridgeProtocol.LeasesBounded` | api/internal/modules/bridge/repository.go:313-356 | over every interleaving of devices, reapers and operators, queued means attempts left, and leases never exceed the maximum for each try, unless a pass overflowed its limit |
| `BridgeOverflow.OverflowBreaksBound` | api/internal/modules/bridge/repository.go:343-352 | for every limit of a pass and every maximum of attempts there is a run, one exhausted lease over the limit, that leases a command past the bound |
| `BridgeProtocol.RecordedOncePerTry` | api/internal/modules/bridge/service.go:161-189 | since its last retry a command has recorded at most one report, and one exactly while it holds a result; success is final, and the bridge completes an order only if one of its commands succeeded |
| `BridgeProtocol.TerminalStays` | api/internal/modules/bridge/repository.go:278-309 | a terminal command and its result stay as they are until an operator retries it |
| `BridgeProtocol.BridgeOnlyCompletes` | api/internal/modules/order/bridge_settler.go:29-68 | through any run in which nobody else writes an order, the bridge leaves its money alone and at most completes it, from processing, because one of its commands succeeded |
| `BridgeService.Service.LeaseNext` | api/internal/modules/bridge/repository.go:242-275 | leases up to the asked number, oldest first, each until its own reading of the clock plus the lease time; fewer only when none is left |
| `BridgeService.Service.Poll` | api/internal/modules/bridge/service.go:147-155 | a device gets between one and three commands, fewer only when none is left |
| `BridgeService.Service.RequeueExpired` | api/internal/modules/bridge/repository.go:313-356 | fails exhausted leases up to the limit, all of them when they fit, and requeues every other expired one |
| `BridgeService.Service.FailStaleQueued` | api/internal/modules/bridge/repository.go:359-384 | fails commands queued before the cutoff up to the limit, all of them when they fit |
| `BridgeService.Reaped` | api/internal/modules/bridge/service.go:307-329 | after a pass a command is neither an expired lease nor stale in the queue, and a terminal one is unchanged |
| `BridgeService.Service.IngestResult` | api/internal/modules/bridge/service.go:161-210 | recorded exactly for the lease holder, acknowledged for a terminal command, a conflict otherwise; the five success codes complete a processing order once, with its reference, any other code fails the command and only notes the order |
| `BridgeService.Service.ReapTick` | api/internal/modules/bridge/service.go:307-329 | within its limits one pass does to every command what Reaped says, and each order gets one note for each of its commands that failed |
| `SupplierRetry.FlaggedOnce` | api/internal/modules/order/repository.go:469-495 | with any number of replicas an order is flagged stuck at most once, and no re-dispatch begun afterwards calls the supplier |
| `SupplierRetry.RetriesOnSchedule` | api/internal/modules/order/supplier_settler.go:283-315 | with one settler and an unavailable supplier, whatever others do to the order: the k-th re-dispatch begins no earlier than the schedule of n = k less the bumps missed before it, 22 + 60 (n - 4) minutes after creation, and none after the give-up window |
| `SupplierRetry.RetriesBounded` | api/internal/modules/order/supplier_settler.go:24-46 | with the default window the supplier is asked again at most 27 times, and once more for each missed bump |
| `SupplierRetry.PunctualUnlessReopened` | api/internal/modules/order/supplier_settler.go:283-315 | unless a refund is reverted after a missed bump, the k-th re-dispatch keeps the plain schedule of k |
| `SupplierRetry.AtMost27Retries` | api/internal/modules/order/supplier_settler.go:24-46 | and with the default window there are at most 27 |
| `SupplierRetry.ReopenedCallsAtOnce` | api/internal/modules/order/repository.go:433-443 | every order that can be retried and has money to send back has, for every n, a run of one settler and an unavailable supplier with n calls in one instant, each bump missed under a refund that is then reverted |
| `SupplierRetry.PunctualExactly` | api/internal/modules/order/supplier_settler.go:283-315 | every run keeps the plain schedule if and only if the order has no supplier line, or no delay ends within its window, or it has no money that a refund could fail to return |
| `SupplierService.VisitSettlesOnce` | api/internal/modules/order/supplier_settler.go:149-343 | one poll or re-dispatch completes an order exactly when it awards, refunds it and pays back exactly what a configured wallet or gateway returns, starts from processing only, and flags stuck at most once and only past the window or without a supplier line |
| `SupplierService.PassSettlesEach` | api/internal/modules/order/supplier_settler.go:126-146 | a pass settles each listed order once, as if it were alone |
| `SupplierService.PassTouchesListed` | api/internal/modules/order/supplier_settler.go:126-146 | a pass leaves every other order as it was |
| `SupplierService.PassPaysExactly` | api/internal/modules/order/supplier_settler.go:219-277 | each wallet is up by exactly the totals of the orders the pass refunds |
| `SupplierService.PassAwardsOnce` | api/internal/modules/order/supplier_settler.go:173-208 | each order the pass completes is awarded once, and no other |
| `SupplierService.Settler.ListBatch` | api/internal/modules/order/repository.go:416-428 | the oldest candidates, none twice, all of them unless the limit is reached |
| `SupplierService.Settler.PollOne` | api/internal/modules/order/supplier_settler.go:149-277 | a processing order is completed and awarded exactly when the check accepts, with the reference and codes on it; refunded exactly when it rejects and the money can go back, and then it has gone back in full; on wait or no answer only flagged, once overdue; an order that has left processing is at most noted |
| `SupplierService.Settler.RedispatchOne` | api/internal/modules/order/supplier_settler.go:283-315 | flagged past the window or without a supplier line; otherwise completed, promoted with its reference, refunded, or tried again in one, five, fifteen or sixty minutes, by the reply |
| `SupplierService.Settler.Tick` | api/internal/modules/order/supplier_settler.go:126-146 | polls a batch of the processing orders the supplier has a reference for, all of them below a hundred, then re-dispatches a batch of those whose clock has run out as they stand after the polls, and nothing else |

## Left out

- HTTP handlers, permissions, audit rows, notifications and loyalty beyond a counter of completions.
- Pricing, KYC, promo codes and field validation: a placement takes their verdict as a parameter; money is in integer cents.
- Wallet, payment gateway, deposit intents and supplier adapters are not part of this model: their answers are parameters of each step.
- Database errors, crashes in mid-operation and clock skew: each document write succeeds atomically; time is shared and monotone in the protocols.
- The derivation of a default mode (product module) is a total function; its exact table is not part of this model.
- Slug text normalisation and the plain field edits of a category update; sibling slugs are unique on create only, as in the code.
- The product half of the category migration: matching products to nodes by text.
- Settlement.Deliver: which codes a delivery writes is modelled in the pool protocol, not in the per-order one, which counts them; `DispatchRuns.HeldAreOwned` ties the count to the rows.
- PoolSafety.RunKeeps: each order has one placement thread in the pool protocol; that an order is dispatched at most once is `SettlementTheorems.DispatchedOnce`.
- The credit target copied onto orders served by hand, the phone number and amount of a recharge command, and the wording of timeline notes.
- Unicode case tables: the suffix lookup of `CodeService.Service.Expire` holds for any folding of characters.
- BridgeService.Service.ReapTick: the development stub that succeeds commands by itself is switched off.
- World.OneOrderPerKey: calls differing in user or key share nothing but the wallet; the cart itself is not compared between calls.
- The retry schedule under several settlers, attempts past the reaper's limit, rejection of a result because its lease time has passed, and one verdict for overlapping payment calls: the guards do not give these.
- Dashboards, revenue series, pagination and upload history.
