# LoanBot, QuickKart and catalogue helpers in Dafny

This project models the small pieces of logic in an ASP.NET teaching
repository and proves what they promise:

- **LoanBot** (`Solutions/Week13`): the eligibility check that annotates every
  loan in the catalogue with a reason decided by the applicant's CIBIL score
  and income, the lookup of a loan by id, and the `Apply` endpoint that hands a
  `LoanApplicationEvent` to RabbitMQ. The consumer side turns each delivered
  event into one `LoanApplication` row. Queues are abstract: a map from queue
  name to the pending payloads. A payload is the decoded body, `Some(event)`,
  or `None` when the body decodes to null.
- **QuickKart** (`Solutions/Week13/QuickKart`): `PlaceOrderHandler` builds an
  order, adds it to the in-memory `OrderRepository`, commits, publishes
  `OrderPlacedEvent` and returns the id. Its effects are returned as a trace.
  `GetOrderByIdHandler` returns the repository's first-match lookup.
- **Product catalogue** (`Week4` `ProductRepository`, `Week5` `ProductService`):
  list operations with first-match get, update and delete, and append-only add.
- **Tax helpers** (`Week7`): three copies of six flat-rate taxes, over `real`.
- **Two controller actions**: the category list in StateMgmtApp's
  `HomeController.List`, and BIWebApp's `DashboardController.GetItems` together
  with its simulated tree.

Files: `wrappers.dfy` (Option), `seqs.dfy` (first-match search, filter,
subsequence, remove-at), `loan_models.dfy`, `loans_api.dfy`,
`loan_broker.dfy`, `quickkart.dfy`, `products.dfy`, `tax.dfy`,
`controllers.dfy`.

Modelling decisions:

- `double` and `decimal` become `real`. `Guid`, `DateTime` and
  database-assigned ids become integers supplied by the caller: the fresh id
  and clock reading for a new order, and the row id for a consumed
  application.
- Collections are immutable sequences. Every mutating operation returns the
  new sequence.
- `DbSet.FindAsync(id)` in `GetById` is modelled as a first-match search of
  the catalogue. In the database the key is unique, so the first match is the
  only match.
- The consumer inserts unconditionally, with no upsert keyed by a business
  id. It consumes with `autoAck: true`, so a message counts as acknowledged
  on delivery, before anything is stored. A repeated delivery stores a
  second row. A failed save loses the message.
- In `PlaceOrderHandler` a failing commit is a parameter. The shipped
  `UnitOfWork.CommitAsync` never fails. If a commit did fail, the order would
  already be in the in-memory list, and no event and no id would follow.
- `Request.Query["category"].ToString()` is modelled on the framework's
  `StringValues.ToString()`. An absent key reads as the empty string and a
  single value as itself. Several values are joined with commas, skipping
  the empty ones.
- `Item`'s fields are the ones `GetItems` initialises (DashboardController.cs:45-47).

## Model

| member | source | states |
|---|---|---|
| LoanModels.SeedLoans | Solutions/Week13/AppDbContext.cs:16-20 | the catalogue configured with `HasData` has three loans with ids 1, 2, 3 |
| LoansApi.ReasonFor | Solutions/Week13/LoansController.cs:40-54 | the reason is the eligible text exactly when score >= 700 and income >= 30000, and the not-eligible text exactly otherwise |
| LoansApi.CheckEligibility | Solutions/Week13/LoansController.cs:32-59 | one result per catalogue loan, in catalogue order, each carrying its loan unchanged; eligible text iff both inclusive thresholds hold, not-eligible text iff either fails |
| LoansApi.UniformReason | Solutions/Week13/LoansController.cs:38-56 | the decision depends on the profile only, so any two results of one response share their reason |
| LoansApi.ResultsCarryProfileReason | Solutions/Week13/laonbotapi.cs:202-222 | every result in the response carries the profile's reason and a loan from the catalogue |
| LoansApi.ThresholdBoundaries | Solutions/Week13/laonbotapi.cs:204-219 | score 700 with income 30000 is eligible (inclusive); 750/29999 and 650/40000 are not (both thresholds required); 720/40000 is |
| LoansApi.SeedCatalogueResults | Solutions/Week13/laonbotapi.cs:69-73 | against the configured seed loans any profile gets exactly three results, for loans 1, 2, 3 in order |
| LoansApi.GetById | Solutions/Week13/LoansController.cs:25-30 | NotFound iff no loan has the id; otherwise a catalogue loan with that id |
| LoansApi.Apply | Solutions/Week13/LoansController.cs:61-66 | the event is enqueued once, unchanged, on the queue the consumer reads; other queues are untouched; the status text is always the same |
| LoanBroker.Declare | Solutions/Week13/RabbitMQPublisher.cs:19 | declaring creates the queue empty if absent and leaves an existing queue and its messages alone |
| LoanBroker.DeclareIdempotent | Solutions/Week13/RabbitMQPublisher.cs:45 | declaring the queue again, as the consumer does, is the same as declaring it once |
| LoanBroker.BasicPublish | Solutions/Week13/RabbitMQPublisher.cs:26 | the default exchange appends the payload to the queue named by the routing key and drops it when no such queue exists |
| LoanBroker.NewPublisher | Solutions/Week13/RabbitMQPublisher.cs:14-20 | after constructing a publisher the queue it publishes to exists, empty if it was new; every queue already declared keeps its pending messages |
| LoanBroker.Publish | Solutions/Week13/RabbitMQPublisher.cs:22-27 | exactly one message carrying the given event is appended to "loan_applications"; earlier messages and other queues are unchanged |
| LoanBroker.StartConsumer | Solutions/Week13/RabbitMQPublisher.cs:45 | starting the consumer declares the queue it then consumes from, empty if it was new, keeping every queue already declared and its messages |
| LoanBroker.ConsumerSeesPublished | Solutions/Week13/laonbotapi.cs:99-158 | whether the consumer starts before or after the publisher, an event published through a new publisher is pending on the queue the consumer declared and consumes |
| LoanBroker.PublishReachesConsumer | Solutions/Week13/RabbitMQPublisher.cs:14-70 | an event published through a new publisher becomes pending on the queue the consumer subscribes to, adding exactly one payload |
| LoanBroker.Receive | Solutions/Week13/RabbitMQPublisher.cs:48-70 | each delivery is acknowledged; a null payload or failed save stores nothing; otherwise exactly one row is appended that copies Applicant, LoanType, Bank and Timestamp and takes its id from the store; earlier rows are unchanged |
| LoanBroker.ConsumeAllAccounting | Solutions/Week13/RabbitMQPublisher.cs:64-70 | over any run of deliveries all are acknowledged, the store grows by the number of saved non-null events, and earlier rows are never changed |
| LoanBroker.NullPayloadPersistsNothing | Solutions/Week13/laonbotapi.cs:137-139 | a null decode result persists nothing but is still acknowledged |
| LoanBroker.RedeliveryDuplicates | Solutions/Week13/laonbotapi.cs:144-153 | the same event delivered twice yields two rows that both copy it: the handler is not idempotent |
| LoanBroker.AckedEvenWhenSaveFails | Solutions/Week13/laonbotapi.cs:158 | with auto-ack a message is acknowledged even when its save fails, and nothing is stored |
| OrderRepository.AddAsync | Solutions/Week13/QuickKart/Infrastructure/Repositories/OrderRepository.cs:8-11 | appends at the end: length grows by one and earlier orders are unchanged |
| OrderRepository.GetByIdAsync | Solutions/Week13/QuickKart/Infrastructure/Repositories/OrderRepository.cs:13-15 | null iff no stored order has the id; otherwise the earliest stored order with that id |
| OrderRepository.AddThenGetFresh | Solutions/Week13/QuickKart/Infrastructure/Repositories/OrderRepository.cs:8-15 | after adding an order with an id not yet present, looking that id up returns the order |
| OrderRepository.AddKeepsExistingLookup | Solutions/Week13/QuickKart/Infrastructure/Repositories/OrderRepository.cs:9-14 | adding never changes the lookup of an id already present, even when the new order repeats it, because lookup is first-match |
| OrderHandlers.PlaceOrder | Solutions/Week13/QuickKart/Commands/PlaceOrderHandler.cs:18-29 | the order has the command's customer and items and the fresh id; it is added first and the repository grows by one with earlier orders untouched; on commit the trace is Add, Commit, one OrderPlacedEvent with that id, and the id is returned; a failed commit truncates the trace after Add and returns nothing; no publish precedes the commit |
| OrderHandlers.ShippedPlaceOrderSucceeds | Solutions/Week13/QuickKart/Infrastructure/Repositories/UnitOfWork.cs:5 | with the shipped unit of work, which never fails, placing an order returns its id and publishes exactly one event carrying it |
| OrderHandlers.GetOrderById | Solutions/Week13/QuickKart/Queries/GetOrderByIdHandler.cs:13-15 | exactly the repository's lookup for the query's id: null iff no stored order has it, otherwise the earliest stored order with it |
| OrderHandlers.PlaceThenQuery | Solutions/Week13/QuickKart/Queries/GetOrderByIdHandler.cs:13-15 | querying the id returned by a successful placement, with a fresh id, yields the placed order with the command's contents |
| ProductRepository.InitialProducts | Solutions/Week4/ECommerceSolution/ViewOnlyWebApp/Repositories/ProductRepository.cs:8-14 | the initial list has three products, ids 1, 2, 3, all available |
| ProductRepository.GetAllProducts | Solutions/Week4/ECommerceSolution/ViewOnlyWebApp/Repositories/ProductRepository.cs:15-18 | the current list as stored |
| ProductRepository.GetProductById | Solutions/Week4/ECommerceSolution/ViewOnlyWebApp/Repositories/ProductRepository.cs:19-22 | null iff no product has the id; otherwise the earliest listed product with that id |
| ProductRepository.AddProduct | Solutions/Week4/ECommerceSolution/ViewOnlyWebApp/Repositories/ProductRepository.cs:23-26 | appends with no duplicate-id check; earlier entries unchanged |
| ProductRepository.UpdateProduct | Solutions/Week4/ECommerceSolution/ViewOnlyWebApp/Repositories/ProductRepository.cs:27-39 | on a present id the first match takes name, description, price, category, image and availability from the argument and keeps its id; every other entry and the length are unchanged; an absent id changes nothing |
| ProductRepository.DeleteProduct | Solutions/Week4/ECommerceSolution/ViewOnlyWebApp/Repositories/ProductRepository.cs:40-47 | on a present id only the first match is removed, the rest keep their order, and the multiset loses exactly that product; an absent id changes nothing |
| ProductRepository.DeleteUndoesAdd | Solutions/Week4/ECommerceSolution/ViewOnlyWebApp/Repositories/ProductRepository.cs:23-47 | deleting the id of a product just added under a fresh id restores the list |
| ProductRepository.UpdateThenGet | Solutions/Week4/ECommerceSolution/ViewOnlyWebApp/Repositories/ProductRepository.cs:27-38 | after updating a present id, looking it up yields a product equal to the argument |
| ProductRepository.AddKeepsLookup | Solutions/Week4/ECommerceSolution/ViewOnlyWebApp/Repositories/ProductRepository.cs:19-26 | adding never changes the lookup of an id already present |
| ProductService.AddProduct | Solutions/Week5/ECommerceSolution/ViewOnlyWebApp/Services/ProductService.cs:13-17 | exactly the repository's add: the product is appended |
| ProductService.DeleteProduct | Solutions/Week5/ECommerceSolution/ViewOnlyWebApp/Services/ProductService.cs:19-23 | exactly the repository's delete; the list is unchanged iff no product has the id |
| ProductService.GetAllProducts | Solutions/Week5/ECommerceSolution/ViewOnlyWebApp/Services/ProductService.cs:25-29 | the repository's list, as stored |
| ProductService.GetProductById | Solutions/Week5/ECommerceSolution/ViewOnlyWebApp/Services/ProductService.cs:31-35 | the repository's first-match result |
| ProductService.UpdateProduct | Solutions/Week5/ECommerceSolution/ViewOnlyWebApp/Services/ProductService.cs:37-41 | exactly the repository's update, which keeps the length |
| TaxManager.CalculateIncomeTax | Solutions/Week7/Saturday/Week7Solution/AsyncApp/Helpers/TaxManager.cs:22-27 | the tax is one fifth of the income; between 0 and the income for non-negative income; negative for negative income |
| TaxManager.CalculateSalesTax | Solutions/Week7/Saturday/Week7Solution/AsyncApp/Helpers/TaxManager.cs:28-32 | the tax is 7/100 of the amount; within [0, amount] for non-negative amounts; negative for negative amounts |
| TaxManager.CalculatePropertyTax | Solutions/Week7/Saturday/Week7Solution/AsyncApp/Helpers/TaxManager.cs:33-37 | the tax is 15/1000 of the value; within [0, value] for non-negative values; negative for negative values |
| TaxManager.CalculateCapitalGainsTax | Solutions/Week7/Saturday/Week7Solution/AsyncApp/Helpers/TaxManager.cs:39-43 | the tax is 3/20 of the gains; within [0, gains] for non-negative gains; negative for negative gains |
| TaxManager.CalculateCorporateTax | Solutions/Week7/Saturday/Week7Solution/AsyncApp/Helpers/TaxManager.cs:44-48 | the tax is a quarter of the income; within [0, income] for non-negative income; negative for negative income |
| TaxManager.CalculateWealthTax | Solutions/Week7/Saturday/Week7Solution/AsyncApp/Helpers/TaxManager.cs:50-54 | the tax is 1/100 of the net worth; within [0, net worth] for non-negative net worth; negative for negative net worth |
| TaxManager.TaxesAreLinear | Solutions/Week7/Saturday/Week7Solution/AsyncApp/Helpers/TaxManager.cs:22-54 | every tax of a sum is the sum of the taxes |
| TaxManager2.CalculateIncomeTax | Solutions/Week7/Saturday/Week7Solution/AsyncApp2/Helpers/TaxManager.cs:16-21 | agrees with AsyncApp's income tax at every income |
| TaxManager2.CalculateSalesTax | Solutions/Week7/Saturday/Week7Solution/AsyncApp2/Helpers/TaxManager.cs:22-26 | agrees with AsyncApp's sales tax at every amount |
| TaxManager2.CalculatePropertyTax | Solutions/Week7/Saturday/Week7Solution/AsyncApp2/Helpers/TaxManager.cs:27-31 | agrees with AsyncApp's property tax at every value |
| TaxManager2.CalculateCapitalGainsTax | Solutions/Week7/Saturday/Week7Solution/AsyncApp2/Helpers/TaxManager.cs:33-37 | agrees with AsyncApp's capital-gains tax at every amount |
| TaxManager2.CalculateCorporateTax | Solutions/Week7/Saturday/Week7Solution/AsyncApp2/Helpers/TaxManager.cs:38-42 | agrees with AsyncApp's corporate tax at every income |
| TaxManager2.CalculateWealthTax | Solutions/Week7/Saturday/Week7Solution/AsyncApp2/Helpers/TaxManager.cs:44-48 | agrees with AsyncApp's wealth tax at every net worth |
| TaxDeduction.GetAdharID | Solutions/Week7/Saturday/WeekSolution_Sunday/AsynAwaitDemoApp/Helpers/TaxDeductionManager.cs:17-29 | the completed value is a 14-character id with dashes at positions 4 and 9 |
| TaxDeduction.AdharIgnoresPan | Solutions/Week7/Saturday/WeekSolution_Sunday/AsynAwaitDemoApp/Helpers/TaxDeductionManager.cs:27-28 | every PAN yields the same id, "1234-5678-9101" |
| TaxDeduction.CalculateIncomeTax | Solutions/Week7/Saturday/WeekSolution_Sunday/AsynAwaitDemoApp/Helpers/TaxDeductionManager.cs:30-40 | the completed value agrees with AsyncApp's income tax, one fifth of the income |
| TaxDeduction.GetAllAvailableProducts | Solutions/Week7/Saturday/WeekSolution_Sunday/AsynAwaitDemoApp/Helpers/TaxDeductionManager.cs:42-57 | the completed value has three products with ids 1, 2, 3, all in stock |
| TaxDeduction.CalculateSalesTax | Solutions/Week7/Saturday/WeekSolution_Sunday/AsynAwaitDemoApp/Helpers/TaxDeductionManager.cs:81-85 | agrees with AsyncApp's sales tax, 7/100 of the amount |
| TaxDeduction.CalculatePropertyTax | Solutions/Week7/Saturday/WeekSolution_Sunday/AsynAwaitDemoApp/Helpers/TaxDeductionManager.cs:86-90 | agrees with AsyncApp's property tax, 15/1000 of the value |
| TaxDeduction.CalculateCapitalGainsTax | Solutions/Week7/Saturday/WeekSolution_Sunday/AsynAwaitDemoApp/Helpers/TaxDeductionManager.cs:92-96 | agrees with AsyncApp's capital-gains tax, 3/20 of the gains |
| TaxDeduction.CalculateCorporateTax | Solutions/Week7/Saturday/WeekSolution_Sunday/AsynAwaitDemoApp/Helpers/TaxDeductionManager.cs:97-101 | agrees with AsyncApp's corporate tax, a quarter of the income |
| TaxDeduction.CalculateWealthTax | Solutions/Week7/Saturday/WeekSolution_Sunday/AsynAwaitDemoApp/Helpers/TaxDeductionManager.cs:103-107 | agrees with AsyncApp's wealth tax, 1/100 of the net worth |
| CategoryList.QueryText | Solutions/Week14/StateMgmtWebSolution/StateMgmtApp/Controllers/HomeController.cs:45 | the text is empty iff every value is empty (including no values); a single value reads as itself; a single non-empty value among empty ones reads as that value; two or more non-empty values give a text that starts with the first non-empty value followed by a comma, so it names neither category |
| CategoryList.List | Solutions/Week14/StateMgmtWebSolution/StateMgmtApp/Controllers/HomeController.cs:42-68 | the error view with "Category is required" iff the category is empty or missing; exactly "flowers" gives the three flowers and exactly "fruits" the three fruits; any other category gives an empty list |
| CategoryList.ListEdgeCases | Solutions/Week14/StateMgmtWebSolution/StateMgmtApp/Controllers/HomeController.cs:46-66 | "flowers" and "fruits" give their three items in order; "Flowers" and two categories give an empty list; an empty value beside "flowers" still gives the flowers; missing, empty or all-empty values give the error |
| Dashboard.SimulatedTree | Solutions/Week7/Saturday/WeekSolution_Sunday/BIWebApp/Controllers/DashboardController.cs:14-19 | the simulated tree has three nodes, and id 2 occurs twice |
| Dashboard.GetItems | Solutions/Week7/Saturday/WeekSolution_Sunday/BIWebApp/Controllers/DashboardController.cs:39-52 | every returned item has node id 2 and comes from the fixed list, and every fixed item under node 2 is returned |
| Dashboard.GetItemsIgnoresArgument | Solutions/Week7/Saturday/WeekSolution_Sunday/BIWebApp/Controllers/DashboardController.cs:41-50 | the result does not depend on the argument, is exactly [Mango], and is an order-preserving subsequence of the fixed list |
| Dashboard.GetItemsForNode | Solutions/Week7/Saturday/WeekSolution_Sunday/BIWebApp/Controllers/DashboardController.cs:36-38 | the items under the requested node, as the action's comment describes: every fixed item with that node id and nothing else |
| Dashboard.GetItemsWrongForNodeOne | Solutions/Week7/Saturday/WeekSolution_Sunday/BIWebApp/Controllers/DashboardController.cs:41 | asking for node 1 returns Mango, while the items under node 1 are Gerbera and Rose |
| Dashboard.GetItemsForNodeAgreesAtTwo | Solutions/Week7/Saturday/WeekSolution_Sunday/BIWebApp/Controllers/DashboardController.cs:41-50 | the shipped and the corrected action agree exactly when the requested node is 2 |

## Left out

- RabbitMQ connections, channels, JSON serialisation and UTF-8 encoding are not modelled. A queue holds decoded payloads. A body that fails to parse raises inside the handler; it is already acknowledged, so it is lost like a null one, but that path is not a separate case in the model.
- Delivery order and delivery guarantees are not claimed. The consumer is given the deliveries as a sequence.
- LoanBroker.Receive: when `SaveChanges` fails, the model stores nothing. With the long-lived context of the console consumer, the unsaved row stays tracked and could be written by a later save. Change tracking is not modelled.
- The two consumer variants (console and hosted service) differ only in how they obtain the store and in their lifetime. Both are modelled by one handler. The hosted service's background task and cancellation are not modelled.
- MediatR's handler lookup and notification dispatch are not modelled. `PlaceOrder` records the publish as an effect. The `OutboxSimulator` subscriber only writes to the console.
- EF Core, the in-memory database provider and `SaveChanges` are not modelled. The stores are sequences. Commit success and the assigned ids are parameters.
- Products and orders are values. In C# the lists hold references: a product object added twice would be changed through both entries by one update, and a caller could change a stored product through the reference `GetProductById` returns. The model treats every entry as an independent value.
- `GetAll` in `LoansController` returns the catalogue as stored and is not a separate member.
- The `LoansController` constructor creates a `RabbitMQPublisher` on every request (LoansController.cs:16-20), so `GetAll`, `GetById` and `CheckEligibility` also connect and declare the queue, and throw when the broker is unreachable. The model gives these three actions no broker effect; only `Apply` declares and publishes.
- `Task.Delay`, `Thread.Sleep`, `ParallelBackgroundTasks` and the other async and threading demos are not modelled. The async tax, Aadhaar and product members are modelled by the values they complete with.
- `decimal` rounding beyond 28 digits, `OverflowException` and `double` NaN are not modelled, since amounts are `real`.
- Views, cookies, session, caching, DataAnnotations validation and `ModelState` are not modelled.
- LoanModels.SeedLoans: this is the catalogue `HasData` configures. EF Core inserts `HasData` rows only through `EnsureCreated` or migrations, and neither Program.cs calls either (Week13/Program.cs:7-8, laonbotapi.cs:241-242). So with the in-memory provider the running app's `Loans` table may start empty. The model does not decide this; `SeedCatalogueResults` is about the configured catalogue.

## Findings

| source | as written | input that shows it | evidently intended | confidence | as-written member | corrected member |
|---|---|---|---|---|---|---|
| Solutions/Week7/Saturday/WeekSolution_Sunday/BIWebApp/Controllers/DashboardController.cs:41 | `nodeId` is overwritten with 2 before the filter, so every request gets the items of node 2 | `GetItems(1)` returns [Mango] instead of [Gerbera, Rose] | return the items whose node id is the requested one, as the comment on the action says | medium, not executed | Dashboard.GetItemsWrongForNodeOne | Dashboard.GetItemsForNode |
