# Design-pattern demonstrations, modelled and verified in Dafny

This project models the demonstration programs of a Java design-pattern
collection. Each program shows one pattern on a small domain:

- **Creational:** a database connection pool and a generic object pool, two
  factories, and a builder.
- **Structural:** a caching proxy, a lazily loading image proxy, a composite
  file system, coffee and pizza decorators, and a multimedia facade.
- **Behavioural:** three chains of responsibility (ATM, vending machine,
  customer support), two state machines (vending machine, traffic light),
  two iterators, a chat mediator, three observers, a visitor and two null
  objects.

There is one Dafny module per Java source file, in a flat `.dfy` file of
the same theme. `common.dfy` (module `Common`) holds the vocabulary they
share:

- Java's nullable reference is `Option`; a thrown exception is the `Err`
  arm of `Result`.
- `List.remove(Object)` is `RemoveFirst`.
- `toLowerCase`, `toUpperCase` and `equalsIgnoreCase` are ASCII case
  folding.
- Java `int` arithmetic is `Wrap32`, the low 32 bits as a signed value.

How a source file is modelled depends on what it does:

- **Objects that update their own fields** (pools, proxies, contexts,
  observers, iterators, directories) are Dafny classes with those fields.
  Each method's postcondition ties the new state and the result to a pure
  step function over a state value. The step functions carry the lemmas:
  conservation, invariants kept, at-most-once, round trips and the
  demonstration traces.
- **Code that only computes** (handler chains, factories, decorators, the
  facade, null-object lookups) is datatypes and functions, with lemmas
  relating them to an independent statement of what they do.
- **Loops** (the visitor's total, the mediator's broadcast, the observers'
  notification, the customer lookup, iterator traversals) are methods with
  loop invariants, proved against the specification functions.
- **Printed lines** are the model's output: a datatype per kind of line,
  or the exact string where the program's control flow depends on it.

The model follows the code, including where an idealised version of a
pattern would behave differently:

- `ConnectionPool.releaseConnection` accepts handles it never handed out,
  and the same handle twice. It always appends to the available list.
- The pool's ceiling of three is checked against the used list only, and
  only when no connection is available. A larger initial seed is
  therefore never rejected.
- `ExtraDarkLatte` appends ", Extra Choclate", the chocolate decorator's
  text, and costs 3.0.
- The observer demos notify every registered display or customer,
  including the ones their comments omit.

## Model

| member | source | states |
|---|---|---|
| DataBaseConnectionPool.GetConnectionOutcomes | src/CreationalDesignPattern/ObjectPoolDesignPattern/DataBaseConnectionPool.java:78-90 | reuse takes the last available handle into used; with none available and fewer than three used a new handle is created into used; otherwise the call fails and nothing changes |
| DataBaseConnectionPool.GetConnectionConserves | src/CreationalDesignPattern/ObjectPoolDesignPattern/DataBaseConnectionPool.java:78-90 | getConnection never loses or duplicates a handle: reuse moves one, creation adds exactly the returned one |
| DataBaseConnectionPool.CreatedConnectionIsFresh | src/CreationalDesignPattern/ObjectPoolDesignPattern/DataBaseConnectionPool.java:36-41 | a created connection's id is the pre-incremented counter, larger than every id issued before, so distinct from every pooled handle |
| DataBaseConnectionPool.CreationRespectsCeiling | src/CreationalDesignPattern/ObjectPoolDesignPattern/DataBaseConnectionPool.java:79-83 | a connection is created only while fewer than three are in use, so creation never takes used above three |
| DataBaseConnectionPool.ReleaseConserves | src/CreationalDesignPattern/ObjectPoolDesignPattern/DataBaseConnectionPool.java:92-95 | release removes one copy from used if present and always appends to available |
| DataBaseConnectionPool.DoubleReleaseHandsOutTwice | src/CreationalDesignPattern/ObjectPoolDesignPattern/DataBaseConnectionPool.java:92-95 | releasing a handle twice makes the next two getConnection calls both return it |
| DataBaseConnectionPool.GetConnectionKeepsInvariant | src/CreationalDesignPattern/ObjectPoolDesignPattern/DataBaseConnectionPool.java:78-90 | getConnection keeps: each handle pooled once, every id issued, total bounded |
| DataBaseConnectionPool.ReleaseInUseKeepsInvariant | src/CreationalDesignPattern/ObjectPoolDesignPattern/DataBaseConnectionPool.java:92-95 | releasing a handle that is in use keeps the same invariant |
| DataBaseConnectionPool.DoubleReleaseBreaksInvariant | src/CreationalDesignPattern/ObjectPoolDesignPattern/DataBaseConnectionPool.java:92-95 | a second release of a handle held once pools it one more time than before |
| DataBaseConnectionPool.ExhaustionScenario | src/CreationalDesignPattern/ObjectPoolDesignPattern/DataBaseConnectionPool.java:78-95 | seeded with 1 and 2: LIFO gives 2, then 1, creates 3, then fails; a released 2 is handed out next |
| DataBaseConnectionPool.ConnectionIdCounter.NewConnection | src/CreationalDesignPattern/ObjectPoolDesignPattern/DataBaseConnectionPool.java:39-41 | the id is the counter after incrementing it |
| DataBaseConnectionPool.ConnectionPool.GetConnection | src/CreationalDesignPattern/ObjectPoolDesignPattern/DataBaseConnectionPool.java:78-90 | the pool's lists, the counter and the result follow the getConnection step |
| DataBaseConnectionPool.ConnectionPool.ReleaseConnection | src/CreationalDesignPattern/ObjectPoolDesignPattern/DataBaseConnectionPool.java:92-95 | the pool's lists follow the release step |
| DataBaseConnectionPool.ConnectionPool.GetAvailableConnectionsCount | src/CreationalDesignPattern/ObjectPoolDesignPattern/DataBaseConnectionPool.java:97-99 | returns the number of available handles and changes nothing |
| DataBaseConnectionPool.ConnectionPoolRegistry.GetInstance | src/CreationalDesignPattern/ObjectPoolDesignPattern/DataBaseConnectionPool.java:71-76 | the first call builds the pool over its argument; later calls return that pool and ignore their argument |
| DataBaseConnectionPool.DataBaseConnectionPoolDemo | src/CreationalDesignPattern/ObjectPoolDesignPattern/DataBaseConnectionPool.java:7-31 | the printed available counts are 0, 1, 0 and the third connection is the released first one |
| CachingProxy.HitDoesNotCallService | src/StructutalDesignPattern/ProxyDesignPattern/Cacheing.java:41-49 | a cached key returns the stored list and leaves the backing count unchanged |
| CachingProxy.MissCallsServiceOnce | src/StructutalDesignPattern/ProxyDesignPattern/Cacheing.java:41-49 | a miss calls the backing service once; a known key is stored and returned, an unknown key fails and stays uncached |
| CachingProxy.GetUsersKeepsInvariant | src/StructutalDesignPattern/ProxyDesignPattern/Cacheing.java:40-50 | one call keeps the cache invariant: count equals fetches, cached keys fetched once and equal to the backing table |
| CachingProxy.RunKeepsInvariant | src/StructutalDesignPattern/ProxyDesignPattern/Cacheing.java:40-50 | every sequence of calls keeps that invariant |
| CachingProxy.AtMostOncePerCachedKey | src/StructutalDesignPattern/ProxyDesignPattern/Cacheing.java:43-46 | from a new proxy, each cached key was fetched exactly once and the count grew by the number of fetches |
| CachingProxy.RunKeepsEntries | src/StructutalDesignPattern/ProxyDesignPattern/Cacheing.java:43-46 | cache entries are never overwritten or removed |
| CachingProxy.RunCachesKnownKeys | src/StructutalDesignPattern/ProxyDesignPattern/Cacheing.java:43-46 | every requested key the backing table knows ends up cached |
| CachingProxy.RetryAfterFailure | src/StructutalDesignPattern/ProxyDesignPattern/Cacheing.java:20-45 | a key unknown to the backing table is never cached, so each request calls the service again |
| CachingProxy.DemoAccessCount | src/StructutalDesignPattern/ProxyDesignPattern/Cacheing.java:63-68 | us, us, en, en leaves the access count at 2 |
| CachingProxy.UserServiceImpl.GetUsers | src/StructutalDesignPattern/ProxyDesignPattern/Cacheing.java:19-22 | every call is counted and returns the mapped list or null |
| CachingProxy.CachingUserServiceProxy.GetUsers | src/StructutalDesignPattern/ProxyDesignPattern/Cacheing.java:40-50 | serves every call, whoever else uses the backing service: cache, backing count and result follow the getUsers step; cached lists stay the backing table's, and while the proxy is the service's only client the call accounting is kept too |
| CachingProxy.CachingUserServiceProxy.GetAccessCount | src/StructutalDesignPattern/ProxyDesignPattern/Cacheing.java:53-55 | the proxy's count is the backing service's count |
| CachingProxy.SharedServiceStillServed | src/StructutalDesignPattern/ProxyDesignPattern/Cacheing.java:35-50 | after a direct call on the shared backing service the proxy still returns the us list, and the count is 2 |
| CachingProxy.CacheingDemo | src/StructutalDesignPattern/ProxyDesignPattern/Cacheing.java:60-69 | the four fetches return the us and en lists twice each and the count is 2 |
| SimpleObjectPool.ObjectPool.constructor | src/CreationalDesignPattern/ObjectPoolDesignPattern/SimpleGenericObject.java:25-32 | the pool starts with two distinct new objects |
| SimpleObjectPool.ObjectPool.GetObject | src/CreationalDesignPattern/ObjectPoolDesignPattern/SimpleGenericObject.java:35-41 | a non-empty pool hands out its front object; an empty pool hands out a new object and stays empty |
| SimpleObjectPool.ObjectPool.ReleaseObject | src/CreationalDesignPattern/ObjectPoolDesignPattern/SimpleGenericObject.java:44-46 | appends without bound or membership check |
| SimpleObjectPool.SimpleGenericObjectDemo | src/CreationalDesignPattern/ObjectPoolDesignPattern/SimpleGenericObject.java:8-19 | the two objects taken, released in order and taken again come back in the same order |
| SimpleObjectPool.ReleaseAllThenTakeAll | src/CreationalDesignPattern/ObjectPoolDesignPattern/SimpleGenericObject.java:35-46 | objects released into an empty pool come out in release order (FIFO) |
| AtmDispenseChain.JavaRem10 | src/BehaviouralDesignPattern/ChainOfResponsibilty/ATMDispenseChain.java:106 | Java's `amount % 10` takes the dividend's sign: it equals the Euclidean remainder for non-negative amounts, lies in (-10, 0] and differs from the amount by a multiple of 10 for negative ones, and is zero exactly for multiples of 10 |
| AtmDispenseChain.NotesOfAppend | src/BehaviouralDesignPattern/ChainOfResponsibilty/ATMDispenseChain.java:31-86 | notes paid by two parts of the output add up |
| AtmDispenseChain.Dollar10Pays | src/BehaviouralDesignPattern/ChainOfResponsibilty/ATMDispenseChain.java:75-86 | the $10 handler pays a remainder below 20 in tens only |
| AtmDispenseChain.Dollar20Pays | src/BehaviouralDesignPattern/ChainOfResponsibilty/ATMDispenseChain.java:53-64 | the $20 handler pays a remainder below 50 greedily in twenties then tens |
| AtmDispenseChain.GreedyCounts | src/BehaviouralDesignPattern/ChainOfResponsibilty/ATMDispenseChain.java:31-86 | a positive multiple of 10 is paid as a/50 fifties, (a%50)/20 twenties and ((a%50)%20)/10 tens, with no other line |
| AtmDispenseChain.DispensesExactly | src/BehaviouralDesignPattern/ChainOfResponsibilty/ATMDispenseChain.java:31-86 | the notes paid sum to the amount, with at most two twenties and one ten |
| AtmDispenseChain.RejectsNonMultiples | src/BehaviouralDesignPattern/ChainOfResponsibilty/ATMDispenseChain.java:105-111 | an amount not a multiple of 10 is rejected before any handler |
| AtmDispenseChain.NonPositiveMultiplesEndAtTenHandler | src/BehaviouralDesignPattern/ChainOfResponsibilty/ATMDispenseChain.java:83-106 | zero and negative multiples of 10 pass the guard and end at the $10 handler's message |
| AtmDispenseChain.PaysIffPositiveMultiple | src/BehaviouralDesignPattern/ChainOfResponsibilty/ATMDispenseChain.java:31-111 | notes are paid exactly for positive multiples of 10 |
| AtmDispenseChain.DemoAmounts | src/BehaviouralDesignPattern/ChainOfResponsibilty/ATMDispenseChain.java:116-123 | 130 and 280 are paid as printed; 125 is rejected |
| VendingChain.UnknownItemStopsAtValidation | src/BehaviouralDesignPattern/ChainOfResponsibilty/VendingMachine.java:39-48 | an item outside Soda, Chips, Candy stops at validation |
| VendingChain.EmptyStockStopsAtStockCheck | src/BehaviouralDesignPattern/ChainOfResponsibilty/VendingMachine.java:66-76 | a known item with no stock stops at the stock check |
| VendingChain.PaymentDecides | src/BehaviouralDesignPattern/ChainOfResponsibilty/VendingMachine.java:94-117 | a stocked item is dispensed with change payment minus price when paid in full, and stopped with its price otherwise |
| VendingChain.DispensedIff | src/BehaviouralDesignPattern/ChainOfResponsibilty/VendingMachine.java:30-117 | the item is dispensed exactly when it is known, stocked and paid in full |
| VendingChain.HandlersRunInOrder | src/BehaviouralDesignPattern/ChainOfResponsibilty/VendingMachine.java:123-135 | handlers run in wiring order, each at most once, and a later one only after every earlier one passed |
| VendingChain.DemoPurchases | src/BehaviouralDesignPattern/ChainOfResponsibilty/VendingMachine.java:146-149 | Soda is dispensed, Chips is out of stock, Candy is underpaid, Juice is unavailable |
| CustomerSupport.BasicHandledByLevel1 | src/BehaviouralDesignPattern/ChainOfResponsibilty/CustomerSupportSystem.java:55-61 | a basic request is handled by level 1 whatever it is wired to |
| CustomerSupport.IntermediateForwardedToLevel2 | src/BehaviouralDesignPattern/ChainOfResponsibilty/CustomerSupportSystem.java:55-77 | level 1 passes an intermediate request to level 2, which handles it |
| CustomerSupport.CriticalReachesLevel3 | src/BehaviouralDesignPattern/ChainOfResponsibilty/CustomerSupportSystem.java:71-91 | a critical request passes levels 1 and 2 and is handled by level 3 |
| CustomerSupport.ExactlyOneHandler | src/BehaviouralDesignPattern/ChainOfResponsibilty/CustomerSupportSystem.java:3-19 | with the demo wiring each priority is handled by exactly the level responsible for it |
| CustomerSupport.NullSuccessorDrops | src/BehaviouralDesignPattern/ChainOfResponsibilty/CustomerSupportSystem.java:58-74 | a request a level cannot handle and cannot pass on is dropped silently |
| CustomerSupport.Level3IgnoresSuccessor | src/BehaviouralDesignPattern/ChainOfResponsibilty/CustomerSupportSystem.java:81-91 | level 3 ignores its successor and reports exactly the non-critical requests as unhandled |
| CustomerSupport.AtMostOneOutcome | src/BehaviouralDesignPattern/ChainOfResponsibilty/CustomerSupportSystem.java:55-91 | under any wiring a request prints at most one line, and a handling level is the responsible one |
| VendingStateMachine.RunSnoc | src/BehaviouralDesignPattern/StateDesignPattern/VendingMachine.java:94-130 | one more action extends a run by one transition |
| VendingStateMachine.OnlyThreeMoves | src/BehaviouralDesignPattern/StateDesignPattern/VendingMachine.java:21-84 | only Ready+select, ProductSelected+insert and MoneyInserted+dispense change the state, to the next state of the cycle |
| VendingStateMachine.RunIsConsistent | src/BehaviouralDesignPattern/StateDesignPattern/VendingMachine.java:21-84 | from Ready, the counts of selections, payments and dispenses agree with the state after any actions |
| VendingStateMachine.DemoTrace | src/BehaviouralDesignPattern/StateDesignPattern/VendingMachine.java:134-148 | the demo's seven actions print the seven messages and end in ProductSelected |
| VendingStateMachine.VendingMachineContext.constructor | src/BehaviouralDesignPattern/StateDesignPattern/VendingMachine.java:99 | the initial state is Ready |
| VendingStateMachine.VendingMachineContext.SelectProduct | src/BehaviouralDesignPattern/StateDesignPattern/VendingMachine.java:21-73 | new state and message follow the transition table for selectProduct |
| VendingStateMachine.VendingMachineContext.InsertMoney | src/BehaviouralDesignPattern/StateDesignPattern/VendingMachine.java:27-78 | new state and message follow the transition table for insertMoney |
| VendingStateMachine.VendingMachineContext.DispenseProduct | src/BehaviouralDesignPattern/StateDesignPattern/VendingMachine.java:31-84 | new state and message follow the transition table for dispenseProduct |
| VendingStateMachine.Perform | src/BehaviouralDesignPattern/StateDesignPattern/VendingMachine.java:94-130 | a sequence of calls leaves the state and messages of the run |
| VendingStateMachine.VendingMachineDemo | src/BehaviouralDesignPattern/StateDesignPattern/VendingMachine.java:134-148 | the demo ends in ProductSelected with consistent messages |
| TrafficLight.NoFixedPoint | src/BehaviouralDesignPattern/StateDesignPattern/TrafficLight.java:7-29 | every call changes the state and the message |
| TrafficLight.ThreeCallsReturn | src/BehaviouralDesignPattern/StateDesignPattern/TrafficLight.java:9-27 | three calls return to the starting state |
| TrafficLight.ShowsCycle | src/BehaviouralDesignPattern/StateDesignPattern/TrafficLight.java:34-44 | from Red, call k shows colour k mod 3 of Red, Green, Yellow |
| TrafficLight.TrafficLightContext.constructor | src/BehaviouralDesignPattern/StateDesignPattern/TrafficLight.java:34-36 | the initial state is Red |
| TrafficLight.TrafficLightContext.ShowLight | src/BehaviouralDesignPattern/StateDesignPattern/TrafficLight.java:42-44 | shows the current colour, then advances to the next |
| TrafficLight.TrafficLightDemo | src/BehaviouralDesignPattern/StateDesignPattern/TrafficLight.java:51-54 | six calls go round the cycle twice |
| BidirectionalIteration.Reverse | src/BehaviouralDesignPattern/IteratorDesignPattern/BiDirectionalIteratorDemo.java:72-79 | the backward order has the contents' length and puts the element k from the end at position k |
| BidirectionalIteration.NextThenPrevious | src/BehaviouralDesignPattern/IteratorDesignPattern/BiDirectionalIteratorDemo.java:43-57 | a successful next followed by previous returns the same element and restores the index |
| BidirectionalIteration.PreviousThenNext | src/BehaviouralDesignPattern/IteratorDesignPattern/BiDirectionalIteratorDemo.java:43-57 | a successful previous followed by next returns the same element and restores the index |
| BidirectionalIteration.CustomList.constructor | src/BehaviouralDesignPattern/IteratorDesignPattern/BiDirectionalIteratorDemo.java:20-23 | a new list has the given capacity and no items |
| BidirectionalIteration.CustomList.Add | src/BehaviouralDesignPattern/IteratorDesignPattern/BiDirectionalIteratorDemo.java:25-29 | stores at index size while there is room; on a full list nothing changes; 0 <= size <= capacity is kept |
| BidirectionalIteration.CustomList.GetIterator | src/BehaviouralDesignPattern/IteratorDesignPattern/BiDirectionalIteratorDemo.java:31-33 | a new iterator over this list starts at 0 |
| BidirectionalIteration.CustomListIterator.HasNext | src/BehaviouralDesignPattern/IteratorDesignPattern/BiDirectionalIteratorDemo.java:39-41 | true exactly when the index is below size |
| BidirectionalIteration.CustomListIterator.HasPrevious | src/BehaviouralDesignPattern/IteratorDesignPattern/BiDirectionalIteratorDemo.java:49-51 | true exactly when the index is above 0 |
| BidirectionalIteration.CustomListIterator.Next | src/BehaviouralDesignPattern/IteratorDesignPattern/BiDirectionalIteratorDemo.java:43-47 | returns the element at the index then advances; past the end it fails and keeps the index |
| BidirectionalIteration.CustomListIterator.Previous | src/BehaviouralDesignPattern/IteratorDesignPattern/BiDirectionalIteratorDemo.java:53-57 | moves back then returns that element; at 0 it fails and keeps the index |
| BidirectionalIteration.Traverse | src/BehaviouralDesignPattern/IteratorDesignPattern/BiDirectionalIteratorDemo.java:68-79 | the forward loop yields insertion order and the backward loop its reverse |
| BidirectionalIteration.DemoReverse | src/BehaviouralDesignPattern/IteratorDesignPattern/BiDirectionalIteratorDemo.java:72-79 | the backward walk over A, B, C gives C, B, A |
| BidirectionalIteration.BiDirectionalIteratorDemo | src/BehaviouralDesignPattern/IteratorDesignPattern/BiDirectionalIteratorDemo.java:63-80 | A, B, C forward and C, B, A backward |
| NameIteration.StepsHandOutInOrder | src/BehaviouralDesignPattern/IteratorDesignPattern/InternalIteratorDemo.java:27-38 | k steps hand out the first k names in order, then null without advancing |
| NameIteration.NameRepository.GetIterator | src/BehaviouralDesignPattern/IteratorDesignPattern/InternalIteratorDemo.java:20-22 | every call starts a new cursor at 0 |
| NameIteration.NameIterator.HasNext | src/BehaviouralDesignPattern/IteratorDesignPattern/InternalIteratorDemo.java:27-30 | true exactly when the index is below the number of names |
| NameIteration.NameIterator.Next | src/BehaviouralDesignPattern/IteratorDesignPattern/InternalIteratorDemo.java:33-38 | returns the name at the index and advances, or null past the end without advancing |
| NameIteration.InternalIteratorDemo | src/BehaviouralDesignPattern/IteratorDesignPattern/InternalIteratorDemo.java:45-53 | the loop prints "Name : " followed by Robert, John, Julie and Lora, one line each in order, and stops |
| LazyLoadingImage.LoadedOnlyDisplays | src/StructutalDesignPattern/ProxyDesignPattern/LazyLoadingImage.java:48-54 | once loaded, a proxy only displays |
| LazyLoadingImage.LoadsOnce | src/StructutalDesignPattern/ProxyDesignPattern/LazyLoadingImage.java:48-54 | from a new proxy, n >= 1 calls load once, first, and display n times |
| LazyLoadingImage.ProxyImage.constructor | src/StructutalDesignPattern/ProxyDesignPattern/LazyLoadingImage.java:44-46 | construction loads nothing |
| LazyLoadingImage.ProxyImage.Display | src/StructutalDesignPattern/ProxyDesignPattern/LazyLoadingImage.java:48-54 | the first call creates the real image for the proxy's file; later calls reuse it |
| LazyLoadingImage.DisplayRepeatedly | src/StructutalDesignPattern/ProxyDesignPattern/LazyLoadingImage.java:48-54 | n calls on a new proxy print one load and n displays |
| LazyLoadingImage.LazyLoadingImageDemo | src/StructutalDesignPattern/ProxyDesignPattern/LazyLoadingImage.java:27-36 | two calls print one load and two displays |
| ChatMediator.RecipientsAppend | src/BehaviouralDesignPattern/MediatorDesignpattern/MultiUsersChatMediator.java:23-30 | delivery follows registration order |
| ChatMediator.RecipientsCount | src/BehaviouralDesignPattern/MediatorDesignpattern/MultiUsersChatMediator.java:23-30 | the sender gets no copy; every other user gets one copy per registration |
| ChatMediator.UnregisteredSenderReachesAll | src/BehaviouralDesignPattern/MediatorDesignpattern/MultiUsersChatMediator.java:24-28 | an unregistered sender reaches every registration |
| ChatMediator.ChatMediatorImpl.AddUser | src/BehaviouralDesignPattern/MediatorDesignpattern/MultiUsersChatMediator.java:18-20 | appends; duplicates allowed |
| ChatMediator.ChatMediatorImpl.SendMessage | src/BehaviouralDesignPattern/MediatorDesignpattern/MultiUsersChatMediator.java:23-30 | delivers to every registration other than the sender, by reference, in order |
| ChatMediator.ChatUser.Send | src/BehaviouralDesignPattern/MediatorDesignpattern/MultiUsersChatMediator.java:55-58 | routes through its mediator with itself as sender |
| ChatMediator.MultiUsersChatDemo | src/BehaviouralDesignPattern/MediatorDesignpattern/MultiUsersChatMediator.java:68-81 | Robert reaches John and Alice; John reaches Robert and Alice |
| WeatherNotify.Display.Update | src/BehaviouralDesignPattern/ObserverDesignPattern/WeatherNotify.java:37-41 | stores the value and prints it with the display's kind |
| WeatherNotify.Broadcast | src/BehaviouralDesignPattern/ObserverDesignPattern/WeatherNotify.java:27-31 | one line per registration, in order, with the new value |
| WeatherNotify.WeatherStation.AddObserver | src/BehaviouralDesignPattern/ObserverDesignPattern/WeatherNotify.java:14-16 | appends; duplicates allowed |
| WeatherNotify.WeatherStation.RemoveObserver | src/BehaviouralDesignPattern/ObserverDesignPattern/WeatherNotify.java:18-20 | removes the first registration only, if any |
| WeatherNotify.WeatherStation.SetTemperature | src/BehaviouralDesignPattern/ObserverDesignPattern/WeatherNotify.java:22-31 | stores the value, notifies every registration in order, and every display then holds the value |
| WeatherNotify.WeatherStation.NotifyObservers | src/BehaviouralDesignPattern/ObserverDesignPattern/WeatherNotify.java:27-31 | every registered display is updated with the station's value, in order |
| WeatherNotify.WeatherNotifyDemo | src/BehaviouralDesignPattern/ObserverDesignPattern/WeatherNotify.java:78-98 | all three displays print both readings |
| ProductPriceUpdate.AnnouncePerRegistration | src/BehaviouralDesignPattern/ObserverDesignPattern/ProductPriceUpdate.java:29-47 | notifying sends one notice per registration, in registration order, each with the stored price |
| ProductPriceUpdate.AnnounceAfterAdd | src/BehaviouralDesignPattern/ObserverDesignPattern/ProductPriceUpdate.java:16-33 | a customer added last is told last, after everyone told before |
| ProductPriceUpdate.RemovedCustomerNotNotified | src/BehaviouralDesignPattern/ObserverDesignPattern/ProductPriceUpdate.java:20-33 | a customer registered once and removed gets no later notice; the others keep theirs |
| ProductPriceUpdate.Product.AddObserver | src/BehaviouralDesignPattern/ObserverDesignPattern/ProductPriceUpdate.java:16-18 | appends; duplicates allowed |
| ProductPriceUpdate.Product.RemoveObserver | src/BehaviouralDesignPattern/ObserverDesignPattern/ProductPriceUpdate.java:20-22 | removes the first registration only, if any |
| ProductPriceUpdate.Product.SetPrice | src/BehaviouralDesignPattern/ObserverDesignPattern/ProductPriceUpdate.java:24-27 | stores the price, then notifies every registration in order |
| ProductPriceUpdate.Product.NotifyObservers | src/BehaviouralDesignPattern/ObserverDesignPattern/ProductPriceUpdate.java:29-33 | notifies every registration in order with the stored price |
| ProductPriceUpdate.ProductPriceUpdateDemo | src/BehaviouralDesignPattern/ObserverDesignPattern/ProductPriceUpdate.java:53-67 | Alice, Bob and Chris are all told |
| ProductAvailabilityNotify.GreetingsPerRegistration | src/BehaviouralDesignPattern/ObserverDesignPattern/ProductAvailabilityNotify.java:58-75 | notifying prints one greeting per registration, in registration order, each with the new availability |
| ProductAvailabilityNotify.GreetingsAfterRegister | src/BehaviouralDesignPattern/ObserverDesignPattern/ProductAvailabilityNotify.java:50-62 | a customer registered last is greeted last, after everyone greeted before |
| ProductAvailabilityNotify.GreetingsAfterRemove | src/BehaviouralDesignPattern/ObserverDesignPattern/ProductAvailabilityNotify.java:54-62 | removing a registered customer drops exactly one greeting from the next notification; removing anyone else changes nothing |
| ProductAvailabilityNotify.ProductNew.constructor | src/BehaviouralDesignPattern/ObserverDesignPattern/ProductAvailabilityNotify.java:35-39 | stores name, type and initial availability; nobody registered |
| ProductAvailabilityNotify.ProductNew.GetAvailability | src/BehaviouralDesignPattern/ObserverDesignPattern/ProductAvailabilityNotify.java:41-43 | returns the stored availability |
| ProductAvailabilityNotify.ProductNew.SetAvailability | src/BehaviouralDesignPattern/ObserverDesignPattern/ProductAvailabilityNotify.java:45-48 | updates the field before notifying every registration |
| ProductAvailabilityNotify.ProductNew.RegisterObserver | src/BehaviouralDesignPattern/ObserverDesignPattern/ProductAvailabilityNotify.java:50-52 | appends |
| ProductAvailabilityNotify.ProductNew.RemoveObserver | src/BehaviouralDesignPattern/ObserverDesignPattern/ProductAvailabilityNotify.java:54-56 | removes the first registration only, if any |
| ProductAvailabilityNotify.ProductNew.NotifyObservers | src/BehaviouralDesignPattern/ObserverDesignPattern/ProductAvailabilityNotify.java:58-62 | greets every registration in order |
| ProductAvailabilityNotify.ProductAvailabilityDemo | src/BehaviouralDesignPattern/ObserverDesignPattern/ProductAvailabilityNotify.java:7-22 | Out of Stock before, Available after, Alice and Bob greeted |
| FileSystem.LineCountIsNodeCount | src/StructutalDesignPattern/ComposiiteDesignPattern/FIleSystem.java:46-74 | every file and directory contributes exactly one line |
| FileSystem.LineCountIsNodeCountAll | src/StructutalDesignPattern/ComposiiteDesignPattern/FIleSystem.java:68-74 | the same for a list of components |
| FileSystem.ListingIsPreOrder | src/StructutalDesignPattern/ComposiiteDesignPattern/FIleSystem.java:68-74 | a directory's own line comes first, then its children in insertion order |
| FileSystem.ListingAllSnoc | src/StructutalDesignPattern/ComposiiteDesignPattern/FIleSystem.java:70-73 | a later child's lines follow the earlier children's |
| FileSystem.ChildLinesListed | src/StructutalDesignPattern/ComposiiteDesignPattern/FIleSystem.java:68-74 | every line of a child's listing appears in its parent's |
| FileSystem.File.ShowDetails | src/StructutalDesignPattern/ComposiiteDesignPattern/FIleSystem.java:46-49 | a file prints its one line |
| FileSystem.RemoveFirstKeepsOthers | src/StructutalDesignPattern/ComposiiteDesignPattern/FIleSystem.java:64-66 | removal never introduces a component |
| FileSystem.Directory.AddComponent | src/StructutalDesignPattern/ComposiiteDesignPattern/FIleSystem.java:60-62 | appends to any directory, duplicates allowed; the directory stays valid when the new component is a file or a valid directory not holding it |
| FileSystem.Directory.RemoveComponent | src/StructutalDesignPattern/ComposiiteDesignPattern/FIleSystem.java:64-66 | removes the first occurrence only, if any, from any directory, and keeps a valid directory valid |
| FileSystem.Directory.ShowDetails | src/StructutalDesignPattern/ComposiiteDesignPattern/FIleSystem.java:68-74 | prints the pre-order listing of the directory's tree |
| FileSystem.Directory.ShowComponents | src/StructutalDesignPattern/ComposiiteDesignPattern/FIleSystem.java:71-73 | the loop prints each component's listing in list order, so the output is the concatenation of the components' listings |
| FileSystem.DemoListing | src/StructutalDesignPattern/ComposiiteDesignPattern/FIleSystem.java:9-28 | the demo tree lists Root, Documents, File1, File2, Music, Song1, Song2 |
| FileSystem.BuildDemoTree | src/StructutalDesignPattern/ComposiiteDesignPattern/FIleSystem.java:9-25 | the objects the demo creates and links form the tree Root(Documents(File1 10, File2 20), Music(Song1 5000, Song2 7000)) |
| FileSystem.GrownListing | src/StructutalDesignPattern/ComposiiteDesignPattern/FIleSystem.java:68-74 | a root holding Music, which holds Live, lists Root, Music, Live |
| FileSystem.BuildGrownTree | src/StructutalDesignPattern/ComposiiteDesignPattern/FIleSystem.java:60-62 | adding Live to Music after Music joined Root leaves Root's tree holding both |
| FileSystem.GrowAttachedDirectory | src/StructutalDesignPattern/ComposiiteDesignPattern/FIleSystem.java:60-74 | a directory that gains a sub-directory after it was added to the root is listed with it: Root, Music, Live |
| FileSystem.FileSystemDemo | src/StructutalDesignPattern/ComposiiteDesignPattern/FIleSystem.java:7-29 | the built tree prints those seven lines |
| ShoppingCart.AcceptIsCost | src/BehaviouralDesignPattern/VisitorDesignPattern/ShopingCartSystem.java:33-83 | accept returns the visitor's cost: a book's price, a fruit's price times weight in 32-bit arithmetic |
| ShoppingCart.TotalCost | src/BehaviouralDesignPattern/VisitorDesignPattern/ShopingCartSystem.java:96-101 | the total is the 32-bit wrap of the exact sum of the costs |
| ShoppingCart.DemoSum | src/BehaviouralDesignPattern/VisitorDesignPattern/ShopingCartSystem.java:89-103 | the demo items cost 20, 100, 20 and 25, 165 in all |
| ShoppingCart.ShopingCartDemo | src/BehaviouralDesignPattern/VisitorDesignPattern/ShopingCartSystem.java:88-104 | the demo total is 165 |
| NotificationFactory.NullOrEmptyGivesNull | src/CreationalDesignPattern/FactoryDesignPattern/NotificationService.java:30-31 | null or empty gives null, not an error |
| NotificationFactory.RecognisedIff | src/CreationalDesignPattern/FactoryDesignPattern/NotificationService.java:33-41 | sms, email, push in any case give their notification; anything else fails naming the input |
| NotificationFactory.DependsOnlyOnLowerCase | src/CreationalDesignPattern/FactoryDesignPattern/NotificationService.java:33 | only the lower-cased input matters |
| NotificationFactory.DemoNotifications | src/CreationalDesignPattern/FactoryDesignPattern/NotificationService.java:48-67 | email, sms, push succeed; fax fails |
| BankAccountFactory.NullOrEmptyGivesNull | src/CreationalDesignPattern/FactoryDesignPattern/BankAccountCreation.java:35-36 | null or empty gives null, not an error |
| BankAccountFactory.RecognisedIff | src/CreationalDesignPattern/FactoryDesignPattern/BankAccountCreation.java:38-46 | P, B, C in either case give their account; anything else, any longer text included, fails naming the input |
| BankAccountFactory.DependsOnlyOnUpperCase | src/CreationalDesignPattern/FactoryDesignPattern/BankAccountCreation.java:38 | only the upper-cased input matters |
| BankAccountFactory.Codes | src/CreationalDesignPattern/FactoryDesignPattern/BankAccountCreation.java:38-46 | both cases of each code are accepted; "personal" fails |
| CustomerManagement.GetCustomer | src/BehaviouralDesignPattern/NullObjectDesignPattern/CustomerManagementSystem.java:50-59 | the scan returns what the lookup specifies |
| CustomerManagement.LookupIff | src/BehaviouralDesignPattern/NullObjectDesignPattern/CustomerManagementSystem.java:21-59 | a real customer exactly for John, Jane or Alice ignoring case, keeping the caller's spelling; otherwise the null customer |
| CustomerManagement.CustomerManagementDemo | src/BehaviouralDesignPattern/NullObjectDesignPattern/CustomerManagementSystem.java:3-11 | Alice is found, Bob is not, ALICE is found |
| StudentManagement.GetStudentIff | src/BehaviouralDesignPattern/NullObjectDesignPattern/StudentManagementSystem.java:14-73 | a real student with its grade exactly for a table key spelled exactly; otherwise "No Student Found" with grade -1 |
| StudentManagement.KnownStudents | src/BehaviouralDesignPattern/NullObjectDesignPattern/StudentManagementSystem.java:59-73 | kamal 85, sri 90, john 78; "Kamal" and null are not found |
| ComputerBuild.ToString | src/CreationalDesignPattern/BuilderDesignPattern/ComputerBuilder.java:53-56 | the rendering starts with "Computer [CPU=", ends with "]", and is as long as the labels plus the four fields, null printed as "null" |
| ComputerBuild.GamingRendering | src/CreationalDesignPattern/BuilderDesignPattern/ComputerBuilder.java:5-13 | the gaming PC prints as "Computer [CPU=Intel i9, RAM=32GB, Storage=1TB SSD, GraphicsCard=NVIDIA RTX 3090]" |
| ComputerBuild.OfficeRendering | src/CreationalDesignPattern/BuilderDesignPattern/ComputerBuilder.java:10-14 | the office PC prints as "Computer [CPU=Intel i5, RAM=16GB, Storage=null, GraphicsCard=null]" |
| ComputerBuild.ConfigureSnoc | src/CreationalDesignPattern/BuilderDesignPattern/ComputerBuilder.java:70-78 | a chained setter call applies after the ones before it |
| ComputerBuild.LastSetterWins | src/CreationalDesignPattern/BuilderDesignPattern/ComputerBuilder.java:59-78 | after any chain each optional field holds the last value set, and CPU and RAM are unchanged |
| ComputerBuild.ComputerBuilder.constructor | src/CreationalDesignPattern/BuilderDesignPattern/ComputerBuilder.java:65-68 | fixes CPU and RAM; storage and graphics card start null |
| ComputerBuild.ComputerBuilder.Storage | src/CreationalDesignPattern/BuilderDesignPattern/ComputerBuilder.java:70-73 | overwrites storage and returns the same builder |
| ComputerBuild.ComputerBuilder.GraphicsCard | src/CreationalDesignPattern/BuilderDesignPattern/ComputerBuilder.java:75-78 | overwrites the graphics card and returns the same builder |
| ComputerBuild.ComputerBuilder.Build | src/CreationalDesignPattern/BuilderDesignPattern/ComputerBuilder.java:29-82 | the computer holds the builder's four fields at build time |
| ComputerBuild.ConfigureBuilder | src/CreationalDesignPattern/BuilderDesignPattern/ComputerBuilder.java:70-78 | a chain of setter calls leaves the builder's fields as the chain specifies |
| ComputerBuild.BuildIsACopy | src/CreationalDesignPattern/BuilderDesignPattern/ComputerBuilder.java:29-34 | changing the builder after a build leaves the built computer as it was |
| ComputerBuild.ComputerBuilderDemo | src/CreationalDesignPattern/BuilderDesignPattern/ComputerBuilder.java:4-16 | the gaming PC has all four fields; the office PC's optional fields are null |
| CoffeeMachine.GetDescription | src/StructutalDesignPattern/DecoratorDesignPattern/CoffeeMachine.java:13-92 | every description starts with "Simple Coffee" |
| CoffeeMachine.Cost | src/StructutalDesignPattern/DecoratorDesignPattern/CoffeeMachine.java:18-96 | no coffee costs less than the simple coffee's 5.0 |
| CoffeeMachine.WrapOfLayers | src/StructutalDesignPattern/DecoratorDesignPattern/CoffeeMachine.java:24-97 | every coffee is a simple coffee wrapped in its decorators |
| CoffeeMachine.LayersOfWrap | src/StructutalDesignPattern/DecoratorDesignPattern/CoffeeMachine.java:24-97 | wrapping a stack and peeling it gives the same stack |
| CoffeeMachine.StackDescription | src/StructutalDesignPattern/DecoratorDesignPattern/CoffeeMachine.java:43-97 | the description lists the decorators in wrap order after "Simple Coffee" |
| CoffeeMachine.StackCost | src/StructutalDesignPattern/DecoratorDesignPattern/CoffeeMachine.java:43-97 | the cost is 5.0 plus every surcharge |
| CoffeeMachine.SurchargesByKind | src/StructutalDesignPattern/DecoratorDesignPattern/CoffeeMachine.java:52-96 | the surcharges total 1.0 per milk, 0.5 per sugar, 2.0 per chocolate and 3.0 per dark latte |
| CoffeeMachine.CostIndependentOfOrder | src/StructutalDesignPattern/DecoratorDesignPattern/CoffeeMachine.java:43-97 | the same decorators in any order cost the same |
| CoffeeMachine.DarkLatteDescribedAsChocolate | src/StructutalDesignPattern/DecoratorDesignPattern/CoffeeMachine.java:76-96 | the dark latte reads like the chocolate but costs 1.0 more |
| CoffeeMachine.DemoStack | src/StructutalDesignPattern/DecoratorDesignPattern/CoffeeMachine.java:102-115 | the demo's successive decorations build milk, sugar, chocolate and dark latte around the simple coffee |
| CoffeeMachine.DemoDescription | src/StructutalDesignPattern/DecoratorDesignPattern/CoffeeMachine.java:102-115 | the demo ends at "Simple Coffee, Milk, Sugar, Extra Choclate, Extra Choclate" |
| CoffeeMachine.DemoInnerDescription | src/StructutalDesignPattern/DecoratorDesignPattern/CoffeeMachine.java:102-115 | after milk, sugar and chocolate the demo's coffee reads "Simple Coffee, Milk, Sugar, Extra Choclate" |
| CoffeeMachine.DemoCost | src/StructutalDesignPattern/DecoratorDesignPattern/CoffeeMachine.java:102-115 | the demo's coffee costs 11.5 |
| PizzaShop.GetDescription | src/StructutalDesignPattern/DecoratorDesignPattern/PizzaShop.java:29-102 | every description starts with "Plain pizza" |
| PizzaShop.Cost | src/StructutalDesignPattern/DecoratorDesignPattern/PizzaShop.java:34-107 | no pizza costs less than the plain pizza's 8.0 |
| PizzaShop.StackDescription | src/StructutalDesignPattern/DecoratorDesignPattern/PizzaShop.java:62-108 | toppings are listed innermost first after "Plain pizza" |
| PizzaShop.StackCost | src/StructutalDesignPattern/DecoratorDesignPattern/PizzaShop.java:62-108 | the cost is 8.0 plus 1.5 per cheese, 2.0 per pepperoni and 3.0 per mushroom |
| PizzaShop.CountOfIsMultiplicity | src/StructutalDesignPattern/DecoratorDesignPattern/PizzaShop.java:62-108 | the toppings counted by kind are the stack's toppings as a bag |
| PizzaShop.CostIndependentOfOrder | src/StructutalDesignPattern/DecoratorDesignPattern/PizzaShop.java:62-108 | the same toppings in any order cost the same |
| PizzaShop.DemoPizza | src/StructutalDesignPattern/DecoratorDesignPattern/PizzaShop.java:3-14 | plain pizza costs 8.0; with cheese and pepperoni it reads "Plain pizza, cheese, pepperoni" and costs 11.5 |
| MultimediaFacade.DispatchIff | src/StructutalDesignPattern/FacadeDesignPattern/MultimediaApp.java:35-45 | audio, video and image in any case reach their own subsystem with the file, and only then |
| MultimediaFacade.UnsupportedIff | src/StructutalDesignPattern/FacadeDesignPattern/MultimediaApp.java:35-49 | any other type reaches no subsystem and is reported with its original spelling |
| MultimediaFacade.CallsWithFilename | src/StructutalDesignPattern/FacadeDesignPattern/MultimediaApp.java:36-45 | a subsystem that runs gets the requested file name |
| MultimediaFacade.DependsOnlyOnLowerCase | src/StructutalDesignPattern/FacadeDesignPattern/MultimediaApp.java:36 | only the lower-cased type decides which subsystem runs |
| MultimediaFacade.DemoMedia | src/StructutalDesignPattern/FacadeDesignPattern/MultimediaApp.java:52-61 | the song, movie and picture reach their subsystems; "document" is unsupported |
| Common.RemoveFirstAbsent | src/BehaviouralDesignPattern/ObserverDesignPattern/WeatherNotify.java:18-20 | removing an absent observer changes nothing |
| Common.RemoveFirstPresent | src/BehaviouralDesignPattern/ObserverDesignPattern/WeatherNotify.java:18-20 | removing a present observer cuts out exactly its first occurrence |
| Common.RemoveFirstMultiset | src/BehaviouralDesignPattern/ObserverDesignPattern/ProductPriceUpdate.java:20-22 | removal takes away exactly one copy of a present element |
| Common.RemoveFirstAddsBack | src/BehaviouralDesignPattern/ObserverDesignPattern/ProductPriceUpdate.java:20-22 | putting back the removed element, if there was one, restores the bag |
| Common.RemoveFirstUndoesAppend | src/BehaviouralDesignPattern/ObserverDesignPattern/ProductAvailabilityNotify.java:50-56 | registering a new observer and removing it restores the list |
| Common.RemoveFirstOnce | src/BehaviouralDesignPattern/ObserverDesignPattern/WeatherNotify.java:18-20 | an observer registered once is gone after removal, and the others keep their counts |
| Common.Wrap32Add | src/BehaviouralDesignPattern/VisitorDesignPattern/ShopingCartSystem.java:99-101 | wrapping the running total at each step gives the wrap of the exact sum |

## Left out

- Concurrency: the `synchronized` methods of the connection pool and the double-checked locking of the caching proxy. Every model is sequential.
- Printing: output lines are returned values, not printed. The subsystems of the facade and the `connect`/`disconnect` messages of the connection handles are left out beyond the lines they print.
- Floating point: Java `double` and `float` values are `real`. Rounding of the vending machine's change and the `%.2f` formatting are not modelled.
- The Scanner-driven `main` of the bank-account factory: console input is left out. Only `createAccount` and `registerAccount` are modelled.
- Java object identity is Dafny object identity where the source compares by reference. The connection handles are values identified by their id.
- Statics (the connection counter, the pool singleton, the generic object pool, the student table) are explicit objects or constant functions.
- FileSystem.Directory.AddComponent: promises validity only when no directory ends up inside its own subtree, because such a cycle makes `showDetails` recurse forever. It states the new list of components, not the new tree.
- FileSystem.Directory.ShowDetails: requires a valid directory, whose ghost footprint covers its whole subtree. After a sub-directory is added below a directory that is already attached, the ghost method FileSystem.Directory.Refresh must bring each enclosing directory up to date, innermost first, before it is listed. Java needs no such step, and the model does not capture that a listing reads the current subtree without one.
- FileSystem.Directory.ShowComponents: the same requirement as FileSystem.Directory.ShowDetails.
- CustomerManagement.LookupIff: case folding is ASCII only. `equalsIgnoreCase` also folds non-ASCII letters, for example dotless 'ı' (U+0131) to 'I'. A name spelt with such letters is found by Java and not by the model.
- NotificationFactory.RecognisedIff: `toLowerCase` is ASCII folding here. Java's folding depends on the default locale: under a Turkish locale "EMAIL" lower-cases to "emaıl" and is rejected, while the model accepts it. Non-ASCII folding is not modelled either.
- BankAccountFactory.RecognisedIff: `toUpperCase` is ASCII folding here. Locale-dependent and non-ASCII upper-casing is not modelled.
- MultimediaFacade.DispatchIff: `toLowerCase` is ASCII folding here. Under a Turkish default locale Java lower-cases "VIDEO" and "IMAGE" with a dotless 'ı' and reports them unsupported, while the model plays them.
- ComputerBuild.ToString: states the prefix, the closing bracket and the length of the rendering rather than the full text for every computer. The full text is proved for the two demonstration computers only, by ComputerBuild.GamingRendering and ComputerBuild.OfficeRendering.
- ComputerBuild: the getters of `Computer` are the datatype's fields.
- VendingChain.PaymentDecides: the change is exact real subtraction, not IEEE double subtraction.
- Null arguments outside the modelled `Option` fields, and aliasing of the pool's seed list: `getUsers(null)` on the caching proxy throws a NullPointerException before the access count moves, while the model's country is a plain string, so that error path cannot occur; `DataBaseConnectionPool` keeps the caller's seed list as its own available list, while the model's pool holds a copy, so later changes the caller makes to that list are not seen by the model's pool.
- NameIteration: `NameRepository.names` is a public mutable array in Java; the model's `names` is an immutable sequence, so a client that overwrites an element or the array while iterating is not modelled.
