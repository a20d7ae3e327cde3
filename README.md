# Design patterns, modelled and proved in Dafny

This project models a catalogue of small Gang-of-Four pattern examples written in C#. Each
example is an independent in-memory component with an xUnit scenario beside it. Each
component here is a Dafny module of its own (`state.dfy` is module `State`, and so on), with
`wrappers.dfy` supplying `Option`, `Result` and `Outcome`. The components are:

- a television whose behaviour is delegated to its off, on or muted state;
- a support desk whose handlers escalate problems along a chain;
- collections that keep themselves sorted by inserting at a found index;
- a library pool of books with a minimum inventory;
- a sentence split into words, walked by two kinds of cursor;
- a lock-protected door;
- a parcel service that routes parcels between users;
- a temperature sensor notifying heaters and air conditioners;
- search strategies over a collection of names;
- a pizza chef following recipes;
- a file whose content is saved and restored through mementos;
- room-cleaning commands;
- an alias cache;
- movie bundles with composite titles;
- book titles formatted by a layout and a style;
- a USB adapter converting an outlet's amps to milliamps;
- tradespeople visiting and pricing rooms;
- an event facade merging sport and music events;
- a lazily connected phone call;
- cloneable sheep;
- car factories.

Code that changes objects in place is modelled with Dafny classes. Each method's `ensures`
states the whole new state, usually by tying it to a pure function of the old state. The
lemmas then prove what the C# promises about those functions. Code that only computes
values is modelled with datatypes and functions.

Exceptions become error values: `Result.Err` or `Outcome.Fail`, each naming the exception.
C# `null` becomes `Option.None` for values and a `?` type for references.

## Model

Helpers without a row of their own are covered by the rows of the members that use them:
`Facade.MapSports` and `MapMusics` (the `Select` of the mapping functions) by
`EventSystem.FindEventsForDate`, `Strategy.ContainsIgnoringCase` (the case-blind `Contains`)
by `Strategy.Matches` and `ContainsIgnoresCriteriaCase`, and `Builder.Combine` and `Bit`
(the `|` of topping flags) by `Builder.CombineHolds` and `BitsDistinct`.

| member | source | states |
|---|---|---|
| State.Normalize | DesignPatterns/Behavioral/State.cs:240-242 | the result is always within 0..10; no volume gives 2; an in-range volume is kept; anything above 10 gives 10, anything below 0 gives 0 |
| State.TelevisionState.Volume | DesignPatterns/Behavioral/State.cs:143 | a volume is reported exactly when the television is powered (also lines 200, 207) |
| State.TelevisionState.Muted | DesignPatterns/Behavioral/State.cs:137 | a mute flag is reported exactly when powered, and it is true exactly in the muted state (also lines 202, 209, 256) |
| State.TelevisionState.IncreaseVolume | DesignPatterns/Behavioral/State.cs:169-172 | off: no change; powered: one step up capped at 10, and the result is unmuted, so a muted television is unmuted after the step; power never changes (also lines 213-219, 260-264) |
| State.TelevisionState.LowerVolume | DesignPatterns/Behavioral/State.cs:174-177 | off: no change; powered: one step down floored at 0, and the result is unmuted; power never changes (also lines 221-227, 266-270) |
| State.TelevisionState.ToggleMute | DesignPatterns/Behavioral/State.cs:179-182 | off: no change; on and muted swap, keeping the volume and the power (also lines 229-232, 272-275) |
| State.TelevisionState.TogglePower | DesignPatterns/Behavioral/State.cs:184-187 | power flips; switching on gives volume 2, unmuted (also lines 198-203, 234-237) |
| State.Television.constructor | DesignPatterns/Behavioral/State.cs:98-102 | a new television is off, with no volume and no mute flag |
| State.Television.Powered | DesignPatterns/Behavioral/State.cs:107 | powered exactly when the current state is not the off state |
| State.Television.Volume | DesignPatterns/Behavioral/State.cs:111 | a volume exactly when powered, and always within 0..10 |
| State.Television.Muted | DesignPatterns/Behavioral/State.cs:105 | a mute flag exactly when powered |
| State.Television.SetState | DesignPatterns/Behavioral/State.cs:118-122 | the given state becomes the current one |
| State.Television.IncreaseVolume | DesignPatterns/Behavioral/State.cs:114 | the new state is the current state's volume-up transition |
| State.Television.LowerVolume | DesignPatterns/Behavioral/State.cs:116 | the new state is the current state's volume-down transition |
| State.Television.ToggleMute | DesignPatterns/Behavioral/State.cs:124 | the new state is the current state's mute transition |
| State.Television.TogglePower | DesignPatterns/Behavioral/State.cs:126 | the new state is the current state's power transition |
| State.Press | DesignPatterns/Behavioral/State.cs:114-126 | any button keeps a state valid |
| State.VolumeAlwaysInRange | DesignPatterns/Behavioral/State.cs:205-227 | after any sequence of button presses, a powered television's volume is within 0..10 |
| State.OnlyPowerChangesPower | DesignPatterns/Behavioral/State.cs:169-182 | presses other than power never switch the television on or off, and leave an off television exactly as it was (also lines 213-232) |
| State.ToggleMuteTwice | DesignPatterns/Behavioral/State.cs:229-232 | muting twice is the identity (also lines 272-275) |
| State.MutedAdjustUnmutesFirst | DesignPatterns/Behavioral/State.cs:260-270 | changing the volume while muted gives the same state as changing it while on |
| State.IncreaseThenLower | DesignPatterns/Behavioral/State.cs:213-227 | below the maximum, one step up and one step down restores the state |
| State.Scenario | DesignPatterns/Behavioral/State.cs:8-81 | the example's walk: nothing changes while off, on at 2, down to 0, up to 3, muted at 3, up to 4 and unmuted, mute twice, off |
| ChainOfResponsibility.CapabilitySets | DesignPatterns/Behavioral/ChainOfResponsibility.cs:113-164 | each handler's predicate holds exactly for its capability set: front desk {NoProblem, Simple}, lead {Troublesome}, engineer {Critical}, manager {Urgent} |
| ChainOfResponsibility.CapabilitiesDisjoint | DesignPatterns/Behavioral/ChainOfResponsibility.cs:113-164 | no severity is handled by two different roles |
| ChainOfResponsibility.FirstSolver | DesignPatterns/Behavioral/ChainOfResponsibility.cs:67-87 | the position found can solve the problem and no earlier one can; nothing is found exactly when no role in the chain can solve it |
| ChainOfResponsibility.StandardChainSolvesEverything | DesignPatterns/Behavioral/ChainOfResponsibility.cs:20-23 | in the front desk, lead, engineer, manager chain every severity is solved, by the role that owns it |
| ChainOfResponsibility.Problem.constructor | DesignPatterns/Behavioral/ChainOfResponsibility.cs:90-96 | a new problem is unsolved |
| ChainOfResponsibility.Problem.Solved | DesignPatterns/Behavioral/ChainOfResponsibility.cs:94 | solved exactly when some handler is recorded |
| ChainOfResponsibility.Problem.SolveBy | DesignPatterns/Behavioral/ChainOfResponsibility.cs:99-102 | the handler is recorded and the problem is solved |
| ChainOfResponsibility.CustomerSupport.constructor | DesignPatterns/Behavioral/ChainOfResponsibility.cs:58-60 | a new handler has its role and no successor |
| ChainOfResponsibility.CustomerSupport.SetEscalation | DesignPatterns/Behavioral/ChainOfResponsibility.cs:62-65 | the given successor replaces any previous one |
| ChainOfResponsibility.CustomerSupport.CanSolveProblem | DesignPatterns/Behavioral/ChainOfResponsibility.cs:82-122 | true exactly when the problem's severity is in the role's capability set |
| ChainOfResponsibility.CustomerSupport.SolveProblem | DesignPatterns/Behavioral/ChainOfResponsibility.cs:67-77 | for any escalation path that ends, at a handler that can solve the problem or at one without a successor, the problem is solved by the first handler along it that can solve it; when none can, it is left as it was |
| ChainOfResponsibility.CustomerSupport.EscalateProblem | DesignPatterns/Behavioral/ChainOfResponsibility.cs:84-87 | called, as in the source, only after this handler has found it cannot solve the problem: the same outcome counted from the successor; without a successor nothing changes |
| ChainOfResponsibility.StandardChainSolvers | DesignPatterns/Behavioral/ChainOfResponsibility.cs:26-39 | in the example hierarchy a simple problem stops at the front desk, the first handler, and a critical one at the engineer, the third |
| TemplateMethod.AscendingFindIndex | DesignPatterns/Behavioral/TemplateMethod.cs:84-94 | the index is within 0..Count, the element just before it is at most the value and everything from it on is greater |
| TemplateMethod.DescendingFindIndex | DesignPatterns/Behavioral/TemplateMethod.cs:106-116 | the index is within 0..Count, everything before it is greater than the value and the element at it is at most the value |
| TemplateMethod.AscendingInsert | DesignPatterns/Behavioral/TemplateMethod.cs:56-94 | insertion adds exactly one copy of the value to the contents |
| TemplateMethod.DescendingInsert | DesignPatterns/Behavioral/TemplateMethod.cs:56-60 | insertion adds exactly one copy of the value to the contents (also lines 106-116) |
| TemplateMethod.AscendingInsertAt | DesignPatterns/Behavioral/TemplateMethod.cs:58-93 | in a non-decreasing list, inserting at the found index places the value after all existing equal values |
| TemplateMethod.DescendingInsertAt | DesignPatterns/Behavioral/TemplateMethod.cs:58-59 | in a non-increasing list, inserting at the found index places the value before the first existing equal value (also lines 108-115) |
| TemplateMethod.AscendingInsertSorted | DesignPatterns/Behavioral/TemplateMethod.cs:86-93 | ascending insertion keeps a list non-decreasing |
| TemplateMethod.DescendingInsertSorted | DesignPatterns/Behavioral/TemplateMethod.cs:108-115 | descending insertion keeps a list non-increasing |
| TemplateMethod.OrderedCollection.constructor | DesignPatterns/Behavioral/TemplateMethod.cs:50 | a new collection is empty |
| TemplateMethod.OrderedCollection.Add | DesignPatterns/Behavioral/TemplateMethod.cs:56-60 | the new contents are the old contents with the value inserted at the index its ordering finds, and they stay sorted |
| TemplateMethod.AddSequenceSorts | DesignPatterns/Behavioral/TemplateMethod.cs:8-36 | adding any values one by one gives a sorted list holding exactly the old contents plus the values |
| TemplateMethod.AddSequenceCounts | DesignPatterns/Behavioral/TemplateMethod.cs:8-36 | after adding values the collection holds each of them once per occurrence, besides what it held |
| TemplateMethod.AddSequenceOrdered | DesignPatterns/Behavioral/TemplateMethod.cs:8-36 | adding values one by one keeps an ascending collection ascending and a descending one descending |
| TemplateMethod.AscendingPermutationUnique | DesignPatterns/Behavioral/TemplateMethod.cs:21 | two non-decreasing lists with the same contents are equal |
| TemplateMethod.DescendingPermutationUnique | DesignPatterns/Behavioral/TemplateMethod.cs:36 | two non-increasing lists with the same contents are equal |
| TemplateMethod.SortedPermutationOfInput | DesignPatterns/Behavioral/TemplateMethod.cs:8-36 | adding values to an empty collection yields exactly the sorted permutation of those values |
| ObjectPool.InitialInventory | DesignPatterns/Creational/ObjectPool.cs:45 | the opening stock holds the larger of the requested count and the minimum, every copy bought on the opening date |
| ObjectPool.Library.constructor | DesignPatterns/Creational/ObjectPool.cs:43-45 | the library starts with the opening stock and its minimum, and never below the minimum |
| ObjectPool.Library.InventoryCount | DesignPatterns/Creational/ObjectPool.cs:47 | the count is the number of books in stock |
| ObjectPool.Library.RentBook | DesignPatterns/Creational/ObjectPool.cs:51-58 | above the minimum, the oldest book leaves the queue and is lent; at or below it, a newly bought book dated now is lent and the stock is untouched; the stock never drops below the minimum; renting fails only in the dequeue-on-empty case |
| ObjectPool.Library.ReturnBook | DesignPatterns/Creational/ObjectPool.cs:60-63 | any returned book joins the back of the queue |
| ObjectPool.Library.GetBookFromInventory | DesignPatterns/Creational/ObjectPool.cs:65 | the head of the queue is taken off; an empty queue is an error and changes nothing |
| ObjectPool.Library.AddBookToInventory | DesignPatterns/Creational/ObjectPool.cs:67-70 | the book joins the back of the queue |
| ObjectPool.PurchaseBook | DesignPatterns/Creational/ObjectPool.cs:72 | a bought book is dated at the moment of purchase |
| Iterator.SplitWords | DesignPatterns/Behavioral/Iterator.cs:211-220 | every word is non-empty and free of space, full stop, comma and apostrophe; together the words spell exactly the sentence's non-delimiter characters in order; no sentence gives no words |
| Iterator.Scan | DesignPatterns/Behavioral/Iterator.cs:211-220 | the characters of a pending run open the first word found; ScanYieldsWords, ScanKeepsLetters, ScanSplitsAtDelimiter and ScanOfWord state the rest |
| Iterator.ScanYieldsWords | DesignPatterns/Behavioral/Iterator.cs:219 | the scan only ever produces words |
| Iterator.ScanKeepsLetters | DesignPatterns/Behavioral/Iterator.cs:211-220 | no character is lost or invented: the words, concatenated, are the pending run followed by exactly the non-delimiter characters of the input |
| Iterator.SplitJoin | DesignPatterns/Behavioral/Iterator.cs:211-220 | words joined by any delimiter split back into the same words |
| Iterator.ScanSplitsAtDelimiter | DesignPatterns/Behavioral/Iterator.cs:219 | every delimiter is a word boundary: scanning text with a delimiter in it gives the words before the delimiter followed by the words after it, so no word reaches across a delimiter |
| Iterator.ScanOfWord | DesignPatterns/Behavioral/Iterator.cs:219 | a run of non-delimiters between boundaries is kept whole as a single word, never cut into pieces |
| Iterator.SplitWordsMaximal | DesignPatterns/Behavioral/Iterator.cs:211-220 | the words of a sentence are its maximal runs of non-delimiters: a delimiter separates the words before it from those after it, and a sentence that is one word yields exactly that word |
| Iterator.ScanTrailingDelimiter | DesignPatterns/Behavioral/Iterator.cs:219 | a trailing delimiter adds no word |
| Iterator.PangramSplit | DesignPatterns/Behavioral/Iterator.cs:8-45 | the example sentence splits into its nine words |
| Iterator.Sentence.constructor | DesignPatterns/Behavioral/Iterator.cs:107-109 | a sentence holds the words of its text |
| Iterator.Sentence.CreateIterator | DesignPatterns/Behavioral/Iterator.cs:111 | a new cursor at the first word of this sentence |
| Iterator.WordsIterator.constructor | DesignPatterns/Behavioral/Iterator.cs:120-122 | a cursor starts at index 0 |
| Iterator.WordsIterator.HasNext | DesignPatterns/Behavioral/Iterator.cs:124 | true exactly when the index is below the word count |
| Iterator.WordsIterator.Next | DesignPatterns/Behavioral/Iterator.cs:126 | with a word left, returns it and advances by one; when exhausted, returns nothing and stays put |
| Iterator.ReadAll | DesignPatterns/Behavioral/Iterator.cs:124-126 | repeated Next calls yield exactly the remaining words in order, after which HasNext is false |
| Iterator.SentenceAsEnumerable.constructor | DesignPatterns/Behavioral/Iterator.cs:137-145 | the enumerable holds the words of its text |
| Iterator.SentenceAsEnumerable.GetEnumerator | DesignPatterns/Behavioral/Iterator.cs:147 | a new enumerator at index 0 with no current word |
| Iterator.WordsEnumerator.constructor | DesignPatterns/Behavioral/Iterator.cs:174-179 | index 0 and no current word |
| Iterator.WordsEnumerator.MoveNext | DesignPatterns/Behavioral/Iterator.cs:181-189 | moves exactly when a word remains, making it current and advancing; otherwise the index and current word are kept |
| Iterator.WordsEnumerator.Reset | DesignPatterns/Behavioral/Iterator.cs:191-195 | index back to 0 and no current word |
| Iterator.EnumerateAll | DesignPatterns/Behavioral/Iterator.cs:181-189 | repeated MoveNext calls visit exactly the remaining words in order |
| Decorator.Door.constructor | DesignPatterns/Structural/Decorator.cs:65-67 | a new door is closed |
| Decorator.Door.Open | DesignPatterns/Structural/Decorator.cs:69-72 | the door is open |
| Decorator.Door.Close | DesignPatterns/Structural/Decorator.cs:74-77 | the door is closed |
| Decorator.LockProtected.constructor | DesignPatterns/Structural/Decorator.cs:102-104 | the decorator wraps the given door and starts locked |
| Decorator.LockProtected.Opened | DesignPatterns/Structural/Decorator.cs:89 | the decorator reports the wrapped door's state |
| Decorator.LockProtected.Open | DesignPatterns/Structural/Decorator.cs:106-113 | locked: fails with the door-locked error and changes nothing; unlocked: the door opens |
| Decorator.LockProtected.Close | DesignPatterns/Structural/Decorator.cs:115-122 | locked: fails with the door-locked error and changes nothing; unlocked: the door closes |
| Decorator.LockProtected.Lock | DesignPatterns/Structural/Decorator.cs:124-127 | locked, and the door is untouched |
| Decorator.LockProtected.UnLock | DesignPatterns/Structural/Decorator.cs:129-132 | unlocked, and the door is untouched |
| Mediator.PostalUser.constructor | DesignPatterns/Behavioral/Mediator.cs:107-134 | a new user has its postal code and kind, and has received nothing |
| Mediator.PostalUser.ReceiveParcel | DesignPatterns/Behavioral/Mediator.cs:111-141 | an accepting user appends the parcel; a rejecting one sends it back to its origin; in both cases the user who ends up with the parcel is the one the routing function names, and every other user's parcels are unchanged |
| Mediator.PostalUser.SendParcel | DesignPatterns/Behavioral/Mediator.cs:117-146 | the parcel goes through the service, and only the user the routing function names gains it |
| Mediator.Route | DesignPatterns/Behavioral/Mediator.cs:83-97 | with no sends left the parcel is still bouncing; a parcel that is delivered ends with an accepting user (RouteTarget adds that this user is registered or the sender) |
| Mediator.Receive | DesignPatterns/Behavioral/Mediator.cs:111-115 | an accepting user keeps the parcel; a parcel that is delivered ends with an accepting user (also lines 138-141) |
| Mediator.RouteTarget | DesignPatterns/Behavioral/Mediator.cs:83-97 | a routed parcel ends with an accepting user who is either registered or the sender |
| Mediator.ReceiveTarget | DesignPatterns/Behavioral/Mediator.cs:111-141 | the same for a parcel handed to a user |
| Mediator.ParcelService.constructor | DesignPatterns/Behavioral/Mediator.cs:74 | no user is registered |
| Mediator.ParcelService.Register | DesignPatterns/Behavioral/Mediator.cs:76-81 | a null user is rejected; otherwise the first user registered for a postal code is kept and later ones are ignored |
| Mediator.ParcelService.Send | DesignPatterns/Behavioral/Mediator.cs:83-97 | a null sender is rejected and nothing changes; otherwise exactly the user the routing function names gains the parcel, and every other user is unchanged |
| Mediator.DeliveredToAcceptingRecipient | DesignPatterns/Behavioral/Mediator.cs:87-90 | a parcel to a registered accepting user reaches that user (also lines 138-141) |
| Mediator.ReturnedToAcceptingSender | DesignPatterns/Behavioral/Mediator.cs:91-96 | a parcel to an unknown code comes back to an accepting sender |
| Mediator.RejectingSenderToUnknownDropped | DesignPatterns/Behavioral/Mediator.cs:91-96 | a parcel from a rejecting sender to an unknown code is lost |
| Mediator.BouncedBackToAcceptingSender | DesignPatterns/Behavioral/Mediator.cs:111-115 | a parcel an accepting user sends to a rejecting user comes back to the sender (also lines 26-29) |
| Mediator.ExhaustedOnlyBetweenRejecting | DesignPatterns/Behavioral/Mediator.cs:87-115 | the send bound can run out only when the recipient and the sender's own code both belong to registered rejecting users |
| Mediator.RejectingPairNeverEnds | DesignPatterns/Behavioral/Mediator.cs:87-115 | when both of those codes belong to registered rejecting users, no bound on sends is enough |
| Mediator.SelfAddressedNeverEnds | DesignPatterns/Behavioral/Mediator.cs:87-115 | a registered rejecting user sending to its own code never finishes |
| Mediator.GuardedRouteAgrees | DesignPatterns/Behavioral/Mediator.cs:91-96 | the guarded routing always finishes, agrees with the source wherever the source finishes, and loses the parcel where the source would recurse forever |
| Observer.IndexOf | DesignPatterns/Behavioral/Observer.cs:60-63 | the position of the first occurrence |
| Observer.RemoveFirst | DesignPatterns/Behavioral/Observer.cs:60-63 | an absent listener leaves the list as it was; otherwise exactly the first occurrence is removed and the order of the rest is kept |
| Observer.TemperatureSensor.constructor | DesignPatterns/Behavioral/Observer.cs:51-83 | no listeners and temperature 0 |
| Observer.TemperatureSensor.AddListener | DesignPatterns/Behavioral/Observer.cs:55-58 | the listener is appended, duplicates allowed |
| Observer.TemperatureSensor.RemoveListener | DesignPatterns/Behavioral/Observer.cs:60-63 | the first occurrence of the listener is removed, if any |
| Observer.TemperatureSensor.NotifyListeners | DesignPatterns/Behavioral/Observer.cs:65-71 | afterwards every subscribed heater and cooler has a status matching the current temperature |
| Observer.TemperatureSensor.SetTemperature | DesignPatterns/Behavioral/Observer.cs:88-92 | the value is stored, the listener list is kept, and every subscriber is updated |
| Observer.Heater.constructor | DesignPatterns/Behavioral/Observer.cs:108-113 | a new heater is off and has subscribed itself at the end of the sensor's list |
| Observer.Heater.Update | DesignPatterns/Behavioral/Observer.cs:119-122 | heating exactly when the temperature is strictly below the heater's limit |
| Observer.AirConditioner.constructor | DesignPatterns/Behavioral/Observer.cs:137-142 | a new air conditioner is off and has subscribed itself at the end of the sensor's list |
| Observer.AirConditioner.Update | DesignPatterns/Behavioral/Observer.cs:148-151 | cooling exactly when the temperature is strictly above the cooler's limit |
| Strategy.Matches | DesignPatterns/Behavioral/Strategy.cs:88-115 | both strategies accept a value equal to the criteria; for empty criteria the substring test accepts every value and the exact test only the empty one |
| Strategy.Fold | DesignPatterns/Behavioral/Strategy.cs:114 | the case-folded string has the same length and every character is folded |
| Strategy.Filter | DesignPatterns/Behavioral/Strategy.cs:86-116 | the result is a subsequence of the collection in collection order, and keeps every copy of each matching element and no copy of any other |
| Strategy.EqualsFindsCopies | DesignPatterns/Behavioral/Strategy.cs:88-96 | the equals strategy returns exactly the copies of the criteria, case-sensitively |
| Strategy.EqualsWithinContains | DesignPatterns/Behavioral/Strategy.cs:88-115 | whatever the equals strategy finds, the contains strategy finds too |
| Strategy.EmptyCriteriaMatchesAll | DesignPatterns/Behavioral/Strategy.cs:107-115 | empty criteria make the contains strategy return the whole collection |
| Strategy.FoldIdempotent | DesignPatterns/Behavioral/Strategy.cs:114 | folding twice is folding once |
| Strategy.ContainsIgnoresCriteriaCase | DesignPatterns/Behavioral/Strategy.cs:114 | the case of the criteria does not affect the contains strategy |
| Strategy.SearchableCollection.constructor | DesignPatterns/Behavioral/Strategy.cs:57-61 | empty, with no strategy |
| Strategy.SearchableCollection.Add | DesignPatterns/Behavioral/Strategy.cs:63-66 | the value is appended and the strategy is kept |
| Strategy.SearchableCollection.SetStrategy | DesignPatterns/Behavioral/Strategy.cs:70-73 | the strategy is replaced and the items are kept |
| Strategy.SearchableCollection.Search | DesignPatterns/Behavioral/Strategy.cs:68 | no strategy gives nothing; otherwise the strategy's filter of the items |
| Strategy.CaseBlindOccurrence | DesignPatterns/Behavioral/Strategy.cs:31-34 | "Do" occurs, ignoring case, in "Natasha Froddond" and "John Doe" |
| Strategy.NoOccurrence | DesignPatterns/Behavioral/Strategy.cs:31-34 | "Do" does not occur in "Toby Chassuller" |
| Strategy.ContainsScenario | DesignPatterns/Behavioral/Strategy.cs:31-34 | over John Doe, Toby Chassuller and Natasha Froddond, the contains search for "Do" keeps John Doe and Natasha Froddond, in that order |
| Builder.BitsDistinct | DesignPatterns/Creational/Builder.cs:31-39 | two topping flags share a bit exactly when they are the same topping |
| Builder.CombineHolds | DesignPatterns/Creational/Builder.cs:31-39 | combined flags hold a topping exactly when it was one of those combined |
| Builder.Pizza.constructor | DesignPatterns/Creational/Builder.cs:50-54 | a new pizza has the default sauce and no toppings |
| Builder.Pizza.SetSauce | DesignPatterns/Creational/Builder.cs:56-59 | the sauce is set and the toppings kept |
| Builder.Pizza.SetToppings | DesignPatterns/Creational/Builder.cs:60-64 | the toppings are set and the sauce kept |
| Builder.RecipeToppings | DesignPatterns/Creational/Builder.cs:148-180 | pepperoni has exactly pepperoni and cheese; the special has every topping but pepperoni |
| Builder.RecipeFlags | DesignPatterns/Creational/Builder.cs:14-22 | pepperoni's flags are Pepperoni or Cheese, the special's Bacon or Cheese or Onion or Sausage (also lines 148-159, 169-180) |
| Builder.PizzaRecipe.constructor | DesignPatterns/Creational/Builder.cs:124-126 | a recipe starts with no pizza |
| Builder.PizzaRecipe.PrepareNewPizza | DesignPatterns/Creational/Builder.cs:128-131 | a fresh pizza with default sauce and no toppings |
| Builder.PizzaRecipe.AddSauce | DesignPatterns/Creational/Builder.cs:150-174 | the recipe's sauce is set, toppings untouched |
| Builder.PizzaRecipe.AddToppings | DesignPatterns/Creational/Builder.cs:155-179 | the recipe's toppings are set, sauce untouched |
| Builder.PizzaRecipe.ServePizza | DesignPatterns/Creational/Builder.cs:137 | the pizza under construction |
| Builder.PizzaChef.constructor | DesignPatterns/Creational/Builder.cs:78-81 | no pizzas and no recipe |
| Builder.PizzaChef.SetPizzaRecipe | DesignPatterns/Creational/Builder.cs:83-86 | the recipe is replaced and the queue kept |
| Builder.PizzaChef.ConstructPizza | DesignPatterns/Creational/Builder.cs:88-94 | without a recipe: an error; otherwise one fresh pizza with the recipe's sauce and toppings joins the back of the queue, and no queued pizza changes |
| Builder.PizzaChef.ServePizza | DesignPatterns/Creational/Builder.cs:96 | pizzas come out in the order they were made; an empty queue is an error |
| Memento.File.constructor | DesignPatterns/Behavioral/Memento.cs:42-47 | a file with its author, content and title |
| Memento.File.SetContent | DesignPatterns/Behavioral/Memento.cs:46 | only the content changes |
| Memento.File.CreateState | DesignPatterns/Behavioral/Memento.cs:49 | the memento captures the current content |
| Memento.File.RestoreState | DesignPatterns/Behavioral/Memento.cs:51-54 | the content comes from the memento; author and title are unchanged |
| Memento.FileMemory.constructor | DesignPatterns/Behavioral/Memento.cs:79 | no saved states |
| Memento.FileMemory.AddState | DesignPatterns/Behavioral/Memento.cs:81-84 | the state is pushed and is now the last one |
| Memento.FileMemory.GetLastState | DesignPatterns/Behavioral/Memento.cs:86 | the most recently pushed state, which stays saved; an empty history is an error |
| Memento.SaveEditRestore | DesignPatterns/Behavioral/Memento.cs:19-32 | saving, editing and restoring the last state undoes the edit |
| Command.House.State | DesignPatterns/Behavioral/Command.cs:85-89 | reports the state recorded for the given room; each room has its own property |
| Command.House.constructor | DesignPatterns/Behavioral/Command.cs:83-96 | a new house has every room dirty |
| Command.Execute | DesignPatterns/Behavioral/Command.cs:105-148 | a task cleans exactly its rooms of its own house and leaves every other room as it was |
| Command.ExecuteTasks | DesignPatterns/Behavioral/Command.cs:68-74 | after each task runs in turn, a room is clean exactly when some task cleans it or it was already clean |
| Command.WholeHouseIsThreeRooms | DesignPatterns/Behavioral/Command.cs:113-147 | the whole-house task cleans the same rooms as the three single-room tasks |
| Command.RepeatCleansNothingMore | DesignPatterns/Behavioral/Command.cs:113-147 | running a list of tasks twice cleans the same rooms as running it once |
| Flyweight.AliasGenerator.constructor | DesignPatterns/Structural/Flyweight.cs:23 | the cache is empty |
| Flyweight.AliasGenerator.GetAlias | DesignPatterns/Structural/Flyweight.cs:25-32 | a known name gets its cached alias and nothing changes; a new name gets an alias no other name has, which is cached, and no entry is replaced |
| Composite.Movie.Title | DesignPatterns/Structural/Composite.cs:43-58 | a movie's title is its own name; a bundle's title opens with "Bundle of: " (OneMovieBundleTitle and Bundle.AddMovie state the rest) |
| Composite.JoinAppend | DesignPatterns/Structural/Composite.cs:58 | joining two non-empty lists is joining each and putting one separator between |
| Composite.Titles | DesignPatterns/Structural/Composite.cs:58 | each movie's own title, in order |
| Composite.TitlesAppend | DesignPatterns/Structural/Composite.cs:58-63 | the titles of appended movies are appended |
| Composite.Bundle.constructor | DesignPatterns/Structural/Composite.cs:54-56 | the bundle holds the given movies |
| Composite.Bundle.Title | DesignPatterns/Structural/Composite.cs:58 | "Bundle of: " followed by the children's titles joined by ", ", the same as the bundle's title as a movie |
| Composite.Bundle.AddMovie | DesignPatterns/Structural/Composite.cs:60-63 | movies are appended in order; when both the bundle and the added movies are non-empty, the new title is the old title, a separator and the added titles (otherwise the title follows from the new movie list) |
| Composite.OneMovieBundleTitle | DesignPatterns/Structural/Composite.cs:14-15 | a bundle of the first movie is titled "Bundle of: Slow and Safe" |
| Bridge.GetBookStyle | DesignPatterns/Structural/Bridge.cs:53-58 | 0 is the uppercase style, 1 the normal style, and any other number is an out-of-range error |
| Bridge.ToUpper | DesignPatterns/Structural/Bridge.cs:80-82 | same length, every character upper-cased, no lower-case letter left |
| Bridge.ToUpperIdempotent | DesignPatterns/Structural/Bridge.cs:80-82 | upper-casing twice is upper-casing once |
| Bridge.StyleName | DesignPatterns/Structural/Bridge.cs:78-90 | the normal style keeps a name as is; the uppercase style upper-cases it; a missing name stays missing |
| Bridge.Book.AuthorName | DesignPatterns/Structural/Bridge.cs:48 | the author's name is present exactly when given; the normal style keeps it, the uppercase style upper-cases it |
| Bridge.Book.BookName | DesignPatterns/Structural/Bridge.cs:49 | the same for the book's name |
| Bridge.Book.Title | DesignPatterns/Structural/Bridge.cs:70-75 | the possessive title opens with the styled author's name and closes with the styled book name, three characters apart; the other layout opens with the book name and closes with the author's, four apart; StyleIndependentOfLayout and the example title lemmas pin down the rest |
| Bridge.NewBook | DesignPatterns/Structural/Bridge.cs:44-58 | a book is made exactly for a defined style, with the given layout and names |
| Bridge.StyleIndependentOfLayout | DesignPatterns/Structural/Bridge.cs:70-83 | the uppercase style styles the names the same way in both layouts, and never the connecting words |
| Bridge.NormalAuthorAndNameTitle | DesignPatterns/Structural/Bridge.cs:11-15 | the example's normal "author's name" title |
| Bridge.NormalNameAndAuthorTitle | DesignPatterns/Structural/Bridge.cs:24-28 | the example's normal "name by author" title |
| Bridge.UppercaseNames | DesignPatterns/Structural/Bridge.cs:17-21 | the example's names upper-cased |
| Bridge.UppercaseAuthorAndNameTitle | DesignPatterns/Structural/Bridge.cs:21 | the example's uppercase title keeps the lower-case "'s" |
| Bridge.UppercaseNameAndAuthorTitle | DesignPatterns/Structural/Bridge.cs:34 | the example's uppercase "by" title |
| Adapter.TruncateToHundredths | DesignPatterns/Structural/Adapter.cs:88-104 | the amps times 100 with the fraction dropped toward zero, as the cast does |
| Adapter.ScaledToInt32 | DesignPatterns/Structural/Adapter.cs:88-104 | the cast succeeds exactly when the truncated value fits in 32 bits, and then gives that value |
| Adapter.AcOutlet.GetPower | DesignPatterns/Structural/Adapter.cs:72-75 | reports the current the outlet was made with |
| Adapter.UsbSocket.GetPower | DesignPatterns/Structural/Adapter.cs:83-106 | the capped adapter never exceeds its cap and gives the smaller of cap and converted value; the uncapped one gives the converted value; both fail exactly when the conversion overflows |
| Adapter.Phone.constructor | DesignPatterns/Structural/Adapter.cs:32-36 | a new phone is not charging |
| Adapter.Phone.IsCharging | DesignPatterns/Structural/Adapter.cs:36 | charging exactly when some current is stored |
| Adapter.Phone.ConnectTo | DesignPatterns/Structural/Adapter.cs:38-46 | more current than the phone's maximum is an overflow error that keeps the stored current, and a socket whose conversion fails gives the same error; otherwise the current is stored |
| Adapter.AdapterSafeForPhone | DesignPatterns/Structural/Adapter.cs:83-91 | an adapter capped at or below a phone's maximum never gives it too much current |
| Adapter.AsWrittenScalesByHundred | DesignPatterns/Structural/Adapter.cs:88-104 | as written, a 1 A outlet is converted to 100 mA |
| Adapter.ToMilliAmps | DesignPatterns/Structural/Adapter.cs:88-104 | the corrected conversion: one milliamp per thousandth of an amp, failing exactly when the value does not fit in 32 bits |
| Adapter.CorrectedScaleProtectsPhone | DesignPatterns/Structural/Adapter.cs:88-104 | the corrected conversion gives ten times the written one, so a 1 A outlet exceeds a 200 mA phone's limit, where the written conversion lets it through |
| Visitor.BasePrice | DesignPatterns/Behavioral/Visitor.cs:180-190 | the starting cost is never negative and is non-zero only for the plumber (also line 232) |
| Visitor.Price | DesignPatterns/Behavioral/Visitor.cs:180-252 | a room never costs a negative amount, and costs something exactly when it is one the trade works in: bathrooms and kitchens for the plumber, bathrooms and bedrooms for the maid |
| Visitor.TotalIsPriceByCounts | DesignPatterns/Behavioral/Visitor.cs:178-253 | the price of the rooms visited one by one equals the count of each kind times its price |
| Visitor.TotalIndependentOfOrder | DesignPatterns/Behavioral/Visitor.cs:96-102 | two residences with the same rooms in any order cost the same |
| Visitor.TotalNonNegative | DesignPatterns/Behavioral/Visitor.cs:178-253 | no set of rooms costs less than nothing |
| Visitor.ResidenceVisitor.constructor | DesignPatterns/Behavioral/Visitor.cs:180 | a plumber starts at 100.0, a maid at 0 (also lines 190, 232) |
| Visitor.ResidenceVisitor.Visit | DesignPatterns/Behavioral/Visitor.cs:192-210 | the visitor's price for the room is added to its cost: plumber 12.7 a bathroom and 15.3 a kitchen, maid 62.5 a bathroom and 54.8 a bedroom, nothing otherwise (also lines 234-252) |
| Visitor.Residence.constructor | DesignPatterns/Behavioral/Visitor.cs:92-94 | a residence with the given rooms |
| Visitor.Residence.Add | DesignPatterns/Behavioral/Visitor.cs:104-107 | the room is appended |
| Visitor.Residence.Accept | DesignPatterns/Behavioral/Visitor.cs:96-102 | every room is visited exactly once in order; the cost grows by the price of all the rooms and never goes down |
| Visitor.ExamplePrices | DesignPatterns/Behavioral/Visitor.cs:6-50 | the apartment costs 117.3 with the maid and 128.0 with the plumber; the house 289.4 and 140.7 |
| Visitor.ExampleRoomCounts | DesignPatterns/Behavioral/Visitor.cs:8-38 | the apartment has one bathroom, bedroom and kitchen; the house two bathrooms, three bedrooms, a kitchen and a living room |
| Facade.Where | DesignPatterns/Structural/Facade.cs:75-98 | the kept elements are exactly those accepted, with every copy, at most as many as there were |
| Facade.WhereAppend | DesignPatterns/Structural/Facade.cs:75-98 | filtering keeps the original order: the filter of a concatenation is the filter of the first part followed by that of the second |
| Facade.WhereSingleton | DesignPatterns/Structural/Facade.cs:75-98 | a single element is kept exactly when it is accepted; with WhereAppend this determines the filtered sequence element by element |
| Facade.MapSport | DesignPatterns/Structural/Facade.cs:45 | a sport event becomes a Sport event with its name and start, ending its duration after it starts |
| Facade.MapMusic | DesignPatterns/Structural/Facade.cs:47 | a music event becomes a Music event with its band, start and end |
| Facade.SportEventSystem.GetSportEventsForDate | DesignPatterns/Structural/Facade.cs:73-76 | exactly the catalogued matches that start on the date's day |
| Facade.MusicEventSystem.GetTickets | DesignPatterns/Structural/Facade.cs:96-99 | exactly the catalogued concerts that start on the date's day |
| Facade.InsertByStart | DesignPatterns/Structural/Facade.cs:41 | insertion adds exactly one copy of the event |
| Facade.InsertKeepsOrder | DesignPatterns/Structural/Facade.cs:41 | insertion keeps the events ordered by start |
| Facade.OrderByStart | DesignPatterns/Structural/Facade.cs:41 | the result is ordered by start and is a permutation of its input |
| Facade.OrderIsStable | DesignPatterns/Structural/Facade.cs:41 | events with equal starts keep their relative order |
| Facade.InsertKeepsTies | DesignPatterns/Structural/Facade.cs:41 | inserting an event puts it ahead of the events starting at the same time and leaves their order alone |
| Facade.EventSystem.FindEventsForDate | DesignPatterns/Structural/Facade.cs:36-43 | the day's mapped sport and music events, ordered by start |
| Facade.FindEventsExactlyThatDay | DesignPatterns/Structural/Facade.cs:36-43 | an event is found exactly when it is a catalogued match or concert starting on that day (also lines 73-76, 96-99) |
| Facade.TiesKeepSportBeforeMusic | DesignPatterns/Structural/Facade.cs:38-41 | among events starting together, sport events come first, each kind in catalogue order |
| Facade.NothingOnJanuary3 | DesignPatterns/Structural/Facade.cs:10-11 | nothing is found on January 3, 2018 |
| Facade.SportOnJanuary10 | DesignPatterns/Structural/Facade.cs:66-75 | of the two matches only the hockey game starts on January 10 |
| Facade.MusicOnJanuary10 | DesignPatterns/Structural/Facade.cs:87-97 | of the two concerts only Bon Jovi starts on January 10; Celine Dion started on January 6 |
| Facade.January10Order | DesignPatterns/Structural/Facade.cs:41 | the hockey game, starting at 10:00, stays ahead of the 18:00 concert |
| Facade.EventsOnJanuary10 | DesignPatterns/Structural/Facade.cs:13-27 | on January 10 the hockey game, ending at noon, comes before Bon Jovi, ending at 22:00; Celine Dion is left out (also lines 92-93) |
| Proxy.FriendOverPhone.constructor | DesignPatterns/Structural/Proxy.cs:29-32 | a new proxy is not connected |
| Proxy.FriendOverPhone.IsConnectedToFriend | DesignPatterns/Structural/Proxy.cs:31 | connected exactly when a friend is held |
| Proxy.FriendOverPhone.Talk | DesignPatterns/Structural/Proxy.cs:34-41 | afterwards the proxy is connected: to the friend it already had, or else to a new one |
| Proxy.FriendOverPhone.CallFriend | DesignPatterns/Structural/Proxy.cs:43-46 | a new friend is held |
| Prototype.Sheep.HairColor | DesignPatterns/Creational/Prototype.cs:38 | "Black" exactly for a black sheep and "White" exactly for a white one |
| Prototype.Sheep.constructor | DesignPatterns/Creational/Prototype.cs:36-70 | a sheep of a breed has that breed's hair colour and is unshaved |
| Prototype.Sheep.Shave | DesignPatterns/Creational/Prototype.cs:44-47 | the sheep is shaved |
| Prototype.Sheep.Clone | DesignPatterns/Creational/Prototype.cs:56-69 | a new, separate sheep of the same breed and colour, unshaved |
| FactoryMethod.Car.GetMake | DesignPatterns/Creational/FactoryMethod.cs:43-48 | "Mazda" exactly for the Mazda and "Audi" exactly for the Audi, so the make tells the cars apart |
| FactoryMethod.CreateCar | DesignPatterns/Creational/FactoryMethod.cs:25-36 | a car is made exactly for "Mazda" and "Audi", matched exactly, and reports the requested make; anything else is an out-of-range error |
| FactoryMethod.CreateFromMake | DesignPatterns/Creational/FactoryMethod.cs:25-49 | creating from any car's make gives that car back |
| FactoryMethod.FactoryScenario | DesignPatterns/Creational/FactoryMethod.cs:8-17 | Mazda and Audi are made and report their makes; Honda is refused |
| AbstractFactory.Car.GetMake | DesignPatterns/Creational/AbstractFactory.cs:81 | "Ford" exactly for the Ford car and "Volvo" exactly for the Volvo car (also line 118) |
| AbstractFactory.Truck.GetMake | DesignPatterns/Creational/AbstractFactory.cs:93 | "Ford" exactly for the Ford truck and "Volvo" exactly for the Volvo truck (also line 130) |
| AbstractFactory.CreateCar | DesignPatterns/Creational/AbstractFactory.cs:79-94 | a factory's car reports the factory's make (also lines 102-107, 116-131, 139-144) |
| AbstractFactory.CreateTruck | DesignPatterns/Creational/AbstractFactory.cs:79-94 | a factory's truck reports the factory's make (also lines 102-107, 116-131, 139-144) |
| AbstractFactory.NewCarDealer | DesignPatterns/Creational/AbstractFactory.cs:65-70 | a dealer's car and truck share the make of the factory they came from |
| AbstractFactory.FamiliesDiffer | DesignPatterns/Creational/AbstractFactory.cs:79-144 | different factories make different cars and different trucks |
| AbstractFactory.DealerScenario | DesignPatterns/Creational/AbstractFactory.cs:6-22 | a Volvo dealer has a Volvo car and truck; a Ford dealer has a Ford car and truck |

## Left out

- Interpreter, PrivateClassData and Singleton are not part of this model. The first two compute with `double` and `Math.PI`. The third is runtime initialisation from `Random` and the calendar.
- The xUnit test methods are not modelled as such. Each becomes a scenario method or lemma over the model.
- Clocks and random values are parameters or counters. `DateTime.UtcNow` in the library pool is the `now` argument of `RentBook`. `Guid.NewGuid` in the alias cache is a counter that never repeats.
- C# `decimal` values are scaled integers. Visitor prices are tenths. Adapter amps are thousandths, one finer than the hundredths the scaling needs, so that the truncating cast is visible. Observer temperatures are integers; only strict comparisons are made on them.
- Case mapping is ASCII only. `ToUpper` in Bridge and `OrdinalIgnoreCase` in Strategy are not modelled with Unicode tables.
- The .NET regular-expression engine is not modelled. The word pattern `[^ .,']+` is written as a character test and a scanner.
- State: the source mutates the state object's `Volume` in place before swapping states. The model replaces the state value. State objects are never shared, so the two cannot be told apart.
- ChainOfResponsibility.CustomerSupport.SolveProblem: requires a ghost witness listing the handlers a problem visits, ending at one that can solve it or that has no successor. Such a path exists exactly when the escalation ends, so the model covers every call that terminates, including ones through a cycle of links (CyclicEscalationScenario). It does not describe the call on a cycle none of whose handlers can solve the severity, where the source recurses without end.
- ObjectPool.Library.constructor: requires the larger of the count and the minimum to be non-negative, because `Enumerable.Repeat` throws on a negative count. The shared `Book` instance that `Enumerable.Repeat` puts in the pool is modelled as equal book values.
- Null strings: postal codes (ParcelService.Register and Send) and the values of a searchable collection (Strategy.Filter) are never null, because Dafny strings cannot be null. In the source, a null postal code makes the dictionary lookup throw, and a null collection value makes the substring test throw.
- Mediator.ParcelService.Send: carries a bound on the number of sends, reporting the bound running out as an error, because the source's mutual recursion does not always end (see Findings). A rejecting user sends back through the service it was handed. In the source it is the service the user was built with; in the example they are the same service.
- Decorator: only one decorator around a plain door is modelled. Stacking decorators on decorators is not.
- Composite: bundles inside bundles are captured as values when added. Later changes to an inner bundle object, and a bundle containing itself, are not modelled.
- Strategy: the example's seven-name collection is checked on three of its names. The criteria are never null. `Where` is lazy in the source; the model computes the result at once.
- Iterator: `Dispose` does nothing in the source and is not modelled. `Current` before the first `MoveNext` is `None` rather than a null string.
- Visitor: the double dispatch from each room's `Accept` to the visitor's `Visit` overload is collapsed into one `Visit` that matches on the room.
- Proxy: `Friend.Talk` has no observable effect in the source, so talking is modelled only through the connection it establishes.

## Findings

| source | as written | input that shows it | evidently intended | confidence | as-written member | corrected member |
|---|---|---|---|---|---|---|
| DesignPatterns/Behavioral/Mediator.cs:87-96, 111-115 | the guard drops a rejecting sender's parcel only when the recipient is unknown; a parcel between two registered rejecting users, or from a registered rejecting user to its own code, is sent back and forth forever | two registered rejecting users, one sending a parcel to the other's postal code | a returned parcel that would reach another rejecting user is dropped, so every send finishes | medium, not executed | Mediator.RejectingPairNeverEnds | Mediator.GuardedRouteAgrees |
| DesignPatterns/Structural/Adapter.cs:88, 104 | amps are converted to milliamps by multiplying by 100 | an outlet giving 1 A through the uncapped adapter yields 100 mA, under a 200 mA phone limit, so the phone accepts it | multiply by 1000, one amp being a thousand milliamps | medium, not executed | Adapter.AsWrittenScalesByHundred | Adapter.CorrectedScaleProtectsPhone |
