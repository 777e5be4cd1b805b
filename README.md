# goal_processing in Dafny

A model of the goal-processing engine of `goal_processing`: a BDI-style agent
whose beliefs live in a nested dictionary, whose goals are promoted by user
functions into a priority-ordered queue of intentions, and whose every step is
recorded in an execution history that two explainers traverse. The model covers:

- the entity registry `Entity.byId`, with the back-references the
  constructors wire. It is a map from ids to entity records whose lists hold
  ids (`registry.dfy`).
- `DataContainer.get`/`set` on dotted paths over a recursive `Value`
  (`values.dfy`, `container.dfy`). This includes the `TypeError`s Python
  raises when a path meets something that is not a dictionary.
- the instrumented accessors `createGet`/`createSet`. They register one
  `Attribute` per path, link it to the accessing entity in both directions,
  and record a `State` (`container.dfy`).
- `State` with its reversed `__lt__` (`events.dfy`), and `bisect.insort` over
  lists kept in descending key order (`insort.dfy`).
- `InMemoryExecutionHistory`, with its sorted `addAsync` and its filtered,
  limited `getAsync` scan (`history.dfy`).
- goal clones: `getClone`, `promote`, `isInFinalState`, the reversed
  `Goal.__lt__`, and `_detectConflicts` (`goals.dfy`).
- `SequentialProcessor.deliberateAsync` (belief review, then promotion into
  the queue) and `processIntentionsAsync` (conflict resolution, plan
  selection, action execution) (`processor.dfy`).
- `SequentialExplainer.causalFunction` and the two traversals of
  `AbstractExplainer`, `xHistoryAsync` and `xNotAsync` (`explainer.dfy`).

Stateful parts of the source are classes with `modifies` frames:
- the registry, the platform's clock and id supply, the history, the data
  containers, the processor and the explainer.

Each method is tied to a pure specification function of the old state, and
the properties are proved about those functions as lemmas: `SetData`,
`Read`, `Query`, `Insert`, `Climb`, `Enqueue`, `Detect`, `Drain`,
`XHistoryOf` and `XNotOf`. What the promotion phase records is stated by
`ClimbRecords` and `EnqueueRecords`: the promotion records among the new
states of the history, in order.

The platform and user code the engine calls are parameters:
- `uuid.uuid4().hex` is an id oracle that never repeats (`Platform.Runtime.GenId`).
- `time.time()` is a non-decreasing integer clock (`Platform.Runtime.Time`).
- A belief-review function is the list of accesses it makes, given the
  environment, beliefs and channel it sees.
- A promotion function is the belief paths it reads plus the `Option<int>`
  it returns.
- An action is its outcome, `Success` or `Failure(error, stack)`.

## Model

| member | source | states |
|---|---|---|
| Values.Split | src/goal_processing/core.py:186 | `path.split('.')` gives at least one piece, and no piece contains a dot |
| Values.JoinSplit | src/goal_processing/core.py:186 | joining the pieces of a path with dots gives the path back |
| Values.SplitJoin | src/goal_processing/core.py:186 | splitting the dot-join of dot-free pieces gives the pieces back |
| Values.FindPut | src/goal_processing/core.py:185-214 | after `set(path, v)` on a dictionary with a non-empty path, reading `path` back finds `v`, and `get` returns `v` |
| Values.PutExisting | src/goal_processing/core.py:193-200 | writing the value a path already holds leaves the data exactly as it was |
| Values.PutFrame | src/goal_processing/core.py:185-199 | a write changes only its own path: every path that leaves it at some key reads the same before and after |
| Values.PutReplacesNonDict | src/goal_processing/core.py:187-192 | an intermediate of the written path that was missing or not a dictionary ends up as a fresh dictionary holding only the rest of the path |
| Values.ReadIsLookup | src/goal_processing/core.py:202-214 | whenever `get` returns, it returns the stored value for a present path and `False` for an absent one; it raises only on a path that does not reach a value |
| Values.SetData | src/goal_processing/core.py:171-200 | the change flag is true exactly when the data changed; the empty path replaces the whole data; a non-empty path raises TypeError exactly on non-dictionary data; otherwise the path then holds `v`, and the flag is false exactly when it already held `v` |
| Platform.Runtime.constructor | src/goal_processing/core.py:43 | the shared default `State` id is one identifier, issued once |
| Platform.Runtime.GenId | src/goal_processing/core.py:30-32 | a generated id is non-empty and was never handed out before; it is recorded as issued |
| Platform.Runtime.Claim | src/goal_processing/core.py:20-25 | an explicit id is recorded so that it is never generated later |
| Platform.Runtime.Time | src/goal_processing/processors/sequential_processor.py:23 | a clock reading is never earlier than the previous one |
| Events.BisectOrderIsDescendingTime | src/goal_processing/core.py:76-81 | a list in which no state is `<` an earlier one under the reversed `__lt__` is exactly a list in descending time order |
| Goals.QueueOrderIsDescendingPriority | src/goal_processing/core.py:357-362 | the order `insort` keeps under the reversed `Goal.__lt__` is descending priority |
| Insort.Insert | src/goal_processing/execution_history/in_memory_execution_history.py:60-62 | insertion adds exactly one element and keeps every other element, as often as it occurs |
| Insort.InsertionPoint | src/goal_processing/processors/sequential_processor.py:28 | the insertion position lies within the list |
| Insort.InsertAt | src/goal_processing/processors/sequential_processor.py:28 | the new element lands at the insertion point, with the old elements before and after it in their order |
| Insort.InsertionPointSplits | src/goal_processing/processors/sequential_processor.py:28 | in a sorted list, every element before the insertion point has a key at least the new one's, so a new entry goes after existing entries of equal key; every element after it has a smaller key |
| Insort.InsertionPointUnique | src/goal_processing/processors/sequential_processor.py:28 | the insertion point is the only position that splits a sorted list that way |
| Insort.InsertIndex | src/goal_processing/processors/sequential_processor.py:28 | element by element: old elements before the insertion point, the new one at it, the old rest shifted by one |
| Insort.InsertSorted | src/goal_processing/execution_history/in_memory_execution_history.py:60-62 | insertion keeps a list in descending key order |
| Insort.InsertThenRemove | src/goal_processing/execution_history/in_memory_execution_history.py:62 | removing the inserted element gives the old list back, so the relative order of existing elements is kept |
| Insort.InsortRight | src/goal_processing/execution_history/in_memory_execution_history.py:62 | the binary search of `bisect.insort` under the reversed `__lt__` puts the element where the reference insertion does |
| History.Select | src/goal_processing/execution_history/in_memory_execution_history.py:23-57 | the matching states are never more than the stored ones |
| History.SelectExact | src/goal_processing/execution_history/in_memory_execution_history.py:23-57 | a state is selected exactly when it is stored and satisfies every filter present; the range bounds are inclusive |
| History.SelectSorted | src/goal_processing/execution_history/in_memory_execution_history.py:23-57 | the selection keeps the stored order, so it stays in descending time order |
| History.QuerySound | src/goal_processing/execution_history/in_memory_execution_history.py:17-58 | every state a query returns is stored and matches every filter present |
| History.QueryComplete | src/goal_processing/execution_history/in_memory_execution_history.py:17-58 | without `limit`, every stored state that matches is returned, so an empty filter returns everything |
| History.QueryLimit | src/goal_processing/execution_history/in_memory_execution_history.py:52-55 | with `limit = k`, the result is the first `k` matches in stored order (none for `k <= 0`) |
| History.SelectFilterLimitIrrelevant | src/goal_processing/execution_history/in_memory_execution_history.py:52-55 | `limit` is not a matching condition: it never changes which states match |
| History.QueryOrderIrrelevant | src/goal_processing/execution_history/in_memory_execution_history.py:20-23 | the `order` filter never changes the result, because the loop iterates `self.states` and not the reversed copy |
| History.SelectOrderIrrelevant | src/goal_processing/execution_history/in_memory_execution_history.py:20-23 | the `order` filter never changes which states match |
| History.QueryLatest | src/goal_processing/core.py:610-613 | on a history in descending time order, a `limit: 1` query returns one matching state of maximal time, and returns nothing only when no stored state matches |
| History.QueryStops | src/goal_processing/execution_history/in_memory_execution_history.py:52-55 | once `limit` states are collected, the states after the stopping point cannot change the result |
| History.InMemoryExecutionHistory.constructor | src/goal_processing/execution_history/in_memory_execution_history.py:13-15 | the history starts empty |
| History.InMemoryExecutionHistory.Get | src/goal_processing/execution_history/in_memory_execution_history.py:17-58 | the scan, with its `order` copy, its per-filter tests and its early `break`, returns exactly the reference query |
| History.InMemoryExecutionHistory.Add | src/goal_processing/execution_history/in_memory_execution_history.py:60-62 | the states stay in descending time order; the new state goes where `Insert` puts it, after all states with time at least its own; the log of added states grows by it |
| History.Record | src/goal_processing/processors/sequential_processor.py:23 | recording a state adds exactly one entry, from `fromId` to `toId` with value `v`, stamped with the shared default id and two clock readings, `time` first |
| Container.DataContainer.constructor | src/goal_processing/core.py:162-169 | a container starts with its name, its data and no attributes |
| Container.DataContainer.Set | src/goal_processing/core.py:171-200 | `set` returns the change flag of `SetData` and leaves its new data; on TypeError the data is unchanged |
| Container.DataContainer.Get | src/goal_processing/core.py:202-214 | the key-by-key loop of `get` returns what `Read` describes, including the TypeError of indexing a non-dictionary with a string |
| Container.DataContainer.AttributeFor | src/goal_processing/core.py:224-226 | each `name.path` gets one Attribute, registered the first time the path is seen and reused after that |
| Container.DataContainer.LinkPath | src/goal_processing/core.py:227-229 | after linking, the attribute is in the entity's `attrs` and the entity in the attribute's `relations`; only links and new attributes change in the registry |
| Container.DataContainer.TrackedGet | src/goal_processing/core.py:233-249 | the getter links the path's attribute to `toId` and returns what `get` returns; a path keeps the attribute it already has, a new path gets one, and every other path keeps its own; it records one state from the attribute to `toId` exactly when the value differs from `lastVal` |
| Container.DataContainer.TrackedSet | src/goal_processing/core.py:216-231 | the setter writes like `set`; only when the write changed the data does it link the path's attribute to `fromId` (kept if the path had one, every other path keeping its own) and record one state from `fromId` to the attribute; otherwise attributes, registry and history are untouched |
| Container.DataContainer.NoteWrite | src/goal_processing/core.py:223-230 | after a changing write, the path's attribute (kept if the path had one) is linked to `fromId`, and exactly one state from `fromId` to it, carrying the value, is recorded |
| Registry.AddFreshWellFormed | src/goal_processing/core.py:20-25 | registering a fresh entity with well-typed references keeps the registry well formed |
| Registry.AddBackRefsWellFormed | src/goal_processing/core.py:322-401 | appending a new entity's id to the back-reference list of each entity it names, when each is of the kind that list holds, keeps the registry well formed and adds no entity |
| Registry.LinkWellFormed | src/goal_processing/core.py:227-229 | adding a missing attribute link in both directions keeps the links mirrored and free of repeats |
| Registry.LinkLinksOnly | src/goal_processing/core.py:242-244 | linking changes only the two link lists, and puts each end in the other's list |
| Registry.Registry.constructor | src/goal_processing/core.py:18 | the registry starts empty |
| Registry.Registry.TakeId | src/goal_processing/core.py:20-25 | an explicit id is kept, and `""` gets a generated one; either way the id is new |
| Registry.Registry.NewAttribute | src/goal_processing/core.py:89-98 | an Attribute is registered under a new id with its name and no relations |
| Registry.Registry.NewBeliefReviewFunction | src/goal_processing/core.py:259-274 | a belief review function is registered with no agents and no attributes |
| Registry.Registry.NewAction | src/goal_processing/core.py:283-286 | an action is registered with no plans |
| Registry.Registry.NewGoalPromotion | src/goal_processing/core.py:294-310 | a goal promotion is registered with its name, no goals and no attributes |
| Registry.Registry.AppendToAll | src/goal_processing/core.py:327-328 | the loop that appends one back-reference per target equals the reference `AddBackRefs`, and keeps the registry well formed |
| Registry.Registry.NewPlan | src/goal_processing/core.py:322-328 | a plan is registered, and every action in its list gets the plan appended to `plans`, once per occurrence |
| Registry.Registry.NewGoal | src/goal_processing/core.py:336-355 | a goal is registered, then appended to the `goals` of each of its promotions and then each of its plans |
| Registry.Registry.NewConflict | src/goal_processing/core.py:388-401 | a conflict is registered with its goal list (its `goalsIds`), and each goal gets it appended to `conflicts` |
| Registry.Registry.NewAgent | src/goal_processing/core.py:409-436 | an agent is registered, and its review functions, goals and conflicts get it appended to `agents`, in that order |
| Registry.Registry.Link | src/goal_processing/core.py:227-229 | the link is added at most once in each direction: when absent it is appended to both lists; when present nothing changes |
| Goals.AddStatus | src/goal_processing/core.py:377-380 | the status keeps its names and gains the new one, never twice; it grows only when the name is new |
| Goals.Promote | src/goal_processing/core.py:377-380 | `promote` always sets the priority, adds the status name once, and keeps the clone's ids |
| Goals.PromoteIdempotent | src/goal_processing/core.py:377-380 | promoting twice with the same name and priority is promoting once |
| Goals.GetClone | src/goal_processing/core.py:367-375 | a clone keeps the goal id, has priority 0 and an empty status, and gets a fresh `cloneId` |
| Goals.Fired | src/goal_processing/processors/sequential_processor.py:19-25 | no more promotions fire than the goal has |
| Goals.AddAllLength | src/goal_processing/core.py:378-379 | promoting with several names grows the status by one per name exactly when no name repeats |
| Goals.ClimbStatus | src/goal_processing/processors/sequential_processor.py:19-25 | the promotion loop keeps the clone's ids, and the status holds the names of the promotions fired before the first `None`, in order |
| Goals.FinalIff | src/goal_processing/core.py:364-365 | a fresh clone ends in its final state exactly when every target promotion fired and no two promotion names are equal |
| Goals.Members | src/goal_processing/core.py:508-509 | a conflict has no more queued members than there are queued clones |
| Goals.Dedup | src/goal_processing/core.py:513-515 | the `toRemove` set holds exactly the listed ids, each once |
| Goals.MembersIn | src/goal_processing/core.py:508-509 | a conflict's members are exactly the clone ids of queued clones whose goal is in `goalsIds` |
| Goals.DetectEntry | src/goal_processing/core.py:505-518 | a conflict is reported exactly when at least two queued clones belong to it; `chosen` is the first of them in queue order and `toRemove` is all the later ones |
| Goals.HeadChosen | src/goal_processing/processors/sequential_processor.py:38-43 | the queue head is the chosen clone of every detected conflict of its goal, and is never in that conflict's `toRemove` |
| Goals.ChosenOutranks | src/goal_processing/core.py:508-515 | in a queue in descending priority order, the chosen clone comes before each dropped clone and has at least its priority |
| Explainer.CausalFunctionAsWritten | src/goal_processing/explainers/sequential_explainer.py:8-25 | an id that is not registered has no predecessors |
| Explainer.ExactTests | src/goal_processing/explainers/sequential_explainer.py:11-20 | each of the five exact class-name tests recognises exactly its own class |
| Explainer.SubstringTests | src/goal_processing/explainers/sequential_explainer.py:21-24 | the `"Attribute" in className()` test holds for attributes and for goal promotions whose name contains "Attribute" |
| Explainer.CausalFunctionAsWrittenAgrees | src/goal_processing/explainers/sequential_explainer.py:8-25 | the function as written fails (AttributeError) exactly on a goal promotion whose name contains "Attribute"; everywhere else it returns the intended predecessors |
| Explainer.CausalFunctionAsWrittenFails | src/goal_processing/explainers/sequential_explainer.py:21-24 | a goal promotion named "Attribute check" makes the function as written read `.relations` and fail, where the intended result is its (empty) `attrs` |
| Explainer.CausalFunctionTyped | src/goal_processing/explainers/sequential_explainer.py:8-25 | in a well-formed registry, predecessors are registered entities of the kind the rule names: attributes map to accessing entities, review functions and promotions to attributes, actions to plans, plans and conflicts to goals, goals to conflicts or promotions; agents have none |
| Explainer.CausesBound | src/goal_processing/core.py:608-613 | `xHistory` finds at most one cause per predecessor |
| Explainer.CausesLatest | src/goal_processing/core.py:608-613 | at most one cause per predecessor; each is a stored state from a predecessor into the effect's source (or into `""`) no later than the effect's activation, and no matching state of that predecessor is later; every predecessor with a matching state has a cause at least as late |
| Explainer.SortByTimeCorrect | src/goal_processing/core.py:614 | `causes.sort()` with the reversed `__lt__` orders by descending time and keeps every cause |
| Explainer.SortedCausesOrder | src/goal_processing/core.py:608-614 | the causes iterated are in descending time order and are exactly the collected ones |
| Explainer.SortedCauses | src/goal_processing/core.py:608-614 | every cause iterated is a stored state |
| Explainer.XHistoryDepths | src/goal_processing/core.py:615-618 | every pair yielded is at a depth from `r` to the deepest level explored |
| Explainer.XHistoryStored | src/goal_processing/core.py:608-618 | every state yielded is a stored state |
| Explainer.XHistoryTop | src/goal_processing/core.py:615-618 | with any fuel left, the entries at depth `r` are exactly the effect's causes, in their order |
| Explainer.XHistoryFirstLevel | src/goal_processing/core.py:608-618 | for the explainer's causes, the first level is in descending time order and is the collected causes |
| Explainer.ListAppend | src/goal_processing/core.py:615-618 | the explanation of a list of causes is the explanations of its parts, in order |
| Explainer.Score | src/goal_processing/core.py:645 | `1/r * (len(causes) / (len(possibleCauses) + 1))` is non-negative, zero without realised causes, and below 1 whenever at most all possible causes are realised |
| Explainer.Realize | src/goal_processing/core.py:638-644 | each possible cause is either realised or left to explore |
| Explainer.RealizeExact | src/goal_processing/core.py:638-644 | a realised cause is a stored state from a predecessor inside the window; a predecessor is left to explore exactly when no stored state matches its query |
| Explainer.StepOfSplits | src/goal_processing/core.py:635-645 | one step splits the possible causes into realised and unrealised ones, and the unrealised ones are predecessors |
| Explainer.XNotOf | src/goal_processing/core.py:620-653 | a call only ever adds to `past` |
| Explainer.XNotChildren | src/goal_processing/core.py:646-652 | the loop over the predecessors to explore only ever adds to `past` |
| Explainer.XNotTraversal | src/goal_processing/core.py:626-653 | no yielded state comes from a source visited before, no source is yielded twice, `past` grows by exactly the yielded sources, every depth is at least `r`, and every score is non-negative |
| Explainer.XNotScores | src/goal_processing/core.py:645-650 | non-negative scores sum to a non-negative score |
| Explainer.XNotShape | src/goal_processing/core.py:626-653 | a call yields nothing exactly when its source is already in `past`; otherwise the node comes last at depth `r` with its own score plus the scores of every entry before it, after deeper entries only; a node with nothing to explore yields just itself with its own score |
| Explainer.XNotNoCauses | src/goal_processing/core.py:638-653 | a fresh source with no predecessors yields one triple, with score 0 |
| Explainer.PastDefaults.constructor | src/goal_processing/core.py:599-620 | the `set()` defaults of `xHistoryAsync` and `xNotAsync` start empty; they are made once, not per explainer |
| Explainer.SequentialExplainer.constructor | src/goal_processing/core.py:580-585 | the explainer reads the given history and registry and takes the process's default `past` sets as they stand, with whatever earlier explainers added; explainers built over the same defaults share them |
| Explainer.SharedPast | src/goal_processing/core.py:620-629 | once one explainer has explained why not `e` with the default `past`, a second explainer over the same defaults yields nothing for `e` |
| Explainer.SequentialExplainer.CollectCauses | src/goal_processing/core.py:608-613 | the loop of one `limit: 1` query per predecessor collects exactly `CausesOf` |
| Explainer.SequentialExplainer.SortedCausesFor | src/goal_processing/core.py:608-614 | the causes `xHistoryAsync` iterates are the collected causes after `causes.sort()`, which are in descending time order |
| Explainer.SequentialExplainer.XHistory | src/goal_processing/core.py:599-618 | `xHistoryAsync(e, r)` yields `XHistoryOf`; the shared `past` gains the effect's source and only the sources it yields |
| Explainer.SequentialExplainer.ExplainAll | src/goal_processing/core.py:615-618 | the loop yields each cause at depth `r` followed by its own explanation |
| Explainer.SequentialExplainer.Why | src/goal_processing/core.py:655-664 | `xHistory(effect)` yields the explanation from depth 1 on the current history and registry |
| Explainer.SequentialExplainer.WindowStart | src/goal_processing/core.py:632-637 | the window opens one tick after the last earlier state into the effect's target, or at 0 |
| Explainer.SequentialExplainer.RealizeCauses | src/goal_processing/core.py:638-644 | the loop over the possible causes splits them as `Realize` does |
| Explainer.SequentialExplainer.AddScores | src/goal_processing/core.py:649-650 | `score += resTuple[1]` adds the scores of every tuple yielded |
| Explainer.SequentialExplainer.XNot | src/goal_processing/core.py:620-653 | `xNotAsync(e, r)` with the shared `past` yields `XNotOf` and leaves its `past` |
| Explainer.SequentialExplainer.StepAt | src/goal_processing/core.py:626-645 | the window query, the realised causes and the score of one node are those of `StepOf`: realised and unrealised causes split the predecessors |
| Explainer.SequentialExplainer.ExploreAll | src/goal_processing/core.py:646-652 | the loop over the predecessors to explore yields `XNotChildren` and returns the sum of its scores |
| Explainer.SequentialExplainer.WhyNot | src/goal_processing/core.py:666-675 | `xNot(effect)` yields the explanation from depth 1 on the current history and registry |
| Processor.ReadsKeepBeliefs | src/goal_processing/core.py:202-214 | a belief review that only reads leaves the beliefs as they were, or raises |
| Processor.LastWriteWins | src/goal_processing/processors/sequential_processor.py:15 | a review whose last access writes `v` at a path leaves `v` there |
| Processor.ApplyRead | src/goal_processing/core.py:202-214 | a reading access raises exactly when the `get` of the container it names raises, and otherwise leaves the beliefs as they were |
| Processor.ApplyWrite | src/goal_processing/core.py:216-231 | a write access raises exactly when `set` raises, and otherwise leaves what `set` makes of the beliefs |
| Processor.RunAccessesLeaves | src/goal_processing/processors/sequential_processor.py:15 | a review call that does not raise leaves the beliefs `AccessesLeave` gives |
| Processor.ReviseLeaves | src/goal_processing/processors/sequential_processor.py:14-15 | a review phase that does not raise leaves the beliefs `ReviseLeave` gives |
| Processor.RunAccessesJoin | src/goal_processing/processors/sequential_processor.py:15 | the accesses after a stretch that does not raise run from the beliefs that stretch left |
| Processor.AccessesLeaveJoin | src/goal_processing/core.py:185-199 | the same for the beliefs left behind: the writes of a stretch that does not raise are in place before the rest runs |
| Processor.RaiseKeepsEarlierWrites | src/goal_processing/core.py:185-199 | an access that raises after a stretch of accesses makes the call raise, and the beliefs stay as that stretch wrote them |
| Processor.RemovalEvents | src/goal_processing/processors/sequential_processor.py:41-43 | one record per dropped clone, from the conflict to `""` with `{chosen, removed}` |
| Processor.ActionEvents | src/goal_processing/processors/sequential_processor.py:53-60 | exactly one record per action of the plan, in order, from the plan to the action, with `error` and `stack` when it raised |
| Processor.DrainRest | src/goal_processing/processors/sequential_processor.py:30-37 | each iteration removes exactly the head, so a pass leaves a suffix of the queue and empties it when it ends normally |
| Processor.DrainOk | src/goal_processing/processors/sequential_processor.py:47 | a pass ends normally when every queued goal has a plan, and fails only on a goal without plans |
| Processor.DrainHead | src/goal_processing/processors/sequential_processor.py:36-60 | one turn of the pass: a removed head is skipped and forgotten; a head without plans fails; otherwise its last plan and that plan's actions are recorded |
| Processor.QueueInsert | src/goal_processing/processors/sequential_processor.py:26-28 | inserting a new clone keeps the queue in descending priority order, with unique clone ids of registered goals |
| Processor.EnqueueSorted | src/goal_processing/processors/sequential_processor.py:16-28 | the promotion phase keeps the queue in descending priority, keeps every clone already queued, and adds at most one clone per goal |
| Processor.ClimbRecordsFired | src/goal_processing/processors/sequential_processor.py:19-25 | the promotion loop makes one record per fired promotion, in order, each from that promotion to the clone's goal with the clone's `cloneId`; the last carries the priority the climb ends with |
| Processor.EnqueueKept | src/goal_processing/core.py:216-249 | the attribute links the accessors add do not change which clones the promotion phase enqueues |
| Processor.SequentialProcessor.constructor | src/goal_processing/core.py:446-458 | the processor starts with an empty queue and an empty environment |
| Processor.SequentialProcessor.ReviewRead | src/goal_processing/core.py:233-249 | a review read succeeds exactly when `get` does not raise; it records one state from the path's attribute to the review function exactly when the value read is not `None`, and no promotion record |
| Processor.SequentialProcessor.ReviewWrite | src/goal_processing/core.py:216-231 | a review write succeeds exactly when `set` does not raise, and then leaves what `set` leaves; a raising `set` leaves the beliefs as they were; it records one state from the review function to the path's attribute exactly when the write changed the beliefs, and nothing otherwise |
| Processor.SequentialProcessor.RunAccess | src/goal_processing/processors/sequential_processor.py:15 | one access, through the accessor handed for it, does to the beliefs what `Apply` says; a raising access leaves them as they were; it makes no promotion record |
| Processor.SequentialProcessor.RunRead | src/goal_processing/processors/sequential_processor.py:15 | a reading access succeeds exactly when the `get` of the container it names does not raise, as `Apply` says, leaves the beliefs as they were, and makes no promotion record |
| Processor.SequentialProcessor.RunReview | src/goal_processing/processors/sequential_processor.py:15 | one review function's accesses, in order, stopping at the first that raises, leave what `RunAccesses` says; in every case the beliefs are `AccessesLeave`, so the writes before a raising access stay; no promotion record is made |
| Processor.SequentialProcessor.ReviewAll | src/goal_processing/processors/sequential_processor.py:14-15 | the agent's review functions run in declaration order, each seeing its predecessors' beliefs, as `Revise` says; whether or not one raises, the beliefs are `ReviseLeave`, the writes before the raise included; belief review makes no promotion record |
| Processor.SequentialProcessor.ReviewStep | src/goal_processing/processors/sequential_processor.py:14-15 | the call of one review function either continues the phase from the next index (`ReviewsOn`: the same `Revise` outcome and the same `ReviseLeave` beliefs) or shows that the whole phase raises and leaves the beliefs `ReviseLeave` says; no promotion record |
| Processor.SequentialProcessor.ReadPath | src/goal_processing/core.py:233-249 | one tracked belief read of a promotion extends the successful prefix of its reads, or shows that they cannot all succeed; it records one state from the path's attribute to the promotion exactly when the value read is not `None` |
| Processor.SequentialProcessor.ReadPaths | src/goal_processing/processors/sequential_processor.py:20 | a promotion's tracked reads succeed exactly when none of its paths raises |
| Processor.SequentialProcessor.CallPromotion | src/goal_processing/processors/sequential_processor.py:20-25 | a promotion call that returns a priority promotes the clone with the promotion's name and priority and makes exactly one promotion record, from the promotion to the clone's goal with `{incPriority, cloneId}`; `None` leaves the clone as it was and records nothing from the promotion |
| Processor.SequentialProcessor.ApplyPromotion | src/goal_processing/processors/sequential_processor.py:22-23 | a promotion that returned a priority promotes the clone with the promotion's name and that priority, and adds exactly one state to the history, from the promotion to the clone's goal with `{incPriority, cloneId}` |
| Processor.SequentialProcessor.Climbing | src/goal_processing/processors/sequential_processor.py:19-25 | the promotion loop runs the target promotions in order and stops at the first `None`, as `Climb` says; the promotion records it makes are exactly `ClimbRecords` |
| Processor.SequentialProcessor.ClimbFrom | src/goal_processing/processors/sequential_processor.py:19-25 | the promotion loop, stated over the state it starts from: its result is `Climb` and its records are the ones given |
| Processor.SequentialProcessor.ClimbTurn | src/goal_processing/processors/sequential_processor.py:20-25 | one iteration of the promotion loop adds its call's record and continues `Climb` from the promoted clone, or ends the loop on a raising read or `None` |
| Processor.SequentialProcessor.PromoteGoal | src/goal_processing/processors/sequential_processor.py:18-25 | a fresh clone of the goal is made, then climbed; its promotion records are `GoalRecords` of that clone |
| Processor.SequentialProcessor.AddGoal | src/goal_processing/processors/sequential_processor.py:17-28 | the queue becomes `EnqueueOne`: the clone enters it exactly when its climb ends in its final state, at its `insort` position, and the queue is unchanged when a read raised; the promotion records are `GoalRecords` of the clone |
| Processor.SequentialProcessor.Insort | src/goal_processing/processors/sequential_processor.py:28 | `bisect.insort` of a clone not yet queued leaves the queue as `Insert` says and keeps the processor's invariant |
| Processor.SequentialProcessor.PromoteAll | src/goal_processing/processors/sequential_processor.py:16-28 | one fresh clone per goal of the agent, in order, up to the first raising read; the queue becomes `Enqueue` of them, also when a read raised, and the promotion records are `EnqueueRecords` of them |
| Processor.SequentialProcessor.PromoteTurn | src/goal_processing/processors/sequential_processor.py:16-28 | one goal of the promotion phase extends the clones, the queue and the promotion records of the goals before it by that goal's own |
| Processor.SequentialProcessor.PromoteFrom | src/goal_processing/processors/sequential_processor.py:16-28 | the promotion phase, stated over the registry the deliberation began with: queue `Enqueue`, promotion records `EnqueueRecords` |
| Processor.SequentialProcessor.Deliberate | src/goal_processing/processors/sequential_processor.py:11-28 | the environment is kept; the beliefs are revised before any goal is cloned, and are `ReviseLeave` of the review phase in every case, the writes before a raising review included; a raising review leaves the queue untouched and makes no promotion record; otherwise one clone per goal is made up to the first raising promotion read, the queue becomes `Enqueue` of them and the promotion records are `EnqueueRecords` of them |
| Processor.SequentialProcessor.ConflictMembers | src/goal_processing/core.py:507-517 | `chosen` exists when some queued clone belongs to the conflict and is the first; `toRemove` exists when there are two and holds the later ones |
| Processor.SequentialProcessor.DetectConflicts | src/goal_processing/core.py:492-518 | `_detectConflicts` returns `Detect` over the agent's conflicts and the queue |
| Processor.SequentialProcessor.RecordRemovals | src/goal_processing/processors/sequential_processor.py:41-43 | each dropped clone is marked and recorded once from the conflict |
| Processor.SequentialProcessor.ResolveHead | src/goal_processing/processors/sequential_processor.py:39-43 | every detected conflict of the head's goal marks and records every clone it drops |
| Processor.SequentialProcessor.SelectPlan | src/goal_processing/processors/sequential_processor.py:47-51 | `chosenPlan` is the first plan when its priority exceeds the goal's, and otherwise a plan of maximal priority among those the goal's priority reaches; the loop variable ends on the last plan |
| Processor.SequentialProcessor.RunPlan | src/goal_processing/processors/sequential_processor.py:52-60 | one selection record from the goal to the plan, then one record per action, whether it returns or raises |
| Processor.SequentialProcessor.PopHead | src/goal_processing/processors/sequential_processor.py:36-46 | conflicts are detected on the whole queue before exactly the head is popped; the records made match the head's turn of `Drain` |
| Processor.SequentialProcessor.PassStep | src/goal_processing/processors/sequential_processor.py:32-60 | one iteration of the pass records what `Drain` records for the head and shortens the queue |
| Processor.SequentialProcessor.PassTurn | src/goal_processing/processors/sequential_processor.py:32-60 | one iteration keeps the records made since the pass began tied to `Drain` of the whole queue |
| Processor.SequentialProcessor.ProcessIntentions | src/goal_processing/processors/sequential_processor.py:30-60 | `processIntentionsAsync` records exactly the events of `Drain` from an empty `removedByConflict`, and leaves its rest of the queue (empty when the pass ends normally) |

## Left out

- Timers and the synchronous wrappers are not modelled: `runInLoop`,
  `stopLoop`, `_run*Timer`, `add`, `get`, `deliberate`, `processIntentions`
  and `nest_asyncio`. They are threading and event-loop plumbing. The async
  bodies are modelled as sequential methods. `Why` and `WhyNot` stand for
  the synchronous `xHistory` and `xNot`.
- The explainers' generators are modelled as the complete list of what they
  yield. A consumer that stops early, and interleaving with other
  coroutines, are not modelled.
- `AbstractExecutionHistory`, `AbstractProcessor` and `AbstractExplainer`
  are represented by their single concrete classes.
- Explainer.SequentialExplainer.XHistory: limited to `fuel` levels of
  recursion. The revisit guard at core.py:604-605 is `pass`, so a cycle of
  causes recurses without end in the source. Within the fuel, the model
  yields what the source yields, apart from the `CausalFunction` finding below.
- Explainer.SequentialExplainer.XNot: requires `r >= 1`. The source's
  `1/r` divides by zero at `r = 0`, and the wrappers start at 1.
- Explainer.Score: requires `r >= 1`, for the same reason.
- Explainer.SequentialExplainer.XNot models only the shared default
  `past`. The recursive call at core.py:649 does not pass `past`, so it
  always uses the default set; an explicit `past` given to a top-level call
  is not modelled.
- Time is an integer clock, and one tick stands for the `1e-6` margins at
  core.py:632-637. Scores are exact reals rather than floats.
- `uuid`, `time.time()`, `copy.deepcopy` and `DeepDiff` are replaced by
  oracles and value semantics:
  - `uuid` is an oracle that never repeats an id.
  - `time.time()` is a non-decreasing oracle.
  - `copy.deepcopy` is unnecessary with values.
  - `DeepDiff`'s "no difference" is datatype equality.
- Registry.Registry.TakeId: requires an explicit id to be unused. The source
  silently replaces a registered entity whose id is reused.
- Entity descriptions (`desc`) and the rendering `State.__str__` are not
  modelled. `className()` is modelled only as far as `causalFunction` uses it.
- Callback bodies are oracle parameters:
  - `brf.f`, `promotion.f` and `action.f` are deterministic functions of what
    they are given.
  - An exception a review or promotion callback raises for its own reasons
    is not modelled. The only exceptions modelled are the accessors'
    TypeError and the `IndexError` of `goal.plans[0]`.
  - A callback that catches an accessor's TypeError and goes on is not
    modelled. A review function is a fixed list of accesses that stops at the
    first raising one, and a promotion fails as soon as one of its reads
    raises; in the source, `brf.f` or `promotion.f` may wrap `await get(p)`
    in `try`/`except`.
  - An action's exceptions are captured as `Failure(error, stack)`, with the
    traceback text as an opaque string.
- Actions get no environment. In the source, an action's environment getter
  is `DataContainer(self._enviroment).get`, which passes the environment as
  the container's name and reads the shared default data `{}`, not the environment.
- The shared mutable default `data = {}` of `DataContainer` is not modelled.
  Aliasing between containers is excluded: the beliefs and the channel are
  distinct containers.
- Processor.SequentialProcessor.constructor: requires the beliefs and
  channel containers to be different objects, for the same reason.
- `toRemove` is a Python set; the model iterates it in queue order without
  repeats, because Python's set iteration order is not part of the program's
  meaning.
- Explainer.SequentialExplainer.XHistory, like every traversal, runs on the
  corrected `CausalFunction` of the finding below. Where the source raises
  AttributeError on a goal promotion whose name contains "Attribute", the
  model goes on over the promotion's `attrs`.
- Explainer.SequentialExplainer.XNot: the same, for the corrected `CausalFunction`.
- Explainer.SequentialExplainer.Why: the same, since it runs `XHistory`.
- Explainer.SequentialExplainer.WhyNot: the same, since it runs `XNot`.
- Explainer.SequentialExplainer.SortedCausesFor: collects the causes with the
  corrected `CausalFunction`, so it yields them where the source raises.
- Explainer.SequentialExplainer.StepAt: the same, for the causes of one node.
- Explainer.SortByTimeCorrect: the sort is defined as repeated `insort`,
  which is stable like `list.sort`. Only descending order and permutation
  are proved, not stability.

## Findings

| source | as written | input that shows it | evidently intended | confidence | as-written member | corrected member |
|---|---|---|---|---|---|---|
| src/goal_processing/explainers/sequential_explainer.py:21-24 | `causalFunction` tests `"Attribute" in className()` before the `GoalPromotion` test, and `className()` of a goal promotion is `"GoalPromotion: " + name`. | A goal promotion named "Attribute check": the function reads its `.relations` and raises AttributeError. | A goal promotion's predecessors are its `attrs`, whatever its name. | not executed | Explainer.CausalFunctionAsWrittenFails | Explainer.CausalFunctionTyped |
