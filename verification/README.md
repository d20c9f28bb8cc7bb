# Visual data generator: connection graph, node rules and store in Dafny

This project models the sequential core of a visual node editor. Cards sit on a canvas. The user draws connections from one card's circle to another's. Generator cards produce series of numbers, and a line-plot card turns its two inputs into the sample the chart draws. The model has four parts.

- **Connection provider** (`connection_graph.dfy`, `connection_context.dfy`). The provider holds a list of directed connections and an optional pending gesture. Four calls change this state: `startConnection`, `updateTempConnection`, `completeConnection` and `cancelConnection`.
  - Module `ConnectionGraph` states the state and the four calls as values and functions. It also defines the invariant every reachable state keeps: every edge runs from a `right` circle to a `left` circle, no edge is a self-loop, and no two edges share a `from` end or a `to` end.
  - Module `ConnectionContext` holds the class `ConnectionProvider`. It has a `seq<Connection>` field and an `Option<Temp>` field. Each method is proved to produce the state that the matching function gives, and to keep the invariant.
  - Both filters of the source are one function, `Evict`. It is parameterised by what it drops: edges touching a circle (in `startConnection`), or edges sharing an end with the new edge (in `completeConnection`).
- **Linear generator rule** (`linear_generator.dfy`). The input handler's loop is a method with loop invariants. It is proved against the relation `FollowsRule`: the first value is `start` at index 0, and each later value is the previous one plus `steps` at its own index. The lemmas about that relation cover uniqueness, the closed form `start + i·steps`, the two examples, the ignored elements and the NaN cases.
- **Line-plot rule** (`line_plot.dfy`). A pure function. It broadcasts scalars to `sampleSize` values and cuts both series to `min(len x, len y, sampleSize)`.
- **Store** (`store.dfy`). A class with the initial values and the three setters.

Numbers are integers. JavaScript's `NaN` and the `undefined` read past the end of an array are one value, `NaN`, and a sum with it is `NaN` (`Values.Add`). An input is `Scalar(n)` or `Arr(s)`.

Both filters key on circles (`src/context/ConnectionContext.tsx:47-52` and `:92-95`). So an output circle, like an input circle, ends at most one edge, and `WellFormed` states this. An array `start` contributes only `start[0]` (`src/components/Cards/Generators/LinearGenerator/index.tsx:20` and `:23-28`): every later value adds to the previously generated one (`StartTailIgnored`).

## Model

| member | source | states |
|---|---|---|
| Values.At | src/components/Cards/Generators/LinearGenerator/index.tsx:20-21 | A scalar stands for itself at every index; an array gives its element at an index inside it and NaN (undefined) past its end |
| Values.Add | src/components/Cards/Generators/LinearGenerator/index.tsx:28 | The sum is a number exactly when both operands are numbers, and it is then their sum; otherwise it is NaN |
| ConnectionGraph.Evict | src/context/ConnectionContext.tsx:47-52 | The filtered list holds exactly the edges of the input the filter does not drop, and it is no longer than the input |
| ConnectionGraph.EvictAppend | src/context/ConnectionContext.tsx:92-95 | Filtering a concatenation equals concatenating the filtered parts, so kept edges keep their relative order |
| ConnectionGraph.EvictMultiplicity | src/context/ConnectionContext.tsx:47-52 | A dropped edge has no copy left; any other edge keeps exactly as many copies as before |
| ConnectionGraph.EvictOnly | src/context/ConnectionContext.tsx:47-52 | When the filter matches only the edge at index i, the result is the list without index i |
| ConnectionGraph.EvictKeepsWellFormed | src/context/ConnectionContext.tsx:92-95 | Filtering a well-formed list leaves it well-formed |
| ConnectionGraph.EndpointUnique | src/context/ConnectionContext.tsx:47-52 | In a well-formed list, two edges touching the same circle are the same edge |
| ConnectionGraph.Start | src/context/ConnectionContext.tsx:45-54 | The new edge list holds exactly the old edges that do not touch (id, port), is no longer than the old one, and the gesture starts at (id, port, 0, 0); StartRemovesTouching adds multiplicities |
| ConnectionGraph.StartRemovesTouching | src/context/ConnectionContext.tsx:45-54 | startConnection keeps an edge iff it does not touch (id, port) at either end, keeps every copy of a kept edge, and sets the gesture to (id, port, 0, 0) |
| ConnectionGraph.StartRewiresOne | src/context/ConnectionContext.tsx:47-52 | Re-dragging from a circle that ends exactly one edge removes that edge and leaves all others in place and in order |
| ConnectionGraph.StartFromFreePort | src/context/ConnectionContext.tsx:47-52 | Dragging from a circle no edge touches leaves the edge list unchanged |
| ConnectionGraph.StartRemovesAtMostOne | src/context/ConnectionContext.tsx:47-52 | In a well-formed state startConnection removes at most one edge |
| ConnectionGraph.UpdateTemp | src/context/ConnectionContext.tsx:56-60 | The edges are untouched; without a gesture the state is unchanged; with one, only the cursor coordinates change |
| ConnectionGraph.Cancel | src/context/ConnectionContext.tsx:108-110 | The edges are untouched and the gesture is cleared |
| ConnectionGraph.Accepts | src/context/ConnectionContext.tsx:63-75 | A completion is accepted exactly when a gesture exists, the target is on another card, and the gesture's circle and the target circle are one left and one right |
| ConnectionGraph.Oriented | src/context/ConnectionContext.tsx:77-89 | The edge carries the given id and joins the gesture's card and the target card; a gesture begun on the left circle becomes the to end, one begun on the right circle the from end; for opposite circles the edge runs right to left |
| ConnectionGraph.Complete | src/context/ConnectionContext.tsx:62-106 | The gesture is always cleared; a rejected completion leaves the edges unchanged; an accepted one ends the list with a right-to-left edge between two different cards carrying the fresh id (CompleteRejected and CompleteAppends state the rest) |
| ConnectionGraph.CompleteRejected | src/context/ConnectionContext.tsx:62-75 | With no gesture, a target on the gesture's own card, or a target circle of the same kind, the gesture is cleared and the edge list is unchanged |
| ConnectionGraph.CompleteOrients | src/context/ConnectionContext.tsx:77-89 | An accepted edge runs right to left, joins two different cards, carries the fresh id, and has its ends swapped when the gesture began on the left circle |
| ConnectionGraph.CompleteAppends | src/context/ConnectionContext.tsx:91-105 | After an accepted completion the new edge is last, no earlier edge shares its from end or its to end, every earlier edge sharing neither end is kept in order, and the gesture is cleared |
| ConnectionGraph.CompleteKeepsWellFormed | src/context/ConnectionContext.tsx:62-106 | completeConnection maps a well-formed edge list to a well-formed one |
| ConnectionGraph.StepKeepsWellFormed | src/context/ConnectionContext.tsx:45-110 | Each of the four operations keeps the edge list well-formed |
| ConnectionGraph.RunKeepsWellFormed | src/context/ConnectionContext.tsx:45-110 | Any sequence of operations from a well-formed state ends in a well-formed state |
| ConnectionGraph.ReachableWellFormed | src/context/ConnectionContext.tsx:42-110 | Every state reachable from the empty list has only normalised edges, no self-loop, and pairwise distinct from ends and to ends |
| ConnectionContext.ConnectionProvider.constructor | src/context/ConnectionContext.tsx:42-43 | The provider starts with no edges and no gesture, and satisfies the invariant |
| ConnectionContext.ConnectionProvider.StartConnection | src/context/ConnectionContext.tsx:45-54 | The edge list becomes the filtered old list and the gesture starts at (id, port, 0, 0); the invariant is kept |
| ConnectionContext.ConnectionProvider.UpdateTempConnection | src/context/ConnectionContext.tsx:56-60 | The edges are unchanged; the gesture's cursor moves only when a gesture exists; the invariant is kept |
| ConnectionContext.ConnectionProvider.CompleteConnection | src/context/ConnectionContext.tsx:62-106 | A rejected gesture leaves the edges as they were; an accepted one replaces them by the filtered list plus the oriented new edge; the gesture is cleared and the invariant is kept |
| ConnectionContext.ConnectionProvider.CancelConnection | src/context/ConnectionContext.tsx:108-110 | The edges are unchanged and the gesture is cleared |
| LinearGeneratorCard.LinearValues | src/components/Cards/Generators/LinearGenerator/index.tsx:12-30 | The loop yields exactly sampleSize values: the first is start at index 0, and each later one is the previous plus steps at its index |
| LinearGeneratorCard.RuleDetermines | src/components/Cards/Generators/LinearGenerator/index.tsx:19-30 | Two series that follow the rule for the same inputs are equal, so the rule fixes the output |
| LinearGeneratorCard.ScalarSeries | src/components/Cards/Generators/LinearGenerator/index.tsx:19-30 | With scalar start s and steps d, value i is s + i·d |
| LinearGeneratorCard.DefaultSeries | src/components/Cards/Generators/LinearGenerator/index.tsx:54-55 | With the default inputs 0 and 1, value i is i, and five samples give [0,1,2,3,4] |
| LinearGeneratorCard.StartTailIgnored | src/components/Cards/Generators/LinearGenerator/index.tsx:20-28 | Only start at index 0 matters; start [10,20,30], steps 1 and three samples give [10,11,12] |
| LinearGeneratorCard.FirstStepIgnored | src/components/Cards/Generators/LinearGenerator/index.tsx:21-28 | Replacing the first element of an array steps does not change which series follows the rule |
| LinearGeneratorCard.EmptyStartPoisons | src/components/Cards/Generators/LinearGenerator/index.tsx:20-29 | An empty start array makes every value NaN |
| LinearGeneratorCard.ShortStepsPoison | src/components/Cards/Generators/LinearGenerator/index.tsx:21-29 | A steps array shorter than the sample makes every value from its length on NaN |
| LinearGeneratorCard.Register | src/components/Cards/Generators/LinearGenerator/index.tsx:40-45 | Mounting appends one entry, the one-element list holding the card's id with start 0 and steps 1, and changes no other store field |
| LinePlotCard.Fill | src/components/Cards/LinePlot/index.tsx:23 | Array(n).fill(v) has n elements, each equal to v |
| LinePlotCard.AsArray | src/components/Cards/LinePlot/index.tsx:13-38 | A connected array is used as it is; a connected scalar and an unconnected value each become sampleSize copies of that value |
| LinePlotCard.Min3 | src/components/Cards/LinePlot/index.tsx:41 | The result is at most each argument and equal to one of them |
| LinePlotCard.PlotSample | src/components/Cards/LinePlot/index.tsx:8-47 | x and y have equal length, namely min(len xArray, len yArray, sampleSize), and each is a prefix of its source array |
| LinePlotCard.ScalarInputsBroadcast | src/components/Cards/LinePlot/index.tsx:13-38 | Scalar inputs, connected or not, give two constant series of exactly sampleSize values |
| LinePlotCard.RaggedArraysTruncate | src/components/Cards/LinePlot/index.tsx:41-43 | Two connected arrays are cut to the shorter length; with lengths 7 and 4 and 50 samples both series hold 4 values |
| LinePlotCard.LongArrayTruncates | src/components/Cards/LinePlot/index.tsx:41-42 | A connected array longer than the sample size is cut to its first sampleSize values when the other input is at least as long |
| LinePlotCard.DefaultPlot | src/components/Cards/LinePlot/index.tsx:56-57 | The initial inputs x = 0 and y = 0 give sampleSize zeros in each series |
| LinePlotCard.HandleInputChange | src/components/Cards/LinePlot/index.tsx:5-47 | The store's sample becomes the plot sample of the inputs at the store's sample size, both series no longer than that size, and no other store field changes |
| Store.DGStore.constructor | src/context/store.tsx:17-21 | The store starts with chart LinePlot, no generators, sample size 50 and an empty sample |
| Store.DGStore.SetChart | src/context/store.tsx:22 | Only chart changes, to the given value |
| Store.DGStore.SetNewGenerator | src/context/store.tsx:23-28 | The new entry is appended as exactly one last element, the earlier entries are kept in order, and no other field changes |
| Store.DGStore.SetSample | src/context/store.tsx:29 | Only sample changes, replaced by the given one |

No method changes `sampleSize`: every setter's contract keeps it equal to its old value. The client method `Store.SettersKeepSampleSize` shows that setter calls leave it at 50 and that generator entries accumulate in call order. The client method `ConnectionContext.ConnectThenRewire` drives a provider through one accepted connection, a re-drag from that edge's input circle (which removes the edge), and a rejected completion on the same card, and checks the edge list and the gesture after each step.

## Left out

- Connection ids are built from the clock (`Date.now()`). The model takes the id as a parameter, `freshId`, and states nothing about its format.
- React state updates are modelled as sequential: each call sees the latest state. The difference between the functional update in `startConnection` and the direct read of `connections` in `completeConnection` is not modelled.
- Floating-point numbers are modelled as integers, and mouse coordinates as reals. Non-integer or negative sample sizes are not modelled (`sampleSize` is a `nat`).
- NaN and `undefined` are one value, so the model does not tell them apart.
- LinePlotCard.AsArray: an unconnected input always carries a number. The case of an array typed into an unconnected input is not modelled.
- LinearGeneratorCard.Register: models one run of the mount effect. The `hasInitialized` guard that stops later runs is not modelled.
- The card ids come from `crypto.randomUUID`. They are a parameter here.
- The generator cards hand their output to `updateOutput` on the card (`src/components/Cards/Generators/LinearGenerator/index.tsx:35-37`). Its body is not shown, so the model returns the computed series from `LinearValues` instead. The plot card's hand-off to the store's `setSample` is modelled by `LinePlotCard.HandleInputChange`.
- `console.log` calls are left out.
- Value propagation between cards is left out because no shown file implements it. The same goes for an input-count cap, cycle rejection and node removal.
- The uniform generator's values come from `Math.random`, so the model leaves it out. Only its registration record (`UniformConfig`) appears, as a store entry type.
- The card's circle handlers in `src/components/Card/index.tsx` are not part of this model. They pass cursor coordinates to `startConnection`, which ignores them.
- Pixel-space curve drawing, dragging, scrolling, zoom, the context menu, resizable panels, the theme toggle and the chart rendering are presentation code and are not part of this model.
