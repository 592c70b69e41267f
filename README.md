# AI-entity portfolio page: a Dafny model of its state machines

The page draws an "AI entity" on a canvas: eight nodes on a circle, random
connections between them, particle bursts, a pointer the nodes shy away
from, pulses, a morph animation, and tooltips for whatever the pointer is over.
An `InteractionManager` wires the canvas events to the entity. A
`DemoController` fades the tagline and reveals the navigation floats on the
first tagline click and opens the demo terminal on later clicks. The terminal
is typed by a character-by-character typer. An `AnimationController` animates
each observed element once, debounces scroll updates with a `ticking` flag,
and offers the typewriter and glitch text effects. A small helper library
holds a hex colour codec, `clamp`, `lerp`, `formatNumber`, `throttle` and
`debounce`.

The model has five modules:

- `Random` (random.dfy): `Math.random` as an injected stream of draws in
  [0, 1) with a cursor. No distribution is assumed.
- `Helpers` (helpers.dfy): the codec and small helpers as functions.
  `throttle` and `debounce` are classes holding their closure state.
- `Entity` (entity.dfy): the `AIEntity` class with the source's fields,
  specified by pure functions (`Ring`, `Graph`, `Burst`, `Survivors`,
  `StepAll`, `Kicked`, `Reanchor`, `HoverTarget`, `HoverEvents`) and lemmas
  about those functions.
- `Interactions` (interactions.dfy): the `InteractionManager` and
  `DemoController` classes. A `setTimeout` callback is a `Timer` waiting in
  `timers` until `Fire` runs it. DOM work is an abstract effect log.
- `Animations` (animations.dfy): the `AnimationController` class, plus
  `Typewriter` and `Glitch` classes for the closures of `typewriterEffect`
  and `glitch`. Each timer or interval callback is an explicit `Tick`.

Cosines, sines and square roots are not computed. The trigonometric values
are parameters (`Vec` directions, `Forces`, `coreSin`, `pulses`, `swell`),
and every test `Math.sqrt(d2) < R` is stated as `R > 0 && d2 < R * R`, which
is the same test over the reals. Doubles are modelled as reals. `Date.now()`
and the element geometry (`getBoundingClientRect`) are parameters.

The model follows the code as written, including where it departs from what
the page evidently intends:

- `initializeNodes` in js/modules/entity.js:36 builds eight nodes.
- `resize` in js/modules/entity.js:26-33 only moves the centre and does not
  rebuild the nodes.
- `triggerReveal` in js/modules/interactions.js:196 calls `entity.reveal()`,
  which `AIEntity` does not define, so firing that 400 ms timer logs
  `RevealThrows`.
- `handleClick` in js/modules/interactions.js:49-56 pulses and maybe morphs;
  it does no node hit test.
- `handleMouseLeave` in js/modules/interactions.js:35-40 hides the tooltip
  but leaves `hoveredElement` as it was.
- js/main.js:48 builds a `DemoController` and never calls `setEntity`, so
  with the page as wired the reveal takes the `No entity found!` branch. The
  model keeps both branches.

## Model

| member | source | states |
|---|---|---|
| Random.Source.Next | js/modules/entity.js:49 | one `Math.random()` call returns the next unused draw and advances the cursor by one |
| Entity.Ring | js/modules/entity.js:39-51 | the nodes of the first loop of `initializeNodes`: one per direction, one phase draw each, `n` of them |
| Entity.RingShape | js/modules/entity.js:36-51 | the ring has exactly `n` nodes; each starts at rest on its anchor (`x == baseX`, `y == baseY`, `vx == vy == 0`, radius 4, phase in [0, 2π)) and its anchor lies at the centre plus `radius` times its direction |
| Entity.PhaseInRange | js/modules/entity.js:49 | a draw in [0, 1) times 2π lies in [0, 2π) |
| Entity.LinksKeep | js/modules/entity.js:55-61 | a pair whose first draw is above 0.3 contributes the connection `(i, j)` with strength `draw * 0.5 + 0.5` and uses two draws |
| Entity.LinksSkip | js/modules/entity.js:55 | a pair whose first draw is at most 0.3 contributes nothing and uses one draw |
| Entity.LinksRowEnd | js/modules/entity.js:53-54 | once `j` reaches 8 the loops move on to row `i + 1`, starting at `j = i + 2` |
| Entity.LinksWithinJoin | js/modules/entity.js:53-63 | appending connections whose endpoints are in range keeps every endpoint in range |
| Entity.LinksShape | js/modules/entity.js:53-63 | every connection joins `from < to < 8`, comes at or after the current pair, and has strength in [0.5, 1); the list is strictly sorted by `(from, to)` |
| Entity.LinksInRange | js/modules/entity.js:53-63 | every endpoint of the generated graph names one of the eight nodes |
| Entity.LinksCount | js/modules/entity.js:53-63 | the loops push at most one connection per pair they still have to visit |
| Entity.AllLinks | js/modules/entity.js:53-63 | the whole graph has at most 28 connections, strictly sorted in lexicographic order, each joining a lower node to a higher one below 8, and no unordered pair twice |
| Entity.BurstShape | js/modules/entity.js:81-93 | a burst has exactly `n` particles, each at the centre with `life == maxLife == 1`, speed components in [-1, 1) and size in [1, 4) |
| Entity.AliveIndicesSpec | js/modules/entity.js:95-104 | the surviving indices are strictly increasing and are exactly the indices whose moved particle has positive life |
| Entity.SurvivorsSpec | js/modules/entity.js:95-104 | the filter never adds a particle and keeps, in the original order, exactly the moved particles whose life is still positive |
| Entity.Ease | js/modules/entity.js:107-109 | one easing step shrinks the gap to the target by exactly 5% and never overshoots it |
| Entity.NodeStep | js/modules/entity.js:114-140 | one node's step changes only its position and velocity; anchor, radius and phase are unchanged |
| Entity.RestIsFixed | js/modules/entity.js:114-140 | a node at rest on its anchor, outside the pointer's influence and without breathing, stays exactly where it is |
| Entity.SpringDamper | js/modules/entity.js:126-135 | away from the pointer and without breathing the step is the linear spring/damper map `v' = 0.9 v - 0.045 e`, `e' = e + v'` |
| Entity.Kick | js/modules/entity.js:251-254 | a pulse changes only the node's velocity, each component by a delta in [-5, 5) |
| Entity.Kicked | js/modules/entity.js:251-254 | a pulse keeps the number of nodes, and node `i` receives its own kick from draws `k + 2i` and `k + 2i + 1` |
| Entity.Anchor | js/modules/entity.js:265-266 | a morph step moves only the node's anchor, to the centre plus `radius` times the direction |
| Entity.Reanchor | js/modules/entity.js:262-267 | a morph frame re-anchors every node and changes nothing else about any of them |
| Entity.ClampUnit | js/modules/entity.js:378 | the projection parameter lies in [0, 1] and equals `n / l` when that is already in range |
| Entity.IsPointNearLine | js/modules/entity.js:371-390 | a zero-length segment is never near |
| Entity.EndpointsAreNear | js/modules/entity.js:371-390 | a point equal to either endpoint of a segment of positive length is near for any positive threshold |
| Entity.DistAlongQuadratic | js/modules/entity.js:378-387 | the squared distance to the point at parameter `s` is the quadratic `d0 - 2 s N + s² L` in `s`, where `d0` is the squared distance to the start, `N` the dot product and `L` the squared length |
| Entity.QuadraticMinimum | js/modules/entity.js:378 | over [0, 1] the quadratic is least at the clamped parameter |
| Entity.ClampedMinimum | js/modules/entity.js:378 | the clamped parameter minimises the parabola on [0, 1], case by case (below 0, above 1, inside) |
| Entity.ProjectionIsNearest | js/modules/entity.js:378-387 | the clamped projection is the point of the segment nearest to the pointer |
| Entity.CloserAt | js/modules/entity.js:384-387 | a parameter with a smaller quadratic gives a point at most as far away |
| Entity.NearLineIffSegmentWithin | js/modules/entity.js:371-390 | for a segment of positive length and a positive threshold, `isPointNearLine` holds exactly when some point of the segment lies closer than the threshold |
| Entity.Decimal | js/modules/entity.js:368 | the decimal rendering of a number is never empty |
| Entity.DecimalRoundTrip | js/modules/entity.js:368 | the rendering consists of digits, has no leading zero, and parses back to the number |
| Entity.NodeTooltipText | js/modules/entity.js:357-369 | indices 0 to 7 give the fixed table entry; any later index gives `Processing Node ` followed by the decimal digits of `i + 1`, with no leading zero |
| Entity.FirstNodeHitSpec | js/modules/entity.js:317-333 | the node loop finds the lowest index from `k` on whose hit circle holds the cursor, or reports that none does |
| Entity.FirstConnectionHitSpec | js/modules/entity.js:336-348 | the connection loop finds the lowest index from `k` on that passes near the cursor, or reports that none does |
| Entity.HoverCoreFirst | js/modules/entity.js:303-314 | the target is the core exactly when the core test matches, whatever the nodes and connections say |
| Entity.HoverNodeLowest | js/modules/entity.js:316-333 | the target is node `i` exactly when the core misses, node `i` is hit, and no lower node is hit |
| Entity.HoverConnectionLowest | js/modules/entity.js:335-348 | the target is connection `i` exactly when the core and every node miss, connection `i` is near, and no lower connection is near |
| Entity.HoverNothing | js/modules/entity.js:350-354 | nothing is hovered exactly when the core, every node and every connection miss |
| Entity.HoverEvents | js/modules/entity.js:309-312 | at most one tooltip call; a tooltip is shown exactly when the new target is non-null and differs from the old one; it is hidden exactly when the new target is null and the old one was not |
| Entity.HoverTargetValid | js/modules/entity.js:317-348 | a node or connection target names an existing index |
| Entity.DrawRing | js/modules/entity.js:39-51 | the first loop of `initializeNodes` builds the ring of eight nodes and takes eight draws |
| Entity.DrawPair | js/modules/entity.js:55-61 | one pass of the inner loop yields what the graph function says for pair `(i, j)` and leaves the rest to `(i, j + 1)` |
| Entity.DrawRow | js/modules/entity.js:54-62 | the inner loop yields row `i` of the graph and leaves the rest to row `i + 1` |
| Entity.DrawLinks | js/modules/entity.js:53-63 | the nested loops yield exactly the graph function's connections and cursor |
| Entity.AIEntity.constructor | js/modules/entity.js:2-22 | a new entity has its centre at half the size, the ring nodes after one animation frame, the random graph, no particles, time 1, nothing hovered, the pointer and target at 0 and the morph at rest |
| Entity.AIEntity.Start | js/modules/entity.js:18-21 | `initializeNodes` then one `animate` frame on an empty entity: the ring stepped once, the graph drawn after the eight phases, time 1 |
| Entity.AIEntity.Resize | js/modules/entity.js:26-33 | the centre moves to half the new size; nothing else changes |
| Entity.AIEntity.InitializeNodes | js/modules/entity.js:35-64 | appends the ring's eight nodes and then the random graph, with the draws used in that order, and keeps every endpoint in range |
| Entity.AIEntity.InitializeEmpty | js/modules/entity.js:35-64 | on an entity with no nodes, the nodes become exactly the eight-node ring and the connections exactly the graph drawn after it |
| Entity.AIEntity.UpdateMousePosition | js/modules/entity.js:66-70 | only the target changes, to the client position in canvas coordinates |
| Entity.AIEntity.Activate | js/modules/entity.js:72-75 | sets the active flag and appends one burst of twenty particles |
| Entity.AIEntity.Deactivate | js/modules/entity.js:77-79 | only clears the active flag |
| Entity.AIEntity.GenerateParticles | js/modules/entity.js:81-93 | appends exactly the twenty particles of a burst, three draws each |
| Entity.AIEntity.UpdateParticles | js/modules/entity.js:95-104 | the particles become the survivors of the old ones |
| Entity.AIEntity.UpdateNodes | js/modules/entity.js:106-141 | the pointer eases 5% towards the target, then every node takes one step with its own forces |
| Entity.AIEntity.Animate | js/modules/entity.js:233-247 | one frame: the clock ticks, the nodes step and the particles are filtered |
| Entity.AIEntity.TriggerPulse | js/modules/entity.js:249-255 | appends one burst, then kicks every node's velocity with two draws each; nothing else changes |
| Entity.AIEntity.MorphStep | js/modules/entity.js:259-270 | the progress grows by 0.02; while it stays below 1 every anchor moves to the swelling circle and one more frame is requested; otherwise the nodes stay put |
| Entity.AIEntity.Morph | js/modules/entity.js:257-272 | the progress restarts, the first step runs at once, the anchors move and one frame is requested |
| Entity.AIEntity.MorphFrame | js/modules/entity.js:268 | a requested frame runs one morph step and consumes its request |
| Entity.AIEntity.HideTooltip | js/modules/entity.js:292-295 | records one hide call |
| Entity.AIEntity.CheckHover | js/modules/entity.js:297-355 | the hovered value becomes the prioritised target under the cursor, and the tooltip calls are exactly the edge-triggered events for that change |
| Entity.CheckHoverTwice | js/modules/entity.js:297-355 | a second check at the same cursor shows or hides nothing more |
| Helpers.HexValue | js/utils/helpers.js:148-150 | `parseInt` of one hex digit is below 16 |
| Helpers.HexChar | js/utils/helpers.js:155 | the digit `toString(16)` prints for a value below 16 is a lower-case hex digit |
| Helpers.HexToRgb | js/utils/helpers.js:145-152 | a parsed colour has every channel below 256 |
| Helpers.HexToRgbAccepts | js/utils/helpers.js:145-152 | `hexToRgb` returns a colour exactly for an optional `#` followed by six hex digits of either case |
| Helpers.ShorthandRefused | js/utils/helpers.js:146 | the three-digit shorthand `#abc` gives null |
| Helpers.ToInt32 | js/utils/helpers.js:155 | the wrapped value lies in the signed 32-bit range and agrees with the input modulo 2³² |
| Helpers.HexNat | js/utils/helpers.js:155 | `toString(16)` is never empty |
| Helpers.RgbToHex | js/utils/helpers.js:154-156 | for channels in 0..255 the result is `#` and exactly six lower-case hex digits |
| Helpers.HexNatPush | js/utils/helpers.js:155 | one more base-16 digit appends one character to the printed number |
| Helpers.ToInt32Small | js/utils/helpers.js:155 | the 32-bit shifts leave channel values in range unchanged |
| Helpers.SplitChannel | js/utils/helpers.js:155 | a channel splits into its two hex digits |
| Helpers.HexSeven | js/utils/helpers.js:155 | `(1 << 24)` plus the channels prints as `1` and six digits |
| Helpers.RgbToHexDigits | js/utils/helpers.js:155 | dropping the leading `1` leaves the three zero-padded channels |
| Helpers.PrintedChannels | js/utils/helpers.js:154-156 | for channels in 0..255 `rgbToHex` is `#` and the three zero-padded channels |
| Helpers.HexCharValue | js/utils/helpers.js:148-150 | a printed digit parses back to its value |
| Helpers.ChannelValue | js/utils/helpers.js:148-150 | the two printed digits of a channel parse back to it |
| Helpers.HexRoundTrip | js/utils/helpers.js:145-156 | `hexToRgb(rgbToHex(r, g, b))` is `{r, g, b}` for every channel in 0..255 |
| Helpers.LowerAll | js/utils/helpers.js:155 | lower-casing keeps the length and lowers each character independently |
| Helpers.ChannelDigits | js/utils/helpers.js:148-155 | two hex digits parse to a channel below 256 that prints back as those digits in lower case |
| Helpers.DigitsPrintBack | js/utils/helpers.js:145-156 | six hex digits parsed into channels and printed again are the six digits in lower case |
| Helpers.JoinPairs | js/utils/helpers.js:155 | three two-character strings joined are their six characters in order |
| Helpers.LowerSix | js/utils/helpers.js:155 | lower-casing six characters lowers each of them |
| Helpers.HexReverseRoundTrip | js/utils/helpers.js:145-156 | every valid string is accepted, and `rgbToHex` of its colour is `#` and its six digits in lower case |
| Helpers.Clamp | js/utils/helpers.js:37-39 | with `min <= max` the result lies in [min, max]; a value in range is returned unchanged; one below is raised to `min`; one above `max` becomes `max` |
| Helpers.Lerp | js/utils/helpers.js:33-35 | factor 0 gives `start`, factor 1 gives `end`, and a factor in [0, 1] stays between `start` and `end`, whichever of the two is larger |
| Helpers.Scaled | js/utils/helpers.js:34 | the scaled gap is 0 at factor 0, the whole gap at factor 1, and between 0 and the gap for a factor in [0, 1], for a gap of either sign |
| Helpers.FormatNumber | js/utils/helpers.js:135-143 | the `M` branch exactly for `num >= 1000000`, the `K` branch exactly for `1000 <= num < 1000000`, plain otherwise, each with the scaled value it prints |
| Helpers.Throttle.constructor | js/utils/helpers.js:20-21 | a new wrapper is not throttled and has run nothing |
| Helpers.Throttle.Call | js/utils/helpers.js:22-30 | a call while not throttled runs `func` at once with its arguments and enters the throttled state; a call while throttled is dropped |
| Helpers.Throttle.Expire | js/utils/helpers.js:28 | only the timer's expiry leaves the throttled state, and it runs nothing |
| Helpers.Debounce.constructor | js/utils/helpers.js:1-2 | a new wrapper has no pending timer and has run nothing |
| Helpers.Debounce.Call | js/utils/helpers.js:3-17 | a call replaces the pending timer by one carrying its own arguments, and runs `func` at once only when `immediate` and no timer was pending |
| Helpers.Debounce.Expire | js/utils/helpers.js:7-10 | expiry clears the timer and runs `func` with the last call's arguments only when not `immediate` |
| Interactions.InteractionManager.constructor | js/modules/interactions.js:2-9 | a new manager is not interacting, with touch start time 0 |
| Interactions.InteractionManager.MouseEnter | js/modules/interactions.js:28-33 | interacting becomes true, the entity activates with one burst, and the canvas class and code floats are shown |
| Interactions.InteractionManager.MouseLeave | js/modules/interactions.js:35-40 | interacting becomes false, the entity deactivates, the tooltip is hidden, the canvas class is removed, and the hovered value is kept |
| Interactions.InteractionManager.MouseMove | js/modules/interactions.js:42-47 | while interacting the target follows the pointer and the hover check runs; otherwise nothing changes |
| Interactions.InteractionManager.DocumentMouseMove | js/modules/interactions.js:21-25 | while not interacting the target follows the pointer; otherwise nothing changes |
| Interactions.InteractionManager.CanvasPointerMove | js/modules/interactions.js:21-47 | a move over the canvas reaches both listeners: the target follows the pointer in either mode, and the hover state changes only while interacting |
| Interactions.InteractionManager.Click | js/modules/interactions.js:49-56 | a pulse and a ripple, then one more draw; the entity morphs exactly when that draw is above 0.5 |
| Interactions.InteractionManager.CoinMorph | js/modules/interactions.js:53-55 | one draw; above 0.5 the nodes are re-anchored and the morph restarts, otherwise the entity is as it was |
| Interactions.InteractionManager.TouchStart | js/modules/interactions.js:58-63 | remembers the time, moves the target to the touch and activates |
| Interactions.InteractionManager.TouchMove | js/modules/interactions.js:65-69 | the target follows the touch |
| Interactions.InteractionManager.TouchEnd | js/modules/interactions.js:71-77 | a pulse exactly when the touch lasted under 200 ms, with nothing changed otherwise; the entity always deactivates |
| Interactions.Script | js/modules/interactions.js:293-353 | a known name selects its script; any other name falls back to the RAG script; the script is never empty |
| Interactions.NodeNavigation | js/modules/interactions.js:241-254 | indices 0 to 3 each select exactly one navigation, the one at that place; any other index selects none |
| Interactions.NavigationRoundTrip | js/modules/interactions.js:241-254 | each navigation is selected by its own index and by no other |
| Interactions.CallbackTimers | js/modules/interactions.js:384-387 | the `typeMultipleMessages` callback schedules exactly the list of one 200 ms timer typing the next message; no callback schedules nothing |
| Interactions.RevealTimers | js/modules/interactions.js:193-214 | the reveal schedules the 800 ms and 1200 ms steps, plus the 400 ms entity reveal exactly when an entity is set |
| Interactions.TypedConcat | js/modules/interactions.js:378-392 | typing two lists of messages one after the other types their texts in order |
| Interactions.TypedStep | js/modules/interactions.js:382-386 | the text after one more message is the text so far, the message and a newline |
| Interactions.DemoController.constructor | js/modules/interactions.js:115-134 | a new controller is not typing and not revealed, has no entity and no pending timers |
| Interactions.DemoController.SetEntity | js/modules/interactions.js:136-138 | the entity is set |
| Interactions.DemoController.TaglineClick | js/modules/interactions.js:170-179 | the first click runs the reveal and sets the one-way flag; every later click starts the demo |
| Interactions.DemoController.TriggerReveal | js/modules/interactions.js:181-215 | sets the flag, fades the tagline, and schedules the reveal timers; without an entity it logs the error instead of scheduling the entity's reveal |
| Interactions.DemoController.StartDemo | js/modules/interactions.js:280-290 | opens the showcase and schedules the 500 ms intro |
| Interactions.DemoController.NodeClick | js/modules/interactions.js:231-278 | pulses the entity exactly when one is set, leaving every other entity field unchanged, then performs exactly the navigation of the index: scroll to bio, start the demo, or a log line; none for any other index |
| Interactions.DemoController.TypeStep | js/modules/interactions.js:364-373 | before the end, one more character and a timer `30 + 20 * draw` ms later; past the end, typing stops and the callback runs |
| Interactions.DemoController.TypeTerminalMessage | js/modules/interactions.js:358-376 | refused while typing, with nothing changed; otherwise typing starts and the first step runs at once |
| Interactions.DemoController.TypeNextMessage | js/modules/interactions.js:381-389 | while messages remain, types the next one plus a newline with the next-message callback; otherwise nothing |
| Interactions.DemoController.TypeMultipleMessages | js/modules/interactions.js:378-392 | starts typing the first message plus a newline |
| Interactions.DemoController.DemonstrateCapability | js/modules/interactions.js:292-356 | clears the terminal first, then types the chosen script (the RAG script for an unknown name) |
| Interactions.DemoController.Fire | js/modules/interactions.js:195-387 | a pending timer leaves the queue and exactly its callback runs: the throwing entity reveal, the floats, the tagline, the demo steps, a typed character or the next message |
| Interactions.FinishTyping | js/modules/interactions.js:364-373 | firing the typer's own timers types the rest of the message, ends typing and leaves exactly the callback's timer |
| Interactions.TypeWholeMessage | js/modules/interactions.js:358-376 | when not typing, a message followed by its own timers appends exactly the message, ends typing and runs the callback once |
| Interactions.TypeAllMessages | js/modules/interactions.js:378-392 | when not typing, the messages followed by their own timers append each message and a newline, in order, and leave no timer behind |
| Interactions.NextLine | js/modules/interactions.js:381-389 | one turn of the chain: the rest of line `j`, then the 200 ms timer that starts line `j + 1` |
| Interactions.LineTyped | js/modules/interactions.js:383-386 | the first character of a line and its rest complete that line |
| Interactions.FireNextMessage | js/modules/interactions.js:381-389 | the 200 ms timer starts the next message if one is left, and otherwise ends the chain |
| Interactions.TaglineClickTwice | js/modules/interactions.js:170-183 | two clicks reveal once and then start the demo: the reveal path never runs twice |
| Animations.FirstAnimation | js/modules/animations.js:58-64 | animating an element adds its classes first, and staggers its children, as the second and last effect, exactly when it has `stagger-animation` after the add: from its markup or because its `data-animate` is that class |
| Animations.QualifyingMembers | js/modules/animations.js:17-20 | an id is a qualifying target of a list of entries exactly when some entry of the list targets it and is intersecting with ratio above 0.25 |
| Animations.CallbackMembers | js/modules/animations.js:16-21 | an element is newly marked by the callback exactly when some entry before the first throwing one targets it and is intersecting with ratio above 0.25 |
| Animations.CompletedFirstThrow | js/modules/animations.js:16-21 | the `forEach` stops exactly at the first entry whose `animateElement` throws (a new, qualifying target whose `data-animate` is not a valid token); no entry before it throws |
| Animations.CompletedStops | js/modules/animations.js:16-21 | once the `forEach` has stopped, the entries after the stop change nothing |
| Animations.ThrowStops | js/modules/animations.js:16-21 | a throwing entry reached by the `forEach` is where the callback ends |
| Animations.CompletedAllValid | js/modules/animations.js:16-21 | when every `data-animate` is a valid token, the callback visits every entry |
| Animations.EntryEffectsSeen | js/modules/animations.js:16-21 | when every qualifying element is already animated, the callback visits every entry without throwing and changes nothing, so repeating a completed callback is a no-op |
| Animations.EntryStep | js/modules/animations.js:17-20 | one more entry adds its target and its first animation, if it qualifies and is new, and the `forEach` gets past it unless it had stopped or this entry throws |
| Animations.AnimationController.constructor | js/modules/animations.js:2-32 | a new controller has the `main` observer on the `[data-animate]` elements, nothing animated and `ticking` false |
| Animations.AnimationController.AnimateElement | js/modules/animations.js:55-65 | on an element already in the set nothing changes; a new element whose type is not a valid token throws and nothing changes; otherwise it is added and its first animation, with the stagger test made after the add, is recorded |
| Animations.AnimationController.Intersect | js/modules/animations.js:16-21 | the callback adds exactly the qualifying targets before the first throwing entry and records each new target's animation once, in entry order; it ends in an error exactly when some entry throws |
| Animations.AnimationController.Visit | js/modules/animations.js:17-20 | one turn of the `forEach`: the entry's target is animated when it qualifies, or the call throws and nothing changes |
| Animations.AnimationController.Scroll | js/modules/animations.js:47-52 | a scroll requests a frame only when none is pending, so at most one update is pending |
| Animations.AnimationController.UpdateAnimations | js/modules/animations.js:34-45 | the frame runs the parallax update and resets `ticking` |
| Animations.AnimationController.Destroy | js/modules/animations.js:201-205 | every observer is disconnected, and both the observers and the animated set are left empty |
| Animations.ScrollBurst | js/modules/animations.js:32-52 | any number of scroll events before the frame lead to exactly one update |
| Animations.Typewriter.constructor | js/modules/animations.js:125-137 | the element is cleared and the first character typed at once |
| Animations.Typewriter.TypeStep | js/modules/animations.js:129-135 | appends the next character to whatever the element holds and schedules another step, or does nothing past the end; an element holding the typed prefix holds the longer prefix |
| Animations.Typewriter.Tick | js/modules/animations.js:133 | the scheduled step runs, with the same effect as `TypeStep` |
| Animations.TypeOut | js/modules/animations.js:125-138 | running the steps until none is pending leaves exactly the text in the element |
| Animations.GlitchIndex | js/modules/animations.js:186 | `Math.floor(r * 29)` indexes the glitch characters |
| Animations.Scrambled | js/modules/animations.js:182-190 | every scrambled text has the original length, each character is the original or a glitch character, and it takes one or two draws per character |
| Animations.ScrambleChar | js/modules/animations.js:184-189 | one character of the map agrees with the scrambled text |
| Animations.ScrambleText | js/modules/animations.js:182-190 | the split, map and join produce exactly the scrambled text and take its draws |
| Animations.Glitch.constructor | js/modules/animations.js:174-181 | remembers the text at the call and starts the interval with no iterations |
| Animations.Glitch.Tick | js/modules/animations.js:181-198 | one tick counts one iteration and shows a scrambled text; after the tenth the interval stops and the original text is back |
| Animations.GlitchOut | js/modules/animations.js:174-199 | running the interval to the end stops it after ten ticks and restores the original text exactly |

## Left out

- Canvas rendering (`drawConnections`, `drawCore`, `drawNodes`, `drawParticles`, `clearRect`) is pixel output with no state.
- `Math.cos`, `Math.sin`, `Math.atan2` and `Math.sqrt` are parameters, not computed values. The repulsion force and the breathing offsets enter `updateNodes` as given `Forces`.
- IEEE double rounding is not modelled; reals stand for doubles. No claim is made about the frame on which a particle dies.
- Tooltip element creation, its position and its CSS classes are left out. Only the order of show and hide calls and their texts are kept. The pathway text's `toFixed(2)` is kept as the raw strength.
- `canvas.width`, `devicePixelRatio` and `ctx.scale` in `resize`: only the centre is kept, because nothing else in the model reads them.
- js/main.js is not part of this model: bootstrapping, service worker, prefetching, lazy images and the resize wiring.
- `showCodeFloats`, `hideCodeFloats`, `revealCodeFloats`, `createRipple` and their per-float timers are single effect-log entries. The floats' own click handlers are modelled by calling `NodeClick` directly.
- `console.log` lines are left out, except the two navigation logs and the missing-entity error, which are the observable behaviour of those branches.
- `scrollIntoView` for the bio navigation is the effect `ScrollToAbout`. The `#about` element is assumed to exist.
- Interactions.DemoController.StartDemo: the `#showcase` element looked up at js/modules/interactions.js:119 is assumed to exist. Without it the source throws when the demo starts; the model always records `ShowcaseOpened`.
- Timer delays are recorded but not ordered by time. Any pending timer may be fired next.
- Interactions.FinishTyping, Interactions.TypeWholeMessage, Interactions.TypeAllMessages: these assume that only the typer's own timers fire while it types. Interleavings with other timers are not covered.
- The IntersectionObserver itself (thresholds, root margin, which entries the browser delivers) is left out; entries are an input. The observed `[data-animate]` elements are a given set of ids.
- The parallax transforms of `updateAnimations` are one `Parallax` effect, because they are style writes computed from `scrollY`.
- `animateStaggerChildren`'s per-child timers are one `StaggerChildren` effect.
- `createFloatingParticles`, `animateOnScroll`, `countUp` and `shimmer` are DOM and float-easing effects with no state to prove.
- `randomRange`, `randomInt`, `distance` and `angle` are not used by the core.
- The browser wrappers in js/utils/helpers.js are left out: `isMobile`, `isTouch`, `getScrollPercent`, `smoothScroll`, `preloadImages`, `copyToClipboard`, `detectPrefersColorScheme` and the idle-callback shims.
- Helpers.FormatNumber: only the branch and the scaled value are stated. The digits `toFixed(1)` and `toString` print are not modelled.
- Helpers.RgbToHex: channels outside 0..255 and fractional channels follow JavaScript's shifts only for integers; non-integer arguments are not modelled.
- Strings are sequences of Dafny characters, which match UTF-16 code units for text in the Basic Multilingual Plane. Text with characters outside it (surrogate pairs) is not modelled. The mojibake in the deploy script (the block and rocket characters as the file's text decodes them) is copied character for character.
- Interactions.Script: prototype keys such as `toString`, which `demos[type]` would also find, are not modelled. Only the four own keys are.
- The reveal visibility scalar and click-to-node hit testing do not exist in the code and are not modelled.
- Interactions.InteractionManager.TouchStart, Interactions.InteractionManager.TouchMove: a touch event with an empty `touches` list throws in the source. The model takes the first touch's position as given.
- The error thrown by `classList.add` leaves the observer callback; the model reports it as `Intersect` returning false. The browser's reporting of the uncaught error is left out. Elements are identified by their ids.
- Animations.AnimationController.Destroy: `destroy` neither resets `ticking` nor removes the scroll listener, and the model keeps both as they are.
- Listener registration (`addEventListener`) and teardown are not modelled. Each handler is a method that is called directly.
- Animations.TypeOut: it proves the final text only when nothing else writes the element between steps. `TypeStep` and `Tick` themselves append to whatever the element holds.
