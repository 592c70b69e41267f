/**
 * The page's interaction layer. `InteractionManager` holds the canvas
 * listeners: the `isInteracting` flag decides whether the canvas or the
 * document listener forwards the pointer to the entity. `DemoController`
 * reveals the page on the first tagline click, runs the demo on later ones,
 * dispatches code-float clicks by index, and types scripted output into the
 * terminal one character per timer callback.
 *
 * Timers are explicit: a `setTimeout` callback waits in `timers` until
 * `Fire` runs it. `Date.now()` is a parameter. The DOM work the handlers do
 * besides the modelled state is recorded as an abstract effect log.
 */
module Interactions {
  import opened Random
  import opened Helpers
  import opened Entity

  // ---------------------------------------------------------------------
  // InteractionManager
  // ---------------------------------------------------------------------

  /** What the canvas handlers do to the page outside the entity. */
  datatype CanvasEffect =
    | AddInteracting           // the canvas gains the `interacting` class
    | RemoveInteracting        // and loses it
    | ShowCodeFloats           // `showCodeFloats`
    | Ripple(x: real, y: real) // `createRipple` at the client position

  /** A touch shorter than this many milliseconds is a tap. */
  const TapLimit: int := 200

  class InteractionManager {
    const entity: AIEntity
    var isInteracting: bool
    /** `Date.now()` at the last `touchstart`. */
    var touchStartTime: int
    var effects: seq<CanvasEffect>

    ghost predicate Valid()
      reads this, entity
    {
      entity.Valid()
    }

    constructor (entity: AIEntity)
      ensures this.entity == entity && !isInteracting && touchStartTime == 0 && effects == []
    {
      this.entity := entity;
      isInteracting := false;
      touchStartTime := 0;
      effects := [];
    }

    /** `handleMouseEnter`: interacting, and the entity activates. */
    method MouseEnter()
      modifies this`isInteracting, this`effects, entity`isActive, entity`particles, entity.random
      ensures isInteracting && entity.isActive
      ensures entity.particles == old(entity.particles)
                + Burst(entity.centerX, entity.centerY, entity.random.draw, old(entity.random.used), BurstSize)
      ensures entity.random.used == old(entity.random.used) + 3 * BurstSize
      ensures effects == old(effects) + [AddInteracting, ShowCodeFloats]
    {
      isInteracting := true;
      entity.Activate();
      effects := effects + [AddInteracting, ShowCodeFloats];
    }

    /**
     * `handleMouseLeave`: no longer interacting, the entity deactivates and
     * the tooltip is hidden; `hoveredElement` keeps its value.
     */
    method MouseLeave()
      modifies this`isInteracting, this`effects, entity`isActive, entity`tooltips
      ensures !isInteracting && !entity.isActive && entity.hovered == old(entity.hovered)
      ensures entity.tooltips == old(entity.tooltips) + [Hide]
      ensures effects == old(effects) + [RemoveInteracting]
    {
      isInteracting := false;
      entity.Deactivate();
      entity.HideTooltip();
      effects := effects + [RemoveInteracting];
    }

    /** The canvas `mousemove` listener: forward and hit-test only while interacting. */
    method MouseMove(clientX: real, clientY: real, rectLeft: real, rectTop: real,
                     coreSin: real, pulses: seq<real>)
      requires Valid() && |pulses| == |entity.nodes|
      modifies entity`targetX, entity`targetY, entity`hovered, entity`tooltips
      ensures isInteracting ==>
                entity.targetX == clientX - rectLeft && entity.targetY == clientY - rectTop
                && entity.hovered == HoverTarget(entity.nodes, entity.connections, clientX - rectLeft, clientY - rectTop,
                                                 entity.centerX, entity.centerY, coreSin, pulses)
                && (entity.hovered.ConnectionHover? ==> entity.hovered.index < |entity.connections|)
                && entity.tooltips == old(entity.tooltips) + HoverEvents(old(entity.hovered), entity.hovered, entity.connections)
      ensures !isInteracting ==>
                entity.targetX == old(entity.targetX) && entity.targetY == old(entity.targetY)
                && entity.hovered == old(entity.hovered) && entity.tooltips == old(entity.tooltips)
    {
      if isInteracting {
        entity.UpdateMousePosition(clientX, clientY, rectLeft, rectTop);
        entity.CheckHover(clientX, clientY, rectLeft, rectTop, coreSin, pulses);
      }
    }

    /** The document `mousemove` listener: forward only while not interacting. */
    method DocumentMouseMove(clientX: real, clientY: real, rectLeft: real, rectTop: real)
      modifies entity`targetX, entity`targetY
      ensures !isInteracting ==> entity.targetX == clientX - rectLeft && entity.targetY == clientY - rectTop
      ensures isInteracting ==> entity.targetX == old(entity.targetX) && entity.targetY == old(entity.targetY)
    {
      if !isInteracting {
        entity.UpdateMousePosition(clientX, clientY, rectLeft, rectTop);
      }
    }

    /**
     * A `mousemove` over the canvas reaches the canvas listener and then,
     * bubbling, the document listener: the target follows the pointer in
     * either mode, and the hover test runs only while interacting.
     */
    method CanvasPointerMove(clientX: real, clientY: real, rectLeft: real, rectTop: real,
                             coreSin: real, pulses: seq<real>)
      requires Valid() && |pulses| == |entity.nodes|
      modifies entity`targetX, entity`targetY, entity`hovered, entity`tooltips
      ensures entity.targetX == clientX - rectLeft && entity.targetY == clientY - rectTop
      ensures isInteracting ==>
                entity.hovered == HoverTarget(entity.nodes, entity.connections, clientX - rectLeft, clientY - rectTop,
                                              entity.centerX, entity.centerY, coreSin, pulses)
      ensures !isInteracting ==> entity.hovered == old(entity.hovered) && entity.tooltips == old(entity.tooltips)
    {
      MouseMove(clientX, clientY, rectLeft, rectTop, coreSin, pulses);
      DocumentMouseMove(clientX, clientY, rectLeft, rectTop);
    }

    /**
     * `handleClick`: a pulse and a ripple, then one more draw; above 0.5 the
     * entity morphs. `dirs` and `swell` are the morph's trigonometric terms.
     */
    method Click(clientX: real, clientY: real, dirs: seq<Vec>, swell: real)
      requires Valid() && |dirs| == |entity.nodes|
      modifies this`effects, entity`particles, entity`nodes, entity`morphProgress, entity`morphPending, entity.random
      ensures Valid()
      ensures effects == old(effects) + [Ripple(clientX, clientY)]
      ensures entity.particles == old(entity.particles)
                + Burst(entity.centerX, entity.centerY, entity.random.draw, old(entity.random.used), BurstSize)
      ensures entity.random.used == old(entity.random.used) + 3 * BurstSize + 2 * |old(entity.nodes)| + 1
      ensures var coin := entity.random.draw(entity.random.used - 1);
              var pulsed := Kicked(old(entity.nodes), entity.random.draw, old(entity.random.used) + 3 * BurstSize);
              if coin > 0.5 then
                entity.nodes == Reanchor(pulsed, entity.centerX, entity.centerY,
                                         MorphRadius(entity.centerX, entity.centerY, swell), dirs)
                && entity.morphProgress == 0.02 && entity.morphPending == old(entity.morphPending) + 1
              else
                entity.nodes == pulsed
                && entity.morphProgress == old(entity.morphProgress) && entity.morphPending == old(entity.morphPending)
    {
      entity.TriggerPulse();
      ghost var pulsed := entity.nodes;
      ghost var used := entity.random.used;
      effects := effects + [Ripple(clientX, clientY)];
      CoinMorph(dirs, swell);
      assert entity.random.used - 1 == used;
      assert entity.random.draw(used) <= 0.5 ==> entity.nodes == pulsed;
    }

    /** The end of `handleClick`: one draw, and a morph when it is above 0.5. */
    method CoinMorph(dirs: seq<Vec>, swell: real)
      requires Valid() && |dirs| == |entity.nodes|
      modifies entity`nodes, entity`morphProgress, entity`morphPending, entity.random
      ensures Valid()
      ensures entity.random.used == old(entity.random.used) + 1
      ensures var coin := entity.random.draw(old(entity.random.used));
              if coin > 0.5 then
                entity.nodes == Reanchor(old(entity.nodes), entity.centerX, entity.centerY,
                                         MorphRadius(entity.centerX, entity.centerY, swell), dirs)
                && entity.morphProgress == 0.02 && entity.morphPending == old(entity.morphPending) + 1
              else
                entity.nodes == old(entity.nodes)
                && entity.morphProgress == old(entity.morphProgress) && entity.morphPending == old(entity.morphPending)
    {
      var coin := entity.random.Next();
      if coin > 0.5 {
        entity.Morph(dirs, swell);
      }
    }

    /** `handleTouchStart`: remembers the time, forwards the first touch and activates. */
    method TouchStart(now: int, clientX: real, clientY: real, rectLeft: real, rectTop: real)
      modifies this`touchStartTime, entity`targetX, entity`targetY, entity`isActive, entity`particles, entity.random
      ensures touchStartTime == now && entity.isActive
      ensures entity.targetX == clientX - rectLeft && entity.targetY == clientY - rectTop
      ensures entity.particles == old(entity.particles)
                + Burst(entity.centerX, entity.centerY, entity.random.draw, old(entity.random.used), BurstSize)
      ensures entity.random.used == old(entity.random.used) + 3 * BurstSize
    {
      touchStartTime := now;
      entity.UpdateMousePosition(clientX, clientY, rectLeft, rectTop);
      entity.Activate();
    }

    /** `handleTouchMove`: forwards the first touch. */
    method TouchMove(clientX: real, clientY: real, rectLeft: real, rectTop: real)
      modifies entity`targetX, entity`targetY
      ensures entity.targetX == clientX - rectLeft && entity.targetY == clientY - rectTop
    {
      entity.UpdateMousePosition(clientX, clientY, rectLeft, rectTop);
    }

    /** `handleTouchEnd`: a pulse exactly when the touch lasted under 200 ms; always deactivates. */
    method TouchEnd(now: int)
      requires Valid()
      modifies entity`isActive, entity`particles, entity`nodes, entity.random
      ensures Valid() && !entity.isActive
      ensures now - touchStartTime < TapLimit ==>
                entity.particles == old(entity.particles)
                  + Burst(entity.centerX, entity.centerY, entity.random.draw, old(entity.random.used), BurstSize)
                && entity.nodes == Kicked(old(entity.nodes), entity.random.draw, old(entity.random.used) + 3 * BurstSize)
                && entity.random.used == old(entity.random.used) + 3 * BurstSize + 2 * |entity.nodes|
      ensures now - touchStartTime >= TapLimit ==>
                entity.particles == old(entity.particles) && entity.nodes == old(entity.nodes)
                && entity.random.used == old(entity.random.used)
    {
      var touchDuration := now - touchStartTime;
      if touchDuration < TapLimit {
        entity.TriggerPulse();
      }
      entity.Deactivate();
    }
  }

  // ---------------------------------------------------------------------
  // DemoController: scripts and navigation
  // ---------------------------------------------------------------------

  /** The UTF-8 bytes of a full block character, as the file's text decodes them (Windows-1252). */
  const Block: string := "\U{00E2}\U{2013}\U{02C6}"
  const Bar: string := Block + Block + Block + Block + Block + Block + Block + Block + Block + Block + Block + Block
  /** The UTF-8 bytes of the rocket emoji, decoded the same way. */
  const Rocket: string := "\U{00F0}\U{0178}\U{0161}\U{20AC}"

  const RagScript: seq<string> := [
    "> agent.rag.initialize()",
    "Loading vector database...",
    "Indexing documents: 1,247 files",
    "Embeddings generated: 15,832 chunks",
    "RAG pipeline ready.",
    "",
    "> agent.rag.query(\"How to implement custom tools?\")",
    "Searching knowledge base...",
    "Found 12 relevant documents",
    "Generating response with context...",
    "Response: Custom tools can be implemented by extending the BaseTool class..."
  ]

  const MemoryScript: seq<string> := [
    "> agent.memory.initialize()",
    "Setting up memory systems...",
    "Short-term memory: Active",
    "Long-term memory: Connected to PostgreSQL",
    "Episodic buffer: Ready",
    "",
    "> agent.memory.store({context: \"user_preference\", data: {...}})",
    "Storing in short-term memory...",
    "Creating embeddings...",
    "Persisting to long-term storage...",
    "Memory stored with ID: mem_7f3a9c2d"
  ]

  const ToolsScript: seq<string> := [
    "> agent.tools.list()",
    "Available tools:",
    "  - WebSearch: Search the internet",
    "  - CodeExecutor: Run Python code",
    "  - DatabaseQuery: Query SQL databases",
    "  - FileSystem: Read/write files",
    "  - APIClient: Make HTTP requests",
    "",
    "> agent.tools.execute(\"WebSearch\", {query: \"latest AI papers\"})",
    "Executing WebSearch...",
    "Found 47 results",
    "Filtering by relevance..."
  ]

  const DeployScript: seq<string> := [
    "> npm run deploy",
    "Building production bundle...",
    "Optimizing assets...",
    "Creating Docker container...",
    "",
    "> docker push ai-agent:latest",
    "Pushing to registry...",
    "Layer 1/5: " + Bar + " 100%",
    "Layer 2/5: " + Bar + " 100%",
    "Layer 3/5: " + Bar + " 100%",
    "Layer 4/5: " + Bar + " 100%",
    "Layer 5/5: " + Bar + " 100%",
    "",
    "Deployment successful! " + Rocket,
    "Agent available at: https://api.your-agent.ai/v1"
  ]

  /** The `demos` table of `demonstrateCapability`. */
  const Demos: map<string, seq<string>> :=
    map["rag" := RagScript, "memory" := MemoryScript, "tools" := ToolsScript, "deploy" := DeployScript]

  /** `demos[type] || demos.rag`: the named script, or the RAG script for an unknown name. */
  function Script(kind: string): (ms: seq<string>)
    ensures kind in Demos ==> ms == Demos[kind]
    ensures kind !in Demos ==> ms == RagScript
    ensures |ms| > 0
  {
    if kind in Demos then Demos[kind] else Demos["rag"]
  }

  /** The first line `startDemo` types. */
  const IntroMessage: string := "Initializing AI Agent Blueprint...\n"

  /** The four code floats, in the order `handleNodeClick` numbers them. */
  datatype Navigation = Bio | FullAgent | TofPersonal | TofLearning

  /** The place a navigation takes up in the float list. */
  function NavigationIndex(n: Navigation): nat {
    match n
    case Bio => 0
    case FullAgent => 1
    case TofPersonal => 2
    case TofLearning => 3
  }

  /** The `switch` of `handleNodeClick`: indices 0 to 3 each select one navigation, any other none. */
  function NodeNavigation(nodeIndex: int): (n: Option<Navigation>)
    ensures n.Some? <==> 0 <= nodeIndex < 4
    ensures n.Some? ==> NavigationIndex(n.value) == nodeIndex
  {
    if nodeIndex == 0 then Some(Bio)
    else if nodeIndex == 1 then Some(FullAgent)
    else if nodeIndex == 2 then Some(TofPersonal)
    else if nodeIndex == 3 then Some(TofLearning)
    else None
  }

  /** Every navigation is reached from exactly its own index. */
  lemma NavigationRoundTrip(n: Navigation, i: int)
    ensures NodeNavigation(NavigationIndex(n)) == Some(n)
    ensures NodeNavigation(i) == Some(n) <==> i == NavigationIndex(n)
  {
  }

  // ---------------------------------------------------------------------
  // DemoController: timers and the terminal typer
  // ---------------------------------------------------------------------

  /** The callback `typeTerminalMessage` runs once a message is typed. */
  datatype Callback =
    | NoCallback
    /** `typeMultipleMessages`' callback: the next message, 200 ms later. */
    | NextMessage(messages: seq<string>, messageIndex: nat)

  /** A scheduled `setTimeout` callback. */
  datatype Task =
    | RevealEntity      // the 400 ms call of `this.entity.reveal()`
    | RevealFloats      // the 800 ms `revealCodeFloats`
    | RestoreTagline    // the 1200 ms tagline text update
    | DemoIntro         // the 500 ms step of `startDemo`
    | DemoRag           // the 2000 ms `demonstrateCapability('rag')`
    /** The `typeChar` closure: its message, its `index` and its callback. */
    | TypeChar(message: string, index: nat, callback: Callback)
    /** The `typeNext` closure: its messages and its `messageIndex`. */
    | TypeNext(messages: seq<string>, messageIndex: nat)

  datatype Timer = Timer(delay: real, task: Task)

  /** What the controller does to the page besides the terminal text. */
  datatype PageEffect =
    | FadeTagline          // the tagline button fades out
    | NoEntityError        // `console.error('No entity found!')`
    | RevealThrows         // `AIEntity` has no `reveal`: the timer callback throws
    | CodeFloatsRevealed   // `revealCodeFloats`
    | TaglineRestored      // new tagline text, faded back in
    | ShowcaseOpened       // the showcase section becomes active
    | ScrollToAbout        // `navigateToBio`
    | Log(text: string)    // the `console.log` of the other two projects

  /** The timer `typeTerminalMessage`'s callback schedules, if any. */
  function CallbackTimers(cb: Callback): (ts: seq<Timer>)
    ensures |ts| <= 1
    ensures cb.NextMessage? <==> |ts| == 1
    ensures cb.NextMessage? ==> ts == [Timer(200.0, TypeNext(cb.messages, cb.messageIndex + 1))]
  {
    match cb
    case NoCallback => []
    case NextMessage(ms, i) => [Timer(200.0, TypeNext(ms, i + 1))]
  }

  /** The timers `triggerReveal` schedules: the entity's reveal only when an entity is set. */
  function RevealTimers(hasEntity: bool): (ts: seq<Timer>)
    ensures |ts| == (if hasEntity then 3 else 2)
    ensures Timer(800.0, RevealFloats) in ts && Timer(1200.0, RestoreTagline) in ts
    ensures Timer(400.0, RevealEntity) in ts <==> hasEntity
  {
    var rest := [Timer(800.0, RevealFloats), Timer(1200.0, RestoreTagline)];
    if hasEntity then [Timer(400.0, RevealEntity)] + rest else rest
  }

  /** The text `typeMultipleMessages` types for `ms`: each message and a newline. */
  function Typed(ms: seq<string>): string {
    if ms == [] then "" else Typed(ms[..|ms| - 1]) + ms[|ms| - 1] + "\n"
  }

  /** Typing two lists of messages one after the other types their texts in order. */
  lemma {:induction false} TypedConcat(a: seq<string>, b: seq<string>)
    ensures Typed(a + b) == Typed(a) + Typed(b)
    decreases |b|
  {
    if b != [] {
      var b' := b[..|b| - 1];
      var last := b[|b| - 1];
      assert (a + b)[..|a + b| - 1] == a + b' && (a + b)[|a + b| - 1] == last;
      TypedConcat(a, b');
      calc {
        Typed(a + b);
        Typed(a + b') + last + "\n";
        Typed(a) + Typed(b') + last + "\n";
        Typed(a) + (Typed(b') + last + "\n");
      }
    } else {
      assert a + b == a;
    }
  }

  /** The text after one more message. */
  lemma TypedStep(ms: seq<string>, j: nat)
    requires j < |ms|
    ensures Typed(ms[..j + 1]) == Typed(ms[..j]) + ms[j] + "\n"
  {
    assert ms[..j + 1][..j] == ms[..j];
  }

  class DemoController {
    /** `Math.random`, drawn for each typing delay. */
    const random: Source
    /** The terminal element's `textContent`. */
    var terminal: string
    var isTyping: bool
    var isRevealed: bool
    var entity: AIEntity?
    var timers: seq<Timer>
    var effects: seq<PageEffect>

    ghost predicate Valid()
      reads this, entity
    {
      entity != null ==> entity.Valid() && entity.random == random
    }

    /** `new DemoController()`, with the terminal's initial text; no entity is set. */
    constructor (random: Source, text: string)
      ensures Valid() && this.random == random && terminal == text
      ensures !isTyping && !isRevealed && entity == null && timers == [] && effects == []
    {
      this.random := random;
      terminal := text;
      isTyping := false;
      isRevealed := false;
      entity := null;
      timers := [];
      effects := [];
    }

    /** `setEntity`. */
    method SetEntity(e: AIEntity)
      requires e.Valid() && e.random == random
      modifies this`entity
      ensures Valid() && entity == e
    {
      entity := e;
    }

    /** `handleTaglineClick`: the first click reveals, every later one starts the demo. */
    method TaglineClick()
      modifies this`isRevealed, this`timers, this`effects
      ensures isRevealed
      ensures !old(isRevealed) ==>
                timers == old(timers) + RevealTimers(entity != null)
                && effects == old(effects) + [FadeTagline] + (if entity == null then [NoEntityError] else [])
      ensures old(isRevealed) ==>
                timers == old(timers) + [Timer(500.0, DemoIntro)] && effects == old(effects) + [ShowcaseOpened]
    {
      if !isRevealed {
        TriggerReveal();
      } else {
        StartDemo();
      }
    }

    /** `triggerReveal`: sets the one-way flag, fades the tagline and schedules the reveal steps. */
    method TriggerReveal()
      modifies this`isRevealed, this`timers, this`effects
      ensures isRevealed
      ensures timers == old(timers) + RevealTimers(entity != null)
      ensures effects == old(effects) + [FadeTagline] + (if entity == null then [NoEntityError] else [])
    {
      isRevealed := true;
      effects := effects + [FadeTagline];
      if entity != null {
        timers := timers + [Timer(400.0, RevealEntity)];
      } else {
        effects := effects + [NoEntityError];
      }
      timers := timers + [Timer(800.0, RevealFloats), Timer(1200.0, RestoreTagline)];
    }

    /** `startDemo`: opens the showcase and schedules the intro. */
    method StartDemo()
      modifies this`timers, this`effects
      ensures timers == old(timers) + [Timer(500.0, DemoIntro)]
      ensures effects == old(effects) + [ShowcaseOpened]
    {
      effects := effects + [ShowcaseOpened];
      timers := timers + [Timer(500.0, DemoIntro)];
    }

    /** `handleNodeClick`: pulses the entity if one is set, then dispatches on the index. */
    method NodeClick(nodeIndex: int)
      requires Valid()
      modifies this`timers, this`effects, entity, random
      ensures Valid()
      ensures entity != null ==>
                entity.particles == old(entity.particles)
                  + Burst(entity.centerX, entity.centerY, random.draw, old(random.used), BurstSize)
                && entity.nodes == Kicked(old(entity.nodes), random.draw, old(random.used) + 3 * BurstSize)
                && random.used == old(random.used) + 3 * BurstSize + 2 * |entity.nodes|
      ensures entity != null ==>
                unchanged(entity`centerX, entity`centerY, entity`connections, entity`isActive, entity`hovered,
                          entity`tooltips, entity`time, entity`morphProgress, entity`morphPending,
                          entity`mouseX, entity`mouseY, entity`targetX, entity`targetY)
      ensures entity == null ==> random.used == old(random.used)
      ensures NodeNavigation(nodeIndex) == Some(Bio) ==>
                effects == old(effects) + [ScrollToAbout] && timers == old(timers)
      ensures NodeNavigation(nodeIndex) == Some(FullAgent) ==>
                effects == old(effects) + [ShowcaseOpened] && timers == old(timers) + [Timer(500.0, DemoIntro)]
      ensures NodeNavigation(nodeIndex) == Some(TofPersonal) ==>
                effects == old(effects) + [Log("Navigate to TOF-Personal")] && timers == old(timers)
      ensures NodeNavigation(nodeIndex) == Some(TofLearning) ==>
                effects == old(effects) + [Log("Navigate to TOF-Learning")] && timers == old(timers)
      ensures NodeNavigation(nodeIndex) == None ==> effects == old(effects) && timers == old(timers)
    {
      if entity != null {
        entity.TriggerPulse();
      }
      match NodeNavigation(nodeIndex)
      case Some(Bio) =>
        effects := effects + [ScrollToAbout];
      case Some(FullAgent) =>
        StartDemo();
      case Some(TofPersonal) =>
        effects := effects + [Log("Navigate to TOF-Personal")];
      case Some(TofLearning) =>
        effects := effects + [Log("Navigate to TOF-Learning")];
      case None =>
    }

    /**
     * The body of the `typeChar` closure at `index`: the next character and a
     * timer `30 + Math.random() * 20` ms later, or, past the end, the end of
     * typing and the callback.
     */
    method TypeStep(message: string, index: nat, cb: Callback)
      modifies this`isTyping, this`terminal, this`timers, random
      ensures index < |message| ==>
                terminal == old(terminal) + [message[index]] && isTyping == old(isTyping)
                && random.used == old(random.used) + 1
                && timers == old(timers) + [Timer(30.0 + random.draw(old(random.used)) * 20.0, TypeChar(message, index + 1, cb))]
      ensures index >= |message| ==>
                !isTyping && terminal == old(terminal) && random.used == old(random.used)
                && timers == old(timers) + CallbackTimers(cb)
    {
      if index < |message| {
        terminal := terminal + [message[index]];
        var d: real := random.Next();
        timers := timers + [Timer(30.0 + d * 20.0, TypeChar(message, index + 1, cb))];
      } else {
        isTyping := false;
        timers := timers + CallbackTimers(cb);
      }
    }

    /** `typeTerminalMessage`: refused while typing; otherwise typing starts with the first step. */
    method TypeTerminalMessage(message: string, cb: Callback)
      modifies this`isTyping, this`terminal, this`timers, random
      ensures old(isTyping) ==>
                isTyping && terminal == old(terminal) && timers == old(timers) && random.used == old(random.used)
      ensures !old(isTyping) && |message| > 0 ==>
                isTyping && terminal == old(terminal) + [message[0]] && random.used == old(random.used) + 1
                && timers == old(timers) + [Timer(30.0 + random.draw(old(random.used)) * 20.0, TypeChar(message, 1, cb))]
      ensures !old(isTyping) && |message| == 0 ==>
                !isTyping && terminal == old(terminal) && random.used == old(random.used)
                && timers == old(timers) + CallbackTimers(cb)
    {
      if isTyping {
        return;
      }
      isTyping := true;
      TypeStep(message, 0, cb);
    }

    /** The `typeNext` closure at `messageIndex`: the next message and a newline, if any is left. */
    method TypeNextMessage(ms: seq<string>, messageIndex: nat)
      modifies this`isTyping, this`terminal, this`timers, random
      ensures messageIndex >= |ms| || old(isTyping) ==>
                isTyping == old(isTyping) && terminal == old(terminal) && timers == old(timers)
                && random.used == old(random.used)
      ensures messageIndex < |ms| && !old(isTyping) ==>
                var message := ms[messageIndex] + "\n";
                isTyping && terminal == old(terminal) + [message[0]] && random.used == old(random.used) + 1
                && timers == old(timers) + [Timer(30.0 + random.draw(old(random.used)) * 20.0,
                                                  TypeChar(message, 1, NextMessage(ms, messageIndex)))]
    {
      if messageIndex < |ms| {
        var message := ms[messageIndex] + "\n";
        TypeTerminalMessage(message, NextMessage(ms, messageIndex));
      }
    }

    /** `typeMultipleMessages`: starts with the first message. */
    method TypeMultipleMessages(ms: seq<string>)
      modifies this`isTyping, this`terminal, this`timers, random
      ensures |ms| == 0 || old(isTyping) ==>
                isTyping == old(isTyping) && terminal == old(terminal) && timers == old(timers)
                && random.used == old(random.used)
      ensures |ms| > 0 && !old(isTyping) ==>
                var message := ms[0] + "\n";
                isTyping && terminal == old(terminal) + [message[0]] && random.used == old(random.used) + 1
                && timers == old(timers) + [Timer(30.0 + random.draw(old(random.used)) * 20.0,
                                                  TypeChar(message, 1, NextMessage(ms, 0)))]
    {
      TypeNextMessage(ms, 0);
    }

    /** `demonstrateCapability`: clears the terminal, then types the chosen script. */
    method DemonstrateCapability(kind: string)
      modifies this`isTyping, this`terminal, this`timers, random
      ensures old(isTyping) ==>
                isTyping && terminal == "" && timers == old(timers) && random.used == old(random.used)
      ensures !old(isTyping) ==>
                var message := Script(kind)[0] + "\n";
                isTyping && terminal == [message[0]] && random.used == old(random.used) + 1
                && timers == old(timers) + [Timer(30.0 + random.draw(old(random.used)) * 20.0,
                                                  TypeChar(message, 1, NextMessage(Script(kind), 0)))]
    {
      var messages := Script(kind);
      terminal := "";
      TypeMultipleMessages(messages);
    }

    /** A pending timer expires: it leaves the queue and its callback runs. */
    method Fire(k: nat)
      requires Valid() && k < |timers|
      modifies this`isTyping, this`terminal, this`timers, this`effects, random
      ensures Valid()
      ensures var t := old(timers[k].task); var rest := old(timers[..k] + timers[k + 1..]);
              match t
              case RevealEntity =>
                effects == old(effects) + [RevealThrows] && timers == rest && terminal == old(terminal)
                && isTyping == old(isTyping) && random.used == old(random.used)
              case RevealFloats =>
                effects == old(effects) + [CodeFloatsRevealed] && timers == rest && terminal == old(terminal)
                && isTyping == old(isTyping) && random.used == old(random.used)
              case RestoreTagline =>
                effects == old(effects) + [TaglineRestored] && timers == rest && terminal == old(terminal)
                && isTyping == old(isTyping) && random.used == old(random.used)
              case DemoIntro =>
                effects == old(effects)
                && (old(isTyping) ==>
                      isTyping && terminal == old(terminal) && random.used == old(random.used)
                      && timers == rest + [Timer(2000.0, DemoRag)])
                && (!old(isTyping) ==>
                      isTyping && terminal == old(terminal) + [IntroMessage[0]] && random.used == old(random.used) + 1
                      && timers == rest + [Timer(30.0 + random.draw(old(random.used)) * 20.0, TypeChar(IntroMessage, 1, NoCallback)),
                                           Timer(2000.0, DemoRag)])
              case DemoRag =>
                effects == old(effects)
                && (old(isTyping) ==>
                      isTyping && terminal == "" && timers == rest && random.used == old(random.used))
                && (!old(isTyping) ==>
                      var message := RagScript[0] + "\n";
                      isTyping && terminal == [message[0]] && random.used == old(random.used) + 1
                      && timers == rest + [Timer(30.0 + random.draw(old(random.used)) * 20.0,
                                                 TypeChar(message, 1, NextMessage(RagScript, 0)))])
              case TypeChar(message, index, cb) =>
                effects == old(effects)
                && (index < |message| ==>
                      terminal == old(terminal) + [message[index]] && isTyping == old(isTyping)
                      && random.used == old(random.used) + 1
                      && timers == rest + [Timer(30.0 + random.draw(old(random.used)) * 20.0, TypeChar(message, index + 1, cb))])
                && (index >= |message| ==>
                      !isTyping && terminal == old(terminal) && random.used == old(random.used)
                      && timers == rest + CallbackTimers(cb))
              case TypeNext(ms, i) =>
                effects == old(effects)
                && (i >= |ms| || old(isTyping) ==>
                      isTyping == old(isTyping) && terminal == old(terminal) && timers == rest
                      && random.used == old(random.used))
                && (i < |ms| && !old(isTyping) ==>
                      var message := ms[i] + "\n";
                      isTyping && terminal == old(terminal) + [message[0]] && random.used == old(random.used) + 1
                      && timers == rest + [Timer(30.0 + random.draw(old(random.used)) * 20.0, TypeChar(message, 1, NextMessage(ms, i)))])
    {
      var t := timers[k].task;
      timers := timers[..k] + timers[k + 1..];
      match t
      case RevealEntity =>
        effects := effects + [RevealThrows];
      case RevealFloats =>
        effects := effects + [CodeFloatsRevealed];
      case RestoreTagline =>
        effects := effects + [TaglineRestored];
      case DemoIntro =>
        TypeTerminalMessage(IntroMessage, NoCallback);
        timers := timers + [Timer(2000.0, DemoRag)];
      case DemoRag =>
        DemonstrateCapability("rag");
      case TypeChar(message, index, cb) =>
        TypeStep(message, index, cb);
      case TypeNext(ms, i) =>
        TypeNextMessage(ms, i);
    }
  }

  // ---------------------------------------------------------------------
  // Whole runs, when only the typer's own timers fire
  // ---------------------------------------------------------------------

  /** A typer is at `index` of `message`: its timer is the only one after `ts`. */
  ghost predicate TyperAt(c: DemoController, ts: seq<Timer>, message: string, index: nat, cb: Callback)
    reads c
  {
    c.isTyping && |c.timers| == |ts| + 1 && c.timers[..|ts|] == ts
    && c.timers[|ts|].task == TypeChar(message, index, cb)
  }

  /**
   * Firing the typer's timers until it stops types the rest of the message,
   * clears `isTyping`, and leaves exactly the callback's timer behind.
   */
  method FinishTyping(c: DemoController, ghost ts: seq<Timer>, message: string, index: nat, cb: Callback)
    requires c.Valid() && TyperAt(c, ts, message, index, cb) && index <= |message|
    modifies c`isTyping, c`terminal, c`timers, c`effects, c.random
    ensures c.Valid() && !c.isTyping
    ensures c.terminal == old(c.terminal) + message[index..]
    ensures c.timers == ts + CallbackTimers(cb)
    ensures c.random.used == old(c.random.used) + |message| - index
    ensures c.effects == old(c.effects)
  {
    var i := index;
    while i < |message|
      invariant index <= i <= |message|
      invariant c.Valid() && TyperAt(c, ts, message, i, cb)
      invariant c.terminal == old(c.terminal) + message[index..i]
      invariant c.random.used == old(c.random.used) + i - index
      invariant c.effects == old(c.effects)
      decreases |message| - i
    {
      assert c.timers[..|ts|] + c.timers[|ts| + 1..] == ts;
      c.Fire(|c.timers| - 1);
      assert message[index..i + 1] == message[index..i] + [message[i]];
      i := i + 1;
    }
    assert c.timers[..|ts|] + c.timers[|ts| + 1..] == ts;
    c.Fire(|c.timers| - 1);
    assert message[index..i] == message[index..];
  }

  /**
   * `typeTerminalMessage` when nothing is being typed, followed by its own
   * timers: the terminal gains exactly `message`, typing ends, and the
   * callback's timer is scheduled once.
   */
  method TypeWholeMessage(c: DemoController, message: string, cb: Callback)
    requires c.Valid() && !c.isTyping
    modifies c`isTyping, c`terminal, c`timers, c`effects, c.random
    ensures c.Valid() && !c.isTyping
    ensures c.terminal == old(c.terminal) + message
    ensures c.timers == old(c.timers) + CallbackTimers(cb)
    ensures c.random.used == old(c.random.used) + |message|
  {
    ghost var ts := c.timers;
    c.TypeTerminalMessage(message, cb);
    if |message| > 0 {
      assert c.timers[..|ts|] == ts;
      FinishTyping(c, ts, message, 1, cb);
      assert [message[0]] + message[1..] == message;
    }
  }

  /**
   * `typeMultipleMessages` when nothing is being typed, followed by its own
   * timers: the terminal gains every message and a newline, in order.
   */
  method TypeAllMessages(c: DemoController, ms: seq<string>)
    requires c.Valid() && !c.isTyping
    modifies c`isTyping, c`terminal, c`timers, c`effects, c.random
    ensures c.Valid() && !c.isTyping
    ensures c.terminal == old(c.terminal) + Typed(ms)
    ensures c.timers == old(c.timers)
  {
    ghost var ts := c.timers;
    ghost var t0 := c.terminal;
    c.TypeMultipleMessages(ms);
    if |ms| > 0 {
      assert c.timers[..|ts|] == ts;
    } else {
      assert ms[..0] == ms;
    }
    var j := 0;
    while j < |ms|
      invariant 0 <= j <= |ms| && c.Valid()
      invariant j < |ms| ==>
                  TyperAt(c, ts, ms[j] + "\n", 1, NextMessage(ms, j))
                  && c.terminal == t0 + Typed(ms[..j]) + [(ms[j] + "\n")[0]]
      invariant j == |ms| ==> !c.isTyping && c.timers == ts && c.terminal == t0 + Typed(ms)
      decreases |ms| - j
    {
      NextLine(c, ts, t0, ms, j);
      j := j + 1;
    }
  }

  /** One turn of the chain: the rest of line `j` is typed, then its `typeNext` timer starts line `j + 1`. */
  method NextLine(c: DemoController, ghost ts: seq<Timer>, ghost t0: string, ms: seq<string>, j: nat)
    requires c.Valid() && j < |ms| && TyperAt(c, ts, ms[j] + "\n", 1, NextMessage(ms, j))
    requires c.terminal == t0 + Typed(ms[..j]) + [(ms[j] + "\n")[0]]
    modifies c`isTyping, c`terminal, c`timers, c`effects, c.random
    ensures c.Valid()
    ensures j + 1 < |ms| ==>
              TyperAt(c, ts, ms[j + 1] + "\n", 1, NextMessage(ms, j + 1))
              && c.terminal == t0 + Typed(ms[..j + 1]) + [(ms[j + 1] + "\n")[0]]
    ensures j + 1 == |ms| ==> !c.isTyping && c.timers == ts && c.terminal == t0 + Typed(ms)
  {
    var message := ms[j] + "\n";
    FinishTyping(c, ts, message, 1, NextMessage(ms, j));
    LineTyped(t0, ms, j);
    FireNextMessage(c, ts, ms, j + 1);
    if j + 1 == |ms| {
      assert ms[..j + 1] == ms;
    }
  }

  /** The first character of a line followed by its remainder completes the line. */
  lemma LineTyped(t0: string, ms: seq<string>, j: nat)
    requires j < |ms|
    ensures t0 + Typed(ms[..j]) + [(ms[j] + "\n")[0]] + (ms[j] + "\n")[1..] == t0 + Typed(ms[..j + 1])
  {
    var m := ms[j] + "\n";
    var p := t0 + Typed(ms[..j]);
    assert [m[0]] + m[1..] == m;
    TypedStep(ms, j);
    assert p + [m[0]] + m[1..] == p + ([m[0]] + m[1..]);
    assert ms[j] + "\n" == m;
    assert t0 + Typed(ms[..j + 1]) == t0 + (Typed(ms[..j]) + ms[j] + "\n");
  }

  /** The 200 ms `typeNext` timer, the only one after `ts`, fires: the next message starts, if any is left. */
  method FireNextMessage(c: DemoController, ghost ts: seq<Timer>, ms: seq<string>, i: nat)
    requires c.Valid() && !c.isTyping && c.timers == ts + [Timer(200.0, TypeNext(ms, i))]
    modifies c`isTyping, c`terminal, c`timers, c`effects, c.random
    ensures c.Valid() && c.effects == old(c.effects)
    ensures i < |ms| ==> TyperAt(c, ts, ms[i] + "\n", 1, NextMessage(ms, i))
                         && c.terminal == old(c.terminal) + [(ms[i] + "\n")[0]]
    ensures i >= |ms| ==> !c.isTyping && c.timers == ts && c.terminal == old(c.terminal)
  {
    assert c.timers[..|ts|] + c.timers[|ts| + 1..] == ts;
    c.Fire(|c.timers| - 1);
    if i < |ms| {
      assert c.timers[..|ts|] == ts;
    }
  }

  /** Two tagline clicks: the first reveals, the second runs the demo, so the reveal happens once. */
  method TaglineClickTwice(c: DemoController)
    requires !c.isRevealed
    modifies c`isRevealed, c`timers, c`effects
    ensures c.isRevealed
    ensures c.timers == old(c.timers) + RevealTimers(c.entity != null) + [Timer(500.0, DemoIntro)]
    ensures c.effects == old(c.effects) + [FadeTagline] + (if c.entity == null then [NoEntityError] else [])
                         + [ShowcaseOpened]
  {
    c.TaglineClick();
    c.TaglineClick();
  }
}
