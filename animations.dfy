/**
 * The page's animation guards. `AnimationController` animates each observed
 * element once, de-duplicates scroll updates with its `ticking` flag and
 * clears its state on `destroy`. `Typewriter` and `Glitch` hold the closure
 * state of `typewriterEffect` and `glitch`; each timer or interval callback
 * is an explicit `Tick`.
 */
module Animations {
  import opened Random

  /** An element's `textContent`. */
  class TextElement {
    var text: string

    constructor (text: string)
      ensures this.text == text
    {
      this.text := text;
    }
  }

  /**
   * What `animateElement` needs of an element: its identity, its `data-animate`
   * value, whether its markup already has the `stagger-animation` class, and
   * its number of children.
   */
  datatype Element = Element(id: nat, animate: string, stagger: bool, children: nat)

  /** ASCII whitespace as the DOM defines it: tab, line feed, form feed, carriage return and space. */
  predicate IsAsciiWhitespace(c: char) {
    c == '\t' || c == '\n' || c as int == 0x0C || c == '\r' || c == ' '
  }

  /** A token `DOMTokenList.add` accepts: non-empty, without ASCII whitespace. Any other token makes it throw before it adds anything. */
  predicate ValidToken(t: string) {
    |t| > 0 && forall i :: 0 <= i < |t| ==> !IsAsciiWhitespace(t[i])
  }

  /** After `classList.add('animate', type)` the element has `stagger-animation` when its markup had it or the type is that class. */
  predicate Staggers(el: Element) {
    el.stagger || el.animate == "stagger-animation"
  }

  /** One `IntersectionObserverEntry`. */
  datatype Entry = Entry(target: Element, isIntersecting: bool, intersectionRatio: real)

  /** The page changes the controller makes. */
  datatype AnimationEffect =
    | AddAnimate(id: nat, animationType: string)   // classList.add('animate', type)
    | StaggerChildren(id: nat, count: nat)         // `animateStaggerChildren`
    | Parallax                                     // one `updateAnimations` frame

  /** The observer callback animates an entry's target when it is well inside the viewport. */
  predicate Qualifies(e: Entry) {
    e.isIntersecting && e.intersectionRatio > 0.25
  }

  /** The page changes of animating `el` for the first time, its type being a valid token. */
  function FirstAnimation(el: Element): (fx: seq<AnimationEffect>)
    ensures |fx| >= 1 && fx[0] == AddAnimate(el.id, el.animate)
    ensures |fx| == 2 <==> Staggers(el)
    ensures Staggers(el) ==> fx[1] == StaggerChildren(el.id, el.children)
  {
    [AddAnimate(el.id, el.animate)] + (if Staggers(el) then [StaggerChildren(el.id, el.children)] else [])
  }

  /** The callback's `animateElement` call on this entry throws: it qualifies, its target is new, and its type is not a valid token. */
  predicate Throws(e: Entry, animated: set<nat>) {
    Qualifies(e) && e.target.id !in animated && !ValidToken(e.target.animate)
  }

  /** The targets of the qualifying entries. */
  function Qualifying(entries: seq<Entry>): set<nat> {
    if entries == [] then {}
    else
      var last := entries[|entries| - 1];
      Qualifying(entries[..|entries| - 1]) + (if Qualifies(last) then {last.target.id} else {})
  }

  /** An element is in the qualifying set exactly when some qualifying entry targets it. */
  lemma {:induction false} QualifyingMembers(entries: seq<Entry>, id: nat)
    ensures id in Qualifying(entries)
            <==> exists i :: 0 <= i < |entries| && Qualifies(entries[i]) && entries[i].target.id == id
  {
    if entries != [] {
      var before := entries[..|entries| - 1];
      QualifyingMembers(before, id);
      if id in Qualifying(before) {
        var i :| 0 <= i < |before| && Qualifies(before[i]) && before[i].target.id == id;
        assert entries[i] == before[i];
      }
      if exists i :: 0 <= i < |entries| && Qualifies(entries[i]) && entries[i].target.id == id {
        var i :| 0 <= i < |entries| && Qualifies(entries[i]) && entries[i].target.id == id;
        if i < |before| {
          assert before[i] == entries[i];
        }
      }
    }
  }

  /** The page changes of one observer callback, given the elements animated before it. */
  function EntryEffects(entries: seq<Entry>, seen: set<nat>): seq<AnimationEffect> {
    if entries == [] then []
    else
      var last := entries[|entries| - 1];
      var before := entries[..|entries| - 1];
      EntryEffects(before, seen)
      + (if Qualifies(last) && last.target.id !in seen + Qualifying(before) then FirstAnimation(last.target) else [])
  }

  /** Entry `i` throws, given what the entries before it animated. */
  predicate ThrowsAt(entries: seq<Entry>, i: nat, seen: set<nat>)
    requires i < |entries|
  {
    Throws(entries[i], seen + Qualifying(entries[..i]))
  }

  /** Whether an entry throws depends only on the entries up to it. */
  lemma ThrowsAtPrefix(entries: seq<Entry>, j: nat, i: nat, seen: set<nat>)
    requires i < j <= |entries|
    ensures ThrowsAt(entries[..j], i, seen) == ThrowsAt(entries, i, seen)
  {
    assert entries[..j][..i] == entries[..i];
  }

  /**
   * How many entries the callback's `forEach` gets through: up to the first
   * entry whose `animateElement` call throws, or all of them.
   */
  function Completed(entries: seq<Entry>, seen: set<nat>): (c: nat)
    ensures c <= |entries|
  {
    if entries == [] then 0
    else
      var c := Completed(entries[..|entries| - 1], seen);
      if c < |entries| - 1 || ThrowsAt(entries, |entries| - 1, seen) then c else |entries|
  }

  /** `Completed` stops exactly at the first entry that throws. */
  lemma {:induction false} CompletedFirstThrow(entries: seq<Entry>, seen: set<nat>)
    ensures var c := Completed(entries, seen);
            (c < |entries| ==> ThrowsAt(entries, c, seen)) && forall i :: 0 <= i < c ==> !ThrowsAt(entries, i, seen)
  {
    if entries != [] {
      var before := entries[..|entries| - 1];
      CompletedFirstThrow(before, seen);
      forall i | 0 <= i < |before|
        ensures ThrowsAt(before, i, seen) == ThrowsAt(entries, i, seen)
      {
        ThrowsAtPrefix(entries, |before|, i, seen);
      }
    }
  }

  /** Once the callback has stopped, the entries after the stop change nothing. */
  lemma {:induction false} CompletedStops(entries: seq<Entry>, j: nat, seen: set<nat>)
    requires j <= |entries| && Completed(entries[..j], seen) < j
    ensures Completed(entries, seen) == Completed(entries[..j], seen)
    decreases |entries|
  {
    if j == |entries| {
      assert entries[..j] == entries;
    } else {
      var before := entries[..|entries| - 1];
      assert before[..j] == entries[..j];
      CompletedStops(before, j, seen);
    }
  }

  /** The entry at the stop throws; the callback ends there, whatever follows it. */
  lemma ThrowStops(entries: seq<Entry>, i: nat, seen: set<nat>)
    requires i < |entries| && Completed(entries[..i], seen) == i && ThrowsAt(entries, i, seen)
    ensures Completed(entries, seen) == i
  {
    EntryStep(entries, i, seen);
    CompletedStops(entries, i + 1, seen);
  }

  /** With every type a valid token nothing throws, and the callback visits every entry. */
  lemma {:induction false} CompletedAllValid(entries: seq<Entry>, seen: set<nat>)
    requires forall i :: 0 <= i < |entries| ==> ValidToken(entries[i].target.animate)
    ensures Completed(entries, seen) == |entries|
  {
    if entries != [] {
      var before := entries[..|entries| - 1];
      assert forall i :: 0 <= i < |before| ==> before[i] == entries[i];
      CompletedAllValid(before, seen);
    }
  }

  /**
   * Elements already animated give no page changes and never throw: a callback
   * repeated with the same entries visits them all and changes nothing.
   */
  lemma {:induction false} EntryEffectsSeen(entries: seq<Entry>, seen: set<nat>)
    requires Qualifying(entries) <= seen
    ensures EntryEffects(entries, seen) == []
    ensures Completed(entries, seen) == |entries|
  {
    if entries != [] {
      var before := entries[..|entries| - 1];
      assert Qualifying(before) <= Qualifying(entries);
      EntryEffectsSeen(before, seen);
    }
  }

  /** An element is newly animated by the callback exactly when an entry before the stop qualifies and targets it. */
  lemma CallbackMembers(entries: seq<Entry>, seen: set<nat>, id: nat)
    ensures var c := Completed(entries, seen);
            id in Qualifying(entries[..c])
            <==> exists i :: 0 <= i < c && Qualifies(entries[i]) && entries[i].target.id == id
  {
    var c := Completed(entries, seen);
    QualifyingMembers(entries[..c], id);
    assert forall i :: 0 <= i < c ==> entries[..c][i] == entries[i];
  }

  /**
   * One more entry: its target joins the qualifying set, its first animation,
   * if any, is appended, and the callback gets past it unless it was already
   * stopped or this entry throws.
   */
  lemma EntryStep(entries: seq<Entry>, i: nat, seen: set<nat>)
    requires i < |entries|
    ensures Completed(entries[..i + 1], seen)
            == if Completed(entries[..i], seen) < i || ThrowsAt(entries, i, seen)
               then Completed(entries[..i], seen) else i + 1
    ensures Qualifying(entries[..i + 1])
            == Qualifying(entries[..i]) + (if Qualifies(entries[i]) then {entries[i].target.id} else {})
    ensures EntryEffects(entries[..i + 1], seen)
            == EntryEffects(entries[..i], seen)
               + (if Qualifies(entries[i]) && entries[i].target.id !in seen + Qualifying(entries[..i])
                  then FirstAnimation(entries[i].target) else [])
  {
    assert entries[..i + 1][..i] == entries[..i];
    ThrowsAtPrefix(entries, i + 1, i, seen);
  }

  class AnimationController {
    /** The observers by name, each with the elements it observes. */
    var observers: map<string, set<nat>>
    var animatedElements: set<nat>
    /** The observers `destroy` disconnected. */
    var disconnected: set<string>
    /** The `ticking` flag of `setupScrollAnimations`. */
    var ticking: bool
    /** Requested `updateAnimations` frames that have not run yet. */
    var pendingFrames: nat
    var effects: seq<AnimationEffect>

    /** At most one scroll update is pending, exactly while `ticking`. */
    ghost predicate Valid()
      reads this
    {
      pendingFrames <= 1 && (ticking <==> pendingFrames == 1)
    }

    /** `new AnimationController()`: the `main` observer watches the `[data-animate]` elements. */
    constructor (dataAnimate: set<nat>)
      ensures Valid() && observers == map["main" := dataAnimate]
      ensures animatedElements == {} && disconnected == {} && !ticking && pendingFrames == 0 && effects == []
    {
      observers := map["main" := dataAnimate];
      animatedElements := {};
      disconnected := {};
      ticking := false;
      pendingFrames := 0;
      effects := [];
    }

    /**
     * `animateElement`: the first time only, the classes are added, the element
     * is remembered, and its children are staggered when it then has
     * `stagger-animation`. A type that is not a valid token makes
     * `classList.add` throw (`ok` is false) before anything changes.
     */
    method AnimateElement(el: Element) returns (ok: bool)
      modifies this`animatedElements, this`effects
      ensures ok <==> old(el.id in animatedElements) || ValidToken(el.animate)
      ensures ok ==> el.id in animatedElements
      ensures old(el.id in animatedElements) || !ValidToken(el.animate) ==>
                animatedElements == old(animatedElements) && effects == old(effects)
      ensures old(el.id !in animatedElements) && ValidToken(el.animate) ==>
                animatedElements == old(animatedElements) + {el.id}
                && effects == old(effects) + FirstAnimation(el)
    {
      if el.id in animatedElements {
        return true;
      }
      if !ValidToken(el.animate) {
        return false;
      }
      effects := effects + [AddAnimate(el.id, el.animate)];
      animatedElements := animatedElements + {el.id};
      if Staggers(el) {
        effects := effects + [StaggerChildren(el.id, el.children)];
      }
      ok := true;
    }

    /**
     * The observer callback: the qualifying entries' targets are animated in
     * order until one throws; the error ends the `forEach` and leaves the
     * callback (`ok` is false).
     */
    method Intersect(entries: seq<Entry>) returns (ok: bool)
      modifies this`animatedElements, this`effects
      ensures var c := Completed(entries, old(animatedElements));
              (ok <==> c == |entries|)
              && animatedElements == old(animatedElements) + Qualifying(entries[..c])
              && effects == old(effects) + EntryEffects(entries[..c], old(animatedElements))
    {
      var i := 0;
      while i < |entries|
        invariant i <= |entries| && Completed(entries[..i], old(animatedElements)) == i
        invariant animatedElements == old(animatedElements) + Qualifying(entries[..i])
        invariant effects == old(effects) + EntryEffects(entries[..i], old(animatedElements))
      {
        var done := Visit(entries, i, old(animatedElements), old(effects));
        if !done {
          return false;
        }
        i := i + 1;
      }
      assert entries[..|entries|] == entries;
      return true;
    }

    /** One turn of the `forEach`: entry `i` is animated when it qualifies, unless that throws. */
    method Visit(entries: seq<Entry>, i: nat, ghost seen: set<nat>, ghost fx: seq<AnimationEffect>) returns (done: bool)
      requires i < |entries| && Completed(entries[..i], seen) == i
      requires animatedElements == seen + Qualifying(entries[..i])
      requires effects == fx + EntryEffects(entries[..i], seen)
      modifies this`animatedElements, this`effects
      ensures done ==> Completed(entries[..i + 1], seen) == i + 1
                       && animatedElements == seen + Qualifying(entries[..i + 1])
                       && effects == fx + EntryEffects(entries[..i + 1], seen)
      ensures !done ==> Completed(entries, seen) == i
                        && animatedElements == old(animatedElements) && effects == old(effects)
    {
      EntryStep(entries, i, seen);
      done := true;
      if Qualifies(entries[i]) {
        done := AnimateElement(entries[i].target);
        if !done {
          ThrowStops(entries, i, seen);
        }
      }
    }

    /** The `scroll` listener: a frame is requested only when none is pending. */
    method Scroll()
      requires Valid()
      modifies this`ticking, this`pendingFrames
      ensures Valid() && ticking && pendingFrames == 1
      ensures old(ticking) ==> pendingFrames == old(pendingFrames)
    {
      if !ticking {
        pendingFrames := pendingFrames + 1;
        ticking := true;
      }
    }

    /** The requested `updateAnimations` frame: the parallax update, and `ticking` is reset. */
    method UpdateAnimations()
      requires Valid() && pendingFrames > 0
      modifies this`ticking, this`pendingFrames, this`effects
      ensures Valid() && !ticking && pendingFrames == 0
      ensures effects == old(effects) + [Parallax]
    {
      pendingFrames := pendingFrames - 1;
      effects := effects + [Parallax];
      ticking := false;
    }

    /** `destroy`: every observer is disconnected, then both collections are emptied. */
    method Destroy()
      modifies this`observers, this`animatedElements, this`disconnected
      ensures observers == map[] && animatedElements == {}
      ensures disconnected == old(disconnected) + old(observers).Keys
    {
      disconnected := disconnected + observers.Keys;
      observers := map[];
      animatedElements := {};
    }
  }

  /** Any number of scroll events before the frame runs request one update. */
  method ScrollBurst(a: AnimationController, n: nat)
    requires a.Valid() && !a.ticking
    modifies a`ticking, a`pendingFrames, a`effects
    ensures a.Valid() && !a.ticking && a.pendingFrames == 0
    ensures a.effects == old(a.effects) + (if n > 0 then [Parallax] else [])
  {
    for i := 0 to n
      invariant a.Valid() && a.effects == old(a.effects)
      invariant a.pendingFrames == (if i > 0 then 1 else 0)
    {
      a.Scroll();
    }
    if n > 0 {
      a.UpdateAnimations();
    }
  }

  // ---------------------------------------------------------------------
  // typewriterEffect
  // ---------------------------------------------------------------------

  /** The closure of one `typewriterEffect(element, text, speed)` call. */
  class Typewriter {
    const element: TextElement
    const text: string
    const speed: real
    var index: nat
    /** A `type` timer is scheduled. */
    var pending: bool

    /** The index stays within the text, and a timer is pending while characters remain. */
    ghost predicate Scheduled()
      reads this
    {
      index <= |text| && (index < |text| ==> pending)
    }

    /** Scheduled, and the element shows exactly the typed prefix. */
    ghost predicate Valid()
      reads this, element
    {
      Scheduled() && element.text == text[..index]
    }

    /** The call: the element is cleared, then the first `type` step runs at once. */
    constructor (element: TextElement, text: string, speed: real)
      modifies element
      ensures Valid() && this.element == element && this.text == text && this.speed == speed
      ensures index == (if |text| > 0 then 1 else 0) && pending == (|text| > 0)
    {
      this.element := element;
      this.text := text;
      this.speed := speed;
      index := 0;
      pending := false;
      new;
      element.text := "";
      TypeStep();
    }

    /**
     * The `type` closure: the next character is appended to whatever the element
     * holds and another timer is set, or nothing happens past the end. When the
     * element held the typed prefix, it holds the longer prefix afterwards.
     */
    method TypeStep()
      requires index <= |text|
      modifies this`index, this`pending, element
      ensures Scheduled()
      ensures old(element.text) == text[..old(index)] ==> Valid()
      ensures old(index) < |text| ==>
                index == old(index) + 1 && pending && element.text == old(element.text) + [text[old(index)]]
      ensures old(index) == |text| ==> index == old(index) && !pending && element.text == old(element.text)
    {
      if index < |text| {
        element.text := element.text + [text[index]];
        index := index + 1;
        pending := true;
        assert text[..index] == text[..index - 1] + [text[index - 1]];
      } else {
        pending := false;
      }
    }

    /** The pending timer fires. */
    method Tick()
      requires Scheduled() && pending
      modifies this`index, this`pending, element
      ensures Scheduled()
      ensures old(element.text) == text[..old(index)] ==> Valid()
      ensures old(index) < |text| ==>
                index == old(index) + 1 && pending && element.text == old(element.text) + [text[old(index)]]
      ensures old(index) == |text| ==> index == old(index) && !pending && element.text == old(element.text)
    {
      TypeStep();
    }
  }

  /** Running a typewriter's timers until none is pending leaves exactly `text` in the element. */
  method TypeOut(w: Typewriter)
    requires w.Valid()
    modifies w`index, w`pending, w.element
    ensures w.Valid() && !w.pending && w.element.text == w.text
  {
    while w.pending
      invariant w.Valid()
      decreases |w.text| - w.index, w.pending
    {
      w.Tick();
    }
    assert w.text[..|w.text|] == w.text;
  }

  // ---------------------------------------------------------------------
  // glitch
  // ---------------------------------------------------------------------

  const GlitchChars: string := "!@#$%^&*()_+-=[]{}|;:,.<>?/~`"
  const MaxIterations: nat := 10

  /** `Math.floor(r * glitchChars.length)`: an index into the glitch characters. */
  function GlitchIndex(r: Draw): (i: nat)
    ensures i < |GlitchChars|
  {
    assert |GlitchChars| == 29;
    (r * 29.0).Floor
  }

  /**
   * One interval tick's text: for each character, a draw above 0.7 replaces
   * it by the glitch character a second draw picks.
   */
  function Scrambled(orig: string, draw: nat -> Draw, k: nat): (r: Drawn<string>)
    ensures |r.value| == |orig|
    ensures forall i :: 0 <= i < |orig| ==> r.value[i] == orig[i] || r.value[i] in GlitchChars
    ensures k + |orig| <= r.next <= k + 2 * |orig|
    decreases |orig|, k
  {
    if orig == [] then Drawn([], k)
    else if draw(k) > 0.7 then
      var rest := Scrambled(orig[1..], draw, k + 2);
      Drawn([GlitchChars[GlitchIndex(draw(k + 1))]] + rest.value, rest.next)
    else
      var rest := Scrambled(orig[1..], draw, k + 1);
      Drawn([orig[0]] + rest.value, rest.next)
  }

  /** One character of the tick's `map`. */
  method ScrambleChar(orig: string, i: nat, random: Source) returns (c: char)
    requires i < |orig|
    modifies random
    ensures var s := Scrambled(orig[i..], random.draw, old(random.used));
            s.value == [c] + Scrambled(orig[i + 1..], random.draw, random.used).value
            && s.next == Scrambled(orig[i + 1..], random.draw, random.used).next
  {
    assert orig[i..][1..] == orig[i + 1..];
    var d := random.Next();
    if d > 0.7 {
      var e := random.Next();
      c := GlitchChars[GlitchIndex(e)];
    } else {
      c := orig[i];
    }
  }

  /** The `split('').map(...).join('')` of one tick. */
  method ScrambleText(orig: string, random: Source) returns (out: string)
    modifies random
    ensures out == Scrambled(orig, random.draw, old(random.used)).value
    ensures random.used == Scrambled(orig, random.draw, old(random.used)).next
  {
    ghost var target := Scrambled(orig, random.draw, random.used);
    assert orig[0..] == orig;
    out := [];
    for i := 0 to |orig|
      invariant target.value == out + Scrambled(orig[i..], random.draw, random.used).value
      invariant target.next == Scrambled(orig[i..], random.draw, random.used).next
    {
      var c := ScrambleChar(orig, i, random);
      assert out + ([c] + Scrambled(orig[i + 1..], random.draw, random.used).value)
             == (out + [c]) + Scrambled(orig[i + 1..], random.draw, random.used).value;
      out := out + [c];
    }
    assert orig[|orig|..] == [];
  }

  /** The closure of one `glitch(element, duration)` call. */
  class Glitch {
    const element: TextElement
    const random: Source
    const originalText: string
    var iterations: nat
    /** The interval is set. */
    var running: bool

    ghost predicate Valid()
      reads this
    {
      iterations <= MaxIterations && (running <==> iterations < MaxIterations)
    }

    /** The call: the text at this moment is the one restored at the end. */
    constructor (element: TextElement, random: Source)
      ensures Valid() && this.element == element && this.random == random
      ensures originalText == element.text && iterations == 0 && running
    {
      this.element := element;
      this.random := random;
      originalText := element.text;
      iterations := 0;
      running := true;
    }

    /** One interval callback: a scrambled text, or after the tenth the original text and the interval cleared. */
    method Tick()
      requires Valid() && running
      modifies this`iterations, this`running, element, random
      ensures Valid() && iterations == old(iterations) + 1
      ensures random.used == Scrambled(originalText, random.draw, old(random.used)).next
      ensures iterations < MaxIterations ==>
                running && element.text == Scrambled(originalText, random.draw, old(random.used)).value
      ensures iterations == MaxIterations ==> !running && element.text == originalText
    {
      var orig := originalText;
      var out := ScrambleText(orig, random);
      element.text := out;
      iterations := iterations + 1;
      if iterations >= MaxIterations {
        running := false;
        element.text := orig;
      }
    }
  }

  /** Running a glitch's interval to the end restores the original text exactly. */
  method GlitchOut(g: Glitch)
    requires g.Valid()
    modifies g`iterations, g`running, g.element, g.random
    ensures g.Valid() && !g.running && g.iterations == MaxIterations
    ensures !old(g.running) ==> g.element.text == old(g.element.text)
    ensures old(g.running) ==> g.element.text == g.originalText
  {
    if !g.running {
      return;
    }
    while g.running
      invariant g.Valid()
      invariant !g.running ==> g.element.text == g.originalText
      decreases MaxIterations - g.iterations
    {
      g.Tick();
    }
  }
}
