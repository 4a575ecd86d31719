/** The boot loader: a tick-driven progress counter 0..100 with a one-shot
    preload at 40, a status label chosen from the progress, a cosmetic glitch
    of the displayed number that is always reverted, and a one-shot
    completion. Each timer firing is a method; each random draw is a
    parameter. */
module HackingLoader {
  import opened Common

  const StatusMessages: seq<string> := [
    "INITIALIZING SYSTEM",
    "LOADING MODULES",
    "COMPILING ASSETS",
    "PRELOADING NEURAL NETWORK",
    "ESTABLISHING CONNECTION",
    "DECRYPTING DATA",
    "VERIFYING IDENTITY",
    "LAUNCHING INTERFACE",
    "ACCESS GRANTED"
  ]

  /** The label shown before the first tick. */
  const InitialLabel: string := "INITIALIZING"
  const PreloadAt: nat := 40
  const Steps: nat := 100

  /** `min(floor(p / 100 * 9), 8)`. */
  function StatusIndex(p: nat): (i: nat)
    ensures i < |StatusMessages|
    ensures p <= Steps ==> i * Steps <= p * |StatusMessages| < (i + 1) * Steps || (p == Steps && i == 8)
  {
    var raw := (p * |StatusMessages|) / Steps;
    if raw < |StatusMessages| - 1 then raw else |StatusMessages| - 1
  }

  /** The label never moves backwards as progress grows. */
  lemma StatusIndexMonotone(p: nat, q: nat)
    requires p <= q
    ensures StatusIndex(p) <= StatusIndex(q)
  {
    assert p * 9 <= q * 9;
    assert (p * 9) / 100 <= (q * 9) / 100;
  }

  function StatusLabel(p: nat): (s: string)
    ensures s in StatusMessages
    ensures p >= Steps ==> s == "ACCESS GRANTED"
    ensures p < 12 ==> s == "INITIALIZING SYSTEM"
  {
    StatusMessages[StatusIndex(p)]
  }

  /** What the overlay counter shows: the number, or a glitch symbol. */
  datatype Shown = Number(n: int) | Symbol(c: char)

  const GlitchChars: seq<char> := ['#', '@', '$', '%', '&', '*', '!', '?']

  /** `glitchNumber`: `glitch` is the draw `Math.random() > 0.85`, `pick` the
      index `Math.floor(Math.random() * 8)`. */
  function GlitchNumber(n: int, glitch: bool, pick: nat): (r: Shown)
    requires pick < |GlitchChars|
    ensures r == Number(n) || (r.Symbol? && r.c in GlitchChars)
    ensures r == Number(n) <==> !glitch
  {
    if glitch then Symbol(GlitchChars[pick]) else Number(n)
  }

  /** The status line after `c` ticks: the initial text before the first tick. */
  function StatusTextAt(c: nat): string {
    if c == 0 then InitialLabel else StatusLabel(c)
  }

  /** The completion timers started when the counter reaches 100. */
  datatype Completion = Counting | HidePending | CompletePending | Done

  class Loader {
    var counter: nat             // the closure's `currentProgress`
    var progress: int            // the displayed `progress` state
    var preloaded: bool
    var preloadCalls: nat        // calls of `preloadNeuralNetwork`
    var statusText: string       // the `glitchText` state
    var intervalActive: bool
    var pendingRestores: nat     // glitch-revert timeouts not yet fired
    var completion: Completion
    var showMatrix: bool
    var completeCalls: nat       // calls of `onComplete`

    ghost predicate Valid()
      reads this
    {
      && counter <= Steps
      && (preloaded <==> counter >= PreloadAt)
      && preloadCalls == (if preloaded then 1 else 0)
      && statusText == StatusTextAt(counter)
      && 0 <= progress <= Steps
      && (progress == counter || (pendingRestores > 0 && progress < Steps))
      && (intervalActive ==> counter < Steps)
      && (completion == Counting <==> counter < Steps)
      && showMatrix == (completion == Counting || completion == HidePending)
      && completeCalls == (if completion == Done then 1 else 0)
    }

    /** Mounting starts the interval. */
    constructor ()
      ensures Valid()
      ensures counter == 0 && progress == 0 && statusText == InitialLabel
      ensures intervalActive && showMatrix && completion == Counting
      ensures preloadCalls == 0 && completeCalls == 0 && pendingRestores == 0
    {
      counter, progress, statusText := 0, 0, InitialLabel;
      preloaded, preloadCalls := false, 0;
      intervalActive, pendingRestores := true, 0;
      completion, showMatrix, completeCalls := Counting, true, 0;
    }

    /** One firing of the interval. `glitch` is `Some(Math.floor(Math.random() * 100))`
        when the draw `Math.random() > 0.9` succeeds, and `None` otherwise. */
    method Tick(glitch: Option<nat>)
      requires Valid() && intervalActive
      requires glitch.Some? ==> glitch.value < 100
      modifies this
      ensures Valid()
      ensures counter == old(counter) + 1
      ensures preloadCalls == old(preloadCalls) + (if counter == PreloadAt then 1 else 0)
      ensures progress == (if glitch.Some? then glitch.value else counter)
      ensures pendingRestores == old(pendingRestores) + (if glitch.Some? then 1 else 0)
      ensures statusText == StatusLabel(counter)
      ensures intervalActive <==> counter < Steps
      ensures completion == (if counter == Steps then HidePending else Counting)
      ensures showMatrix && completeCalls == 0
    {
      counter := counter + 1;
      if counter >= PreloadAt && !preloaded {
        preloaded := true;
        preloadCalls := preloadCalls + 1;
      }
      match glitch {
        case Some(r) =>
          progress := r;
          pendingRestores := pendingRestores + 1;
        case None =>
          progress := counter;
      }
      statusText := StatusLabel(counter);
      if counter >= Steps {
        intervalActive := false;
        completion := HidePending;
      }
    }

    /** A glitch's 50 ms timeout: shows the then-current counter again. */
    method RestoreGlitch()
      requires Valid() && pendingRestores > 0
      modifies this`progress, this`pendingRestores
      ensures Valid()
      ensures progress == counter && pendingRestores == old(pendingRestores) - 1
    {
      progress := counter;
      pendingRestores := pendingRestores - 1;
    }

    /** The first 500 ms timeout after completion: hides the overlay and
        schedules `onComplete`. */
    method HideOverlay()
      requires Valid() && completion == HidePending
      modifies this`showMatrix, this`completion
      ensures Valid()
      ensures !showMatrix && completion == CompletePending && completeCalls == 0
    {
      showMatrix := false;
      completion := CompletePending;
    }

    /** The second 500 ms timeout: calls `onComplete`, once. */
    method FireComplete()
      requires Valid() && completion == CompletePending
      modifies this`completion, this`completeCalls
      ensures Valid()
      ensures completion == Done && completeCalls == 1 && counter == Steps
    {
      completion := Done;
      completeCalls := completeCalls + 1;
    }

    /** The effect cleanup: clears the interval (pending timeouts still fire). */
    method Unmount()
      requires Valid()
      modifies this`intervalActive
      ensures Valid() && !intervalActive
    {
      intervalActive := false;
    }
  }

  /** A full run, for any glitch draws: after 100 ticks and the two completion
      timeouts, `preloadNeuralNetwork` and `onComplete` have each run once. */
  method Run(glitches: seq<Option<nat>>) returns (l: Loader)
    requires |glitches| == Steps
    requires forall t :: 0 <= t < |glitches| && glitches[t].Some? ==> glitches[t].value < 100
    ensures fresh(l) && l.Valid()
    ensures l.counter == Steps && l.statusText == "ACCESS GRANTED"
    ensures l.preloadCalls == 1 && l.completeCalls == 1 && !l.showMatrix && !l.intervalActive
  {
    l := new Loader();
    while l.intervalActive
      invariant l.Valid()
      invariant l.completion == Counting || (l.completion == HidePending && !l.intervalActive)
      invariant l.intervalActive <==> l.counter < Steps
      invariant l.completeCalls == 0
      decreases Steps - l.counter
    {
      l.Tick(glitches[l.counter]);
    }
    l.HideOverlay();
    l.FireComplete();
  }
}
