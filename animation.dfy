/** The two animation hooks (`useChatAnimation`, `useTypingAnimation`). Each timer or
    interval callback is an explicit step; a step happens only while its timer is
    pending. Each tick of the typewriter is taken as one atomic "append the next
    character, then advance the counter". */
module Animation {

  // ---------------------------------------------------------------------------
  // Entry animation (`useChatAnimation`)
  // ---------------------------------------------------------------------------

  datatype AnimationState = Initial | Animating | Complete

  /** Position of a state along initial, animating, complete. */
  function Rank(s: AnimationState): nat {
    match s
    case Initial => 0
    case Animating => 1
    case Complete => 2
  }

  predicate IsAnimating(s: AnimationState) { s == Animating }
  predicate IsComplete(s: AnimationState) { s == Complete }

  /** The CSS classes for each state. */
  function AnimationClass(s: AnimationState): (c: string)
    ensures c == "opacity-0 translate-y-4" <==> s == Initial
    ensures c == "opacity-100 translate-y-0 transition-all duration-300 ease-out" <==> s == Animating
    ensures c == "opacity-100 translate-y-0" <==> s == Complete
  {
    match s
    case Initial => "opacity-0 translate-y-4"
    case Animating => "opacity-100 translate-y-0 transition-all duration-300 ease-out"
    case Complete => "opacity-100 translate-y-0"
  }

  /** The two flags the hook returns are never both raised, and each is raised in
      exactly one state. */
  lemma FlagsExclusive(s: AnimationState)
    ensures !(IsAnimating(s) && IsComplete(s))
    ensures IsAnimating(s) <==> Rank(s) == 1
    ensures IsComplete(s) <==> Rank(s) == 2
  {
  }

  class ChatAnimation {
    var state: AnimationState
    /** The `delay` timer of the current effect run has not fired yet. */
    var delayPending: bool
    /** Number of 300 ms completion timers not fired yet. The cleanup that would clear
        one is returned from a timer callback, where nothing ever calls it, so they are
        never cleared. */
    var completionsPending: nat

    /** The hook as one effect run leaves it: pending steps line up with the state, and
        the state can only move forward from here. */
    ghost predicate OneRun()
      reads this
    {
      (state == Initial && delayPending && completionsPending == 0) ||
      (state == Animating && !delayPending && completionsPending == 1) ||
      (state == Complete && !delayPending && completionsPending == 0)
    }

    /** Mount: the state starts at initial and the effect schedules the delay timer. */
    constructor ()
      ensures state == Initial && delayPending && completionsPending == 0
      ensures OneRun()
    {
      state, delayPending, completionsPending := Initial, true, 0;
    }

    /** The effect re-runs because `delay` changed: its cleanup clears the pending
        delay timer and a new one is scheduled; the state is not reset. */
    method Restart()
      modifies this
      ensures state == old(state) && delayPending && completionsPending == old(completionsPending)
    {
      delayPending := true;
    }

    /** The delay timer fires: the state becomes animating and a completion timer is
        scheduled. */
    method DelayElapsed()
      requires delayPending
      modifies this
      ensures state == Animating && !delayPending && completionsPending == old(completionsPending) + 1
      ensures old(OneRun()) ==> OneRun() && Rank(state) == Rank(old(state)) + 1
    {
      state := Animating;
      delayPending := false;
      completionsPending := completionsPending + 1;
    }

    /** A completion timer fires: the state becomes complete. */
    method CompletionElapsed()
      requires completionsPending > 0
      modifies this
      ensures state == Complete && delayPending == old(delayPending)
      ensures completionsPending == old(completionsPending) - 1
      ensures old(OneRun()) ==> OneRun() && Rank(state) == Rank(old(state)) + 1
    {
      state := Complete;
      completionsPending := completionsPending - 1;
    }
  }

  /** Within one effect run the state only moves forward, one stage per timer, and
      ends complete with nothing pending. */
  method OneRunGoesForward() returns (trace: seq<AnimationState>)
    ensures trace == [Initial, Animating, Complete]
  {
    var a := new ChatAnimation();
    trace := [a.state];
    a.DelayElapsed();
    trace := trace + [a.state];
    a.CompletionElapsed();
    trace := trace + [a.state];
    assert !a.delayPending && a.completionsPending == 0;
  }

  /** A change of `delay` after completion makes the state go back to animating: the
      new delay timer sets it without looking at the current state. */
  method RestartAfterComplete() returns (trace: seq<AnimationState>)
    ensures trace == [Initial, Animating, Complete, Animating, Complete]
  {
    var a := new ChatAnimation();
    trace := [a.state];
    a.DelayElapsed();
    trace := trace + [a.state];
    a.CompletionElapsed();
    trace := trace + [a.state];
    a.Restart();
    a.DelayElapsed();
    trace := trace + [a.state];
    a.CompletionElapsed();
    trace := trace + [a.state];
  }

  // ---------------------------------------------------------------------------
  // Typewriter (`useTypingAnimation`)
  // ---------------------------------------------------------------------------

  class TypingAnimation {
    /** The text being revealed. */
    var text: string
    /** The counter `i` the interval callback closes over. */
    var i: nat
    var displayedText: string
    var isComplete: bool
    /** The interval has not been cleared. */
    var running: bool

    /** The typewriter's invariant: what is shown is the first `i` characters, and
        completion means the interval is gone and the whole text is shown. */
    ghost predicate Valid()
      reads this
    {
      i <= |text| && displayedText == text[..i] && (isComplete <==> !running)
      && (isComplete ==> i == |text|)
    }

    /** The effect runs for `text`: the display is cleared, completion is lowered and
        a fresh interval starts counting from 0. */
    constructor (text: string)
      ensures this.text == text && i == 0 && displayedText == "" && !isComplete && running
      ensures Valid()
    {
      this.text := text;
      i, displayedText, isComplete, running := 0, "", false, true;
    }

    /** One interval tick: the next character is revealed, or, once all are shown,
        the interval is cleared and completion is raised. */
    method Tick()
      requires Valid() && running
      modifies this
      ensures Valid() && text == old(text)
      ensures old(i) < |text| ==> i == old(i) + 1 && displayedText == old(displayedText) + [text[old(i)]] && running
      ensures old(i) == |text| ==> i == old(i) && displayedText == text && isComplete
    {
      if i < |text| {
        displayedText := displayedText + [text[i]];
        i := i + 1;
        assert displayedText == text[..i];
      } else {
        running := false;
        isComplete := true;
      }
    }
  }

  /** Runs the interval to completion: it takes exactly one tick per character plus
      the final tick that clears it, the display grows one character at a time through
      every prefix, and it ends complete showing the whole text. */
  method Typewrite(text: string) returns (ticks: nat, shown: seq<string>)
    ensures ticks == |text| + 1
    ensures |shown| == ticks && shown[ticks - 1] == text
    ensures forall k :: 0 <= k < |shown| ==> shown[k] == text[..if k < |text| then k + 1 else |text|]
  {
    var t := new TypingAnimation(text);
    ticks, shown := 0, [];
    while t.running
      invariant t.Valid() && t.text == text
      invariant t.running ==> ticks == t.i
      invariant !t.running ==> ticks == |text| + 1
      invariant |shown| == ticks
      invariant forall k :: 0 <= k < |shown| ==> shown[k] == text[..if k < |text| then k + 1 else |text|]
      decreases |text| - t.i, t.running
    {
      t.Tick();
      ticks := ticks + 1;
      shown := shown + [t.displayedText];
    }
  }
}
