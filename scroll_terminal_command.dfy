/**
 * `ScrollTerminalCommand`: the same typing effect as `TerminalCommand`,
 * without sounds, gated by a latch that the intersection observer sets the
 * first time the element is in view.
 *
 * `elapsed` counts milliseconds from the moment the latch is set and the
 * typing effect runs.
 */
module ScrollTerminalCommand {
  import opened TypingEffect

  const DefaultTypingSpeed: nat := 55
  const DefaultResultDelay: nat := 300
  const DefaultPrompt: string := "~"
  /** Observer threshold, in percent of the element. */
  const DefaultThresholdPercent: nat := 35

  class ScrollTerminalCommand {
    const command: string
    const typingSpeed: nat
    const resultDelay: nat
    const prompt: string
    const thresholdPercent: nat

    var hasTriggered: bool
    var i: nat
    var displayedCommand: string
    var isTypingComplete: bool
    var showResult: bool
    var intervalActive: bool
    var revealPending: bool
    var mounted: bool
    var elapsed: nat
    /** Every value `displayedCommand` has been set to, in order. */
    ghost var shown: seq<string>
    /** The `isIntersecting` flag of the first entry of each observer
        callback so far; the callback destructures `([entry])` and ignores
        any later entry of the same batch. */
    ghost var entries: seq<bool>

    ghost predicate Valid()
      reads this
    {
      (hasTriggered <==> true in entries)
      && i <= |command|
      && displayedCommand == command[..i]
      && shown == Frames(command, i)
      && (isTypingComplete ==> i == |command|)
      && (intervalActive <==> mounted && hasTriggered && !isTypingComplete)
      && (!hasTriggered ==> i == 0 && !isTypingComplete && elapsed == 0)
      && (!isTypingComplete ==> !revealPending && !showResult && elapsed == i * typingSpeed)
      && (isTypingComplete ==> revealPending != showResult)
      && (revealPending ==> elapsed == CompletionTick(command) * typingSpeed)
      && (showResult ==> elapsed == RevealTime(command, typingSpeed, resultDelay))
    }

    /** Mounting: nothing typed, no timer, waiting for the element to be in view. */
    constructor (command: string, typingSpeed: nat, resultDelay: nat, prompt: string, thresholdPercent: nat)
      ensures Valid() && Waiting()
      ensures this.command == command && this.typingSpeed == typingSpeed
      ensures this.resultDelay == resultDelay && this.prompt == prompt
      ensures this.thresholdPercent == thresholdPercent
    {
      this.command := command;
      this.typingSpeed := typingSpeed;
      this.resultDelay := resultDelay;
      this.prompt := prompt;
      this.thresholdPercent := thresholdPercent;
      hasTriggered := false;
      i := 0;
      displayedCommand := "";
      isTypingComplete := false;
      showResult := false;
      intervalActive := false;
      revealPending := false;
      mounted := true;
      elapsed := 0;
      shown := [];
      entries := [];
    }

    /** Mounting with every optional prop left out. */
    constructor WithDefaults(command: string)
      ensures Valid() && Waiting()
      ensures this.command == command && typingSpeed == DefaultTypingSpeed
      ensures resultDelay == DefaultResultDelay && prompt == DefaultPrompt
      ensures thresholdPercent == DefaultThresholdPercent
    {
      this.command := command;
      typingSpeed := DefaultTypingSpeed;
      resultDelay := DefaultResultDelay;
      prompt := DefaultPrompt;
      thresholdPercent := DefaultThresholdPercent;
      hasTriggered := false;
      i := 0;
      displayedCommand := "";
      isTypingComplete := false;
      showResult := false;
      intervalActive := false;
      revealPending := false;
      mounted := true;
      elapsed := 0;
      shown := [];
      entries := [];
    }

    /** Mounted and not yet triggered: nothing shown, no timer running. */
    ghost predicate Waiting()
      reads this
    {
      mounted && !hasTriggered && i == 0 && displayedCommand == "" && !isTypingComplete
      && !showResult && !intervalActive && !revealPending && entries == []
    }

    /** Which of the caret and the "(scroll to activate)" hint are rendered. */
    method Cues() returns (caret: bool, hint: bool)
      requires Valid()
      ensures caret <==> hasTriggered && !isTypingComplete
      ensures hint <==> !hasTriggered
      ensures !(caret && hint)
      ensures hint ==> displayedCommand == "" && !showResult
    {
      caret := hasTriggered && !isTypingComplete;
      hint := !hasTriggered;
    }

    /** One observer callback, given the `isIntersecting` flag of its batch's
        first entry. The first intersecting one sets the latch, and the typing
        effect then starts its interval; every other callback changes nothing
        visible. */
    method Intersect(isIntersecting: bool)
      requires Valid() && mounted
      modifies this`hasTriggered, this`intervalActive, this`entries
      ensures Valid()
      ensures entries == old(entries) + [isIntersecting]
      ensures hasTriggered == (old(hasTriggered) || isIntersecting)
      ensures !old(hasTriggered) && isIntersecting ==> intervalActive && elapsed == 0
      ensures old(hasTriggered) || !isIntersecting ==> intervalActive == old(intervalActive)
    {
      entries := entries + [isIntersecting];
      if isIntersecting && !hasTriggered {
        hasTriggered := true;
        intervalActive := true;
      }
    }

    /** One tick of the typing interval, as in `TerminalCommand` without the sounds. */
    method Tick()
      requires Valid() && intervalActive
      modifies this
      ensures Valid()
      ensures elapsed == old(elapsed) + typingSpeed && mounted && hasTriggered && !showResult
      ensures entries == old(entries)
      ensures old(i) < |command| ==>
        i == old(i) + 1 && displayedCommand == command[..old(i) + 1]
        && !isTypingComplete && intervalActive && !revealPending
        && shown == old(shown) + [displayedCommand]
      ensures old(i) == |command| ==>
        i == old(i) && displayedCommand == old(displayedCommand) && shown == old(shown)
        && isTypingComplete && !intervalActive && revealPending
    {
      if i < |command| {
        displayedCommand := command[..i + 1];
        shown := shown + [displayedCommand];
        i := i + 1;
      } else {
        isTypingComplete := true;
        intervalActive := false;
        revealPending := true;
      }
      elapsed := elapsed + typingSpeed;
    }

    /** The reveal timeout fires; it is not cancelled by unmounting. */
    method Reveal()
      requires Valid() && revealPending
      modifies this`showResult, this`revealPending, this`elapsed
      ensures Valid()
      ensures showResult && !revealPending && isTypingComplete
      ensures elapsed == RevealTime(command, typingSpeed, resultDelay)
    {
      showResult := true;
      revealPending := false;
      elapsed := elapsed + resultDelay;
    }

    /** Unmounting: the cleanups disconnect the observer and clear the interval. */
    method Unmount()
      requires Valid() && mounted
      modifies this`mounted, this`intervalActive
      ensures Valid() && !mounted && !intervalActive
      ensures revealPending == old(revealPending)
    {
      mounted := false;
      intervalActive := false;
    }

    /** A run of callbacks whose first entries do not intersect leaves the
        instance waiting: no timer, nothing typed, no result. */
    method ObserveAway(away: seq<bool>)
      requires Valid() && Waiting()
      requires forall k :: 0 <= k < |away| ==> !away[k]
      modifies this`hasTriggered, this`intervalActive, this`entries
      ensures Valid() && !hasTriggered && displayedCommand == "" && !showResult && !intervalActive
      ensures entries == away
    {
      var k := 0;
      while k < |away|
        invariant 0 <= k <= |away|
        invariant Valid() && entries == away[..k]
        invariant !hasTriggered && !intervalActive && mounted
        invariant displayedCommand == "" && !showResult
      {
        Intersect(away[k]);
        assert away[..k + 1] == away[..k] + [away[k]];
        k := k + 1;
      }
      assert away[..k] == away;
    }

    /** Once triggered, letting the timers run types the whole command and
        then reveals the result. */
    method RunToReveal()
      requires Valid() && mounted && hasTriggered && i == 0 && !isTypingComplete
      modifies this
      ensures Valid()
      ensures displayedCommand == command && isTypingComplete && showResult
      ensures shown == Frames(command, |command|)
      ensures elapsed == RevealTime(command, typingSpeed, resultDelay)
    {
      var ticks: nat := 0;
      while intervalActive
        invariant Valid() && mounted && hasTriggered && !showResult
        invariant ticks == i + (if isTypingComplete then 1 else 0)
        decreases |command| + 1 - ticks
      {
        Tick();
        ticks := ticks + 1;
      }
      Reveal();
    }
  }
}
