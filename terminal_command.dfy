/**
 * `TerminalCommand`: a command typed out on mount, one character per tick
 * of its typing interval, followed by its result after a delay.
 *
 * Time is counted in milliseconds from the moment the typing effect runs;
 * the n-th interval tick fires at n * typingSpeed. Sound calls are recorded
 * in `sounds`; whether they are heard is decided by the sound hook.
 */
module TerminalCommand {
  import opened TypingEffect

  const DefaultTypingSpeed: nat := 50
  const DefaultResultDelay: nat := 300
  const DefaultPrompt: string := "~"
  const DefaultEnableSound: bool := true
  /** Volume handed to this component's sound hook, in percent. */
  const SoundVolumePercent: nat := 25

  class TerminalCommand {
    const command: string
    const typingSpeed: nat
    const resultDelay: nat
    const prompt: string
    const enableSound: bool

    /** The effect's local counter. */
    var i: nat
    var displayedCommand: string
    var isTypingComplete: bool
    var showResult: bool
    /** The typing interval is registered. */
    var intervalActive: bool
    /** The result-reveal timeout is scheduled and has not fired. */
    var revealPending: bool
    var mounted: bool
    /** Milliseconds since the typing effect ran, as far as this instance's timers have fired. */
    var elapsed: nat
    /** Calls of `playKeySound` and `playEnterSound`, in order. */
    var sounds: seq<Sound>
    /** Every value `displayedCommand` has been set to, in order. */
    ghost var shown: seq<string>

    ghost predicate Valid()
      reads this
    {
      i <= |command|
      && displayedCommand == command[..i]
      && shown == Frames(command, i)
      && (isTypingComplete ==> i == |command|)
      && (intervalActive <==> mounted && !isTypingComplete)
      && sounds == KeySounds(i) + (if isTypingComplete then [EnterSound] else [])
      && (!isTypingComplete ==> !revealPending && !showResult && elapsed == i * typingSpeed)
      && (isTypingComplete ==> revealPending != showResult)
      && (revealPending ==> elapsed == CompletionTick(command) * typingSpeed)
      && (showResult ==> elapsed == RevealTime(command, typingSpeed, resultDelay))
    }

    /** Mounting: initial state, then the typing effect starts its interval. */
    constructor (command: string, typingSpeed: nat, resultDelay: nat, prompt: string, enableSound: bool)
      ensures Valid()
      ensures this.command == command && this.typingSpeed == typingSpeed
      ensures this.resultDelay == resultDelay && this.prompt == prompt
      ensures this.enableSound == enableSound
      ensures Fresh()
    {
      this.command := command;
      this.typingSpeed := typingSpeed;
      this.resultDelay := resultDelay;
      this.prompt := prompt;
      this.enableSound := enableSound;
      i := 0;
      displayedCommand := "";
      isTypingComplete := false;
      showResult := false;
      intervalActive := true;
      revealPending := false;
      mounted := true;
      elapsed := 0;
      sounds := [];
      shown := [];
    }

    /** Mounting with every optional prop left out. */
    constructor WithDefaults(command: string)
      ensures Valid() && Fresh()
      ensures this.command == command && typingSpeed == DefaultTypingSpeed
      ensures resultDelay == DefaultResultDelay && prompt == DefaultPrompt
      ensures enableSound == DefaultEnableSound
    {
      this.command := command;
      typingSpeed := DefaultTypingSpeed;
      resultDelay := DefaultResultDelay;
      prompt := DefaultPrompt;
      enableSound := DefaultEnableSound;
      i := 0;
      displayedCommand := "";
      isTypingComplete := false;
      showResult := false;
      intervalActive := true;
      revealPending := false;
      mounted := true;
      elapsed := 0;
      sounds := [];
      shown := [];
    }

    /** The state right after the typing effect has started. */
    ghost predicate Fresh()
      reads this
    {
      i == 0 && displayedCommand == "" && !isTypingComplete && !showResult
      && intervalActive && !revealPending && mounted && elapsed == 0 && sounds == []
    }

    /** The caret blinks after the command until typing is complete. */
    function CaretShown(): (r: bool)
      reads this
      requires Valid()
      ensures r <==> !isTypingComplete
      ensures !r ==> displayedCommand == command && !intervalActive
    {
      !isTypingComplete
    }

    /** One tick of the typing interval. Below the end it shows one more
        character and calls the key sound; at the end it marks typing
        complete, clears the interval, calls the enter sound and schedules
        the reveal. */
    method Tick()
      requires Valid() && intervalActive
      modifies this
      ensures Valid()
      ensures elapsed == old(elapsed) + typingSpeed && mounted && !showResult
      ensures old(i) < |command| ==>
        i == old(i) + 1 && displayedCommand == command[..old(i) + 1]
        && !isTypingComplete && intervalActive && !revealPending
        && sounds == old(sounds) + [KeySound] && shown == old(shown) + [displayedCommand]
      ensures old(i) == |command| ==>
        i == old(i) && displayedCommand == old(displayedCommand) && shown == old(shown)
        && isTypingComplete && !intervalActive && revealPending
        && sounds == old(sounds) + [EnterSound]
    {
      if i < |command| {
        displayedCommand := command[..i + 1];
        shown := shown + [displayedCommand];
        sounds := sounds + [KeySound];
        i := i + 1;
      } else {
        isTypingComplete := true;
        intervalActive := false;
        sounds := sounds + [EnterSound];
        revealPending := true;
      }
      elapsed := elapsed + typingSpeed;
    }

    /** The reveal timeout fires, `resultDelay` after the completing tick. The
        unmount cleanup clears only the interval, so this can still happen
        after unmounting. */
    method Reveal()
      requires Valid() && revealPending
      modifies this`showResult, this`revealPending, this`elapsed
      ensures Valid()
      ensures showResult && !revealPending && isTypingComplete
      ensures elapsed == old(elapsed) + resultDelay
      ensures elapsed == RevealTime(command, typingSpeed, resultDelay)
    {
      showResult := true;
      revealPending := false;
      elapsed := elapsed + resultDelay;
    }

    /** Unmounting: the cleanup clears the typing interval. */
    method Unmount()
      requires Valid() && mounted
      modifies this`mounted, this`intervalActive
      ensures Valid() && !mounted && !intervalActive
      ensures revealPending == old(revealPending)
    {
      mounted := false;
      intervalActive := false;
    }

    /** Letting the timers run: the interval ticks |command| + 1 times, then
        the reveal fires. Every character is shown and sounded once, in
        order, and the result appears `resultDelay` after the completing tick. */
    method RunToReveal()
      requires Valid() && Fresh()
      modifies this
      ensures Valid()
      ensures displayedCommand == command && isTypingComplete && showResult && !CaretShown()
      ensures shown == Frames(command, |command|)
      ensures sounds == KeySounds(|command|) + [EnterSound]
      ensures elapsed == RevealTime(command, typingSpeed, resultDelay)
    {
      var ticks: nat := 0;
      while intervalActive
        invariant Valid() && mounted && !showResult
        invariant ticks == i + (if isTypingComplete then 1 else 0)
        invariant intervalActive ==> elapsed == ticks * typingSpeed
        decreases |command| + 1 - ticks
      {
        Tick();
        ticks := ticks + 1;
      }
      assert ticks == CompletionTick(command);
      Reveal();
    }
  }

  /** "whoami" typed at 80 ms per character with a 400 ms delay. */
  method Whoami() returns (t: TerminalCommand)
    ensures t.Valid() && t.displayedCommand == "whoami" && t.showResult
    ensures t.shown == ["w", "wh", "who", "whoa", "whoam", "whoami"]
    ensures t.elapsed == 960
  {
    t := new TerminalCommand("whoami", 80, 400, DefaultPrompt, DefaultEnableSound);
    t.RunToReveal();
    TypingEffect.Whoami();
  }

  /** An empty command completes on the first tick, having shown nothing. */
  method EmptyCommand(typingSpeed: nat, resultDelay: nat) returns (t: TerminalCommand)
    ensures t.Valid() && t.displayedCommand == "" && t.showResult && t.shown == []
    ensures t.sounds == [EnterSound]
    ensures t.elapsed == typingSpeed + resultDelay
  {
    t := new TerminalCommand("", typingSpeed, resultDelay, DefaultPrompt, DefaultEnableSound);
    t.Tick();
    assert t.isTypingComplete;
    t.Reveal();
  }
}
