/**
 * `useTypingSound`: the gate in front of the key and enter sounds, the mute
 * toggle, and the user-interaction latch that creates the audio context.
 * Producing the sound itself is outside the model; a "played" result stands
 * for the oscillator being started.
 */
module TypingSound {

  const DefaultVolumePercent: nat := 30
  const DefaultEnabled: bool := true

  /** The window events that count as a user gesture. */
  datatype Interaction = Click | KeyDown | TouchStart

  const AllInteractions: set<Interaction> := {Click, KeyDown, TouchStart}

  /** The check shared by `playKeySound` and `playEnterSound`. */
  predicate SoundGate(enabled: bool, isMuted: bool, prefersReducedMotion: bool,
                      hasUserInteracted: bool, hasAudioContext: bool)
  {
    enabled && !isMuted && !prefersReducedMotion && hasUserInteracted && hasAudioContext
  }

  /** State of one call of the hook; every component calling it has its own. */
  class TypingSound {
    const volumePercent: nat
    const enabled: bool
    const prefersReducedMotion: bool
    var isMuted: bool
    var hasUserInteracted: bool
    /** `audioContextRef.current !== null` */
    var hasAudioContext: bool
    /** How many audio contexts this hook has constructed. */
    var contextsCreated: nat
    /** The one-shot (`once: true`) window listeners still registered. */
    var listening: set<Interaction>

    ghost predicate Valid()
      reads this
    {
      listening <= AllInteractions
      && (hasAudioContext <==> contextsCreated == 1)
      && contextsCreated <= 1
      && (hasAudioContext <==> hasUserInteracted)
    }

    /** The first render plus the listener effect. */
    constructor (volumePercent: nat, enabled: bool, prefersReducedMotion: bool)
      ensures Valid()
      ensures this.volumePercent == volumePercent && this.enabled == enabled
      ensures this.prefersReducedMotion == prefersReducedMotion
      ensures !isMuted && !hasUserInteracted && !hasAudioContext && contextsCreated == 0
      ensures listening == AllInteractions
    {
      this.volumePercent := volumePercent;
      this.enabled := enabled;
      this.prefersReducedMotion := prefersReducedMotion;
      isMuted := false;
      hasUserInteracted := false;
      hasAudioContext := false;
      contextsCreated := 0;
      listening := AllInteractions;
    }

    /** Sounds are produced only when this holds. */
    predicate CanPlay()
      reads this
    {
      SoundGate(enabled, isMuted, prefersReducedMotion, hasUserInteracted, hasAudioContext)
    }

    /** A click, key press or touch on the window. Each kind's listener fires
        at most once; the first gesture sets the latch and creates the audio
        context, which is never created again. */
    method HandleInteraction(kind: Interaction)
      requires Valid()
      modifies this
      ensures Valid()
      ensures kind in old(listening) ==> hasUserInteracted && listening == old(listening) - {kind}
      ensures kind !in old(listening) ==>
        (hasUserInteracted == old(hasUserInteracted) && listening == old(listening))
      ensures old(hasUserInteracted) ==>
        (hasUserInteracted && contextsCreated == old(contextsCreated))
      ensures isMuted == old(isMuted)
    {
      if kind in listening {
        listening := listening - {kind};
        hasUserInteracted := true;
        if !hasAudioContext {
          hasAudioContext := true;
          contextsCreated := contextsCreated + 1;
        }
      }
    }

    /** Unmounting removes the listeners that have not fired. */
    method Unmount()
      requires Valid()
      modifies this`listening
      ensures Valid() && listening == {}
    {
      listening := {};
    }

    method ToggleMute()
      requires Valid()
      modifies this`isMuted
      ensures Valid() && isMuted == !old(isMuted)
    {
      isMuted := !isMuted;
    }

    /** `playKeySound`: whether a key click is produced. */
    method PlayKeySound() returns (played: bool)
      ensures played <==>
        (enabled && !isMuted && !prefersReducedMotion && hasUserInteracted && hasAudioContext)
    {
      played := CanPlay();
    }

    /** `playEnterSound`: behind exactly the same gate as the key sound. */
    method PlayEnterSound() returns (played: bool)
      ensures played <==>
        (enabled && !isMuted && !prefersReducedMotion && hasUserInteracted && hasAudioContext)
    {
      played := CanPlay();
    }
  }

  /** Muting twice restores the original state. */
  method ToggleMuteTwice(sound: TypingSound)
    requires sound.Valid()
    modifies sound
    ensures sound.Valid() && sound.isMuted == old(sound.isMuted)
    ensures sound.CanPlay() == old(sound.CanPlay())
  {
    sound.ToggleMute();
    sound.ToggleMute();
  }

  /** Mute state belongs to one hook call: toggling one instance leaves
      another's gate as it was. */
  method MuteIsPerInstance(muted: TypingSound, other: TypingSound)
    requires muted.Valid() && other.Valid() && muted != other
    modifies muted
    ensures muted.isMuted == !old(muted.isMuted)
    ensures other.CanPlay() == old(other.CanPlay())
  {
    muted.ToggleMute();
  }

  /** Before any gesture nothing can sound, and a muted hook stays silent whatever happens. */
  lemma SilentUntilGestureAndWhileMuted(sound: TypingSound)
    requires sound.Valid()
    ensures !sound.hasUserInteracted ==> !sound.CanPlay()
    ensures sound.isMuted ==> !sound.CanPlay()
    ensures sound.CanPlay() ==> sound.contextsCreated == 1
  {
  }

  /** The page as written: the sound button toggles the page's own hook
      instance (default volume), while a typing sequencer plays through an
      instance of its own (volume 0.25). After one click has unlocked audio
      and the button has been pressed, the button shows "muted" and the
      sequencer still sounds. */
  method PageToggleAsWritten() returns (buttonShowsMuted: bool, sequencerSounds: bool)
    ensures buttonShowsMuted && sequencerSounds
  {
    var page := new TypingSound(DefaultVolumePercent, true, false);
    var sequencer := new TypingSound(25, true, false);
    page.HandleInteraction(Click);
    sequencer.HandleInteraction(Click);
    page.ToggleMute();
    buttonShowsMuted := page.isMuted;
    sequencerSounds := sequencer.PlayKeySound();
  }

  /** The evident intent, which the provider in `SoundContext` offers: one
      instance shared by the button and the sequencers, so that while the
      button shows "muted" no sequencer sounds, and unmuting restores sound. */
  method SharedToggle(shared: TypingSound) returns (buttonShowsMuted: bool, sequencerSounds: bool)
    requires shared.Valid()
    modifies shared
    ensures shared.Valid()
    ensures shared.isMuted == !old(shared.isMuted)
    ensures buttonShowsMuted == shared.isMuted
    ensures sequencerSounds <==> shared.CanPlay()
    ensures buttonShowsMuted ==> !sequencerSounds
  {
    shared.ToggleMute();
    buttonShowsMuted := shared.isMuted;
    sequencerSounds := shared.PlayKeySound();
  }

  /** With the shared instance, the same click and button press leave the
      sequencer silent. */
  method PageToggleCorrected() returns (buttonShowsMuted: bool, sequencerSounds: bool)
    ensures buttonShowsMuted && !sequencerSounds
  {
    var shared := new TypingSound(35, true, false);
    shared.HandleInteraction(Click);
    buttonShowsMuted, sequencerSounds := SharedToggle(shared);
  }
}
