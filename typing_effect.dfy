/**
 * What the three typing sequencers (TerminalCommand, ScrollTerminalCommand,
 * BootLoader) have in common: the text shown after each tick of the typing
 * interval, and the sound calls they make.
 *
 * Each interval tick while the counter is below the text's length shows one
 * more character; the tick after the last character finishes typing, so a
 * text of n characters takes n + 1 ticks.
 */
module TypingEffect {

  /** A call a sequencer makes into its sound hook. */
  datatype Sound = KeySound | EnterSound

  /** The values the displayed text is set to during the first k ticks:
      text[..1], text[..2], ..., text[..k]. */
  function Frames(text: string, k: nat): seq<string>
    requires k <= |text|
  {
    if k == 0 then [] else Frames(text, k - 1) + [text[..k]]
  }

  /** Frame j is the prefix of length j + 1: the display grows one character
      per tick, takes each length 1..k exactly once, in order, and never shows
      anything but a prefix of the text. */
  lemma {:induction false} FramesArePrefixes(text: string, k: nat)
    requires k <= |text|
    ensures |Frames(text, k)| == k
    ensures forall j :: 0 <= j < k ==> Frames(text, k)[j] == text[..j + 1]
    ensures forall j :: 0 <= j < k ==> |Frames(text, k)[j]| == j + 1
    ensures forall j :: 0 <= j < k ==> Frames(text, k)[j] <= text
  {
    if k > 0 {
      FramesArePrefixes(text, k - 1);
    }
  }

  /** One key sound per character typed so far. */
  function KeySounds(n: nat): (r: seq<Sound>)
    ensures |r| == n && forall j :: 0 <= j < n ==> r[j] == KeySound
  {
    if n == 0 then [] else KeySounds(n - 1) + [KeySound]
  }

  function Count(calls: seq<Sound>, s: Sound): nat
  {
    if calls == [] then 0
    else Count(calls[..|calls| - 1], s) + (if calls[|calls| - 1] == s then 1 else 0)
  }

  /** Counting over one more call. */
  lemma CountSnoc(calls: seq<Sound>, x: Sound, s: Sound)
    ensures Count(calls + [x], s) == Count(calls, s) + (if x == s then 1 else 0)
  {
    assert (calls + [x])[..|calls|] == calls;
  }

  /** A finished run of n characters makes n key-sound calls and one
      enter-sound call, the enter sound last. */
  lemma CompletedRunSounds(n: nat)
    ensures Count(KeySounds(n) + [EnterSound], KeySound) == n
    ensures Count(KeySounds(n) + [EnterSound], EnterSound) == 1
    ensures (KeySounds(n) + [EnterSound])[n] == EnterSound
  {
    KeySoundCounts(n);
    CountSnoc(KeySounds(n), EnterSound, KeySound);
    CountSnoc(KeySounds(n), EnterSound, EnterSound);
  }

  lemma {:induction false} KeySoundCounts(n: nat)
    ensures Count(KeySounds(n), KeySound) == n
    ensures Count(KeySounds(n), EnterSound) == 0
  {
    if n > 0 {
      KeySoundCounts(n - 1);
      CountSnoc(KeySounds(n - 1), KeySound, KeySound);
      CountSnoc(KeySounds(n - 1), KeySound, EnterSound);
    }
  }

  /** The tick that finishes typing: the one after the last character. */
  function CompletionTick(text: string): nat
  {
    |text| + 1
  }

  /** When the result appears, counted from the start of the typing effect:
      the completion tick plus the reveal delay. */
  function RevealTime(text: string, typingSpeed: nat, resultDelay: nat): nat
  {
    CompletionTick(text) * typingSpeed + resultDelay
  }

  /** "whoami" at 80 ms per character with a 400 ms delay shows its result
      at 960 ms, after showing "w", "wh", ..., "whoami". */
  lemma Whoami()
    ensures RevealTime("whoami", 80, 400) == 960
    ensures Frames("whoami", 6) == ["w", "wh", "who", "whoa", "whoam", "whoami"]
  {
    var f := Frames("whoami", 6);
    FramesArePrefixes("whoami", 6);
    assert f[0] == "w" && f[1] == "wh" && f[2] == "who";
    assert f[3] == "whoa" && f[4] == "whoam" && f[5] == "whoami";
  }

  /** An empty text finishes on the first tick and shows its result one
      interval plus the delay after the effect starts, having shown nothing. */
  lemma EmptyText(typingSpeed: nat, resultDelay: nat)
    ensures CompletionTick("") == 1 && Frames("", 0) == []
    ensures RevealTime("", typingSpeed, resultDelay) == typingSpeed + resultDelay
  {
  }
}
