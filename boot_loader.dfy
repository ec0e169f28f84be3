/**
 * `BootLoader`: the boot screen that types a fixed sequence of lines, one
 * after another, each at its own speed, then hands over to the page.
 *
 * `elapsed` counts milliseconds on the typing timeline from mount: the
 * typing ticks, the 400 ms pause after each line and the 800 ms pause
 * before `onComplete`. The cursor blink runs on its own 500 ms interval and
 * is counted separately in `blinks`.
 */
module BootLoader {
  import opened TypingEffect

  datatype BootLine = BootLine(text: string, delay: nat)

  /** The check mark of the last line. */
  const CheckMark: char := '\U{2714}'

  const BootSequence: seq<BootLine> := [
    BootLine("Booting DevOps Engine...", 60),
    BootLine("Loading Cloud Modules...", 50),
    BootLine("Starting AI Services...", 40),
    BootLine("Access Granted \U{2714}", 30)
  ]

  /** Pause between a line's last tick and the next line. */
  const AdvanceDelay: nat := 400
  /** Pause between the final enter sound and `onComplete`. */
  const CompleteDelay: nat := 800
  const BlinkPeriod: nat := 500
  /** Volume handed to this component's sound hook, in percent. */
  const SoundVolumePercent: nat := 35

  /** `Math.round(k / n * 100)`: the integer nearest to 100k/n, halves rounded up. */
  function Progress(k: nat, n: nat): (r: nat)
    requires n > 0
    ensures 2 * n * r <= 200 * k + n < 2 * n * r + 2 * n
  {
    (200 * k + n) / (2 * n)
  }

  lemma MulCancel(c: int, a: int, b: int)
    requires c > 0 && c * a < c * b
    ensures a < b
  {
  }

  /** More lines done never shows less progress. */
  lemma ProgressMonotone(j: nat, k: nat, n: nat)
    requires n > 0 && j <= k
    ensures Progress(j, n) <= Progress(k, n)
  {
    var rj, rk := Progress(j, n), Progress(k, n);
    assert 2 * n * rj < 2 * n * (rk + 1);
    MulCancel(2 * n, rj, rk + 1);
  }

  /** Progress stays within 100 and, for fewer than 200 lines, reaches it
      exactly when every line is done. */
  lemma ProgressFull(k: nat, n: nat)
    requires 0 < n < 200 && k <= n
    ensures Progress(k, n) <= 100
    ensures Progress(k, n) == 100 <==> k == n
  {
    var r := Progress(k, n);
    assert 2 * n * r < 2 * n * 101 by {
      assert 200 * k + n <= 2 * n * 100 + n;
    }
    MulCancel(2 * n, r, 101);
    if k == n {
      assert 2 * n * 100 < 2 * n * (r + 1);
      MulCancel(2 * n, 100, r + 1);
    } else {
      assert 200 * k + n < 2 * n * 100;
      MulCancel(2 * n, r, 100);
    }
  }

  /** For the four boot lines the bar reads 0, 25, 50, 75 and 100 percent. */
  lemma BootProgress()
    ensures |BootSequence| == 4
    ensures Progress(0, 4) == 0 && Progress(1, 4) == 25 && Progress(2, 4) == 50
    ensures Progress(3, 4) == 75 && Progress(4, 4) == 100
  {
  }

  /** A finished line is styled as success when its text holds the check mark. */
  predicate IsSuccess(line: BootLine)
  {
    CheckMark in line.text
  }

  /** Only the last boot line is styled as success. */
  lemma OnlyLastIsSuccess(idx: nat)
    requires idx < |BootSequence|
    ensures IsSuccess(BootSequence[idx]) <==> idx == |BootSequence| - 1
  {
    var t := BootSequence[idx].text;
    if idx == 3 {
      MarkIn(t);
    } else {
      AsciiHasNoMark(t);
    }
  }

  /** A string of ASCII characters holds no check mark. */
  lemma AsciiHasNoMark(s: string)
    requires forall k :: 0 <= k < |s| ==> (s[k] as int) < 128
    ensures CheckMark !in s
  {
  }

  lemma MarkIn(s: string)
    requires s == "Access Granted \U{2714}"
    ensures CheckMark in s
  {
    assert s[15] == CheckMark;
  }


  /** Time a line occupies: its typing ticks, the completing tick and the pause. */
  function LineTime(line: BootLine): nat
  {
    (|line.text| + 1) * line.delay + AdvanceDelay
  }

  /** Time from mount until line `k` starts (for k = |lines|, until the final enter sound). */
  function BootTime(lines: seq<BootLine>, k: nat): nat
    requires k <= |lines|
  {
    if k == 0 then 0 else BootTime(lines, k - 1) + LineTime(lines[k - 1])
  }

  /** Sound calls made by the first `k` lines: one key sound per character and an enter sound each. */
  function BootSounds(lines: seq<BootLine>, k: nat): seq<Sound>
    requires k <= |lines|
  {
    if k == 0 then [] else BootSounds(lines, k - 1) + KeySounds(|lines[k - 1].text|) + [EnterSound]
  }

  /** The whole boot, `onComplete` included, takes 6620 ms. */
  lemma BootDuration(lines: seq<BootLine>)
    requires lines == BootSequence
    ensures BootTime(lines, |lines|) + CompleteDelay == 6620
  {
    assert |lines[0].text| == 24 && |lines[1].text| == 24;
    assert |lines[2].text| == 23 && |lines[3].text| == 16;
  }

  lemma PrefixGrows(lines: seq<BootLine>, k: nat)
    requires k < |lines|
    ensures lines[..k + 1] == lines[..k] + [lines[k]]
  {
  }

  /** While line `k` is typed (or waits, finished, for the advance timeout):
      the display is the prefix of length `c`, its frames so far, the sound
      calls of the earlier lines and of this one, and the time spent. */
  ghost predicate LineState(lines: seq<BootLine>, k: nat, c: nat, finished: bool,
                            displayed: string, shown: seq<string>, sounds: seq<Sound>, elapsed: nat)
    requires k < |lines|
  {
    var text := lines[k].text;
    c <= |text|
    && (finished ==> c == |text|)
    && displayed == text[..c]
    && shown == Frames(text, c)
    && sounds == BootSounds(lines, k) + KeySounds(c) + (if finished then [EnterSound] else [])
    && elapsed == BootTime(lines, k) + (if finished then c + 1 else c) * lines[k].delay
  }

  /** After the last line: the display keeps the last line, every line's
      sounds and the final enter sound are made, and `onComplete` has been
      called or is 800 ms away. */
  ghost predicate FinishState(lines: seq<BootLine>, completed: bool,
                              displayed: string, sounds: seq<Sound>, elapsed: nat)
    requires 0 < |lines|
  {
    displayed == lines[|lines| - 1].text
    && sounds == BootSounds(lines, |lines|) + [EnterSound]
    && elapsed == BootTime(lines, |lines|) + (if completed then CompleteDelay else 0)
  }

  /** A typing tick on line `k`: one more character and a key sound, or,
      after the last character, the enter sound. */
  lemma TypeStep(lines: seq<BootLine>, k: nat, c: nat,
                 displayed: string, shown: seq<string>, sounds: seq<Sound>, elapsed: nat)
    requires k < |lines| && LineState(lines, k, c, false, displayed, shown, sounds, elapsed)
    ensures var text := lines[k].text;
      c < |text| ==> LineState(lines, k, c + 1, false, text[..c + 1], shown + [text[..c + 1]],
                               sounds + [KeySound], elapsed + lines[k].delay)
    ensures c == |lines[k].text| ==>
      LineState(lines, k, c, true, displayed, shown, sounds + [EnterSound], elapsed + lines[k].delay)
  {
    var before, delay := BootSounds(lines, k), lines[k].delay;
    assert (c + 1) * delay == c * delay + delay;
    assert before + KeySounds(c + 1) == (before + KeySounds(c)) + [KeySound];
    assert sounds == before + KeySounds(c);
  }

  /** The advance timeout after line `k`: the next line starts empty, or,
      after the last one, the final enter sound is made. */
  lemma AdvanceStep(lines: seq<BootLine>, k: nat, c: nat,
                    displayed: string, shown: seq<string>, sounds: seq<Sound>, elapsed: nat)
    requires k < |lines| && LineState(lines, k, c, true, displayed, shown, sounds, elapsed)
    ensures k + 1 < |lines| ==>
      LineState(lines, k + 1, 0, false, "", [], sounds, elapsed + AdvanceDelay)
    ensures k + 1 == |lines| ==>
      FinishState(lines, false, displayed, sounds + [EnterSound], elapsed + AdvanceDelay)
  {
    assert sounds == BootSounds(lines, k + 1);
    assert BootSounds(lines, k + 1) + KeySounds(0) + [] == BootSounds(lines, k + 1);
  }

  class BootLoader {
    /** The lines to type: the boot sequence. */
    const lines: seq<BootLine>
    var currentLine: nat
    /** The current line's effect-local character counter. */
    var charIndex: nat
    var displayedText: string
    var showCursor: bool
    /** Cursor blink ticks so far. */
    var blinks: nat
    var typeIntervalActive: bool
    /** The 400 ms timeout that advances to the next line is scheduled. */
    var advancePending: bool
    /** The 800 ms timeout that calls `onComplete` is scheduled. */
    var completePending: bool
    /** Calls of `onComplete` so far. */
    var completeCalls: nat
    var sounds: seq<Sound>
    var elapsed: nat
    /** Every value `displayedText` has been set to since the current line started. */
    ghost var shown: seq<string>

    /** The boot sequence is non-empty and short enough for the percentage
        to stay below 100 until the last line is done. */
    ghost predicate Valid()
      reads this
    {
      0 < |lines| < 200
      && currentLine <= |lines|
      && showCursor == (blinks % 2 == 0)
      && completeCalls <= 1
      && (currentLine < |lines| ==>
            LineState(lines, currentLine, charIndex, advancePending, displayedText, shown, sounds, elapsed)
            && typeIntervalActive != advancePending
            && !completePending && completeCalls == 0)
      && (currentLine == |lines| ==>
            FinishState(lines, completeCalls == 1, displayedText, sounds, elapsed)
            && !typeIntervalActive && !advancePending
            && completePending != (completeCalls == 1))
    }

    /** Mounting: the first line's typing interval starts. */
    constructor ()
      ensures Valid() && Fresh() && lines == BootSequence
    {
      lines := BootSequence;
      currentLine := 0;
      charIndex := 0;
      displayedText := "";
      showCursor := true;
      blinks := 0;
      typeIntervalActive := true;
      advancePending := false;
      completePending := false;
      completeCalls := 0;
      sounds := [];
      elapsed := 0;
      shown := [];
    }

    ghost predicate Fresh()
      reads this
    {
      currentLine == 0 && charIndex == 0 && displayedText == "" && typeIntervalActive
      && !advancePending && completeCalls == 0 && sounds == [] && elapsed == 0
      && showCursor && blinks == 0
    }

    /** The finished lines rendered above the current one. */
    function FinishedLines(): (r: seq<BootLine>)
      reads this
      requires Valid()
      ensures |r| == currentLine
      ensures forall k :: 0 <= k < currentLine ==> r[k] == lines[k]
    {
      lines[..currentLine]
    }

    /** The line being typed, with its cursor, is rendered while lines remain. */
    predicate ShowsCurrentLine()
      reads this
    {
      currentLine < |lines|
    }

    /** The percentage under the loading bar. */
    function Percent(): (r: nat)
      reads this
      requires Valid()
      ensures r <= 100 && (r == 100 <==> !ShowsCurrentLine())
    {
      ProgressFull(currentLine, |lines|);
      Progress(currentLine, |lines|)
    }

    /** One tick of the current line's typing interval. */
    method TypeTick()
      requires Valid() && typeIntervalActive
      modifies this`charIndex, this`displayedText, this`typeIntervalActive, this`advancePending,
               this`sounds, this`elapsed, this`shown
      ensures Valid() && currentLine == old(currentLine) && currentLine < |lines|
      ensures elapsed == old(elapsed) + lines[currentLine].delay
      ensures old(charIndex) < |lines[currentLine].text| ==>
        charIndex == old(charIndex) + 1 && displayedText == lines[currentLine].text[..charIndex]
        && typeIntervalActive && sounds == old(sounds) + [KeySound]
        && shown == old(shown) + [displayedText]
      ensures old(charIndex) == |lines[currentLine].text| ==>
        charIndex == old(charIndex) && displayedText == old(displayedText) && shown == old(shown)
        && !typeIntervalActive && advancePending && sounds == old(sounds) + [EnterSound]
    {
      var text, delay := lines[currentLine].text, lines[currentLine].delay;
      TypeStep(lines, currentLine, charIndex, displayedText, shown, sounds, elapsed);
      if charIndex < |text| {
        displayedText, sounds, charIndex, elapsed, shown :=
          text[..charIndex + 1], sounds + [KeySound], charIndex + 1, elapsed + delay,
          shown + [text[..charIndex + 1]];
      } else {
        typeIntervalActive, sounds, advancePending, elapsed :=
          false, sounds + [EnterSound], true, elapsed + delay;
      }
    }

    /** The advance timeout fires: the next line starts from an empty display,
        or, after the last line, the enter sound plays and `onComplete` is
        scheduled. */
    method Advance()
      requires Valid() && advancePending
      modifies this`currentLine, this`charIndex, this`displayedText, this`typeIntervalActive,
               this`advancePending, this`completePending, this`sounds, this`elapsed, this`shown
      ensures Valid()
      ensures currentLine == old(currentLine) + 1
      ensures FinishedLines() == old(FinishedLines()) + [lines[old(currentLine)]]
      ensures elapsed == old(elapsed) + AdvanceDelay
      ensures ShowsCurrentLine() ==>
        charIndex == 0 && displayedText == "" && shown == [] && typeIntervalActive
        && sounds == old(sounds)
      ensures !ShowsCurrentLine() ==>
        completePending && completeCalls == 0 && displayedText == old(displayedText)
        && sounds == old(sounds) + [EnterSound]
    {
      var next := currentLine + 1;
      PrefixGrows(lines, currentLine);
      AdvanceStep(lines, currentLine, charIndex, displayedText, shown, sounds, elapsed);
      if next < |lines| {
        currentLine, advancePending, elapsed, charIndex, displayedText, typeIntervalActive, shown :=
          next, false, elapsed + AdvanceDelay, 0, "", true, [];
      } else {
        currentLine, advancePending, elapsed, sounds, completePending :=
          next, false, elapsed + AdvanceDelay, sounds + [EnterSound], true;
      }
    }

    /** The completion timeout fires and calls `onComplete`. */
    method Complete()
      requires Valid() && completePending
      modifies this`completePending, this`completeCalls, this`elapsed
      ensures Valid()
      ensures completeCalls == 1 && !completePending
      ensures elapsed == old(elapsed) + CompleteDelay
    {
      completePending := false;
      completeCalls := completeCalls + 1;
      elapsed := elapsed + CompleteDelay;
    }

    /** One tick of the cursor interval. */
    method Blink()
      requires Valid()
      modifies this`showCursor, this`blinks
      ensures Valid()
      ensures showCursor == !old(showCursor) && blinks == old(blinks) + 1
    {
      showCursor := !showCursor;
      blinks := blinks + 1;
    }

    /** Two blink ticks restore the cursor. */
    method BlinkTwice()
      requires Valid()
      modifies this`showCursor, this`blinks
      ensures Valid() && showCursor == old(showCursor)
    {
      Blink();
      Blink();
    }

    /** Letting the typing timers run from mount: every line is typed and
        finished in order and `onComplete` is called once, 6620 ms after mount. */
    method RunBoot()
      requires Valid() && Fresh() && lines == BootSequence
      modifies this
      ensures Valid()
      ensures completeCalls == 1 && FinishedLines() == BootSequence && Percent() == 100
      ensures sounds == BootSounds(lines, |lines|) + [EnterSound]
      ensures elapsed == 6620
    {
      while completeCalls == 0
        invariant Valid()
        decreases |lines| - currentLine,
                  (if ShowsCurrentLine() && typeIntervalActive then 1 else 0),
                  (if ShowsCurrentLine() then |lines[currentLine].text| - charIndex else 0),
                  (if completePending then 1 else 0)
      {
        if typeIntervalActive {
          TypeTick();
        } else if advancePending {
          Advance();
        } else {
          Complete();
        }
      }
      BootDuration(lines);
      assert lines[..|lines|] == lines;
    }
  }
}
