# Terminal portfolio: typing sequencers, certificate viewer and small state machines

This project is a Dafny model of the logic inside a single-page "DevOps terminal"
portfolio written in React and TypeScript. The page is mostly markup. A handful of
components hold discrete state that the code pins down exactly, and those are what
is modelled here:

- **Typing sequencers.**
  - `TerminalCommand` types a command when it mounts, then reveals its result.
  - `ScrollTerminalCommand` does the same, but only after its element first
    scrolls into view.
  - `BootLoader` types four boot lines one after another, shows a progress bar,
    and hands over to the page.
- **Certificate viewer** (`CertificateModal`).
  - Zoom from 0.5 to 3 in steps of 0.25, and fullscreen.
  - The image-error fallback.
  - The reset that runs when the viewer opens.
  - The name of the downloaded file.
- **Sound gate** (`useTypingSound`).
  - The mute toggle.
  - The latch set by the first user gesture.
  - The audio context, which is created only once.
- **Scroll reveal** (`useScrollAnimation`): the in-view flag and the has-animated latch.
- **Navigation bar** (`Navigation`): the "scrolled" style, the active-section
  tracking, link clicks that scroll to a section, and the mobile menu.
- **Window titles**: README slugs in `ProjectsSection` and `.sh` names in `SkillsSection`.

## How it is modelled

- **One module per component or hook.** There are three shared modules:
  - `Wrappers` holds `Option`.
  - `Text` holds ASCII lower-casing and a global literal `replace`.
  - `TypingEffect` holds what the three sequencers share: the frames shown, the sound
    calls and the reveal time.
- **State a component mutates is a `class`,** with one field per state variable. Each
  timer callback or event handler is a method that states the whole new state.
  - In the three sequencers and `ScrollAnimation`, `Valid()` ties the fields to
    specification functions of the inputs and of the events seen so far. Every
    method there keeps it.
  - `TypingSound.Valid()` only relates the fields to each other, and every method
    keeps it. The remaining listeners are some of the three gesture kinds. There
    is an audio context iff the gesture latch is set. At most one context is
    ever created.
  - `CertificateModal.Valid()` only keeps zoom in range, and every handler keeps it.
  - `Navigation` needs no invariant: each of its fields is set outright by one handler.
- **Pure code is functions and lemmas.** This covers the clamp updaters, the file
  name, the slugs and the progress percentage.
- **Time is natural-number milliseconds** (`elapsed`), advanced by an instance's own
  timers:
  - the interval period for each tick;
  - the reveal, advance and completion delays when those timeouts fire.
- **Sounds.** Sound calls are recorded in order as a `seq<Sound>`. Whether a call is
  heard is the sound gate's business.
- **Intersection entries** are plain booleans. Scroll positions and element tops
  are integers.
- **Zoom** is a whole number of quarters `q`, with zoom = q / 4. Every value the
  handlers can produce is a multiple of 0.25, which is exact in binary floating point,
  so `q` ranges over 2..12 with default 4.

### Completion is on tick n + 1

In all three sequencers the interval callback shows character `i + 1` while
`i < length`. The callback that finds `i == length` is the one that marks typing
complete, clears the interval and schedules the reveal. A text of n characters
therefore takes n + 1 ticks.

- "whoami" at 80 ms per character with a 400 ms delay shows its result at
  7 × 80 + 400 = 960 ms, not 6 × 80 + 400 = 880 ms.
- An empty command completes on the very first tick.

### Effects re-run when their dependencies change

The open effect of `CertificateModal` lists `handleKeyDown` among its dependencies,
and `handleKeyDown` is re-created whenever `isFullscreen` or `onClose` changes.
While the viewer is open, each such change re-runs the open effect, which sets zoom
back to 1 and clears the image error.

- **Fullscreen changes.** Every change of `isFullscreen` triggers the reset. This
  covers Escape in fullscreen as well as the fullscreen button.
  `CertificateModal.CertificateModal.SetFullscreen` models this, and the key handler
  and the button both go through it.
- **A new `onClose`.** The only caller passes an inline closure, so every render of
  the caller hands the viewer a new `onClose`. Pressing the page's sound button
  while the viewer is open is one such render. `CertificateModal.CertificateModal.SetProps`
  takes this as its `onCloseReplaced` input and resets while open.

## Model

| member | source | states |
|---|---|---|
| TypingEffect.FramesArePrefixes | src/components/TerminalCommand.tsx:29-33 | after k ticks the display has taken exactly the values text[..1], ..., text[..k], in order; each is a prefix of the command, one character longer than the one before |
| TypingEffect.CompletedRunSounds | src/components/TerminalCommand.tsx:32-37 | a finished run of n characters makes exactly n key-sound calls and exactly one enter-sound call, and the enter sound comes last |
| TypingEffect.Whoami | src/components/TerminalCommand.tsx:28-41 | "whoami" at 80/400 shows "w", "wh", "who", "whoa", "whoam", "whoami" and reveals at 960 ms |
| TypingEffect.EmptyText | src/components/TerminalCommand.tsx:30-40 | an empty text shows nothing, finishes on the first tick and reveals one interval plus the delay after the start |
| TerminalCommand.TerminalCommand.constructor | src/components/TerminalCommand.tsx:14-29 | mounting starts the interval with nothing typed, no result and no sound calls |
| TerminalCommand.TerminalCommand.WithDefaults | src/components/TerminalCommand.tsx:17-20 | the defaults are typing speed 50, result delay 300, prompt "~" and sound enabled |
| TerminalCommand.TerminalCommand.Tick | src/components/TerminalCommand.tsx:29-42 | below the end, a tick adds exactly one character and one key sound. At the end it shows nothing new, sets completion, clears the interval, calls the enter sound and schedules the reveal. The display stays the prefix of length `i` ≤ length |
| TerminalCommand.TerminalCommand.Reveal | src/components/TerminalCommand.tsx:38-40 | the result appears only after completion, at completing tick + delay |
| TerminalCommand.TerminalCommand.Unmount | src/components/TerminalCommand.tsx:44 | cleanup clears the interval only; a scheduled reveal stays scheduled |
| TerminalCommand.TerminalCommand.CaretShown | src/components/TerminalCommand.tsx:56 | the caret is shown iff typing is not complete; once it is gone, the whole command is displayed and no interval runs |
| TerminalCommand.TerminalCommand.RunToReveal | src/components/TerminalCommand.tsx:27-45 | letting the timers run shows every prefix in order, calls n key sounds then one enter sound, and reveals at (n + 1) × speed + delay |
| TerminalCommand.Whoami | src/components/TerminalCommand.tsx:28-41 | the "whoami" instance at 80/400 ends showing "whoami" and its result at 960 ms |
| TerminalCommand.EmptyCommand | src/components/TerminalCommand.tsx:30-40 | an empty command shows nothing, makes only the enter-sound call, and reveals at speed + delay |
| ScrollTerminalCommand.ScrollTerminalCommand.constructor | src/components/ScrollTerminalCommand.tsx:13-24 | mounting leaves the latch unset, with no timer, an empty display and no result |
| ScrollTerminalCommand.ScrollTerminalCommand.WithDefaults | src/components/ScrollTerminalCommand.tsx:16-19 | the defaults are typing speed 55, result delay 300, prompt "~" and threshold 0.35 |
| ScrollTerminalCommand.ScrollTerminalCommand.Intersect | src/components/ScrollTerminalCommand.tsx:33-48 | one observer callback, given the first entry of its batch. The latch goes only from false to true, on an intersecting entry, and the typing interval starts then. Later callbacks, and callbacks whose first entry does not intersect, start nothing. The latch holds iff the first entry of some callback intersected |
| ScrollTerminalCommand.ScrollTerminalCommand.Tick | src/components/ScrollTerminalCommand.tsx:50-62 | once triggered, the display grows by one character per tick up to the command; completion comes on tick n + 1 and clears the interval |
| ScrollTerminalCommand.ScrollTerminalCommand.Reveal | src/components/ScrollTerminalCommand.tsx:58-60 | the result follows completion by `resultDelay` and never comes before it |
| ScrollTerminalCommand.ScrollTerminalCommand.Unmount | src/components/ScrollTerminalCommand.tsx:43-64 | cleanup clears the interval only |
| ScrollTerminalCommand.ScrollTerminalCommand.Cues | src/components/ScrollTerminalCommand.tsx:76-84 | the caret shows iff triggered and not complete, and the hint iff not triggered. The two never show together, and while the hint shows the display is empty and no result is shown |
| ScrollTerminalCommand.ScrollTerminalCommand.ObserveAway | src/components/ScrollTerminalCommand.tsx:21-48 | an instance whose callbacks only ever see a first entry that does not intersect starts no timer, shows nothing and never shows its result |
| ScrollTerminalCommand.ScrollTerminalCommand.RunToReveal | src/components/ScrollTerminalCommand.tsx:47-65 | once triggered, the timers type the whole command in order and reveal at (n + 1) × speed + delay after the trigger |
| BootLoader.Progress | src/components/BootLoader.tsx:129 | `Math.round(k / n * 100)` is the integer nearest 100k/n, with halves rounded up |
| BootLoader.ProgressMonotone | src/components/BootLoader.tsx:124-129 | finishing more lines never lowers the percentage |
| BootLoader.ProgressFull | src/components/BootLoader.tsx:129 | the percentage is at most 100, and it is 100 iff every line is done (for fewer than 200 lines) |
| BootLoader.BootProgress | src/components/BootLoader.tsx:129 | for the four boot lines the bar reads 0, 25, 50, 75, 100 |
| BootLoader.OnlyLastIsSuccess | src/components/BootLoader.tsx:96 | a line is styled as success iff it contains '✔', which holds for the last boot line only |
| BootLoader.IsSuccess | src/components/BootLoader.tsx:96 | a finished line gets the success colour iff its text contains '✔' |
| BootLoader.BootDuration | src/components/BootLoader.tsx:15-55 | the whole boot, up to the `onComplete` call, takes 6620 ms: each line takes (length + 1) ticks at its own delay, plus 400 ms, and the final handover adds 800 ms |
| BootLoader.TypeStep | src/components/BootLoader.tsx:44-53 | a typing tick either shows one more character with a key sound, or, after the last character, makes the enter sound |
| BootLoader.AdvanceStep | src/components/BootLoader.tsx:39-52 | advancing starts the next line from an empty display, or after the last line makes the final enter sound |
| BootLoader.BootLoader.constructor | src/components/BootLoader.tsx:10-43 | mounting starts typing line 0 from an empty display, with the cursor shown |
| BootLoader.BootLoader.FinishedLines | src/components/BootLoader.tsx:85 | the finished lines shown are exactly the first `currentLine` boot lines, in order |
| BootLoader.BootLoader.ShowsCurrentLine | src/components/BootLoader.tsx:102 | the line being typed, with its cursor, is rendered iff some boot line is not yet finished |
| BootLoader.BootLoader.Percent | src/components/BootLoader.tsx:124-129 | the percentage is at most 100, and it is 100 iff the in-progress line is no longer shown |
| BootLoader.BootLoader.TypeTick | src/components/BootLoader.tsx:43-55 | the display of the current line stays its prefix of length `charIndex`, growing one character per tick. The tick after the last character clears the interval, calls the enter sound and schedules the advance |
| BootLoader.BootLoader.Advance | src/components/BootLoader.tsx:30-53 | `currentLine` goes up by exactly one and the finished lines gain that line. If lines remain, the display resets to "" and typing starts; otherwise no interval starts, the enter sound plays and `onComplete` is scheduled |
| BootLoader.BootLoader.Complete | src/components/BootLoader.tsx:33-35 | `onComplete` is called once, 800 ms after the final enter sound |
| BootLoader.BootLoader.Blink | src/components/BootLoader.tsx:22-25 | each blink tick negates the cursor |
| BootLoader.BootLoader.BlinkTwice | src/components/BootLoader.tsx:22-25 | two blink ticks restore the cursor |
| BootLoader.BootLoader.RunBoot | src/components/BootLoader.tsx:22-58 | from mount, all four lines are typed and finished in order; `onComplete` is called exactly once, at 6620 ms, with the bar at 100 |
| CertificateModal.ZoomIn | src/components/CertificateModal.tsx:54 | zoom in is min(z + 0.25, 3): one quarter up below the top, unchanged at 3, and it stays in [0.5, 3] |
| CertificateModal.ZoomOut | src/components/CertificateModal.tsx:55 | zoom out is max(z − 0.25, 0.5): one quarter down above the bottom, unchanged at 0.5, and it stays in [0.5, 3] |
| CertificateModal.ZoomRoundTrip | src/components/CertificateModal.tsx:54-55 | zooming in and out undo each other away from the bounds; zoom in changes nothing exactly at 3, and zoom out exactly at 0.5 |
| CertificateModal.ZoomPercent | src/components/CertificateModal.tsx:200 | the label round(zoom × 100) is 25q, a multiple of 25 in [50, 300] |
| CertificateModal.ZoomAfterKey | src/components/CertificateModal.tsx:32-37 | '+' and '=' zoom in, '-' zooms out, and any other key leaves zoom alone |
| CertificateModal.ZoomAfterKeysInRange | src/components/CertificateModal.tsx:32-37 | starting in range, any sequence of key presses keeps zoom in [0.5, 3] |
| CertificateModal.ZoomInPresses | src/components/CertificateModal.tsx:32-33 | m presses of '+' or '=' below the top raise zoom by exactly m quarters |
| CertificateModal.SkipWhitespace | src/components/CertificateModal.tsx:61 | what is dropped is a run of whitespace, and what is left is a suffix of the input that does not start with whitespace |
| CertificateModal.IsWhitespace | src/components/CertificateModal.tsx:61 | `\s` is the ECMAScript WhiteSpace and LineTerminator set. It includes space, tab, newline and no-break space, and excludes letters, digits, '_' and '.' |
| CertificateModal.CollapseWhitespace | src/components/CertificateModal.tsx:61 | `replace(/\s+/g, '_')` never lengthens the name and empties only the empty name |
| CertificateModal.CollapseLeavesNoWhitespace | src/components/CertificateModal.tsx:61 | the download name holds no whitespace |
| CertificateModal.CollapseCopiesWord | src/components/CertificateModal.tsx:61 | a stretch without whitespace is copied unchanged |
| CertificateModal.CollapseRun | src/components/CertificateModal.tsx:61 | a maximal run of whitespace, of any length, becomes a single '_' |
| CertificateModal.CollapseJoinsWords | src/components/CertificateModal.tsx:61 | two words separated by any whitespace run are joined by exactly one '_' |
| CertificateModal.CollapseIdempotent | src/components/CertificateModal.tsx:61 | collapsing an already collapsed name changes nothing |
| CertificateModal.HasImage | src/components/CertificateModal.tsx:58 | `certificate?.image` is truthy: a certificate is present and its image is a non-empty string |
| CertificateModal.DownloadName | src/components/CertificateModal.tsx:57-63 | a file is downloaded iff the certificate has a non-empty image, and it is then named collapse(name) + ".png" |
| CertificateModal.CertificateModal.constructor | src/components/CertificateModal.tsx:19-22 | zoom starts at 1, not fullscreen, no image error |
| CertificateModal.CertificateModal.Rendered | src/components/CertificateModal.tsx:72 | the dialog, with its zoom, fullscreen, download and close buttons, exists only while the viewer is open and a certificate is given |
| CertificateModal.CertificateModal.SetProps | src/components/CertificateModal.tsx:38-52 | a parent render sets the props. The open effect re-runs when `isOpen` changes or a new `onClose` arrives. If it runs with the modal open, zoom goes back to 1 and the image error clears; otherwise both stay as they were. Fullscreen and the close count are untouched |
| CertificateModal.CertificateModal.SetFullscreen | src/components/CertificateModal.tsx:21-52 | while open, a change of fullscreen re-runs the open effect, which resets zoom and the image error |
| CertificateModal.CertificateModal.HandleKeyDown | src/components/CertificateModal.tsx:24-42 | Escape in fullscreen leaves fullscreen and does not close. Escape otherwise calls `onClose` once and leaves fullscreen unchanged. '+', '=' and '-' zoom; other keys change nothing; a closed modal ignores keys |
| CertificateModal.CertificateModal.ZoomInClick | src/components/CertificateModal.tsx:54 | the zoom-in button and a click on the image apply the zoom-in clamp |
| CertificateModal.CertificateModal.ZoomOutClick | src/components/CertificateModal.tsx:55 | the zoom-out button applies the zoom-out clamp |
| CertificateModal.CertificateModal.ToggleFullscreen | src/components/CertificateModal.tsx:66-69 | negates fullscreen and sets zoom to 1 |
| CertificateModal.CertificateModal.CloseClick | src/components/CertificateModal.tsx:119 | the close button and the backdrop each call `onClose` once |
| CertificateModal.CertificateModal.ImageFailed | src/components/CertificateModal.tsx:133-146 | a load error hides the image and shows the placeholder |
| CertificateModal.CertificateModal.ImageShown | src/components/CertificateModal.tsx:133 | the image and its download button are rendered only when a download would produce a file |
| CertificateModal.CertificateModal.ZoomOutDisabled | src/components/CertificateModal.tsx:195 | `zoom <= 0.5`: while enabled, a click lowers zoom by exactly one quarter, and while disabled (in range) it changes nothing |
| CertificateModal.CertificateModal.ZoomInDisabled | src/components/CertificateModal.tsx:208 | `zoom >= 3`: while enabled, a click raises zoom by exactly one quarter, and while disabled (in range) it changes nothing |
| CertificateModal.CertificateModal.DisabledButtonsAreNoOps | src/components/CertificateModal.tsx:190-208 | zoom-out is disabled iff zoom ≤ 0.5 and zoom-in iff zoom ≥ 3, which is exactly when a click would change nothing |
| CertificateModal.CertificateModal.Download | src/components/CertificateModal.tsx:57-64 | the download button yields a file name iff there is an image, and the name is the collapsed certificate name plus ".png" |
| TypingSound.TypingSound.constructor | src/hooks/useTypingSound.ts:8-37 | not muted, no user interaction, no audio context, and all three one-shot listeners registered |
| TypingSound.TypingSound.HandleInteraction | src/hooks/useTypingSound.ts:27-37 | the first click, keydown or touchstart sets the latch, which never clears. Its listener is removed. The audio context is created only when there is none, so at most once |
| TypingSound.TypingSound.Unmount | src/hooks/useTypingSound.ts:39-43 | cleanup removes the remaining listeners |
| TypingSound.TypingSound.ToggleMute | src/hooks/useTypingSound.ts:110-112 | toggling negates `isMuted` |
| TypingSound.TypingSound.PlayKeySound | src/hooks/useTypingSound.ts:46-48 | a key click is produced iff the hook is enabled, not muted, not reduced-motion, the user has interacted and a context exists |
| TypingSound.TypingSound.PlayEnterSound | src/hooks/useTypingSound.ts:82-84 | the enter sound sits behind exactly the same gate |
| TypingSound.ToggleMuteTwice | src/hooks/useTypingSound.ts:110-112 | toggling twice restores both the mute state and the gate |
| TypingSound.MuteIsPerInstance | src/hooks/useTypingSound.ts:11 | toggling one hook instance's mute leaves another instance's gate unchanged |
| TypingSound.SilentUntilGestureAndWhileMuted | src/hooks/useTypingSound.ts:46-48 | nothing sounds before the first gesture or while muted, and a sound implies the one audio context exists |
| TypingSound.SoundGate | src/hooks/useTypingSound.ts:46-48 | a sound starts iff enabled, not muted, motion allowed, the user has interacted and an audio context exists |
| TypingSound.PageToggleAsWritten | src/pages/Index.tsx:18-53 | with the page wired as written, after a click and one press of the sound button, the button shows "muted" while a sequencer still sounds |
| TypingSound.SharedToggle | src/contexts/SoundContext.tsx:13-20 | with one instance shared by the button and the sequencers, the button's mute state is the sequencers' mute state: while it shows "muted" nothing sounds |
| TypingSound.PageToggleCorrected | src/contexts/SoundContext.tsx:13-20 | with the shared instance, the same click and button press leave the sequencer silent |
| ScrollAnimation.InViewAfter | src/hooks/useScrollAnimation.ts:28-33 | the element is in view only after some entry has intersected |
| ScrollAnimation.LatchWithoutReset | src/hooks/useScrollAnimation.ts:15-33 | without `resetOnExit`, in view stays in view whatever follows |
| ScrollAnimation.ResetFollowsLatest | src/hooks/useScrollAnimation.ts:28-33 | with `resetOnExit`, the latest entry alone decides |
| ScrollAnimation.ScrollAnimation.constructor | src/hooks/useScrollAnimation.ts:12-20 | both flags start false; the options are kept |
| ScrollAnimation.ScrollAnimation.OnEntry | src/hooks/useScrollAnimation.ts:27-34 | an intersecting entry sets both flags. A leaving entry clears only `isInView`, and only with `resetOnExit`. `hasAnimated` never clears, and `isInView` implies `hasAnimated` after any entries |
| Navigation.Navigation.constructor | src/components/Navigation.tsx:9-11 | menu closed, not scrolled, and no active section, so no item is highlighted |
| Navigation.Navigation.HandleScroll | src/components/Navigation.tsx:22-24 | `scrolled` holds iff scrollY > 50, strictly |
| Navigation.Navigation.HandleEntries | src/components/Navigation.tsx:34-39 | after a batch of entries the active section is the batch's fold over its entries in order |
| Navigation.LastIntersecting | src/components/Navigation.tsx:35-39 | after a batch, the active section is either the one before the batch or the id of one of the batch's intersecting entries |
| Navigation.Navigation.IsActive | src/components/Navigation.tsx:107 | a nav item is highlighted iff its label is the active section |
| Navigation.NoIntersectionKeepsSection | src/components/Navigation.tsx:35-39 | a batch with no intersecting entry leaves the active section unchanged |
| Navigation.LastIntersectingWins | src/components/Navigation.tsx:35-39 | otherwise the active section becomes the id of the last intersecting entry |
| Navigation.TargetIdDropsFirstHash | src/components/Navigation.tsx:54 | the target id is the href with only its first '#' removed |
| Navigation.TargetId | src/components/Navigation.tsx:54 | `href.replace('#', '')` is one character shorter than the href when the href holds a '#', and as long otherwise |
| Navigation.NavTargetsAreLabels | src/components/Navigation.tsx:13-19 | each nav link targets the section its label names, and no label is empty |
| Navigation.ScrollDestination | src/components/Navigation.tsx:58-59 | `offsetPosition`: after the scroll the section's top sits `SCROLL_OFFSET` (72) px below the top of the viewport, which clears the `NAVBAR_HEIGHT` (64) px navigation bar |
| Navigation.Navigation.HandleNavClick | src/components/Navigation.tsx:52-68 | scrolls iff an element with the target id exists, to that element's destination. The mobile menu is closed afterwards either way |
| Navigation.Navigation.ToggleMenu | src/components/Navigation.tsx:131 | the menu button negates `isOpen` |
| ProjectsSection.TypeColor | src/components/ProjectsSection.tsx:38-45 | maps "AI/ML", "Full-Stack" and "Analytics" to cyan, purple and green. Every other type, and only those, gets "terminal-text" |
| ProjectsSection.Slug | src/components/ProjectsSection.tsx:73 | the slug has the name's length and no space; each character is the lower-cased name character, or '-' where the name has a space |
| ProjectsSection.ReadmeTitle | src/components/ProjectsSection.tsx:73 | the title is the slug followed by "/README.md", and it contains no space |
| ProjectsSection.DashboardTitle | src/components/ProjectsSection.tsx:73 | "Data Analysis Dashboard" gets the title "data-analysis-dashboard/README.md" |
| SkillsSection.ScriptTitle | src/components/SkillsSection.tsx:67 | no category title contains a space, and every title ends in ".sh" |
| SkillsSection.AiTitle | src/components/SkillsSection.tsx:67 | "AI & Machine Learning" becomes "ai_machine_learning.sh" |
| SkillsSection.WebTitle | src/components/SkillsSection.tsx:67 | "Web Development" becomes "web_development.sh" |
| SkillsSection.DataTitle | src/components/SkillsSection.tsx:67 | "Data & Analytics" becomes "data_analytics.sh" |
| SkillsSection.ToolsTitle | src/components/SkillsSection.tsx:67 | "Tools & Technologies" becomes "tools_technologies.sh" |
| SkillsSection.AmpersandTitle | src/components/SkillsSection.tsx:67 | any name lower-casing to "a & b", for two words without spaces, is titled "a_b.sh" |
| SkillsSection.SpaceTitle | src/components/SkillsSection.tsx:67 | any name lower-casing to "a b", for two words without spaces, is titled "a_b.sh" |
| SkillsSection.AmpersandSpaceTitle | src/components/SkillsSection.tsx:67 | any name lower-casing to "a & b c", for three words without spaces, has both the separator and the remaining space replaced: "a_b_c.sh" |
| SkillsSection.NoSeparatorBetweenWords | src/components/SkillsSection.tsx:67 | a single space between two words without spaces is never taken for " & ", whatever the words contain |
| SkillsSection.SpacesFirstKeepsAmpersand | src/components/SkillsSection.tsx:67 | with the two replacements swapped, "a & b c" would become "a_&_b_c.sh": the '&' survives |
| SkillsSection.ReplacementOrderMatters | src/components/SkillsSection.tsx:67 | replacing the spaces first would leave "ai_&_machine_learning.sh", a different title |
| Text.ReplaceCharAt | src/components/ProjectsSection.tsx:73 | a global one-character replace keeps the length and changes exactly the matching positions |
| Text.Lower | src/components/ProjectsSection.tsx:73 | lower-casing keeps the length and lower-cases each character on its own, changing ASCII capitals only |
| Text.ReplaceAll | src/components/SkillsSection.tsx:67 | `replace(/pat/g, rep)` for a literal pattern: occurrences are replaced left to right without overlap, and scanning resumes after each replacement |
| Text.ReplaceAfterWord | src/components/SkillsSection.tsx:67 | a prefix that cannot start an occurrence is copied, the occurrence after it is replaced, and scanning resumes right after it |
| Text.ReplaceAllMiss | src/components/SkillsSection.tsx:67 | a string lacking some character of the pattern is returned unchanged |
| Text.ReplaceAllRemoves | src/components/SkillsSection.tsx:67 | after a global replace of a character, none of it is left unless the replacement brings it back |

## Left out

- Rendering and styling are not modelled. All markup, class strings, framer-motion
  animations and spring settings are presentation only.
- Audio synthesis is not modelled.
  - The oscillators, gains and filters, the `Math.random` pitch, and the mobile
    volume halving are left out.
  - The volume options (0.3 default, 0.25 for TerminalCommand, 0.35 for BootLoader)
    appear only as percent constants.
  - "Played" stands for a sound being started.
- Browser plumbing is not modelled; scroll positions and element tops are plain
  integer parameters.
  - IntersectionObserver geometry: thresholds and root margins are kept as
    constants only, and entries are booleans.
  - `getBoundingClientRect`, `window.scrollTo` and `matchMedia` (reduced motion is a
    constructor parameter).
  - `innerWidth`, `document.body.style.overflow`, and adding and removing listeners.
- Sound callbacks are treated as stable. In the code, `playKeySound` and
  `playEnterSound` are re-created when the sound hook's state changes, for example
  on the first user gesture. Because they are listed as effect dependencies, that
  restarts typing in `TerminalCommand` and `BootLoader`. It can also schedule a
  second reveal or a second `onComplete` from a timeout that was never cleared. The
  model treats the callbacks as stable and does not capture these restarts.
- React scheduling is abstracted.
  - Each timer callback and the effect it triggers run as one atomic step.
  - An interval tick and its effect are never interleaved with other events.
- Reveal timeouts are not cancelled on teardown. Cleanup clears only the interval,
  so the model lets `Reveal` fire after `Unmount` and promises nothing about
  cancelling it.
- BootLoader.BootLoader: no unmount is modelled. The page removes the boot screen
  only in response to `onComplete`, after every timer of the sequence has fired. The
  cursor interval is modelled; its cleanup is not.
- BootLoader.Progress: exact rational rounding of k / n × 100. It agrees with the
  floating-point expression for the four boot lines, where every quotient is exact.
- BootLoader.ProgressFull: states "100 iff all lines done" only for fewer than 200
  lines. With 200 or more lines, rounding reaches 100 one line early.
- Text.Lower: `toLowerCase` is modelled for ASCII letters only. Every name in the
  page is ASCII. Full Unicode case mapping is left out.
- Whitespace matching: `\s` in the file-name regex is the ECMAScript WhiteSpace and
  LineTerminator set, as stated in `CertificateModal.IsWhitespace`.
- Observer batches: both scroll observers destructure `([entry])` and read only the
  first entry of each callback. `ScrollTerminalCommand.ScrollTerminalCommand.Intersect`
  and `ScrollAnimation.ScrollAnimation.OnEntry` therefore take that first entry's
  flag, and the ghost histories record one flag per callback. The later entries of a
  batch, which the code ignores, are not represented.
- String lengths: JavaScript `length` and `slice` count UTF-16 code units, while
  `seq<char>` counts Unicode scalar values. The two agree for every string on the
  page, since all of them, ✔ (U+2714) included, lie in the Basic Multilingual Plane.
  A character outside it would count as two ticks in the code and one in the model.
- TypingSound.TypingSound.HandleInteraction: assumes `new AudioContext()` succeeds.
  If the constructor throws, the code has already set `hasUserInteracted` but holds
  no context, so the gate stays closed. `Valid()` ties the two together and cannot
  represent that state.
- The remaining components are not part of this model: ContactSection,
  ExperienceSection, AboutSection, HeroSection, Footer, TerminalWindow, SoundToggle
  and CursorGlow. They are static content, wrappers or glue. From pages/Index.tsx and
  contexts/SoundContext.tsx only the sound-button wiring is modelled, under
  "Findings".
- The certificate's issuer, date and credential link are carried as data but drive
  no logic.

## Findings

| source | as written | input that shows it | evidently intended | confidence | as-written member | corrected member |
|---|---|---|---|---|---|---|
| src/pages/Index.tsx:18-53 | the sound button toggles the page's own `useTypingSound()` instance. `TerminalCommand` and `BootLoader`, the components that play sounds, each call the hook themselves and read their own `isMuted`, so the button mutes nothing that plays | one click anywhere (audio unlocked), then one press of the sound button: the button shows "muted", and the next typing tick of a `TerminalCommand` still plays its key sound | one instance shared by the button and the sequencers, as the unused provider in `SoundContext` offers, so that "muted" silences all typing sounds | not executed; high, from the wiring of the two hook calls | TypingSound.PageToggleAsWritten | TypingSound.PageToggleCorrected |
