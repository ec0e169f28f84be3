/**
 * The certificate viewer: zoom, fullscreen and image-error state driven by
 * keys and buttons, the reset when the modal opens, and the download name.
 *
 * Zoom is kept as a whole number of quarters (zoom = quarters / 4): every
 * value the handlers can produce (1 plus or minus steps of 0.25, clamped to
 * [0.5, 3]) is a multiple of 0.25 and exact in binary floating point.
 */
module CertificateModal {
  import opened Wrappers

  datatype Certificate = Certificate(
    name: string, issuer: string, date: string,
    image: Option<string>, credentialUrl: Option<string>)

  const MinZoom: int := 2       // 0.5
  const MaxZoom: int := 12      // 3
  const DefaultZoom: int := 4   // 1

  /** `prev => Math.min(prev + 0.25, 3)` */
  function ZoomIn(q: int): (r: int)
    ensures MinZoom <= q <= MaxZoom ==> MinZoom <= r <= MaxZoom
    ensures q < MaxZoom ==> r == q + 1
    ensures q >= MaxZoom ==> r == MaxZoom
  {
    if q + 1 < MaxZoom then q + 1 else MaxZoom
  }

  /** `prev => Math.max(prev - 0.25, 0.5)` */
  function ZoomOut(q: int): (r: int)
    ensures MinZoom <= q <= MaxZoom ==> MinZoom <= r <= MaxZoom
    ensures q > MinZoom ==> r == q - 1
    ensures q <= MinZoom ==> r == MinZoom
  {
    if q - 1 > MinZoom then q - 1 else MinZoom
  }

  /** Zooming in and out undo each other away from the bounds. */
  lemma ZoomRoundTrip(q: int)
    requires MinZoom <= q <= MaxZoom
    ensures q < MaxZoom ==> ZoomOut(ZoomIn(q)) == q
    ensures q > MinZoom ==> ZoomIn(ZoomOut(q)) == q
    ensures q == MaxZoom <==> ZoomIn(q) == q
    ensures q == MinZoom <==> ZoomOut(q) == q
  {
  }

  /** The percentage label `Math.round(zoom * 100)`: exact, since zoom is a quarter. */
  function ZoomPercent(q: int): (r: int)
    ensures MinZoom <= q <= MaxZoom ==> 50 <= r <= 300
    ensures r % 25 == 0 && r / 25 == q
  {
    25 * q
  }

  /** The zoom change a key press makes: '+' and '=' zoom in, '-' zooms out. */
  function ZoomAfterKey(q: int, key: string): (r: int)
    ensures key == "+" || key == "=" ==> r == ZoomIn(q)
    ensures key == "-" ==> r == ZoomOut(q)
    ensures key !in {"+", "=", "-"} ==> r == q
  {
    if key == "+" || key == "=" then ZoomIn(q)
    else if key == "-" then ZoomOut(q)
    else q
  }

  /** The zoom after a run of key presses, starting from `q`. */
  function ZoomAfterKeys(q: int, keys: seq<string>): int
    decreases |keys|
  {
    if keys == [] then q else ZoomAfterKeys(ZoomAfterKey(q, keys[0]), keys[1..])
  }

  /** However many keys are pressed, zoom stays within [0.5, 3]. */
  lemma {:induction false} ZoomAfterKeysInRange(q: int, keys: seq<string>)
    requires MinZoom <= q <= MaxZoom
    ensures MinZoom <= ZoomAfterKeys(q, keys) <= MaxZoom
    decreases |keys|
  {
    if keys != [] {
      ZoomAfterKeysInRange(ZoomAfterKey(q, keys[0]), keys[1..]);
    }
  }

  /** Pressing '+' (or '=') at most `MaxZoom - q` times climbs exactly that many quarters. */
  lemma {:induction false} ZoomInPresses(q: int, keys: seq<string>)
    requires MinZoom <= q && q + |keys| <= MaxZoom
    requires forall k :: 0 <= k < |keys| ==> keys[k] in {"+", "="}
    ensures ZoomAfterKeys(q, keys) == q + |keys|
    decreases |keys|
  {
    if keys != [] {
      ZoomInPresses(q + 1, keys[1..]);
    }
  }

  /** The characters matched by `\s` in a JavaScript regular expression:
      WhiteSpace and LineTerminator of ECMA-262. */
  predicate IsWhitespace(c: char)
    ensures IsWhitespace(c) ==> !('a' <= c <= 'z' || 'A' <= c <= 'Z' || '0' <= c <= '9' || c == '_' || c == '.')
    ensures c == ' ' || c == '\t' || c == '\n' || c == '\U{00A0}' ==> IsWhitespace(c)
  {
    c == '\t' || c == '\n' || c == '\U{000B}' || c == '\U{000C}' || c == '\r' || c == ' '
    || c == '\U{00A0}' || c == '\U{1680}' || ('\U{2000}' <= c <= '\U{200A}')
    || c == '\U{2028}' || c == '\U{2029}' || c == '\U{202F}' || c == '\U{205F}'
    || c == '\U{3000}' || c == '\U{FEFF}'
  }

  predicate NoWhitespace(s: string)
  {
    forall k :: 0 <= k < |s| ==> !IsWhitespace(s[k])
  }

  /** The rest of `s` after its leading run of whitespace. */
  function SkipWhitespace(s: string): (r: string)
    ensures |r| <= |s| && r == s[|s| - |r|..]
    ensures r == [] || !IsWhitespace(r[0])
    ensures forall k :: 0 <= k < |s| - |r| ==> IsWhitespace(s[k])
  {
    if s != [] && IsWhitespace(s[0]) then SkipWhitespace(s[1..]) else s
  }

  /** `s.replace(/\s+/g, '_')`: each maximal run of whitespace becomes one '_'. */
  function CollapseWhitespace(s: string): (r: string)
    ensures |r| <= |s| && (s == [] <==> r == [])
    decreases |s|
  {
    if s == [] then []
    else if IsWhitespace(s[0]) then "_" + CollapseWhitespace(SkipWhitespace(s))
    else [s[0]] + CollapseWhitespace(s[1..])
  }

  /** The result holds no whitespace at all. */
  lemma {:induction false} CollapseLeavesNoWhitespace(s: string)
    ensures NoWhitespace(CollapseWhitespace(s))
    decreases |s|
  {
    if s != [] {
      if IsWhitespace(s[0]) {
        CollapseLeavesNoWhitespace(SkipWhitespace(s));
      } else {
        CollapseLeavesNoWhitespace(s[1..]);
      }
    }
  }

  /** A stretch without whitespace is copied unchanged. */
  lemma {:induction false} CollapseCopiesWord(w: string, t: string)
    requires NoWhitespace(w)
    ensures CollapseWhitespace(w + t) == w + CollapseWhitespace(t)
  {
    if w != [] {
      var s := w + t;
      assert s[0] == w[0];
      assert s[1..] == w[1..] + t;
      CollapseCopiesWord(w[1..], t);
      CollapseWordStep(s);
      calc {
        CollapseWhitespace(s);
        [w[0]] + CollapseWhitespace(w[1..] + t);
        [w[0]] + (w[1..] + CollapseWhitespace(t));
        ([w[0]] + w[1..]) + CollapseWhitespace(t);
        { assert [w[0]] + w[1..] == w; }
        w + CollapseWhitespace(t);
      }
    } else {
      assert w + t == t;
    }
  }

  /** A leading non-whitespace character is copied. */
  lemma CollapseWordStep(s: string)
    requires s != [] && !IsWhitespace(s[0])
    ensures CollapseWhitespace(s) == [s[0]] + CollapseWhitespace(s[1..])
  {
  }

  /** A maximal run of whitespace becomes a single '_'. */
  lemma CollapseRun(run: string, t: string)
    requires run != [] && forall k :: 0 <= k < |run| ==> IsWhitespace(run[k])
    requires t == [] || !IsWhitespace(t[0])
    ensures CollapseWhitespace(run + t) == "_" + CollapseWhitespace(t)
  {
    SkipRun(run, t);
  }

  lemma {:induction false} SkipRun(run: string, t: string)
    requires forall k :: 0 <= k < |run| ==> IsWhitespace(run[k])
    requires t == [] || !IsWhitespace(t[0])
    ensures SkipWhitespace(run + t) == t
  {
    if run != [] {
      assert (run + t)[1..] == run[1..] + t;
      SkipRun(run[1..], t);
    } else {
      assert run + t == t;
    }
  }

  /** Two words separated by any run of whitespace are joined by one '_'. */
  lemma CollapseJoinsWords(a: string, run: string, b: string)
    requires NoWhitespace(a) && NoWhitespace(b)
    requires run != [] && forall k :: 0 <= k < |run| ==> IsWhitespace(run[k])
    ensures CollapseWhitespace(a + (run + b)) == a + ("_" + b)
  {
    assert b == [] || !IsWhitespace(b[0]);
    var rb := run + b;
    CollapseCopiesWord(a, rb);
    CollapseRun(run, b);
    CollapseCopiesWord(b, []);
    assert b + [] == b;
  }

  /** Collapsing twice is collapsing once. */
  lemma CollapseIdempotent(s: string)
    ensures CollapseWhitespace(CollapseWhitespace(s)) == CollapseWhitespace(s)
  {
    var c := CollapseWhitespace(s);
    CollapseLeavesNoWhitespace(s);
    CollapseCopiesWord(c, []);
    assert c + [] == c;
  }

  /** An image counts only when present and non-empty (`certificate?.image` is truthy). */
  predicate HasImage(certificate: Option<Certificate>)
  {
    certificate.Some? && certificate.value.image.Some? && certificate.value.image.value != ""
  }

  /** The file name `handleDownload` hands to the browser, if it downloads at all. */
  function DownloadName(certificate: Option<Certificate>): (r: Option<string>)
    ensures r.Some? <==> HasImage(certificate)
    ensures r.Some? ==> r.value == CollapseWhitespace(certificate.value.name) + ".png"
  {
    if HasImage(certificate) then Some(CollapseWhitespace(certificate.value.name) + ".png") else None
  }

  /** The modal's state and handlers. `closeRequests` counts calls of `onClose`. */
  class CertificateModal {
    var certificate: Option<Certificate>
    var isOpen: bool
    var zoom: int
    var isFullscreen: bool
    var imageError: bool
    var closeRequests: nat

    ghost predicate Valid()
      reads this
    {
      MinZoom <= zoom <= MaxZoom
    }

    /** Mounting: initial state, then the open effect runs if the modal starts open. */
    constructor (certificate: Option<Certificate>, isOpen: bool)
      ensures Valid()
      ensures this.certificate == certificate && this.isOpen == isOpen
      ensures zoom == DefaultZoom && !isFullscreen && !imageError && closeRequests == 0
    {
      this.certificate := certificate;
      this.isOpen := isOpen;
      zoom := DefaultZoom;
      isFullscreen := false;
      imageError := false;
      closeRequests := 0;
    }

    /** The dialog is on screen only while open with a certificate. */
    predicate Rendered()
      reads this
    {
      isOpen && certificate.Some?
    }

    /** A render by the parent with new props. `onCloseReplaced` says whether
        the `onClose` it passes is a different function from the last one
        (an inline closure is new on every parent render). The open effect
        re-runs when `isOpen` changes or when `handleKeyDown`, which depends
        on `onClose`, is re-created; when it runs with the modal open it
        resets zoom and the image error. */
    method SetProps(newCertificate: Option<Certificate>, open: bool, onCloseReplaced: bool)
      requires Valid()
      modifies this
      ensures Valid()
      ensures certificate == newCertificate && isOpen == open
      ensures isFullscreen == old(isFullscreen) && closeRequests == old(closeRequests)
      ensures open && (!old(isOpen) || onCloseReplaced) ==> zoom == DefaultZoom && !imageError
      ensures !(open && (!old(isOpen) || onCloseReplaced)) ==>
        zoom == old(zoom) && imageError == old(imageError)
    {
      var effectRuns := open != isOpen || onCloseReplaced;
      certificate := newCertificate;
      isOpen := open;
      if effectRuns && open {
        zoom := DefaultZoom;
        imageError := false;
      }
    }

    /** A change of `isFullscreen` re-creates the key handler, so while the
        modal is open the open effect runs again and resets zoom and the
        image error. */
    method SetFullscreen(value: bool)
      requires Valid()
      modifies this
      ensures Valid()
      ensures isFullscreen == value
      ensures certificate == old(certificate) && isOpen == old(isOpen)
      ensures closeRequests == old(closeRequests)
      ensures isOpen && value != old(isFullscreen) ==> zoom == DefaultZoom && !imageError
      ensures !(isOpen && value != old(isFullscreen)) ==> zoom == old(zoom) && imageError == old(imageError)
    {
      var changed := value != isFullscreen;
      isFullscreen := value;
      if isOpen && changed {
        zoom := DefaultZoom;
        imageError := false;
      }
    }

    /** The document keydown listener, registered only while open. Escape
        leaves fullscreen first and closes only when not fullscreen. */
    method HandleKeyDown(key: string)
      requires Valid()
      modifies this
      ensures Valid()
      ensures certificate == old(certificate) && isOpen == old(isOpen)
      ensures !isOpen ==> (zoom == old(zoom) && isFullscreen == old(isFullscreen)
        && imageError == old(imageError) && closeRequests == old(closeRequests))
      ensures isOpen && key == "Escape" && old(isFullscreen) ==>
        (!isFullscreen && closeRequests == old(closeRequests)
         && zoom == DefaultZoom && !imageError)
      ensures isOpen && key == "Escape" && !old(isFullscreen) ==>
        (!isFullscreen && closeRequests == old(closeRequests) + 1
         && zoom == old(zoom) && imageError == old(imageError))
      ensures isOpen && key != "Escape" ==>
        (zoom == ZoomAfterKey(old(zoom), key) && isFullscreen == old(isFullscreen)
         && imageError == old(imageError) && closeRequests == old(closeRequests))
    {
      if !isOpen {
        return;
      }
      if key == "Escape" {
        if isFullscreen {
          SetFullscreen(false);
        } else {
          closeRequests := closeRequests + 1;
        }
      }
      zoom := ZoomAfterKey(zoom, key);
    }

    /** The zoom-in button and a click on the image. */
    method ZoomInClick()
      requires Valid() && Rendered()
      modifies this`zoom
      ensures Valid() && zoom == ZoomIn(old(zoom))
    {
      zoom := ZoomIn(zoom);
    }

    /** The zoom-out button. */
    method ZoomOutClick()
      requires Valid() && Rendered()
      modifies this`zoom
      ensures Valid() && zoom == ZoomOut(old(zoom))
    {
      zoom := ZoomOut(zoom);
    }

    /** The fullscreen button: flips fullscreen and sets zoom back to 1. */
    method ToggleFullscreen()
      requires Valid() && Rendered()
      modifies this
      ensures Valid()
      ensures isFullscreen == !old(isFullscreen) && zoom == DefaultZoom
      ensures certificate == old(certificate) && isOpen == old(isOpen)
      ensures closeRequests == old(closeRequests) && !imageError
    {
      SetFullscreen(!isFullscreen);
      zoom := DefaultZoom;
    }

    /** The close button and a click on the backdrop. */
    method CloseClick()
      requires Valid() && Rendered()
      modifies this`closeRequests
      ensures Valid() && closeRequests == old(closeRequests) + 1
    {
      closeRequests := closeRequests + 1;
    }

    /** The image failed to load. */
    method ImageFailed()
      requires Valid() && ImageShown()
      modifies this`imageError
      ensures Valid() && imageError && !ImageShown()
    {
      imageError := true;
    }

    /** The image, with its download button, replaces the placeholder only
        when there is an image that has not failed to load. */
    predicate ImageShown()
      reads this
      ensures ImageShown() ==> DownloadName(certificate).Some?
    {
      Rendered() && HasImage(certificate) && !imageError
    }

    /** `disabled={zoom <= 0.5}`: an enabled button lowers zoom by one quarter. */
    predicate ZoomOutDisabled()
      reads this
      ensures !ZoomOutDisabled() ==> ZoomOut(zoom) == zoom - 1
      ensures ZoomOutDisabled() && MinZoom <= zoom ==> ZoomOut(zoom) == zoom
    {
      zoom <= MinZoom
    }

    /** `disabled={zoom >= 3}`: an enabled button raises zoom by one quarter. */
    predicate ZoomInDisabled()
      reads this
      ensures !ZoomInDisabled() ==> ZoomIn(zoom) == zoom + 1
      ensures ZoomInDisabled() && zoom <= MaxZoom ==> ZoomIn(zoom) == zoom
    {
      zoom >= MaxZoom
    }

    /** A click on a disabled zoom button could change nothing anyway. */
    lemma DisabledButtonsAreNoOps()
      requires Valid()
      ensures ZoomInDisabled() <==> ZoomIn(zoom) == zoom
      ensures ZoomOutDisabled() <==> ZoomOut(zoom) == zoom
    {
    }

    /** The download button's effect: the file name it downloads, if any. */
    method Download() returns (fileName: Option<string>)
      requires Rendered()
      ensures fileName.Some? <==> HasImage(certificate)
      ensures fileName.Some? ==> fileName.value == CollapseWhitespace(certificate.value.name) + ".png"
    {
      fileName := DownloadName(certificate);
    }
  }
}
