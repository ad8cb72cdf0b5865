/**
 * The `SpeechBubble` component: it types its text out one character per
 * interval tick while visible, then, when given an `onClose` callback,
 * schedules it 5000 ms later. Nothing is rendered while it is hidden.
 *
 * The effect depends on `text`, `isVisible` and `onClose`; a render that
 * changes any of them clears the running interval and runs the effect again.
 * The interval's closure sees the props of the render that started it, and
 * those are the current props for as long as it runs.
 */
module SpeechBubble {
  import opened Wrappers
  import opened Typewriter

  /** The identity of an `onClose` function: a new function is a new dependency. */
  type Callback = nat

  /** What the bubble renders: the displayed text and whether the caret shows. */
  datatype View = View(text: Text, caret: bool)

  class Bubble {
    // props
    var text: Text
    var isVisible: bool
    var onClose: Option<Callback>
    // state hooks
    var displayedText: Text
    var isTyping: bool
    // the running interval, if any, and its `currentIndex`
    var ticking: bool
    var index: nat
    // `onClose` calls armed with `setTimeout` and not yet run, oldest first
    var closeTimers: seq<Callback>

    function Progress(): Reveal
      reads this
    {
      Reveal(displayedText, isTyping, index, ticking)
    }

    /** A running interval belongs to the current props, which are visible with some text. */
    predicate Valid()
      reads this
    {
      && Revealing(Progress(), text)
      && (ticking ==> isVisible && text != [])
    }

    /** Mount: empty text, not typing, then the effect. */
    constructor (text: Text, isVisible: bool, onClose: Option<Callback>)
      ensures Valid()
      ensures this.text == text && this.isVisible == isVisible && this.onClose == onClose
      ensures Progress() == (if isVisible && text != [] then Start() else Reveal([], false, 0, false))
      ensures closeTimers == []
    {
      this.text, this.isVisible, this.onClose := text, isVisible, onClose;
      displayedText, isTyping := [], false;
      ticking, index := false, 0;
      closeTimers := [];
      new;
      Effect();
    }

    /** The effect body: with the bubble visible and the text not empty, start typing from nothing. */
    method Effect()
      modifies this
      ensures isVisible && text != [] ==> Progress() == Start()
      ensures !(isVisible && text != []) ==> Progress() == old(Progress())
      ensures text == old(text) && isVisible == old(isVisible) && onClose == old(onClose)
      ensures closeTimers == old(closeTimers)
    {
      if isVisible && text != [] {
        isTyping := true;
        displayedText := [];
        index := 0;
        ticking := true;
      }
    }

    /**
     * A render with new props. When a dependency differs, the old interval is
     * cleared and the effect runs again; otherwise nothing happens. Timers
     * already armed for `onClose` are never cancelled.
     */
    method Render(text': Text, isVisible': bool, onClose': Option<Callback>)
      requires Valid()
      modifies this
      ensures Valid()
      ensures text == text' && isVisible == isVisible' && onClose == onClose'
      ensures closeTimers == old(closeTimers)
      ensures (text', isVisible', onClose') == old((text, isVisible, onClose)) ==> Progress() == old(Progress())
      ensures (text', isVisible', onClose') != old((text, isVisible, onClose)) ==>
        Progress() == (if isVisible' && text' != [] then Start() else Cancel(old(Progress())))
    {
      if (text', isVisible', onClose') != (text, isVisible, onClose) {
        ticking := false;
        text, isVisible, onClose := text', isVisible', onClose';
        Effect();
      }
    }

    /** One tick of the interval; when the reveal ends, `onClose` (if given) is armed. */
    method OnTick()
      requires Valid() && ticking
      modifies this
      ensures Valid()
      ensures Progress() == Tick(old(Progress()), text)
      ensures text == old(text) && isVisible == old(isVisible) && onClose == old(onClose)
      ensures closeTimers == old(closeTimers) + (if !ticking && onClose.Some? then [onClose.value] else [])
    {
      if index <= |text| {
        displayedText := text[..index];
        index := index + 1;
      } else {
        isTyping := false;
        ticking := false;
        if onClose.Some? {
          closeTimers := closeTimers + [onClose.value];
        }
      }
      TickProperties(old(Progress()), text);
    }

    /** The oldest 5000 ms timer fires and calls the callback it was armed with. */
    method OnCloseTimer() returns (called: Callback)
      requires closeTimers != []
      modifies this
      ensures called == old(closeTimers)[0] && closeTimers == old(closeTimers)[1..]
      ensures Progress() == old(Progress())
      ensures text == old(text) && isVisible == old(isVisible) && onClose == old(onClose)
    {
      called := closeTimers[0];
      closeTimers := closeTimers[1..];
    }

    /**
     * The interval left to run until it clears itself: the whole text ends up
     * shown, typing is over and `onClose`, if given, is armed exactly once.
     */
    method TypeOut()
      requires Valid() && ticking
      modifies this
      ensures Valid() && !ticking && !isTyping && displayedText == text
      ensures text == old(text) && isVisible == old(isVisible) && onClose == old(onClose)
      ensures closeTimers == old(closeTimers) + (if onClose.Some? then [onClose.value] else [])
    {
      while ticking
        invariant Valid()
        invariant text == old(text) && isVisible == old(isVisible) && onClose == old(onClose)
        invariant ticking ==> closeTimers == old(closeTimers)
        invariant !ticking ==> !isTyping && displayedText == text
        invariant !ticking ==> closeTimers == old(closeTimers) + (if onClose.Some? then [onClose.value] else [])
        decreases if ticking then |text| + 2 - index else 0
      {
        OnTick();
      }
    }

    /** What is rendered: nothing while hidden. */
    function Rendered(): (v: Option<View>)
      reads this
      ensures v.None? <==> !isVisible
      ensures v.Some? ==> v.value.text == displayedText && v.value.caret == isTyping
    {
      if !isVisible then None else Some(View(displayedText, isTyping))
    }
  }

  /**
   * Shown a text from mount, the bubble ends up showing all of it without the
   * caret. It types the text out and arms the close timer once when a callback
   * is given; with an empty text nothing is typed and nothing is armed.
   */
  method ShowAndType(text: Text, onClose: Option<Callback>) returns (b: Bubble)
    ensures b.Rendered() == Some(View(text, false))
    ensures b.closeTimers == if text != [] && onClose.Some? then [onClose.value] else []
  {
    b := new Bubble(text, true, onClose);
    if text != [] {
      b.TypeOut();
    }
  }
}
