/**
 * The `ChatMessage` component: a user message shows its content at once; any
 * other message types its content out one character per interval tick, with
 * the caret shown while it animates.
 *
 * The effect depends on `content` and `isUser`; a render that changes either
 * clears the running interval and runs the effect again.
 */
module ChatMessage {
  import opened Typewriter

  class Message {
    // props
    var content: Text
    var isUser: bool
    // state hooks
    var displayedContent: Text
    var isAnimating: bool
    // the running interval, if any, and its `currentIndex`
    var ticking: bool
    var index: nat

    function Progress(): Reveal
      reads this
    {
      Reveal(displayedContent, isAnimating, index, ticking)
    }

    /**
     * A running interval types the current content of a message that is not
     * the user's; a user message always shows its whole content.
     */
    predicate Valid()
      reads this
    {
      && Revealing(Progress(), content)
      && (ticking ==> !isUser)
      && (isUser ==> displayedContent == content)
    }

    /** Mount: nothing shown, not animating, then the effect. */
    constructor (content: Text, isUser: bool)
      ensures Valid() && this.content == content && this.isUser == isUser
      ensures isUser ==> Progress() == Reveal(content, false, 0, false)
      ensures !isUser ==> Progress() == Start()
    {
      this.content, this.isUser := content, isUser;
      displayedContent, isAnimating := [], false;
      ticking, index := false, 0;
      new;
      Effect();
    }

    /**
     * The effect body: a message that is not the user's starts typing from
     * nothing; a user message shows its content and leaves `isAnimating` as it is.
     */
    method Effect()
      requires !ticking
      modifies this
      ensures !isUser ==> Progress() == Start()
      ensures isUser ==> Progress() == old(Progress()).(shown := content)
      ensures content == old(content) && isUser == old(isUser)
    {
      if !isUser {
        isAnimating := true;
        displayedContent := [];
        index := 0;
        ticking := true;
      } else {
        displayedContent := content;
      }
    }

    /**
     * A render with new props. When a dependency differs, the old interval is
     * cleared and the effect runs again, so new content restarts the reveal
     * from nothing; otherwise nothing happens.
     */
    method Render(content': Text, isUser': bool)
      requires Valid()
      modifies this
      ensures Valid() && content == content' && isUser == isUser'
      ensures (content', isUser') == old((content, isUser)) ==> Progress() == old(Progress())
      ensures (content', isUser') != old((content, isUser)) && !isUser' ==> Progress() == Start()
      ensures (content', isUser') != old((content, isUser)) && isUser' ==>
        Progress() == Cancel(old(Progress())).(shown := content')
    {
      if (content', isUser') != (content, isUser) {
        ticking := false;
        content, isUser := content', isUser';
        Effect();
      }
    }

    /** One tick of the interval. */
    method OnTick()
      requires Valid() && ticking
      modifies this
      ensures Valid() && Progress() == Tick(old(Progress()), content)
      ensures content == old(content) && isUser == old(isUser)
    {
      if index <= |content| {
        displayedContent := content[..index];
        index := index + 1;
      } else {
        ticking := false;
        isAnimating := false;
      }
      TickProperties(old(Progress()), content);
    }
  }
}
