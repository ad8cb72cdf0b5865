/**
 * The typewriter reveal shared by the speech bubble and the chat message: an
 * interval whose closure holds a `currentIndex`, shows the first `currentIndex`
 * characters on each tick and moves the index on, and, once the index has
 * passed the length, ends the typing flag and clears itself.
 */
module Typewriter {

  /** One UTF-16 code unit: what `length` counts and `slice` cuts in a JavaScript string. */
  newtype CodeUnit = x: int | 0 <= x < 0x1_0000

  /** A JavaScript string, as the code units it is made of. */
  type Text = seq<CodeUnit>

  /**
   * The displayed text, the typing flag, the closure's `currentIndex` and
   * whether its interval still runs.
   */
  datatype Reveal = Reveal(shown: Text, typing: bool, next: nat, running: bool)

  /** What the effect does when it starts a reveal: typing, nothing shown, index 0, interval set. */
  function Start(): Reveal {
    Reveal([], true, 0, true)
  }

  /** One interval tick. */
  function Tick(r: Reveal, text: Text): Reveal
    requires r.running
  {
    if r.next <= |text| then r.(shown := text[..r.next], next := r.next + 1)
    else r.(typing := false, running := false)
  }

  /** The effect's cleanup: the interval is cleared, the state hooks keep their values. */
  function Cancel(r: Reveal): (c: Reveal)
    ensures !c.running && c.shown == r.shown && c.typing == r.typing
  {
    r.(running := false)
  }

  /** How many characters are shown once the index has reached `next`: one fewer, except at the start. */
  function ShownLength(next: nat): nat {
    if next == 0 then 0 else next - 1
  }

  /**
   * What holds while the interval runs: typing, the index at most one past
   * the length, and the first `ShownLength(next)` characters shown.
   */
  predicate Revealing(r: Reveal, text: Text) {
    r.running ==> r.typing && r.next <= |text| + 1 && r.shown == text[..ShownLength(r.next)]
  }

  /** `r` after up to `n` ticks; ticks after the interval has cleared itself change nothing. */
  function Ticks(r: Reveal, text: Text, n: nat): Reveal
    decreases n
  {
    if n == 0 then r
    else
      var m := Ticks(r, text, n - 1);
      if m.running then Tick(m, text) else m
  }

  /**
   * A tick keeps the reveal going and the displayed text a prefix of the text.
   * While the index is within the length, the text shown is exactly its first
   * `next` characters, one more than before except at the first tick; once
   * the index has passed the length, typing ends, the interval stops and the
   * whole text is shown.
   */
  lemma TickProperties(r: Reveal, text: Text)
    requires r.running && Revealing(r, text)
    ensures var t := Tick(r, text);
      && Revealing(t, text)
      && |t.shown| <= |text| && t.shown == text[..|t.shown|]
      && (r.next <= |text| ==> t.running && t.typing && |t.shown| == r.next && t.next == r.next + 1)
      && (0 < r.next <= |text| ==> |t.shown| == |r.shown| + 1)
      && (r.next > |text| ==> !t.running && !t.typing && t.shown == text)
  {
  }

  /**
   * From the start, after `k` ticks with `k <= |text| + 1` the reveal is still
   * typing and shows the first `k - 1` characters (none for `k == 0`); from
   * `|text| + 2` ticks on, it shows the whole text and has stopped.
   */
  lemma {:induction false} TicksFromStart(text: Text, k: nat)
    ensures Ticks(Start(), text, k)
         == if k <= |text| + 1 then Reveal(text[..ShownLength(k)], true, k, true)
            else Reveal(text, false, |text| + 1, false)
    decreases k
  {
    if k > 0 {
      TicksFromStart(text, k - 1);
      if k - 1 <= |text| + 1 {
        assert Revealing(Ticks(Start(), text, k - 1), text);
      }
    }
  }

  /** The reveal ends after exactly `|text| + 2` ticks, with the whole text shown and typing over. */
  lemma RevealEnds(text: Text)
    ensures Ticks(Start(), text, |text| + 2) == Reveal(text, false, |text| + 1, false)
    ensures forall k :: 0 <= k <= |text| + 1 ==> Ticks(Start(), text, k).typing
  {
    TicksFromStart(text, |text| + 2);
    forall k | 0 <= k <= |text| + 1
      ensures Ticks(Start(), text, k).typing
    {
      TicksFromStart(text, k);
    }
  }

  /**
   * A character outside the Basic Multilingual Plane is two code units (here
   * U+1F600 as `D83D DE00`): the reveal shows its first half alone after the
   * second tick, and ends after four ticks, one more than a one-unit text takes.
   */
  lemma SurrogatePairRevealedInHalves()
    ensures var emoji: Text := [0xD83D, 0xDE00];
      && Ticks(Start(), emoji, 2) == Reveal([0xD83D], true, 2, true)
      && Ticks(Start(), emoji, 3).running
      && Ticks(Start(), emoji, 4) == Reveal(emoji, false, 3, false)
  {
    var emoji: Text := [0xD83D, 0xDE00];
    TicksFromStart(emoji, 2);
    assert emoji[..1] == [0xD83D];
    TicksFromStart(emoji, 3);
    TicksFromStart(emoji, 4);
  }
}
