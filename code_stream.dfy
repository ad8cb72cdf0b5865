/**
 * The `CodeStream` decoration: while active, every 1500 ms an interval puts a
 * randomly chosen code snippet on top of the list and keeps at most four of
 * the earlier lines under it; while inactive the list is empty and nothing is
 * rendered. Lines further down are drawn fainter.
 *
 * The random choice is an input: the snippet index, in `[0, 10)`.
 */
module CodeStream {
  import opened Wrappers

  const Snippets: seq<string> := [
    "NEURAL_NET.initialize()",
    "AUDIO_PROC.start()",
    "VOICE_REC.analyze()",
    "NLP.process_intent()",
    "RESPONSE.generate()",
    "SECURITY.validate()",
    "MEMORY.store()",
    "LEARNING.adapt()",
    "PROTOCOL.secure()",
    "SYSTEM.optimize()"
  ]

  /** `Math.floor(Math.random() * codeSnippets.length)`. */
  type Pick = i: nat | i < 10

  /** The most lines kept: the new one and four earlier ones. */
  const MaxLines := 5

  function Min(a: nat, b: nat): nat {
    if a < b then a else b
  }

  /** The interval's update of `lines`: the picked snippet, then the first four earlier lines. */
  function NextLines(prev: seq<string>, pick: Pick): seq<string> {
    [Snippets[pick]] + prev[..Min(|prev|, 4)]
  }

  /** A list the stream can hold: at most five lines, each one of the snippets. */
  predicate Bounded(lines: seq<string>) {
    |lines| <= MaxLines && forall i :: 0 <= i < |lines| ==> lines[i] in Snippets
  }

  /**
   * A tick adds exactly one line, on top, and it is the picked snippet; under
   * it come the earlier lines in order, cut to four, so the list grows by one
   * up to five lines and stays bounded.
   */
  lemma NextLinesProperties(prev: seq<string>, pick: Pick)
    ensures var next := NextLines(prev, pick);
      && |next| == Min(|prev| + 1, MaxLines)
      && next[0] == Snippets[pick] && next[0] in Snippets
      && next[1..] == prev[..Min(|prev|, 4)]
      && (Bounded(prev) ==> Bounded(next))
  {
    var next := NextLines(prev, pick);
    assert next[1..] == prev[..Min(|prev|, 4)];
  }

  /** The lines after a run of ticks from the empty list, one pick per tick. */
  function LinesAfter(picks: seq<Pick>): seq<string>
    decreases |picks|
  {
    if picks == [] then [] else NextLines(LinesAfter(picks[..|picks| - 1]), picks[|picks| - 1])
  }

  /** The snippets of the last (up to) five picks, newest first. */
  function LatestFirst(picks: seq<Pick>): (lines: seq<string>)
    ensures |lines| == Min(|picks|, MaxLines)
  {
    seq(Min(|picks|, MaxLines), i requires 0 <= i < Min(|picks|, MaxLines) => Snippets[picks[|picks| - 1 - i]])
  }

  /** The latest picks, newest first, are the last pick followed by the earlier ones' list cut to four. */
  lemma LatestFirstStep(picks: seq<Pick>)
    requires picks != []
    ensures var init := picks[..|picks| - 1];
      LatestFirst(picks) == [Snippets[picks[|picks| - 1]]] + LatestFirst(init)[..Min(|init|, 4)]
  {
    var init := picks[..|picks| - 1];
    var l := [Snippets[picks[|picks| - 1]]] + LatestFirst(init)[..Min(|init|, 4)];
    var r := LatestFirst(picks);
    assert |l| == |r|;
    forall i | 0 <= i < |l|
      ensures l[i] == r[i]
    {
      if i > 0 {
        assert l[i] == LatestFirst(init)[i - 1] == Snippets[init[|init| - i]];
      }
    }
  }

  /**
   * Whatever the picks, the list shows the snippets of the latest five
   * picks, newest first: the buffer keeps its bound and its order.
   */
  lemma {:induction false} LinesAfterAreLatestFirst(picks: seq<Pick>)
    ensures LinesAfter(picks) == LatestFirst(picks)
    decreases |picks|
  {
    if picks != [] {
      LinesAfterAreLatestFirst(picks[..|picks| - 1]);
      LatestFirstStep(picks);
    }
  }

  /** The opacity class of the line at `index`: full on top, then 20 less per line, never under 20. */
  function Opacity(index: nat): nat {
    if index == 0 then 100 else if 100 - 20 * index > 20 then 100 - 20 * index else 20
  }

  /** Every line below the top one is drawn between 20 and 80, fainter the lower it is, down to 20. */
  lemma OpacityProperties(index: nat)
    ensures Opacity(0) == 100
    ensures index > 0 ==> 20 <= Opacity(index) <= 80
    ensures index >= 4 ==> Opacity(index) == 20
    ensures 0 < index < 4 ==> Opacity(index + 1) == Opacity(index) - 20
  {
  }

  /** One rendered line: its text and its opacity. */
  datatype Row = Row(line: string, opacity: nat)

  /** What is rendered: nothing while inactive or with no lines, else each line with its opacity. */
  function Rendered(isActive: bool, lines: seq<string>): (r: Option<seq<Row>>)
    ensures r.None? <==> !isActive || lines == []
    ensures r.Some? ==>
      |r.value| == |lines| && forall i :: 0 <= i < |lines| ==> r.value[i] == Row(lines[i], Opacity(i))
  {
    if !isActive || |lines| == 0 then None
    else Some(seq(|lines|, i requires 0 <= i < |lines| => Row(lines[i], Opacity(i))))
  }

  /** The component: its `isActive` prop, its `lines` state and whether its interval runs. */
  class Stream {
    var isActive: bool
    var lines: seq<string>
    var ticking: bool

    /** The interval runs exactly while active, and an inactive stream holds no lines. */
    predicate Valid()
      reads this
    {
      && Bounded(lines)
      && (ticking <==> isActive)
      && (!isActive ==> lines == [])
    }

    /** Mount: no lines, then the effect. */
    constructor (isActive: bool)
      ensures Valid() && this.isActive == isActive && lines == []
    {
      this.isActive := isActive;
      lines := [];
      ticking := isActive;
    }

    /**
     * A render with a new `isActive`. When it changes, the interval is cleared
     * and the effect runs again: inactive empties the list, active starts a
     * new interval and keeps the lines.
     */
    method SetActive(active: bool)
      requires Valid()
      modifies this
      ensures Valid() && isActive == active
      ensures lines == if active then old(lines) else []
    {
      if active != isActive {
        ticking := false;
        isActive := active;
        if !active {
          lines := [];
        } else {
          ticking := true;
        }
      }
    }

    /** One tick of the interval with the random snippet index `pick`. */
    method OnTick(pick: Pick)
      requires Valid() && ticking
      modifies this
      ensures Valid() && isActive == old(isActive)
      ensures lines == NextLines(old(lines), pick)
    {
      NextLinesProperties(lines, pick);
      lines := NextLines(lines, pick);
    }
  }
}
