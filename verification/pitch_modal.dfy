/** The pitch deck dialog (src/components/PitchModal.tsx): a slide index
    moved by Previous and Next, kept within the deck. */
module PitchModal {
  const SlideTitles: seq<string> := ["The Problem", "Today's MVP", "Roadmap & Vision"]

  /** The index of the last slide. */
  const LastSlide: nat := |SlideTitles| - 1

  /** `useState(0)`: the slide the dialog starts on. */
  const FirstSlide: nat := 0

  /** An index that names a slide. */
  predicate OnDeck(i: int) {
    0 <= i < |SlideTitles|
  }

  /** `nextSlide`: one slide on, except on the last. */
  function NextSlide(i: int): (r: int)
    ensures OnDeck(i) ==> OnDeck(r)
    ensures i < LastSlide ==> r == i + 1
    ensures i >= LastSlide ==> r == i
  {
    if i < |SlideTitles| - 1 then i + 1 else i
  }

  /** `prevSlide`: one slide back, except on the first. */
  function PrevSlide(i: int): (r: int)
    ensures OnDeck(i) ==> OnDeck(r)
    ensures i > 0 ==> r == i - 1
    ensures i <= 0 ==> r == i
  {
    if i > 0 then i - 1 else i
  }

  /** Previous is disabled exactly on the first slide, and then pressing
      it would change nothing. */
  function PrevDisabled(i: int): (b: bool)
    ensures OnDeck(i) ==> (b <==> PrevSlide(i) == i)
  {
    i == 0
  }

  /** The right-hand button reads Next before the last slide and Close on
      it; Next is offered exactly where it moves. */
  function ShowsNext(i: int): (b: bool)
    ensures b <==> NextSlide(i) != i
  {
    i < |SlideTitles| - 1
  }

  /** The title shown for a slide index. */
  function Title(i: int): (t: string)
    requires OnDeck(i)
    ensures t in SlideTitles
  {
    SlideTitles[i]
  }

  /** The dialog's actions on the slide index. */
  datatype Press = Next | Previous

  function Apply(i: int, p: Press): int {
    match p
    case Next => NextSlide(i)
    case Previous => PrevSlide(i)
  }

  /** Presses applied in order, from slide `i`. */
  function Run(i: int, presses: seq<Press>): int
    decreases |presses|
  {
    if |presses| == 0 then i else Run(Apply(i, presses[0]), presses[1..])
  }

  /** Whatever is pressed, the dialog never leaves the deck, so a title is
      always there to show. */
  lemma {:induction false} RunStaysOnDeck(i: int, presses: seq<Press>)
    requires OnDeck(i)
    ensures OnDeck(Run(i, presses))
    decreases |presses|
  {
    if |presses| > 0 {
      RunStaysOnDeck(Apply(i, presses[0]), presses[1..]);
    }
  }

  /** The dialog starts on the deck, on the first title, with Previous
      disabled; every press series from there stays on the deck. */
  lemma StartsOnDeck(presses: seq<Press>)
    ensures OnDeck(FirstSlide) && Title(FirstSlide) == "The Problem" && PrevDisabled(FirstSlide)
    ensures OnDeck(Run(FirstSlide, presses))
  {
    RunStaysOnDeck(FirstSlide, presses);
  }

  function Repeat(p: Press, k: nat): (r: seq<Press>)
    ensures |r| == k
    ensures forall j :: 0 <= j < k ==> r[j] == p
  {
    if k == 0 then [] else [p] + Repeat(p, k - 1)
  }

  function Min(a: int, b: int): int {
    if a <= b then a else b
  }

  /** `k` presses of Next from slide `i` reach slide `i + k`, or stop at
      the last. */
  lemma {:induction false} NextPressesStopAtLast(i: nat, k: nat)
    requires OnDeck(i)
    ensures Run(i, Repeat(Next, k)) == Min(i + k, LastSlide)
    decreases k
  {
    if k > 0 {
      var presses := Repeat(Next, k);
      assert presses[0] == Next && presses[1..] == Repeat(Next, k - 1);
      NextPressesStopAtLast(NextSlide(i), k - 1);
    }
  }

  /** `k` presses of Previous from slide `i` reach slide `i - k`, or stop
      at the first. */
  lemma {:induction false} PreviousPressesStopAtFirst(i: nat, k: nat)
    requires OnDeck(i)
    ensures Run(i, Repeat(Previous, k)) == if k <= i then i - k else 0
    decreases k
  {
    if k > 0 {
      var presses := Repeat(Previous, k);
      assert presses[0] == Previous && presses[1..] == Repeat(Previous, k - 1);
      PreviousPressesStopAtFirst(PrevSlide(i), k - 1);
    }
  }
}
