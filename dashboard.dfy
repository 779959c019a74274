/** The slideshow of the dashboard screen: an index into a fixed list of five images that
    the next and previous buttons move modulo the number of images. */
module Dashboard {

  /** The five imported slideshow images, by asset name. */
  const Images: seq<string> := ["image1.jpg", "image2.jpg", "image3.jpg", "image4.jpg", "image5.jpg"]

  /** The updater of `nextImage`: one step forward, wrapping from the last image to the first.
      Both operands of `%` are non-negative, so JavaScript's remainder and Dafny's agree. */
  function NextIndex(i: nat): (r: nat)
    requires i < |Images|
    ensures r < |Images|
    ensures r == if i == |Images| - 1 then 0 else i + 1
  {
    (i + 1) % |Images|
  }

  /** The updater of `prevImage`: one step back, wrapping from the first image to the last. */
  function PrevIndex(i: nat): (r: nat)
    requires i < |Images|
    ensures r < |Images|
    ensures r == if i == 0 then |Images| - 1 else i - 1
  {
    (i - 1 + |Images|) % |Images|
  }

  /** `prevImage` undoes `nextImage` and `nextImage` undoes `prevImage`. */
  lemma PrevUndoesNext(i: nat)
    requires i < |Images|
    ensures PrevIndex(NextIndex(i)) == i
    ensures NextIndex(PrevIndex(i)) == i
  {
  }

  /** A press of one of the two slideshow buttons (a tick of the auto-slide timer is a `Next`). */
  datatype Click = Next | Prev

  function Step(i: nat, c: Click): (r: nat)
    requires i < |Images|
    ensures r < |Images|
  {
    match c
    case Next => NextIndex(i)
    case Prev => PrevIndex(i)
  }

  /** The index after a whole sequence of clicks; it never leaves the bounds of `Images`. */
  function Run(i: nat, clicks: seq<Click>): (r: nat)
    requires i < |Images|
    ensures r < |Images|
    decreases |clicks|
  {
    if clicks == [] then i else Run(Step(i, clicks[0]), clicks[1..])
  }

  lemma {:induction false} RunAppend(i: nat, s: seq<Click>, t: seq<Click>)
    requires i < |Images|
    ensures Run(i, s + t) == Run(Run(i, s), t)
    decreases |s|
  {
    if s == [] {
      assert s + t == t;
    } else {
      assert (s + t)[0] == s[0];
      assert (s + t)[1..] == s[1..] + t;
      RunAppend(Step(i, s[0]), s[1..], t);
    }
  }

  function Opposite(c: Click): Click {
    match c
    case Next => Prev
    case Prev => Next
  }

  /** The clicks that take the slideshow back: the opposite buttons, in reverse order. */
  function Undo(clicks: seq<Click>): (r: seq<Click>)
    ensures |r| == |clicks|
    decreases |clicks|
  {
    if clicks == [] then [] else Undo(clicks[1..]) + [Opposite(clicks[0])]
  }

  /** Any sequence of clicks is undone by the opposite clicks in reverse order. */
  lemma {:induction false} UndoRestores(i: nat, clicks: seq<Click>)
    requires i < |Images|
    ensures Run(Run(i, clicks), Undo(clicks)) == i
    decreases |clicks|
  {
    if clicks != [] {
      var j := Step(i, clicks[0]);
      var rest := clicks[1..];
      calc {
        Run(Run(i, clicks), Undo(clicks));
        Run(Run(j, rest), Undo(rest) + [Opposite(clicks[0])]);
        { RunAppend(Run(j, rest), Undo(rest), [Opposite(clicks[0])]); }
        Run(Run(Run(j, rest), Undo(rest)), [Opposite(clicks[0])]);
        { UndoRestores(j, rest); }
        Run(j, [Opposite(clicks[0])]);
        { PrevUndoesNext(i); }
        i;
      }
    }
  }

  /** `k` presses of the next button (or `k` ticks of the timer). */
  function Nexts(k: nat): (r: seq<Click>)
    ensures |r| == k
  {
    if k == 0 then [] else [Next] + Nexts(k - 1)
  }

  /** `k` steps forward land `k` places further on, modulo the number of images. */
  lemma {:induction false} NextsAdvance(i: nat, k: nat)
    requires i < |Images|
    ensures Run(i, Nexts(k)) == (i + k) % |Images|
    decreases k
  {
    if k > 0 {
      assert Nexts(k)[0] == Next && Nexts(k)[1..] == Nexts(k - 1);
      NextsAdvance(NextIndex(i), k - 1);
    }
  }

  /** As many steps forward as there are images bring the slideshow back where it started. */
  lemma FullCycle(i: nat)
    requires i < |Images|
    ensures Run(i, Nexts(|Images|)) == i
  {
    NextsAdvance(i, |Images|);
  }

  /** The `currentIndex` state slot of the dashboard. */
  class Slideshow {
    var currentIndex: nat

    ghost predicate Valid()
      reads this
    {
      currentIndex < |Images|
    }

    constructor ()
      ensures Valid() && currentIndex == 0
    {
      currentIndex := 0;
    }

    /** The image shown: `images[currentIndex]` is always an element of the list. */
    function CurrentImage(): (r: string)
      reads this
      requires Valid()
      ensures r in Images
    {
      Images[currentIndex]
    }

    method NextImage()
      requires Valid()
      modifies this
      ensures Valid() && currentIndex == NextIndex(old(currentIndex))
    {
      currentIndex := NextIndex(currentIndex);
    }

    method PrevImage()
      requires Valid()
      modifies this
      ensures Valid() && currentIndex == PrevIndex(old(currentIndex))
    {
      currentIndex := PrevIndex(currentIndex);
    }
  }
}
