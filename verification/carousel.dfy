/** The hero carousel: which slide is on screen and how the timer, the
    keyboard, swipes and the dots move it. */
module Carousel {

  /** The number of slides. */
  const SlideCount := 4
  /** A drag counts as a swipe beyond this horizontal movement (pixels)... */
  const SwipeDistance: real := 60.0
  /** ...or above this velocity. */
  const SwipeVelocity: real := 0.35

  /** JavaScript's `a % b`: the remainder of the quotient truncated toward
      zero, which takes the sign of `a`. */
  function JsRem(a: int, b: int): (r: int)
    requires b > 0
    ensures a >= 0 ==> 0 <= r < b
    ensures a < 0 ==> -b < r <= 0
  {
    if a >= 0 then a % b else -((-a) % b)
  }

  /** `clampIndex(n)`: `((n % count) + count) % count` with the slide count. */
  function ClampIndex(n: int): (r: int)
    ensures 0 <= r < SlideCount
  {
    JsRem(JsRem(n, SlideCount) + SlideCount, SlideCount)
  }

  /** Whatever `n` is, even negative, the clamped index is the least
      non-negative residue of `n`: a slide that exists, congruent to `n`. */
  lemma ClampIsMod(n: int)
    ensures ClampIndex(n) == n % SlideCount
    ensures 0 <= ClampIndex(n) < SlideCount
  {
    var q := n / SlideCount;
    assert n == SlideCount * q + n % SlideCount;
    if n < 0 {
      var m := (-n) % SlideCount;
      assert -n == SlideCount * ((-n) / SlideCount) + m;
      assert JsRem(n, SlideCount) == -m;
    }
  }

  /** Adding a full round of slides changes nothing. */
  lemma ClampPeriodic(n: int)
    ensures ClampIndex(n + SlideCount) == ClampIndex(n)
  {
    ClampIsMod(n);
    ClampIsMod(n + SlideCount);
    ShiftMod(n);
  }

  lemma ShiftMod(n: int)
    ensures (n + SlideCount) % SlideCount == n % SlideCount
  {
    var q := n / SlideCount;
    assert n + SlideCount == SlideCount * (q + 1) + n % SlideCount;
  }

  /** An index already on screen is left as it is. */
  lemma ClampInRange(i: int)
    requires 0 <= i < SlideCount
    ensures ClampIndex(i) == i
  {
    ClampIsMod(i);
  }

  /** `next`: the slide after `i`, wrapping. */
  function NextIndex(i: int): (r: int)
    ensures 0 <= r < SlideCount
    ensures 0 <= i < SlideCount - 1 ==> r == i + 1
    ensures i == SlideCount - 1 ==> r == 0
  {
    ClampIsMod(i + 1);
    ClampIndex(i + 1)
  }

  /** `prev`: the slide before `i`, wrapping. */
  function PrevIndex(i: int): (r: int)
    ensures 0 <= r < SlideCount
    ensures 0 < i < SlideCount ==> r == i - 1
    ensures i == 0 ==> r == SlideCount - 1
  {
    ClampIsMod(i - 1);
    ClampIndex(i - 1)
  }

  /** Next moves forward by one and wraps from the last slide to the first;
      Prev moves back by one and wraps from the first to the last. */
  lemma NextPrevSteps(i: int)
    requires 0 <= i < SlideCount
    ensures NextIndex(i) == if i == SlideCount - 1 then 0 else i + 1
    ensures PrevIndex(i) == if i == 0 then SlideCount - 1 else i - 1
  {
    ClampIsMod(i + 1);
    ClampIsMod(i - 1);
  }

  /** Next and Prev undo each other. */
  lemma NextPrevInverse(i: int)
    requires 0 <= i < SlideCount
    ensures PrevIndex(NextIndex(i)) == i
    ensures NextIndex(PrevIndex(i)) == i
  {
    NextPrevSteps(i);
    NextPrevSteps(NextIndex(i));
    NextPrevSteps(PrevIndex(i));
  }

  /** The slide after `k` presses of Next. */
  function Advance(i: int, k: nat): int {
    if k == 0 then i else NextIndex(Advance(i, k - 1))
  }

  /** `k` presses of Next from slide `i` land on `(i + k) mod count`; after
      a full round the carousel is back where it started. */
  lemma {:induction false} AdvanceIsRotation(i: int, k: nat)
    requires 0 <= i < SlideCount
    ensures Advance(i, k) == (i + k) % SlideCount
  {
    if k > 0 {
      AdvanceIsRotation(i, k - 1);
      var j := Advance(i, k - 1);
      assert 0 <= j < SlideCount && j == (i + k - 1) % SlideCount;
      assert Advance(i, k) == if j == SlideCount - 1 then 0 else j + 1;
      StepMod(i + k - 1);
    }
  }

  lemma StepMod(n: int)
    ensures (if n % SlideCount == SlideCount - 1 then 0 else n % SlideCount + 1) == (n + 1) % SlideCount
  {
    var q := n / SlideCount;
    assert n == SlideCount * q + n % SlideCount;
    if n % SlideCount == SlideCount - 1 {
      assert n + 1 == SlideCount * (q + 1);
    } else {
      assert n + 1 == SlideCount * q + (n % SlideCount + 1);
    }
  }

  /** Any whole number of rounds, the slide count of Next presses among
      them, comes back to the starting slide. */
  lemma FullRounds(i: int, k: nat)
    requires 0 <= i < SlideCount && k % SlideCount == 0
    ensures Advance(i, k) == i
  {
    AdvanceIsRotation(i, k);
    var q := k / SlideCount;
    assert i + k == SlideCount * q + i;
  }

  /** The progress bar grows from `index/count` to `(index+1)/count` of its
      width: a quarter of the bar per slide, full on the last one. */
  function BarFractions(index: int): (r: (real, real))
    requires 0 <= index < SlideCount
    ensures r.0 * SlideCount as real == index as real
    ensures 0.0 <= r.0 < r.1 <= 1.0
    ensures r.1 - r.0 == 1.0 / SlideCount as real
    ensures r.1 == 1.0 <==> index == SlideCount - 1
  {
    (index as real / SlideCount as real, (index + 1) as real / SlideCount as real)
  }

  /** The bars of neighbouring slides meet: each starts where the previous
      one ends, the first at the left edge. */
  lemma BarsAdjoin(i: int)
    requires 0 <= i < SlideCount - 1
    ensures BarFractions(i).1 == BarFractions(i + 1).0
    ensures BarFractions(0).0 == 0.0
  {
  }

  /** A drag that ends past the distance or above the velocity is a swipe;
      a leftward one (negative direction) goes to the next slide. */
  datatype DragResult = NoMove | ToNext | ToPrev

  function DragDecision(last: bool, mx: real, vx: real, dx: real): (d: DragResult)
    ensures !last ==> d == NoMove
    ensures last && (mx > SwipeDistance || mx < -SwipeDistance || vx > SwipeVelocity) ==> d != NoMove
    ensures d != NoMove ==> last && (mx > SwipeDistance || mx < -SwipeDistance || vx > SwipeVelocity)
    ensures d == ToNext <==> last && (mx > SwipeDistance || mx < -SwipeDistance || vx > SwipeVelocity) && dx < 0.0
    ensures d == ToPrev <==> last && (mx > SwipeDistance || mx < -SwipeDistance || vx > SwipeVelocity) && dx >= 0.0
  {
    if !last then NoMove
    else
      var absMx := if mx < 0.0 then -mx else mx;
      if !(absMx > SwipeDistance || vx > SwipeVelocity) then NoMove
      else if dx < 0.0 then ToNext
      else ToPrev
  }

  /** The key presses the carousel listens to. */
  datatype Key = ArrowRight | ArrowLeft | OtherKey

  /** The carousel's state: the index on screen and its ref copy (always set
      together), whether the mouse is over the section, and the reduced
      motion preference, under which the timer is never started. */
  class Hero {
    var index: int
    var indexRef: int
    var hovering: bool
    var reducedMotion: bool

    ghost predicate Valid()
      reads this
    {
      0 <= index < SlideCount && indexRef == index
    }

    constructor (reducedMotion: bool)
      ensures Valid()
      ensures index == 0 && !hovering && this.reducedMotion == reducedMotion
    {
      index := 0;
      indexRef := 0;
      hovering := false;
      this.reducedMotion := reducedMotion;
    }

    /** `goTo(n)`: the clamped index goes into both the ref and the state. */
    method GoTo(n: int)
      modifies this`index, this`indexRef
      ensures Valid()
      ensures index == n % SlideCount
    {
      ClampIsMod(n);
      var next := ClampIndex(n);
      indexRef := next;
      index := next;
    }

    method Next()
      requires Valid()
      modifies this`index, this`indexRef
      ensures Valid()
      ensures index == NextIndex(old(index))
    {
      GoTo(indexRef + 1);
      ClampIsMod(old(index) + 1);
    }

    method Prev()
      requires Valid()
      modifies this`index, this`indexRef
      ensures Valid()
      ensures index == PrevIndex(old(index))
    {
      GoTo(indexRef - 1);
      ClampIsMod(old(index) - 1);
    }

    /** One period of the auto-advance interval: nothing while hovered, and
        no interval at all under reduced motion. */
    method Tick()
      requires Valid()
      modifies this`index, this`indexRef
      ensures Valid()
      ensures index == if hovering || reducedMotion then old(index) else NextIndex(old(index))
    {
      if reducedMotion || hovering {
        return;
      }
      Next();
    }

    method OnKey(k: Key)
      requires Valid()
      modifies this`index, this`indexRef
      ensures Valid()
      ensures index == match k
        case ArrowRight => NextIndex(old(index))
        case ArrowLeft => PrevIndex(old(index))
        case OtherKey => old(index)
    {
      if k == ArrowRight {
        Next();
      }
      if k == ArrowLeft {
        Prev();
      }
    }

    method OnDrag(last: bool, mx: real, vx: real, dx: real)
      requires Valid()
      modifies this`index, this`indexRef
      ensures Valid()
      ensures index == match DragDecision(last, mx, vx, dx)
        case NoMove => old(index)
        case ToNext => NextIndex(old(index))
        case ToPrev => PrevIndex(old(index))
    {
      if !last {
        return;
      }
      var absMx := if mx < 0.0 then -mx else mx;
      var swipe := absMx > SwipeDistance || vx > SwipeVelocity;
      if !swipe {
        return;
      }
      if dx < 0.0 {
        Next();
      } else {
        Prev();
      }
    }

    /** The reduced-motion preference follows the system setting; the slide
        on screen stays. */
    method OnPreferenceChange(reduce: bool)
      modifies this`reducedMotion
      ensures reducedMotion == reduce
    {
      reducedMotion := reduce;
    }

    method MouseEnter()
      modifies this`hovering
      ensures hovering
    {
      hovering := true;
    }

    method MouseLeave()
      modifies this`hovering
      ensures !hovering
    {
      hovering := false;
    }
  }
}
