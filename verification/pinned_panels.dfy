/** The pinned "Why GRFlex" section on wide screens: scrolling through the
    pinned stretch moves through the panels one after another. */
module PinnedPanels {
  import opened Numbers

  /** The number of panels. */
  const PanelsCount := 3
  /** The least scroll distance given to one panel, in pixels. */
  const MinScrollPerPanel := 260

  /** The clamp of `setIdx`: any integer becomes a panel that exists, the
      nearest one. */
  function ClampPanel(i: int): (c: int)
    ensures 0 <= c < PanelsCount
    ensures 0 <= i < PanelsCount ==> c == i
    ensures i < 0 ==> c == 0
    ensures i >= PanelsCount ==> c == PanelsCount - 1
  {
    Max(0, Min(PanelsCount - 1, i))
  }

  /** The panel for a scroll progress: `min(count - 1, floor(progress * count))`. */
  function ProgressIndex(progress: real): (i: int)
    ensures i <= PanelsCount - 1
    ensures progress >= 0.0 ==> i >= 0
    ensures i < PanelsCount - 1 ==> i as real <= progress * PanelsCount as real < (i + 1) as real
    ensures i == PanelsCount - 1 ==> progress * PanelsCount as real >= (PanelsCount - 1) as real
  {
    Min(PanelsCount - 1, (progress * PanelsCount as real).Floor)
  }

  /** Over the pinned stretch (progress from 0 to 1) the index is a panel
      that exists, starts at the first and ends on the last. */
  lemma ProgressIndexRange(progress: real)
    requires 0.0 <= progress <= 1.0
    ensures 0 <= ProgressIndex(progress) < PanelsCount
    ensures progress == 0.0 ==> ProgressIndex(progress) == 0
    ensures progress == 1.0 ==> ProgressIndex(progress) == PanelsCount - 1
  {
  }

  /** Scrolling further never goes back to an earlier panel. */
  lemma ProgressIndexMonotone(p: real, q: real)
    requires p <= q
    ensures ProgressIndex(p) <= ProgressIndex(q)
  {
    assert p * PanelsCount as real <= q * PanelsCount as real;
    FloorMonotone(p * PanelsCount as real, q * PanelsCount as real);
  }

  lemma FloorMonotone(x: real, y: real)
    requires x <= y
    ensures x.Floor <= y.Floor
  {
  }

  /** Each panel holds for an equal share of the stretch: panel `k` is shown
      from progress `k/count` up to `(k+1)/count`, and the last one also at
      the very end. */
  lemma EqualShares(progress: real, k: int)
    requires 0.0 <= progress <= 1.0 && 0 <= k < PanelsCount
    ensures ProgressIndex(progress) == k <==>
      k as real <= progress * PanelsCount as real
      && (progress * PanelsCount as real < (k + 1) as real || k == PanelsCount - 1)
  {
  }

  /** `Math.round`: the nearest integer, halves rounded up. */
  function Round(x: real): (n: int)
    ensures x - 0.5 < n as real <= x + 0.5
  {
    (x + 0.5).Floor
  }

  /** The scroll distance one panel takes for a window `innerHeight` pixels
      high: 45% of the height, but never less than the minimum. */
  function ScrollPerPanel(innerHeight: real): (s: int)
    ensures s >= MinScrollPerPanel
    ensures s == MinScrollPerPanel || s == Round(innerHeight * 0.45)
    ensures s >= Round(innerHeight * 0.45)
  {
    Max(MinScrollPerPanel, Round(innerHeight * 0.45))
  }

  /** The length of the pinned stretch: a panel's share for every panel. */
  function TotalScroll(innerHeight: real): (t: int)
    ensures t % PanelsCount == 0 && t / PanelsCount == ScrollPerPanel(innerHeight)
    ensures t >= MinScrollPerPanel * PanelsCount
  {
    ScrollPerPanel(innerHeight) * PanelsCount
  }

  /** Scrolling `d` pixels into the pinned stretch shows the panel whose
      share holds `d`: one panel per `ScrollPerPanel` pixels, the last one
      also at the very end. */
  lemma PanelForScroll(innerHeight: real, d: int)
    requires 0 <= d <= TotalScroll(innerHeight)
    ensures ProgressIndex(d as real / TotalScroll(innerHeight) as real)
         == Min(PanelsCount - 1, d / ScrollPerPanel(innerHeight))
  {
    var sp := ScrollPerPanel(innerHeight);
    ShareOfStretch(d, sp);
    FloorOfQuotient(d, sp);
  }

  /** Progress times the panel count is the scroll in panel shares. */
  lemma ShareOfStretch(d: int, sp: int)
    requires sp > 0
    ensures d as real / (sp * PanelsCount) as real * PanelsCount as real == d as real / sp as real
  {
  }

  /** The floor of an exact quotient of integers is their integer quotient. */
  lemma FloorOfQuotient(d: int, sp: int)
    requires d >= 0 && sp > 0
    ensures (d as real / sp as real).Floor == d / sp
  {
    var q, m := d / sp, d % sp;
    assert d == sp * q + m;
    var x := d as real / sp as real;
    var f := m as real / sp as real;
    assert 0.0 <= f < 1.0 by {
      assert f * sp as real == m as real;
    }
    assert x == q as real + f;
  }

  /** The section's index and its ref copy, and the reduced-motion
      preference as the section's hook holds it: false on mount, then the
      media query's answer, updated on every change of the query. While it
      is true the scroll trigger does not exist. */
  class Section {
    var index: int
    var indexRef: int
    var reducedMotion: bool

    /** The index is a panel and the ref agrees with it. */
    ghost predicate Valid()
      reads this
    {
      && 0 <= index < PanelsCount
      && indexRef == index
    }

    constructor ()
      ensures Valid()
      ensures index == 0 && !reducedMotion
    {
      index := 0;
      indexRef := 0;
      reducedMotion := false;
    }

    /** The media query's `change` handler (also run once on mount): the
        preference follows the query. Turning it on kills the trigger but
        leaves the panel where it was; turning it off creates a new
        trigger, which moves the panel at its next update. */
    method OnPreferenceChange(matches: bool)
      requires Valid()
      modifies this`reducedMotion
      ensures Valid()
      ensures reducedMotion == matches
      ensures index == old(index)
    {
      reducedMotion := matches;
    }

    /** `setIdx(i)`: nothing happens when the clamped value is the current
        one (returned as `changed == false`), otherwise the ref and the
        state both take it. */
    method SetIdx(i: int) returns (changed: bool)
      requires Valid() && !reducedMotion
      modifies this`index, this`indexRef
      ensures Valid()
      ensures index == ClampPanel(i)
      ensures changed <==> ClampPanel(i) != old(index)
    {
      var clamped := Max(0, Min(PanelsCount - 1, i));
      if clamped == indexRef {
        return false;
      }
      indexRef := clamped;
      index := clamped;
      return true;
    }

    /** The trigger's `onUpdate` at a scroll progress; with reduced motion
        there is no trigger and so no update. */
    method OnUpdate(progress: real)
      requires Valid()
      modifies this`index, this`indexRef
      ensures Valid()
      ensures reducedMotion ==> index == old(index)
      ensures !reducedMotion ==> index == ClampPanel(ProgressIndex(progress))
    {
      if reducedMotion {
        return;
      }
      var raw := progress * PanelsCount as real;
      var i := Min(PanelsCount - 1, raw.Floor);
      var _ := SetIdx(i);
    }
  }
}
