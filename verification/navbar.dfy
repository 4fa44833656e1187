/** The site's top bar: hide-on-scroll-down, the drawer, and the routing of
    its links (ordinary links, and in-page `#` links that may first have to
    go back to the home page). */
module Navbar {
  import opened Text

  /** Within this many pixels of the top the bar is always shown, and moves
      of at most this many pixels do not change it. */
  const Threshold: real := 8.0
  /** The height kept clear above a section scrolled to. */
  const NavOffset: real := 86.0
  /** The `sessionStorage` key of a hash still to be scrolled to. */
  const PendingKey := "pending_hash_scroll"

  function Abs(x: real): real {
    if x < 0.0 then -x else x
  }

  /** The visibility decided by one animation frame at scroll position `y`,
      after `last` was the previous position. */
  function NextShow(show: bool, last: real, y: real): (r: bool)
    ensures y <= Threshold ==> r
    ensures y > Threshold && Abs(y - last) <= Threshold ==> r == show
    ensures y > Threshold && Abs(y - last) > Threshold ==> (r <==> y < last)
  {
    var goingDown := y > last;
    var delta := Abs(y - last);
    if y <= Threshold then true
    else if delta > Threshold then !goingDown
    else show
  }

  /** The frames seen one after another, from a visible bar. */
  function Replay(show: bool, last: real, ys: seq<real>): bool
    decreases |ys|
  {
    if ys == [] then show else Replay(NextShow(show, last, ys[0]), ys[0], ys[1..])
  }

  /** Steps of at most `Threshold` pixels between frames. */
  predicate SmallSteps(last: real, ys: seq<real>) {
    && (ys != [] ==> Abs(ys[0] - last) <= Threshold)
    && (forall i :: 0 < i < |ys| ==> Abs(ys[i] - ys[i - 1]) <= Threshold)
  }

  /** However far the page is scrolled down, a scroll that never moves more
      than `Threshold` pixels between two frames never hides a shown bar. */
  lemma {:induction false} SlowScrollKeepsBar(last: real, ys: seq<real>)
    requires SmallSteps(last, ys)
    ensures Replay(true, last, ys)
    decreases |ys|
  {
    if ys != [] {
      assert NextShow(true, last, ys[0]);
      assert SmallSteps(ys[0], ys[1..]) by {
        if |ys| > 1 {
          assert Abs(ys[1] - ys[0]) <= Threshold;
        }
        forall i | 0 < i < |ys[1..]| ensures Abs(ys[1..][i] - ys[1..][i - 1]) <= Threshold {
          assert Abs(ys[i + 1] - ys[i]) <= Threshold;
        }
      }
      SlowScrollKeepsBar(ys[0], ys[1..]);
    }
  }

  /** The bar's state: visibility, the last processed position, whether a
      frame is pending, and whether the mobile drawer is open. */
  class Bar {
    var show: bool
    var lastY: real
    var ticking: bool
    var open: bool

    /** A hidden bar was hidden by a frame below the top zone. */
    ghost predicate Valid()
      reads this
    {
      !show ==> lastY > Threshold
    }

    /** Mounting reads the current scroll position. */
    constructor (scrollY: real)
      ensures Valid()
      ensures show && lastY == scrollY && !ticking && !open
    {
      show := true;
      lastY := scrollY;
      ticking := false;
      open := false;
    }

    /** A scroll event: ignored while a frame is pending, otherwise it asks
        for one. */
    method OnScroll() returns (requestFrame: bool)
      modifies this`ticking
      ensures requestFrame <==> !old(ticking)
      ensures ticking
    {
      if ticking {
        return false;
      }
      ticking := true;
      return true;
    }

    /** The requested frame, at scroll position `y`: whatever the branch,
        `y` becomes the last position and the next scroll event is heard. */
    method OnFrame(y: real)
      requires Valid()
      modifies this`show, this`lastY, this`ticking
      ensures Valid()
      ensures show == NextShow(old(show), old(lastY), y)
      ensures lastY == y && !ticking
    {
      var last := lastY;
      var goingDown := y > last;
      var delta := Abs(y - last);
      if y <= Threshold {
        show := true;
      } else if delta > Threshold {
        show := !goingDown;
      }
      lastY := y;
      ticking := false;
    }

    /** The menu button opens the drawer. */
    method OpenDrawer()
      modifies this`open
      ensures open
    {
      open := true;
    }

    /** The drawer's close button and backdrop. */
    method CloseDrawer()
      modifies this`open
      ensures !open
    {
      open := false;
    }

    /** `handleNav`: the drawer closes, and what happens next is decided by
        `NavAction`. */
    method HandleNav(href: string, pathname: string, scrollY: real, top: Option<real>) returns (a: NavEffect)
      modifies this`open
      ensures !open
      ensures a == NavAction(href, pathname, scrollY, top)
    {
      open := false;
      a := NavAction(href, pathname, scrollY, top);
    }
  }

  /** `isHome`: the pathname of the home page. */
  predicate IsHome(pathname: string) {
    pathname == "/" || pathname == "" || pathname == "/index.html"
  }

  predicate IsHash(href: string) {
    |href| > 0 && href[0] == '#'
  }

  /** The vertical position to scroll to for a section whose box starts at
      `top` in the viewport, the page being scrolled by `scrollY`. */
  function ScrollTop(top: real, scrollY: real): (y: real)
    ensures y >= 0.0
    ensures y == 0.0 || y == top + scrollY - NavOffset
    ensures y >= top + scrollY - NavOffset
  {
    var raw := top + scrollY - NavOffset;
    if raw < 0.0 then 0.0 else raw
  }

  /** What a link click does, besides closing the drawer. */
  datatype NavEffect =
    | Navigate(url: string)
    | StorePendingAndNavigate(pending: string, url: string)
    | ScrollTo(y: real)
    | SetHash(hash: string)

  /** The routing decision of `handleNav` for `href` on the page at
      `pathname`, scrolled by `scrollY`. `top` is the viewport position of the
      element `href` names, if there is one. */
  function NavAction(href: string, pathname: string, scrollY: real, top: Option<real>): (e: NavEffect)
    ensures !IsHash(href) ==> e == Navigate(href)
    ensures IsHash(href) && !IsHome(pathname) ==> e == StorePendingAndNavigate(href, "/" + href)
    ensures IsHash(href) && IsHome(pathname) && top.Some? ==>
      e == ScrollTo(ScrollTop(top.value, scrollY))
    ensures IsHash(href) && IsHome(pathname) && top.None? ==> e == SetHash(href)
  {
    if !IsHash(href) then Navigate(href)
    else if !IsHome(pathname) then StorePendingAndNavigate(href, "/" + href)
    else if top.Some? then ScrollTo(ScrollTop(top.value, scrollY))
    else SetHash(href)
  }

  /** The path part of a same-origin URL: everything before the first `#`. */
  function PathOf(url: string): (p: string)
    ensures |p| <= |url| && p == url[..|p|]
    ensures '#' !in p
    ensures |p| < |url| ==> url[|p|] == '#'
  {
    url[..IndexOf(url, '#')]
  }

  /** The hash the home page scrolls to when it loads: the stored pending
      hash if there is one (an empty stored value counts as none), else the
      URL's hash; only on the home page, and only if it starts with `#`.
      When a hash is chosen the pending entry is removed. */
  function PendingHash(pathname: string, pending: string, hash: string): (r: Option<string>)
    ensures r.Some? <==> IsHome(pathname) && IsHash(if pending != [] then pending else hash)
    ensures r.Some? ==> r.value == if pending != [] then pending else hash
  {
    if !IsHome(pathname) then None
    else
      var h := if pending != [] then pending else hash;
      if !IsHash(h) then None else Some(h)
  }

  /** An in-page link followed from another page ends where it would have
      on the home page: the navigation goes to a home-page URL, and there the
      stored hash is the one picked, whatever hash the URL carries. */
  lemma PendingRoundTrip(href: string, pathname: string, scrollY: real, top: Option<real>, urlHash: string)
    requires IsHash(href) && !IsHome(pathname)
    ensures NavAction(href, pathname, scrollY, top).StorePendingAndNavigate?
    ensures IsHome(PathOf(NavAction(href, pathname, scrollY, top).url))
    ensures PendingHash(PathOf(NavAction(href, pathname, scrollY, top).url), NavAction(href, pathname, scrollY, top).pending, urlHash) == Some(href)
  {
    var url := "/" + href;
    assert url[0] != '#' && url[1] == '#';
    IndexOfFirst(url, '#', 1);
    assert PathOf(url) == "/";
  }
}
