/**
 * Breakpoint classification of the viewport (services/responsive.service.ts).
 * Widths are integer CSS pixels; the resize and orientation listeners become
 * `OnResize`, which stores the window's new size.
 */
module Responsive {
  import opened Wrappers

  /** `_breakpoints`: the largest mobile and the largest tablet width. */
  const MobileMax := 767
  const TabletMax := 1023

  datatype ScreenSize = Mobile | Tablet | Desktop

  datatype BreakpointState = BreakpointState(
    isMobile: bool, isTablet: bool, isDesktop: bool, screenSize: ScreenSize, width: int, height: int)

  predicate IsMobile(width: int) { width <= MobileMax }

  predicate IsTablet(width: int) { width > MobileMax && width <= TabletMax }

  predicate IsDesktop(width: int) { width > TabletMax }

  /** Every width falls in exactly one class. */
  lemma ExactlyOneClass(width: int)
    ensures (IsMobile(width) || IsTablet(width) || IsDesktop(width))
    ensures !(IsMobile(width) && IsTablet(width)) && !(IsMobile(width) && IsDesktop(width))
    ensures !(IsTablet(width) && IsDesktop(width))
    ensures IsMobile(width) <==> width <= 767
    ensures IsTablet(width) <==> 768 <= width <= 1023
    ensures IsDesktop(width) <==> width >= 1024
  {
  }

  /** `screenSize`: the name of the class that holds. */
  function ScreenSizeOf(width: int): (s: ScreenSize)
    ensures s == Mobile <==> IsMobile(width)
    ensures s == Tablet <==> IsTablet(width)
    ensures s == Desktop <==> IsDesktop(width)
  {
    if IsMobile(width) then Mobile else if IsTablet(width) then Tablet else Desktop
  }

  /** `breakpointState`: all classifications of one size at once. */
  function BreakpointStateOf(width: int, height: int): (b: BreakpointState)
    ensures b.isMobile == IsMobile(width) && b.isTablet == IsTablet(width) && b.isDesktop == IsDesktop(width)
    ensures b.screenSize == ScreenSizeOf(width)
    ensures b.width == width && b.height == height
    ensures (b.screenSize == Mobile) == b.isMobile
  {
    BreakpointState(IsMobile(width), IsTablet(width), IsDesktop(width), ScreenSizeOf(width), width, height)
  }

  /** `isInRange`: both bounds inclusive. */
  predicate IsInRange(width: int, min: int, max: int)
  {
    width >= min && width <= max
  }

  lemma InRangeBounds(width: int, min: int, max: int)
    ensures IsInRange(width, min, max) ==> min <= width <= max
    ensures min > max ==> !IsInRange(width, min, max)
    ensures IsInRange(width, width, width)
  {
  }

  /** `isExtraSmall`: narrower than 375 pixels. */
  predicate IsExtraSmall(width: int) { width < 375 }

  /** `isExtraLarge`: wider than 1440 pixels. */
  predicate IsExtraLarge(width: int) { width > 1440 }

  lemma ExtremesRefineClasses(width: int)
    ensures IsExtraSmall(width) ==> IsMobile(width)
    ensures IsExtraLarge(width) ==> IsDesktop(width)
  {
  }

  class ResponsiveService {
    var width: int
    var height: int

    /** Start from the window's size, or 1024 by 768 when there is no window. */
    constructor (window: Option<(int, int)>)
      ensures window.Some? ==> width == window.value.0 && height == window.value.1
      ensures window.None? ==> width == 1024 && height == 768 && IsDesktop(width)
    {
      if window.Some? {
        width, height := window.value.0, window.value.1;
      } else {
        width, height := 1024, 768;
      }
    }

    /** The resize and orientation-change listeners: read the window's size again. */
    method OnResize(innerWidth: int, innerHeight: int)
      modifies this
      ensures width == innerWidth && height == innerHeight
    {
      width := innerWidth;
      height := innerHeight;
    }

    function State(): (b: BreakpointState)
      reads this
      ensures b == BreakpointStateOf(width, height)
    {
      BreakpointStateOf(width, height)
    }
  }
}
