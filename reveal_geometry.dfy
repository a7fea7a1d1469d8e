/**
 * RevealAnimator.RevealType of the CustomTransition project: the screen edge
 * a presented controller slides in from, the off-screen offsets along that
 * edge, and the rectangle the revealed panel occupies.
 */
module RevealGeometry {
  import opened UIKit

  datatype RevealType = Left | Right | Bottom | Top

  /** percentageValueX: horizontal offset that puts `frame` past its edge. `value` is not used. */
  function PercentageValueX(t: RevealType, value: real, frame: Rect): (dx: real)
    ensures t == Left ==> dx == -frame.width
    ensures t == Right ==> dx == frame.width
    ensures t == Top || t == Bottom ==> dx == 0.0
  {
    match t
    case Left => -frame.width
    case Right => frame.width
    case _ => 0.0
  }

  /** percentageValueY: vertical offset that puts `frame` past its edge. `value` is not used. */
  function PercentageValueY(t: RevealType, value: real, frame: Rect): (dy: real)
    ensures t == Top ==> dy == -frame.height
    ensures t == Bottom ==> dy == frame.height
    ensures t == Left || t == Right ==> dy == 0.0
  {
    match t
    case Top => -frame.height
    case Bottom => frame.height
    case _ => 0.0
  }

  /** `fraction` of `length`, as CGFloat multiplication. */
  function Portion(length: real, fraction: real): (part: real)
    ensures 0.0 <= length && IsCoverage(fraction) ==> 0.0 <= part <= length
  {
    assert !(0.0 <= length && IsCoverage(fraction)) || length * fraction <= length * 1.0;
    length * fraction
  }

  /**
   * presentedViewForFrame: the panel covering `percentage` of `frame` along
   * the edge. Bottom and Right anchor at frame.height and frame.width, not at
   * the frame's far edge, so they are edge-anchored only for a frame at
   * origin zero (a bounds rectangle, which is what the animators pass).
   */
  function PresentedViewForFrame(t: RevealType, frame: Rect, percentage: real): (r: Rect)
    ensures t == Top ==> r == Rect(frame.x, frame.y, frame.width, Portion(frame.height, percentage))
    ensures t == Left ==> r == Rect(frame.x, frame.y, Portion(frame.width, percentage), frame.height)
    ensures t == Bottom ==>
      r.x == frame.x && r.width == frame.width &&
      r.height == Portion(frame.height, percentage) && r.y + r.height == frame.height
    ensures t == Right ==>
      r.y == frame.y && r.height == frame.height &&
      r.width == Portion(frame.width, percentage) && r.x + r.width == frame.width
  {
    match t
    case Top => Rect(frame.x, frame.y, frame.width, Portion(frame.height, percentage))
    case Bottom =>
      var height := Portion(frame.height, percentage);
      Rect(frame.x, frame.height - height, frame.width, height)
    case Left => Rect(frame.x, frame.y, Portion(frame.width, percentage), frame.height)
    case Right =>
      var width := Portion(frame.width, percentage);
      Rect(frame.width - width, frame.y, Portion(frame.width, percentage), frame.height)
  }

  /** `r` moved by (dx, dy). */
  function Moved(r: Rect, dx: real, dy: real): Rect {
    Rect(r.x + dx, r.y + dy, r.width, r.height)
  }

  /** `a` lies entirely on or past one edge of `b`: no interior overlap. */
  predicate OutsideOf(a: Rect, b: Rect) {
    a.x + a.width <= b.x || a.x >= b.x + b.width || a.y + a.height <= b.y || a.y >= b.y + b.height
  }

  /** `a` lies within `b`. */
  predicate InsideOf(a: Rect, b: Rect) {
    b.x <= a.x && a.x + a.width <= b.x + b.width && b.y <= a.y && a.y + a.height <= b.y + b.height
  }

  predicate IsBounds(b: Rect) {
    b.x == 0.0 && b.y == 0.0 && b.width >= 0.0 && b.height >= 0.0
  }

  predicate IsCoverage(p: real) {
    0.0 < p <= 1.0
  }

  /** For a bounds rectangle and a coverage in (0, 1] the panel fits on screen. */
  lemma PanelInsideBounds(t: RevealType, b: Rect, p: real)
    requires IsBounds(b) && IsCoverage(p)
    ensures InsideOf(PresentedViewForFrame(t, b, p), b)
  {
  }

  /**
   * The offsets of the panel's own frame slide it exactly off screen past its
   * edge, and move it along one axis only.
   */
  lemma OffsetsSlidePanelOffScreen(t: RevealType, b: Rect, p: real)
    requires IsBounds(b) && IsCoverage(p)
    ensures var r := PresentedViewForFrame(t, b, p);
      var dx := PercentageValueX(t, 1.0, r);
      var dy := PercentageValueY(t, 1.0, r);
      && OutsideOf(Moved(r, dx, dy), b)
      && (dx == 0.0 || dy == 0.0)
      && (t == Left ==> Moved(r, dx, dy).x + r.width == 0.0)
      && (t == Right ==> Moved(r, dx, dy).x == b.width)
      && (t == Top ==> Moved(r, dx, dy).y + r.height == 0.0)
      && (t == Bottom ==> Moved(r, dx, dy).y == b.height)
  {
  }

  /**
   * The push displacement (the negated offsets of the panel's frame) is the
   * covered fraction of the bounds, away from the edge.
   */
  lemma PushDisplacementIsCoverage(t: RevealType, b: Rect, p: real)
    ensures var r := PresentedViewForFrame(t, b, p);
      && -PercentageValueX(t, p, r) == (match t case Left => Portion(b.width, p) case Right => -Portion(b.width, p) case _ => 0.0)
      && -PercentageValueY(t, p, r) == (match t case Top => Portion(b.height, p) case Bottom => -Portion(b.height, p) case _ => 0.0)
  {
  }
}
