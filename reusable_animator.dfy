/**
 * The older copy of the animators, in the CustomAnimator project:
 * PresentationAnimator (a template method over five overridable hooks),
 * RevealAnimator (with its own inline RevealType) and JPOverlayAnimator.
 *
 * Its hooks differ from the CustomTransition copy: there is no hook after
 * the presenting animation, no hook before the dismissing one, and the
 * dismissing completion block calls cleanUp only after completeTransition.
 * As there, the three classes are one Dafny class told apart by `kind`.
 */
module ReusableAnimator {
  import opened UIKit
  import RevealGeometry

  datatype Kind =
    | Plain    // PresentationAnimator
    | Reveal   // RevealAnimator
    | Overlay  // JPOverlayAnimator

  datatype HookName =
    | SetupForAnimation
    | SetupBeforAnimation
    | SetupForPresentationAnimation
    | SetupDismissAnimation
    | CleanUp

  /** RevealAnimator.RevealType of this copy. */
  datatype RevealType = Left | Right | Bottom | Top

  /** The same edge in the CustomTransition copy. */
  function AsNewer(t: RevealType): RevealGeometry.RevealType {
    match t
    case Left => RevealGeometry.Left
    case Right => RevealGeometry.Right
    case Bottom => RevealGeometry.Bottom
    case Top => RevealGeometry.Top
  }

  /** percentageValueX of this copy: the same offset as the newer copy's. */
  function PercentageValueX(t: RevealType, value: real, frame: Rect): (dx: real)
    ensures dx == RevealGeometry.PercentageValueX(AsNewer(t), value, frame)
  {
    match t
    case Left => -frame.width
    case Right => frame.width
    case _ => 0.0
  }

  /** percentageValueY of this copy: the same offset as the newer copy's. */
  function PercentageValueY(t: RevealType, value: real, frame: Rect): (dy: real)
    ensures dy == RevealGeometry.PercentageValueY(AsNewer(t), value, frame)
  {
    match t
    case Top => -frame.height
    case Bottom => frame.height
    case _ => 0.0
  }

  /** presentedViewForFrame of this copy: the same rectangle as the newer copy's. */
  function PresentedViewForFrame(t: RevealType, frame: Rect, percentage: real): (r: Rect)
    ensures r == RevealGeometry.PresentedViewForFrame(AsNewer(t), frame, percentage)
  {
    match t
    case Top => Rect(frame.x, frame.y, frame.width, RevealGeometry.Portion(frame.height, percentage))
    case Bottom =>
      var height := RevealGeometry.Portion(frame.height, percentage);
      Rect(frame.x, frame.height - height, frame.width, height)
    case Left => Rect(frame.x, frame.y, RevealGeometry.Portion(frame.width, percentage), frame.height)
    case Right =>
      var width := RevealGeometry.Portion(frame.width, percentage);
      Rect(frame.width - width, frame.y, RevealGeometry.Portion(frame.width, percentage), frame.height)
  }

  /**
   * Through the newer copy's lemmas: in this copy too the panel fits in the
   * bounds and its own offsets push it exactly off screen along one axis.
   */
  lemma PanelGeometryAsInNewer(t: RevealType, b: Rect, p: real)
    requires RevealGeometry.IsBounds(b) && RevealGeometry.IsCoverage(p)
    ensures var r := PresentedViewForFrame(t, b, p);
      && RevealGeometry.InsideOf(r, b)
      && RevealGeometry.OutsideOf(RevealGeometry.Moved(r, PercentageValueX(t, 1.0, r), PercentageValueY(t, 1.0, r)), b)
      && (PercentageValueX(t, 1.0, r) == 0.0 || PercentageValueY(t, 1.0, r) == 0.0)
  {
    RevealGeometry.PanelInsideBounds(AsNewer(t), b, p);
    RevealGeometry.OffsetsSlidePanelOffScreen(AsNewer(t), b, p);
  }

  class PresentationAnimator {
    const kind: Kind
    /** Which way the next animateTransition goes. */
    var isPresenting: bool
    // RevealAnimator's stored properties; the other kinds never read them.
    var shouldPush: bool
    var revealType: RevealType
    /** `percetageToCover` in the source. */
    var percentageToCover: real
    /** The scrim; a weak reference in the source. */
    var blurView: View?
    var presentedController: Controller?

    /** `animator()`, i.e. `init()` of the class `kind` names. */
    constructor (kind: Kind)
      ensures this.kind == kind && isPresenting
      ensures shouldPush && revealType == Left && percentageToCover == 0.8
      ensures blurView == null && presentedController == null
    {
      this.kind := kind;
      isPresenting := true;
      shouldPush := true;
      revealType := Left;
      percentageToCover := 0.8;
      blurView := null;
      presentedController := null;
    }

    /** The views one transition works on are distinct, and none is the scrim. */
    predicate Separate(fromView: View, toView: View, containerView: View)
      reads this
    {
      && fromView != toView && fromView != containerView && toView != containerView
      && blurView != fromView && blurView != toView && blurView != containerView
    }

    /** This transition left the scrim handle, the presented controller and the scrim's fields alone. */
    twostate predicate ScrimUntouched()
      reads this, blurView
    {
      && blurView == old(blurView) && presentedController == old(presentedController)
      && (blurView != null ==>
            blurView.OnlyBackgroundChanged() && blurView.backgroundAlpha == old(blurView.backgroundAlpha))
    }

    /**
     * What the template's presenting branch leaves behind: the steps it
     * logs and, per kind, the state of the views and of the scrim.
     */
    twostate predicate PresentedThroughHooks(fromController: Controller, toController: Controller, fromView: View,
                                             toView: View, containerView: View,
                                             transitionContext: TransitionContext<HookName>, success: bool)
      reads this, blurView, fromView, toView, containerView, transitionContext
    {
      && fromView.alpha == old(fromView.alpha)
      && (kind == Plain ==>
            && transitionContext.log == old(transitionContext.log) +
                 [Hook(HookName.SetupForAnimation), Hook(HookName.SetupBeforAnimation), AddToView,
                  Animate(Look(old(fromView.transform), old(fromView.alpha)), Look(Scale(0.0, 0.0), 0.0)),
                  Hook(HookName.SetupForPresentationAnimation), Complete(success)]
            && toView.transform == Identity && toView.alpha == 1.0 && toView.frame == old(toView.frame)
            && fromView.transform == old(fromView.transform)
            && containerView.subviews == Without(old(containerView.subviews), toView) + [toView]
            && ScrimUntouched())
      && (kind == Reveal ==>
            && transitionContext.log == old(transitionContext.log) +
                 [Hook(HookName.SetupForAnimation), Hook(HookName.SetupBeforAnimation), AddToView,
                  Animate(Look(if shouldPush then Identity else old(fromView.transform), fromView.alpha),
                          Look(Translation(PercentageValueX(revealType, 1.0, toView.frame),
                                           PercentageValueY(revealType, 1.0, toView.frame)), old(toView.alpha))),
                  Hook(HookName.SetupForPresentationAnimation), Complete(success)]
            && toView.frame == PresentedViewForFrame(revealType, Bounds(fromView.frame), percentageToCover)
            && toView.transform == Identity && toView.alpha == old(toView.alpha)
            && fromView.transform == (if shouldPush
                                      then Translation(-PercentageValueX(revealType, percentageToCover, toView.frame),
                                                       -PercentageValueY(revealType, percentageToCover, toView.frame))
                                      else old(fromView.transform))
            && blurView != null && blurView.backgroundAlpha == 0.5
            && (old(blurView) == null ==>
                  && fresh(blurView) && blurView.frame == Bounds(fromView.frame) && blurView.transform == Identity
                  && blurView.alpha == 1.0 && blurView.tapTarget == fromController && blurView.subviews == []
                  && presentedController == toController
                  && containerView.subviews == Without(old(containerView.subviews), toView) + [blurView, toView])
            && (old(blurView) != null ==>
                  && blurView == old(blurView) && blurView.OnlyBackgroundChanged()
                  && presentedController == old(presentedController)
                  && containerView.subviews == Without(old(containerView.subviews), toView) + [toView]))
    }

    /**
     * What the template's dismissing branch leaves behind: the steps it
     * logs, cleanUp after the completion, and, per kind, the state of the
     * views and of the scrim.
     */
    twostate predicate DismissedThroughHooks(fromView: View, toView: View, containerView: View,
                                             transitionContext: TransitionContext<HookName>, success: bool)
      reads this, blurView, fromView, toView, containerView, transitionContext
    {
      && transitionContext.log == old(transitionContext.log) +
           [Animate(Look(old(fromView.transform), old(fromView.alpha)), Look(old(toView.transform), old(toView.alpha))),
            Hook(HookName.SetupDismissAnimation), Hook(HookName.SetupBeforAnimation), RemoveFromView, Complete(success),
            Hook(HookName.CleanUp)]
      && toView.frame == old(toView.frame) && toView.alpha == old(toView.alpha)
      && (kind == Plain ==>
            && fromView.transform == Scale(0.0, 0.0) && fromView.alpha == 0.0
            && toView.transform == old(toView.transform)
            && containerView.subviews == Without(old(containerView.subviews), fromView)
            && ScrimUntouched())
      && (kind == Reveal ==>
            && fromView.transform == Translation(PercentageValueX(revealType, 1.0, fromView.frame),
                                                 PercentageValueY(revealType, 1.0, fromView.frame))
            && fromView.alpha == old(fromView.alpha)
            && toView.transform == (if shouldPush then Identity else old(toView.transform))
            && blurView == old(blurView) && presentedController == old(presentedController)
            && (blurView != null ==> blurView.OnlyBackgroundChanged() && blurView.backgroundAlpha == 0.0)
            && containerView.subviews == (if blurView == null then Without(old(containerView.subviews), fromView)
                                          else Without<View>(Without(old(containerView.subviews), fromView), blurView)))
    }

    /** What JPOverlayAnimator's presenting animation leaves behind. */
    twostate predicate OverlayPresented(fromView: View, toView: View, containerView: View,
                                        transitionContext: TransitionContext<HookName>, success: bool)
      reads this, blurView, fromView, toView, containerView, transitionContext
    {
      && transitionContext.log == old(transitionContext.log) +
           [AddToView, Animate(Look(old(fromView.transform), old(fromView.alpha)), Look(Scale(0.0, 0.0), 0.0)),
            Complete(success)]
      && toView.transform == Identity && toView.alpha == 1.0 && toView.frame == old(toView.frame)
      && fromView.transform == old(fromView.transform) && fromView.alpha == old(fromView.alpha)
      && containerView.subviews == Without(old(containerView.subviews), toView) + [toView]
      && ScrimUntouched()
    }

    /** What JPOverlayAnimator's dismissing animation leaves behind. */
    twostate predicate OverlayDismissed(fromView: View, toView: View, containerView: View,
                                        transitionContext: TransitionContext<HookName>, success: bool)
      reads this, blurView, fromView, toView, containerView, transitionContext
    {
      && transitionContext.log == old(transitionContext.log) +
           [Animate(Look(old(fromView.transform), old(fromView.alpha)), Look(old(toView.transform), old(toView.alpha))),
            RemoveFromView, Complete(success)]
      && fromView.transform == Scale(0.0, 0.0) && fromView.alpha == old(fromView.alpha)
      && toView.alpha == 0.0 && toView.transform == old(toView.transform) && toView.frame == old(toView.frame)
      && containerView.subviews == Without(old(containerView.subviews), fromView)
      && ScrimUntouched()
    }

    /**
     * presentController: make this animator the transition's delegate, then
     * present, so the host sees the custom style and this delegate.
     */
    method PresentController(controller: Controller, fromController: Controller)
      modifies controller`modalPresentationStyle, controller`transitioningDelegate
      modifies fromController`presentedViewController, fromController`presentations
      ensures controller.modalPresentationStyle == Custom
      ensures controller.transitioningDelegate == this
      ensures fromController.presentedViewController == controller
      ensures fromController.presentations == old(fromController.presentations) + [Presentation(controller, Custom, this)]
    {
      controller.modalPresentationStyle := Custom;
      controller.transitioningDelegate := this;
      fromController.PresentViewController(controller);
    }

    /** animationControllerForPresentedController: this animator; the flag is not touched. */
    method AnimationControllerForPresentedController(presented: Controller, presenting: Controller, source: Controller)
      returns (animator: PresentationAnimator)
      ensures animator == this
    {
      animator := this;
    }

    /** animationControllerForDismissedController: switch to dismissing, answer this animator. */
    method AnimationControllerForDismissedController(dismissed: Controller)
      returns (animator: PresentationAnimator)
      modifies this`isPresenting
      ensures animator == this && !isPresenting
    {
      isPresenting := false;
      animator := this;
    }

    /** transitionDuration: half a second whatever the context. */
    function TransitionDuration(transitionContext: TransitionContext?<HookName>): (seconds: real)
      ensures seconds == 0.5
    {
      0.5
    }

    /** animateTransition: the host's entry point. */
    method AnimateTransition(transitionContext: TransitionContext<HookName>, success: bool)
      requires Separate(transitionContext.fromController.view, transitionContext.toController.view,
                        transitionContext.containerView)
      modifies this`blurView, this`presentedController, blurView, transitionContext`log
      modifies transitionContext.fromController.view`transform, transitionContext.fromController.view`alpha
      modifies transitionContext.toController.view`frame, transitionContext.toController.view`transform
      modifies transitionContext.toController.view`alpha, transitionContext.containerView`subviews
      ensures Completions(transitionContext.log) == Completions(old(transitionContext.log)) + [success]
      ensures kind != Overlay && isPresenting ==>
        PresentedThroughHooks(transitionContext.fromController, transitionContext.toController,
                              transitionContext.fromController.view, transitionContext.toController.view,
                              transitionContext.containerView, transitionContext, success)
      ensures kind != Overlay && !isPresenting ==>
        DismissedThroughHooks(transitionContext.fromController.view, transitionContext.toController.view,
                              transitionContext.containerView, transitionContext, success)
      ensures kind == Overlay && isPresenting ==>
        OverlayPresented(transitionContext.fromController.view, transitionContext.toController.view,
                         transitionContext.containerView, transitionContext, success)
      ensures kind == Overlay && !isPresenting ==>
        OverlayDismissed(transitionContext.fromController.view, transitionContext.toController.view,
                         transitionContext.containerView, transitionContext, success)
    {
      var toViewController := transitionContext.toController;
      var fromViewController := transitionContext.fromController;
      var duration := TransitionDuration(transitionContext);
      AnimateFromController(fromViewController, toViewController, fromViewController.view, toViewController.view,
                            transitionContext.containerView, duration, transitionContext, success);
    }

    /**
     * animateFromController: the template, or JPOverlayAnimator's replacement
     * of it. Whatever the kind and direction, completeTransition is called
     * exactly once, with the animation's `success`; `kind` and `isPresenting`
     * pick which of the four outcomes the transition has.
     */
    method AnimateFromController(fromController: Controller, toController: Controller, fromView: View, toView: View,
                                 containerView: View, duration: real, transitionContext: TransitionContext<HookName>,
                                 success: bool)
      requires Separate(fromView, toView, containerView)
      modifies this`blurView, this`presentedController, blurView, transitionContext`log
      modifies fromView`transform, fromView`alpha, toView`frame, toView`transform, toView`alpha, containerView`subviews
      ensures Completions(transitionContext.log) == Completions(old(transitionContext.log)) + [success]
      ensures kind != Overlay && isPresenting ==>
        PresentedThroughHooks(fromController, toController, fromView, toView, containerView, transitionContext, success)
      ensures kind != Overlay && !isPresenting ==>
        DismissedThroughHooks(fromView, toView, containerView, transitionContext, success)
      ensures kind == Overlay && isPresenting ==>
        OverlayPresented(fromView, toView, containerView, transitionContext, success)
      ensures kind == Overlay && !isPresenting ==>
        OverlayDismissed(fromView, toView, containerView, transitionContext, success)
    {
      if kind == Overlay {
        if isPresenting {
          OverlayPresent(fromView, toView, containerView, transitionContext, success);
        } else {
          OverlayDismiss(fromView, toView, containerView, transitionContext, success);
        }
      } else if isPresenting {
        PresentThroughHooks(fromController, toController, fromView, toView, containerView, transitionContext, success);
      } else {
        DismissThroughHooks(fromView, toView, containerView, transitionContext, success);
      }
    }

    /** The template's presenting branch: no hook runs after the animation. */
    method PresentThroughHooks(fromController: Controller, toController: Controller, fromView: View, toView: View,
                               containerView: View, transitionContext: TransitionContext<HookName>, success: bool)
      requires kind != Overlay && Separate(fromView, toView, containerView)
      modifies this`blurView, this`presentedController, blurView, transitionContext`log
      modifies fromView`transform, toView`frame, toView`transform, toView`alpha, containerView`subviews
      ensures Completions(transitionContext.log) == Completions(old(transitionContext.log)) + [success]
      ensures PresentedThroughHooks(fromController, toController, fromView, toView, containerView,
                                    transitionContext, success)
    {
      ghost var log0 := transitionContext.log;
      PrepareForPresentation(fromController, toController, fromView, toView, containerView, transitionContext);
      AnimatePresentation(fromView, toView, transitionContext, success);
      ghost var steps := transitionContext.log[|log0|..];
      assert transitionContext.log == log0 + steps;
      CompletedOnce(log0, steps, |steps| - 1, success);
    }

    /** The presenting steps before the animation: set up, starting state, add toView on top. */
    method PrepareForPresentation(fromController: Controller, toController: Controller, fromView: View, toView: View,
                                  containerView: View, transitionContext: TransitionContext<HookName>)
      requires Separate(fromView, toView, containerView)
      modifies this`blurView, this`presentedController, blurView, transitionContext`log
      modifies fromView`transform, toView`frame, toView`transform, toView`alpha, containerView`subviews
      ensures Separate(fromView, toView, containerView)
      ensures transitionContext.log == old(transitionContext.log) +
                [Hook(HookName.SetupForAnimation), Hook(HookName.SetupBeforAnimation), AddToView]
      ensures kind != Reveal ==>
        && toView.transform == Scale(0.0, 0.0) && toView.alpha == 0.0 && toView.frame == old(toView.frame)
        && fromView.transform == old(fromView.transform)
        && containerView.subviews == Without(old(containerView.subviews), toView) + [toView]
        && blurView == old(blurView) && presentedController == old(presentedController)
        && (blurView != null ==>
              blurView.OnlyBackgroundChanged() && blurView.backgroundAlpha == old(blurView.backgroundAlpha))
      ensures kind == Reveal ==>
        && toView.frame == PresentedViewForFrame(revealType, Bounds(fromView.frame), percentageToCover)
        && toView.transform == Translation(PercentageValueX(revealType, 1.0, toView.frame),
                                           PercentageValueY(revealType, 1.0, toView.frame))
        && toView.alpha == old(toView.alpha)
        && fromView.transform == (if shouldPush then Identity else old(fromView.transform))
        && blurView != null && blurView.backgroundAlpha == 0.0
        && (old(blurView) == null ==>
              && fresh(blurView) && blurView.frame == Bounds(fromView.frame) && blurView.transform == Identity
              && blurView.alpha == 1.0 && blurView.tapTarget == fromController && blurView.subviews == []
              && presentedController == toController
              && containerView.subviews == Without(old(containerView.subviews), toView) + [blurView, toView])
        && (old(blurView) != null ==>
              && blurView == old(blurView) && blurView.OnlyBackgroundChanged()
              && presentedController == old(presentedController)
              && containerView.subviews == Without(old(containerView.subviews), toView) + [toView])
    {
      SetupForAnimationFromController(fromController, toController, fromView, toView, containerView, transitionContext);
      SetupBeforAnimationFromView(fromView, toView, transitionContext);
      AddSubviewLogged(containerView, toView, transitionContext);
      if kind == Reveal && old(blurView) == null {
        WithoutAppend<View>(old(containerView.subviews), [blurView], toView);
      }
    }

    /**
     * The presenting animateWithDuration call: note the starting looks, run
     * the animations block, then the completion block, which only completes.
     */
    method AnimatePresentation(fromView: View, toView: View, transitionContext: TransitionContext<HookName>,
                               success: bool)
      requires fromView != toView && blurView != fromView && blurView != toView
      modifies fromView`transform, toView`transform, toView`alpha, blurView, transitionContext`log
      ensures blurView != null ==> blurView.OnlyBackgroundChanged()
      ensures transitionContext.log == old(transitionContext.log) +
                [Animate(Look(old(fromView.transform), old(fromView.alpha)), Look(old(toView.transform), old(toView.alpha))),
                 Hook(HookName.SetupForPresentationAnimation), Complete(success)]
      ensures kind != Reveal ==>
        && toView.transform == Identity && toView.alpha == 1.0
        && fromView.transform == old(fromView.transform)
        && (blurView != null ==> blurView.backgroundAlpha == old(blurView.backgroundAlpha))
      ensures kind == Reveal ==>
        && toView.transform == Identity && toView.alpha == old(toView.alpha)
        && fromView.transform == (if shouldPush
                                  then Translation(-PercentageValueX(revealType, percentageToCover, toView.frame),
                                                   -PercentageValueY(revealType, percentageToCover, toView.frame))
                                  else old(fromView.transform))
        && (blurView != null ==> blurView.backgroundAlpha == 0.5)
    {
      transitionContext.log := transitionContext.log +
        [Animate(Look(fromView.transform, fromView.alpha), Look(toView.transform, toView.alpha))];
      // the animations block
      SetupForPresentationAnimationFromView(fromView, toView, transitionContext);
      // the completion block
      transitionContext.CompleteTransition(success);
    }

    /**
     * The template's dismissing branch: the animation, then a completion block
     * that removes fromView, completes and only then cleans up.
     */
    method DismissThroughHooks(fromView: View, toView: View, containerView: View,
                               transitionContext: TransitionContext<HookName>, success: bool)
      requires kind != Overlay && Separate(fromView, toView, containerView)
      modifies blurView, transitionContext`log
      modifies fromView`transform, fromView`alpha, toView`transform, containerView`subviews
      ensures Completions(transitionContext.log) == Completions(old(transitionContext.log)) + [success]
      ensures DismissedThroughHooks(fromView, toView, containerView, transitionContext, success)
    {
      ghost var log0 := transitionContext.log;
      transitionContext.log := transitionContext.log +
        [Animate(Look(fromView.transform, fromView.alpha), Look(toView.transform, toView.alpha))];
      // the animations block
      SetupDismissAnimationFromView(fromView, toView, transitionContext);
      // the completion block
      ghost var animationSteps := transitionContext.log[|log0|..];
      assert transitionContext.log == log0 + animationSteps;
      NoneCompleted(log0, animationSteps);
      FinishDismissal(fromView, containerView, transitionContext, success);
    }

    /** The dismissing completion block: remove fromView, complete, then clean up. */
    method FinishDismissal(fromView: View, containerView: View, transitionContext: TransitionContext<HookName>,
                           success: bool)
      requires blurView != containerView
      modifies transitionContext`log, containerView`subviews
      ensures transitionContext.log == old(transitionContext.log) +
                [RemoveFromView, Complete(success), Hook(HookName.CleanUp)]
      ensures Completions(transitionContext.log) == Completions(old(transitionContext.log)) + [success]
      ensures containerView.subviews == (if kind == Reveal && blurView != null
                                         then Without<View>(Without(old(containerView.subviews), fromView), blurView)
                                         else Without(old(containerView.subviews), fromView))
    {
      RemoveFromSuperviewLogged(containerView, fromView, transitionContext);
      transitionContext.CompleteTransition(success);
      CleanUpFromController(containerView, transitionContext);
      CompletedOnce(old(transitionContext.log), [RemoveFromView, Complete(success), Hook(HookName.CleanUp)], 1, success);
    }

    /** JPOverlayAnimator presenting: scale up from nothing and fade in, no hooks, no scrim. */
    method OverlayPresent(fromView: View, toView: View, containerView: View,
                          transitionContext: TransitionContext<HookName>, success: bool)
      requires Separate(fromView, toView, containerView)
      modifies transitionContext`log, toView`transform, toView`alpha, containerView`subviews
      ensures Completions(transitionContext.log) == Completions(old(transitionContext.log)) + [success]
      ensures OverlayPresented(fromView, toView, containerView, transitionContext, success)
    {
      ghost var log0 := transitionContext.log;
      toView.transform := Scale(0.0, 0.0);
      toView.alpha := 0.0;
      AddSubviewLogged(containerView, toView, transitionContext);
      transitionContext.log := transitionContext.log +
        [Animate(Look(fromView.transform, fromView.alpha), Look(toView.transform, toView.alpha))];
      // the animations block
      toView.transform := Identity;
      toView.alpha := 1.0;
      // the completion block
      transitionContext.CompleteTransition(success);
      ghost var steps := transitionContext.log[|log0|..];
      assert transitionContext.log == log0 + steps;
      CompletedOnce(log0, steps, |steps| - 1, success);
    }

    /** JPOverlayAnimator dismissing: fromView shrinks away, but it is toView that fades. */
    method OverlayDismiss(fromView: View, toView: View, containerView: View,
                          transitionContext: TransitionContext<HookName>, success: bool)
      requires Separate(fromView, toView, containerView)
      modifies transitionContext`log, fromView`transform, toView`alpha, containerView`subviews
      ensures Completions(transitionContext.log) == Completions(old(transitionContext.log)) + [success]
      ensures OverlayDismissed(fromView, toView, containerView, transitionContext, success)
    {
      ghost var log0 := transitionContext.log;
      transitionContext.log := transitionContext.log +
        [Animate(Look(fromView.transform, fromView.alpha), Look(toView.transform, toView.alpha))];
      // the animations block
      fromView.transform := Scale(0.0, 0.0);
      toView.alpha := 0.0;
      // the completion block
      RemoveFromSuperviewLogged(containerView, fromView, transitionContext);
      transitionContext.CompleteTransition(success);
      ghost var steps := transitionContext.log[|log0|..];
      assert transitionContext.log == log0 + steps;
      CompletedOnce(log0, steps, |steps| - 1, success);
    }

    /** setupForAnimationFromController: RevealAnimator sizes the panel and adds the scrim once. */
    method SetupForAnimationFromController(fromController: Controller, toController: Controller, fromView: View,
                                           toView: View, containerView: View,
                                           transitionContext: TransitionContext<HookName>)
      requires Separate(fromView, toView, containerView)
      modifies this`blurView, this`presentedController, toView`frame, containerView`subviews, transitionContext`log
      ensures transitionContext.log == old(transitionContext.log) + [Hook(HookName.SetupForAnimation)]
      ensures Separate(fromView, toView, containerView)
      ensures kind != Reveal ==>
        && toView.frame == old(toView.frame) && containerView.subviews == old(containerView.subviews)
        && blurView == old(blurView) && presentedController == old(presentedController)
      ensures kind == Reveal ==>
        toView.frame == PresentedViewForFrame(revealType, Bounds(fromView.frame), percentageToCover)
      ensures kind == Reveal && old(blurView) == null ==>
        && blurView != null && fresh(blurView)
        && blurView.frame == Bounds(fromView.frame) && blurView.transform == Identity && blurView.alpha == 1.0
        && blurView.backgroundAlpha == 0.0 && blurView.tapTarget == fromController && blurView.subviews == []
        && containerView.subviews == old(containerView.subviews) + [blurView]
        && presentedController == toController
      ensures kind == Reveal && old(blurView) != null ==>
        && blurView == old(blurView) && presentedController == old(presentedController)
        && containerView.subviews == old(containerView.subviews)
    {
      transitionContext.log := transitionContext.log + [Hook(HookName.SetupForAnimation)];
      if kind == Reveal {
        toView.frame := PresentedViewForFrame(revealType, Bounds(fromView.frame), percentageToCover);
        if blurView == null {
          var scrim := new View(Bounds(fromView.frame));
          scrim.backgroundAlpha := 0.0;
          containerView.AddSubview(scrim);
          blurView := scrim;
          presentedController := toController;
          scrim.tapTarget := fromController;
        }
      }
    }

    /** setupBeforAnimationFromView: the state the presenting animation starts from. */
    method SetupBeforAnimationFromView(fromView: View, toView: View, transitionContext: TransitionContext<HookName>)
      requires fromView != toView && blurView != fromView && blurView != toView
      modifies fromView`transform, toView`transform, toView`alpha, blurView, transitionContext`log
      ensures transitionContext.log == old(transitionContext.log) + [Hook(HookName.SetupBeforAnimation)]
      ensures blurView != null ==> blurView.OnlyBackgroundChanged()
      ensures kind != Reveal ==>
        && toView.transform == Scale(0.0, 0.0) && toView.alpha == 0.0
        && fromView.transform == old(fromView.transform)
        && (blurView != null ==> blurView.backgroundAlpha == old(blurView.backgroundAlpha))
      ensures kind == Reveal ==>
        && toView.transform == Translation(PercentageValueX(revealType, 1.0, toView.frame),
                                           PercentageValueY(revealType, 1.0, toView.frame))
        && toView.alpha == old(toView.alpha)
        && fromView.transform == (if shouldPush then Identity else old(fromView.transform))
        && (blurView != null ==> blurView.backgroundAlpha == 0.0)
    {
      transitionContext.log := transitionContext.log + [Hook(HookName.SetupBeforAnimation)];
      if kind == Reveal {
        toView.transform := Translation(PercentageValueX(revealType, 1.0, toView.frame),
                                        PercentageValueY(revealType, 1.0, toView.frame));
        if blurView != null {
          blurView.backgroundAlpha := 0.0;
        }
        if shouldPush {
          fromView.transform := Identity;
        }
      } else {
        toView.transform := Scale(0.0, 0.0);
        toView.alpha := 0.0;
      }
    }

    /** setupForPresentationAnimationFromView: the state the presenting animation ends in. */
    method SetupForPresentationAnimationFromView(fromView: View, toView: View,
                                                 transitionContext: TransitionContext<HookName>)
      requires fromView != toView && blurView != fromView && blurView != toView
      modifies fromView`transform, toView`transform, toView`alpha, blurView, transitionContext`log
      ensures transitionContext.log == old(transitionContext.log) + [Hook(HookName.SetupForPresentationAnimation)]
      ensures blurView != null ==> blurView.OnlyBackgroundChanged()
      ensures kind != Reveal ==>
        && toView.transform == Identity && toView.alpha == 1.0
        && fromView.transform == old(fromView.transform)
        && (blurView != null ==> blurView.backgroundAlpha == old(blurView.backgroundAlpha))
      ensures kind == Reveal ==>
        && toView.transform == Identity && toView.alpha == old(toView.alpha)
        && fromView.transform == (if shouldPush
                                  then Translation(-PercentageValueX(revealType, percentageToCover, toView.frame),
                                                   -PercentageValueY(revealType, percentageToCover, toView.frame))
                                  else old(fromView.transform))
        && (blurView != null ==> blurView.backgroundAlpha == 0.5)
    {
      transitionContext.log := transitionContext.log + [Hook(HookName.SetupForPresentationAnimation)];
      if kind == Reveal {
        toView.transform := Identity;
        if blurView != null {
          blurView.backgroundAlpha := 0.5;
        }
        if shouldPush {
          fromView.transform := Translation(-PercentageValueX(revealType, percentageToCover, toView.frame),
                                            -PercentageValueY(revealType, percentageToCover, toView.frame));
        }
      } else {
        toView.transform := Identity;
        toView.alpha := 1.0;
      }
    }

    /** setupDismissAnimationFromView: the "before" hook with the two sides swapped, so both hooks are logged. */
    method SetupDismissAnimationFromView(fromView: View, toView: View, transitionContext: TransitionContext<HookName>)
      requires fromView != toView && blurView != fromView && blurView != toView
      modifies fromView`transform, fromView`alpha, toView`transform, blurView, transitionContext`log
      ensures transitionContext.log == old(transitionContext.log) +
                [Hook(HookName.SetupDismissAnimation), Hook(HookName.SetupBeforAnimation)]
      ensures blurView != null ==> blurView.OnlyBackgroundChanged()
      ensures kind != Reveal ==>
        && fromView.transform == Scale(0.0, 0.0) && fromView.alpha == 0.0
        && toView.transform == old(toView.transform)
        && (blurView != null ==> blurView.backgroundAlpha == old(blurView.backgroundAlpha))
      ensures kind == Reveal ==>
        && fromView.transform == Translation(PercentageValueX(revealType, 1.0, fromView.frame),
                                             PercentageValueY(revealType, 1.0, fromView.frame))
        && fromView.alpha == old(fromView.alpha)
        && toView.transform == (if shouldPush then Identity else old(toView.transform))
        && (blurView != null ==> blurView.backgroundAlpha == 0.0)
    {
      transitionContext.log := transitionContext.log + [Hook(HookName.SetupDismissAnimation)];
      SetupBeforAnimationFromView(toView, fromView, transitionContext);
    }

    /** cleanUpFromController: RevealAnimator takes the scrim out of the container. */
    method CleanUpFromController(containerView: View, transitionContext: TransitionContext<HookName>)
      requires blurView != containerView
      modifies containerView`subviews, transitionContext`log
      ensures transitionContext.log == old(transitionContext.log) + [Hook(HookName.CleanUp)]
      ensures containerView.subviews == (if kind == Reveal && blurView != null
                                         then Without<View>(old(containerView.subviews), blurView)
                                         else old(containerView.subviews))
    {
      transitionContext.log := transitionContext.log + [Hook(HookName.CleanUp)];
      if kind == Reveal && blurView != null {
        containerView.RemoveSubview(blurView);
      }
    }
  }
}
