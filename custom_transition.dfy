/**
 * The CustomTransition project's animators: PresentationAnimator (a
 * template method over six overridable hooks), RevealAnimator (overrides
 * four hooks to slide a panel in from an edge over a dimming scrim) and
 * JPOverlayAnimator (replaces the template with an inline scale-and-fade).
 *
 * The three classes are one Dafny class told apart by `kind`; each hook
 * dispatches on it as the Swift override would. UIView.animateWithDuration
 * runs its animations block at once and then its completion block with the
 * `success` the toolkit reports, which is a parameter here. Each hook takes
 * the transition context, which the Swift hook does not, only to log its
 * own call.
 */
module CustomTransition {
  import opened UIKit
  import opened RevealGeometry

  datatype Kind =
    | Plain    // PresentationAnimator
    | Reveal   // RevealAnimator
    | Overlay  // JPOverlayAnimator

  datatype HookName =
    | SetupViewsForAnimation
    | WillStartPresentation
    | AnimatingPresentation
    | DidCompletePresentation
    | WillStartDismiss
    | AnimatingDismiss
    | DidCompleteDismiss

  class PresentationAnimator {
    const kind: Kind
    /** Which way the next animateTransition goes. */
    var isPresenting: bool
    // RevealAnimator's stored properties; the other kinds never read them.
    var shouldPush: bool
    var revealType: RevealType
    var percentageToCover: real
    /** The scrim; a weak reference in the source. */
    var blurView: View?
    var presentedController: Controller?

    /** `animator()`, i.e. `init()` of the class `kind` names. */
    constructor (kind: Kind)
      ensures this.kind == kind && isPresenting
      ensures shouldPush && revealType == Left && percentageToCover == 0.8
      ensures blurView == null && presentedController == null
    {
      this.kind := kind;
      isPresenting := true;
      shouldPush := true;
      revealType := Left;
      percentageToCover := 0.8;
      blurView := null;
      presentedController := null;
    }

    /** The views one transition works on are distinct, and none is the scrim. */
    predicate Separate(fromView: View, toView: View, containerView: View)
      reads this
    {
      && fromView != toView && fromView != containerView && toView != containerView
      && blurView != fromView && blurView != toView && blurView != containerView
    }

    /** This transition left the scrim handle, the presented controller and the scrim's fields alone. */
    twostate predicate ScrimUntouched()
      reads this, blurView
    {
      && blurView == old(blurView) && presentedController == old(presentedController)
      && (blurView != null ==>
            blurView.OnlyBackgroundChanged() && blurView.backgroundAlpha == old(blurView.backgroundAlpha))
    }

    /**
     * What the template's presenting branch leaves behind: the steps it
     * logs and, per kind, the state of the views and of the scrim.
     */
    twostate predicate PresentedThroughHooks(fromController: Controller, toController: Controller, fromView: View,
                                             toView: View, containerView: View,
                                             transitionContext: TransitionContext<HookName>, success: bool)
      reads this, blurView, fromView, toView, containerView, transitionContext
    {
      && fromView.alpha == old(fromView.alpha)
      && (kind == Plain ==>
            && transitionContext.log == old(transitionContext.log) +
                 [Hook(HookName.SetupViewsForAnimation), Hook(HookName.WillStartPresentation), AddToView,
                  Animate(Look(old(fromView.transform), old(fromView.alpha)), Look(Scale(0.0, 0.0), 0.0)),
                  Hook(HookName.AnimatingPresentation), Hook(HookName.DidCompletePresentation), Complete(success)]
            && toView.transform == Identity && toView.alpha == 1.0 && toView.frame == old(toView.frame)
            && fromView.transform == old(fromView.transform)
            && containerView.subviews == Without(old(containerView.subviews), toView) + [toView]
            && ScrimUntouched())
      && (kind == Reveal ==>
            var panel := PresentedViewForFrame(revealType, Bounds(fromView.frame), percentageToCover);
            && transitionContext.log == old(transitionContext.log) +
                 [Hook(HookName.SetupViewsForAnimation), Hook(HookName.WillStartPresentation), AddToView,
                  Animate(Look(if shouldPush then Identity else old(fromView.transform), fromView.alpha),
                          Look(Translation(PercentageValueX(revealType, 1.0, toView.frame),
                                           PercentageValueY(revealType, 1.0, toView.frame)), old(toView.alpha))),
                  Hook(HookName.AnimatingPresentation), Hook(HookName.DidCompletePresentation), Complete(success)]
            && toView.frame == panel && toView.transform == Identity && toView.alpha == old(toView.alpha)
            && fromView.transform == (if shouldPush
                                      then Translation(-PercentageValueX(revealType, percentageToCover, toView.frame),
                                                       -PercentageValueY(revealType, percentageToCover, toView.frame))
                                      else old(fromView.transform))
            && blurView != null && blurView.backgroundAlpha == 0.5
            && (old(blurView) == null ==>
                  && fresh(blurView) && blurView.frame == Bounds(fromView.frame) && blurView.transform == Identity
                  && blurView.alpha == 1.0 && blurView.tapTarget == fromController && blurView.subviews == []
                  && presentedController == toController
                  && containerView.subviews == Without(old(containerView.subviews), toView) + [blurView, toView])
            && (old(blurView) != null ==>
                  && blurView == old(blurView) && blurView.OnlyBackgroundChanged()
                  && presentedController == old(presentedController)
                  && containerView.subviews == Without(old(containerView.subviews), toView) + [toView]))
    }

    /**
     * What the template's dismissing branch leaves behind: the steps it
     * logs and, per kind, the state of the views and of the scrim.
     */
    twostate predicate DismissedThroughHooks(fromView: View, toView: View, containerView: View,
                                             transitionContext: TransitionContext<HookName>, success: bool)
      reads this, blurView, fromView, toView, containerView, transitionContext
    {
      && transitionContext.log == old(transitionContext.log) +
           [Hook(HookName.WillStartDismiss),
            Animate(Look(old(fromView.transform), old(fromView.alpha)), Look(old(toView.transform), old(toView.alpha))),
            Hook(HookName.AnimatingDismiss), Hook(HookName.WillStartPresentation), Hook(HookName.DidCompleteDismiss),
            RemoveFromView, Complete(success)]
      && toView.frame == old(toView.frame) && toView.alpha == old(toView.alpha)
      && (kind == Plain ==>
            && fromView.transform == Scale(0.0, 0.0) && fromView.alpha == 0.0
            && toView.transform == old(toView.transform)
            && containerView.subviews == Without(old(containerView.subviews), fromView)
            && ScrimUntouched())
      && (kind == Reveal ==>
            && fromView.transform == Translation(PercentageValueX(revealType, 1.0, fromView.frame),
                                                 PercentageValueY(revealType, 1.0, fromView.frame))
            && fromView.alpha == old(fromView.alpha)
            && toView.transform == (if shouldPush then Identity else old(toView.transform))
            && blurView == old(blurView) && presentedController == old(presentedController)
            && (blurView != null ==> blurView.OnlyBackgroundChanged() && blurView.backgroundAlpha == 0.0)
            && containerView.subviews == (if blurView == null then Without(old(containerView.subviews), fromView)
                                          else Without(Without<View>(old(containerView.subviews), blurView), fromView)))
    }

    /** What JPOverlayAnimator's presenting animation leaves behind. */
    twostate predicate OverlayPresented(fromView: View, toView: View, containerView: View,
                                        transitionContext: TransitionContext<HookName>, success: bool)
      reads this, blurView, fromView, toView, containerView, transitionContext
    {
      && transitionContext.log == old(transitionContext.log) +
           [AddToView, Animate(Look(old(fromView.transform), old(fromView.alpha)), Look(Scale(0.0, 0.0), 0.0)),
            Complete(success)]
      && toView.transform == Identity && toView.alpha == 1.0 && toView.frame == old(toView.frame)
      && fromView.transform == old(fromView.transform) && fromView.alpha == old(fromView.alpha)
      && containerView.subviews == Without(old(containerView.subviews), toView) + [toView]
      && ScrimUntouched()
    }

    /** What JPOverlayAnimator's dismissing animation leaves behind. */
    twostate predicate OverlayDismissed(fromView: View, toView: View, containerView: View,
                                        transitionContext: TransitionContext<HookName>, success: bool)
      reads this, blurView, fromView, toView, containerView, transitionContext
    {
      && transitionContext.log == old(transitionContext.log) +
           [Animate(Look(old(fromView.transform), old(fromView.alpha)), Look(old(toView.transform), old(toView.alpha))),
            RemoveFromView, Complete(success)]
      && fromView.transform == Scale(0.0, 0.0) && fromView.alpha == old(fromView.alpha)
      && toView.alpha == 0.0 && toView.transform == old(toView.transform) && toView.frame == old(toView.frame)
      && containerView.subviews == Without(old(containerView.subviews), fromView)
      && ScrimUntouched()
    }

    /**
     * presentController: make this animator the transition's delegate, then
     * present, so the host sees the custom style and this delegate.
     */
    method PresentController(controller: Controller, fromController: Controller)
      modifies controller`modalPresentationStyle, controller`transitioningDelegate
      modifies fromController`presentedViewController, fromController`presentations
      ensures controller.modalPresentationStyle == Custom
      ensures controller.transitioningDelegate == this
      ensures fromController.presentedViewController == controller
      ensures fromController.presentations == old(fromController.presentations) + [Presentation(controller, Custom, this)]
    {
      controller.modalPresentationStyle := Custom;
      controller.transitioningDelegate := this;
      fromController.PresentViewController(controller);
    }

    /** animationControllerForPresentedController: this animator; the flag is not touched. */
    method AnimationControllerForPresentedController(presented: Controller, presenting: Controller, source: Controller)
      returns (animator: PresentationAnimator)
      ensures animator == this
    {
      animator := this;
    }

    /** animationControllerForDismissedController: switch to dismissing, answer this animator. */
    method AnimationControllerForDismissedController(dismissed: Controller)
      returns (animator: PresentationAnimator)
      modifies this`isPresenting
      ensures animator == this && !isPresenting
    {
      isPresenting := false;
      animator := this;
    }

    /** transitionDuration: half a second whatever the context. */
    function TransitionDuration(transitionContext: TransitionContext?<HookName>): (seconds: real)
      ensures seconds == 0.5
    {
      0.5
    }

    /** animateTransition: the host's entry point. */
    method AnimateTransition(transitionContext: TransitionContext<HookName>, success: bool)
      requires Separate(transitionContext.fromController.view, transitionContext.toController.view,
                        transitionContext.containerView)
      modifies this`blurView, this`presentedController, blurView, transitionContext`log
      modifies transitionContext.fromController.view`transform, transitionContext.fromController.view`alpha
      modifies transitionContext.toController.view`frame, transitionContext.toController.view`transform
      modifies transitionContext.toController.view`alpha, transitionContext.containerView`subviews
      ensures Completions(transitionContext.log) == Completions(old(transitionContext.log)) + [success]
      ensures transitionContext.log[|transitionContext.log| - 1] == Complete(success)
      ensures kind != Overlay && isPresenting ==>
        PresentedThroughHooks(transitionContext.fromController, transitionContext.toController,
                              transitionContext.fromController.view, transitionContext.toController.view,
                              transitionContext.containerView, transitionContext, success)
      ensures kind != Overlay && !isPresenting ==>
        DismissedThroughHooks(transitionContext.fromController.view, transitionContext.toController.view,
                              transitionContext.containerView, transitionContext, success)
      ensures kind == Overlay && isPresenting ==>
        OverlayPresented(transitionContext.fromController.view, transitionContext.toController.view,
                         transitionContext.containerView, transitionContext, success)
      ensures kind == Overlay && !isPresenting ==>
        OverlayDismissed(transitionContext.fromController.view, transitionContext.toController.view,
                         transitionContext.containerView, transitionContext, success)
    {
      var toViewController := transitionContext.toController;
      var fromViewController := transitionContext.fromController;
      var duration := TransitionDuration(transitionContext);
      AnimateFromController(fromViewController, toViewController, fromViewController.view, toViewController.view,
                            transitionContext.containerView, duration, transitionContext, success);
    }

    /**
     * animateFromController: the template, or JPOverlayAnimator's replacement
     * of it. Whatever the kind and direction, completeTransition is called
     * exactly once, with the animation's `success`, as the last step.
     */
    method AnimateFromController(fromController: Controller, toController: Controller, fromView: View, toView: View,
                                 containerView: View, duration: real, transitionContext: TransitionContext<HookName>,
                                 success: bool)
      requires Separate(fromView, toView, containerView)
      modifies this`blurView, this`presentedController, blurView, transitionContext`log
      modifies fromView`transform, fromView`alpha, toView`frame, toView`transform, toView`alpha, containerView`subviews
      ensures Completions(transitionContext.log) == Completions(old(transitionContext.log)) + [success]
      ensures transitionContext.log[|transitionContext.log| - 1] == Complete(success)
      ensures kind != Overlay && isPresenting ==>
        PresentedThroughHooks(fromController, toController, fromView, toView, containerView, transitionContext, success)
      ensures kind != Overlay && !isPresenting ==>
        DismissedThroughHooks(fromView, toView, containerView, transitionContext, success)
      ensures kind == Overlay && isPresenting ==>
        OverlayPresented(fromView, toView, containerView, transitionContext, success)
      ensures kind == Overlay && !isPresenting ==>
        OverlayDismissed(fromView, toView, containerView, transitionContext, success)
    {
      if kind == Overlay {
        if isPresenting {
          OverlayPresent(fromView, toView, containerView, transitionContext, success);
        } else {
          OverlayDismiss(fromView, toView, containerView, transitionContext, success);
        }
      } else if isPresenting {
        PresentThroughHooks(fromController, toController, fromView, toView, containerView, transitionContext, success);
      } else {
        DismissThroughHooks(fromView, toView, containerView, transitionContext, success);
      }
    }

    /** The template's presenting branch. */
    method PresentThroughHooks(fromController: Controller, toController: Controller, fromView: View, toView: View,
                               containerView: View, transitionContext: TransitionContext<HookName>, success: bool)
      requires kind != Overlay && Separate(fromView, toView, containerView)
      modifies this`blurView, this`presentedController, blurView, transitionContext`log
      modifies fromView`transform, toView`frame, toView`transform, toView`alpha, containerView`subviews
      ensures Completions(transitionContext.log) == Completions(old(transitionContext.log)) + [success]
      ensures PresentedThroughHooks(fromController, toController, fromView, toView, containerView,
                                    transitionContext, success)
    {
      ghost var log0 := transitionContext.log;
      PrepareForPresentation(fromController, toController, fromView, toView, containerView, transitionContext);
      AnimatePresentation(fromView, toView, containerView, transitionContext, success);
      ghost var steps := transitionContext.log[|log0|..];
      assert transitionContext.log == log0 + steps;
      CompletedOnce(log0, steps, |steps| - 1, success);
    }

    /** The presenting steps before the animation: set up, starting state, add toView on top. */
    method PrepareForPresentation(fromController: Controller, toController: Controller, fromView: View, toView: View,
                                  containerView: View, transitionContext: TransitionContext<HookName>)
      requires Separate(fromView, toView, containerView)
      modifies this`blurView, this`presentedController, blurView, transitionContext`log
      modifies fromView`transform, toView`frame, toView`transform, toView`alpha, containerView`subviews
      ensures Separate(fromView, toView, containerView)
      ensures transitionContext.log == old(transitionContext.log) +
                [Hook(HookName.SetupViewsForAnimation), Hook(HookName.WillStartPresentation), AddToView]
      ensures kind != Reveal ==>
        && toView.transform == Scale(0.0, 0.0) && toView.alpha == 0.0 && toView.frame == old(toView.frame)
        && fromView.transform == old(fromView.transform)
        && containerView.subviews == Without(old(containerView.subviews), toView) + [toView]
        && blurView == old(blurView) && presentedController == old(presentedController)
        && (blurView != null ==>
              blurView.OnlyBackgroundChanged() && blurView.backgroundAlpha == old(blurView.backgroundAlpha))
      ensures kind == Reveal ==>
        && toView.frame == PresentedViewForFrame(revealType, Bounds(fromView.frame), percentageToCover)
        && toView.transform == Translation(PercentageValueX(revealType, 1.0, toView.frame),
                                           PercentageValueY(revealType, 1.0, toView.frame))
        && toView.alpha == old(toView.alpha)
        && fromView.transform == (if shouldPush then Identity else old(fromView.transform))
        && blurView != null && blurView.backgroundAlpha == 0.0
        && (old(blurView) == null ==>
              && fresh(blurView) && blurView.frame == Bounds(fromView.frame) && blurView.transform == Identity
              && blurView.alpha == 1.0 && blurView.tapTarget == fromController && blurView.subviews == []
              && presentedController == toController
              && containerView.subviews == Without(old(containerView.subviews), toView) + [blurView, toView])
        && (old(blurView) != null ==>
              && blurView == old(blurView) && blurView.OnlyBackgroundChanged()
              && presentedController == old(presentedController)
              && containerView.subviews == Without(old(containerView.subviews), toView) + [toView])
    {
      SetupViewsForAnimation(fromController, toController, fromView, toView, containerView, transitionContext);
      WillStartPresentation(fromView, toView, transitionContext);
      AddSubviewLogged(containerView, toView, transitionContext);
      if kind == Reveal && old(blurView) == null {
        WithoutAppend<View>(old(containerView.subviews), [blurView], toView);
      }
    }

    /**
     * The presenting animateWithDuration call: note the starting looks, run
     * the animations block, then the completion block with `success`.
     */
    method AnimatePresentation(fromView: View, toView: View, containerView: View,
                               transitionContext: TransitionContext<HookName>, success: bool)
      requires fromView != toView && blurView != fromView && blurView != toView
      modifies fromView`transform, toView`transform, toView`alpha, blurView, transitionContext`log
      ensures blurView != null ==> blurView.OnlyBackgroundChanged()
      ensures transitionContext.log == old(transitionContext.log) +
                [Animate(Look(old(fromView.transform), old(fromView.alpha)), Look(old(toView.transform), old(toView.alpha))),
                 Hook(HookName.AnimatingPresentation), Hook(HookName.DidCompletePresentation), Complete(success)]
      ensures kind != Reveal ==>
        && toView.transform == Identity && toView.alpha == 1.0
        && fromView.transform == old(fromView.transform)
        && (blurView != null ==> blurView.backgroundAlpha == old(blurView.backgroundAlpha))
      ensures kind == Reveal ==>
        && toView.transform == Identity && toView.alpha == old(toView.alpha)
        && fromView.transform == (if shouldPush
                                  then Translation(-PercentageValueX(revealType, percentageToCover, toView.frame),
                                                   -PercentageValueY(revealType, percentageToCover, toView.frame))
                                  else old(fromView.transform))
        && (blurView != null ==> blurView.backgroundAlpha == 0.5)
    {
      transitionContext.log := transitionContext.log +
        [Animate(Look(fromView.transform, fromView.alpha), Look(toView.transform, toView.alpha))];
      // the animations block
      AnimatingPresentation(fromView, toView, transitionContext);
      // the completion block
      DidCompletePresentation(fromView, toView, containerView, transitionContext);
      transitionContext.CompleteTransition(success);
    }

    /** The template's dismissing branch. */
    method DismissThroughHooks(fromView: View, toView: View, containerView: View,
                               transitionContext: TransitionContext<HookName>, success: bool)
      requires kind != Overlay && Separate(fromView, toView, containerView)
      modifies blurView, transitionContext`log
      modifies fromView`transform, fromView`alpha, toView`transform, containerView`subviews
      ensures Completions(transitionContext.log) == Completions(old(transitionContext.log)) + [success]
      ensures DismissedThroughHooks(fromView, toView, containerView, transitionContext, success)
    {
      ghost var log0 := transitionContext.log;
      WillStartDismiss(fromView, toView, containerView, transitionContext);
      AnimateDismissal(fromView, toView, containerView, transitionContext, success);
      ghost var steps := transitionContext.log[|log0|..];
      assert transitionContext.log == log0 + steps;
      CompletedOnce(log0, steps, |steps| - 1, success);
    }

    /**
     * The dismissing animateWithDuration call: note the starting looks, run
     * the animations block, then the completion block with `success`.
     */
    method AnimateDismissal(fromView: View, toView: View, containerView: View,
                            transitionContext: TransitionContext<HookName>, success: bool)
      requires kind != Overlay && Separate(fromView, toView, containerView)
      modifies blurView, transitionContext`log
      modifies fromView`transform, fromView`alpha, toView`transform, containerView`subviews
      ensures transitionContext.log == old(transitionContext.log) +
                [Animate(Look(old(fromView.transform), old(fromView.alpha)), Look(old(toView.transform), old(toView.alpha))),
                 Hook(HookName.AnimatingDismiss), Hook(HookName.WillStartPresentation), Hook(HookName.DidCompleteDismiss),
                 RemoveFromView, Complete(success)]
      ensures blurView != null ==> blurView.OnlyBackgroundChanged()
      ensures kind == Plain ==>
        && fromView.transform == Scale(0.0, 0.0) && fromView.alpha == 0.0
        && toView.transform == old(toView.transform)
        && containerView.subviews == Without(old(containerView.subviews), fromView)
        && (blurView != null ==> blurView.backgroundAlpha == old(blurView.backgroundAlpha))
      ensures kind == Reveal ==>
        && fromView.transform == Translation(PercentageValueX(revealType, 1.0, fromView.frame),
                                             PercentageValueY(revealType, 1.0, fromView.frame))
        && fromView.alpha == old(fromView.alpha)
        && toView.transform == (if shouldPush then Identity else old(toView.transform))
        && (blurView != null ==> blurView.backgroundAlpha == 0.0)
        && containerView.subviews == (if blurView == null then Without(old(containerView.subviews), fromView)
                                      else Without(Without<View>(old(containerView.subviews), blurView), fromView))
    {
      transitionContext.log := transitionContext.log +
        [Animate(Look(fromView.transform, fromView.alpha), Look(toView.transform, toView.alpha))];
      // the animations block
      AnimatingDismiss(fromView, toView, transitionContext);
      // the completion block
      FinishDismissal(fromView, containerView, transitionContext, success);
    }

    /** The dismissing animation's completion block: last hook, take fromView out, complete. */
    method FinishDismissal(fromView: View, containerView: View, transitionContext: TransitionContext<HookName>,
                           success: bool)
      requires blurView != containerView
      modifies transitionContext`log, containerView`subviews
      ensures transitionContext.log == old(transitionContext.log) +
                [Hook(HookName.DidCompleteDismiss), RemoveFromView, Complete(success)]
      ensures containerView.subviews == (if kind == Reveal && blurView != null
                                         then Without(Without<View>(old(containerView.subviews), blurView), fromView)
                                         else Without(old(containerView.subviews), fromView))
    {
      DidCompleteDismiss(containerView, transitionContext);
      RemoveFromSuperviewLogged(containerView, fromView, transitionContext);
      transitionContext.CompleteTransition(success);
    }

    /** JPOverlayAnimator presenting: scale up from nothing and fade in, no hooks, no scrim. */
    method OverlayPresent(fromView: View, toView: View, containerView: View,
                          transitionContext: TransitionContext<HookName>, success: bool)
      requires Separate(fromView, toView, containerView)
      modifies transitionContext`log, toView`transform, toView`alpha, containerView`subviews
      ensures Completions(transitionContext.log) == Completions(old(transitionContext.log)) + [success]
      ensures OverlayPresented(fromView, toView, containerView, transitionContext, success)
    {
      ghost var log0 := transitionContext.log;
      toView.transform := Scale(0.0, 0.0);
      toView.alpha := 0.0;
      AddSubviewLogged(containerView, toView, transitionContext);
      transitionContext.log := transitionContext.log + [Animate(Look(fromView.transform, fromView.alpha), Look(toView.transform, toView.alpha))];
      // the animations block
      toView.transform := Identity;
      toView.alpha := 1.0;
      // the completion block
      transitionContext.CompleteTransition(success);
      ghost var steps := transitionContext.log[|log0|..];
      assert transitionContext.log == log0 + steps;
      CompletedOnce(log0, steps, |steps| - 1, success);
    }

    /** JPOverlayAnimator dismissing: fromView shrinks away, but it is toView that fades. */
    method OverlayDismiss(fromView: View, toView: View, containerView: View,
                          transitionContext: TransitionContext<HookName>, success: bool)
      requires Separate(fromView, toView, containerView)
      modifies transitionContext`log, fromView`transform, toView`alpha, containerView`subviews
      ensures Completions(transitionContext.log) == Completions(old(transitionContext.log)) + [success]
      ensures OverlayDismissed(fromView, toView, containerView, transitionContext, success)
    {
      ghost var log0 := transitionContext.log;
      transitionContext.log := transitionContext.log + [Animate(Look(fromView.transform, fromView.alpha), Look(toView.transform, toView.alpha))];
      // the animations block
      fromView.transform := Scale(0.0, 0.0);
      toView.alpha := 0.0;
      // the completion block
      RemoveFromSuperviewLogged(containerView, fromView, transitionContext);
      transitionContext.CompleteTransition(success);
      ghost var steps := transitionContext.log[|log0|..];
      assert transitionContext.log == log0 + steps;
      CompletedOnce(log0, steps, |steps| - 1, success);
    }

    /** setupViewsForAnimation: RevealAnimator sizes the panel and adds the scrim once. */
    method SetupViewsForAnimation(fromController: Controller, toController: Controller, fromView: View, toView: View,
                                  containerView: View, transitionContext: TransitionContext<HookName>)
      requires Separate(fromView, toView, containerView)
      modifies this`blurView, this`presentedController, toView`frame, containerView`subviews, transitionContext`log
      ensures transitionContext.log == old(transitionContext.log) + [Hook(HookName.SetupViewsForAnimation)]
      ensures Separate(fromView, toView, containerView)
      ensures kind != Reveal ==>
        && toView.frame == old(toView.frame) && containerView.subviews == old(containerView.subviews)
        && blurView == old(blurView) && presentedController == old(presentedController)
      ensures kind == Reveal ==> toView.frame == PresentedViewForFrame(revealType, Bounds(fromView.frame), percentageToCover)
      ensures kind == Reveal && old(blurView) == null ==>
        && blurView != null && fresh(blurView)
        && blurView.frame == Bounds(fromView.frame) && blurView.transform == Identity && blurView.alpha == 1.0
        && blurView.backgroundAlpha == 0.0 && blurView.tapTarget == fromController && blurView.subviews == []
        && containerView.subviews == old(containerView.subviews) + [blurView]
        && presentedController == toController
      ensures kind == Reveal && old(blurView) != null ==>
        && blurView == old(blurView) && presentedController == old(presentedController)
        && containerView.subviews == old(containerView.subviews)
    {
      transitionContext.log := transitionContext.log + [Hook(HookName.SetupViewsForAnimation)];
      if kind == Reveal {
        toView.frame := PresentedViewForFrame(revealType, Bounds(fromView.frame), percentageToCover);
        if blurView == null {
          var scrim := new View(Bounds(fromView.frame));
          scrim.backgroundAlpha := 0.0;
          containerView.AddSubview(scrim);
          blurView := scrim;
          presentedController := toController;
          scrim.tapTarget := fromController;
        }
      }
    }

    /** willStartPresentationAnimation: the state the animation starts from. */
    method WillStartPresentation(fromView: View, toView: View, transitionContext: TransitionContext<HookName>)
      requires fromView != toView && blurView != fromView && blurView != toView
      modifies fromView`transform, toView`transform, toView`alpha, blurView, transitionContext`log
      ensures transitionContext.log == old(transitionContext.log) + [Hook(HookName.WillStartPresentation)]
      ensures blurView != null ==> blurView.OnlyBackgroundChanged()
      ensures kind != Reveal ==>
        && toView.transform == Scale(0.0, 0.0) && toView.alpha == 0.0
        && fromView.transform == old(fromView.transform)
        && (blurView != null ==> blurView.backgroundAlpha == old(blurView.backgroundAlpha))
      ensures kind == Reveal ==>
        && toView.transform == Translation(PercentageValueX(revealType, 1.0, toView.frame),
                                               PercentageValueY(revealType, 1.0, toView.frame)) && toView.alpha == old(toView.alpha)
        && fromView.transform == (if shouldPush then Identity else old(fromView.transform))
        && (blurView != null ==> blurView.backgroundAlpha == 0.0)
    {
      transitionContext.log := transitionContext.log + [Hook(HookName.WillStartPresentation)];
      if kind == Reveal {
        toView.transform := Translation(PercentageValueX(revealType, 1.0, toView.frame),
                                        PercentageValueY(revealType, 1.0, toView.frame));
        if blurView != null {
          blurView.backgroundAlpha := 0.0;
        }
        if shouldPush {
          fromView.transform := Identity;
        }
      } else {
        toView.transform := Scale(0.0, 0.0);
        toView.alpha := 0.0;
      }
    }

    /** animatingPresentationAnimation: the state the animation ends in. */
    method AnimatingPresentation(fromView: View, toView: View, transitionContext: TransitionContext<HookName>)
      requires fromView != toView && blurView != fromView && blurView != toView
      modifies fromView`transform, toView`transform, toView`alpha, blurView, transitionContext`log
      ensures transitionContext.log == old(transitionContext.log) + [Hook(HookName.AnimatingPresentation)]
      ensures blurView != null ==> blurView.OnlyBackgroundChanged()
      ensures kind != Reveal ==>
        && toView.transform == Identity && toView.alpha == 1.0
        && fromView.transform == old(fromView.transform)
        && (blurView != null ==> blurView.backgroundAlpha == old(blurView.backgroundAlpha))
      ensures kind == Reveal ==>
        && toView.transform == Identity && toView.alpha == old(toView.alpha)
        && fromView.transform == (if shouldPush
                                  then Translation(-PercentageValueX(revealType, percentageToCover, toView.frame),
                                                   -PercentageValueY(revealType, percentageToCover, toView.frame))
                                  else old(fromView.transform))
        && (blurView != null ==> blurView.backgroundAlpha == 0.5)
    {
      transitionContext.log := transitionContext.log + [Hook(HookName.AnimatingPresentation)];
      if kind == Reveal {
        toView.transform := Identity;
        if blurView != null {
          blurView.backgroundAlpha := 0.5;
        }
        if shouldPush {
          fromView.transform := Translation(-PercentageValueX(revealType, percentageToCover, toView.frame),
                                            -PercentageValueY(revealType, percentageToCover, toView.frame));
        }
      } else {
        toView.transform := Identity;
        toView.alpha := 1.0;
      }
    }

    /** didCompletePresentationAnimation: no kind overrides it, and it changes nothing. */
    method DidCompletePresentation(fromView: View, toView: View, containerView: View,
                                   transitionContext: TransitionContext<HookName>)
      modifies transitionContext`log
      ensures transitionContext.log == old(transitionContext.log) + [Hook(HookName.DidCompletePresentation)]
      ensures unchanged(this, fromView, toView, containerView)
    {
      transitionContext.log := transitionContext.log + [Hook(HookName.DidCompletePresentation)];
    }

    /** willStartDismissAnimation: no kind overrides it, and it changes nothing. */
    method WillStartDismiss(fromView: View, toView: View, containerView: View,
                            transitionContext: TransitionContext<HookName>)
      modifies transitionContext`log
      ensures transitionContext.log == old(transitionContext.log) + [Hook(HookName.WillStartDismiss)]
      ensures unchanged(this, fromView, toView, containerView)
    {
      transitionContext.log := transitionContext.log + [Hook(HookName.WillStartDismiss)];
    }

    /** animatingDismiss: willStartPresentation with the two sides swapped, so both hooks are logged. */
    method AnimatingDismiss(fromView: View, toView: View, transitionContext: TransitionContext<HookName>)
      requires fromView != toView && blurView != fromView && blurView != toView
      modifies fromView`transform, fromView`alpha, toView`transform, blurView, transitionContext`log
      ensures transitionContext.log == old(transitionContext.log) +
                [Hook(HookName.AnimatingDismiss), Hook(HookName.WillStartPresentation)]
      ensures blurView != null ==> blurView.OnlyBackgroundChanged()
      ensures kind != Reveal ==>
        && fromView.transform == Scale(0.0, 0.0) && fromView.alpha == 0.0
        && toView.transform == old(toView.transform)
        && (blurView != null ==> blurView.backgroundAlpha == old(blurView.backgroundAlpha))
      ensures kind == Reveal ==>
        && fromView.transform == Translation(PercentageValueX(revealType, 1.0, fromView.frame),
                                                 PercentageValueY(revealType, 1.0, fromView.frame)) && fromView.alpha == old(fromView.alpha)
        && toView.transform == (if shouldPush then Identity else old(toView.transform))
        && (blurView != null ==> blurView.backgroundAlpha == 0.0)
    {
      transitionContext.log := transitionContext.log + [Hook(HookName.AnimatingDismiss)];
      WillStartPresentation(toView, fromView, transitionContext);
    }

    /** didCompleteDismiss: RevealAnimator takes the scrim out of the container. */
    method DidCompleteDismiss(containerView: View, transitionContext: TransitionContext<HookName>)
      requires blurView != containerView
      modifies containerView`subviews, transitionContext`log
      ensures transitionContext.log == old(transitionContext.log) + [Hook(HookName.DidCompleteDismiss)]
      ensures containerView.subviews == (if kind == Reveal && blurView != null
                                         then Without<View>(old(containerView.subviews), blurView)
                                         else old(containerView.subviews))
    {
      transitionContext.log := transitionContext.log + [Hook(HookName.DidCompleteDismiss)];
      if kind == Reveal && blurView != null {
        containerView.RemoveSubview(blurView);
      }
    }
  }
}
