/**
 * The slice of the UIKit toolkit the animators and the keyboard handler touch:
 * rectangles and affine transforms (CGFloat modelled as real), views with the
 * properties the animators assign, view controllers, and the transition
 * context the host hands to an animator.
 *
 * A transition context also keeps a log of the steps the animator took while
 * serving it. Each step is appended by the method that performs it (a hook,
 * the addSubview and removeFromSuperview wrappers, completeTransition), so
 * the log is how hook order and "completeTransition exactly once" are
 * observed.
 */
module UIKit {

  /** CGRect */
  datatype Rect = Rect(x: real, y: real, width: real, height: real)

  /** UIView.bounds for a view whose frame is `frame`: same size, origin zero. */
  function Bounds(frame: Rect): Rect {
    Rect(0.0, 0.0, frame.width, frame.height)
  }

  /** The three CGAffineTransforms the animators build. */
  datatype Transform =
    | Identity                          // CGAffineTransformIdentity
    | Scale(sx: real, sy: real)         // CGAffineTransformMakeScale
    | Translation(tx: real, ty: real)   // CGAffineTransformMakeTranslation

  /** What an animation moves: a view's transform and alpha. */
  datatype Look = Look(transform: Transform, alpha: real)

  /** UIModalPresentationStyle */
  datatype ModalPresentationStyle =
    FullScreen | PageSheet | FormSheet | CurrentContext | Custom | OverFullScreen | OverCurrentContext | Popover | NoStyle

  /** `s` with every occurrence of `v` taken out, order otherwise kept. */
  function Without<T(==)>(s: seq<T>, v: T): (r: seq<T>)
    ensures v !in r && |r| <= |s|
    ensures v !in s ==> r == s
  {
    if s == [] then []
    else if s[0] == v then Without(s[1..], v)
    else [s[0]] + Without(s[1..], v)
  }

  lemma {:induction false} WithoutAppend<T>(a: seq<T>, b: seq<T>, v: T)
    ensures Without(a + b, v) == Without(a, v) + Without(b, v)
  {
    if a == [] {
      assert a + b == b;
    } else {
      assert (a + b)[1..] == a[1..] + b;
      WithoutAppend(a[1..], b, v);
    }
  }

  class View {
    var frame: Rect
    var transform: Transform
    var alpha: real
    /** Alpha component of backgroundColor (the scrim's dimming). */
    var backgroundAlpha: real
    /** Controller whose dismissController a single-tap recogniser on this view triggers. */
    var tapTarget: Controller?
    /** Subviews, back to front. */
    var subviews: seq<View>

    /** UIView(frame:) */
    constructor (frame: Rect)
      ensures this.frame == frame && transform == Identity && alpha == 1.0
      ensures backgroundAlpha == 0.0 && tapTarget == null && subviews == []
    {
      this.frame := frame;
      transform := Identity;
      alpha := 1.0;
      backgroundAlpha := 0.0;
      tapTarget := null;
      subviews := [];
    }

    /** Between two states, at most this view's background alpha changed. */
    twostate predicate OnlyBackgroundChanged()
      reads this
    {
      && frame == old(frame) && transform == old(transform) && alpha == old(alpha)
      && tapTarget == old(tapTarget) && subviews == old(subviews)
    }

    /** addSubview: `v` goes on top; a view already here is moved to the top. */
    method AddSubview(v: View)
      modifies this`subviews
      ensures subviews == Without(old(subviews), v) + [v]
    {
      subviews := Without(subviews, v) + [v];
    }

    /** `v.removeFromSuperview()` where this view is `v`'s superview. */
    method RemoveSubview(v: View)
      modifies this`subviews
      ensures subviews == Without(old(subviews), v)
    {
      subviews := Without(subviews, v);
    }
  }

  /**
   * One presentViewController call as the host sees it: the controller, and
   * the presentation style and transitioning delegate it carried at the call,
   * which decide whether a custom animator runs.
   */
  datatype Presentation = Presentation(controller: Controller, style: ModalPresentationStyle, delegate: object?)

  class Controller {
    const view: View
    var modalPresentationStyle: ModalPresentationStyle
    /** The transitioning delegate: an animator object, or none. */
    var transitioningDelegate: object?
    var presentedViewController: Controller?
    /** The presentViewController calls made on this controller, oldest first. */
    var presentations: seq<Presentation>

    constructor (view: View)
      ensures this.view == view && modalPresentationStyle == FullScreen
      ensures transitioningDelegate == null && presentedViewController == null && presentations == []
    {
      this.view := view;
      modalPresentationStyle := FullScreen;
      transitioningDelegate := null;
      presentedViewController := null;
      presentations := [];
    }

    /**
     * presentViewController(_:animated:completion:): the host records the
     * request together with the style and delegate `controller` has now.
     */
    method PresentViewController(controller: Controller)
      modifies this`presentedViewController, this`presentations
      ensures presentedViewController == controller
      ensures presentations == old(presentations) +
                [Presentation(controller, controller.modalPresentationStyle, controller.transitioningDelegate)]
    {
      presentedViewController := controller;
      presentations := presentations +
        [Presentation(controller, controller.modalPresentationStyle, controller.transitioningDelegate)];
    }

    /** dismissController(): dismissViewControllerAnimated on this controller. */
    method DismissController()
      modifies this`presentedViewController
      ensures presentedViewController == null
    {
      presentedViewController := null;
    }
  }

  /** One observable step of an animator serving a transition. */
  datatype Step<H> =
    | Hook(hook: H)                          // a template-method hook was called
    | AddToView                              // containerView.addSubview(toView)
    | RemoveFromView                         // fromView.removeFromSuperview()
    | Animate(fromLook: Look, toLook: Look)  // animateWithDuration began from these looks
    | Complete(success: bool)                // transitionContext.completeTransition(success)

  /** The `success` values passed to completeTransition, in order. */
  function Completions<H>(log: seq<Step<H>>): seq<bool> {
    if log == [] then []
    else (if log[0].Complete? then [log[0].success] else []) + Completions(log[1..])
  }

  lemma {:induction false} CompletionsAppend<H>(a: seq<Step<H>>, b: seq<Step<H>>)
    ensures Completions(a + b) == Completions(a) + Completions(b)
  {
    if a == [] {
      assert a + b == b;
    } else {
      assert (a + b)[1..] == a[1..] + b;
      CompletionsAppend(a[1..], b);
    }
  }

  /** A step list with exactly one completion, carrying `success`. */
  lemma {:induction false} CompletesOnceWith<H>(steps: seq<Step<H>>, k: nat, success: bool)
    requires k < |steps| && steps[k] == Complete(success)
    requires forall j :: 0 <= j < |steps| && j != k ==> !steps[j].Complete?
    ensures Completions(steps) == [success]
  {
    if k == 0 {
      NoCompletions(steps[1..]);
    } else {
      CompletesOnceWith(steps[1..], k - 1, success);
    }
  }

  lemma {:induction false} NoCompletions<H>(steps: seq<Step<H>>)
    requires forall j :: 0 <= j < |steps| ==> !steps[j].Complete?
    ensures Completions(steps) == []
  {
    if steps != [] {
      NoCompletions(steps[1..]);
    }
  }

  /** A log extended by steps whose only completion is the `k`th gained exactly that completion. */
  lemma CompletedOnce<H>(log0: seq<Step<H>>, steps: seq<Step<H>>, k: nat, success: bool)
    requires k < |steps| && steps[k] == Complete(success)
    requires forall j :: 0 <= j < |steps| && j != k ==> !steps[j].Complete?
    ensures Completions(log0 + steps) == Completions(log0) + [success]
  {
    CompletesOnceWith(steps, k, success);
    CompletionsAppend(log0, steps);
  }

  /** A log extended by steps without a completion has the same completions. */
  lemma NoneCompleted<H>(log0: seq<Step<H>>, steps: seq<Step<H>>)
    requires forall j :: 0 <= j < |steps| ==> !steps[j].Complete?
    ensures Completions(log0 + steps) == Completions(log0)
  {
    NoCompletions(steps);
    CompletionsAppend(log0, steps);
  }

  /** UIViewControllerContextTransitioning, with the log of what the animator did. */
  class TransitionContext<H> {
    const fromController: Controller
    const toController: Controller
    const containerView: View
    var log: seq<Step<H>>

    constructor (fromController: Controller, toController: Controller, containerView: View)
      ensures this.fromController == fromController && this.toController == toController
      ensures this.containerView == containerView && log == []
    {
      this.fromController := fromController;
      this.toController := toController;
      this.containerView := containerView;
      log := [];
    }

    method CompleteTransition(success: bool)
      modifies this`log
      ensures log == old(log) + [Complete(success)]
    {
      log := log + [Complete(success)];
    }
  }

  /** `containerView.addSubview(v)` while serving a transition: the step is noted by the call itself. */
  method AddSubviewLogged<H>(containerView: View, v: View, transitionContext: TransitionContext<H>)
    modifies containerView`subviews, transitionContext`log
    ensures containerView.subviews == Without(old(containerView.subviews), v) + [v]
    ensures transitionContext.log == old(transitionContext.log) + [AddToView]
  {
    containerView.AddSubview(v);
    transitionContext.log := transitionContext.log + [AddToView];
  }

  /** `v.removeFromSuperview()` while serving a transition: the step is noted by the call itself. */
  method RemoveFromSuperviewLogged<H>(containerView: View, v: View, transitionContext: TransitionContext<H>)
    modifies containerView`subviews, transitionContext`log
    ensures containerView.subviews == Without(old(containerView.subviews), v)
    ensures transitionContext.log == old(transitionContext.log) + [RemoveFromView]
  {
    containerView.RemoveSubview(v);
    transitionContext.log := transitionContext.log + [RemoveFromView];
  }
}
