# Custom presentation animators and the form keyboard handler, in Dafny

This project models two reusable iOS components from the MyWork repository and proves properties about them.

**The presentation animators.** There are two copies:
- the newer one, in the CustomTransition project;
- the older one, in the CustomAnimator project.

In each copy, `PresentationAnimator` acts as both the transitioning delegate and the animated-transitioning object of a custom modal presentation:
- Its `isPresenting` flag picks the presenting or the dismissing branch of a template method. That template calls overridable hooks around `UIView.animateWithDuration`. It adds or removes the views and then calls `completeTransition`.
- `RevealAnimator` overrides the hooks. It slides the presented controller in from one screen edge (its `RevealType`) over a dimming scrim. If `shouldPush` is set, it pushes the presenting view aside.
- `JPOverlayAnimator` replaces the template with an inline scale-and-fade.

**The keyboard handler.** `KeyboardHandler` from the FormHandler project:
- validates a form's ordered input fields through its helper;
- moves the first responder to the next field when the return key is tapped, or submits the form on a "done" key;
- chooses the return key: "done" when one field is left to fill, "next" otherwise;
- computes the screen size in an orientation.

The files are:
- `uikit.dfy`: the toolkit surface the components use:
  - `Rect`, `Transform`, `View`, `Controller`;
  - the transition context;
  - a log of `Step`s kept by a transition context. Each step is appended by the method that performs it: every hook logs its own call, `AddSubviewLogged` and `RemoveFromSuperviewLogged` log adding toView and removing fromView, and `completeTransition` logs its call. The template itself writes only the start of each animation. The log therefore records which hooks were called, the views added and removed, each animation and every `completeTransition`, in the order they happened.
- `reveal_geometry.dfy`: the newer `RevealType` (offsets and panel rectangle) and its lemmas.
- `custom_transition.dfy`: the newer animators.
- `reusable_animator.dfy`: the older animators. Their `RevealType` is proved equal to the newer one.
- `keyboard_handler.dfy`: the keyboard handler and its helper protocol.

Some modelling choices:
- The three animator classes of a project are one Dafny class. The class carries a `kind` (`Plain`, `Reveal`, `Overlay`), and every hook dispatches on it the way the Swift overrides do.
- `UIView.animateWithDuration` runs its animations block and then its completion block. The `success` flag the toolkit hands to the completion block is a parameter.
- CGFloat is `real`.
- Every hook takes the transition context as an extra parameter, which the Swift hooks do not have. The hook uses it only to log its own call.

## Model

Paths are relative to the repository root. The abbreviations in the states column stand for these files:
- N: `CustomAnimator/CustomTransition/CustomTransition/Reusable/PresentationAnimator.swift`
- R: `CustomAnimator/CustomTransition/CustomTransition/Reusable/RevealAnimator.swift`
- O: `CustomAnimator/Reusable/PresentationAnimator.swift`
- K: `FormHandler/Reusable/KeyboardHandler.swift`

| member | source | states |
|---|---|---|
| UIKit.Controller.PresentViewController | CustomAnimator/CustomTransition/CustomTransition/Reusable/PresentationAnimator.swift:56 | The controller becomes the presented one, and the call is recorded with the style and delegate the controller carries at that moment. |
| UIKit.AddSubviewLogged | CustomAnimator/CustomTransition/CustomTransition/Reusable/PresentationAnimator.swift:115 | toView is moved to the top of the container (out of any earlier place in it), and the same call logs the addition. |
| UIKit.RemoveFromSuperviewLogged | CustomAnimator/CustomTransition/CustomTransition/Reusable/PresentationAnimator.swift:129 | fromView leaves the container, and the same call logs the removal. |
| UIKit.Controller.DismissController | CustomAnimator/CustomTransition/CustomTransition/Reusable/PresentationAnimator.swift:16-20 | Dismissing leaves the controller with no presented controller. |
| RevealGeometry.PercentageValueX | CustomAnimator/CustomTransition/CustomTransition/Reusable/RevealAnimator.swift:19-28 | The result is -width for Left, +width for Right, and 0 for Top and Bottom. `value` plays no part. |
| RevealGeometry.PercentageValueY | CustomAnimator/CustomTransition/CustomTransition/Reusable/RevealAnimator.swift:30-39 | The result is -height for Top, +height for Bottom, and 0 for Left and Right. `value` plays no part. |
| RevealGeometry.Portion | CustomAnimator/CustomTransition/CustomTransition/Reusable/RevealAnimator.swift:44-52 | A coverage in (0, 1] of a non-negative length lies between 0 and that length. |
| RevealGeometry.PresentedViewForFrame | CustomAnimator/CustomTransition/CustomTransition/Reusable/RevealAnimator.swift:41-54 | Top and Left keep the origin and scale one dimension by the percentage. Bottom ends at frame.height. Right ends at frame.width. |
| RevealGeometry.PanelInsideBounds | CustomAnimator/CustomTransition/CustomTransition/Reusable/RevealAnimator.swift:41-54 | For a bounds rectangle and a coverage in (0, 1], the panel lies inside the bounds on every edge. |
| RevealGeometry.OffsetsSlidePanelOffScreen | CustomAnimator/CustomTransition/CustomTransition/Reusable/RevealAnimator.swift:19-54 | The offsets of the panel's own frame move it along one axis only, to just past its edge, so it no longer overlaps the screen. |
| RevealGeometry.PushDisplacementIsCoverage | CustomAnimator/CustomTransition/CustomTransition/Reusable/RevealAnimator.swift:95-97 | The push translation of the presenting view is the covered fraction of the bounds, directed away from the edge. |
| CustomTransition.PresentationAnimator.constructor | CustomAnimator/CustomTransition/CustomTransition/Reusable/PresentationAnimator.swift:31-43 | A new animator is presenting. The Reveal defaults (push, Left, 0.8; R:57-59) hold, with no scrim and no presented controller. |
| CustomTransition.PresentationAnimator.PresentController | CustomAnimator/CustomTransition/CustomTransition/Reusable/PresentationAnimator.swift:53-57 | Sets the style to Custom and the delegate to this animator, then presents the controller: the one presentation the host records carries the Custom style and this animator as delegate. The controller ends with that style and delegate, and it is the presented controller. |
| CustomTransition.PresentationAnimator.AnimationControllerForPresentedController | CustomAnimator/CustomTransition/CustomTransition/Reusable/PresentationAnimator.swift:63-65 | Answers this animator and changes nothing, so `isPresenting` keeps its value. |
| CustomTransition.PresentationAnimator.AnimationControllerForDismissedController | CustomAnimator/CustomTransition/CustomTransition/Reusable/PresentationAnimator.swift:67-70 | Answers this animator, and `isPresenting` becomes false. Nothing else may change, so the flag never goes back to true. |
| CustomTransition.PresentationAnimator.TransitionDuration | CustomAnimator/CustomTransition/CustomTransition/Reusable/PresentationAnimator.swift:76-78 | The duration is 0.5 s whatever the context. |
| CustomTransition.PresentationAnimator.AnimateTransition | CustomAnimator/CustomTransition/CustomTransition/Reusable/PresentationAnimator.swift:80-90 | Runs animateFromController on the context's two controllers, their views and the container, so the four outcomes of AnimateFromController hold for them. The transition completes exactly once, with `success`, as the last step. |
| CustomTransition.PresentationAnimator.AnimateFromController | CustomAnimator/CustomTransition/CustomTransition/Reusable/PresentationAnimator.swift:109-134 | `kind` and `isPresenting` pick the outcome, and each outcome gives the whole new log and the final state of every view and of the scrim:<br>Plain or Reveal, presenting: the outcome of PresentThroughHooks.<br>Plain or Reveal, dismissing: the outcome of DismissThroughHooks.<br>Overlay, presenting: the outcome of OverlayPresent.<br>Overlay, dismissing: the outcome of OverlayDismiss.<br>In every case, completeTransition is called exactly once, with the animation's `success`, as the last step. |
| CustomTransition.PresentationAnimator.PresentThroughHooks | CustomAnimator/CustomTransition/CustomTransition/Reusable/PresentationAnimator.swift:111-121 | The log is exactly: setup, willStart, add toView, animate, animating, didComplete, complete. fromView's alpha is kept.<br>Plain: toView ends at identity and alpha 1. The scrim handle, the presented controller and every scrim field are unchanged.<br>Reveal: the panel frame is set, toView ends at identity, and fromView is pushed by the negated offsets if `shouldPush`. The scrim ends at half alpha.<br>A new scrim is created only if none existed. It covers the bounds, is untransformed and opaque, has no subviews and is tapped through to fromController. It sits just under toView.<br>An existing scrim changes only its background alpha.<br>toView ends on top of the container in both cases. |
| CustomTransition.PresentationAnimator.PrepareForPresentation | CustomAnimator/CustomTransition/CustomTransition/Reusable/PresentationAnimator.swift:111-115 | The three steps before the animation run in order and leave the starting state of each kind. toView is added on top. An existing scrim changes only its background alpha, and a new one starts untransformed, opaque and empty. The log gains exactly setup, willStart and add toView, each written by the call that performs it. |
| CustomTransition.PresentationAnimator.AnimatePresentation | CustomAnimator/CustomTransition/CustomTransition/Reusable/PresentationAnimator.swift:116-121 | The animation starts from the looks that willStart left. The animations block is animating. The completion block calls didComplete and then completes once. The log gains exactly animate, animating, didComplete, complete. |
| CustomTransition.PresentationAnimator.DismissThroughHooks | CustomAnimator/CustomTransition/CustomTransition/Reusable/PresentationAnimator.swift:123-133 | The log is exactly: willStartDismiss, animate, animatingDismiss, the willStart that animatingDismiss calls, didCompleteDismiss, remove fromView, complete. toView keeps its frame and alpha.<br>Plain: fromView ends at scale 0 and alpha 0. The scrim is untouched.<br>Reveal: fromView slides off past its edge. The scrim goes back to alpha 0 and changes nothing else. Both the scrim and fromView leave the container. |
| CustomTransition.PresentationAnimator.AnimateDismissal | CustomAnimator/CustomTransition/CustomTransition/Reusable/PresentationAnimator.swift:125-132 | The dismissing animation and its completion block have the same effects as in DismissThroughHooks. The scrim changes at most its background alpha, and only Reveal changes that. The log gains exactly animate, animatingDismiss, the willStart it calls, didCompleteDismiss, remove fromView, complete. |
| CustomTransition.PresentationAnimator.FinishDismissal | CustomAnimator/CustomTransition/CustomTransition/Reusable/PresentationAnimator.swift:127-131 | didCompleteDismiss runs first. Then fromView leaves the container (and so does the scrim for Reveal), and the transition completes. The log gains exactly didCompleteDismiss, remove fromView, complete. |
| CustomTransition.PresentationAnimator.OverlayPresent | CustomAnimator/CustomTransition/CustomTransition/Reusable/PresentationAnimator.swift:171-180 | toView starts at scale 0 and alpha 0, is added on top, and ends at identity and alpha 1. fromView is untouched. No hook runs and the scrim is untouched. The transition completes once. |
| CustomTransition.PresentationAnimator.OverlayDismiss | CustomAnimator/CustomTransition/CustomTransition/Reusable/PresentationAnimator.swift:182-190 | fromView is scaled to 0 but keeps its alpha. toView fades to 0 and keeps its transform and frame. fromView is removed, the scrim is untouched, and the transition completes once. |
| CustomTransition.PresentationAnimator.SetupViewsForAnimation | CustomAnimator/CustomTransition/CustomTransition/Reusable/RevealAnimator.swift:64-80 | Reveal always sets the panel frame. It creates, adds and records a scrim (and the presented controller) only when none exists, so repeated calls add at most one scrim. The other kinds change nothing. The hook logs its own call and nothing else. |
| CustomTransition.PresentationAnimator.WillStartPresentation | CustomAnimator/CustomTransition/CustomTransition/Reusable/PresentationAnimator.swift:140-143 | Default: toView goes to scale 0 and alpha 0.<br>Reveal (R:82-89): toView is translated by its own edge offsets, the scrim goes to alpha 0, and fromView goes back to identity if `shouldPush`. The hook logs its own call and nothing else. |
| CustomTransition.PresentationAnimator.AnimatingPresentation | CustomAnimator/CustomTransition/CustomTransition/Reusable/PresentationAnimator.swift:145-148 | Default: toView goes to identity and alpha 1.<br>Reveal (R:91-98): toView goes to identity, the scrim to alpha 0.5, and fromView is translated by the negated offsets of toView's frame if `shouldPush`. The hook logs its own call and nothing else. |
| CustomTransition.PresentationAnimator.DidCompletePresentation | CustomAnimator/CustomTransition/CustomTransition/Reusable/PresentationAnimator.swift:150-152 | The default hook, which no kind overrides, only logs its own call: the animator and the three views are unchanged. |
| CustomTransition.PresentationAnimator.WillStartDismiss | CustomAnimator/CustomTransition/CustomTransition/Reusable/PresentationAnimator.swift:154-156 | The default hook, which no kind overrides, only logs its own call: the animator and the three views are unchanged. |
| CustomTransition.PresentationAnimator.AnimatingDismiss | CustomAnimator/CustomTransition/CustomTransition/Reusable/PresentationAnimator.swift:158-160 | willStart with the two sides swapped. Default: fromView ends at scale 0 and alpha 0. Reveal: fromView slides off along its edge. It logs its own call and then the willStart call it makes. |
| CustomTransition.PresentationAnimator.DidCompleteDismiss | CustomAnimator/CustomTransition/CustomTransition/Reusable/RevealAnimator.swift:100-102 | Reveal takes the scrim out of the container. The other kinds change nothing. The hook logs its own call and nothing else. |
| ReusableAnimator.PercentageValueX | CustomAnimator/Reusable/PresentationAnimator.swift:179-188 | Equal, for every edge and frame, to the newer copy's offset. |
| ReusableAnimator.PercentageValueY | CustomAnimator/Reusable/PresentationAnimator.swift:190-199 | Equal, for every edge and frame, to the newer copy's offset. |
| ReusableAnimator.PresentedViewForFrame | CustomAnimator/Reusable/PresentationAnimator.swift:201-214 | Equal, for every edge, frame and percentage, to the newer copy's rectangle. |
| ReusableAnimator.PanelGeometryAsInNewer | CustomAnimator/Reusable/PresentationAnimator.swift:176-214 | In this copy too, the panel fits in the bounds, and its own offsets move it along one axis, off screen. |
| ReusableAnimator.PresentationAnimator.constructor | CustomAnimator/Reusable/PresentationAnimator.swift:217-222 | A new animator is presenting (O:31), with the Reveal defaults (push, Left, 0.8), no scrim and no presented controller. |
| ReusableAnimator.PresentationAnimator.PresentController | CustomAnimator/Reusable/PresentationAnimator.swift:53-57 | Sets the style to Custom and the delegate to this animator, then presents the controller: the one presentation the host records carries the Custom style and this animator as delegate. The controller ends with that style and delegate, and it is the presented controller. |
| ReusableAnimator.PresentationAnimator.AnimationControllerForPresentedController | CustomAnimator/Reusable/PresentationAnimator.swift:63-65 | Answers this animator and changes nothing. |
| ReusableAnimator.PresentationAnimator.AnimationControllerForDismissedController | CustomAnimator/Reusable/PresentationAnimator.swift:67-70 | Answers this animator, and `isPresenting` becomes false. |
| ReusableAnimator.PresentationAnimator.TransitionDuration | CustomAnimator/Reusable/PresentationAnimator.swift:76-78 | The duration is 0.5 s. |
| ReusableAnimator.PresentationAnimator.AnimateTransition | CustomAnimator/Reusable/PresentationAnimator.swift:80-90 | Runs animateFromController on the context's two controllers, their views and the container, so the four outcomes of AnimateFromController hold for them. The transition completes exactly once, with `success`. |
| ReusableAnimator.PresentationAnimator.AnimateFromController | CustomAnimator/Reusable/PresentationAnimator.swift:109-131 | `kind` and `isPresenting` pick the outcome, and each outcome gives the whole new log and the final state of every view and of the scrim:<br>Plain or Reveal, presenting: the outcome of PresentThroughHooks.<br>Plain or Reveal, dismissing: the outcome of DismissThroughHooks.<br>Overlay, presenting: the outcome of OverlayPresent.<br>Overlay, dismissing: the outcome of OverlayDismiss.<br>In every case, completeTransition is called exactly once, with the animation's `success`. On dismissal, cleanUp is logged after the completion. |
| ReusableAnimator.PresentationAnimator.PresentThroughHooks | CustomAnimator/Reusable/PresentationAnimator.swift:111-120 | The log is exactly: setupForAnimation, setupBefor, add toView, animate, setupForPresentation, complete. No hook runs after the animation. The final view and scrim states, including a new scrim's fields and an existing scrim's unchanged fields, are those of the newer copy. |
| ReusableAnimator.PresentationAnimator.PrepareForPresentation | CustomAnimator/Reusable/PresentationAnimator.swift:111-115 | The three steps before the animation run in order and leave the starting state of each kind. An existing scrim changes only its background alpha, and a new one starts untransformed, opaque and empty. The log gains exactly setupForAnimation, setupBefor and add toView, each written by the call that performs it. |
| ReusableAnimator.PresentationAnimator.AnimatePresentation | CustomAnimator/Reusable/PresentationAnimator.swift:116-120 | The animation starts from setupBefor's looks and ends in setupForPresentation's state. The completion block only completes. The log gains exactly animate, setupForPresentation, complete. |
| ReusableAnimator.PresentationAnimator.DismissThroughHooks | CustomAnimator/Reusable/PresentationAnimator.swift:122-130 | The log is exactly: animate, setupDismiss, the setupBefor that setupDismiss calls, remove fromView, complete, cleanUp. Cleanup comes after the completion, and the transition completes once.<br>Plain: fromView ends at scale 0 and alpha 0, and the scrim is untouched.<br>Reveal: fromView slides off, and the scrim goes back to alpha 0 and changes nothing else. Both leave the container. |
| ReusableAnimator.PresentationAnimator.FinishDismissal | CustomAnimator/Reusable/PresentationAnimator.swift:125-129 | fromView is removed, the transition completes once, and then cleanUp takes the scrim out (Reveal). The log gains exactly remove fromView, complete, cleanUp. |
| ReusableAnimator.PresentationAnimator.OverlayPresent | CustomAnimator/Reusable/PresentationAnimator.swift:269-278 | toView goes from scale 0 and alpha 0 to identity and alpha 1. It ends on top, fromView and the scrim are untouched, and the transition completes once. |
| ReusableAnimator.PresentationAnimator.OverlayDismiss | CustomAnimator/Reusable/PresentationAnimator.swift:280-288 | fromView is scaled to 0 and toView fades. fromView is removed, the scrim is untouched, and the transition completes once. |
| ReusableAnimator.PresentationAnimator.SetupForAnimationFromController | CustomAnimator/Reusable/PresentationAnimator.swift:224-240 | Reveal sets the panel frame. A scrim is created only when none exists. The other kinds change nothing. The hook logs its own call and nothing else. |
| ReusableAnimator.PresentationAnimator.SetupBeforAnimationFromView | CustomAnimator/Reusable/PresentationAnimator.swift:143-146 | Default: toView goes to scale 0 and alpha 0.<br>Reveal (O:242-249): toView goes off along its edge, the scrim to alpha 0, and fromView back to identity if `shouldPush`. The hook logs its own call and nothing else. |
| ReusableAnimator.PresentationAnimator.SetupForPresentationAnimationFromView | CustomAnimator/Reusable/PresentationAnimator.swift:151-154 | Default: toView goes to identity and alpha 1.<br>Reveal (O:251-258): toView goes to identity, the scrim to alpha 0.5, and fromView is pushed if `shouldPush`. The hook logs its own call and nothing else. |
| ReusableAnimator.PresentationAnimator.SetupDismissAnimationFromView | CustomAnimator/Reusable/PresentationAnimator.swift:159-161 | setupBefor with the sides swapped. Default: fromView ends at scale 0 and alpha 0. Reveal: fromView slides off, the scrim goes to alpha 0, and toView goes back to identity if `shouldPush`. It logs its own call and then the setupBefor call it makes. |
| ReusableAnimator.PresentationAnimator.CleanUpFromController | CustomAnimator/Reusable/PresentationAnimator.swift:260-262 | Reveal takes the scrim out of the container. The other kinds change nothing. The hook logs its own call and nothing else. |
| KeyboardHandling.Length | FormHandler/Reusable/KeyboardHandler.swift:57-59 | The length is never negative, and it is zero exactly for the empty string. |
| KeyboardHandling.OrEmpty | FormHandler/Reusable/KeyboardHandler.swift:159 | A present text passes through unchanged. The result is empty exactly when the text is nil or empty. |
| KeyboardHandling.InputText | FormHandler/Reusable/KeyboardHandler.swift:157-163 | A text field's or text view's present text is passed on as it is. The text passed on is empty exactly when validateView calls the field empty. |
| KeyboardHandling.FailingIndices | FormHandler/Reusable/KeyboardHandler.swift:155-168 | At most one index is collected per field examined. |
| KeyboardHandling.FailingIndicesAscend | FormHandler/Reusable/KeyboardHandler.swift:155-168 | The collected indices are below the number of fields examined and strictly increasing. |
| KeyboardHandling.FailingIndicesCollectTheRejected | FormHandler/Reusable/KeyboardHandler.swift:165-167 | An index is collected exactly when the validator rejects that field's text. |
| KeyboardHandling.FailingIndicesAreTheRejected | FormHandler/Reusable/KeyboardHandler.swift:155-168 | The collected indices are strictly increasing and below the field count. They are exactly the indices whose text the validator rejects. |
| KeyboardHandling.NothingFailsIffAllAccepted | FormHandler/Reusable/KeyboardHandler.swift:170-174 | No index is collected exactly when the validator accepts every field. |
| KeyboardHandling.ValidateView | FormHandler/Reusable/KeyboardHandler.swift:288-296 | A view counts as filled exactly when it is a text field or text view whose text is present and non-empty. |
| KeyboardHandling.EmptyCountZero | FormHandler/Reusable/KeyboardHandler.swift:272-279 | The count of empty fields is zero exactly when every field is filled. |
| KeyboardHandling.EmptyCountOne | FormHandler/Reusable/KeyboardHandler.swift:272-283 | The count of empty fields is one exactly when a single field is empty and all others are filled. |
| KeyboardHandling.IndexOf | FormHandler/Reusable/KeyboardHandler.swift:196 | The result is the first position holding this very view, or none exactly when the view is not among the fields. |
| KeyboardHandling.NextIndex | FormHandler/Reusable/KeyboardHandler.swift:198 | The next index is always in range. It is the following field, or the first one after the last. |
| KeyboardHandling.AdvanceWithinOneLap | FormHandler/Reusable/KeyboardHandler.swift:196-199 | Up to `count` return-key taps walk forward one field at a time and wrap once past the last field. |
| KeyboardHandling.CycleVisitsEveryField | FormHandler/Reusable/KeyboardHandler.swift:177-200 | `count` taps come back to the starting field, and every field is reached before that. |
| KeyboardHandling.FormHelper.ValidateItemAtIndex | FormHandler/Reusable/KeyboardHandler.swift:26-27 | Answers the validator's verdict and records the call. |
| KeyboardHandling.FormHelper.CleanupErrorMessageIfExist | FormHandler/Reusable/KeyboardHandler.swift:29-30 | Records the cleanup call. |
| KeyboardHandling.FormHelper.SubmitButtonTapped | FormHandler/Reusable/KeyboardHandler.swift:32-33 | Records the submit call. |
| KeyboardHandling.FormHelper.DoneButtonType | FormHandler/Reusable/KeyboardHandler.swift:23-24 | Returns the helper's configured done key. |
| KeyboardHandling.KeyboardHandler.constructor | FormHandler/Reusable/KeyboardHandler.swift:115-118 | A new handler keeps its helper, with no current responder and no requests made. |
| KeyboardHandling.KeyboardHandler.ValidateInputFields | FormHandler/Reusable/KeyboardHandler.swift:151-175 | Cleanup is called before any validation, and then every field is validated in order. The result is nil exactly when every field passes; otherwise it is the list of failing indices. |
| KeyboardHandling.KeyboardHandler.ValidateField | FormHandler/Reusable/KeyboardHandler.swift:156-165 | The text passed on is the text field's text, else the text view's, else "". The validator's verdict on it is the result. |
| KeyboardHandling.KeyboardHandler.UpdateResponderLoginState | FormHandler/Reusable/KeyboardHandler.swift:181-202 | With no responder, nothing happens.<br>On a done key, the responder resigns and the form is submitted, with no advance.<br>Otherwise, a responder found among the fields hands over to the field at NextIndex, and a responder not among them changes nothing. |
| KeyboardHandling.KeyboardHandler.ShouldBeginEditing | FormHandler/Reusable/KeyboardHandler.swift:320-323 | The view becomes the current responder. The answer is the delegate's answer, or true when there is none. |
| KeyboardHandling.KeyboardHandler.ReturnKeyForKeyboard | FormHandler/Reusable/KeyboardHandler.swift:270-286 | The helper's done key when exactly one field is empty, and "next" otherwise. |
| KeyboardHandling.LandscapeTransposesPortrait | FormHandler/Reusable/KeyboardHandler.swift:68-73 | With the status bar hidden, landscape is the portrait size with width and height exchanged. The two landscape orientations agree, and so do all the non-landscape ones. |
| KeyboardHandling.StatusBarTakesItsThicknessOffTheHeight | FormHandler/Reusable/KeyboardHandler.swift:75-77 | A visible status bar keeps the width and takes the smaller status-bar dimension off the height, whichever way the status bar lies. |
| KeyboardHandling.IsLandscape | FormHandler/Reusable/KeyboardHandler.swift:71 | Landscape means neither portrait orientation and not unknown. |
| KeyboardHandling.SizeInOrientation | FormHandler/Reusable/KeyboardHandler.swift:68-79 | The width is the screen's width, or its height in landscape, and the status bar never changes it. Width plus height is the screen's width plus height, less the status bar's thickness when the status bar shows. |

## Left out

- Weak references are not modelled: the scrim (`blurView`), `presentedController` and `[weak self]` in the animation closures, so the hooks always run. In the source, the container holds the only strong reference to the scrim. Once dismissal takes the scrim out of the container, the scrim is released and `blurView` reads nil, so the next Reveal presentation creates a new scrim. The model keeps the handle. A later presentation then creates no new scrim: it reuses the old one, which is no longer in the container, and only toView is added.
- Animation timing is not modelled, and neither is the asynchrony of `animateWithDuration` or the `duration` argument. The animations block runs, then the completion block runs with the `success` parameter.
- CGFloat rounding is not modelled: geometry is over `real`.
- `CGRect.width` and `.height` give the absolute size of a rectangle. The model reads the stored width and height. The two differ only for a rectangle with a negative size, and the animators never pass one.
- `animateTransition` force-unwraps the two controllers and the container view taken from the context, and traps when one is nil (N:82-86, O:82-86). The model's transition context always has all three, so that trap is not modelled.
- A view's `frame` and `transform` are independent fields in the model. In UIKit the frame is derived from the bounds, the center and the transform. The two agree whenever the transform is the identity. The animators set a frame only on a new scrim and on the presented view before they transform it, which for a freshly presented view is the identity. A presented view whose controller is presented again keeps its last transform, and there the model's frame can differ from UIKit's.
- Adding and removing the scrim are not logged as steps. Their effect is stated through the container's `subviews` instead.
- `removeFromSuperview` is modelled as removal from the transition's container view. In these components that is the only superview the views have.
- Each animator copy's three classes are one class with a `kind`. Reveal's stored properties exist, unused, on the other kinds.
- The tap-gesture recogniser on the scrim is modelled as the view's `tapTarget`. The gesture's firing, and the dismissal it starts, are not modelled beyond `Controller.DismissController`.
- The hooks ignore their controller and container parameters where the source ignores them. Those parameters are dropped from the hook signatures.
- Email, phone and URL validation (`isValidEmail` and the others) use regular-expression matching. The per-index validator is an arbitrary function of index and text.
- `String.length` counts grapheme clusters. The model counts sequence elements.
- A nil `orderedTextFields` is not modelled. `returnKeyForKeyboard` would treat it as no fields and `validateInputFields` would trap; the model always has a list.
- `currentSize` reads the application's status-bar orientation and the main screen. These globals are parameters of `SizeInOrientation`.
- The following are UIKit I/O and layout, and are not modelled:
  - keyboard notifications, scroll-view content insets, `scrollRectToVisible`;
  - the tap gesture that ends editing;
  - the delegate wiring in `init`.
- The text-field and text-view delegate forwarding methods are not modelled, except `ShouldBeginEditing`. That includes `textFieldDidBeginEditing` (which cleans up and sets the field's return key from `returnKeyForKeyboard`) and `textFieldShouldReturn` (which calls `updateResponderLoginState`). These are short compositions of members that are modelled.
- `becomeFirstResponder` and `resignFirstResponder` are recorded as requests. Which view UIKit then makes first responder, and the delegate callbacks that follow, are not modelled.
- The social-login facade and the demo view controllers are not part of this model.
