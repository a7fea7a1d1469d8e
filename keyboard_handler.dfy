/**
 * The index logic of the FormHandler project's KeyboardHandler: which input
 * fields fail validation, which field becomes first responder when the
 * return key is tapped, whether the keyboard shows "done" or "next", and the
 * screen size the keyboard layout works with.
 *
 * Input fields are objects (the handler finds the current responder among
 * them by identity); what the KeyboardHandlerHelper protocol supplies is a
 * class whose validator is a fixed function and which logs the calls made
 * to it.
 */
module KeyboardHandling {

  datatype Option<T> = None | Some(value: T)

  /** UIReturnKeyType */
  datatype ReturnKeyType =
    Default | Go | Google | Join | Next | Route | Search | Send | Yahoo | Done | EmergencyCall | Continue

  /** What an entry of orderedTextFields is: a UITextField, a UITextView, or any other UIView. */
  datatype Role = TextField | TextView | OtherView

  class InputView {
    const role: Role
    /** The `text` property; nil is possible for both text classes. */
    var text: Option<string>
    var returnKeyType: ReturnKeyType

    constructor (role: Role, text: Option<string>, returnKeyType: ReturnKeyType)
      ensures this.role == role && this.text == text && this.returnKeyType == returnKeyType
    {
      this.role := role;
      this.text := text;
      this.returnKeyType := returnKeyType;
    }
  }

  /** String.length(): the number of characters, modelled as sequence length. */
  function Length(s: string): (n: int)
    ensures n >= 0
    ensures n == 0 <==> s == ""
  {
    |s|
  }

  /** `optional ?? ""`: a present string passes through, nil reads as empty. */
  function OrEmpty(text: Option<string>): (s: string)
    ensures text.Some? ==> s == text.value
    ensures s == "" <==> text.None? || text.value == ""
  {
    match text
    case Some(s) => s
    case None => ""
  }

  /**
   * The text validateInputFields hands to the validator for `view`: its own
   * text for a text field or a text view (nil read as empty), "" otherwise.
   */
  function InputText(view: InputView): (text: string)
    reads view
    ensures view.role != OtherView && view.text.Some? ==> text == view.text.value
    ensures text == "" <==> !ValidateView(view)
  {
    if view.role == OtherView then "" else OrEmpty(view.text)
  }

  /** The indices below `n` whose text the validator rejects, in increasing order. */
  function FailingIndices(fields: seq<InputView>, validator: (int, string) -> bool, n: nat): (r: seq<int>)
    requires n <= |fields|
    reads fields
    ensures |r| <= n
  {
    if n == 0 then []
    else FailingIndices(fields, validator, n - 1) +
         (if validator(n - 1, InputText(fields[n - 1])) then [] else [n - 1])
  }

  /** The failing indices are below `n` and strictly increasing. */
  lemma {:induction false} FailingIndicesAscend(fields: seq<InputView>, validator: (int, string) -> bool, n: nat)
    requires n <= |fields|
    ensures var r := FailingIndices(fields, validator, n);
      && (forall i :: 0 <= i < |r| ==> 0 <= r[i] < n)
      && (forall i, j :: 0 <= i < j < |r| ==> r[i] < r[j])
  {
    if n > 0 {
      FailingIndicesAscend(fields, validator, n - 1);
      if !validator(n - 1, InputText(fields[n - 1])) {
        assert FailingIndices(fields, validator, n) == FailingIndices(fields, validator, n - 1) + [n - 1];
      }
    }
  }

  /** An index below `n` is collected exactly when the validator rejects its text. */
  lemma {:induction false} FailingIndicesCollectTheRejected(fields: seq<InputView>, validator: (int, string) -> bool,
                                                            n: nat)
    requires n <= |fields|
    ensures forall k :: 0 <= k < n ==>
      (k in FailingIndices(fields, validator, n) <==> !validator(k, InputText(fields[k])))
  {
    if n > 0 {
      FailingIndicesCollectTheRejected(fields, validator, n - 1);
      FailingIndicesAscend(fields, validator, n - 1);
      assert n - 1 !in FailingIndices(fields, validator, n - 1);
      if !validator(n - 1, InputText(fields[n - 1])) {
        assert FailingIndices(fields, validator, n) == FailingIndices(fields, validator, n - 1) + [n - 1];
      }
    }
  }

  /**
   * The failing indices are increasing, in range, and are exactly the
   * indices whose text the validator rejects.
   */
  lemma FailingIndicesAreTheRejected(fields: seq<InputView>, validator: (int, string) -> bool, n: nat)
    requires n <= |fields|
    ensures var r := FailingIndices(fields, validator, n);
      && (forall i :: 0 <= i < |r| ==> 0 <= r[i] < n)
      && (forall i, j :: 0 <= i < j < |r| ==> r[i] < r[j])
      && (forall k :: 0 <= k < n ==> (k in r <==> !validator(k, InputText(fields[k]))))
  {
    FailingIndicesAscend(fields, validator, n);
    FailingIndicesCollectTheRejected(fields, validator, n);
  }

  /** No index fails exactly when the validator accepts every field. */
  lemma NothingFailsIffAllAccepted(fields: seq<InputView>, validator: (int, string) -> bool, n: nat)
    requires n <= |fields|
    ensures FailingIndices(fields, validator, n) == [] <==> forall k :: 0 <= k < n ==> validator(k, InputText(fields[k]))
  {
    var r := FailingIndices(fields, validator, n);
    FailingIndicesAreTheRejected(fields, validator, n);
    if r != [] {
      assert r[0] in r;
    }
  }

  /** The calls one validateInputFields makes to the helper. */
  datatype HelperCall =
    | CleanupErrorMessage
    | ValidateItem(index: int, text: string)
    | SubmitButtonTapped

  /** validateItemAtIndex calls for the fields below `n`, in order. */
  function ValidationCalls(fields: seq<InputView>, n: nat): seq<HelperCall>
    requires n <= |fields|
    reads fields
  {
    if n == 0 then [] else ValidationCalls(fields, n - 1) + [ValidateItem(n - 1, InputText(fields[n - 1]))]
  }

  /** validateView: does the field hold text? Only text fields and text views can. */
  function ValidateView(view: InputView): (valid: bool)
    reads view
    ensures valid <==> view.role != OtherView && view.text.Some? && view.text.value != ""
  {
    match view.role
    case TextField => view.text.Some? && Length(view.text.value) > 0
    case TextView => view.text.Some? && Length(view.text.value) > 0
    case OtherView => false
  }

  /** How many of the first `n` views fail validateView. */
  function EmptyCount(views: seq<InputView>, n: nat): nat
    requires n <= |views|
    reads views
  {
    if n == 0 then 0 else EmptyCount(views, n - 1) + (if ValidateView(views[n - 1]) then 0 else 1)
  }

  /** Among the first `n` views, `k` is the only one without text. */
  predicate OnlyEmptyAmong(views: seq<InputView>, n: nat, k: int)
    requires n <= |views|
    reads views
  {
    && 0 <= k < n && !ValidateView(views[k])
    && forall j :: 0 <= j < n && j != k ==> ValidateView(views[j])
  }

  lemma {:induction false} EmptyCountZero(views: seq<InputView>, n: nat)
    requires n <= |views|
    ensures EmptyCount(views, n) == 0 <==> forall j :: 0 <= j < n ==> ValidateView(views[j])
  {
    if n > 0 {
      EmptyCountZero(views, n - 1);
    }
  }

  /** Counting to one is the same as there being exactly one empty field. */
  lemma {:induction false} EmptyCountOne(views: seq<InputView>, n: nat)
    requires n <= |views|
    ensures EmptyCount(views, n) == 1 <==> exists k :: OnlyEmptyAmong(views, n, k)
  {
    if n == 0 {
      assert forall k :: !OnlyEmptyAmong(views, n, k);
    } else if ValidateView(views[n - 1]) {
      EmptyCountOne(views, n - 1);
      if exists k :: OnlyEmptyAmong(views, n, k) {
        var k :| OnlyEmptyAmong(views, n, k);
        assert OnlyEmptyAmong(views, n - 1, k);
      }
      var m := n - 1;
      if exists k :: OnlyEmptyAmong(views, m, k) {
        var k :| OnlyEmptyAmong(views, m, k);
        assert OnlyEmptyAmong(views, n, k);
      }
    } else {
      EmptyCountZero(views, n - 1);
      if EmptyCount(views, n) == 1 {
        assert OnlyEmptyAmong(views, n, n - 1);
      }
      if exists k :: OnlyEmptyAmong(views, n, k) {
        var k :| OnlyEmptyAmong(views, n, k);
        assert k == n - 1;
      }
    }
  }

  /** indexOf by identity: the first position of `view`, or None. */
  function IndexOf(views: seq<InputView>, view: InputView): (r: Option<nat>)
    ensures r.None? <==> view !in views
    ensures r.Some? ==> r.value < |views| && views[r.value] == view
    ensures r.Some? ==> forall j :: 0 <= j < r.value ==> views[j] != view
  {
    if views == [] then None
    else if views[0] == view then Some(0)
    else match IndexOf(views[1..], view)
      case None => None
      case Some(i) => Some(i + 1)
  }

  /** The field after `index`, wrapping from the last back to the first. */
  function NextIndex(index: nat, count: nat): (next: nat)
    requires index < count
    ensures next < count
    ensures index + 1 < count ==> next == index + 1
    ensures index == count - 1 ==> next == 0
  {
    if index + 1 < count then index + 1 else 0
  }

  /** The field reached from `index` after `k` taps of the return key. */
  function Advance(index: nat, count: nat, k: nat): (r: nat)
    requires index < count
    ensures r < count
  {
    if k == 0 then index else NextIndex(Advance(index, count, k - 1), count)
  }

  /** Within one lap the taps walk forward and wrap once past the last field. */
  lemma {:induction false} AdvanceWithinOneLap(index: nat, count: nat, k: nat)
    requires index < count && k <= count
    ensures Advance(index, count, k) == if index + k < count then index + k else index + k - count
  {
    if k > 0 {
      AdvanceWithinOneLap(index, count, k - 1);
    }
  }

  /** Fewer than `count` taps from `index` reach field `j`. */
  predicate Reaches(index: nat, count: nat, j: nat)
    requires index < count
  {
    exists k :: 0 <= k < count && Advance(index, count, k) == j
  }

  /** `count` taps come back to the start, and every field is reached before that. */
  lemma CycleVisitsEveryField(index: nat, count: nat)
    requires index < count
    ensures Advance(index, count, count) == index
    ensures forall j: nat :: j < count ==> Reaches(index, count, j)
  {
    AdvanceWithinOneLap(index, count, count);
    forall j: nat | j < count
      ensures Reaches(index, count, j)
    {
      var k := if index <= j then j - index else j + count - index;
      AdvanceWithinOneLap(index, count, k);
    }
  }

  /** The KeyboardHandlerHelper the view controller implements. */
  class FormHelper {
    const orderedTextFields: seq<InputView>
    /** validateItemAtIndex(index, text) */
    const validator: (int, string) -> bool
    /** doneButtonType() */
    const doneButton: ReturnKeyType
    /** The calls made to this helper, in order. */
    var calls: seq<HelperCall>

    constructor (orderedTextFields: seq<InputView>, validator: (int, string) -> bool, doneButton: ReturnKeyType)
      ensures this.orderedTextFields == orderedTextFields && this.validator == validator
      ensures this.doneButton == doneButton && calls == []
    {
      this.orderedTextFields := orderedTextFields;
      this.validator := validator;
      this.doneButton := doneButton;
      calls := [];
    }

    function DoneButtonType(): (key: ReturnKeyType)
      ensures key == doneButton
    {
      doneButton
    }

    method ValidateItemAtIndex(index: int, text: string) returns (valid: bool)
      modifies this`calls
      ensures valid == validator(index, text)
      ensures calls == old(calls) + [ValidateItem(index, text)]
    {
      calls := calls + [ValidateItem(index, text)];
      valid := validator(index, text);
    }

    method CleanupErrorMessageIfExist()
      modifies this`calls
      ensures calls == old(calls) + [CleanupErrorMessage]
    {
      calls := calls + [CleanupErrorMessage];
    }

    method SubmitButtonTapped()
      modifies this`calls
      ensures calls == old(calls) + [HelperCall.SubmitButtonTapped]
    {
      calls := calls + [HelperCall.SubmitButtonTapped];
    }
  }

  /** A first-responder request the handler made of a field. */
  datatype ResponderRequest =
    | Resign(view: InputView)
    | BecomeFirstResponder(view: InputView)

  class KeyboardHandler {
    const helper: FormHelper
    /** The field being edited; a weak reference in the source. */
    var currentFirstResponder: InputView?
    /** The first-responder requests made, in order. */
    var requests: seq<ResponderRequest>

    constructor (helper: FormHelper)
      ensures this.helper == helper && currentFirstResponder == null && requests == []
    {
      this.helper := helper;
      currentFirstResponder := null;
      requests := [];
    }

    /**
     * validateInputFields: clean up old errors, then ask the validator about
     * every field in order; nil when all pass, otherwise the failing indices.
     */
    method ValidateInputFields() returns (failing: Option<seq<int>>)
      modifies helper`calls
      ensures var fields := helper.orderedTextFields;
        helper.calls == old(helper.calls) + [CleanupErrorMessage] + ValidationCalls(fields, |fields|)
      ensures var fields := helper.orderedTextFields;
        failing.None? <==> forall k :: 0 <= k < |fields| ==> helper.validator(k, InputText(fields[k]))
      ensures failing.Some? ==> failing.value == FailingIndices(helper.orderedTextFields, helper.validator,
                                                                |helper.orderedTextFields|)
    {
      helper.CleanupErrorMessageIfExist();
      var fields, validator := helper.orderedTextFields, helper.validator;
      ghost var calls0 := helper.calls;
      var indexes: seq<int> := [];
      for index := 0 to |fields|
        invariant indexes == FailingIndices(fields, validator, index)
        invariant helper.calls == calls0 + ValidationCalls(fields, index)
      {
        var valid := ValidateField(index);
        assert helper.calls == calls0 + ValidationCalls(fields, index + 1);
        if !valid {
          indexes := indexes + [index];
        }
      }
      NothingFailsIffAllAccepted(fields, validator, |fields|);
      if |indexes| > 0 {
        failing := Some(indexes);
      } else {
        failing := None;
      }
    }

    /**
     * One turn of validateInputFields' loop: read the field's text (a text
     * field's, else a text view's, else "") and ask the validator about it.
     */
    method ValidateField(index: nat) returns (valid: bool)
      requires index < |helper.orderedTextFields|
      modifies helper`calls
      ensures var text := InputText(helper.orderedTextFields[index]);
        valid == helper.validator(index, text) && helper.calls == old(helper.calls) + [ValidateItem(index, text)]
    {
      var view := helper.orderedTextFields[index];
      var text := if view.role == TextField then OrEmpty(view.text) else "";
      if Length(text) <= 0 {
        text := if view.role == TextView then OrEmpty(view.text) else "";
      }
      valid := helper.ValidateItemAtIndex(index, text);
    }

    /**
     * updateResponderLoginState: on a "done" key the current field resigns and
     * the form is submitted; otherwise the next field becomes first responder.
     */
    method UpdateResponderLoginState()
      modifies this`requests, helper`calls
      ensures var current := currentFirstResponder;
        current == null ==> requests == old(requests) && helper.calls == old(helper.calls)
      ensures var current := currentFirstResponder;
        current != null && current.role != OtherView && current.returnKeyType == Done ==>
          requests == old(requests) + [Resign(current)] && helper.calls == old(helper.calls) + [HelperCall.SubmitButtonTapped]
      ensures var current, fields := currentFirstResponder, helper.orderedTextFields;
        current != null && !(current.role != OtherView && current.returnKeyType == Done) ==>
          && helper.calls == old(helper.calls)
          && (current !in fields ==> requests == old(requests))
          && (current in fields ==>
                && IndexOf(fields, current).Some?
                && requests == old(requests) +
                     [BecomeFirstResponder(fields[NextIndex(IndexOf(fields, current).value, |fields|)])])
    {
      var current := currentFirstResponder;
      if current != null {
        if current.role == TextField && current.returnKeyType == Done {
          requests := requests + [Resign(current)];
          helper.SubmitButtonTapped();
          return;
        }
        if current.role == TextView && current.returnKeyType == Done {
          requests := requests + [Resign(current)];
          helper.SubmitButtonTapped();
          return;
        }
        var index := IndexOf(helper.orderedTextFields, current);
        if index.Some? {
          var nextIndex := if index.value + 1 < |helper.orderedTextFields| then index.value + 1 else 0;
          requests := requests + [BecomeFirstResponder(helper.orderedTextFields[nextIndex])];
        }
      }
    }

    /** textFieldShouldBeginEditing / textViewShouldBeginEditing: remember the field being edited. */
    method ShouldBeginEditing(view: InputView, delegateAnswer: Option<bool>) returns (allow: bool)
      modifies this`currentFirstResponder
      ensures currentFirstResponder == view
      ensures allow == (delegateAnswer.None? || delegateAnswer.value)
    {
      currentFirstResponder := view;
      allow := if delegateAnswer.Some? then delegateAnswer.value else true;
    }

    /**
     * returnKeyForKeyboard: the helper's done key when exactly one field is
     * still empty, "next" otherwise.
     */
    method ReturnKeyForKeyboard() returns (key: ReturnKeyType)
      ensures var fields := helper.orderedTextFields;
        (exists k :: OnlyEmptyAmong(fields, |fields|, k)) ==> key == helper.doneButton
      ensures var fields := helper.orderedTextFields;
        !(exists k :: OnlyEmptyAmong(fields, |fields|, k)) ==> key == Next
    {
      var fields := helper.orderedTextFields;
      var count := 0;
      for i := 0 to |fields|
        invariant count == EmptyCount(fields, i)
      {
        if !ValidateView(fields[i]) {
          count := count + 1;
        }
      }
      EmptyCountOne(fields, |fields|);
      if count == 1 {
        key := helper.DoneButtonType();
        return;
      }
      key := Next;
    }
  }

  /** CGSize */
  datatype Size = Size(width: real, height: real)

  /** UIInterfaceOrientation */
  datatype InterfaceOrientation = Unknown | Portrait | PortraitUpsideDown | LandscapeLeft | LandscapeRight

  /** UIInterfaceOrientationIsLandscape: neither portrait orientation nor unknown. */
  function IsLandscape(orientation: InterfaceOrientation): (landscape: bool)
    ensures landscape <==> orientation !in {Unknown, Portrait, PortraitUpsideDown}
  {
    orientation == LandscapeLeft || orientation == LandscapeRight
  }

  function Min(a: real, b: real): real {
    if a <= b then a else b
  }

  /**
   * UIApplication.sizeInOrientation: the screen bounds, width and height
   * swapped in landscape, less the status bar's thickness when it shows.
   */
  function SizeInOrientation(orientation: InterfaceOrientation, screen: Size, statusBarHidden: bool,
                             statusBarFrame: Size): (size: Size)
    ensures size.width == (if IsLandscape(orientation) then screen.height else screen.width)
    ensures size.width + size.height
         == screen.width + screen.height - (if statusBarHidden then 0.0 else Min(statusBarFrame.width, statusBarFrame.height))
  {
    var size := screen;
    var size := if IsLandscape(orientation) then Size(size.height, size.width) else size;
    if !statusBarHidden then Size(size.width, size.height - Min(statusBarFrame.width, statusBarFrame.height))
    else size
  }

  /** Landscape gives the portrait size with width and height exchanged. */
  lemma LandscapeTransposesPortrait(screen: Size, statusBarHidden: bool, statusBarFrame: Size)
    ensures var portrait := SizeInOrientation(Portrait, screen, true, statusBarFrame);
      SizeInOrientation(LandscapeLeft, screen, true, statusBarFrame) == Size(portrait.height, portrait.width)
    ensures SizeInOrientation(LandscapeLeft, screen, statusBarHidden, statusBarFrame)
         == SizeInOrientation(LandscapeRight, screen, statusBarHidden, statusBarFrame)
    ensures forall o :: !IsLandscape(o) ==>
      SizeInOrientation(o, screen, statusBarHidden, statusBarFrame)
        == SizeInOrientation(Portrait, screen, statusBarHidden, statusBarFrame)
  {
  }

  /**
   * A visible status bar keeps the width and takes the smaller of its two
   * dimensions off the height, whatever the status bar's own orientation.
   */
  lemma StatusBarTakesItsThicknessOffTheHeight(orientation: InterfaceOrientation, screen: Size, statusBarFrame: Size)
    requires statusBarFrame.width >= 0.0 && statusBarFrame.height >= 0.0
    ensures var hidden := SizeInOrientation(orientation, screen, true, statusBarFrame);
      var shown := SizeInOrientation(orientation, screen, false, statusBarFrame);
      && shown.width == hidden.width
      && hidden.height - shown.height == Min(statusBarFrame.width, statusBarFrame.height)
      && shown.height <= hidden.height
      && SizeInOrientation(orientation, screen, false, Size(statusBarFrame.height, statusBarFrame.width)) == shown
  {
  }
}
