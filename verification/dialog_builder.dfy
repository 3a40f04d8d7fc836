/**
 * Interactive dialogs (forms) and the fluent builder that assembles them.
 */
module DialogBuilder {
  import opened Wrappers
  import opened Js

  datatype ElementType = TextType | SelectType | RadioType | BoolType {
    /** The element's `type` field. */
    function Name(): string {
      match this
      case TextType => "text"
      case SelectType => "select"
      case RadioType => "radio"
      case BoolType => "bool"
    }
  }

  datatype SelectOption = SelectOption(text: string, value: string)

  /** What the caller supplies for an element: everything but its type.
      A default is a template value (a string or a rendered number). */
  datatype ElementSpec = ElementSpec(
    displayName: string,
    name: string,
    subtype: Option<string>,
    optional: Option<bool>,
    default: Option<Piece>,
    options: Option<seq<SelectOption>>)

  datatype Element = Element(kind: ElementType, spec: ElementSpec)

  datatype Dialog = Dialog(
    callbackId: string,
    title: string,
    introductionText: Option<string>,
    elements: seq<Element>,
    submitLabel: Option<string>,
    notifyOnCancel: Option<bool>,
    state: Option<string>)

  /** The names of a dialog's elements, in order. */
  function ElementNames(d: Dialog): seq<string> {
    seq(|d.elements|, i requires 0 <= i < |d.elements| => d.elements[i].spec.name)
  }

  /** `new DialogBuilder(callbackId, title)`. */
  function NewDialog(callbackId: string, title: string): (r: Dialog)
    ensures r.callbackId == callbackId && r.title == title && r.elements == []
    ensures r.introductionText.None? && r.submitLabel.None? && r.notifyOnCancel.None? && r.state.None?
  {
    Dialog(callbackId, title, None, [], None, None, None)
  }

  /** `introductionText`: sets that field and nothing else. */
  function IntroductionText(d: Dialog, text: string): (r: Dialog)
    ensures r.introductionText == Some(text) && r.(introductionText := d.introductionText) == d
  {
    d.(introductionText := Some(text))
  }

  /** `submitLabel`: sets that field and nothing else. */
  function SubmitLabel(d: Dialog, submit: string): (r: Dialog)
    ensures r.submitLabel == Some(submit) && r.(submitLabel := d.submitLabel) == d
  {
    d.(submitLabel := Some(submit))
  }

  /** `notifyOnCancel`: sets that field and nothing else. */
  function NotifyOnCancel(d: Dialog, notify: bool): (r: Dialog)
    ensures r.notifyOnCancel == Some(notify) && r.(notifyOnCancel := d.notifyOnCancel) == d
  {
    d.(notifyOnCancel := Some(notify))
  }

  /** `state`: sets that field and nothing else. */
  function State(d: Dialog, state: string): (r: Dialog)
    ensures r.state == Some(state) && r.(state := d.state) == d
  {
    d.(state := Some(state))
  }

  /** `addElement`: appends at the end, keeping the earlier elements. */
  function AddElement(d: Dialog, e: Element): (r: Dialog)
    ensures |r.elements| == |d.elements| + 1
    ensures r.elements[..|d.elements|] == d.elements && r.elements[|d.elements|] == e
    ensures r.(elements := d.elements) == d
  {
    d.(elements := d.elements + [e])
  }

  /** `textElement`: appends the spec as an element of type "text". */
  function TextElement(d: Dialog, spec: ElementSpec): (r: Dialog)
    ensures r.elements == d.elements + [Element(TextType, spec)]
    ensures r.elements[|d.elements|].kind.Name() == "text"
    ensures r.(elements := d.elements) == d
  {
    AddElement(d, Element(TextType, spec))
  }

  /** `selectElement`: appends the spec as an element of type "select". */
  function SelectElement(d: Dialog, spec: ElementSpec): (r: Dialog)
    ensures r.elements == d.elements + [Element(SelectType, spec)]
    ensures r.elements[|d.elements|].kind.Name() == "select"
    ensures r.(elements := d.elements) == d
  {
    AddElement(d, Element(SelectType, spec))
  }

  /** `radioElement`: appends the spec as an element of type "radio". */
  function RadioElement(d: Dialog, spec: ElementSpec): (r: Dialog)
    ensures r.elements == d.elements + [Element(RadioType, spec)]
    ensures r.elements[|d.elements|].kind.Name() == "radio"
    ensures r.(elements := d.elements) == d
  {
    AddElement(d, Element(RadioType, spec))
  }

  /** `booleanElement`: appends the spec as an element of type "bool". */
  function BooleanElement(d: Dialog, spec: ElementSpec): (r: Dialog)
    ensures r.elements == d.elements + [Element(BoolType, spec)]
    ensures r.elements[|d.elements|].kind.Name() == "bool"
    ensures r.(elements := d.elements) == d
  {
    AddElement(d, Element(BoolType, spec))
  }

  /** `build`: a copy of the accumulated dialog. */
  function Build(d: Dialog): (r: Dialog)
    ensures r == d
  {
    d
  }

  /** Elements added one after the other appear in call order, and the
      setters do not disturb them. */
  lemma ElementsInCallOrder(d: Dialog, e1: Element, e2: Element, submit: string, state: string)
    ensures State(SubmitLabel(AddElement(AddElement(d, e1), e2), submit), state).elements
            == d.elements + [e1, e2]
  {
  }
}
