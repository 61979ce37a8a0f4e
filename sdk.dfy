/**
  The data types of the plugin SDK that the example nodes use: node positions,
  the NodeData tagged union, the data-driven UI description (UIElement,
  ParameterUI), the host-to-node action (UIAction) and the node's answer to it
  (ParameterChange).

  The SDK's own source is not part of this model. The variants follow the
  SDK's documented data model; numbers (Rust `f32`) are modelled as `real`.
 */
module Sdk {

  datatype Option<+T> = None | Some(value: T) {
    /** The carried value, or `default` when there is none. */
    function GetOr(default: T): T {
      match this
      case Some(v) => v
      case None => default
    }
  }

  /** Success or failure of an operation that returns nothing on success. */
  datatype Outcome<+E> = Pass | Fail(error: E)

  /** A 2D position in the graph editor (`Pos2`). */
  datatype Pos2 = Pos2(x: real, y: real)

  /** Three numbers, used by the Vector3 and Color variants. */
  datatype Vec3 = Vec3(x: real, y: real, z: real)

  /** Parameter values and process() inputs and outputs. */
  datatype NodeData =
    | Float(f: real)
    | Vector3(v: Vec3)
    | Color(rgb: Vec3)
    | String(s: string)
    | Boolean(flag: bool)

  /**
    `NodeData::as_string`. Assumed: it yields a value exactly for the String
    variant, and that value is the variant's text.
   */
  function AsString(value: NodeData): (r: Option<string>)
    ensures r.Some? <==> value.String?
    ensures r.Some? ==> value == String(r.value)
  {
    match value
    case String(s) => Some(s)
    case _ => None
  }

  /**
    `NodeData::as_float`. Assumed: it yields a value exactly for the Float
    variant (no conversion from Boolean, Vector3 or String), and that value is
    the variant's number.
   */
  function AsFloat(value: NodeData): (r: Option<real>)
    ensures r.Some? <==> value.Float?
    ensures r.Some? ==> value == Float(r.value)
  {
    match value
    case Float(f) => Some(f)
    case _ => None
  }

  /** One element of a node's declarative parameter interface. */
  datatype UIElement =
    | Heading(text: string)
    | Label(text: string)
    | Separator
    | TextEdit(caption: string, textValue: string, parameterName: string)
    | Checkbox(caption: string, checked: bool, parameterName: string)
    | Button(caption: string, actionId: string)
    | Slider(caption: string, sliderValue: real, min: real, max: real, parameterName: string)
    | Vec3Edit(caption: string, vector: Vec3, parameterName: string)
    | ColorEdit(caption: string, color: Vec3, parameterName: string)
    | Horizontal(children: seq<UIElement>)
    | Vertical(children: seq<UIElement>)

  /** The interface a node describes; the host alone renders it. */
  datatype ParameterUI = ParameterUI(elements: seq<UIElement>)

  /** A user interaction, reported by the host to the node. */
  datatype UIAction =
    | ParameterChanged(parameter: string, value: NodeData)
    | ButtonClicked(actionId: string)

  /** The node's authoritative answer to an action: a parameter and its new value. */
  datatype ParameterChange = ParameterChange(parameter: string, value: NodeData)

  /**
    The action the host reports when the user commits element `e` showing the
    value it currently displays: a parameter-bound widget reports
    ParameterChanged with its parameter name and a value of the widget's
    variant, a button reports ButtonClicked, and display-only elements report
    nothing. Layout containers are not descended into.
   */
  function CommitAction(e: UIElement): (r: Option<UIAction>)
    ensures r.Some? && r.value.ParameterChanged? ==>
      (e.TextEdit? || e.Checkbox? || e.Slider? || e.Vec3Edit? || e.ColorEdit?) &&
      r.value.parameter == e.parameterName
    ensures (e.Heading? || e.Label? || e.Separator? || e.Horizontal? || e.Vertical?) <==> r.None?
  {
    match e
    case TextEdit(_, text, name) => Some(ParameterChanged(name, String(text)))
    case Checkbox(_, checked, name) => Some(ParameterChanged(name, Boolean(checked)))
    case Slider(_, v, _, _, name) => Some(ParameterChanged(name, Float(v)))
    case Vec3Edit(_, v, name) => Some(ParameterChanged(name, Vector3(v)))
    case ColorEdit(_, c, name) => Some(ParameterChanged(name, Color(c)))
    case Button(_, id) => Some(ButtonClicked(id))
    case _ => None
  }
}
