/**
  The adder node: two numeric parameters, "a" and "b", edited by sliders and
  overwritten by the "A" and "B" inputs of process(), which outputs their sum
  on "Result". The stored values persist between calls.
 */
module MathAdd {
  import opened Sdk

  const AParameter: string := "a"
  const BParameter: string := "b"
  const AInput: string := "A"
  const BInput: string := "B"
  const ResultOutput: string := "Result"
  const SliderMin: real := -100.0
  const SliderMax: real := 100.0

  /** The (name, value) pairs set_parameter and handle_ui_action store: a Float under "a" or "b". */
  predicate Accepts(name: string, value: NodeData) {
    (name == AParameter || name == BParameter) && AsFloat(value).Some?
  }

  /** An action the node acts on: a change of an accepted parameter to an accepted value. */
  predicate AcceptsAction(action: UIAction) {
    action.ParameterChanged? && Accepts(action.parameter, action.value)
  }

  /**
    The value process() keeps for one operand: the input on `port` when it is
    present and a Float (matched directly, not through as_float), else the
    value already stored.
   */
  function Latch(stored: real, inputs: map<string, NodeData>, port: string): real {
    if port in inputs && inputs[port].Float? then inputs[port].f else stored
  }

  /** The operand stored after process() has run on each input map of `history` in turn. */
  function StoredAfter(stored: real, port: string, history: seq<map<string, NodeData>>): real
    decreases |history|
  {
    if history == [] then stored
    else StoredAfter(Latch(stored, history[0], port), port, history[1..])
  }

  /** The most recent Float supplied on `port` in `history`, searching from the end. */
  function LatestFloat(port: string, history: seq<map<string, NodeData>>): Option<real>
    decreases |history|
  {
    if history == [] then None
    else
      var last := history[|history| - 1];
      if port in last && last[port].Float? then Some(last[port].f)
      else LatestFloat(port, history[..|history| - 1])
  }

  lemma {:induction false} StoredAfterSnoc(stored: real, port: string,
                                           history: seq<map<string, NodeData>>,
                                           inputs: map<string, NodeData>)
    ensures StoredAfter(stored, port, history + [inputs]) ==
            Latch(StoredAfter(stored, port, history), inputs, port)
    decreases |history|
  {
    if history == [] {
      assert history + [inputs] == [inputs];
      assert [inputs][1..] == [];
    } else {
      assert (history + [inputs])[0] == history[0];
      assert (history + [inputs])[1..] == history[1..] + [inputs];
      StoredAfterSnoc(Latch(stored, history[0], port), port, history[1..], inputs);
    }
  }

  /**
    Across any sequence of process() calls, an operand holds the last Float
    supplied on its port, or its earlier value when no call supplied one: a
    missing or non-Float input reuses the stored value.
   */
  lemma {:induction false} StoredAfterIsLatest(stored: real, port: string,
                                               history: seq<map<string, NodeData>>)
    ensures StoredAfter(stored, port, history) == LatestFloat(port, history).GetOr(stored)
    decreases |history|
  {
    if history != [] {
      var earlier, last := history[..|history| - 1], history[|history| - 1];
      assert history == earlier + [last];
      StoredAfterSnoc(stored, port, earlier, last);
      StoredAfterIsLatest(stored, port, earlier);
    }
  }

  class MathAddNode {
    var id: string
    var position: Pos2
    var a: real
    var b: real

    /** `MathAddNode::new`; the id, generated from the clock, is passed in. */
    constructor (id: string, position: Pos2)
      ensures this.id == id && this.position == position
      ensures a == 0.0 && b == 0.0
      ensures Id() == id && Position() == position
    {
      this.id := id;
      this.position := position;
      a, b := 0.0, 0.0;
    }

    /** `id`: the identifier fixed at construction; no method changes it. */
    function Id(): (r: string)
      reads this
      ensures r == id
    {
      id
    }

    /** `position`: the position given at construction or by the last SetPosition. */
    function Position(): (r: Pos2)
      reads this
      ensures r == position
    {
      position
    }

    method SetPosition(p: Pos2)
      modifies this
      ensures Position() == p
      ensures Id() == old(Id()) && a == old(a) && b == old(b)
    {
      position := p;
    }

    /** `get_parameter`: "a" and "b" are known, each holding its current number. */
    function GetParameter(name: string): (r: Option<NodeData>)
      reads this
      ensures r.Some? <==> name == AParameter || name == BParameter
      ensures name == AParameter ==> r == Some(Float(a))
      ensures name == BParameter ==> r == Some(Float(b))
      ensures r.Some? ==> Accepts(name, r.value)
    {
      if name == AParameter then Some(Float(a))
      else if name == BParameter then Some(Float(b))
      else None
    }

    /** `set_parameter`: stores an accepted value in its own field only; anything else changes nothing. */
    method SetParameter(name: string, value: NodeData)
      modifies this
      ensures id == old(id) && position == old(position)
      ensures Accepts(name, value) ==> GetParameter(name) == Some(value)
      ensures name != AParameter || !Accepts(name, value) ==> a == old(a)
      ensures name != BParameter || !Accepts(name, value) ==> b == old(b)
    {
      if name == AParameter {
        match AsFloat(value) {
          case Some(val) => a := val;
          case None =>
        }
      } else if name == BParameter {
        match AsFloat(value) {
          case Some(val) => b := val;
          case None =>
        }
      }
    }

    /**
      `get_parameter_ui`: a heading, a separator, sliders for "a" and "b"
      over -100..100 showing the current values, and a label with the sum.
      `format` stands for the float formatting of the label text. Committing
      any slider at its displayed value is an action the node accepts and
      that leaves its parameter as it is.
     */
    function GetParameterUi(format: real -> string): (ui: ParameterUI)
      reads this
      ensures ui.elements == [
        Heading("Math Add Node (Plugin)"),
        Separator,
        Slider("A", a, SliderMin, SliderMax, AParameter),
        Slider("B", b, SliderMin, SliderMax, BParameter),
        Label("Result: " + format(a + b))]
      ensures forall i :: 0 <= i < |ui.elements| && CommitAction(ui.elements[i]).Some? ==>
        var action := CommitAction(ui.elements[i]).value;
        AcceptsAction(action) && GetParameter(action.parameter) == Some(action.value)
    {
      var header := [Heading("Math Add Node (Plugin)"), Separator];
      var sliders := [Slider("A", a, SliderMin, SliderMax, AParameter),
                      Slider("B", b, SliderMin, SliderMax, BParameter)];
      ParameterUI(header + sliders + [Label("Result: " + format(a + b))])
    }

    /**
      `handle_ui_action`: an accepted change is stored, without clamping to
      the slider range, and echoed as exactly one ParameterChange; a button
      click, an unknown parameter or a non-Float value yields no change and
      leaves the node as it was. The other operand never changes.
     */
    method HandleUiAction(action: UIAction) returns (changes: seq<ParameterChange>)
      modifies this
      ensures id == old(id) && position == old(position)
      ensures AcceptsAction(action) ==>
        changes == [ParameterChange(action.parameter, action.value)] &&
        GetParameter(action.parameter) == Some(action.value)
      ensures !AcceptsAction(action) ==> changes == [] && a == old(a) && b == old(b)
      ensures !(AcceptsAction(action) && action.parameter == AParameter) ==> a == old(a)
      ensures !(AcceptsAction(action) && action.parameter == BParameter) ==> b == old(b)
    {
      changes := [];
      match action {
        case ParameterChanged(parameter, value) =>
          if parameter == AParameter {
            match AsFloat(value) {
              case Some(val) =>
                a := val;
                changes := changes + [ParameterChange(AParameter, Float(val))];
              case None =>
            }
          } else if parameter == BParameter {
            match AsFloat(value) {
              case Some(val) =>
                b := val;
                changes := changes + [ParameterChange(BParameter, Float(val))];
              case None =>
            }
          }
        case ButtonClicked(_) =>
      }
    }

    /**
      `process`: latches the "A" and "B" inputs into the operands (see Latch)
      and outputs their sum under "Result" only.
     */
    method Process(inputs: map<string, NodeData>) returns (outputs: map<string, NodeData>)
      modifies this
      ensures id == old(id) && position == old(position)
      ensures a == Latch(old(a), inputs, AInput) && b == Latch(old(b), inputs, BInput)
      ensures outputs.Keys == {ResultOutput}
      ensures outputs[ResultOutput] == Float(a + b)
    {
      if AInput in inputs && inputs[AInput].Float? {
        a := inputs[AInput].f;
      }
      if BInput in inputs && inputs[BInput].Float? {
        b := inputs[BInput].f;
      }
      outputs := map[];
      outputs := outputs[ResultOutput := Float(a + b)];
    }
  }

  /** `MathAddNodeFactory::create_node`: every call yields a new, independent node. */
  method CreateNode(id: string, position: Pos2) returns (node: MathAddNode)
    ensures fresh(node)
    ensures node.id == id && node.position == position && node.a == 0.0 && node.b == 0.0
  {
    node := new MathAddNode(id, position);
  }
}
