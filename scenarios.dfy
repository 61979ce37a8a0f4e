/**
  Call sequences a host makes against the two nodes, with the results they
  are guaranteed to produce. Each takes the opaque node id and position as
  parameters, so it holds for every id and position.
 */
module Scenarios {
  import opened Sdk
  import HelloWorld
  import MathAdd

  /** Editing the message to "hi" echoes that change, and get_parameter then reads it back. */
  method EditMessage(id: string, at: Pos2) returns (changes: seq<ParameterChange>, after: Option<NodeData>)
    ensures changes == [ParameterChange("message", String("hi"))]
    ensures after == Some(String("hi"))
  {
    var node := HelloWorld.CreateNode(id, at);
    changes := node.HandleUiAction(ParameterChanged("message", String("hi")));
    after := node.GetParameter("message");
  }

  /**
    Actions the greeting node ignores: a button click, an unknown parameter,
    and a non-String value for "message". None of them changes the message.
   */
  method IgnoredGreetingActions(id: string, at: Pos2, clicked: string)
    returns (changes: seq<ParameterChange>, after: Option<NodeData>)
    ensures changes == []
    ensures after == Some(String(HelloWorld.DefaultMessage))
  {
    var node := HelloWorld.CreateNode(id, at);
    var c1 := node.HandleUiAction(ButtonClicked(clicked));
    var c2 := node.HandleUiAction(ParameterChanged("Message", String("hi")));
    var c3 := node.HandleUiAction(ParameterChanged("message", Float(1.0)));
    node.SetParameter("message", Boolean(true));
    changes := c1 + c2 + c3;
    after := node.GetParameter("message");
  }

  /** Adding the inputs 2 and 3 outputs 5 under "Result". */
  method AddTwoAndThree(id: string, at: Pos2) returns (outputs: map<string, NodeData>)
    ensures outputs == map["Result" := Float(5.0)]
  {
    var node := MathAdd.CreateNode(id, at);
    outputs := node.Process(map["A" := Float(2.0), "B" := Float(3.0)]);
  }

  /**
    A missing "A" input and a non-Float "B" input both reuse the stored
    values: after "a" is set to 4 and an earlier call latched B = 1, the sum is 5.
   */
  method MissingInputReusesStored(id: string, at: Pos2) returns (outputs: map<string, NodeData>)
    ensures outputs == map["Result" := Float(5.0)]
  {
    var node := MathAdd.CreateNode(id, at);
    var first := node.Process(map["B" := Float(1.0)]);
    node.SetParameter("a", Float(4.0));
    outputs := node.Process(map["B" := Boolean(false)]);
  }

  /** A slider change outside -100..100 is stored and echoed as it is, not clamped. */
  method SliderValueNotClamped(id: string, at: Pos2)
    returns (changes: seq<ParameterChange>, after: Option<NodeData>)
    ensures changes == [ParameterChange("a", Float(250.0))]
    ensures after == Some(Float(250.0))
    ensures !(MathAdd.SliderMin <= 250.0 <= MathAdd.SliderMax)
  {
    var node := MathAdd.CreateNode(id, at);
    changes := node.HandleUiAction(ParameterChanged("a", Float(250.0)));
    after := node.GetParameter("a");
  }

  /** Two nodes of one factory are independent: editing one leaves the other as it was. */
  method NodesAreIndependent(at: Pos2) returns (edited: Option<NodeData>, untouched: Option<NodeData>)
    ensures edited == Some(Float(7.0))
    ensures untouched == Some(Float(0.0))
  {
    var first := MathAdd.CreateNode("first", at);
    var second := MathAdd.CreateNode("second", at);
    first.SetParameter("b", Float(7.0));
    edited := first.GetParameter("b");
    untouched := second.GetParameter("b");
  }

  /** Moving a node changes its position and keeps its id. */
  method MoveNode(id: string, at: Pos2, to: Pos2) returns (position: Pos2, keptId: string)
    ensures position == to
    ensures keptId == id
  {
    var node := HelloWorld.CreateNode(id, at);
    node.SetPosition(to);
    position := node.Position();
    keptId := node.Id();
  }

  /**
    Saving a parameter with get_parameter and restoring it with
    set_parameter leaves the node as it was, for every parameter name.
   */
  method RestoreGreeting(node: HelloWorld.HelloWorldNode, name: string)
    returns (saved: Option<NodeData>, restored: Option<NodeData>)
    modifies node
    ensures saved == restored
    ensures node.message == old(node.message) && node.id == old(node.id) && node.position == old(node.position)
  {
    saved := node.GetParameter(name);
    if saved.Some? {
      node.SetParameter(name, saved.value);
    }
    restored := node.GetParameter(name);
  }

  /** The same round-trip for the adder's two operands. */
  method RestoreOperand(node: MathAdd.MathAddNode, name: string)
    returns (saved: Option<NodeData>, restored: Option<NodeData>)
    modifies node
    ensures saved == restored
    ensures node.a == old(node.a) && node.b == old(node.b)
    ensures node.id == old(node.id) && node.position == old(node.position)
  {
    saved := node.GetParameter(name);
    if saved.Some? {
      node.SetParameter(name, saved.value);
    }
    restored := node.GetParameter(name);
  }
}
