/**
  The greeting node: one string parameter, "message", shown in a text edit
  and emitted unchanged on the "Message" output.
 */
module HelloWorld {
  import opened Sdk

  const MessageParameter: string := "message"
  const MessageOutput: string := "Message"
  const DefaultMessage: string := "Hello from plugin!"

  /** The (name, value) pairs set_parameter and handle_ui_action store: a String under "message". */
  predicate Accepts(name: string, value: NodeData) {
    name == MessageParameter && AsString(value).Some?
  }

  /** An action the node acts on: a change of an accepted parameter to an accepted value. */
  predicate AcceptsAction(action: UIAction) {
    action.ParameterChanged? && Accepts(action.parameter, action.value)
  }

  class HelloWorldNode {
    var id: string
    var position: Pos2
    var message: string

    /** `HelloWorldNode::new`; the id, generated from the clock, is passed in. */
    constructor (id: string, position: Pos2)
      ensures this.id == id && this.position == position
      ensures message == DefaultMessage
      ensures Id() == id && Position() == position
    {
      this.id := id;
      this.position := position;
      message := DefaultMessage;
    }

    /** `id`: the identifier fixed at construction; no method changes it. */
    function Id(): (r: string)
      reads this
      ensures r == id
    {
      id
    }

    /** `position`: the position given at construction or by the last SetPosition. */
    function Position(): (r: Pos2)
      reads this
      ensures r == position
    {
      position
    }

    method SetPosition(p: Pos2)
      modifies this
      ensures Position() == p
      ensures Id() == old(Id()) && message == old(message)
    {
      position := p;
    }

    /** `get_parameter`: only "message" is known, and it holds the current text. */
    function GetParameter(name: string): (r: Option<NodeData>)
      reads this
      ensures r.Some? <==> name == MessageParameter
      ensures r.Some? ==> r.value == String(message) && Accepts(name, r.value)
    {
      if name == MessageParameter then Some(String(message)) else None
    }

    /** `set_parameter`: stores an accepted value; anything else changes nothing. */
    method SetParameter(name: string, value: NodeData)
      modifies this
      ensures id == old(id) && position == old(position)
      ensures Accepts(name, value) ==> GetParameter(name) == Some(value)
      ensures !Accepts(name, value) ==> message == old(message)
    {
      if name == MessageParameter {
        match AsString(value) {
          case Some(msg) => message := msg;
          case None =>
        }
      }
    }

    /**
      `get_parameter_ui`: a heading, a separator and a text edit bound to
      "message". Committing any element at its displayed value is an action
      the node accepts and that leaves its parameter as it is.
     */
    function GetParameterUi(): (ui: ParameterUI)
      reads this
      ensures ui.elements ==
        [Heading("Hello World Node"), Separator, TextEdit("Message", message, MessageParameter)]
      ensures forall i :: 0 <= i < |ui.elements| && CommitAction(ui.elements[i]).Some? ==>
        var action := CommitAction(ui.elements[i]).value;
        AcceptsAction(action) && GetParameter(action.parameter) == Some(action.value)
    {
      var elements := [Heading("Hello World Node"), Separator];
      ParameterUI(elements + [TextEdit("Message", message, MessageParameter)])
    }

    /**
      `handle_ui_action`: an accepted change is stored and echoed as exactly
      one ParameterChange; a button click, an unknown parameter or a value of
      the wrong variant yields no change and leaves the node as it was.
     */
    method HandleUiAction(action: UIAction) returns (changes: seq<ParameterChange>)
      modifies this
      ensures id == old(id) && position == old(position)
      ensures AcceptsAction(action) ==>
        changes == [ParameterChange(action.parameter, action.value)] &&
        GetParameter(action.parameter) == Some(action.value)
      ensures !AcceptsAction(action) ==> changes == [] && message == old(message)
    {
      changes := [];
      match action {
        case ParameterChanged(parameter, value) =>
          if parameter == MessageParameter {
            match AsString(value) {
              case Some(msg) =>
                message := msg;
                changes := changes + [ParameterChange(MessageParameter, String(message))];
              case None =>
            }
          }
        case ButtonClicked(_) =>
      }
    }

    /**
      `process`: ignores its inputs, changes nothing, and outputs the current
      message under "Message" only, the same value get_parameter("message") gives.
     */
    method Process(inputs: map<string, NodeData>) returns (outputs: map<string, NodeData>)
      ensures outputs.Keys == {MessageOutput}
      ensures outputs[MessageOutput] == String(message)
      ensures Some(outputs[MessageOutput]) == GetParameter(MessageParameter)
    {
      outputs := map[];
      outputs := outputs[MessageOutput := String(message)];
    }
  }

  /** `HelloWorldNodeFactory::create_node`: every call yields a new, independent node. */
  method CreateNode(id: string, position: Pos2) returns (node: HelloWorldNode)
    ensures fresh(node)
    ensures node.id == id && node.position == position && node.message == DefaultMessage
  {
    node := new HelloWorldNode(id, position);
  }
}
