# Nodle example plugin: node contract model

This project models the two example nodes of the Nodle plugin template,
`HelloWorldNode` and `MathAddNode`. Both implement the node contract of the
editor's data-driven UI protocol. Each node is a Dafny class with the fields of
the Rust struct: an opaque `id`, a `position`, and its parameters. A node:

- answers `get_parameter` and `set_parameter` by parameter name;
- accepts a value only when it has the expected `NodeData` variant;
- describes its interface as a fixed list of `UIElement`s;
- turns a host `UIAction` into zero or one `ParameterChange`;
- maps an input map to an output map in `process`.

The adder keeps the inputs it gets in its fields, so later `process` calls see
them. The plugin's `register_nodes` is modelled against a registry that keeps
its factories in a sequence.

Files:

- `sdk.dfy` (module `Sdk`): the SDK data types `Pos2`, `NodeData`, `UIElement`,
  `ParameterUI`, `UIAction` and `ParameterChange`. It also holds the assumed
  behaviour of the SDK helpers `as_string` and `as_float`, and `CommitAction`, the
  assumed action the host reports when an element is committed at the value it
  shows.
- `hello_world.dfy` (module `HelloWorld`): the greeting node and its factory.
- `math_add.dfy` (module `MathAdd`): the adder node and its factory. It also has
  `Latch`, the one-operand effect of `process`, and lemmas about a whole sequence
  of `process` calls.
- `example_plugin.dfy` (module `ExamplePlugin`): the factories' node-type ids, a
  sequence-backed registry, and `register_nodes`.
- `scenarios.dfy` (module `Scenarios`): host call sequences against the nodes,
  each with its guaranteed result.

Modelling decisions:

- Rust `f32` is `real`. The only arithmetic is `a + b`.
- The node `id` comes from the system clock. Here it is an opaque constructor
  argument that no method changes.
- The SDK crate is not part of this model, so two helpers are assumed:
  - `as_string` yields a value exactly for the `String` variant (`Sdk.AsString`).
  - `as_float` yields a value exactly for the `Float` variant (`Sdk.AsFloat`).
- `Sdk.CommitAction` is an assumption about the host, not SDK code: committing a
  TextEdit reports a String, a Slider a Float, a Checkbox a Boolean, a Vec3Edit a
  Vector3 and a ColorEdit a Color, each under the element's parameter name. The
  "committing any element is accepted" clauses of both `GetParameterUi`
  contracts rest on it.
- `MathAddNode::process` matches `NodeData::Float` directly instead of calling
  `as_float`. `MathAdd.Latch` therefore tests the variant itself.
- The label text `Result: {}` depends on float formatting. `GetParameterUi` takes
  that formatting as a function parameter `format`.
- The registry of the SDK is not shown; `register_node_factory` returns a
  value that `register_nodes` unwraps, and a failure panics. The model
  assumes it refuses a node-type id it already holds, since node-type ids are
  unique within a module. The panic of a failed `unwrap` is returned as `Fail`. Registrations
  made before the panic stay in place.
- A missing or non-Float `process` input reuses the stored operand; the call
  does not fail (`MathAdd.StoredAfterIsLatest`).
- Slider values outside the slider's -100..100 range are stored as given, not
  clamped (`Scenarios.SliderValueNotClamped`).

## Model

| member | source | states |
|---|---|---|
| `Sdk.AsString` | src/lib.rs:143 | assumption about `as_string`: yields a value exactly for the String variant, and the value is that variant's text |
| `Sdk.AsFloat` | src/lib.rs:289-295 | assumption about `as_float`: yields a value exactly for the Float variant, and the value is that variant's number |
| `HelloWorld.HelloWorldNode.constructor` | src/lib.rs:72-78 | a new node has the given id and position and the message "Hello from plugin!" |
| `HelloWorld.HelloWorldNode.Id` | src/lib.rs:82-84 | the node's id: the constructor fixes it to its argument, and SetPosition, SetParameter, HandleUiAction and Process all leave it unchanged |
| `HelloWorld.HelloWorldNode.Position` | src/lib.rs:86-88 | the node's position: the constructor's argument until SetPosition, then the last SetPosition argument; no other method changes it |
| `HelloWorld.HelloWorldNode.SetPosition` | src/lib.rs:90-92 | `Position()` afterwards is the position set; `Id()` and the message do not change |
| `HelloWorld.HelloWorldNode.GetParameter` | src/lib.rs:133-138 | yields a value exactly for "message", namely String(message), and that value is one set_parameter accepts |
| `HelloWorld.HelloWorldNode.SetParameter` | src/lib.rs:140-149 | an accepted (name, value) is read back unchanged by get_parameter; an unknown name or a non-String value changes nothing; id and position never change |
| `HelloWorld.HelloWorldNode.GetParameterUi` | src/lib.rs:94-107 | the UI is exactly heading, separator, and a text edit bound to "message" showing the message; committing any element at its shown value is accepted and sets nothing new |
| `HelloWorld.HelloWorldNode.HandleUiAction` | src/lib.rs:109-131 | an accepted ParameterChanged is stored and echoed as exactly one equal ParameterChange; a button click, unknown name or wrong variant yields no changes and leaves the message as it was |
| `HelloWorld.HelloWorldNode.Process` | src/lib.rs:151-155 | ignores the inputs and changes nothing; the only output key is "Message", mapped to the value get_parameter("message") yields |
| `HelloWorld.CreateNode` | src/lib.rs:59-61 | every call yields a fresh node with the given id and position and the default message |
| `MathAdd.MathAddNode.constructor` | src/lib.rs:195-202 | a new node has the given id and position and a == b == 0 |
| `MathAdd.MathAddNode.Id` | src/lib.rs:206-208 | the node's id: the constructor fixes it to its argument, and SetPosition, SetParameter, HandleUiAction and Process all leave it unchanged |
| `MathAdd.MathAddNode.Position` | src/lib.rs:210-212 | the node's position: the constructor's argument until SetPosition, then the last SetPosition argument; no other method changes it |
| `MathAdd.MathAddNode.SetPosition` | src/lib.rs:214-216 | `Position()` afterwards is the position set; `Id()`, a and b do not change |
| `MathAdd.MathAddNode.GetParameter` | src/lib.rs:278-284 | yields a value exactly for "a" and "b", namely Float(a) and Float(b), each one set_parameter accepts |
| `MathAdd.MathAddNode.SetParameter` | src/lib.rs:286-300 | an accepted (name, value) is read back unchanged by get_parameter; the other operand never changes; an unknown name or non-Float value changes nothing |
| `MathAdd.MathAddNode.GetParameterUi` | src/lib.rs:218-243 | the UI is exactly heading, separator, sliders "A"/"B" bound to "a"/"b" with the current values and range -100..100, and a label built from a + b; committing either slider at its shown value is accepted and sets nothing new |
| `MathAdd.MathAddNode.HandleUiAction` | src/lib.rs:245-276 | an accepted ParameterChanged is stored without clamping and echoed as exactly one equal ParameterChange, touching only its own operand; every other action yields no changes and leaves a and b as they were |
| `MathAdd.MathAddNode.Process` | src/lib.rs:302-314 | each operand takes its input's value when that input is present and a Float, else keeps its stored value; the only output key is "Result", mapped to Float(a + b) of the updated operands |
| `MathAdd.StoredAfterSnoc` | src/lib.rs:302-309 | running process on one more input map latches that map's input onto the operand stored so far |
| `MathAdd.StoredAfterIsLatest` | src/lib.rs:302-309 | after any sequence of process calls an operand holds the last Float supplied on its port, or its earlier value if none was (missing inputs reuse stored values) |
| `MathAdd.CreateNode` | src/lib.rs:181-183 | every call yields a fresh node with the given id and position and zero operands |
| `ExamplePlugin.Registry.RegisterNodeFactory` | src/lib.rs:25-26 | assumed registry behaviour: a factory with a new node-type id is appended in order, a duplicate is refused and leaves the registry as it was |
| `ExamplePlugin.Registry.Lookup` | src/lib.rs:23-27 | assumed registry behaviour, the query that makes the effect of register_nodes observable: finds a factory exactly when one with that node-type id is registered, and the factory found has that id |
| `ExamplePlugin.RegisterNodes` | src/lib.rs:23-27 | succeeds exactly when neither "HelloWorld" nor "PluginMathAdd" is registered yet, appending both in that order; a refused first registration changes nothing, and a refused second one keeps the first |
| `ExamplePlugin.RegisterIntoEmpty` | src/lib.rs:23-27 | after registering into an empty registry, "HelloWorld" and "PluginMathAdd" look up their factories and any other id finds nothing |
| `Scenarios.EditMessage` | src/lib.rs:109-138 | ParameterChanged{"message", String("hi")} yields exactly ParameterChange{"message", String("hi")}, and get_parameter("message") then reads String("hi") |
| `Scenarios.IgnoredGreetingActions` | src/lib.rs:109-149 | a button click, the unknown name "Message", a Float for "message", and set_parameter with a Boolean all yield no changes; the message stays the default |
| `Scenarios.AddTwoAndThree` | src/lib.rs:302-314 | process with {"A": Float(2), "B": Float(3)} returns exactly {"Result": Float(5)} |
| `Scenarios.MissingInputReusesStored` | src/lib.rs:286-314 | a missing "A" and a Boolean "B" reuse the stored operands (a = 4 set directly, b = 1 latched earlier): the result is Float(5) |
| `Scenarios.SliderValueNotClamped` | src/lib.rs:224-258 | a change to 250, outside the slider's -100..100, is echoed and stored as 250 |
| `Scenarios.NodesAreIndependent` | src/lib.rs:181-202 | two nodes from the same factory do not share state: setting "b" on one leaves the other's "b" at 0 |
| `Scenarios.MoveNode` | src/lib.rs:82-92 | after set_position, position() reads the new position and id() the original id |
| `Scenarios.RestoreGreeting` | src/lib.rs:133-149 | get_parameter followed by set_parameter with the value read leaves the node unchanged and get_parameter answers the same, for every name |
| `Scenarios.RestoreOperand` | src/lib.rs:278-300 | the same save/restore round-trip for the adder: a, b, id and position are unchanged and get_parameter answers the same |

## Left out

- The id format strings and `uuid()` (src/lib.rs:74, 197, 318-325): they read the system clock. The id is an opaque constructor argument.
- `create_plugin` and `destroy_plugin`, and the `PluginHandle`/`PluginNodeHandle` wrapping: they are foreign-function entry points over SDK handle types. The factories' `create_node` is modelled without the handle as `HelloWorld.CreateNode` and `MathAdd.CreateNode`.
- The factories' `metadata()` builders (src/lib.rs:44-57, 162-179): chains of SDK builder calls whose meaning is not visible. Only the node-type ids "HelloWorld" and "PluginMathAdd" are kept, as `ExamplePlugin.Factory.TypeId`.
- `plugin_info` (src/lib.rs:13-21): a constant record of strings with no behaviour.
- `on_load` and `on_unload` (src/lib.rs:29-37): console output only. Both always return `Ok`.
- Floating-point semantics: `f32` rounding of `a + b`, NaN and infinities. Operands are reals, so `a + b` is exact and every value equals itself.
- `MathAdd.MathAddNode.GetParameterUi`: the label text is stated as `"Result: " + format(a + b)` for a caller-supplied `format`. It does not fix Rust's `{}` formatting of an `f32`.
- The fields of the Checkbox, Vec3Edit and ColorEdit UI elements are not used by these nodes. Their shape in `Sdk.UIElement` is a plausible choice, not taken from SDK code.
- The host's loader and registry life cycle, the fault boundary, and handle ownership: they live in the host and the SDK, not in the modelled file.
- `Sdk.CommitAction` looks only at top-level elements, not inside `Horizontal`/`Vertical`. Neither node uses layout containers.
