/** The `IntermediateStep` component (`components/IntermediateStep.tsx`):
    how a `system` message's content is read back as an agent step, what
    the step shows, and its expand/collapse state. */
module IntermediateStep {
  import opened Wrappers
  import opened Json

  /** Why rendering a step throws: the content is not JSON, or a property
      is read from `undefined` or `null`. */
  datatype RenderError = PayloadNotJson | PropertyError(error: PropError)

  /** `parsedInput.action` and `parsedInput.observation`; `None` is
      `undefined`. */
  datatype Payload = Payload(action: Option<Json>, observation: Option<Json>)

  /** Lines 8-10: `JSON.parse` the content, then read its two properties.
      There is no fallback: text that is not JSON, and the JSON `null`,
      throw. Any other value that is not an object (a string, array,
      number or boolean) has neither property, so both are `undefined`. */
  function ReadPayload(content: string): (r: Result<Payload, RenderError>)
    ensures Parse(content).None? ==> r == Err(PayloadNotJson)
    ensures Parse(content) == Some(Null) ==> r == Err(PropertyError(CannotReadProperty("action")))
    ensures r.Ok? <==> Parse(content).Some? && Parse(content) != Some(Null)
    ensures r.Ok? && Parse(content).value.Obj? ==>
      r.value == Payload(Get(Parse(content).value.fields, "action"), Get(Parse(content).value.fields, "observation"))
    ensures r.Ok? && !Parse(content).value.Obj? ==> r.value == Payload(None, None)
  {
    match Parse(content)
    case None => Err(PayloadNotJson)
    case Some(parsed) =>
      match Prop(Some(parsed), "action")
      case Err(e) => Err(PropertyError(e))
      case Ok(action) => Ok(Payload(action, Prop(Some(parsed), "observation").value))
  }

  /** What the component shows: the badge text `action.name` (line 26), the
      input `JSON.stringify(action.args, null, 2)` (line 45; `None` when
      `args` is `undefined`, which `JSON.stringify` returns as `undefined`)
      and the observation as it is (line 51). */
  datatype StepView = StepView(name: Option<Json>, input: Option<string>, output: Option<Json>)

  /** `args` pretty-printed with two spaces, as the details panel shows it. */
  function InputText(args: Option<Json>): (r: Option<string>)
    ensures r.Some? <==> args.Some?
    ensures r.Some? ==> r.value == Stringify(args.value, 2)
    ensures r.Some? ==> Parse(r.value) == args
  {
    match args
    case None => None
    case Some(a) =>
      ParseStringify(a, 2);
      Some(Stringify(a, 2))
  }

  /** Rendering a step: reading the payload, then `action.name` and
      `action.args`, which throw when `action` is `undefined` or `null`. */
  function Decode(content: string): (r: Result<StepView, RenderError>)
    ensures ReadPayload(content).Err? ==> r == Err(ReadPayload(content).error)
    ensures ReadPayload(content).Ok? ==>
      var p := ReadPayload(content).value;
      if p.action.None? || p.action.value.Null? then
        r == Err(PropertyError(CannotReadProperty("name")))
      else
        && r.Ok?
        && r.value.name == Prop(p.action, "name").value
        && r.value.output == p.observation
        && r.value.input == InputText(Prop(p.action, "args").value)
        && (r.value.input.Some? <==> Prop(p.action, "args").value.Some?)
        && (r.value.input.Some? ==> Parse(r.value.input.value) == Prop(p.action, "args").value)
  {
    match ReadPayload(content)
    case Err(e) => Err(e)
    case Ok(p) =>
      match Prop(p.action, "name")
      case Err(e) => Err(PropertyError(e))
      case Ok(name) =>
        var args := Prop(p.action, "args").value;
        Ok(StepView(name, InputText(args), p.observation))
  }

  /** The `expanded` state of one rendered step. */
  class StepToggle {
    var expanded: bool

    /** `useState(false)`: a step starts collapsed. */
    constructor()
      ensures !expanded
    {
      expanded := false;
    }

    /** The header button's click handler flips the state. */
    method Click()
      modifies this
      ensures expanded == !old(expanded)
    {
      expanded := !expanded;
    }

    /** Two clicks bring the step back to the state it was in. */
    method ClickTwice()
      modifies this
      ensures expanded == old(expanded)
    {
      Click();
      Click();
    }
  }
}
