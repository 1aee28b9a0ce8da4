/**
  The state every gowut component shares (the embedded `compImpl` and
  `hasEnabledImpl` parts of a widget): its id, its HTML attributes, its style
  classes, the event types on which its value is synchronized, and whether it
  is enabled. `compImpl` itself is defined outside the two widget files, so
  only the operations the widgets use are modelled here, by the behaviour
  they are used for.
 */
module Component {

  /** An event type code, as sent by the browser-side `se`/`se2` calls. */
  type EventType = int

  /** The "value changed" event (the element lost focus or ENTER was pressed). */
  const ETypeChange: EventType := 11

  /** The event a request notifies; the widgets' value intake ignores it. */
  datatype Event = Event(etype: EventType, srcId: int)

  /** HTML attributes by name; a name that is not set reads as "". */
  type Attrs = map<string, string>

  /** `Attr(name)`: the attribute's value, "" when it is not set. */
  function Attr(attrs: Attrs, name: string): string
  {
    if name in attrs then attrs[name] else ""
  }

  /** `SetAttr(name, value)`: afterwards `name` reads as `value` and every other name as before. */
  function SetAttr(attrs: Attrs, name: string, value: string): (r: Attrs)
    ensures Attr(r, name) == value
    ensures forall k :: k != name ==> Attr(r, k) == Attr(attrs, k)
  {
    attrs[name := value]
  }

  /** The shared component state. */
  datatype CompState = CompState(
    id: int,
    attrs: Attrs,
    styleClasses: set<string>,
    syncOnETypes: set<EventType>,
    enabled: bool)

  /** `AddSyncOnETypes(et)`: the value is also synchronized on `et`. */
  function AddSyncOnEType(c: CompState, et: EventType): CompState
  {
    c.(syncOnETypes := c.syncOnETypes + {et})
  }

  /** `Style().AddClass(cls)`. */
  function AddClass(c: CompState, cls: string): CompState
  {
    c.(styleClasses := c.styleClasses + {cls})
  }

  /**
    The markup that the shared render helpers `renderAttrsAndStyle`,
    `renderEnabled` and `renderEHandlers` write for a component state. Their
    definitions are outside the widget files, so they are parameters here:
    each is some function of the component's state.
   */
  datatype RenderHelpers = RenderHelpers(
    attrsAndStyle: CompState -> string,
    enabled: CompState -> string,
    eHandlers: CompState -> string)
}
