/** The component registry (registry.ts): the closed set of component kinds,
    the props each kind admits and the enumerated values some of those props
    are restricted to. Lists are sequences so that registry order, which
    error messages and the generated import line show, is kept. */
module Registry {
  import opened Wrappers

  datatype Kind = Button | Card | Input | Table | Layout

  /** The registry's keys in declaration order (`Object.keys`). */
  const Kinds: seq<Kind> := [Button, Card, Input, Table, Layout]

  /** The key under which a kind is registered (`ComponentType`). */
  function Name(k: Kind): string {
    match k
    case Button => "Button"
    case Card => "Card"
    case Input => "Input"
    case Table => "Table"
    case Layout => "Layout"
  }

  /** `type in COMPONENT_REGISTRY` for a string `type`: the kind registered
      under that name, if any. */
  function KindOf(s: string): (r: Option<Kind>)
    ensures r.Some? ==> Name(r.value) == s
    ensures r.None? ==> forall k :: Name(k) != s
  {
    if s == "Button" then Some(Button)
    else if s == "Card" then Some(Card)
    else if s == "Input" then Some(Input)
    else if s == "Table" then Some(Table)
    else if s == "Layout" then Some(Layout)
    else None
  }

  /** `ComponentSpec`: allowed prop names, and for some of them the list
      of allowed string values (an absent `allowedValues` is the empty list). */
  datatype ComponentSpec = ComponentSpec(allowedProps: seq<string>, allowedValues: seq<(string, seq<string>)>)

  /** `COMPONENT_REGISTRY[k]`. Every restricted prop is an allowed prop,
      no prop name is listed twice, and no prop is restricted twice. */
  function SpecFor(k: Kind): (spec: ComponentSpec)
    ensures forall i :: 0 <= i < |spec.allowedValues| ==> spec.allowedValues[i].0 in spec.allowedProps
    ensures forall i, j :: 0 <= i < j < |spec.allowedProps| ==> spec.allowedProps[i] != spec.allowedProps[j]
    ensures forall i, j :: 0 <= i < j < |spec.allowedValues| ==> spec.allowedValues[i].0 != spec.allowedValues[j].0
  {
    match k
    case Button =>
      ComponentSpec(["label", "variant", "size"],
                    [("variant", ["primary", "secondary", "outline"]), ("size", ["sm", "md", "lg"])])
    case Card => ComponentSpec(["title", "description", "content"], [])
    case Input =>
      ComponentSpec(["label", "placeholder", "type"],
                    [("type", ["text", "email", "password", "number", "search", "tel", "url"])])
    case Table => ComponentSpec(["headers", "rows", "caption"], [])
    case Layout => ComponentSpec(["type"], [("type", ["grid", "flex", "sidebar-layout"])])
  }

  function AllowedProps(k: Kind): seq<string> {
    SpecFor(k).allowedProps
  }

  function AllowedValues(k: Kind): seq<(string, seq<string>)> {
    SpecFor(k).allowedValues
  }

  /** `layoutTypes` (validation.ts): the values of Layout's `type` prop,
      which are also the values a plan's root `layout` may take. */
  function LayoutTypes(): (r: seq<string>)
    ensures r == ["grid", "flex", "sidebar-layout"]
  {
    var values := AllowedValues(Layout);
    if |values| > 0 && values[0].0 == "type" then values[0].1 else []
  }

  /** The kinds are exactly the five registered ones, each listed once,
      and a name resolves to a kind exactly when it is one of their names. */
  lemma KindsClosed()
    ensures forall k :: k in Kinds
    ensures forall i, j :: 0 <= i < j < |Kinds| ==> Kinds[i] != Kinds[j]
    ensures forall s :: KindOf(s).Some? <==> s in ["Button", "Card", "Input", "Table", "Layout"]
    ensures forall k :: KindOf(Name(k)) == Some(k)
  {
    forall k ensures k in Kinds {
      match k
      case Button => assert Kinds[0] == k;
      case Card => assert Kinds[1] == k;
      case Input => assert Kinds[2] == k;
      case Table => assert Kinds[3] == k;
      case Layout => assert Kinds[4] == k;
    }
  }

  /** The enumerations the registry fixes for Button and Input, and the
      absence of any restriction on Card and Table. */
  lemma EnumeratedValues()
    ensures AllowedValues(Button) == [("variant", ["primary", "secondary", "outline"]), ("size", ["sm", "md", "lg"])]
    ensures |AllowedValues(Input)| == 1 && AllowedValues(Input)[0].0 == "type"
    ensures AllowedValues(Input)[0].1 == ["text", "email", "password", "number", "search", "tel", "url"]
    ensures |AllowedValues(Input)[0].1| == 7
    ensures AllowedValues(Card) == [] && AllowedValues(Table) == []
  {
  }
}
