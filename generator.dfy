/** The code generator (agents/generator.ts): a plan that passes the
    validator becomes React source text, and any other plan becomes a fixed
    diagnostic. Each node is rendered from its sanitised props only.
    `JSON.stringify` of a prop value is the parameter `lit`, which nothing
    here inspects. */
module Generator {
  import opened Wrappers
  import opened Strings
  import opened JsonModel
  import opened Registry
  import opened Validation

  const InvalidHeader: string := "/* Invalid UI plan:\n"
  const InvalidFooter: string := " */\n\nexport default function GeneratedUI() {\n  return <div>Invalid UI plan.</div>;\n}"

  /** The text returned for a plan with errors: every error, one per line,
      inside a comment, then a component that only says the plan is invalid. */
  function InvalidDiagnostic(errors: seq<string>): string {
    InvalidHeader + Join(errors, "\n") + InvalidFooter
  }

  /** `Object.keys(COMPONENT_REGISTRY)`. */
  function KindNames(): (r: seq<string>)
    ensures |r| == |Kinds|
    ensures forall i :: 0 <= i < |Kinds| ==> r[i] == Name(Kinds[i])
  {
    seq(|Kinds|, i requires 0 <= i < |Kinds| => Name(Kinds[i]))
  }

  /** The import of every registered component. */
  function ImportLine(): string {
    "import { " + Join(KindNames(), ", ") + " } from '@/components/lib';"
  }

  /** One sanitised prop as a JSX attribute: `key={JSON.stringify(value)}`. */
  function Attribute(entry: (string, Json), lit: Json -> string): string {
    entry.0 + "={" + lit(entry.1) + "}"
  }

  function Attributes(entries: seq<(string, Json)>, lit: Json -> string): (r: seq<string>)
    ensures |r| == |entries|
    ensures forall i :: 0 <= i < |entries| ==> r[i] == Attribute(entries[i], lit)
  {
    seq(|entries|, i requires 0 <= i < |entries| => Attribute(entries[i], lit))
  }

  /** `propsString`: the attributes separated by single spaces. */
  function PropsString(entries: seq<(string, Json)>, lit: Json -> string): string {
    Join(Attributes(entries, lit), " ")
  }

  /** `<T`, then one space and the props when there are any. */
  function OpenTag(kind: Kind, propsString: string): string {
    "<" + Name(kind) + (if propsString == "" then "" else " " + propsString)
  }

  /** The kind of a valid node. */
  function KindOfNode(node: Json): Kind
    requires ValidNode(node)
  {
    NodeKind(node.fields).value
  }

  /** `pickAllowedProps(node.type, node.props)` for a valid node. */
  function SafeEntries(node: Json): seq<(string, Json)>
    requires ValidNode(node)
  {
    AllowedEntries(KindOfNode(node), Get(node.fields, "props"))
  }

  /** The node's `children`, or the empty list when there are none. */
  function ChildList(node: Json): seq<Json>
    requires node.JObj?
  {
    var ci := KeyIndex(node.fields, "children");
    if ci >= 0 && node.fields[ci].1.JArr? then node.fields[ci].1.items else []
  }

  /** `renderComponent(node)`. */
  function RenderComponent(node: Json, lit: Json -> string): string
    requires ValidNode(node)
    decreases node, 2
  {
    var kind := KindOfNode(node);
    var open := OpenTag(kind, PropsString(SafeEntries(node), lit));
    var children := ChildrenText(node, lit);
    if |Trim(children)| > 0 then open + ">\n        " + children + "\n      </" + Name(kind) + ">"
    else open + " />"
  }

  /** `node.children?.map(renderComponent).join('\n        ') ?? ''`. */
  function ChildrenText(node: Json, lit: Json -> string): string
    requires node.JObj? && ValidChildren(node)
    decreases node, 1
  {
    var ci := KeyIndex(node.fields, "children");
    if ci < 0 then "" else Join(RenderList(node.fields[ci].1, lit), "\n        ")
  }

  /** `nodes.map(renderComponent)` over an array of valid nodes. */
  function RenderList(children: Json, lit: Json -> string): (r: seq<string>)
    requires children.JArr?
    requires forall j :: 0 <= j < |children.items| ==> ValidNode(children.items[j])
    ensures |r| == |children.items|
    decreases children, 0
  {
    seq(|children.items|, j requires 0 <= j < |children.items| => RenderComponent(children.items[j], lit))
  }

  /** Every rendered node starts with `<`. */
  lemma RenderStartsWithAngle(node: Json, lit: Json -> string)
    requires ValidNode(node)
    ensures |RenderComponent(node, lit)| > 0 && RenderComponent(node, lit)[0] == '<'
  {
  }

  /** The children of a valid node, each rendered, in input order. */
  function RenderedChildren(node: Json, lit: Json -> string): (r: seq<string>)
    requires ValidNode(node)
    ensures |r| == |ChildList(node)|
    ensures forall j :: 0 <= j < |r| ==> ValidNode(ChildList(node)[j]) && r[j] == RenderComponent(ChildList(node)[j], lit)
  {
    ValidNodeChildren(node);
    var ci := KeyIndex(node.fields, "children");
    if ci < 0 then [] else RenderList(node.fields[ci].1, lit)
  }

  lemma ChildrenTextIsJoin(node: Json, lit: Json -> string)
    requires ValidNode(node)
    ensures ChildrenText(node, lit) == Join(RenderedChildren(node, lit), "\n        ")
  {
  }

  /** `hasChildren` holds exactly when the node has a nonempty children
      list: a rendering never starts with whitespace. */
  lemma HasChildrenIff(node: Json, lit: Json -> string)
    requires ValidNode(node)
    ensures |Trim(ChildrenText(node, lit))| > 0 <==> |ChildList(node)| > 0
  {
    ChildrenTextIsJoin(node, lit);
    var parts := RenderedChildren(node, lit);
    if |parts| > 0 {
      RenderStartsWithAngle(ChildList(node)[0], lit);
      JoinStartsWithFirst(parts, "\n        ");
    }
  }

  /** A join of renderings starts with a `<` when there is one. */
  lemma JoinStartsWithFirst(parts: seq<string>, sep: string)
    requires |parts| > 0 && |parts[0]| > 0 && parts[0][0] == '<'
    ensures |Trim(Join(parts, sep))| > 0
  {
    var text := Join(parts, sep);
    assert text[0] == parts[0][0];
    NonBlankTrim(text);
  }

  /** A node renders self-closing, `<T props />`, when it has no children,
      and otherwise as `<T props>`, its children in input order, and
      `</T>` with the same T. The props are exactly the sanitised entries,
      so no prop the registry does not allow for T is ever emitted. */
  lemma RenderShape(node: Json, lit: Json -> string)
    requires ValidNode(node)
    ensures var kind := KindOfNode(node);
      var open := OpenTag(kind, PropsString(SafeEntries(node), lit));
      var r := RenderComponent(node, lit);
      && (ChildList(node) == [] ==> r == open + " />")
      && (ChildList(node) != [] ==>
            r == open + ">\n        " + Join(RenderedChildren(node, lit), "\n        ") + "\n      </" + Name(kind) + ">")
  {
    HasChildrenIff(node, lit);
    ChildrenTextIsJoin(node, lit);
  }

  /** The emitted attributes are the sanitised entries in registry order:
      each names a prop the kind allows and carries its input value. */
  lemma RenderedPropsAllowed(node: Json, lit: Json -> string)
    requires ValidNode(node)
    ensures var entries := SafeEntries(node);
      var attrs := Attributes(entries, lit);
      && PropsString(entries, lit) == Join(attrs, " ")
      && |attrs| == |entries|
      && forall i :: 0 <= i < |entries| ==>
           && attrs[i] == entries[i].0 + "={" + lit(entries[i].1) + "}"
           && entries[i].0 in AllowedProps(KindOfNode(node))
           && Get(InputFields(Get(node.fields, "props")), entries[i].0) == Some(entries[i].1)
  {
    AllowedEntriesSpec(KindOfNode(node), Get(node.fields, "props"));
  }

  // ----- the whole plan -----

  /** The two import lines. */
  function Header(): string {
    "import React from 'react';\n" + ImportLine()
  }

  /** The text of a valid plan before trimming; `rendered` is the
      top-level renderings joined by a newline and six spaces. */
  function Body(layout: string, rendered: string): string {
    Header()
    + ("\n\nexport default function GeneratedUI() {\n  return (\n    <Layout type=\""
       + layout + "\">\n      " + rendered + "\n    </Layout>\n  );\n}")
  }

  function Template(layout: string, rendered: string): string {
    "\n" + Body(layout, rendered) + "\n  "
  }

  /** The layout of a valid plan. */
  function PlanLayout(plan: Json): string
    requires ValidPlan(plan)
  {
    GetString(plan.fields, "layout").value
  }

  /** The top-level components of a valid plan. */
  function PlanComponents(plan: Json): (r: Json)
    requires ValidPlan(plan)
    ensures r.JArr? && forall j :: 0 <= j < |r.items| ==> ValidNode(r.items[j])
  {
    Get(plan.fields, "components").value
  }

  /** `generateReactCode(plan)`. */
  function GenerateReactCode(plan: Json, lit: Json -> string): string {
    PlanErrorsEmptyIff(plan);
    if PlanErrors(plan) != [] then InvalidDiagnostic(PlanErrors(plan))
    else
      Trim(Template(PlanLayout(plan), Join(RenderList(PlanComponents(plan), lit), "\n      ")))
  }

  /** The top-level components, each rendered, in input order. */
  function RenderedComponents(plan: Json, lit: Json -> string): (r: seq<string>)
    requires ValidPlan(plan)
    ensures |r| == |PlanComponents(plan).items|
    ensures forall j :: 0 <= j < |r| ==> r[j] == RenderComponent(PlanComponents(plan).items[j], lit)
  {
    RenderList(PlanComponents(plan), lit)
  }

  /** A plan that fails validation yields exactly the diagnostic listing
      its errors, and nothing is rendered. */
  lemma InvalidPlanDiagnostic(plan: Json, lit: Json -> string)
    requires !ValidPlan(plan)
    ensures PlanErrors(plan) != []
    ensures GenerateReactCode(plan, lit) == InvalidDiagnostic(PlanErrors(plan))
  {
    PlanErrorsEmptyIff(plan);
  }

  /** A valid plan yields the import of React, the import of every
      registered component in registry order, and the top-level
      components, in input order, inside `<Layout type="...">`; the
      surrounding blank lines are trimmed away. */
  lemma ValidPlanCode(plan: Json, lit: Json -> string)
    requires ValidPlan(plan)
    ensures PlanLayout(plan) in LayoutTypes()
    ensures GenerateReactCode(plan, lit)
         == Body(PlanLayout(plan), Join(RenderedComponents(plan, lit), "\n      "))
    ensures StartsWith(GenerateReactCode(plan, lit), Header())
  {
    PlanErrorsEmptyIff(plan);
    var layout := PlanLayout(plan);
    var rendered := Join(RenderedComponents(plan, lit), "\n      ");
    var rest := "\n\nexport default function GeneratedUI() {\n  return (\n    <Layout type=\""
      + layout + "\">\n      " + rendered + "\n    </Layout>\n  );\n}";
    var body := Body(layout, rendered);
    assert body == Header() + rest;
    assert body[0] == 'i';
    assert body[|body| - 1] == '}';
    TrimTemplate(body);
    StartsWithAppended(Header(), rest);
  }

  /** Trimming the template leaves exactly the body. */
  lemma TrimTemplate(body: string)
    requires |body| > 1 && body[0] == 'i' && body[|body| - 1] == '}'
    ensures Trim("\n" + body + "\n  ") == body
  {
    var t := "\n" + body + "\n  ";
    assert t[..1] == "\n";
    assert t[|body| + 1..] == "\n  ";
    assert t[1..|body| + 1] == body;
    TrimExact(t, 1, |body| + 1);
  }

  /** The import line names the five components in registry order. */
  lemma ImportLineText()
    ensures ImportLine() == "import { " + "Button, Card, Input, Table, Layout" + " } from '@/components/lib';"
  {
    KindNamesText();
    JoinKindNames();
  }

  lemma KindNamesText()
    ensures KindNames() == ["Button", "Card", "Input", "Table", "Layout"]
  {
  }

  lemma JoinKindNames()
    ensures Join(["Button", "Card", "Input", "Table", "Layout"], ", ") == "Button, Card, Input, Table, Layout"
  {
  }
}
