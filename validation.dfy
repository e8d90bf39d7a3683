/** The plan validator and the prop sanitiser (validation.ts).

    `PlanErrors` and `NodeErrors` say which messages, in which order,
    `validatePlan` and `validateNode` push into their shared error list;
    the methods `ValidatePlan` and `ValidateNode` do the pushing, loop by
    loop, and are proved to produce exactly those lists. `ValidPlan` is an
    independent, declarative statement of the whitelist, and
    `PlanErrorsEmptyIff` shows that a plan passes exactly when it meets it. */
module Validation {
  import opened Wrappers
  import opened Strings
  import opened JsonModel
  import opened Registry

  /** `ValidationResult`. */
  datatype ValidationResult = ValidationResult(isValid: bool, errors: seq<string>)

  const PlanNotObject: string := "Plan must be an object."
  const ComponentsNotArray: string := "Plan.components must be an array."

  /** `stringProps`: props that must hold strings whatever the kind. */
  const StringProps: seq<string> := ["label", "placeholder", "title", "description", "content", "caption"]

  function LayoutError(): string {
    "Plan.layout must be one of: " + Join(LayoutTypes(), ", ") + "."
  }

  function NotObjectMsg(path: string): string { path + " must be an object." }
  function BadTypeMsg(path: string): string { path + ".type must be a whitelisted component." }
  function BadPropsMsg(path: string): string { path + ".props must be an object when provided." }
  function UnknownPropMsg(path: string, key: string, kind: Kind): string {
    path + (".props." + key + " is not allowed for " + Name(kind) + ".")
  }
  function EnumMsg(path: string, prop: string, allowed: seq<string>): string {
    path + (".props." + prop + " must be one of: " + Join(allowed, ", ") + ".")
  }
  function NotStringMsg(path: string, key: string): string { path + (".props." + key + " must be a string.") }
  function HeadersMsg(path: string): string { path + ".props.headers must be an array of strings." }
  function RowsMsg(path: string): string { path + ".props.rows must be an array of string arrays." }
  function BadChildrenMsg(path: string): string { path + ".children must be an array when provided." }

  /** `${prefix}[${index}]`. */
  function IndexPath(prefix: string, i: nat): string {
    prefix + "[" + NatToString(i) + "]"
  }

  /** The root's `layout` is a string drawn from the layout types. */
  predicate LayoutOk(fields: seq<(string, Json)>) {
    GetString(fields, "layout").Some? && GetString(fields, "layout").value in LayoutTypes()
  }

  /** The kind a node names: its `type` is a string under which a
      component is registered. */
  function NodeKind(fields: seq<(string, Json)>): (r: Option<Kind>)
    ensures r.Some? <==> GetString(fields, "type").Some? && KindOf(GetString(fields, "type").value).Some?
  {
    match GetString(fields, "type")
    case Some(s) => KindOf(s)
    case None => None
  }

  /** `node.props ?? {}`: absent and null props read as the empty object. */
  function PropsOf(fields: seq<(string, Json)>): (r: Json)
    ensures Get(fields, "props").None? || Get(fields, "props") == Some(JNull) ==> r == JObj([])
    ensures Get(fields, "props").Some? && Get(fields, "props") != Some(JNull) ==> r == Get(fields, "props").value
  {
    match Get(fields, "props")
    case None => JObj([])
    case Some(JNull) => JObj([])
    case Some(p) => p
  }

  /** A restricted prop that is present with a string value outside its list. */
  predicate EnumViolated(props: seq<(string, Json)>, restriction: (string, seq<string>)) {
    GetString(props, restriction.0).Some? && GetString(props, restriction.0).value !in restriction.1
  }

  predicate AllStrings(cells: seq<Json>) {
    forall i :: 0 <= i < |cells| ==> cells[i].JStr?
  }

  /** `Array.isArray(props.headers) && props.headers.every(isString)`. */
  predicate HeadersOk(props: seq<(string, Json)>) {
    Get(props, "headers").Some? && Get(props, "headers").value.JArr?
    && AllStrings(Get(props, "headers").value.items)
  }

  /** `props.rows` is an array whose rows are arrays of strings; rows may
      differ in length. */
  predicate RowsOk(props: seq<(string, Json)>) {
    Get(props, "rows").Some? && Get(props, "rows").value.JArr?
    && var rows := Get(props, "rows").value.items;
       forall i :: 0 <= i < |rows| ==> rows[i].JArr? && AllStrings(rows[i].items)
  }

  // ----- the error lists, one per loop of validateNode -----

  /** The loop over `Object.keys(props)`: one error per key the kind does
      not allow, in key order (UnknownPropErrorsSpec). */
  function UnknownPropErrors(path: string, kind: Kind, keys: seq<string>): seq<string> {
    if keys == [] then []
    else
      var key := keys[|keys| - 1];
      UnknownPropErrors(path, kind, keys[..|keys| - 1])
      + (if key in AllowedProps(kind) then [] else [UnknownPropMsg(path, key, kind)])
  }

  /** The loop over the kind's `allowedValues`: one error per restricted
      prop present with a string value outside its list (EnumErrorsSpec). */
  function EnumErrors(path: string, props: seq<(string, Json)>, restrictions: seq<(string, seq<string>)>): seq<string> {
    if restrictions == [] then []
    else
      var last := restrictions[|restrictions| - 1];
      EnumErrors(path, props, restrictions[..|restrictions| - 1])
      + (if EnumViolated(props, last) then [EnumMsg(path, last.0, last.1)] else [])
  }

  /** The loop over `Object.entries(props)`: one error per string prop whose
      value is not a string, whatever the node's kind (StringTypeErrorsSpec). */
  function StringTypeErrors(path: string, entries: seq<(string, Json)>): seq<string> {
    if entries == [] then []
    else
      var last := entries[|entries| - 1];
      StringTypeErrors(path, entries[..|entries| - 1])
      + (if last.0 in StringProps && !last.1.JStr? then [NotStringMsg(path, last.0)] else [])
  }

  /** Each key the kind does not allow gets its own error, and every error
      names such a key. */
  lemma {:induction false} UnknownPropErrorsSpec(path: string, kind: Kind, keys: seq<string>)
    ensures var errs := UnknownPropErrors(path, kind, keys);
      && |errs| <= |keys|
      && forall e :: e in errs <==>
           exists i :: 0 <= i < |keys| && keys[i] !in AllowedProps(kind) && e == UnknownPropMsg(path, keys[i], kind)
  {
    if keys != [] {
      var init := keys[..|keys| - 1];
      UnknownPropErrorsSpec(path, kind, init);
      assert forall i :: 0 <= i < |init| ==> init[i] == keys[i];
    }
  }

  /** Each restricted prop holding a string outside its list gets its own
      error, and every error names such a prop; a restricted prop holding a
      non-string, or absent, gets none. */
  lemma {:induction false} EnumErrorsSpec(path: string, props: seq<(string, Json)>, restrictions: seq<(string, seq<string>)>)
    ensures var errs := EnumErrors(path, props, restrictions);
      && |errs| <= |restrictions|
      && forall e :: e in errs <==>
           exists i :: 0 <= i < |restrictions| && EnumViolated(props, restrictions[i])
                       && e == EnumMsg(path, restrictions[i].0, restrictions[i].1)
  {
    if restrictions != [] {
      var init := restrictions[..|restrictions| - 1];
      EnumErrorsSpec(path, props, init);
      assert forall i :: 0 <= i < |init| ==> init[i] == restrictions[i];
    }
  }

  /** Each string prop holding a non-string gets its own error, and every
      error names such a prop. */
  lemma {:induction false} StringTypeErrorsSpec(path: string, entries: seq<(string, Json)>)
    ensures var errs := StringTypeErrors(path, entries);
      && |errs| <= |entries|
      && forall e :: e in errs <==>
           exists i :: 0 <= i < |entries| && entries[i].0 in StringProps && !entries[i].1.JStr?
                       && e == NotStringMsg(path, entries[i].0)
  {
    if entries != [] {
      var init := entries[..|entries| - 1];
      StringTypeErrorsSpec(path, init);
      assert forall i :: 0 <= i < |init| ==> init[i] == entries[i];
    }
  }

  /** The Table rule: the headers and the rows each get their own error. */
  function TableErrors(path: string, props: seq<(string, Json)>): (errs: seq<string>)
    ensures errs == [] <==> HeadersOk(props) && RowsOk(props)
    ensures HeadersMsg(path) in errs <==> !HeadersOk(props)
    ensures RowsMsg(path) in errs <==> !RowsOk(props)
  {
    assert HeadersMsg(path) != RowsMsg(path) by {
      assert HeadersMsg(path)[|path| + 7] == 'h';
      assert RowsMsg(path)[|path| + 7] == 'r';
    }
    (if HeadersOk(props) then [] else [HeadersMsg(path)]) + (if RowsOk(props) then [] else [RowsMsg(path)])
  }

  /** Every check made on a node's props, in the order validateNode makes them. */
  function PropErrors(path: string, kind: Kind, props: seq<(string, Json)>): seq<string> {
    UnknownPropErrors(path, kind, Keys(props))
    + EnumErrors(path, props, AllowedValues(kind))
    + StringTypeErrors(path, props)
    + (if kind == Table then TableErrors(path, props) else [])
  }

  /** `validateNode(node, path, errors)`: what it appends. */
  function NodeErrors(node: Json, path: string): seq<string>
    decreases node, 2
  {
    if !IsRecord(node) then [NotObjectMsg(path)]
    else
      match NodeKind(node.fields)
      case None => [BadTypeMsg(path)]
      case Some(kind) =>
        var props := PropsOf(node.fields);
        if !IsRecord(props) then [BadPropsMsg(path)]
        else PropErrors(path, kind, props.fields) + ChildPartErrors(node, path)
  }

  /** The children part of validateNode: nothing when there are no
      children, one error when they are not an array, and otherwise the
      errors of each child at `path.children[i]`. */
  function ChildPartErrors(node: Json, path: string): seq<string>
    requires node.JObj?
    decreases node, 1
  {
    var ci := KeyIndex(node.fields, "children");
    if ci < 0 then []
    else
      var children := node.fields[ci].1;
      if !children.JArr? then [BadChildrenMsg(path)]
      else ChildrenErrors(children, path + ".children", |children.items|)
  }

  /** The errors of the first `n` elements of an array of nodes, the
      element at index `i` checked at path `prefix[i]`. */
  function ChildrenErrors(children: Json, prefix: string, n: nat): seq<string>
    requires children.JArr? && n <= |children.items|
    decreases children, 0, n
  {
    if n == 0 then []
    else ChildrenErrors(children, prefix, n - 1) + NodeErrors(children.items[n - 1], IndexPath(prefix, n - 1))
  }

  lemma AppendAssoc<T>(a: seq<T>, b: seq<T>, c: seq<T>)
    ensures a + (b + c) == a + b + c
  {
  }

  lemma EmptyAppend<T>(a: seq<T>, b: seq<T>)
    requires a == [] && b == []
    ensures a + b == []
  {
  }

  /** `p + q` extends `p`, so whatever starts with `p + q` starts with `p`. */
  lemma StartsWithLonger(p: string, q: string)
    ensures forall e :: StartsWith(e, p + q) ==> StartsWith(e, p)
  {
    forall e | StartsWith(e, p + q) ensures StartsWith(e, p) {
      assert e[..|p|] == (p + q)[..|p|];
    }
  }

  lemma StartsWithAppended(p: string, q: string)
    ensures StartsWith(p + q, p)
  {
    assert (p + q)[..|p|] == p;
  }

  lemma {:induction false} UnknownPropErrorsQualified(path: string, kind: Kind, keys: seq<string>)
    ensures forall e :: e in UnknownPropErrors(path, kind, keys) ==> StartsWith(e, path)
  {
    if keys != [] {
      var key := keys[|keys| - 1];
      UnknownPropErrorsQualified(path, kind, keys[..|keys| - 1]);
      StartsWithAppended(path, ".props." + key + " is not allowed for " + Name(kind) + ".");
    }
  }

  lemma {:induction false} EnumErrorsQualified(path: string, props: seq<(string, Json)>, restrictions: seq<(string, seq<string>)>)
    ensures forall e :: e in EnumErrors(path, props, restrictions) ==> StartsWith(e, path)
  {
    if restrictions != [] {
      var last := restrictions[|restrictions| - 1];
      EnumErrorsQualified(path, props, restrictions[..|restrictions| - 1]);
      StartsWithAppended(path, ".props." + last.0 + " must be one of: " + Join(last.1, ", ") + ".");
    }
  }

  lemma {:induction false} StringTypeErrorsQualified(path: string, entries: seq<(string, Json)>)
    ensures forall e :: e in StringTypeErrors(path, entries) ==> StartsWith(e, path)
  {
    if entries != [] {
      var last := entries[|entries| - 1];
      StringTypeErrorsQualified(path, entries[..|entries| - 1]);
      StartsWithAppended(path, ".props." + last.0 + " must be a string.");
    }
  }

  /** Every message about a node's props is qualified by the node's path. */
  lemma PropErrorsQualified(path: string, kind: Kind, props: seq<(string, Json)>)
    ensures forall e :: e in PropErrors(path, kind, props) ==> StartsWith(e, path)
  {
    UnknownPropErrorsQualified(path, kind, Keys(props));
    EnumErrorsQualified(path, props, AllowedValues(kind));
    StringTypeErrorsQualified(path, props);
    StartsWithAppended(path, ".props.headers must be an array of strings.");
    StartsWithAppended(path, ".props.rows must be an array of string arrays.");
  }

  /** Every message reported for a node or its subtree starts with the
      node's path. */
  lemma {:induction false} NodeErrorsQualified(node: Json, path: string)
    ensures forall e :: e in NodeErrors(node, path) ==> StartsWith(e, path)
    decreases node, 2
  {
    if !IsRecord(node) {
      StartsWithAppended(path, " must be an object.");
    } else if NodeKind(node.fields).None? {
      StartsWithAppended(path, ".type must be a whitelisted component.");
    } else if !IsRecord(PropsOf(node.fields)) {
      StartsWithAppended(path, ".props must be an object when provided.");
    } else {
      PropErrorsQualified(path, NodeKind(node.fields).value, PropsOf(node.fields).fields);
      ChildPartQualified(node, path);
    }
  }

  lemma {:induction false} ChildPartQualified(node: Json, path: string)
    requires node.JObj?
    ensures forall e :: e in ChildPartErrors(node, path) ==> StartsWith(e, path)
    decreases node, 1
  {
    var ci := KeyIndex(node.fields, "children");
    if ci >= 0 {
      var children := node.fields[ci].1;
      if !children.JArr? {
        StartsWithAppended(path, ".children must be an array when provided.");
      } else {
        ChildrenErrorsQualified(children, path + ".children", |children.items|);
        StartsWithLonger(path, ".children[");
      }
    }
  }

  /** Every message reported for an element of an array of nodes starts
      with `prefix[`. */
  lemma {:induction false} ChildrenErrorsQualified(children: Json, prefix: string, n: nat)
    requires children.JArr? && n <= |children.items|
    ensures forall e :: e in ChildrenErrors(children, prefix, n) ==> StartsWith(e, prefix + "[")
    decreases children, 0, n
  {
    if n > 0 {
      var m: nat := n - 1;
      ChildrenErrorsQualified(children, prefix, m);
      NodeErrorsQualified(children.items[m], IndexPath(prefix, m));
      IndexPathExtends(prefix, m);
      ChildrenErrorsSnoc(children, prefix, m);
    }
  }

  lemma ChildrenErrorsSnoc(children: Json, prefix: string, m: nat)
    requires children.JArr? && m < |children.items|
    ensures ChildrenErrors(children, prefix, m + 1)
         == ChildrenErrors(children, prefix, m) + NodeErrors(children.items[m], IndexPath(prefix, m))
  {
  }

  /** A child's path `prefix[i]` extends `prefix[`. */
  lemma IndexPathExtends(prefix: string, i: nat)
    ensures forall e :: StartsWith(e, IndexPath(prefix, i)) ==> StartsWith(e, prefix + "[")
  {
    var p := IndexPath(prefix, i);
    assert p[..|prefix| + 1] == prefix + "[";
    forall e | StartsWith(e, p) ensures StartsWith(e, prefix + "[") {
      assert e[..|prefix| + 1] == p[..|prefix| + 1];
    }
  }

  /** `validatePlan(plan).errors`. */
  function PlanErrors(plan: Json): seq<string> {
    if !IsRecord(plan) then [PlanNotObject]
    else
      (if LayoutOk(plan.fields) then [] else [LayoutError()])
      + (var comps := Get(plan.fields, "components");
         if comps.Some? && comps.value.JArr? then ChildrenErrors(comps.value, "components", |comps.value.items|)
         else [ComponentsNotArray])
  }

  // ----- the whitelist, stated declaratively -----

  /** Every prop is allowed for the kind, every restricted prop that holds a
      string holds an allowed one, every string prop holds a string, and a
      Table has string headers and rows of strings. */
  predicate PropsValid(kind: Kind, props: seq<(string, Json)>) {
    && (forall i :: 0 <= i < |props| ==> props[i].0 in AllowedProps(kind))
    && (forall i :: 0 <= i < |AllowedValues(kind)| ==> !EnumViolated(props, AllowedValues(kind)[i]))
    && (forall i :: 0 <= i < |props| ==> props[i].0 in StringProps ==> props[i].1.JStr?)
    && (kind == Table ==> HeadersOk(props) && RowsOk(props))
  }

  /** A node is an object naming a registered kind, its props (if any) are
      an object meeting PropsValid, and its children (if any) are an array
      of valid nodes. */
  predicate ValidNode(node: Json)
    decreases node, 1
  {
    && IsRecord(node)
    && NodeKind(node.fields).Some?
    && IsRecord(PropsOf(node.fields))
    && PropsValid(NodeKind(node.fields).value, PropsOf(node.fields).fields)
    && ValidChildren(node)
  }

  /** The node's children, if any, are an array of valid nodes. */
  predicate ValidChildren(node: Json)
    requires node.JObj?
    decreases node, 0
  {
    var ci := KeyIndex(node.fields, "children");
    ci >= 0 ==>
      && node.fields[ci].1.JArr?
      && forall j :: 0 <= j < |node.fields[ci].1.items| ==> ValidNode(node.fields[ci].1.items[j])
  }

  /** What a valid node says about its children. */
  lemma ValidNodeChildren(node: Json)
    requires ValidNode(node)
    ensures var ci := KeyIndex(node.fields, "children");
      ci >= 0 ==>
        && node.fields[ci].1.JArr?
        && forall j :: 0 <= j < |node.fields[ci].1.items| ==> ValidNode(node.fields[ci].1.items[j])
  {
    assert ValidChildren(node);
  }

  /** A plan is an object with an allowed layout and an array of valid nodes. */
  predicate ValidPlan(plan: Json) {
    && IsRecord(plan)
    && LayoutOk(plan.fields)
    && Get(plan.fields, "components").Some?
    && Get(plan.fields, "components").value.JArr?
    && forall i :: 0 <= i < |Get(plan.fields, "components").value.items| ==>
         ValidNode(Get(plan.fields, "components").value.items[i])
  }

  lemma {:induction false} UnknownPropErrorsEmpty(path: string, kind: Kind, keys: seq<string>)
    ensures UnknownPropErrors(path, kind, keys) == [] <==> forall i :: 0 <= i < |keys| ==> keys[i] in AllowedProps(kind)
  {
    if keys != [] {
      var init := keys[..|keys| - 1];
      UnknownPropErrorsEmpty(path, kind, init);
      assert forall i :: 0 <= i < |init| ==> init[i] == keys[i];
    }
  }

  lemma {:induction false} EnumErrorsEmpty(path: string, props: seq<(string, Json)>, restrictions: seq<(string, seq<string>)>)
    ensures EnumErrors(path, props, restrictions) == [] <==>
      forall i :: 0 <= i < |restrictions| ==> !EnumViolated(props, restrictions[i])
  {
    if restrictions != [] {
      var init := restrictions[..|restrictions| - 1];
      EnumErrorsEmpty(path, props, init);
      assert forall i :: 0 <= i < |init| ==> init[i] == restrictions[i];
    }
  }

  lemma {:induction false} StringTypeErrorsEmpty(path: string, entries: seq<(string, Json)>)
    ensures StringTypeErrors(path, entries) == [] <==>
      forall i :: 0 <= i < |entries| ==> entries[i].0 in StringProps ==> entries[i].1.JStr?
  {
    if entries != [] {
      var init := entries[..|entries| - 1];
      StringTypeErrorsEmpty(path, init);
      assert forall i :: 0 <= i < |init| ==> init[i] == entries[i];
    }
  }

  lemma PropErrorsEmptyIff(path: string, kind: Kind, props: seq<(string, Json)>)
    ensures PropErrors(path, kind, props) == [] <==> PropsValid(kind, props)
  {
    UnknownPropErrorsEmpty(path, kind, Keys(props));
    EnumErrorsEmpty(path, props, AllowedValues(kind));
    StringTypeErrorsEmpty(path, props);
  }

  /** The validator accepts a node exactly when the node meets the
      whitelist; both directions. */
  lemma {:induction false} NodeErrorsEmptyIff(node: Json, path: string)
    ensures NodeErrors(node, path) == [] <==> ValidNode(node)
    decreases node, 2
  {
    if IsRecord(node) && NodeKind(node.fields).Some? && IsRecord(PropsOf(node.fields)) {
      PropErrorsEmptyIff(path, NodeKind(node.fields).value, PropsOf(node.fields).fields);
      ChildPartEmptyIff(node, path);
    }
  }

  lemma {:induction false} ChildPartEmptyIff(node: Json, path: string)
    requires node.JObj?
    ensures ChildPartErrors(node, path) == [] <==> ValidChildren(node)
    decreases node, 1
  {
    var ci := KeyIndex(node.fields, "children");
    if ci >= 0 && node.fields[ci].1.JArr? {
      var children := node.fields[ci].1;
      ChildrenErrorsEmptyIff(children, path + ".children", |children.items|);
    }
  }

  lemma {:induction false} ChildrenErrorsEmptyIff(children: Json, prefix: string, n: nat)
    requires children.JArr? && n <= |children.items|
    ensures ChildrenErrors(children, prefix, n) == [] <==> forall j :: 0 <= j < n ==> ValidNode(children.items[j])
    decreases children, 0, n + 1
  {
    if j :| 0 <= j < n && !ValidNode(children.items[j]) {
      ChildrenErrorsReportInvalid(children, prefix, n, j);
    } else {
      ChildrenErrorsOfValid(children, prefix, n);
    }
  }

  /** One invalid element makes the array's error list nonempty. */
  lemma {:induction false} ChildrenErrorsReportInvalid(children: Json, prefix: string, n: nat, j: nat)
    requires children.JArr? && j < n <= |children.items| && !ValidNode(children.items[j])
    ensures ChildrenErrors(children, prefix, n) != []
    decreases children, 0, n
  {
    var m: nat := n - 1;
    if j == m {
      NodeErrorsOfInvalid(children.items[m], IndexPath(prefix, m));
    } else {
      ChildrenErrorsReportInvalid(children, prefix, m, j);
    }
    ChildrenErrorsSnocNonEmpty(children, prefix, m);
  }

  lemma {:induction false} NodeErrorsOfInvalid(node: Json, path: string)
    requires !ValidNode(node)
    ensures NodeErrors(node, path) != []
    decreases node, 3
  {
    NodeErrorsEmptyIff(node, path);
  }

  lemma ChildrenErrorsSnocNonEmpty(children: Json, prefix: string, m: nat)
    requires children.JArr? && m < |children.items|
    requires ChildrenErrors(children, prefix, m) != [] || NodeErrors(children.items[m], IndexPath(prefix, m)) != []
    ensures ChildrenErrors(children, prefix, m + 1) != []
  {
  }

  /** An array of valid elements yields no error. */
  lemma {:induction false} ChildrenErrorsOfValid(children: Json, prefix: string, n: nat)
    requires children.JArr? && n <= |children.items|
    requires forall j :: 0 <= j < n ==> ValidNode(children.items[j])
    ensures ChildrenErrors(children, prefix, n) == []
    decreases children, 0, n
  {
    if n > 0 {
      var m: nat := n - 1;
      ChildrenErrorsOfValid(children, prefix, m);
      NodeErrorsOfValid(children.items[m], IndexPath(prefix, m));
      ChildrenErrorsSnocEmpty(children, prefix, m);
    }
  }

  lemma {:induction false} NodeErrorsOfValid(node: Json, path: string)
    requires ValidNode(node)
    ensures NodeErrors(node, path) == []
    decreases node, 3
  {
    NodeErrorsEmptyIff(node, path);
  }

  lemma ChildrenErrorsSnocEmpty(children: Json, prefix: string, m: nat)
    requires children.JArr? && m < |children.items|
    requires ChildrenErrors(children, prefix, m) == []
    requires NodeErrors(children.items[m], IndexPath(prefix, m)) == []
    ensures ChildrenErrors(children, prefix, m + 1) == []
  {
  }

  /** `validatePlan(plan).isValid` holds exactly for the plans that meet
      the whitelist; both directions. */
  lemma PlanErrorsEmptyIff(plan: Json)
    ensures PlanErrors(plan) == [] <==> ValidPlan(plan)
  {
    if IsRecord(plan) {
      var comps := Get(plan.fields, "components");
      var layoutErrors: seq<string> := if LayoutOk(plan.fields) then [] else [LayoutError()];
      var componentErrors := if comps.Some? && comps.value.JArr? then ChildrenErrors(comps.value, "components", |comps.value.items|)
                             else [ComponentsNotArray];
      assert PlanErrors(plan) == layoutErrors + componentErrors;
      if comps.Some? && comps.value.JArr? {
        ChildrenErrorsEmptyIff(comps.value, "components", |comps.value.items|);
      }
    }
  }

  // ----- the validator's early returns and exact messages -----

  lemma LayoutErrorText()
    ensures LayoutError() == "Plan.layout must be one of: grid, flex, sidebar-layout."
  {
  }

  /** A root that is not an object yields exactly one error and nothing
      else is checked. */
  lemma RootNotObject(plan: Json)
    requires !IsRecord(plan)
    ensures PlanErrors(plan) == ["Plan must be an object."]
  {
  }

  /** The layout error is reported, first and only once, exactly when the
      layout is not one of the layout types; no node's error can be mistaken
      for it. */
  lemma LayoutReported(plan: Json)
    requires IsRecord(plan)
    ensures !LayoutOk(plan.fields) ==> PlanErrors(plan)[0] == LayoutError()
    ensures LayoutError() in PlanErrors(plan) <==> !LayoutOk(plan.fields)
    ensures !LayoutOk(plan.fields) ==> LayoutError() !in PlanErrors(plan)[1..]
  {
    var comps := Get(plan.fields, "components");
    var rest := if comps.Some? && comps.value.JArr? then ChildrenErrors(comps.value, "components", |comps.value.items|)
                else [ComponentsNotArray];
    assert PlanErrors(plan) == (if LayoutOk(plan.fields) then [] else [LayoutError()]) + rest;
    if comps.Some? && comps.value.JArr? {
      ChildrenErrorsQualified(comps.value, "components", |comps.value.items|);
    }
    LayoutErrorDistinct();
    assert LayoutError() !in rest;
  }

  /** Neither a message about a node nor the components error can be
      mistaken for the layout error. */
  lemma LayoutErrorDistinct()
    ensures !StartsWith(LayoutError(), "components[")
    ensures LayoutError() != ComponentsNotArray
  {
    assert LayoutError()[0] == 'P';
    assert LayoutError()[5] == 'l' && ComponentsNotArray[5] == 'c';
  }

  /** When `components` is not an array no node is visited: the only
      errors are the layout's (if any) and one for `components`. */
  lemma ComponentsNotArrayReported(plan: Json)
    requires IsRecord(plan)
    requires Get(plan.fields, "components").None? || !Get(plan.fields, "components").value.JArr?
    ensures PlanErrors(plan) == (if LayoutOk(plan.fields) then [] else [LayoutError()]) + [ComponentsNotArray]
  {
  }

  /** A node that is not an object adds exactly one error. */
  lemma NodeNotObject(node: Json, path: string)
    requires !IsRecord(node)
    ensures NodeErrors(node, path) == [path + " must be an object."]
  {
  }

  /** A node whose `type` is missing, not a string or not registered adds
      exactly one error, and its props and children are not examined. */
  lemma NodeUnknownType(node: Json, path: string)
    requires IsRecord(node) && NodeKind(node.fields).None?
    ensures NodeErrors(node, path) == [path + ".type must be a whitelisted component."]
  {
  }

  /** Props that are present, not null and not an object add exactly one
      error, and the node's children are not visited. */
  lemma NodePropsNotObject(node: Json, path: string)
    requires IsRecord(node) && NodeKind(node.fields).Some?
    requires Get(node.fields, "props").Some? && Get(node.fields, "props") != Some(JNull)
    requires !IsRecord(Get(node.fields, "props").value)
    ensures NodeErrors(node, path) == [path + ".props must be an object when provided."]
  {
  }

  // ----- pickAllowedProps -----

  predicate Distinct(keys: seq<string>) {
    forall i, j :: 0 <= i < j < |keys| ==> keys[i] != keys[j]
  }

  /** The index of `key` in a list of names. */
  function Position(keys: seq<string>, key: string): (p: nat)
    requires key in keys
    ensures p < |keys| && keys[p] == key
    ensures forall j :: 0 <= j < p ==> keys[j] != key
  {
    if keys[0] == key then 0 else 1 + Position(keys[1..], key)
  }

  lemma PositionOfDistinct(keys: seq<string>, q: nat)
    requires Distinct(keys) && q < |keys|
    ensures Position(keys, keys[q]) == q
  {
  }

  /** The entries of `input` named in `keys`, in the order of `keys`, with
      the values unchanged (PickFromSound, PickFromComplete, PickFromOrdered). */
  function PickFrom(keys: seq<string>, input: seq<(string, Json)>): seq<(string, Json)> {
    if keys == [] then []
    else
      var key := keys[|keys| - 1];
      PickFrom(keys[..|keys| - 1], input) + (if HasKey(input, key) then [(key, Get(input, key).value)] else [])
  }

  /** PickFrom keeps only the named keys, each present in the input with
      its value unchanged. */
  lemma {:induction false} PickFromSound(keys: seq<string>, input: seq<(string, Json)>)
    ensures var r := PickFrom(keys, input);
      && |r| <= |keys|
      && forall i :: 0 <= i < |r| ==> r[i].0 in keys && Get(input, r[i].0) == Some(r[i].1)
  {
    if keys != [] {
      var init := keys[..|keys| - 1];
      PickFromSound(init, input);
      assert forall k :: k in init ==> k in keys;
    }
  }

  /** PickFrom keeps every named key the input has. */
  lemma {:induction false} PickFromComplete(keys: seq<string>, input: seq<(string, Json)>)
    ensures forall k :: k in keys && HasKey(input, k) ==> k in Keys(PickFrom(keys, input))
  {
    if keys != [] {
      var init := keys[..|keys| - 1];
      var key := keys[|keys| - 1];
      PickFromComplete(init, input);
      var r0 := PickFrom(init, input);
      var r := PickFrom(keys, input);
      assert r[..|r0|] == r0;
      forall k | k in Keys(r0) ensures k in Keys(r) {
        var i :| 0 <= i < |r0| && Keys(r0)[i] == k;
        assert Keys(r)[i] == k;
      }
      assert forall k :: k in keys ==> k in init || k == key;
      assert HasKey(input, key) ==> Keys(r)[|r| - 1] == key;
    }
  }

  /** PickFrom lists the entries in the order of the names. */
  lemma {:induction false} PickFromOrdered(keys: seq<string>, input: seq<(string, Json)>)
    requires Distinct(keys)
    ensures var r := PickFrom(keys, input);
      && (forall i :: 0 <= i < |r| ==> r[i].0 in keys)
      && forall i, j :: 0 <= i < j < |r| ==> Position(keys, r[i].0) < Position(keys, r[j].0)
  {
    PickFromSound(keys, input);
    if keys != [] {
      var init := keys[..|keys| - 1];
      assert Distinct(init);
      PickFromOrdered(init, input);
      PickFromSound(init, input);
      var r0 := PickFrom(init, input);
      PickFromStep(keys, r0);
    }
  }

  /** The order step of PickFrom: entries picked from the first names come
      before the entry for the last name. */
  lemma PickFromStep(keys: seq<string>, r0: seq<(string, Json)>)
    requires Distinct(keys) && |keys| > 0
    requires forall i :: 0 <= i < |r0| ==> r0[i].0 in keys[..|keys| - 1]
    requires forall i, j :: 0 <= i < j < |r0| ==>
      Position(keys[..|keys| - 1], r0[i].0) < Position(keys[..|keys| - 1], r0[j].0)
    ensures forall i :: 0 <= i < |r0| ==> Position(keys, r0[i].0) < |keys| - 1
    ensures forall i, j :: 0 <= i < j < |r0| ==> Position(keys, r0[i].0) < Position(keys, r0[j].0)
    ensures Position(keys, keys[|keys| - 1]) == |keys| - 1
  {
    var init := keys[..|keys| - 1];
    forall i | 0 <= i < |r0| ensures Position(keys, r0[i].0) == Position(init, r0[i].0) {
      var p := Position(init, r0[i].0);
      assert keys[p] == r0[i].0;
      PositionOfDistinct(keys, p);
    }
    PositionOfDistinct(keys, |keys| - 1);
  }

  /** The properties `pickAllowedProps` reads: `props ?? {}`, and nothing
      from a value that is not an object. */
  function InputFields(props: Option<Json>): seq<(string, Json)> {
    match props
    case Some(JObj(fields)) => fields
    case _ => []
  }

  /** `pickAllowedProps(kind, props)`. */
  function AllowedEntries(kind: Kind, props: Option<Json>): seq<(string, Json)> {
    PickFrom(AllowedProps(kind), InputFields(props))
  }

  /** The sanitised props hold only keys the kind allows, each present in
      the input with its value unchanged, every allowed key of the input,
      and they list the keys in registry order. */
  lemma AllowedEntriesSpec(kind: Kind, props: Option<Json>)
    ensures var r := AllowedEntries(kind, props);
      && (forall i :: 0 <= i < |r| ==> r[i].0 in AllowedProps(kind) && Get(InputFields(props), r[i].0) == Some(r[i].1))
      && (forall k :: k in AllowedProps(kind) && HasKey(InputFields(props), k) ==> k in Keys(r))
      && (forall i, j :: 0 <= i < j < |r| ==> Position(AllowedProps(kind), r[i].0) < Position(AllowedProps(kind), r[j].0))
  {
    PickFromSound(AllowedProps(kind), InputFields(props));
    PickFromComplete(AllowedProps(kind), InputFields(props));
    PickFromOrdered(AllowedProps(kind), InputFields(props));
  }

  /** Absent (or null) props sanitise to the empty object. */
  lemma {:induction false} AllowedEntriesOfNothing(kind: Kind)
    ensures AllowedEntries(kind, None) == [] && AllowedEntries(kind, Some(JNull)) == []
  {
    PickFromNothing(AllowedProps(kind));
  }

  lemma {:induction false} PickFromNothing(keys: seq<string>)
    ensures PickFrom(keys, []) == []
  {
    if keys != [] {
      PickFromNothing(keys[..|keys| - 1]);
    }
  }

  // ----- the imperative validator and sanitiser -----

  /** The `errors` array that validatePlan creates and validateNode pushes to. */
  class ErrorList {
    var items: seq<string>

    constructor ()
      ensures items == []
    {
      items := [];
    }

    method Push(e: string)
      modifies this
      ensures items == old(items) + [e]
    {
      items := items + [e];
    }
  }

  /** The loop over `Object.keys(props)` in validateNode. */
  method PushUnknownProps(path: string, k: Kind, keys: seq<string>, errors: ErrorList)
    modifies errors
    ensures errors.items == old(errors.items) + UnknownPropErrors(path, k, keys)
  {
    for i := 0 to |keys|
      invariant errors.items == old(errors.items) + UnknownPropErrors(path, k, keys[..i])
    {
      assert keys[..i + 1][..i] == keys[..i];
      if keys[i] !in AllowedProps(k) {
        errors.Push(UnknownPropMsg(path, keys[i], k));
      }
    }
    assert keys[..|keys|] == keys;
  }

  /** The loop over `Object.entries(spec.allowedValues)` in validateNode. */
  method PushEnumErrors(path: string, entries: seq<(string, Json)>, restrictions: seq<(string, seq<string>)>, errors: ErrorList)
    modifies errors
    ensures errors.items == old(errors.items) + EnumErrors(path, entries, restrictions)
  {
    for i := 0 to |restrictions|
      invariant errors.items == old(errors.items) + EnumErrors(path, entries, restrictions[..i])
    {
      assert restrictions[..i + 1][..i] == restrictions[..i];
      var (prop, allowed) := restrictions[i];
      var value := GetString(entries, prop);
      if value.Some? && value.value !in allowed {
        errors.Push(EnumMsg(path, prop, allowed));
      }
    }
    assert restrictions[..|restrictions|] == restrictions;
  }

  /** The loop over `Object.entries(props)` in validateNode. */
  method PushStringTypeErrors(path: string, entries: seq<(string, Json)>, errors: ErrorList)
    modifies errors
    ensures errors.items == old(errors.items) + StringTypeErrors(path, entries)
  {
    for i := 0 to |entries|
      invariant errors.items == old(errors.items) + StringTypeErrors(path, entries[..i])
    {
      assert entries[..i + 1][..i] == entries[..i];
      var (key, value) := entries[i];
      if key in StringProps && !value.JStr? {
        errors.Push(NotStringMsg(path, key));
      }
    }
    assert entries[..|entries|] == entries;
  }

  /** `validateNode(node, path, errors)`. */
  method ValidateNode(node: Json, path: string, errors: ErrorList)
    modifies errors
    ensures errors.items == old(errors.items) + NodeErrors(node, path)
    decreases node, 2
  {
    if !IsRecord(node) {
      errors.Push(NotObjectMsg(path));
      return;
    }
    var kind := NodeKind(node.fields);
    if kind.None? {
      errors.Push(BadTypeMsg(path));
      return;
    }
    var k := kind.value;
    var props := PropsOf(node.fields);
    if !IsRecord(props) {
      errors.Push(BadPropsMsg(path));
      return;
    }
    ghost var start := errors.items;
    PushPropErrors(path, k, props.fields, errors);
    PushChildPart(node, path, errors);
    AppendAssoc(start, PropErrors(path, k, props.fields), ChildPartErrors(node, path));
  }

  /** The children part of validateNode. */
  method PushChildPart(node: Json, path: string, errors: ErrorList)
    requires node.JObj?
    modifies errors
    ensures errors.items == old(errors.items) + ChildPartErrors(node, path)
    decreases node, 1
  {
    var ci := KeyIndex(node.fields, "children");
    if ci >= 0 {
      var children := node.fields[ci].1;
      if !children.JArr? {
        errors.Push(BadChildrenMsg(path));
      } else {
        PushChildren(children, path + ".children", errors);
      }
    }
  }

  /** The prop checks of validateNode, in order. */
  method PushPropErrors(path: string, k: Kind, entries: seq<(string, Json)>, errors: ErrorList)
    modifies errors
    ensures errors.items == old(errors.items) + PropErrors(path, k, entries)
  {
    ghost var u := UnknownPropErrors(path, k, Keys(entries));
    ghost var e := EnumErrors(path, entries, AllowedValues(k));
    ghost var st := StringTypeErrors(path, entries);
    ghost var t := if k == Table then TableErrors(path, entries) else [];
    PushUnknownProps(path, k, Keys(entries), errors);
    PushEnumErrors(path, entries, AllowedValues(k), errors);
    PushStringTypeErrors(path, entries, errors);
    ghost var mid := errors.items;
    if k == Table {
      PushTableErrors(path, entries, errors);
    }
    assert errors.items == mid + t;
    AppendAssoc(old(errors.items), u, e);
    AppendAssoc(old(errors.items), u + e, st);
    AppendAssoc(old(errors.items), u + e + st, t);
  }

  /** The Table rule of validateNode. */
  method PushTableErrors(path: string, entries: seq<(string, Json)>, errors: ErrorList)
    modifies errors
    ensures errors.items == old(errors.items) + TableErrors(path, entries)
  {
    if !HeadersOk(entries) {
      errors.Push(HeadersMsg(path));
    }
    if !RowsOk(entries) {
      errors.Push(RowsMsg(path));
    }
  }

  /** The loop of validateNode (and of validatePlan) over an array of
      nodes: element `i` is validated at path `prefix[i]`. */
  method PushChildren(children: Json, prefix: string, errors: ErrorList)
    requires children.JArr?
    modifies errors
    ensures errors.items == old(errors.items) + ChildrenErrors(children, prefix, |children.items|)
    decreases children, 0
  {
    var items := children.items;
    for i := 0 to |items|
      invariant errors.items == old(errors.items) + ChildrenErrors(children, prefix, i)
    {
      ValidateNode(items[i], IndexPath(prefix, i), errors);
      AppendAssoc(old(errors.items), ChildrenErrors(children, prefix, i), NodeErrors(items[i], IndexPath(prefix, i)));
    }
  }

  /** `validatePlan(plan)`: the errors are exactly PlanErrors(plan), and
      the plan is valid exactly when there are none. */
  method ValidatePlan(plan: Json) returns (result: ValidationResult)
    ensures result.errors == PlanErrors(plan)
    ensures result.isValid <==> result.errors == []
  {
    if !IsRecord(plan) {
      return ValidationResult(false, [PlanNotObject]);
    }
    var errors := new ErrorList();
    if !LayoutOk(plan.fields) {
      errors.Push(LayoutError());
    }
    var comps := Get(plan.fields, "components");
    if comps.Some? && comps.value.JArr? {
      PushChildren(comps.value, "components", errors);
    } else {
      errors.Push(ComponentsNotArray);
    }
    return ValidationResult(|errors.items| == 0, errors.items);
  }

  /** `pickAllowedProps(kind, props)`: fills the safe object key by key in
      registry order. */
  method PickAllowedProps(kind: Kind, props: Option<Json>) returns (safe: seq<(string, Json)>)
    ensures safe == AllowedEntries(kind, props)
  {
    var keys := AllowedProps(kind);
    var input := InputFields(props);
    safe := [];
    for i := 0 to |keys|
      invariant safe == PickFrom(keys[..i], input)
    {
      assert keys[..i + 1][..i] == keys[..i];
      var key := keys[i];
      if HasKey(input, key) {
        safe := safe + [(key, Get(input, key).value)];
      }
    }
    assert keys[..|keys|] == keys;
  }
}
