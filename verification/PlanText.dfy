/** The autopilot plan as text: printed by concatenation, read back as JSON. */
module PlanText {
  import opened Prelude
  import opened Json
  import opened JsonText
  import opened JsonClean

  const DEFAULT_DOWNLOAD_URL: string := "https://get.k0s.sh"

  datatype Params = Params(id: string, timestamp: string, version: string, downloadURL: string,
                           target: string, nodes: seq<string>)

  /** The URL printed for one architecture, after `CreatePlan` filled in the default. */
  function ArchURL(p: Params, arch: string): string {
    if p.downloadURL == "" || p.downloadURL == DEFAULT_DOWNLOAD_URL
    then "https://get.k0sproject.io/" + p.version + "/k0s-" + p.version + "-" + arch
    else p.downloadURL
  }

  // ---- the printed document -----------------------------------------------------------------------

  function NodeItems(nodes: seq<string>): Items {
    if nodes == [] then End else Item(DStr(nodes[0]), NodeItems(nodes[1..]))
  }

  /** Joining an empty list still leaves the pair of quotes around it. */
  function PrintedNodes(nodes: seq<string>): seq<string> { if nodes == [] then [""] else nodes }

  function TargetDoc(p: Params): Doc {
    DObj(Field("\n\t\t\t\t\t\t\t", "discovery",
           DObj(Field("\n\t\t\t\t\t\t\t    ", "static",
                  DObj(Field("\n\t\t\t\t\t\t\t\t\t", "nodes", DArr(NodeItems(PrintedNodes(p.nodes))), Nothing),
                       "\n\t\t\t\t\t\t\t\t"), Nothing),
                "\n\t\t\t\t\t\t\t"), Nothing),
         "\n\t\t\t\t\t\t")
  }

  function PlatformDoc(p: Params, arch: string): Doc {
    DObj(Field("\n\t\t\t\t\t\t\t", "url", DStr(ArchURL(p, arch)), Nothing), "\n\t\t\t\t\t\t")
  }

  function PlatformsDoc(p: Params): Doc {
    DObj(Field("\n\t\t\t\t\t\t", "linux-amd64", PlatformDoc(p, "amd64"),
         Field("\n\t\t\t\t\t\t", "linux-arm64", PlatformDoc(p, "arm64"),
         Field("\n\t\t\t\t\t\t", "linux-arm", PlatformDoc(p, "arm"), Nothing))),
         "\n\t\t\t\t\t")
  }

  function UpdateDoc(p: Params): Doc {
    DObj(Field("\n\t\t\t\t\t", "version", DStr(p.version),
         Field("\n\t\t\t\t\t", "platforms", PlatformsDoc(p),
         Field("\n\t\t\t\t\t", "targets",
           DObj(Field("\n\t\t\t\t\t\t", p.target, TargetDoc(p), Nothing), "\n\t\t\t\t\t"), Nothing))),
         "\n\t\t\t\t")
  }

  function CommandDoc(p: Params): Doc {
    DObj(Field("\n\t\t\t\t", "k0supdate", UpdateDoc(p), Nothing), "\n\t\t\t")
  }

  function MetadataDoc(): Doc { DObj(Field("\n\t\t  ", "name", DStr("autopilot"), Nothing), "\n\t\t") }

  function SpecDoc(p: Params): Doc {
    DObj(Field("\n\t\t\t", "id", DStr(p.id),
         Field("\n\t\t\t", "timestamp", DStr(p.timestamp),
         Field("\n\t\t\t", "commands",
           DArr(Item(CommandDoc(p), End)), Nothing))),
         "\n\t\t")
  }

  function PlanDoc(p: Params): Doc {
    DObj(Field("\n\t\t", "apiVersion", DStr("autopilot.k0sproject.io/v1beta2"),
         Field("\n\t\t", "kind", DStr("Plan"),
         Field("\n\t\t", "metadata", MetadataDoc(),
         Field("\n\t\t", "spec", SpecDoc(p), Nothing)))),
         "\n\t")
  }

  /** The body that `CreatePlan` posts. */
  function Print(p: Params): string { "\n\t" + Render(PlanDoc(p)) }

  /** `strings.Join(nodes, sep)`. */
  function JoinWith(nodes: seq<string>, sep: string): string {
    if nodes == [] then "" else if |nodes| == 1 then nodes[0] else nodes[0] + sep + JoinWith(nodes[1..], sep)
  }

  /** The node array is the concatenation that the source writes: an opening bracket and quote, the
      names joined by quote-comma-quote, a closing quote and bracket. */
  lemma {:induction false} NodesAreJoined(nodes: seq<string>)
    ensures Render(DArr(NodeItems(PrintedNodes(nodes)))) == "[" + Quote(JoinWith(nodes, "\",\"")) + "]"
  {
    if nodes == [] {
      assert NodeItems([""]) == Item(DStr(""), NodeItems([""][1..]));
    } else {
      ItemsAreJoined(nodes);
    }
  }

  lemma {:induction false} ItemsAreJoined(nodes: seq<string>)
    requires nodes != []
    ensures RenderItems(NodeItems(nodes)) == Quote(JoinWith(nodes, "\",\""))
  {
    if |nodes| > 1 {
      ItemsAreJoined(nodes[1..]);
      var rest := JoinWith(nodes[1..], "\",\"");
      assert Quote(nodes[0]) + "," + Quote(rest) == Quote(nodes[0] + "\",\"" + rest);
    } else {
      assert NodeItems(nodes) == Item(DStr(nodes[0]), NodeItems(nodes[1..]));
    }
  }

  // ---- the readers --------------------------------------------------------------------------------

  datatype ReadError = WrongType | NotFound | Panic

  /** `unstructured.NestedFieldNoCopy`. */
  function Nested(j: Json, path: seq<string>): (r: Result<Option<Json>, ReadError>)
    decreases |path|
  {
    if path == [] then Ok(Some(j))
    else if j.Null? then Ok(None)
    else if !j.Obj? then Err(WrongType)
    else if path[0] !in j.fields then Ok(None)
    else Nested(j.fields[path[0]], path[1..])
  }

  /** The commands of the plan's spec, at least one. */
  function Commands(plan: Json): (r: Result<seq<Json>, ReadError>)
    ensures r.Ok? ==> r.value != []
  {
    var c := Nested(plan, ["spec", "commands"]);
    if c.Err? then Err(c.error)
    else if c.value.None? then Err(NotFound)
    else if !c.value.value.Arr? then Err(WrongType)
    else if c.value.value.items == [] then Err(NotFound)
    else Ok(c.value.value.items)
  }

  function GetPlanTargetVersion(plan: Json): (r: Result<string, ReadError>) {
    var c := Commands(plan);
    if c.Err? then Err(c.error)
    else if !c.value[0].Obj? then Err(Panic)
    else
      var v := Nested(c.value[0], ["k0supdate", "version"]);
      if v.Err? then Err(v.error)
      else if v.value.None? then Err(NotFound)
      else if v.value.value.Str? then Ok(v.value.value.s) else Err(WrongType)
  }

  function Targets(plan: Json): (r: Result<map<string, Json>, ReadError>) {
    var c := Commands(plan);
    if c.Err? then Err(c.error)
    else if !c.value[0].Obj? then Err(WrongType)
    else
      var t := Nested(c.value[0], ["k0supdate", "targets"]);
      if t.Err? then Err(t.error)
      else if t.value.None? then Err(NotFound)
      else if t.value.value.Obj? then Ok(t.value.value.fields) else Err(WrongType)
  }

  function Strings(xs: seq<Json>): (r: Result<seq<string>, ReadError>) {
    if xs == [] then Ok([])
    else if !xs[0].Str? then Err(WrongType)
    else
      var rest := Strings(xs[1..]);
      if rest.Err? then rest else Ok([xs[0].s] + rest.value)
  }

  /** The nodes that one target lists; none if it is not an object or lists nothing. */
  function NodesOf(target: Json): (r: Result<seq<string>, ReadError>) {
    if !target.Obj? then Ok([])
    else
      var n := Nested(target, ["discovery", "static", "nodes"]);
      if n.Err? then Err(n.error)
      else if n.value.None? then Ok([])
      else if n.value.value.Arr? then Strings(n.value.value.items) else Err(WrongType)
  }

  /** The targets in some order, each once. */
  ghost predicate Enumerates(order: seq<string>, keys: set<string>) {
    && (forall t :: t in order <==> t in keys)
    && (forall i, j :: 0 <= i < j < |order| ==> order[i] != order[j])
  }

  predicate AllReadable(m: map<string, Json>, order: seq<string>) {
    forall i :: 0 <= i < |order| ==> order[i] in m && NodesOf(m[order[i]]).Ok?
  }

  /** The nodes of the targets one after the other. */
  function NodesInOrder(m: map<string, Json>, order: seq<string>): seq<string>
    requires AllReadable(m, order)
  {
    if order == [] then []
    else NodesInOrder(m, order[..|order| - 1]) + NodesOf(m[order[|order| - 1]]).value
  }

  lemma TwoDiffer(order: seq<string>)
    requires |order| > 1 && forall i, j :: 0 <= i < j < |order| ==> order[i] != order[j]
    ensures order[0] != order[1]
  {
  }

  lemma SingleTarget(m: map<string, Json>, order: seq<string>, t: string)
    requires Enumerates(order, m.Keys) && m.Keys == {t} && AllReadable(m, order)
    ensures NodesInOrder(m, order) == NodesOf(m[t]).value
  {
    assert t in order;
    assert forall i :: 0 <= i < |order| ==> order[i] in order && order[i] == t;
    if |order| > 1 {
      TwoDiffer(order);
      assert false;
    }
    assert order[..0] == [];
  }

  /** `GetPlanTargetNodes`: the nodes of every target, one target after the other, in whatever order
      the map hands them out; it fails exactly when some target cannot be read. */
  method GetPlanTargetNodes(plan: Json) returns (r: Result<seq<string>, ReadError>)
    ensures Targets(plan).Err? ==> r == Err(Targets(plan).error)
    ensures Targets(plan).Ok? ==>
              (r.Err? <==> exists t :: t in Targets(plan).value && NodesOf(Targets(plan).value[t]).Err?)
    ensures Targets(plan).Ok? && r.Ok? ==>
              exists order :: Enumerates(order, Targets(plan).value.Keys) && AllReadable(Targets(plan).value, order)
                              && r.value == NodesInOrder(Targets(plan).value, order)
    ensures forall t :: Targets(plan).Ok? && Targets(plan).value.Keys == {t} ==> r == NodesOf(Targets(plan).value[t])
  {
    var targets := Targets(plan);
    if targets.Err? { return Err(targets.error); }
    var m := targets.value;
    r := ReadTargets(m);
    if r.Ok? {
      ghost var order :| Enumerates(order, m.Keys) && AllReadable(m, order) && r.value == NodesInOrder(m, order);
      forall t | m.Keys == {t} ensures r.value == NodesOf(m[t]).value { SingleTarget(m, order, t); }
    }
  }

  /** The loop over the targets. */
  method ReadTargets(m: map<string, Json>) returns (r: Result<seq<string>, ReadError>)
    ensures r.Ok? ==> exists order ::
              Enumerates(order, m.Keys) && AllReadable(m, order) && r.value == NodesInOrder(m, order)
    ensures r.Err? <==> exists t :: t in m && NodesOf(m[t]).Err?
    ensures r.Err? ==> exists t :: t in m && NodesOf(m[t]) == Err(r.error)
  {
    var all: seq<string> := [];
    ghost var order: seq<string> := [];
    var left := m.Keys;
    while left != {}
      invariant left <= m.Keys && Enumerates(order, m.Keys - left)
      invariant AllReadable(m, order) && all == NodesInOrder(m, order)
      decreases left
    {
      var t :| t in left;
      var nodes := NodesOf(m[t]);
      if nodes.Err? { return Err(nodes.error); }
      order := order + [t];
      assert order[..|order| - 1] + [t] == order;
      all := all + nodes.value;
      left := left - {t};
    }
    r := Ok(all);
    assert Enumerates(order, m.Keys);
    forall t | t in m ensures NodesOf(m[t]).Ok? { assert t in order; }
  }

  // ---- the round trip ------------------------------------------------------------------------------

  /** Every text of the plan stands for itself in a JSON string. */
  predicate CleanParams(p: Params) {
    && Clean(p.id) && Clean(p.timestamp) && Clean(p.version) && Clean(p.downloadURL) && Clean(p.target)
    && forall i :: 0 <= i < |p.nodes| ==> Clean(p.nodes[i])
  }

  lemma {:induction false} NodeItemsLegible(nodes: seq<string>)
    requires forall i :: 0 <= i < |nodes| ==> Clean(nodes[i])
    ensures LegibleItems(NodeItems(nodes))
  {
    if nodes == [] {
    } else {
      forall i | 0 <= i < |nodes[1..]| ensures Clean(nodes[1..][i]) { assert nodes[1..][i] == nodes[i + 1]; }
      NodeItemsLegible(nodes[1..]);
    }
  }

  lemma TargetLegible(p: Params)
    requires CleanParams(p)
    ensures Legible(TargetDoc(p))
  {
    NodeItemsLegible(PrintedNodes(p.nodes));
    var list := DArr(NodeItems(PrintedNodes(p.nodes)));
    FieldLegible("\n\t\t\t\t\t\t\t\t\t", "nodes", list, Nothing);
    var nodes := DObj(Field("\n\t\t\t\t\t\t\t\t\t", "nodes", list, Nothing), "\n\t\t\t\t\t\t\t\t");
    FieldLegible("\n\t\t\t\t\t\t\t    ", "static", nodes, Nothing);
    var fixed := DObj(Field("\n\t\t\t\t\t\t\t    ", "static", nodes, Nothing), "\n\t\t\t\t\t\t\t");
    FieldLegible("\n\t\t\t\t\t\t\t", "discovery", fixed, Nothing);
  }

  lemma CleanConcat(a: string, b: string)
    requires Clean(a) && Clean(b)
    ensures Clean(a + b)
  {
  }

  lemma ArchURLClean(p: Params, arch: string)
    requires CleanParams(p) && Clean(arch)
    ensures Clean(ArchURL(p, arch))
  {
    var host := "https://get.k0sproject.io/";
    CleanConcat(host, p.version);
    CleanConcat(host + p.version, "/k0s-");
    CleanConcat(host + p.version + "/k0s-", p.version);
    CleanConcat(host + p.version + "/k0s-" + p.version, "-");
    CleanConcat(host + p.version + "/k0s-" + p.version + "-", arch);
  }

  lemma PlatformLegible(p: Params, arch: string)
    requires CleanParams(p) && Clean(arch)
    ensures Legible(PlatformDoc(p, arch))
  {
    ArchURLClean(p, arch);
    FieldLegible("\n\t\t\t\t\t\t\t", "url", DStr(ArchURL(p, arch)), Nothing);
  }

  lemma PlatformsLegible(p: Params)
    requires CleanParams(p)
    ensures Legible(PlatformsDoc(p))
  {
    PlatformLegible(p, "amd64");
    PlatformLegible(p, "arm64");
    PlatformLegible(p, "arm");
    var indent := "\n\t\t\t\t\t\t";
    var third := Field(indent, "linux-arm", PlatformDoc(p, "arm"), Nothing);
    FieldLegible(indent, "linux-arm", PlatformDoc(p, "arm"), Nothing);
    var second := Field(indent, "linux-arm64", PlatformDoc(p, "arm64"), third);
    FieldLegible(indent, "linux-arm64", PlatformDoc(p, "arm64"), third);
    FieldLegible(indent, "linux-amd64", PlatformDoc(p, "amd64"), second);
  }

  lemma UpdateLegible(p: Params)
    requires CleanParams(p)
    ensures Legible(UpdateDoc(p))
  {
    TargetLegible(p);
    PlatformsLegible(p);
    var indent := "\n\t\t\t\t\t";
    var targets := DObj(Field("\n\t\t\t\t\t\t", p.target, TargetDoc(p), Nothing), indent);
    FieldLegible("\n\t\t\t\t\t\t", p.target, TargetDoc(p), Nothing);
    var third := Field(indent, "targets", targets, Nothing);
    FieldLegible(indent, "targets", targets, Nothing);
    var second := Field(indent, "platforms", PlatformsDoc(p), third);
    FieldLegible(indent, "platforms", PlatformsDoc(p), third);
    FieldLegible(indent, "version", DStr(p.version), second);
  }

  lemma CommandLegible(p: Params)
    requires CleanParams(p)
    ensures Legible(CommandDoc(p))
  {
    UpdateLegible(p);
    FieldLegible("\n\t\t\t\t", "k0supdate", UpdateDoc(p), Nothing);
  }

  lemma SpecLegible(p: Params)
    requires CleanParams(p)
    ensures Legible(SpecDoc(p))
  {
    CommandLegible(p);
    var commands := DArr(Item(CommandDoc(p), End));
    assert Legible(commands) by { assert LegibleItems(Item(CommandDoc(p), End)); }
    var indent := "\n\t\t\t";
    var third := Field(indent, "commands", commands, Nothing);
    FieldLegible(indent, "commands", commands, Nothing);
    var second := Field(indent, "timestamp", DStr(p.timestamp), third);
    FieldLegible(indent, "timestamp", DStr(p.timestamp), third);
    FieldLegible(indent, "id", DStr(p.id), second);
  }

  lemma MetadataLegible()
    ensures Legible(MetadataDoc())
  {
    FieldLegible("\n\t\t  ", "name", DStr("autopilot"), Nothing);
  }

  lemma ApiVersionLegible()
    ensures Legible(DStr("autopilot.k0sproject.io/v1beta2"))
  {
  }

  lemma PlanLegible(p: Params)
    requires CleanParams(p)
    ensures Legible(PlanDoc(p))
  {
    SpecLegible(p);
    MetadataLegible();
    var indent := "\n\t\t";
    var fourth := Field(indent, "spec", SpecDoc(p), Nothing);
    FieldLegible(indent, "spec", SpecDoc(p), Nothing);
    var third := Field(indent, "metadata", MetadataDoc(), fourth);
    FieldLegible(indent, "metadata", MetadataDoc(), fourth);
    var second := Field(indent, "kind", DStr("Plan"), third);
    FieldLegible(indent, "kind", DStr("Plan"), third);
    ApiVersionLegible();
    FieldLegible(indent, "apiVersion", DStr("autopilot.k0sproject.io/v1beta2"), second);
  }

  lemma {:induction false} NodeValues(nodes: seq<string>)
    ensures Strings(Values(NodeItems(nodes))) == Ok(nodes)
  {
    if nodes == [] {
    } else {
      NodeValues(nodes[1..]);
      assert nodes == [nodes[0]] + nodes[1..];
      assert Values(NodeItems(nodes))[1..] == Values(NodeItems(nodes[1..]));
    }
  }

  /** One member more, and the object of a single member. */
  lemma MembersStep(before: string, key: string, v: Doc, rest: Fields, m: map<string, Json>)
    ensures Members(Field(before, key, v, rest), m) == Members(rest, m[key := Value(v)])
  {
  }

  lemma SingleMember(before: string, key: string, v: Doc, close: string)
    ensures Value(DObj(Field(before, key, v, Nothing), close)) == Obj(map[key := Value(v)])
  {
    MembersStep(before, key, v, Nothing, map[]);
    assert map[][key := Value(v)] == map[key := Value(v)];
  }

  lemma NestedStep(m: map<string, Json>, key: string, path: seq<string>)
    requires key in m
    ensures Nested(Obj(m), [key] + path) == Nested(m[key], path)
  {
    assert ([key] + path)[1..] == path;
  }

  lemma TargetValue(p: Params)
    ensures NodesOf(Value(TargetDoc(p))) == Ok(PrintedNodes(p.nodes))
  {
    var nodes := DArr(NodeItems(PrintedNodes(p.nodes)));
    NodeValues(PrintedNodes(p.nodes));
    SingleMember("\n\t\t\t\t\t\t\t\t\t", "nodes", nodes, "\n\t\t\t\t\t\t\t\t");
    var static_ := DObj(Field("\n\t\t\t\t\t\t\t\t\t", "nodes", nodes, Nothing), "\n\t\t\t\t\t\t\t\t");
    SingleMember("\n\t\t\t\t\t\t\t    ", "static", static_, "\n\t\t\t\t\t\t\t");
    var discovery := DObj(Field("\n\t\t\t\t\t\t\t    ", "static", static_, Nothing), "\n\t\t\t\t\t\t\t");
    SingleMember("\n\t\t\t\t\t\t\t", "discovery", discovery, "\n\t\t\t\t\t\t");
    NestedStep(map["nodes" := Value(nodes)], "nodes", []);
    NestedStep(map["static" := Value(static_)], "static", ["nodes"] + []);
    NestedStep(map["discovery" := Value(discovery)], "discovery", ["static"] + (["nodes"] + []));
    assert ["discovery"] + (["static"] + (["nodes"] + [])) == ["discovery", "static", "nodes"];
  }

  lemma UpdateValue(p: Params)
    ensures var u := Value(UpdateDoc(p));
            && u.Obj? && "version" in u.fields && u.fields["version"] == Str(p.version)
            && "targets" in u.fields && u.fields["targets"] == Obj(map[p.target := Value(TargetDoc(p))])
  {
    var targets := DObj(Field("\n\t\t\t\t\t\t", p.target, TargetDoc(p), Nothing), "\n\t\t\t\t\t");
    SingleMember("\n\t\t\t\t\t\t", p.target, TargetDoc(p), "\n\t\t\t\t\t");
    var third := Field("\n\t\t\t\t\t", "targets", targets, Nothing);
    var second := Field("\n\t\t\t\t\t", "platforms", PlatformsDoc(p), third);
    var m1: map<string, Json> := map[]["version" := Str(p.version)];
    var m2 := m1["platforms" := Value(PlatformsDoc(p))];
    MembersStep("\n\t\t\t\t\t", "version", DStr(p.version), second, map[]);
    MembersStep("\n\t\t\t\t\t", "platforms", PlatformsDoc(p), third, m1);
    MembersStep("\n\t\t\t\t\t", "targets", targets, Nothing, m2);
    assert Value(UpdateDoc(p)) == Obj(m2["targets" := Value(targets)]);
    assert "version"[0] != "platforms"[0] && "version"[0] != "targets"[0];
  }

  lemma SpecValue(p: Params, commands: Doc)
    requires commands == DArr(Item(DObj(Field("\n\t\t\t\t", "k0supdate", UpdateDoc(p), Nothing), "\n\t\t\t"), End))
    ensures Value(SpecDoc(p)).Obj? && "commands" in Value(SpecDoc(p)).fields
    ensures Value(SpecDoc(p)).fields["commands"] == Value(commands)
  {
    var third := Field("\n\t\t\t", "commands", commands, Nothing);
    var second := Field("\n\t\t\t", "timestamp", DStr(p.timestamp), third);
    var m1: map<string, Json> := map[]["id" := Str(p.id)];
    var m2 := m1["timestamp" := Str(p.timestamp)];
    MembersStep("\n\t\t\t", "id", DStr(p.id), second, map[]);
    MembersStep("\n\t\t\t", "timestamp", DStr(p.timestamp), third, m1);
    MembersStep("\n\t\t\t", "commands", commands, Nothing, m2);
    assert Value(SpecDoc(p)) == Obj(m2["commands" := Value(commands)]);
  }

  lemma PlanValue(p: Params)
    ensures Value(PlanDoc(p)).Obj? && "spec" in Value(PlanDoc(p)).fields
    ensures Value(PlanDoc(p)).fields["spec"] == Value(SpecDoc(p))
  {
    var metadata := DObj(Field("\n\t\t  ", "name", DStr("autopilot"), Nothing), "\n\t\t");
    var fourth := Field("\n\t\t", "spec", SpecDoc(p), Nothing);
    var third := Field("\n\t\t", "metadata", metadata, fourth);
    var second := Field("\n\t\t", "kind", DStr("Plan"), third);
    var api := DStr("autopilot.k0sproject.io/v1beta2");
    var m1: map<string, Json> := map[]["apiVersion" := Value(api)];
    var m2 := m1["kind" := Str("Plan")];
    var m3 := m2["metadata" := Value(metadata)];
    MembersStep("\n\t\t", "apiVersion", api, second, map[]);
    MembersStep("\n\t\t", "kind", DStr("Plan"), third, m1);
    MembersStep("\n\t\t", "metadata", metadata, fourth, m2);
    MembersStep("\n\t\t", "spec", SpecDoc(p), Nothing, m3);
    assert Value(PlanDoc(p)) == Obj(m3["spec" := Value(SpecDoc(p))]);
  }

  lemma CommandsValue(p: Params)
    ensures Commands(Value(PlanDoc(p))) == Ok([Obj(map["k0supdate" := Value(UpdateDoc(p))])])
  {
    var command := DObj(Field("\n\t\t\t\t", "k0supdate", UpdateDoc(p), Nothing), "\n\t\t\t");
    SingleMember("\n\t\t\t\t", "k0supdate", UpdateDoc(p), "\n\t\t\t");
    var commands := DArr(Item(command, End));
    assert Values(Item(command, End)) == [Value(command)];
    SpecValue(p, commands);
    PlanValue(p);
    NestedStep(Value(SpecDoc(p)).fields, "commands", []);
    NestedStep(Value(PlanDoc(p)).fields, "spec", ["commands"] + []);
    assert ["spec"] + (["commands"] + []) == ["spec", "commands"];
  }

  /** What the readers find in a printed plan: the version, and one target listing the printed
      nodes. */
  lemma {:induction false} ReadsPrinted(p: Params)
    requires CleanParams(p)
    ensures Read(Print(p)).Some?
    ensures GetPlanTargetVersion(Read(Print(p)).value) == Ok(p.version)
    ensures Targets(Read(Print(p)).value).Ok? && Targets(Read(Print(p)).value).value.Keys == {p.target}
    ensures NodesOf(Targets(Read(Print(p)).value).value[p.target]) == Ok(PrintedNodes(p.nodes))
  {
    PlanLegible(p);
    ReadRendered("\n\t", PlanDoc(p));
    CommandsValue(p);
    UpdateValue(p);
    TargetValue(p);
    var u := Value(UpdateDoc(p));
    NestedStep(u.fields, "version", []);
    NestedStep(map["k0supdate" := u], "k0supdate", ["version"] + []);
    NestedStep(u.fields, "targets", []);
    NestedStep(map["k0supdate" := u], "k0supdate", ["targets"] + []);
    assert ["k0supdate"] + (["version"] + []) == ["k0supdate", "version"];
    assert ["k0supdate"] + (["targets"] + []) == ["k0supdate", "targets"];
  }

  /** A plan printed from clean texts reads back its version, and its nodes exactly when there are
      any: an empty list reads back as one nameless node. */
  lemma PlanRoundTrip(p: Params)
    requires CleanParams(p)
    ensures Read(Print(p)).Some? && GetPlanTargetVersion(Read(Print(p)).value) == Ok(p.version)
    ensures Targets(Read(Print(p)).value).Ok? && Targets(Read(Print(p)).value).value.Keys == {p.target}
    ensures NodesOf(Targets(Read(Print(p)).value).value[p.target]) == Ok(p.nodes) <==> p.nodes != []
    ensures p.nodes == [] ==> NodesOf(Targets(Read(Print(p)).value).value[p.target]) == Ok([""])
  {
    ReadsPrinted(p);
    assert [""] != [];
  }

  /** Printing and reading end to end, through the loop over the targets. */
  method PrintAndRead(p: Params) returns (nodes: Result<seq<string>, ReadError>, version: Result<string, ReadError>)
    requires CleanParams(p)
    ensures version == Ok(p.version)
    ensures nodes == Ok(p.nodes) <==> p.nodes != []
  {
    ReadsPrinted(p);
    PlanRoundTrip(p);
    var plan := Read(Print(p)).value;
    nodes := GetPlanTargetNodes(plan);
    version := GetPlanTargetVersion(plan);
  }

  /** The value at the end of a path of member names. */
  predicate At(j: Json, path: seq<string>, v: Json)
    decreases |path|
  {
    if path == [] then j == v else j.Obj? && path[0] in j.fields && At(j.fields[path[0]], path[1..], v)
  }

  lemma {:induction false} NestedIff(j: Json, path: seq<string>, v: Json)
    ensures Nested(j, path) == Ok(Some(v)) <==> At(j, path, v)
    decreases |path|
  {
    if path == [] || !j.Obj? || path[0] !in j.fields {
    } else {
      NestedIff(j.fields[path[0]], path[1..], v);
    }
  }

  /** The first command of the plan. */
  ghost predicate FirstCommand(plan: Json, command: Json) {
    exists xs :: At(plan, ["spec", "commands"], Arr(xs)) && xs != [] && xs[0] == command
  }

  lemma CommandsIff(plan: Json, xs: seq<Json>)
    ensures Commands(plan) == Ok(xs) <==> At(plan, ["spec", "commands"], Arr(xs)) && xs != []
  {
    NestedIff(plan, ["spec", "commands"], Arr(xs));
    var c := Nested(plan, ["spec", "commands"]);
    if c.Ok? && c.value.Some? { NestedIff(plan, ["spec", "commands"], c.value.value); }
  }

  /** From any plan whatever, the version and the targets are read exactly if they are in their place
      under the first command. */
  lemma ReadersIff(plan: Json, v: string, targets: map<string, Json>)
    ensures GetPlanTargetVersion(plan) == Ok(v) <==>
              exists c :: FirstCommand(plan, c) && c.Obj? && At(c, ["k0supdate", "version"], Str(v))
    ensures Targets(plan) == Ok(targets) <==>
              exists c :: FirstCommand(plan, c) && c.Obj? && At(c, ["k0supdate", "targets"], Obj(targets))
  {
    if Commands(plan).Ok? {
      var xs := Commands(plan).value;
      CommandsIff(plan, xs);
      assert FirstCommand(plan, xs[0]);
      NestedIff(xs[0], ["k0supdate", "version"], Str(v));
      NestedIff(xs[0], ["k0supdate", "targets"], Obj(targets));
    }
    forall c | FirstCommand(plan, c) ensures Commands(plan).Ok? && Commands(plan).value[0] == c {
      var ys :| At(plan, ["spec", "commands"], Arr(ys)) && ys != [] && ys[0] == c;
      CommandsIff(plan, ys);
    }
  }

  /** A target lists nodes exactly if it is an object with such an array in its place; any other kind
      of target lists none. */
  lemma TargetIff(target: Json, nodes: seq<string>)
    requires nodes != []
    ensures NodesOf(target) == Ok(nodes) <==>
              target.Obj? && At(target, ["discovery", "static", "nodes"], NodeArray(nodes))
    ensures !target.Obj? ==> NodesOf(target) == Ok([])
  {
    if target.Obj? {
      NestedIff(target, ["discovery", "static", "nodes"], NodeArray(nodes));
      var n := Nested(target, ["discovery", "static", "nodes"]);
      if n.Ok? && n.value.Some? && n.value.value.Arr? { StringsIff(n.value.value.items, nodes); }
    }
  }

  lemma {:induction false} StringsIff(xs: seq<Json>, nodes: seq<string>)
    ensures Strings(xs) == Ok(nodes) <==> Arr(xs) == NodeArray(nodes)
    decreases |xs|
  {
    if xs == [] {
      assert Arr(xs) == NodeArray(nodes) ==> |nodes| == 0;
    } else if nodes == [] {
    } else {
      StringsIff(xs[1..], nodes[1..]);
      assert NodeArray(nodes).items == [Str(nodes[0])] + NodeArray(nodes[1..]).items;
      assert xs == [xs[0]] + xs[1..] && nodes == [nodes[0]] + nodes[1..];
    }
  }

  // ---- the whole plan ---------------------------------------------------------------------------------

  const EMPTY: map<string, Json> := map[]

  /** The download URL of an architecture: k0s's own unless the parameters name another place. */
  function ExpectedURL(p: Params, suffix: string): string {
    if p.downloadURL in {"", "https://get.k0s.sh"}
    then "https://get.k0sproject.io/" + p.version + "/k0s-" + p.version + suffix
    else p.downloadURL
  }

  function Link(url: string): Json { Obj(EMPTY["url" := Str(url)]) }

  function ExpectedUpdate(p: Params): Json {
    Obj(EMPTY["version" := Str(p.version)]
        ["platforms" := Obj(EMPTY["linux-amd64" := Link(ExpectedURL(p, "-amd64"))]
                                 ["linux-arm64" := Link(ExpectedURL(p, "-arm64"))]
                                 ["linux-arm" := Link(ExpectedURL(p, "-arm"))])]
        ["targets" := Obj(EMPTY[p.target := ExpectedTarget(p)])])
  }

  function ExpectedTarget(p: Params): Json {
    Obj(EMPTY["discovery" := Obj(EMPTY["static" := Obj(EMPTY["nodes" := NodeArray(PrintedNodes(p.nodes))])])])
  }

  function NodeArray(nodes: seq<string>): Json { Arr(seq(|nodes|, i requires 0 <= i < |nodes| => Str(nodes[i]))) }

  /** The plan object that autopilot is meant to get. */
  function ExpectedPlan(p: Params): Json {
    Obj(EMPTY["apiVersion" := Str("autopilot.k0sproject.io/v1beta2")]["kind" := Str("Plan")]
        ["metadata" := Obj(EMPTY["name" := Str("autopilot")])]
        ["spec" := Obj(EMPTY["id" := Str(p.id)]["timestamp" := Str(p.timestamp)]
                            ["commands" := Arr([Obj(EMPTY["k0supdate" := ExpectedUpdate(p)])])])])
  }

  /** The printed text is that object: every URL under its platform, every member in its place. */
  lemma PlanContents(p: Params)
    requires CleanParams(p)
    ensures Read(Print(p)) == Some(ExpectedPlan(p))
  {
    PlanLegible(p);
    ReadRendered("\n\t", PlanDoc(p));
    UpdateContents(p);
    SpecContents(p);
    MetadataContents();
    var fourth := Field("\n\t\t", "spec", SpecDoc(p), Nothing);
    var third := Field("\n\t\t", "metadata", MetadataDoc(), fourth);
    var second := Field("\n\t\t", "kind", DStr("Plan"), third);
    var api := DStr("autopilot.k0sproject.io/v1beta2");
    MembersStep("\n\t\t", "apiVersion", api, second, EMPTY);
    MembersStep("\n\t\t", "kind", DStr("Plan"), third, EMPTY["apiVersion" := Value(api)]);
    MembersStep("\n\t\t", "metadata", MetadataDoc(), fourth, EMPTY["apiVersion" := Value(api)]["kind" := Str("Plan")]);
  }

  lemma MetadataContents()
    ensures Value(MetadataDoc()) == Obj(EMPTY["name" := Str("autopilot")])
  {
    MembersStep("\n\t\t  ", "name", DStr("autopilot"), Nothing, EMPTY);
  }

  lemma SpecContents(p: Params)
    requires Value(UpdateDoc(p)) == ExpectedUpdate(p)
    ensures Value(SpecDoc(p)) == Obj(EMPTY["id" := Str(p.id)]["timestamp" := Str(p.timestamp)]
                                          ["commands" := Arr([Obj(EMPTY["k0supdate" := ExpectedUpdate(p)])])])
  {
    MembersStep("\n\t\t\t\t", "k0supdate", UpdateDoc(p), Nothing, EMPTY);
    assert Value(CommandDoc(p)) == Obj(EMPTY["k0supdate" := ExpectedUpdate(p)]);
    var commands := DArr(Item(CommandDoc(p), End));
    assert Values(Item(CommandDoc(p), End)) == [Value(CommandDoc(p))];
    var third := Field("\n\t\t\t", "commands", commands, Nothing);
    var second := Field("\n\t\t\t", "timestamp", DStr(p.timestamp), third);
    MembersStep("\n\t\t\t", "id", DStr(p.id), second, EMPTY);
    MembersStep("\n\t\t\t", "timestamp", DStr(p.timestamp), third, EMPTY["id" := Str(p.id)]);
    MembersStep("\n\t\t\t", "commands", commands, Nothing, EMPTY["id" := Str(p.id)]["timestamp" := Str(p.timestamp)]);
  }

  lemma UpdateContents(p: Params)
    ensures Value(UpdateDoc(p)) == ExpectedUpdate(p)
  {
    var indent := "\n\t\t\t\t\t";
    TargetContents(p);
    PlatformsContents(p);
    var targets := DObj(Field("\n\t\t\t\t\t\t", p.target, TargetDoc(p), Nothing), indent);
    MembersStep("\n\t\t\t\t\t\t", p.target, TargetDoc(p), Nothing, EMPTY);
    var third := Field(indent, "targets", targets, Nothing);
    var second := Field(indent, "platforms", PlatformsDoc(p), third);
    var m1 := EMPTY["version" := Str(p.version)];
    MembersStep(indent, "version", DStr(p.version), second, EMPTY);
    MembersStep(indent, "platforms", PlatformsDoc(p), third, m1);
    MembersStep(indent, "targets", targets, Nothing, m1["platforms" := Value(PlatformsDoc(p))]);
  }

  lemma PlatformContents(p: Params, arch: string, suffix: string)
    requires suffix == "-" + arch
    ensures Value(PlatformDoc(p, arch)) == Link(ExpectedURL(p, suffix))
  {
    MembersStep("\n\t\t\t\t\t\t\t", "url", DStr(ArchURL(p, arch)), Nothing, EMPTY);
    assert ArchURL(p, arch) == ExpectedURL(p, suffix);
  }

  lemma PlatformsContents(p: Params)
    ensures Value(PlatformsDoc(p)) == Obj(EMPTY["linux-amd64" := Link(ExpectedURL(p, "-amd64"))]
                                               ["linux-arm64" := Link(ExpectedURL(p, "-arm64"))]
                                               ["linux-arm" := Link(ExpectedURL(p, "-arm"))])
  {
    PlatformContents(p, "amd64", "-amd64");
    PlatformContents(p, "arm64", "-arm64");
    PlatformContents(p, "arm", "-arm");
    var indent := "\n\t\t\t\t\t\t";
    var third := Field(indent, "linux-arm", PlatformDoc(p, "arm"), Nothing);
    var second := Field(indent, "linux-arm64", PlatformDoc(p, "arm64"), third);
    var m1 := EMPTY["linux-amd64" := Value(PlatformDoc(p, "amd64"))];
    MembersStep(indent, "linux-amd64", PlatformDoc(p, "amd64"), second, EMPTY);
    MembersStep(indent, "linux-arm64", PlatformDoc(p, "arm64"), third, m1);
    MembersStep(indent, "linux-arm", PlatformDoc(p, "arm"), Nothing,
        m1["linux-arm64" := Value(PlatformDoc(p, "arm64"))]);
  }

  lemma TargetContents(p: Params)
    ensures Value(TargetDoc(p)) == ExpectedTarget(p)
  {
    var list := DArr(NodeItems(PrintedNodes(p.nodes)));
    ListContents(PrintedNodes(p.nodes));
    MembersStep("\n\t\t\t\t\t\t\t\t\t", "nodes", list, Nothing, EMPTY);
    var nodes := DObj(Field("\n\t\t\t\t\t\t\t\t\t", "nodes", list, Nothing), "\n\t\t\t\t\t\t\t\t");
    MembersStep("\n\t\t\t\t\t\t\t    ", "static", nodes, Nothing, EMPTY);
    var fixed := DObj(Field("\n\t\t\t\t\t\t\t    ", "static", nodes, Nothing), "\n\t\t\t\t\t\t\t");
    MembersStep("\n\t\t\t\t\t\t\t", "discovery", fixed, Nothing, EMPTY);
  }

  lemma {:induction false} ListContents(nodes: seq<string>)
    ensures Value(DArr(NodeItems(nodes))) == NodeArray(nodes)
    decreases |nodes|
  {
    if nodes == [] {
    } else {
      ListContents(nodes[1..]);
      assert Values(NodeItems(nodes)) == [Str(nodes[0])] + Values(NodeItems(nodes[1..]));
    }
  }

  // ---- texts that are not clean -----------------------------------------------------------------------

  lemma {:induction false} NestedIsClean(j: Json, path: seq<string>)
    requires AllClean(j)
    ensures Nested(j, path).Ok? && Nested(j, path).value.Some? ==> AllClean(Nested(j, path).value.value)
    decreases |path|
  {
    if path == [] || !j.Obj? || path[0] !in j.fields {
    } else {
      NestedIsClean(j.fields[path[0]], path[1..]);
    }
  }

  lemma {:induction false} StringsFromClean(xs: seq<Json>)
    requires Strings(xs).Ok? && forall i :: 0 <= i < |xs| ==> AllClean(xs[i])
    ensures forall i :: 0 <= i < |Strings(xs).value| ==> Clean(Strings(xs).value[i])
    decreases |xs|
  {
    if xs == [] {
    } else {
      StringsFromClean(xs[1..]);
    }
  }

  lemma NodesFromClean(target: Json)
    requires AllClean(target) && NodesOf(target).Ok?
    ensures forall i :: 0 <= i < |NodesOf(target).value| ==> Clean(NodesOf(target).value[i])
  {
    if target.Obj? {
      NestedIsClean(target, ["discovery", "static", "nodes"]);
      var n := Nested(target, ["discovery", "static", "nodes"]).value;
      if n.Some? { StringsFromClean(n.value.items); }
    }
  }

  /** Whatever plan is read from whatever text, its version and its nodes are clean. */
  lemma ReadersYieldClean(text: string)
    requires Read(text).Some?
    ensures var plan := Read(text).value;
            && (GetPlanTargetVersion(plan).Ok? ==> Clean(GetPlanTargetVersion(plan).value))
            && (Targets(plan).Ok? ==> forall t :: t in Targets(plan).value && NodesOf(Targets(plan).value[t]).Ok? ==>
                  AllCleanNames(NodesOf(Targets(plan).value[t]).value))
  {
    ReadIsClean(text);
    var plan := Read(text).value;
    NestedIsClean(plan, ["spec", "commands"]);
    if Commands(plan).Ok? {
      var command := Commands(plan).value[0];
      assert AllClean(command);
      NestedIsClean(command, ["k0supdate", "version"]);
      NestedIsClean(command, ["k0supdate", "targets"]);
      if Targets(plan).Ok? {
        forall t | t in Targets(plan).value && NodesOf(Targets(plan).value[t]).Ok?
          ensures AllCleanNames(NodesOf(Targets(plan).value[t]).value)
        {
          NodesFromClean(Targets(plan).value[t]);
        }
      }
    }
  }

  predicate AllCleanNames(names: seq<string>) { forall i :: 0 <= i < |names| ==> Clean(names[i]) }

  /** The printed plan reads back with its version and, under its target, its nodes. */
  predicate ReadsBack(p: Params) {
    && Read(Print(p)).Some?
    && var plan := Read(Print(p)).value;
    && GetPlanTargetVersion(plan) == Ok(p.version)
    && Targets(plan).Ok? && p.target in Targets(plan).value && NodesOf(Targets(plan).value[p.target]) == Ok(p.nodes)
  }

  /** For every version and every list of nodes, the rest of the plan being clean: the plan reads back
      exactly when the version and the nodes are clean and there are nodes. */
  lemma PlanReadsBackIff(p: Params)
    requires Clean(p.id) && Clean(p.timestamp) && Clean(p.downloadURL) && Clean(p.target)
    ensures ReadsBack(p) <==> Clean(p.version) && AllCleanNames(p.nodes) && p.nodes != []
  {
    if Clean(p.version) && AllCleanNames(p.nodes) {
      PlanRoundTrip(p);
    } else if ReadsBack(p) {
      ReadersYieldClean(Print(p));
    }
  }

  /** Two parameter sets whose node arrays print alike print alike. */
  lemma PrintedAlike(p: Params, q: Params)
    requires q == p.(nodes := q.nodes)
    requires Render(DArr(NodeItems(PrintedNodes(p.nodes)))) == Render(DArr(NodeItems(PrintedNodes(q.nodes))))
    ensures Print(p) == Print(q)
  {
    TargetAlike(p, q);
    UpdateAlike(p, q);
    SpecAlike(p, q);
    OnlyField("\n\t\t", "spec", SpecDoc(p), SpecDoc(q));
    var fourth, fourth' := Field("\n\t\t", "spec", SpecDoc(p), Nothing), Field("\n\t\t", "spec", SpecDoc(q), Nothing);
    MoreFields("\n\t\t", "metadata", MetadataDoc(), fourth, fourth');
    var third, third' := Field("\n\t\t", "metadata", MetadataDoc(), fourth),
        Field("\n\t\t", "metadata", MetadataDoc(), fourth');
    MoreFields("\n\t\t", "kind", DStr("Plan"), third, third');
    MoreFields("\n\t\t", "apiVersion", DStr("autopilot.k0sproject.io/v1beta2"),
        Field("\n\t\t", "kind", DStr("Plan"), third), Field("\n\t\t", "kind", DStr("Plan"), third'));
  }

  /** Members with values that render alike. */
  lemma OnlyField(before: string, key: string, v: Doc, v': Doc)
    requires Render(v) == Render(v')
    ensures RenderFields(Field(before, key, v, Nothing)) == RenderFields(Field(before, key, v', Nothing))
    ensures forall close :: Render(DObj(Field(before, key, v, Nothing), close))
                         == Render(DObj(Field(before, key, v', Nothing), close))
  {
  }

  lemma MoreFields(before: string, key: string, v: Doc, fs: Fields, fs': Fields)
    requires fs.Field? && fs'.Field? && RenderFields(fs) == RenderFields(fs')
    ensures RenderFields(Field(before, key, v, fs)) == RenderFields(Field(before, key, v, fs'))
    ensures forall close ::
              Render(DObj(Field(before, key, v, fs), close)) == Render(DObj(Field(before, key, v, fs'), close))
  {
  }

  lemma TargetAlike(p: Params, q: Params)
    requires Render(DArr(NodeItems(PrintedNodes(p.nodes)))) == Render(DArr(NodeItems(PrintedNodes(q.nodes))))
    ensures Render(TargetDoc(p)) == Render(TargetDoc(q))
  {
    var list, list' := DArr(NodeItems(PrintedNodes(p.nodes))), DArr(NodeItems(PrintedNodes(q.nodes)));
    OnlyField("\n\t\t\t\t\t\t\t\t\t", "nodes", list, list');
    var nodes := DObj(Field("\n\t\t\t\t\t\t\t\t\t", "nodes", list, Nothing), "\n\t\t\t\t\t\t\t\t");
    var nodes' := DObj(Field("\n\t\t\t\t\t\t\t\t\t", "nodes", list', Nothing), "\n\t\t\t\t\t\t\t\t");
    OnlyField("\n\t\t\t\t\t\t\t    ", "static", nodes, nodes');
    var fixed := DObj(Field("\n\t\t\t\t\t\t\t    ", "static", nodes, Nothing), "\n\t\t\t\t\t\t\t");
    var fixed' := DObj(Field("\n\t\t\t\t\t\t\t    ", "static", nodes', Nothing), "\n\t\t\t\t\t\t\t");
    OnlyField("\n\t\t\t\t\t\t\t", "discovery", fixed, fixed');
  }

  lemma UpdateAlike(p: Params, q: Params)
    requires q == p.(nodes := q.nodes) && Render(TargetDoc(p)) == Render(TargetDoc(q))
    ensures Render(UpdateDoc(p)) == Render(UpdateDoc(q))
  {
    var indent := "\n\t\t\t\t\t";
    OnlyField("\n\t\t\t\t\t\t", p.target, TargetDoc(p), TargetDoc(q));
    var targets := DObj(Field("\n\t\t\t\t\t\t", p.target, TargetDoc(p), Nothing), indent);
    var targets' := DObj(Field("\n\t\t\t\t\t\t", p.target, TargetDoc(q), Nothing), indent);
    OnlyField(indent, "targets", targets, targets');
    var third, third' := Field(indent, "targets", targets, Nothing), Field(indent, "targets", targets', Nothing);
    assert PlatformsDoc(p) == PlatformsDoc(q);
    MoreFields(indent, "platforms", PlatformsDoc(p), third, third');
    MoreFields(indent, "version", DStr(p.version),
        Field(indent, "platforms", PlatformsDoc(p), third), Field(indent, "platforms", PlatformsDoc(p), third'));
  }

  lemma SpecAlike(p: Params, q: Params)
    requires q == p.(nodes := q.nodes) && Render(UpdateDoc(p)) == Render(UpdateDoc(q))
    ensures Render(SpecDoc(p)) == Render(SpecDoc(q))
  {
    var indent := "\n\t\t\t";
    OnlyField("\n\t\t\t\t", "k0supdate", UpdateDoc(p), UpdateDoc(q));
    var commands, commands' := DArr(Item(CommandDoc(p), End)), DArr(Item(CommandDoc(q), End));
    OnlyField(indent, "commands", commands, commands');
    var third, third' := Field(indent, "commands", commands, Nothing), Field(indent, "commands", commands', Nothing);
    MoreFields(indent, "timestamp", DStr(p.timestamp), third, third');
    MoreFields(indent, "id", DStr(p.id),
        Field(indent, "timestamp", DStr(p.timestamp), third), Field(indent, "timestamp", DStr(p.timestamp), third'));
  }

  /** One failure in full: a plan for the one node named by two clean names with quote-comma-quote
      between them is read as a plan for the two. */
  lemma QuoteCollision(p: Params, a: string, b: string)
    requires CleanParams(p) && Clean(a) && Clean(b)
    ensures var printed := Print(p.(nodes := [a + "\",\"" + b]));
            && Read(printed).Some? && Targets(Read(printed).value).Ok? && p.target in Targets(Read(printed).value).value
            && NodesOf(Targets(Read(printed).value).value[p.target]) == Ok([a, b])
  {
    var one, two := p.(nodes := [a + "\",\"" + b]), p.(nodes := [a, b]);
    NodesAreJoined(one.nodes);
    NodesAreJoined(two.nodes);
    assert JoinWith([a, b], "\",\"") == a + "\",\"" + JoinWith([a, b][1..], "\",\"");
    PrintedAlike(one, two);
    PlanRoundTrip(two);
  }
}
