/** The decision logic of the mini graph card: the compact dependency graph shown
    on a service, workload or application details page.

    What the card reads from outside (the graph data source, the parent-kiosk test,
    the multi-cluster flag, the application store's layouts and refresh interval)
    arrives as parameters; what it does to the outside world (a router push or a
    message to the kiosk host frame) is returned as a `Dispatch` value. The
    selector builder with its URI encoding, and the node-graph URL builder, are
    passed in as functions. */
module MiniGraph {

  import opened Wrappers

  // ---------------------------------------------------------------------------
  // Node kinds and graph types

  /** Node kinds, as the strings the graph uses for them. Kinds stay strings
      because the card compares them as strings and uses a kind as a field name. */
  const AggregateKind: string := "aggregate"
  const AppKind: string := "app"
  const BoxKind: string := "box"
  const ServiceKind: string := "service"
  const WorkloadKind: string := "workload"
  const UnknownKind: string := "unknown"

  /** The node types a graph node carries. */
  const NodeKinds: set<string> := {AggregateKind, AppKind, BoxKind, ServiceKind, UnknownKind, WorkloadKind}

  datatype GraphType = AppGraph | ServiceGraph | VersionedAppGraph | WorkloadGraph

  /** The query-string spelling of a graph type. */
  function GraphTypeName(g: GraphType): string
  {
    match g
    case AppGraph => "app"
    case ServiceGraph => "service"
    case VersionedAppGraph => "versionedApp"
    case WorkloadGraph => "workload"
  }

  datatype EdgeMode = AllEdges | NoEdges | UnusedEdges

  // ---------------------------------------------------------------------------
  // Inputs

  datatype Namespace = Namespace(name: string)

  /** The node a graph is focused on (the resource whose details page shows the card). */
  datatype NodeParams = NodeParams(
    aggregate: Option<string>,
    aggregateValue: Option<string>,
    app: Option<string>,
    cluster: Option<string>,
    namespace: Namespace,
    nodeType: string,
    service: Option<string>,
    version: Option<string>,
    workload: Option<string>)

  /** A tap on a rendered node. `isBox` holds the kind of resource a box groups. */
  datatype NodeTapEvent = NodeTapEvent(
    aggregate: Option<string>,
    aggregateValue: Option<string>,
    app: Option<string>,
    cluster: Option<string>,
    isBox: Option<string>,
    isInaccessible: bool,
    isServiceEntry: bool,
    namespace: string,
    nodeType: string,
    service: Option<string>,
    version: Option<string>,
    workload: Option<string>)

  /** The parameters the data source last fetched the graph with (the part the card reads). */
  datatype FetchParams = FetchParams(
    namespaces: seq<Namespace>,
    duration: int,
    edgeLabels: seq<string>,
    graphType: GraphType,
    node: Option<NodeParams>,
    showIdleEdges: bool,
    showIdleNodes: bool,
    showOperationNodes: bool,
    trafficRates: seq<string>)

  /** Application-wide settings the node-graph action reads from the store. */
  datatype UiSettings = UiSettings(graphLayout: string, namespaceLayout: string, refreshInterval: int)

  // ---------------------------------------------------------------------------
  // Outputs

  /** Where a URL goes: the kiosk host frame when the card runs inside a kiosk
      parent, otherwise a push onto the browser history. */
  datatype Dispatch = KioskAction(url: string) | HistoryPush(url: string)

  /** A value, or the TypeError the card throws when the fetch parameters lack
      what an action dereferences. */
  datatype Result<T> = Ok(value: T) | TypeError

  /** The parameter record handed to the node-graph URL builder. */
  datatype GraphUrlParams = GraphUrlParams(
    activeNamespaces: seq<Namespace>,
    duration: int,
    edgeLabels: seq<string>,
    edgeMode: EdgeMode,
    graphLayout: string,
    namespaceLayout: string,
    graphType: GraphType,
    node: NodeParams,
    refreshInterval: int,
    showIdleEdges: bool,
    showIdleNodes: bool,
    showOperationNodes: bool,
    showServiceNodes: bool,
    trafficRates: seq<string>)

  /** One chained call on the graph selector builder, in call order. */
  datatype SelectorCall =
    | NamespaceFilter(namespace: string)
    | AppFilter(app: Option<string>)
    | ServiceFilter(service: Option<string>)
    | WorkloadFilter(workload: Option<string>)
    | AggregateFilter(key: Option<string>, value: Option<string>)
    | NodeTypeFilter(nodeType: string)

  datatype MenuItem = ShowFullGraph | LoadingWizardActions | ServiceWizardActions | ShowNodeGraph

  /** The service details a page may pass: not yet loaded, explicitly absent, or present. */
  datatype ServiceDetails = DetailsUndefined | DetailsNull | DetailsPresent

  /** The header of the card: a loading label, or the time range [start, end] in milliseconds. */
  datatype Title = Loading | Range(start: int, end: int)

  // ---------------------------------------------------------------------------
  // JavaScript value semantics

  /** Truthiness of an optional string: defined and non-empty. */
  predicate Truthy(o: Option<string>)
  {
    o.Some? && o.value != ""
  }

  /** A value interpolated into a template literal; undefined prints as "undefined". */
  function Show(o: Option<string>): string
  {
    match o
    case Some(s) => s
    case None => "undefined"
  }

  /** `e[key]`: the string field of a tap event that a kind names. */
  function TapField(e: NodeTapEvent, key: string): Option<string>
  {
    if key == "aggregate" then e.aggregate
    else if key == "aggregateValue" then e.aggregateValue
    else if key == "app" then e.app
    else if key == "cluster" then e.cluster
    else if key == "namespace" then Some(e.namespace)
    else if key == "nodeType" then Some(e.nodeType)
    else if key == "service" then e.service
    else if key == "version" then e.version
    else if key == "workload" then e.workload
    else None
  }

  /** `node[key]`: the string field of a focused node that a kind names. */
  function NodeField(n: NodeParams, key: string): Option<string>
  {
    if key == "aggregate" then n.aggregate
    else if key == "aggregateValue" then n.aggregateValue
    else if key == "app" then n.app
    else if key == "cluster" then n.cluster
    else if key == "nodeType" then Some(n.nodeType)
    else if key == "service" then n.service
    else if key == "version" then n.version
    else if key == "workload" then n.workload
    else None
  }

  // ---------------------------------------------------------------------------
  // Tap on a node

  /** The kind a tap resolves to: a box counts as the kind it groups, a node
      carrying a workload counts as a workload, anything else keeps its node type. */
  function ResolveKind(e: NodeTapEvent): (kind: string)
    ensures e.nodeType == BoxKind && Truthy(e.isBox) ==> kind == e.isBox.value
    ensures !(e.nodeType == BoxKind && Truthy(e.isBox)) && Truthy(e.workload) ==> kind == WorkloadKind
    ensures !(e.nodeType == BoxKind && Truthy(e.isBox)) && !Truthy(e.workload) ==> kind == e.nodeType
  {
    if e.nodeType == BoxKind && Truthy(e.isBox) then e.isBox.value
    else if Truthy(e.workload) then WorkloadKind
    else e.nodeType
  }

  /** What identifies a resource for the same-resource test: namespace, kind, and
      the name stored under that kind. */
  datatype Identity = Identity(namespace: string, kind: string, name: Option<string>)

  function TapIdentity(e: NodeTapEvent): Identity
  {
    var kind := ResolveKind(e);
    Identity(e.namespace, kind, TapField(e, kind))
  }

  function NodeIdentity(n: NodeParams): Identity
  {
    Identity(n.namespace.name, n.nodeType, NodeField(n, n.nodeType))
  }

  /** The tapped node is the one the page already shows. With no focused node
      this never holds. */
  predicate IsSameResource(displayed: Option<NodeParams>, e: NodeTapEvent)
    ensures IsSameResource(displayed, e) <==>
              && displayed.Some?
              && displayed.value.namespace.name == e.namespace
              && displayed.value.nodeType == ResolveKind(e)
              && NodeField(displayed.value, displayed.value.nodeType) == TapField(e, ResolveKind(e))
  {
    displayed.Some? && NodeIdentity(displayed.value) == TapIdentity(e)
  }

  /** The path segment of a kind: applications live under "application". */
  function ResourceType(kind: string): (t: string)
    ensures t != AppKind
    ensures t == "application" <==> kind == AppKind || kind == "application"
    ensures kind != AppKind ==> t == kind
  {
    if kind == AppKind then "application" else kind
  }

  /** The details-page path of a resource. */
  function DetailPath(id: Identity): (path: string)
    ensures var head := "/namespaces/" + id.namespace + "/";
            var segment := ResourceType(id.kind) + "s/";
            && |path| == |head| + |segment| + |Show(id.name)|
            && path[..|head|] == head
            && path[|head|..|head| + |segment|] == segment
            && path[|head| + |segment|..] == Show(id.name)
  {
    var head := "/namespaces/" + id.namespace + "/";
    var segment := ResourceType(id.kind) + "s/";
    var path := head + segment + Show(id.name);
    assert path[|head|..|head| + |segment|] == segment;
    assert "/namespaces/" + id.namespace + "/" + ResourceType(id.kind) + "s/" + Show(id.name) == path;
    path
  }

  /** The cluster query the tap adds: only in multi-cluster mode, for a tap with a cluster. */
  function ClusterQuery(e: NodeTapEvent, multiCluster: bool): (q: string)
    ensures q == "" <==> !(Truthy(e.cluster) && multiCluster)
    ensures q != "" ==> q == "?clusterName=" + e.cluster.value
  {
    if Truthy(e.cluster) && multiCluster then "?clusterName=" + e.cluster.value else ""
  }

  /** Hands a URL to the kiosk host frame or to the router. */
  function Deliver(parentKiosk: bool, url: string): (d: Dispatch)
    ensures d.url == url
    ensures d.KioskAction? <==> parentKiosk
  {
    if parentKiosk then KioskAction(url) else HistoryPush(url)
  }

  /** The tap handler: no navigation for an inaccessible or service-entry node or
      for the resource already shown; otherwise the details page of the tapped
      resource, qualified by its cluster in multi-cluster mode. */
  function HandleNodeTap(displayed: Option<NodeParams>, e: NodeTapEvent, multiCluster: bool, parentKiosk: bool)
    : (r: Option<Dispatch>)
    ensures e.isInaccessible || e.isServiceEntry ==> r.None?
    ensures r.None? <==> e.isInaccessible || e.isServiceEntry || IsSameResource(displayed, e)
    ensures r.Some? ==> r.value.url == DetailPath(TapIdentity(e)) + ClusterQuery(e, multiCluster)
    ensures r.Some? ==> (r.value.KioskAction? <==> parentKiosk)
  {
    if e.isInaccessible || e.isServiceEntry then None
    else if IsSameResource(displayed, e) then None
    else
      Some(Deliver(parentKiosk, DetailPath(TapIdentity(e)) + ClusterQuery(e, multiCluster)))
  }

  /** The tap event the graph raises for the focused node itself (not a box, and
      carrying a workload only when the node is a workload). */
  function TapOn(n: NodeParams): (e: NodeTapEvent)
    ensures e.namespace == n.namespace.name && e.nodeType == n.nodeType
  {
    NodeTapEvent(
      n.aggregate, n.aggregateValue, n.app, n.cluster, None, false, false,
      n.namespace.name, n.nodeType, n.service, n.version,
      if n.nodeType == WorkloadKind then n.workload else None)
  }

  /** Self-navigation is suppressed: tapping the focused node goes nowhere. */
  lemma TapOnDisplayedNodeIsIgnored(n: NodeParams, multiCluster: bool, parentKiosk: bool)
    requires n.nodeType in NodeKinds
    ensures HandleNodeTap(Some(n), TapOn(n), multiCluster, parentKiosk).None?
  {
  }

  /** A tap that navigates always leaves the shown resource: it names a different
      namespace, kind or name, and with no focused node every accessible tap navigates. */
  lemma NavigationLeavesDisplayedResource(displayed: Option<NodeParams>, e: NodeTapEvent, multiCluster: bool, parentKiosk: bool)
    requires !e.isInaccessible && !e.isServiceEntry
    ensures displayed.None? ==> HandleNodeTap(displayed, e, multiCluster, parentKiosk).Some?
    ensures HandleNodeTap(displayed, e, multiCluster, parentKiosk).Some? <==>
              displayed.None? ||
              displayed.value.namespace.name != e.namespace ||
              displayed.value.nodeType != ResolveKind(e) ||
              NodeField(displayed.value, displayed.value.nodeType) != TapField(e, ResolveKind(e))
  {
  }

  /** The cluster is appended exactly when the tap has one and multi-cluster mode
      is on: for a details path without '?', the URL holds a '?' if and only if
      it is cluster-qualified. */
  lemma ClusterQualifiedIff(displayed: Option<NodeParams>, e: NodeTapEvent, multiCluster: bool, parentKiosk: bool)
    requires HandleNodeTap(displayed, e, multiCluster, parentKiosk).Some?
    requires '?' !in DetailPath(TapIdentity(e))
    ensures var url := HandleNodeTap(displayed, e, multiCluster, parentKiosk).value.url;
            ('?' in url) <==> (Truthy(e.cluster) && multiCluster)
  {
  }

  /** A tap on a box that groups applications opens the application's page. */
  lemma BoxTapOpensGroupedKind(displayed: Option<NodeParams>, e: NodeTapEvent)
    requires !e.isInaccessible && !e.isServiceEntry && !IsSameResource(displayed, e)
    requires e.nodeType == BoxKind && e.isBox == Some(AppKind)
    ensures HandleNodeTap(displayed, e, false, false)
              == Some(HistoryPush("/namespaces/" + e.namespace + "/applications/" + Show(e.app)))
  {
    var id := TapIdentity(e);
    assert id == Identity(e.namespace, AppKind, e.app);
    var url := DetailPath(id);
    assert url == "/namespaces/" + e.namespace + "/" + "application" + "s/" + Show(e.app);
    assert "/namespaces/" + e.namespace + "/" + "application" + "s/" == "/namespaces/" + e.namespace + "/applications/";
    assert url + ClusterQuery(e, false) == url;
  }

  /** From a workload's page, tapping a service in the same namespace opens the
      service's details page. */
  lemma ServiceTapExample()
    ensures var wk1 := NodeParams(None, None, None, None, Namespace("ns1"), WorkloadKind, None, None, Some("wk1"));
            var svc1 := NodeTapEvent(None, None, None, Some(""), None, false, false, "ns1", ServiceKind, Some("svc1"), None, None);
            HandleNodeTap(Some(wk1), svc1, true, false) == Some(HistoryPush("/namespaces/ns1/services/svc1"))
  {
    var svc1 := NodeTapEvent(None, None, None, Some(""), None, false, false, "ns1", ServiceKind, Some("svc1"), None, None);
    assert ResolveKind(svc1) == "service";
    assert ClusterQuery(svc1, true) == "";
    assert TapIdentity(svc1) == Identity("ns1", "service", Some("svc1"));
    assert DetailPath(TapIdentity(svc1)) == "/namespaces/ns1/services/svc1";
    assert DetailPath(TapIdentity(svc1)) + "" == DetailPath(TapIdentity(svc1));
    assert "/namespaces/" + "ns1" + "/" + "service" + "s/" + "svc1" == "/namespaces/ns1/services/svc1";
  }

  // ---------------------------------------------------------------------------
  // "Show full graph"

  /** Graph type of the full graph: the service or workload graph for those
      kinds, the app graph for everything else. */
  function FullGraphType(kind: string): (g: GraphType)
    ensures g == ServiceGraph <==> kind == ServiceKind
    ensures g == WorkloadGraph <==> kind == WorkloadKind
    ensures g != VersionedAppGraph
  {
    if kind == ServiceKind then ServiceGraph
    else if kind == WorkloadKind then WorkloadGraph
    else AppGraph
  }

  /** The chained selector-builder calls that focus the full graph on a node. */
  function FullGraphSelector(namespace: string, n: NodeParams): (sel: seq<SelectorCall>)
    ensures 1 <= |sel| <= 3 && sel[0] == NamespaceFilter(namespace)
  {
    [NamespaceFilter(namespace)] +
    (if n.nodeType == AggregateKind then [AggregateFilter(n.aggregate, n.aggregateValue), NodeTypeFilter(AggregateKind)]
     else if n.nodeType == AppKind then [AppFilter(n.app), NodeTypeFilter(AppKind)]
     else if n.nodeType == ServiceKind then [ServiceFilter(n.service)]
     else if n.nodeType == WorkloadKind then [WorkloadFilter(n.workload)]
     else [])
  }

  /** The full-graph URL with its four query parameters, in this order. */
  function FullGraphUrl(graphType: GraphType, namespace: string, focusSelector: string): (url: string)
    ensures var head := "/graph/namespaces?graphType=" + GraphTypeName(graphType) + "&injectServiceNodes=true&namespaces=";
            var tail := "&focusSelector=" + focusSelector;
            && |url| == |head| + |namespace| + |tail|
            && url[..|head|] == head
            && url[|head|..|head| + |namespace|] == namespace
            && url[|head| + |namespace|..] == tail
  {
    var head := "/graph/namespaces?graphType=" + GraphTypeName(graphType) + "&injectServiceNodes=true&namespaces=";
    var tail := "&focusSelector=" + focusSelector;
    var url := head + namespace + tail;
    assert url[|head|..|head| + |namespace|] == namespace;
    url
  }

  /** The "Show full graph" action. `encode` stands for building the selector
      text and URI-encoding it. Reading the first namespace of an empty list, or
      the node type of a missing node, throws. */
  function ViewFullGraph(fp: FetchParams, parentKiosk: bool, encode: seq<SelectorCall> -> string): (r: Result<Dispatch>)
    ensures r.TypeError? <==> |fp.namespaces| == 0 || fp.node.None?
    ensures r.Ok? ==> r.value.url == FullGraphUrl(FullGraphType(fp.node.value.nodeType), fp.namespaces[0].name,
                                                  encode(FullGraphSelector(fp.namespaces[0].name, fp.node.value)))
    ensures r.Ok? ==> (r.value.KioskAction? <==> parentKiosk)
  {
    if |fp.namespaces| == 0 || fp.node.None? then TypeError
    else
      var namespace := fp.namespaces[0].name;
      var node := fp.node.value;
      Ok(Deliver(parentKiosk, FullGraphUrl(FullGraphType(node.nodeType), namespace, encode(FullGraphSelector(namespace, node)))))
  }

  /** The filters of the full graph, kind by kind: an aggregate node is selected by
      its key and value, an app by its name, both narrowed to their node type; a
      service or workload by its name alone; any other kind (a box) is not
      selected at all, leaving the namespace only. */
  lemma FullGraphFocusesDisplayedNode(namespace: string, n: NodeParams)
    ensures var sel := FullGraphSelector(namespace, n);
      && (n.nodeType == AggregateKind ==>
            sel == [NamespaceFilter(namespace), AggregateFilter(n.aggregate, n.aggregateValue), NodeTypeFilter(AggregateKind)])
      && (n.nodeType == AppKind ==> sel == [NamespaceFilter(namespace), AppFilter(n.app), NodeTypeFilter(AppKind)])
      && (n.nodeType == ServiceKind ==> sel == [NamespaceFilter(namespace), ServiceFilter(n.service)])
      && (n.nodeType == WorkloadKind ==> sel == [NamespaceFilter(namespace), WorkloadFilter(n.workload)])
      && (n.nodeType !in {AggregateKind, AppKind, ServiceKind, WorkloadKind} <==> sel == [NamespaceFilter(namespace)])
      && (forall c :: c in sel && c.NodeTypeFilter? ==> c.nodeType == n.nodeType)
  {
  }

  // ---------------------------------------------------------------------------
  // "Show node graph"

  /** Graph type of the node graph: app, service and workload nodes pick their own
      graph type; any other kind keeps the graph type currently fetched. */
  function NodeGraphType(kind: string, current: GraphType): (g: GraphType)
    ensures kind == AppKind ==> g == AppGraph
    ensures kind == ServiceKind ==> g == ServiceGraph
    ensures kind == WorkloadKind ==> g == WorkloadGraph
    ensures kind !in {AppKind, ServiceKind, WorkloadKind} ==> g == current
  {
    if kind == AppKind then AppGraph
    else if kind == ServiceKind then ServiceGraph
    else if kind == WorkloadKind then WorkloadGraph
    else current
  }

  /** The parameter record of the "Show node graph" action: the fetch parameters
      carried over, edges forced to all and service nodes forced on, the layouts
      and refresh interval from the application settings. A missing node throws. */
  function NodeGraphParams(fp: FetchParams, ui: UiSettings): (r: Result<GraphUrlParams>)
    ensures r.TypeError? <==> fp.node.None?
    ensures r.Ok? ==> r.value.edgeMode == AllEdges && r.value.showServiceNodes
    ensures r.Ok? ==> r.value.graphType == NodeGraphType(fp.node.value.nodeType, fp.graphType)
    ensures r.Ok? ==>
              && r.value.activeNamespaces == fp.namespaces
              && r.value.duration == fp.duration
              && r.value.edgeLabels == fp.edgeLabels
              && Some(r.value.node) == fp.node
              && r.value.showIdleEdges == fp.showIdleEdges
              && r.value.showIdleNodes == fp.showIdleNodes
              && r.value.showOperationNodes == fp.showOperationNodes
              && r.value.trafficRates == fp.trafficRates
    ensures r.Ok? ==>
              r.value.graphLayout == ui.graphLayout && r.value.namespaceLayout == ui.namespaceLayout
              && r.value.refreshInterval == ui.refreshInterval
  {
    match fp.node
    case None => TypeError
    case Some(node) =>
      Ok(GraphUrlParams(
        activeNamespaces := fp.namespaces,
        duration := fp.duration,
        edgeLabels := fp.edgeLabels,
        edgeMode := AllEdges,
        graphLayout := ui.graphLayout,
        namespaceLayout := ui.namespaceLayout,
        graphType := NodeGraphType(node.nodeType, fp.graphType),
        node := node,
        refreshInterval := ui.refreshInterval,
        showIdleEdges := fp.showIdleEdges,
        showIdleNodes := fp.showIdleNodes,
        showOperationNodes := fp.showOperationNodes,
        showServiceNodes := true,
        trafficRates := fp.trafficRates))
  }

  /** The "Show node graph" action: it always pushes onto the router (the item is
      only offered outside a kiosk). `makeUrl` is the node-graph URL builder. */
  function ViewNodeGraph(fp: FetchParams, ui: UiSettings, makeUrl: GraphUrlParams -> string): (r: Result<Dispatch>)
    ensures r.TypeError? <==> fp.node.None?
    ensures r.Ok? ==> r.value == HistoryPush(makeUrl(NodeGraphParams(fp, ui).value))
  {
    match NodeGraphParams(fp, ui)
    case TypeError => TypeError
    case Ok(params) => Ok(HistoryPush(makeUrl(params)))
  }

  /** The fetch parameters a node-graph parameter record describes. */
  function AsFetchParams(p: GraphUrlParams): FetchParams
  {
    FetchParams(p.activeNamespaces, p.duration, p.edgeLabels, p.graphType, Some(p.node),
                p.showIdleEdges, p.showIdleNodes, p.showOperationNodes, p.trafficRates)
  }

  /** Only the graph type changes: read back as fetch parameters, the node-graph
      record is the original fetch parameters with the new graph type. */
  lemma NodeGraphParamsOnlyChangeGraphType(fp: FetchParams, ui: UiSettings)
    requires fp.node.Some?
    ensures AsFetchParams(NodeGraphParams(fp, ui).value) == fp.(graphType := NodeGraphParams(fp, ui).value.graphType)
  {
  }

  /** Opening the node graph from the node graph it produced yields the same record. */
  lemma NodeGraphParamsIdempotent(fp: FetchParams, ui: UiSettings)
    requires fp.node.Some?
    ensures NodeGraphParams(AsFetchParams(NodeGraphParams(fp, ui).value), ui) == NodeGraphParams(fp, ui)
  {
  }

  /** Both actions agree on the graph type of app, service and workload nodes; for
      any other kind the full graph falls back to the app graph while the node
      graph keeps the current graph type. */
  lemma GraphTypeMappingsAgree(kind: string, current: GraphType)
    ensures kind in {AppKind, ServiceKind, WorkloadKind} ==> NodeGraphType(kind, current) == FullGraphType(kind)
    ensures kind !in {AppKind, ServiceKind, WorkloadKind} ==>
              FullGraphType(kind) == AppGraph && NodeGraphType(kind, current) == current
  {
  }

  // ---------------------------------------------------------------------------
  // Header and menu

  /** The header label: "Loading" until the data source has a timestamp, then the
      window that ends at the timestamp and spans the duration (both in seconds). */
  function IntervalTitle(graphTimestamp: int, graphDuration: int): (t: Title)
    ensures t.Loading? <==> graphTimestamp * 1000 <= 0
    ensures t.Range? ==> t.end == graphTimestamp * 1000 && t.end - t.start == graphDuration * 1000
  {
    var rangeEnd := graphTimestamp * 1000;
    var rangeStart := rangeEnd - graphDuration * 1000;
    if rangeEnd > 0 then Range(rangeStart, rangeEnd) else Loading
  }

  /** A graph stamped at 1000 s covering 60 s shows the window [940000, 1000000] ms. */
  lemma IntervalTitleExample()
    ensures IntervalTitle(0, 60) == Loading
    ensures IntervalTitle(1000, 60) == Range(940000, 1000000)
  {
  }

  /** The kebab menu: "Show full graph" always comes first; a kiosk parent gets the
      wizard actions instead of "Show node graph" (a loading placeholder while the
      service details are undefined, nothing when they are null). */
  function CardActions(parentKiosk: bool, details: ServiceDetails): (items: seq<MenuItem>)
    ensures 1 <= |items| <= 2 && items[0] == ShowFullGraph
    ensures |items| == 1 <==> parentKiosk && details == DetailsNull
    ensures ShowNodeGraph in items <==> !parentKiosk
    ensures LoadingWizardActions in items <==> parentKiosk && details == DetailsUndefined
    ensures ServiceWizardActions in items <==> parentKiosk && details == DetailsPresent
  {
    [ShowFullGraph] +
    if parentKiosk then
      match details
      case DetailsUndefined => [LoadingWizardActions]
      case DetailsPresent => [ServiceWizardActions]
      case DetailsNull => []
    else [ShowNodeGraph]
  }

  // ---------------------------------------------------------------------------
  // Card state

  /** What a wizard or delete handler passes on to the page's callback. */
  datatype Delegation = LaunchWizard(key: string, mode: string) | DeleteTrafficRouting(key: string)

  /** The card's own state: the kebab menu, the time-range dialog, and the graph
      snapshot last taken from the data source. */
  class MiniGraphCard<G> {
    var isKebabOpen: bool
    var isTimeOptionsOpen: bool
    var graphData: G

    /** A new card starts with both popups closed and the data source's current graph. */
    constructor (sourceGraphData: G)
      ensures !isKebabOpen && !isTimeOptionsOpen && graphData == sourceGraphData
    {
      isKebabOpen := false;
      isTimeOptionsOpen := false;
      graphData := sourceGraphData;
    }

    /** After a fetch succeeds or fails: take the data source's graph as a whole. */
    method Refresh(sourceGraphData: G)
      modifies this`graphData
      ensures graphData == sourceGraphData
      ensures isKebabOpen == old(isKebabOpen) && isTimeOptionsOpen == old(isTimeOptionsOpen)
    {
      graphData := sourceGraphData;
    }

    method OnGraphActionsToggle(isOpen: bool)
      modifies this`isKebabOpen
      ensures isKebabOpen == isOpen
      ensures isTimeOptionsOpen == old(isTimeOptionsOpen) && graphData == old(graphData)
    {
      isKebabOpen := isOpen;
    }

    method ToggleTimeOptionsVisibility()
      modifies this`isTimeOptionsOpen
      ensures isTimeOptionsOpen == !old(isTimeOptionsOpen)
      ensures isKebabOpen == old(isKebabOpen) && graphData == old(graphData)
    {
      isTimeOptionsOpen := !isTimeOptionsOpen;
    }

    /** Closes the menu, then passes the wizard request to the page's callback when
        there is one; the returned value is the call made, if any. */
    method HandleLaunchWizard(key: string, mode: string, hasCallback: bool) returns (delegated: Option<Delegation>)
      modifies this`isKebabOpen
      ensures !isKebabOpen
      ensures isTimeOptionsOpen == old(isTimeOptionsOpen) && graphData == old(graphData)
      ensures delegated == if hasCallback then Some(LaunchWizard(key, mode)) else None
    {
      OnGraphActionsToggle(false);
      delegated := if hasCallback then Some(LaunchWizard(key, mode)) else None;
    }

    /** Closes the menu, then passes the delete request to the page's callback when
        there is one. */
    method HandleDeleteTrafficRouting(key: string, hasCallback: bool) returns (delegated: Option<Delegation>)
      modifies this`isKebabOpen
      ensures !isKebabOpen
      ensures isTimeOptionsOpen == old(isTimeOptionsOpen) && graphData == old(graphData)
      ensures delegated == if hasCallback then Some(DeleteTrafficRouting(key)) else None
    {
      OnGraphActionsToggle(false);
      delegated := if hasCallback then Some(DeleteTrafficRouting(key)) else None;
    }
  }
}
