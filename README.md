# Kiali mini graph card and sidecar presence check, in Dafny

This project models two small parts of Kiali, the service-mesh console.

**The mini graph card** (`mini_graph_card.dfy`, module `MiniGraph`). This is the compact dependency graph shown on the details page of a service, workload or application. The model covers what the card decides:

- what a tap on a graph node does. A tap on an inaccessible or service-entry node is ignored, and so is a tap on the resource the page already shows. Any other tap opens the details page `/namespaces/{ns}/{type}s/{name}` of the tapped resource. That link gets `?clusterName=` only in multi-cluster mode.
- the URL of "Show full graph": a graph type and a chain of selector-builder calls chosen by the focused node's kind.
- the parameter record of "Show node graph".
- the header's time-window label.
- which items the kebab menu offers.
- the card's own state: kebab menu open, time-range dialog open, and the graph snapshot. Its handlers become methods of the class `MiniGraphCard`.

All navigation goes through one of two channels: a message to the kiosk host frame when the card runs inside a kiosk parent, or a push onto the browser history. The model returns this choice as a `Dispatch` value.

Some inputs come from outside the component. These are passed in as parameters:

- the parent-kiosk test;
- the multi-cluster flag;
- the layouts and refresh interval held in the application store;
- the fetch parameters and timestamps of the graph data source.

Two builders are passed in as functions: the selector builder with its URI encoding, and the node-graph URL builder. The selector itself is modelled as the ordered list of builder calls. The range formatter's output is represented by the `Range(start, end)` title.

Kinds are kept as strings, because the card compares them as strings and uses a kind as a field name (`e[eNodeType]`). `TapField` and `NodeField` model that lookup. An undefined field is `None`, and two undefined fields compare equal, as `undefined === undefined` does. An undefined value printed into the link reads `undefined`. An optional string counts as set only when it is defined and non-empty, following JavaScript truthiness. Two accesses throw a TypeError: the first namespace of an empty namespace list, and the node type of a missing focused node. In both cases the action returns `TypeError` instead of requiring its input away.

**The sidecar presence check** (`sidecar_presence_checker.dfy`, module `SidecarPresence`). This validator scans a pod's containers in order. It stops at the first container whose image starts with `docker.io/istio/proxy` and returns no findings and `true`. If no container matches, it returns one warning, "Pod has no Istio sidecar", and `false`. A pod is reduced to its list of containers, and a finding to its (message, severity, path).

Three behaviours of the code worth noting:

- A tap that is neither a box with a grouped kind nor carries a workload resolves to its raw node type, whatever string that is; no fallback kind is substituted.
- "Show node graph" always pushes onto the browser history, even in a kiosk. In a kiosk the menu does not offer it.
- A box tap resolves to whatever kind the box groups. For an app box that is the application page.

## Model

| member | source | states |
|---|---|---|
| `SidecarPresence.Check` | services/business/checkers/pods/sidecar_presence_checker.go:17-26 | returns true iff some container's image has the sidecar prefix; no findings on a hit; exactly the one warning finding otherwise; the verdict is true exactly when the scan has a first matching container to stop at |
| `SidecarPresence.HasPrefix` | services/business/checkers/pods/sidecar_presence_checker.go:19 | a string has a prefix exactly when the prefix is an initial segment of it, as Go's `strings.HasPrefix` |
| `SidecarPresence.IsSidecarImage` | services/business/checkers/pods/sidecar_presence_checker.go:9-19 | an image is the sidecar's exactly when its first 21 characters are `docker.io/istio/proxy` |
| `SidecarPresence.NoSidecarCheck` | services/business/checkers/pods/sidecar_presence_checker.go:24 | the finding has message "Pod has no Istio sidecar", severity "warning" and an empty path |
| `SidecarPresence.FirstSidecar` | services/business/checkers/pods/sidecar_presence_checker.go:18-22 | the scan stops at the first container with a sidecar image, and no earlier container has one; when it does not stop, no container has one |
| `SidecarPresence.FirstSidecarIffHasSidecar` | services/business/checkers/pods/sidecar_presence_checker.go:18-22 | the early return is taken exactly when a sidecar container exists |
| `SidecarPresence.EmptyPodHasNoSidecar` | services/business/checkers/pods/sidecar_presence_checker.go:18-25 | a pod without containers has no sidecar, so it falls through to the warning |
| `SidecarPresence.FirstSidecarOfAppend` | services/business/checkers/pods/sidecar_presence_checker.go:18-22 | containers after the first match are never looked at: appending containers keeps the stop index and the verdict |
| `SidecarPresence.HasSidecarPermutation` | services/business/checkers/pods/sidecar_presence_checker.go:18-22 | reordering the containers does not change the verdict |
| `MiniGraph.ResolveKind` | frontend/src/components/CytoscapeGraph/MiniGraphCard.tsx:215-216 | a box with a grouped kind resolves to that kind; otherwise a node with a workload resolves to workload; otherwise the node type |
| `MiniGraph.HandleNodeTap` | frontend/src/components/CytoscapeGraph/MiniGraphCard.tsx:207-247 | no navigation iff the node is inaccessible, a service entry, or the resource already shown; otherwise the details path of the tapped identity plus the cluster query, sent to the kiosk iff the parent is a kiosk |
| `MiniGraph.IsSameResource` | frontend/src/components/CytoscapeGraph/MiniGraphCard.tsx:217-220 | holds exactly when there is a focused node, its namespace equals the tap's, its node type equals the resolved kind, and its field under its own node type equals the tap's field under the resolved kind |
| `MiniGraph.ResourceType` | frontend/src/components/CytoscapeGraph/MiniGraphCard.tsx:234 | the segment is "application" exactly for the app kind (or a kind already spelled so), never "app", and the kind itself otherwise |
| `MiniGraph.DetailPath` | frontend/src/components/CytoscapeGraph/MiniGraphCard.tsx:233-236 | the path splits into `/namespaces/{ns}/`, the segment `{type}s/`, and the name as printed (undefined as "undefined") |
| `MiniGraph.ClusterQuery` | frontend/src/components/CytoscapeGraph/MiniGraphCard.tsx:238-240 | the query is empty unless the tap has a cluster and multi-cluster mode is on, and then it is `?clusterName={cluster}` |
| `MiniGraph.Deliver` | frontend/src/components/CytoscapeGraph/MiniGraphCard.tsx:242-246 | the URL goes to the kiosk host frame iff the parent is a kiosk, otherwise to the history, unchanged |
| `MiniGraph.TapOnDisplayedNodeIsIgnored` | frontend/src/components/CytoscapeGraph/MiniGraphCard.tsx:213-224 | tapping the focused node itself never navigates |
| `MiniGraph.NavigationLeavesDisplayedResource` | frontend/src/components/CytoscapeGraph/MiniGraphCard.tsx:214-224 | an accessible tap navigates iff there is no focused node or the namespace, the kind, or the name under that kind differs |
| `MiniGraph.ClusterQualifiedIff` | frontend/src/components/CytoscapeGraph/MiniGraphCard.tsx:238-240 | the details URL is cluster-qualified iff the tap has a cluster and multi-cluster mode is on |
| `MiniGraph.BoxTapOpensGroupedKind` | frontend/src/components/CytoscapeGraph/MiniGraphCard.tsx:215-236 | a tap on a box grouping applications opens `/namespaces/{ns}/applications/{app}` |
| `MiniGraph.ServiceTapExample` | frontend/src/components/CytoscapeGraph/MiniGraphCard.tsx:216-245 | from a workload page, tapping service svc1 in ns1 pushes `/namespaces/ns1/services/svc1` |
| `MiniGraph.FullGraphType` | frontend/src/components/CytoscapeGraph/MiniGraphCard.tsx:258-283 | the full graph is the service graph iff the node is a service, the workload graph iff it is a workload, and the app graph otherwise |
| `MiniGraph.FullGraphSelector` | frontend/src/components/CytoscapeGraph/MiniGraphCard.tsx:257-283 | the selector starts with the namespace filter and holds at most two more calls |
| `MiniGraph.FullGraphFocusesDisplayedNode` | frontend/src/components/CytoscapeGraph/MiniGraphCard.tsx:260-283 | kind by kind, the selector calls: aggregate key/value plus node type, app name plus node type, service name, workload name; only the namespace for any other kind; a node-type filter always names the node's own kind |
| `MiniGraph.FullGraphUrl` | frontend/src/components/CytoscapeGraph/MiniGraphCard.tsx:285-287 | the URL splits into `/graph/namespaces?graphType={gt}&injectServiceNodes=true&namespaces=`, the namespace itself, and `&focusSelector=` followed by the encoded selector |
| `MiniGraph.ViewFullGraph` | frontend/src/components/CytoscapeGraph/MiniGraphCard.tsx:255-294 | throws iff the namespace list is empty or there is no focused node; otherwise the fixed-shape full-graph URL over the first namespace, sent to the kiosk iff the parent is a kiosk |
| `MiniGraph.NodeGraphType` | frontend/src/components/CytoscapeGraph/MiniGraphCard.tsx:297-308 | app, service and workload nodes choose their own graph type; any other kind keeps the current one |
| `MiniGraph.NodeGraphParams` | frontend/src/components/CytoscapeGraph/MiniGraphCard.tsx:297-325 | throws iff there is no focused node; edge mode is all and service nodes are shown; every other fetch parameter is copied; layouts and refresh interval come from the settings |
| `MiniGraph.ViewNodeGraph` | frontend/src/components/CytoscapeGraph/MiniGraphCard.tsx:296-329 | throws iff there is no focused node; otherwise a history push of the URL built from the parameter record |
| `MiniGraph.NodeGraphParamsOnlyChangeGraphType` | frontend/src/components/CytoscapeGraph/MiniGraphCard.tsx:310-325 | read back as fetch parameters, the record equals the original fetch parameters except for the graph type |
| `MiniGraph.NodeGraphParamsIdempotent` | frontend/src/components/CytoscapeGraph/MiniGraphCard.tsx:297-325 | building the node-graph record from its own result gives the same record |
| `MiniGraph.GraphTypeMappingsAgree` | frontend/src/components/CytoscapeGraph/MiniGraphCard.tsx:258-308 | both actions give app, service and workload nodes the same graph type; for other kinds the full graph uses the app graph and the node graph keeps the current type |
| `MiniGraph.IntervalTitle` | frontend/src/components/CytoscapeGraph/MiniGraphCard.tsx:110-113 | "Loading" iff timestamp×1000 ≤ 0; otherwise the window ends at timestamp×1000 and spans duration×1000 ms |
| `MiniGraph.IntervalTitleExample` | frontend/src/components/CytoscapeGraph/MiniGraphCard.tsx:110-113 | timestamp 0 shows "Loading"; timestamp 1000 s with duration 60 s gives [940000, 1000000] ms |
| `MiniGraph.CardActions` | frontend/src/components/CytoscapeGraph/MiniGraphCard.tsx:82-108 | "Show full graph" always comes first; "Show node graph" is offered iff the parent is not a kiosk; the list has a single item exactly for a kiosk with null details; a kiosk gets the loading placeholder iff the details are undefined, and the service wizard actions iff they are present |
| `MiniGraph.MiniGraphCard.constructor` | frontend/src/components/CytoscapeGraph/MiniGraphCard.tsx:61-65 | both popups start closed; the snapshot is the data source's graph |
| `MiniGraph.MiniGraphCard.Refresh` | frontend/src/components/CytoscapeGraph/MiniGraphCard.tsx:77-79 | replaces the snapshot wholesale and leaves both flags unchanged |
| `MiniGraph.MiniGraphCard.OnGraphActionsToggle` | frontend/src/components/CytoscapeGraph/MiniGraphCard.tsx:249-253 | sets only the kebab flag |
| `MiniGraph.MiniGraphCard.ToggleTimeOptionsVisibility` | frontend/src/components/CytoscapeGraph/MiniGraphCard.tsx:331-333 | flips only the time-options flag |
| `MiniGraph.MiniGraphCard.HandleLaunchWizard` | frontend/src/components/CytoscapeGraph/MiniGraphCard.tsx:193-198 | closes the kebab menu, then delegates the wizard request iff the page supplied a callback; nothing else changes |
| `MiniGraph.MiniGraphCard.HandleDeleteTrafficRouting` | frontend/src/components/CytoscapeGraph/MiniGraphCard.tsx:200-205 | closes the kebab menu, then delegates the delete request iff the page supplied a callback; nothing else changes |

## Left out

- Rendering is not modelled: the JSX, the PatternFly widgets, the props handed to the Cytoscape graph, and the Cytoscape unselect call made before navigating.
- Subscribing to and unsubscribing from the data source's `fetchSuccess` and `fetchError` events is not modelled. Only the refresh that both events trigger is, as `Refresh`.
- The parent-kiosk test, the multi-cluster flag and the application store are not modelled; their values are parameters.
- The router and the kiosk message channel are not modelled. The navigation is returned as a `Dispatch` value.
- Page callbacks (`onLaunchWizard`, `onDeleteTrafficRouting`) are not called. Whether one exists is a parameter, and the call is returned as a `Delegation` value.
- The selector builder's text, the URI encoding, the node-graph URL builder and the range formatter are not modelled. They are function parameters, or the `Range` title.
- The graph type and edge mode enums (`types/Graph`) are not part of this model. Their string values follow Kiali's: `app`, `service`, `versionedApp`, `workload`.
- `MiniGraph.IntervalTitle`: timestamps and durations are integers of seconds. JavaScript numbers are floating point, so fractional seconds and rounding are not modelled.
- `MiniGraph.TapField` and `MiniGraph.NodeField` model the string fields a kind can name. The dynamic lookup of any other property name gives `None`.
- The HTTP handlers in `handlers/mesh.go` are not modelled. They pass business-layer results to JSON responses and hold no logic of their own.
- A Kubernetes pod is reduced to its container list, and a finding to (message, severity, path). How the finding is built is not modelled.
