/** The pod validator that reports a pod running without an Istio proxy sidecar.
    A Kubernetes pod is reduced to the ordered list of its containers; a validation
    finding is reduced to its message, severity and path. */
module SidecarPresence {

  import opened Wrappers

  /** The image-name prefix that identifies the Istio proxy container. */
  const SidecarContainerImage: string := "docker.io/istio/proxy"

  /** Message and severity of the finding for a pod without a sidecar. */
  const NoSidecarMessage: string := "Pod has no Istio sidecar"
  const WarningSeverity: string := "warning"

  datatype Container = Container(name: string, image: string)

  datatype Pod = Pod(containers: seq<Container>)

  /** A validation finding, as built from (message, severity, path). */
  datatype IstioCheck = IstioCheck(message: string, severity: string, path: string)

  /** Go's strings.HasPrefix. */
  predicate HasPrefix(s: string, prefix: string)
    ensures HasPrefix(s, prefix) <==> prefix <= s
  {
    |prefix| <= |s| && s[..|prefix|] == prefix
  }

  predicate IsSidecarImage(image: string)
    ensures IsSidecarImage(image) <==> |image| >= 21 && image[..21] == "docker.io/istio/proxy"
  {
    HasPrefix(image, SidecarContainerImage)
  }

  /** Some container of the pod runs the Istio proxy image. */
  predicate HasSidecar(containers: seq<Container>)
  {
    exists i :: 0 <= i < |containers| && IsSidecarImage(containers[i].image)
  }

  /** The one finding reported for a pod without a sidecar. */
  function NoSidecarCheck(): (c: IstioCheck)
    ensures c.message == "Pod has no Istio sidecar" && c.severity == "warning" && c.path == ""
  {
    IstioCheck(NoSidecarMessage, WarningSeverity, "")
  }

  /** The scan of SidecarPresenceChecker.Check: walks the containers in order and
      stops at the first one whose image starts with the sidecar prefix. */
  method Check(pod: Pod) returns (checks: seq<IstioCheck>, valid: bool)
    ensures valid <==> HasSidecar(pod.containers)
    ensures valid ==> checks == []
    ensures !valid ==> checks == [NoSidecarCheck()]
    ensures valid <==> FirstSidecar(pod.containers).Some?
  {
    var i := 0;
    while i < |pod.containers|
      invariant 0 <= i <= |pod.containers|
      invariant forall j :: 0 <= j < i ==> !IsSidecarImage(pod.containers[j].image)
    {
      if IsSidecarImage(pod.containers[i].image) {
        FirstSidecarIffHasSidecar(pod.containers);
        return [], true;
      }
      i := i + 1;
    }
    FirstSidecarIffHasSidecar(pod.containers);
    checks, valid := [NoSidecarCheck()], false;
  }

  /** Index of the container at which the scan stops: the first sidecar container. */
  function FirstSidecar(containers: seq<Container>): (r: Option<nat>)
    ensures r.Some? ==> r.value < |containers| && IsSidecarImage(containers[r.value].image)
    ensures r.Some? ==> forall j :: 0 <= j < r.value ==> !IsSidecarImage(containers[j].image)
    ensures r.None? ==> forall j :: 0 <= j < |containers| ==> !IsSidecarImage(containers[j].image)
  {
    if containers == [] then None
    else if IsSidecarImage(containers[0].image) then Some(0)
    else match FirstSidecar(containers[1..])
      case None => None
      case Some(k) => Some(k + 1)
  }

  /** The scan stops exactly when a sidecar exists. */
  lemma FirstSidecarIffHasSidecar(containers: seq<Container>)
    ensures FirstSidecar(containers).Some? <==> HasSidecar(containers)
  {
  }

  /** A pod without containers has no sidecar, so Check reports the warning. */
  lemma EmptyPodHasNoSidecar()
    ensures !HasSidecar([])
    ensures FirstSidecar([]) == None
  {
  }

  /** Short-circuit: once a sidecar has been found, the containers after it are
      never looked at, so appending containers changes neither the stop index nor
      the outcome. */
  lemma {:induction false} FirstSidecarOfAppend(a: seq<Container>, b: seq<Container>)
    requires FirstSidecar(a).Some?
    ensures FirstSidecar(a + b) == FirstSidecar(a)
    ensures HasSidecar(a + b)
  {
    assert a != [];
    if IsSidecarImage(a[0].image) {
      assert (a + b)[0] == a[0];
    } else {
      assert (a + b)[1..] == a[1..] + b;
      FirstSidecarOfAppend(a[1..], b);
      assert (a + b)[0] == a[0];
    }
    FirstSidecarIffHasSidecar(a + b);
  }

  /** The outcome depends only on which images are present, not on their order:
      any reordering of the containers yields the same verdict. */
  lemma HasSidecarPermutation(a: seq<Container>, b: seq<Container>)
    requires multiset(a) == multiset(b)
    ensures HasSidecar(a) <==> HasSidecar(b)
  {
    if HasSidecar(a) {
      var i :| 0 <= i < |a| && IsSidecarImage(a[i].image);
      assert a[i] in multiset(b);
      var j :| 0 <= j < |b| && b[j] == a[i];
    }
    if HasSidecar(b) {
      var j :| 0 <= j < |b| && IsSidecarImage(b[j].image);
      assert b[j] in multiset(a);
      var i :| 0 <= i < |a| && a[i] == b[j];
    }
  }
}
