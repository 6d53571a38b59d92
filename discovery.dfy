/**
 * The API resource registration check: ask the discovery service for the
 * resources of one group/version and look for a resource whose plural or
 * singular name is the one asked about. A not-found answer means "not
 * registered"; any other failure is handed back to the caller.
 */
module Discovery {
  import opened StatusErrors

  /** One entry of a discovery listing: the plural and the singular resource name. */
  datatype APIResource = APIResource(name: string, singularName: string)

  /**
   * What one discovery call returns: the resource list (absent when the
   * service returned none) and the error (absent on success). Both may be
   * present at once.
   */
  datatype DiscoveryResponse = DiscoveryResponse(resources: Option<seq<APIResource>>, err: Option<Error>)

  /**
   * The discovery service as the check sees it: the answer it gives for
   * each group/version string. It stands for the remote cluster.
   */
  type DiscoveryClient = string -> DiscoveryResponse

  datatype GroupVersion = GroupVersion(group: string, version: string)

  /** The wire form of a group/version: "group/version", or just the version for the core group. */
  function GroupVersionString(gv: GroupVersion): (s: string)
    ensures |s| >= |gv.version| && s[|s| - |gv.version|..] == gv.version
    ensures gv.group == "" ==> s == gv.version
    ensures gv.group != "" ==> gv.group <= s && |s| > |gv.group| && s[|gv.group|] == '/'
  {
    if gv.group == "" then gv.version else gv.group + "/" + gv.version
  }

  /** The group/version of the OpenShift security API. */
  const SecurityV1: GroupVersion := GroupVersion("security.openshift.io", "v1")
  /** The plural name of the SecurityContextConstraints resource. */
  const SccResourceName: string := "securitycontextconstraints"

  /** A listed resource is the one asked about when either of its names is exactly that name. */
  predicate Matches(r: APIResource, resourceName: string)
  {
    r.name == resourceName || r.singularName == resourceName
  }

  /** Some entry of the listing is the resource asked about. */
  ghost predicate Lists(resources: seq<APIResource>, resourceName: string)
  {
    exists i :: 0 <= i < |resources| && Matches(resources[i], resourceName)
  }

  /**
   * The answer a registration check owes for `resp`: an error that is not a
   * not-found error comes back unchanged with false; otherwise there is no
   * error, and the answer is true exactly when a returned listing names the
   * resource.
   */
  ghost predicate Reports(resp: DiscoveryResponse, resourceName: string, registered: bool, err: Option<Error>)
  {
    if resp.err.Some? && !IsNotFound(resp.err) then
      !registered && err == resp.err
    else
      err.None? && (registered <==> resp.resources.Some? && Lists(resp.resources.value, resourceName))
  }

  /** Whether the resource named `resourceName` is registered under `gv`. */
  method IsAPIResourceRegistered(client: DiscoveryClient, gv: GroupVersion, resourceName: string)
    returns (registered: bool, err: Option<Error>)
    ensures Reports(client(GroupVersionString(gv)), resourceName, registered, err)
  {
    var resp := client(GroupVersionString(gv));
    if resp.err.Some? && !IsNotFound(resp.err) {
      return false, resp.err;
    }

    if resp.resources.Some? {
      var apis := resp.resources.value;
      for i := 0 to |apis|
        invariant forall j :: 0 <= j < i ==> !Matches(apis[j], resourceName)
      {
        if apis[i].name == resourceName || apis[i].singularName == resourceName {
          return true, None;
        }
      }
    }

    return false, None;
  }

  /** Whether SecurityContextConstraints are served by the security.openshift.io/v1 API. */
  method IsSccSupported(client: DiscoveryClient) returns (supported: bool, err: Option<Error>)
    ensures Reports(client("security.openshift.io/v1"), "securitycontextconstraints", supported, err)
  {
    assert GroupVersionString(SecurityV1) == "security.openshift.io/v1";
    var hasSccCap, e := IsAPIResourceRegistered(client, SecurityV1, SccResourceName);
    if e.Some? {
      return false, e;
    }
    return hasSccCap, None;
  }

  /**
   * An unregistered group/version (any not-found error, however wrapped, and
   * no listing) reads as "not registered", without error.
   */
  lemma MissingGroupVersionIsNotRegistered(e: Error, resourceName: string, registered: bool, err: Option<Error>)
    requires IsNotFound(Some(e))
    requires Reports(DiscoveryResponse(None, Some(e)), resourceName, registered, err)
    ensures !registered && err.None?
  {
  }

  /** A forbidden answer is passed back unchanged, even when a listing came with it. */
  lemma ForbiddenIsPassedBack(resources: Option<seq<APIResource>>, message: string,
                              resourceName: string, registered: bool, err: Option<Error>)
    requires Reports(DiscoveryResponse(resources, Some(Error(message, Some(Status(ReasonForbidden, StatusForbidden)), None))),
                     resourceName, registered, err)
    ensures !registered && err == Some(Error(message, Some(Status(ReasonForbidden, StatusForbidden)), None))
  {
  }
}
