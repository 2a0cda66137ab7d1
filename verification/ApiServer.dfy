/** The daemon's handlers, updating the claim table in place. */
module ApiServer {
  import opened Text
  import opened ControlPlane
  import opened Hosts
  import opened Caddyfile
  import opened RouteRuntime
  import opened Daemon

  class ApiServer {
    const routeRuntime: DockerCaddy?
    var claims: map<string, ClaimRecord>
    var generation: int

    ghost function State(): Server reads this {
      Server(claims, generation)
    }

    constructor (runtime: DockerCaddy?)
      ensures State() == Server(map[], 0) && routeRuntime == runtime
    {
      routeRuntime, claims, generation := runtime, map[], 0;
    }

    /** A claim; `token` is the token a new record would get. */
    method HandleClaim(request: Claim, token: string) returns (response: Response)
      modifies this`claims, this`generation
      ensures match ClaimPrecheck(request)
        case Some(refused) => response == refused && State() == old(State())
        case None =>
          (State(), response) == ClaimSection(old(State()), request.(host := CanonicalHost(request.host)), token)
    {
      if request.host == "" {
        return Refused(HostClaimConflict, "");
      }
      if request.sessionId == "" {
        return Refused(LeaseRejected, "");
      }
      var claim := request.(host := CanonicalHost(request.host));
      if claim.host in claims {
        var existing := claims[claim.host];
        if existing.claim.projectDir == claim.projectDir
           && existing.claim.sessionId == claim.sessionId && !existing.releasing {
          return Receipt(ClaimReceipt(existing.token, existing.generation));
        }
        return Refused(HostClaimConflict, existing.claim.projectDir);
      }
      generation := NextGeneration(generation);
      var record := ClaimRecord(claim, token, generation, false, false, EMPTY_PUBLICATION);
      claims := claims[claim.host := record];
      return Receipt(ClaimReceipt(record.token, record.generation));
    }

    /** A publication; the runtime is called with the server lock held. */
    method HandleRoutes(request: Publication, orderNext: seq<string>, orderOld: seq<string>, io: nat -> Io)
      returns (response: Response)
      requires routeRuntime != null ==>
        Enumerates(orderOld, routeRuntime.publications.Keys)
        && Enumerates(orderNext, routeRuntime.publications.Keys + {CanonicalHost(CanonicalHost(request.host))})
      modifies this`claims, routeRuntime
      ensures generation == old(generation)
      ensures routeRuntime == null ==> response == Refused(RouteRuntimeUnavailable, "") && claims == old(claims)
      ensures routeRuntime != null ==>
        var publication := request.(host := CanonicalHost(request.host));
        match AdmitPublication(old(State()), publication)
        case None =>
          response == Refused(StaleTokenRejected, "") && claims == old(claims)
          && routeRuntime.State() == old(routeRuntime.State())
        case Some(record) =>
          var (runtime, ok) := PublishResult(old(routeRuntime.State()), publication, io);
          && routeRuntime.State() == runtime
          && (ok ==> response == NoContent && State() == RecordPublication(old(State()), publication, record))
          && (!ok ==> response == Refused(PublicationRejected, "") && claims == old(claims))
    {
      if routeRuntime == null {
        return Refused(RouteRuntimeUnavailable, "");
      }
      var publication := request.(host := CanonicalHost(request.host));
      if publication.host !in claims || claims[publication.host].releasing
         || !RecordMatchesPublication(claims[publication.host], publication) {
        return Refused(StaleTokenRejected, "");
      }
      var record := claims[publication.host];
      var ok := routeRuntime.Publish(publication, orderNext, orderOld, io);
      if !ok {
        return Refused(PublicationRejected, "");
      }
      record := record.(published := true, publication := publication);
      claims := claims[publication.host := record];
      return NoContent;
    }

    /** First section of a release: the record is marked, or the release is refused. */
    method BeginRelease(release: Release) returns (admitted: Option<ClaimRecord>)
      modifies this`claims
      ensures admitted == AdmitRelease(old(State()), release)
      ensures State() == if admitted.Some? then MarkReleasing(old(State()), release, admitted.value) else old(State())
    {
      if release.host !in claims || claims[release.host].releasing
         || !RecordMatchesRelease(claims[release.host], release) {
        return None;
      }
      var record := claims[release.host].(releasing := true);
      claims := claims[release.host := record];
      return Some(record);
    }

    /** Last section of a release, after the runtime answered. */
    method FinishRelease(release: Release, ok: bool) returns (response: Response)
      modifies this`claims
      ensures State() == if ok then EndRelease(old(State()), release) else UndoRelease(old(State()), release)
      ensures response == if ok then NoContent else Refused(PublicationRejected, "")
    {
      if release.host in claims {
        var current := claims[release.host];
        if RecordMatchesRelease(current, release) {
          if ok {
            claims := claims - {release.host};
          } else {
            claims := claims[release.host := current.(releasing := false)];
          }
        }
      }
      return if ok then NoContent else Refused(PublicationRejected, "");
    }

    /**
     A release that meets no other handler between its sections; the module Protocol
     interleaves the sections with everything else. It deletes the claim, or leaves the
     claim table as it was.
     */
    method HandleRelease(request: Release, orderNext: seq<string>, orderOld: seq<string>, io: nat -> Io)
      returns (response: Response)
      requires routeRuntime != null ==> Enumerates(orderOld, routeRuntime.publications.Keys)
      requires var host := CanonicalHost(request.host);
        routeRuntime != null && host in claims ==>
          Enumerates(orderNext, routeRuntime.publications.Keys - {CanonicalHost(claims[host].publication.host)})
      modifies this`claims, routeRuntime
      ensures generation == old(generation)
      ensures var release := request.(host := CanonicalHost(request.host));
        match AdmitRelease(old(State()), release)
        case None =>
          response == Refused(StaleTokenRejected, "") && claims == old(claims)
          && (routeRuntime != null ==> routeRuntime.State() == old(routeRuntime.State()))
        case Some(record) =>
          && (response == NoContent || response == Refused(PublicationRejected, ""))
          && (response == NoContent ==> claims == old(claims) - {release.host})
          && (response != NoContent ==> claims == old(claims))
          && (!record.published || routeRuntime == null ==> response == NoContent)
          && (!record.published && routeRuntime != null ==> routeRuntime.State() == old(routeRuntime.State()))
          && (record.published && routeRuntime != null ==>
                (routeRuntime.State(), response == NoContent)
                == UnpublishResult(old(routeRuntime.State()), record.publication, io))
    {
      var release := request.(host := CanonicalHost(request.host));
      var admitted := BeginRelease(release);
      if admitted.None? {
        return Refused(StaleTokenRejected, "");
      }
      var record := admitted.value;
      var ok := true;
      if record.published && routeRuntime != null {
        ok := routeRuntime.Unpublish(record.publication, orderNext, orderOld, io);
      }
      MarkThenFinish(old(State()), release);
      response := FinishRelease(release, ok);
    }
  }
}
