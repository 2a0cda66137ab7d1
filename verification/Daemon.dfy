/**
 The claim table of the daemon: each critical section under the server mutex as a
 function on the server's state. The module ApiServer has the methods that perform them.
 */
module Daemon {
  import opened Text
  import opened ControlPlane
  import opened Hosts

  datatype ClaimRecord = ClaimRecord(
    claim: Claim, token: string, generation: int,
    published: bool, releasing: bool, publication: Publication)

  datatype Server = Server(claims: map<string, ClaimRecord>, generation: int)

  /** The codes of the control plane that these handlers answer with. */
  datatype Code =
    | HostClaimConflict | LeaseRejected | StaleTokenRejected
    | PublicationRejected | RouteRuntimeUnavailable

  datatype Response = Receipt(receipt: ClaimReceipt) | NoContent | Refused(code: Code, owner: string)

  const EMPTY_PUBLICATION := Publication("", "", "", "", [], "", 0)
  const MAX_INT64 := 0x7FFF_FFFF_FFFF_FFFF

  /** Increment of an int64. */
  function NextGeneration(g: int): int {
    if g == MAX_INT64 then -MAX_INT64 - 1 else g + 1
  }

  predicate RecordMatchesPublication(record: ClaimRecord, publication: Publication) {
    && record.token == publication.claimToken
    && record.generation == publication.generation
    && record.claim.projectDir == publication.projectDir
    && record.claim.name == publication.name
    && record.claim.host == publication.host
    && record.claim.sessionId == publication.sessionId
    && record.claim.routes == publication.routes
  }

  predicate RecordMatchesRelease(record: ClaimRecord, release: Release) {
    && record.token == release.claimToken
    && record.generation == release.generation
    && record.claim.projectDir == release.projectDir
    && record.claim.sessionId == release.sessionId
    && record.claim.name == release.name
    && record.claim.host == release.host
  }

  /** The only publication that a record accepts. */
  function PublicationFor(record: ClaimRecord): Publication {
    Publication(record.claim.name, record.claim.host, record.claim.projectDir, record.claim.sessionId,
                record.claim.routes, record.token, record.generation)
  }

  /** Checks made before the server lock is taken. */
  function ClaimPrecheck(claim: Claim): Option<Response> {
    if claim.host == "" then Some(Refused(HostClaimConflict, ""))
    else if claim.sessionId == "" then Some(Refused(LeaseRejected, ""))
    else None
  }

  predicate SameSession(record: ClaimRecord, claim: Claim) {
    record.claim.projectDir == claim.projectDir && record.claim.sessionId == claim.sessionId && !record.releasing
  }

  /** The section of a claim; `claim.host` is already canonical and `token` is freshly drawn. */
  function ClaimSection(server: Server, claim: Claim, token: string): (Server, Response) {
    if claim.host in server.claims then
      var existing := server.claims[claim.host];
      if SameSession(existing, claim) then
        (server, Receipt(ClaimReceipt(existing.token, existing.generation)))
      else
        (server, Refused(HostClaimConflict, existing.claim.projectDir))
    else
      var generation := NextGeneration(server.generation);
      var record := ClaimRecord(claim, token, generation, false, false, EMPTY_PUBLICATION);
      (Server(server.claims[claim.host := record], generation), Receipt(ClaimReceipt(token, generation)))
  }

  /** The check of a publication; the record is the one the handler keeps a copy of. */
  function AdmitPublication(server: Server, publication: Publication): Option<ClaimRecord> {
    if publication.host in server.claims
       && !server.claims[publication.host].releasing
       && RecordMatchesPublication(server.claims[publication.host], publication)
    then Some(server.claims[publication.host]) else None
  }

  /** The record is written back after the route runtime accepted the publication. */
  function RecordPublication(server: Server, publication: Publication, record: ClaimRecord): Server {
    server.(claims := server.claims[publication.host := record.(published := true, publication := publication)])
  }

  /** The first section of a release, when it is admitted: the record marked as releasing. */
  function AdmitRelease(server: Server, release: Release): Option<ClaimRecord> {
    if release.host in server.claims
       && !server.claims[release.host].releasing
       && RecordMatchesRelease(server.claims[release.host], release)
    then Some(server.claims[release.host].(releasing := true)) else None
  }

  function MarkReleasing(server: Server, release: Release, record: ClaimRecord): Server {
    server.(claims := server.claims[release.host := record])
  }

  predicate StillMatches(server: Server, release: Release) {
    release.host in server.claims && RecordMatchesRelease(server.claims[release.host], release)
  }

  /** The last section of a release whose Unpublish failed. */
  function UndoRelease(server: Server, release: Release): Server {
    if StillMatches(server, release) then
      server.(claims := server.claims[release.host := server.claims[release.host].(releasing := false)])
    else server
  }

  /** The last section of a release otherwise. */
  function EndRelease(server: Server, release: Release): Server {
    if StillMatches(server, release) then server.(claims := server.claims - {release.host}) else server
  }

  lemma MatchDeterminesPublication(record: ClaimRecord, publication: Publication)
    ensures RecordMatchesPublication(record, publication) <==> publication == PublicationFor(record)
  {}

  // What is accepted, in terms of the fields alone -------------------------------

  /** A record accepts one publication: that of its own name, host, directory, session, routes, token, generation. */
  lemma {:induction false} PublicationAdmittedExactly(server: Server, publication: Publication)
    ensures AdmitPublication(server, publication).Some? <==>
      && publication.host in server.claims
      && var record := server.claims[publication.host];
         && !record.releasing
         && publication == Publication(record.claim.name, record.claim.host, record.claim.projectDir,
                                       record.claim.sessionId, record.claim.routes, record.token, record.generation)
    ensures AdmitPublication(server, publication).Some? ==>
      AdmitPublication(server, publication).value == server.claims[publication.host]
  {}

  /** A record accepts one release: that of its own name, host, directory, session, token and generation. */
  lemma MatchDeterminesRelease(record: ClaimRecord, release: Release)
    ensures RecordMatchesRelease(record, release) <==>
      release == Release(record.claim.name, record.claim.host, record.claim.projectDir, record.claim.sessionId,
                         record.token, record.generation)
  {}

  lemma {:induction false} ReleaseAdmittedExactly(server: Server, release: Release)
    ensures AdmitRelease(server, release).Some? <==>
      && release.host in server.claims
      && var record := server.claims[release.host];
         && !record.releasing
         && release == Release(record.claim.name, record.claim.host, record.claim.projectDir,
                               record.claim.sessionId, record.token, record.generation)
    ensures AdmitRelease(server, release).Some? ==>
      AdmitRelease(server, release).value == server.claims[release.host].(releasing := true)
  {}

  /**
   A claim is accepted if and only if its host is free, or held and not being released by
   the same session of the same directory. A free host gets the next generation and an
   unpublished record with the new token; the holder gets its own receipt again; anybody
   else learns the holder's directory.
   */
  lemma {:induction false} ClaimAcceptedExactly(server: Server, claim: Claim, token: string)
    ensures var (after, response) := ClaimSection(server, claim, token);
      if claim.host !in server.claims then
        && after.claims.Keys == server.claims.Keys + {claim.host}
        && after.generation == NextGeneration(server.generation)
        && after.claims[claim.host].claim == claim && after.claims[claim.host].token == token
        && after.claims[claim.host].generation == after.generation
        && !after.claims[claim.host].published && !after.claims[claim.host].releasing
        && (forall other :: other in server.claims ==> after.claims[other] == server.claims[other])
        && response == Receipt(ClaimReceipt(token, after.generation))
      else
        var holder := server.claims[claim.host];
        && after == server
        && response ==
             if holder.claim.projectDir == claim.projectDir && holder.claim.sessionId == claim.sessionId
                && !holder.releasing
             then Receipt(ClaimReceipt(holder.token, holder.generation))
             else Refused(HostClaimConflict, holder.claim.projectDir)
  {}

  /** The counter is an int64: one more, except that the maximum is followed by the minimum. */
  lemma {:induction false} GenerationWraps(g: int)
    requires -0x8000_0000_0000_0000 <= g <= 0x7FFF_FFFF_FFFF_FFFF
    ensures -0x8000_0000_0000_0000 <= NextGeneration(g) <= 0x7FFF_FFFF_FFFF_FFFF
    ensures (NextGeneration(g) - (g + 1)) % 0x1_0000_0000_0000_0000 == 0
  {}

  /** An accepted claim, repeated by the same session, gets the same receipt and changes nothing. */
  lemma {:induction false} RepeatedClaimIsIdempotent(server: Server, claim: Claim, token: string, other: string)
    requires ClaimSection(server, claim, token).1.Receipt?
    ensures var claimed := ClaimSection(server, claim, token);
      ClaimSection(claimed.0, claim, other) == claimed
  {}

  /** Whatever the claim table, a release that failed and was undone is admitted again. */
  lemma {:induction false} UndoneReleaseIsAdmittedAgain(server: Server, release: Release)
    requires StillMatches(server, release)
    ensures AdmitRelease(UndoRelease(server, release), release).Some?
  {}

  /** Marking a release and ending it deletes the claim; marking and undoing it changes nothing. */
  lemma {:induction false} MarkThenFinish(server: Server, release: Release)
    requires AdmitRelease(server, release).Some?
    ensures var marked := MarkReleasing(server, release, AdmitRelease(server, release).value);
      && EndRelease(marked, release) == server.(claims := server.claims - {release.host})
      && UndoRelease(marked, release) == server
  {}
}
