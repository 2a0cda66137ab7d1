/** The records exchanged between `up` and the daemon. */
module ControlPlane {
  datatype Route = Route(path: string, process: string, port: int)

  datatype Claim = Claim(name: string, host: string, projectDir: string, sessionId: string, routes: seq<Route>)

  datatype ClaimReceipt = ClaimReceipt(token: string, generation: int)

  datatype Publication = Publication(
    name: string, host: string, projectDir: string, sessionId: string, routes: seq<Route>,
    claimToken: string, generation: int)

  datatype Release = Release(
    name: string, host: string, projectDir: string, sessionId: string,
    claimToken: string, generation: int)

  /** A call to the daemon. */
  datatype Request =
    | ClaimRequest(claim: Claim)
    | RoutesRequest(publication: Publication)
    | ReleaseRequest(release: Release)

  /** What one `up` run says about itself in each of its calls. */
  datatype Client = Client(name: string, host: string, projectDir: string, sessionId: string, routes: seq<Route>)

  function ClaimOf(client: Client): Claim {
    Claim(client.name, client.host, client.projectDir, client.sessionId, client.routes)
  }

  function PublicationOf(client: Client, receipt: ClaimReceipt): Publication {
    Publication(client.name, client.host, client.projectDir, client.sessionId, client.routes,
                receipt.token, receipt.generation)
  }

  function ReleaseOf(client: Client, receipt: ClaimReceipt): Release {
    Release(client.name, client.host, client.projectDir, client.sessionId, receipt.token, receipt.generation)
  }
}
