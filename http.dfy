/**
  The boundary to the outside world. `requests.get`/`requests.post` and
  `subprocess.run` are not modelled; the network and the container tool are
  oracles that the operations receive as parameters.
 */
module Http {
  import opened Assoc
  import opened Json

  /** One HTTP request: its target, path, JSON body (for POST) and timeout in seconds. */
  datatype Request =
    | HttpGet(host: string, port: nat, path: string, timeout: nat)
    | HttpPost(host: string, port: nat, path: string, payload: Json, timeout: nat)

  /**
    What a request comes back with: `Failure` for anything `requests` raises
    (refused connection, timeout, ...), otherwise a status code and a body,
    `None` when the body does not decode as JSON.
   */
  datatype Response = Failure | Resp(status: int, body: Option<Json>)

  /** The answers the network gives. */
  type Network = Request -> Response

  /** Whether `subprocess.run(argv, check=True)` returns without raising. */
  type Shell = seq<string> -> bool
}
