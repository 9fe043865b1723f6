/** The values the panel's three stores hold, and the row table as a mathematical map. */
module Entities {
  import opened Wrappers

  const TWO64: int := 0x1_0000_0000_0000_0000
  const TWO63: int := 0x8000_0000_0000_0000

  type u64 = x: int | 0 <= x < 0x1_0000_0000_0000_0000
  type i64 = x: int | -0x8000_0000_0000_0000 <= x < 0x8000_0000_0000_0000

  // Proxy ids are UUIDs and container ids come from the runtime; both are only
  // ever compared and handed out fresh, so both are numbered here.
  type Id = nat
  type Cid = nat

  datatype State = Creating | Running | Stopped | Error | Recreating | Deleting

  // One row of the proxies table, without its two timestamps.
  datatype Proxy = Proxy(
    id: Id, name: string, port: int, tlsDomain: string, adTag: string,
    secret: string, apiToken: string,
    containerId: Option<Cid>, state: State, message: string,
    quota: Option<u64>, expiration: Option<string>,
    maxConns: Option<i64>, maxIps: Option<i64>)

  // Go's zero value of the row type.
  const ZERO_PROXY := Proxy(0, "", 0, "", "", "", "", None, Stopped, "", None, None, None, None)

  // The mutable limits: outer None leaves a field alone, inner None clears it.
  datatype LimitsPatch = LimitsPatch(
    adTag: Option<string>,
    quota: Option<Option<u64>>,
    expiration: Option<Option<string>>,
    maxConns: Option<Option<i64>>,
    maxIps: Option<Option<i64>>)

  function ApplyPatch(p: Proxy, patch: LimitsPatch): Proxy {
    p.(adTag := if patch.adTag.Some? then patch.adTag.value else p.adTag,
       quota := if patch.quota.Some? then patch.quota.value else p.quota,
       expiration := if patch.expiration.Some? then patch.expiration.value else p.expiration,
       maxConns := if patch.maxConns.Some? then patch.maxConns.value else p.maxConns,
       maxIps := if patch.maxIps.Some? then patch.maxIps.value else p.maxIps)
  }

  // The printer's argument: what it takes from the row, and the settings every row shares.
  datatype Spec = Spec(
    username: string, secret: string, port: int, tlsDomain: string, adTag: string,
    apiToken: string, apiWhitelist: seq<string>, publicHost: string,
    quota: Option<u64>, expiration: Option<string>,
    maxConns: Option<i64>, maxIps: Option<i64>)

  datatype Fault =
    | PortRange | PortReserved | PortBusy | DomainRequired
    | PortTaken | NotFound | StoreFailed
    | ConfigInvalid | MkdirFailed | WriteFailed | RemoveFailed | RuntimeFailed | NotAnOrphan

  // A container as the runtime lists it: the two labels, the published port and
  // whether it runs. Containers without the managed label are other people's.
  datatype Container = Container(managed: bool, owner: Id, port: int, running: bool)

  // ---- The row table: an atomic map whose ports are unique. ----

  type Rows = map<Id, Proxy>

  predicate PortHeld(rows: Rows, port: int, except: Id) {
    exists i :: i in rows && i != except && rows[i].port == port
  }

  function TableInsert(rows: Rows, p: Proxy): Result<Rows, Fault> {
    if PortHeld(rows, p.port, p.id) then Failure(PortTaken)
    else if p.id in rows then Failure(StoreFailed)
    else Success(rows[p.id := p])
  }

  function TableUpdate(rows: Rows, p: Proxy): Result<Rows, Fault> {
    if p.id !in rows then Failure(NotFound)
    else if PortHeld(rows, p.port, p.id) then Failure(PortTaken)
    else Success(rows[p.id := p])
  }

  function TableDelete(rows: Rows, id: Id): Result<Rows, Fault> {
    if id !in rows then Failure(NotFound) else Success(rows - {id})
  }
}
