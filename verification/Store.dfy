/** The proxies table: signed 64-bit columns, updated in place, seen through a scan. */
module Store {
  import opened Wrappers
  import opened Entities

  // Go's conversions between uint64 and int64 keep the bits, not the value.
  function ToInt64(v: u64): i64 { if v < TWO63 then v else v - TWO64 }

  function ToUint64(v: i64): u64 { if v >= 0 then v else v + TWO64 }

  /** The reinterpretation loses nothing, in either direction, and is the identity exactly
      on the values both types have. */
  lemma Reinterpretation(v: u64, n: i64)
    ensures ToUint64(ToInt64(v)) == v && ToInt64(ToUint64(n)) == n
    ensures ToInt64(v) == v <==> v < TWO63
  {
  }

  // One table row, keyed by id; the two timestamps are not part of this model.
  datatype Columns = Columns(
    name: string, port: int, tlsDomain: string, adTag: string, secret: string, apiToken: string,
    containerId: Option<Cid>, state: State, message: string,
    quota: Option<i64>, expiration: Option<string>, maxConns: Option<i64>, maxIps: Option<i64>)

  function NullU64(v: Option<u64>): Option<i64> {
    match v case None => None case Some(n) => Some(ToInt64(n))
  }

  function FromNullU64(v: Option<i64>): Option<u64> {
    match v case None => None case Some(n) => Some(ToUint64(n))
  }

  function Encode(p: Proxy): Columns {
    Columns(p.name, p.port, p.tlsDomain, p.adTag, p.secret, p.apiToken, p.containerId, p.state, p.message,
            NullU64(p.quota), p.expiration, p.maxConns, p.maxIps)
  }

  function Scan(id: Id, c: Columns): Proxy {
    Proxy(id, c.name, c.port, c.tlsDomain, c.adTag, c.secret, c.apiToken, c.containerId, c.state, c.message,
          FromNullU64(c.quota), c.expiration, c.maxConns, c.maxIps)
  }

  /** What was stored is what is read back, quotas of 2^63 bytes and more included. */
  lemma ScanInvertsEncode(p: Proxy)
    ensures Scan(p.id, Encode(p)) == p
  {
    if p.quota.Some? { Reinterpretation(p.quota.value, 0); }
  }

  function ViewOf(rows: map<Id, Columns>): Rows {
    map id | id in rows :: Scan(id, rows[id])
  }

  lemma ViewPut(rows: map<Id, Columns>, p: Proxy)
    ensures ViewOf(rows[p.id := Encode(p)]) == ViewOf(rows)[p.id := p]
  {
    ScanInvertsEncode(p);
  }

  class Table {
    var rows: map<Id, Columns>

    constructor ()
      ensures rows == map[]
    {
      rows := map[];
    }

    // The table as the service sees it.
    function View(): Rows
      reads this
    {
      ViewOf(rows)
    }

    // The UNIQUE constraint on the port column.
    method PortClash(port: int, except: Id) returns (clash: bool)
      ensures clash <==> PortHeld(View(), port, except)
    {
      clash := exists i | i in rows :: i != except && rows[i].port == port;
      if clash {
        var i :| i in rows && i != except && rows[i].port == port;
        assert View()[i].port == port;
      } else {
        assert forall i :: i in View() ==> View()[i].port == rows[i].port;
      }
    }

    // `down` is any database failure, a cancelled context included.
    method CreateProxy(p: Proxy, down: bool) returns (err: Option<Fault>)
      modifies this
      ensures down ==> err == Some(StoreFailed)
      ensures !down ==> err == if PortHeld(old(View()), p.port, p.id) then Some(PortTaken)
                               else if p.id in old(View()) then Some(StoreFailed) else None
      ensures View() == if err.None? then old(View())[p.id := p] else old(View())
    {
      if down { return Some(StoreFailed); }
      var clash := PortClash(p.port, p.id);
      if clash { return Some(PortTaken); }
      if p.id in rows { return Some(StoreFailed); }
      ViewPut(rows, p);
      rows := rows[p.id := Encode(p)];
      err := None;
    }

    method GetProxy(id: Id, down: bool) returns (r: Result<Proxy, Fault>)
      ensures r ==
        if down then Failure(StoreFailed) else if id in View() then Success(View()[id]) else Failure(NotFound)
    {
      if down { return Failure(StoreFailed); }
      if id !in rows { return Failure(NotFound); }
      r := Success(Scan(id, rows[id]));
    }

    method UpdateProxy(p: Proxy, down: bool) returns (err: Option<Fault>)
      modifies this
      ensures down ==> err == Some(StoreFailed)
      ensures !down ==> err == if p.id !in old(View()) then Some(NotFound)
                               else if PortHeld(old(View()), p.port, p.id) then Some(PortTaken) else None
      ensures View() == if err.None? then old(View())[p.id := p] else old(View())
    {
      if down { return Some(StoreFailed); }
      if p.id !in rows { return Some(NotFound); }
      var clash := PortClash(p.port, p.id);
      if clash { return Some(PortTaken); }
      ViewPut(rows, p);
      rows := rows[p.id := Encode(p)];
      err := None;
    }

    method DeleteProxy(id: Id, down: bool) returns (err: Option<Fault>)
      modifies this
      ensures down ==> err == Some(StoreFailed)
      ensures !down ==> err == if id in old(View()) then None else Some(NotFound)
      ensures View() == if err.None? then old(View()) - {id} else old(View())
    {
      if down { return Some(StoreFailed); }
      if id !in rows { return Some(NotFound); }
      rows := rows - {id};
      err := None;
    }

    // SELECT ... ORDER BY port: every row once, by increasing port.
    method ListProxies(down: bool) returns (r: Result<seq<Proxy>, Fault>)
      ensures down <==> r.Failure?
      ensures r.Failure? ==> r.error == StoreFailed
      ensures r.Success? ==> Lists(r.value, View())
    {
      if down { return Failure(StoreFailed); }
      var out: seq<Proxy> := [];
      var rest := rows.Keys;
      while rest != {}
        invariant ListedSoFar(out, View(), rest)
        decreases rest
      {
        var id := LeastPort(rest);
        assert View()[id] == Scan(id, rows[id]) && forall i :: i in rest ==> View()[i].port == rows[i].port;
        OneMoreListed(out, View(), rest, id);
        out := out + [Scan(id, rows[id])];
        rest := rest - {id};
      }
      return Success(out);
    }

    method LeastPort(ids: set<Id>) returns (id: Id)
      requires ids != {} && ids <= rows.Keys
      ensures id in ids && forall i :: i in ids ==> rows[id].port <= rows[i].port
    {
      id :| id in ids;
      var rest := ids - {id};
      while rest != {}
        invariant id in ids && rest <= ids
        invariant forall i :: i in ids && i !in rest ==> rows[id].port <= rows[i].port
        decreases rest
      {
        var i :| i in rest;
        if rows[i].port < rows[id].port { id := i; }
        rest := rest - {i};
      }
    }
  }

  // The rows outside `rest` are listed, once each, in order, and none in `rest` belongs before them.
  ghost predicate ListedSoFar(list: seq<Proxy>, rows: Rows, rest: set<Id>) {
    && rest <= rows.Keys
    && (forall k :: 0 <= k < |list| ==> list[k].id in rows && list[k].id !in rest && list[k] == rows[list[k].id])
    && (forall j, k :: 0 <= j < k < |list| ==> list[j].id != list[k].id && list[j].port <= list[k].port)
    && (forall i :: i in rows && i !in rest ==> exists k :: 0 <= k < |list| && list[k].id == i)
    && (forall k, i :: 0 <= k < |list| && i in rest ==> list[k].port <= rows[i].port)
  }

  lemma OneMoreListed(list: seq<Proxy>, rows: Rows, rest: set<Id>, id: Id)
    requires ListedSoFar(list, rows, rest) && id in rest && rows[id].id == id
    requires forall i :: i in rest ==> rows[id].port <= rows[i].port
    ensures ListedSoFar(list + [rows[id]], rows, rest - {id})
  {
    var list' := list + [rows[id]];
    forall i | i in rows && i !in rest - {id} ensures exists k :: 0 <= k < |list'| && list'[k].id == i {
      if i == id { assert list'[|list|].id == i; }
      else { var k :| 0 <= k < |list| && list[k].id == i; assert list'[k].id == i; }
    }
  }

  // A listing: each row exactly once, ordered by port.
  ghost predicate Lists(list: seq<Proxy>, rows: Rows) {
    && (forall k :: 0 <= k < |list| ==> list[k].id in rows && list[k] == rows[list[k].id])
    && (forall j, k :: 0 <= j < k < |list| ==> list[j].id != list[k].id && list[j].port <= list[k].port)
    && (forall i :: i in rows ==> exists k :: 0 <= k < |list| && list[k].id == i)
  }
}
