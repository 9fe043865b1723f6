/** The container runtime, in place, after the repository's in-memory one; the config
    directories; and the caller's context. */
module Runtime {
  import opened Wrappers
  import opened Entities
  import opened Machine

  class Docker {
    var ctrs: Ctrs
    var next: Cid

    constructor ()
      ensures ctrs == map[] && next == 0
    {
      ctrs, next := map[], 0;
    }

    method Create(owner: Id, port: int, down: bool) returns (r: Option<Cid>)
      modifies this
      ensures down ==> r == None && ctrs == old(ctrs) && next == old(next)
      ensures !down ==> r == Some(old(next)) && next == old(next) + 1
                        && ctrs == old(ctrs)[old(next) := Container(true, owner, port, false)]
    {
      if down { return None; }
      ctrs := ctrs[next := Container(true, owner, port, false)];
      r := Some(next);
      next := next + 1;
    }

    method Start(cid: Cid, down: bool) returns (ok: bool)
      modifies this`ctrs
      ensures ok <==> !down && cid in old(ctrs)
      ensures ctrs == if ok then old(ctrs)[cid := old(ctrs)[cid].(running := true)] else old(ctrs)
    {
      ok := !down && cid in ctrs;
      if ok { ctrs := ctrs[cid := ctrs[cid].(running := true)]; }
    }

    // `missing` is the distinct "no such container" error.
    method Remove(cid: Cid, down: bool) returns (ok: bool, missing: bool)
      modifies this`ctrs
      ensures ok <==> !down && cid in old(ctrs)
      ensures missing <==> !down && cid !in old(ctrs)
      ensures ctrs == if ok then old(ctrs) - {cid} else old(ctrs)
    {
      ok, missing := !down && cid in ctrs, !down && cid !in ctrs;
      if ok { ctrs := ctrs - {cid}; }
    }

    method Inspect(cid: Cid, down: bool) returns (ok: bool)
      ensures ok <==> !down && cid in ctrs
    {
      ok := !down && cid in ctrs;
    }

    // The containers with the panel's label, in no particular order.
    method List(down: bool) returns (r: Option<seq<(Cid, Container)>>)
      ensures r.None? <==> down
      ensures r.Some? ==> forall k :: 0 <= k < |r.value| ==>
        r.value[k].0 in ctrs && ctrs[r.value[k].0] == r.value[k].1 && r.value[k].1.managed
      ensures r.Some? ==> forall j, k :: 0 <= j < k < |r.value| ==> r.value[j].0 != r.value[k].0
      ensures r.Some? ==> forall c ::
        c in ctrs && ctrs[c].managed ==> exists k :: 0 <= k < |r.value| && r.value[k].0 == c
    {
      if down { return None; }
      var out: seq<(Cid, Container)> := [];
      var rest := ctrs.Keys;
      while rest != {}
        invariant rest <= ctrs.Keys
        invariant forall k :: 0 <= k < |out| ==>
          out[k].0 in ctrs && out[k].0 !in rest && ctrs[out[k].0] == out[k].1 && out[k].1.managed
        invariant forall j, k :: 0 <= j < k < |out| ==> out[j].0 != out[k].0
        invariant forall c :: c in ctrs && c !in rest && ctrs[c].managed ==> exists k :: 0 <= k < |out| && out[k].0 == c
        decreases rest
      {
        var c :| c in rest;
        ghost var prev := out;
        if ctrs[c].managed { out := out + [(c, ctrs[c])]; }
        rest := rest - {c};
        forall d | d in ctrs && d !in rest && ctrs[d].managed ensures exists k :: 0 <= k < |out| && out[k].0 == d {
          if d == c { assert out[|prev|].0 == d; }
          else { var k :| 0 <= k < |prev| && prev[k].0 == d; assert out[k].0 == d; }
        }
      }
      r := Some(out);
    }
  }

  class Files {
    var dirs: map<Id, Dir>

    constructor ()
      ensures dirs == map[]
    {
      dirs := map[];
    }

    method MkdirAll(id: Id, down: bool) returns (ok: bool)
      modifies this
      ensures ok <==> !down
      ensures dirs == if ok && id !in old(dirs) then old(dirs)[id := None] else old(dirs)
    {
      ok := !down;
      if ok && id !in dirs { dirs := dirs[id := None]; }
    }

    // Temp file and rename: the old file or the whole new one.
    method WriteAtomic(id: Id, body: string, down: bool) returns (ok: bool)
      modifies this
      ensures ok <==> !down
      ensures dirs == if ok then old(dirs)[id := Some(body)] else old(dirs)
    {
      ok := !down;
      if ok { dirs := dirs[id := Some(body)]; }
    }

    method RemoveAll(id: Id, down: bool) returns (ok: bool)
      modifies this
      ensures ok <==> !down
      ensures dirs == if ok then old(dirs) - {id} else old(dirs)
    {
      ok := !down;
      if ok { dirs := dirs - {id}; }
    }
  }

  class Context {
    var cancelled: bool

    // What the environment decides at the next call. Cancellation is for good.
    method Next() returns (c: Choice)
      modifies this
      ensures c.cancel == cancelled && (old(cancelled) ==> cancelled)
    {
      var d: Choice := *;
      cancelled := cancelled || d.cancel;
      c := d.(cancel := cancelled);
    }
  }
}
