/** The second half of reading TOML: lines gathered into tables, no table or key given twice,
    and values looked up by table and key. */
module Tables {
  import opened Wrappers
  import opened Toml

  datatype Section = Section(repeats: bool, name: string, pairs: seq<(string, Value)>)

  // What comes before any header.
  const ROOT := Section(false, "", [])

  predicate HasKey(pairs: seq<(string, Value)>, key: string) { exists i :: 0 <= i < |pairs| && pairs[i].0 == key }

  // A plain header must be new; an array header may only repeat an array's.
  predicate Clashes(secs: seq<Section>, repeats: bool, name: string) {
    exists i :: 0 <= i < |secs| && secs[i].name == name && !(repeats && secs[i].repeats)
  }

  function AddLine(secs: seq<Section>, l: Line): (r: Option<seq<Section>>)
    requires secs != []
    ensures r.Some? ==> r.value != []
  {
    match l
    case Blank => Some(secs)
    case Comment(_) => Some(secs)
    case Header(name) => if Clashes(secs, false, name) then None else Some(secs + [Section(false, name, [])])
    case ArrayHeader(name) => if Clashes(secs, true, name) then None else Some(secs + [Section(true, name, [])])
    case Pair(key, value) =>
      var n := |secs| - 1;
      if HasKey(secs[n].pairs, key) then None
      else Some(secs[..n] + [secs[n].(pairs := secs[n].pairs + [(key, value)])])
  }

  function Group(secs: seq<Section>, ls: seq<Line>): Option<seq<Section>>
    requires secs != []
    decreases |ls|
  {
    if ls == [] then Some(secs)
    else match AddLine(secs, ls[0]) case None => None case Some(next) => Group(next, ls[1..])
  }

  function Find(secs: seq<Section>, name: string): Option<Section> {
    if secs == [] then None else if secs[0].name == name then Some(secs[0]) else Find(secs[1..], name)
  }

  function Lookup(pairs: seq<(string, Value)>, key: string): Option<Value> {
    if pairs == [] then None else if pairs[0].0 == key then Some(pairs[0].1) else Lookup(pairs[1..], key)
  }

  function At(secs: seq<Section>, name: string, key: string): Option<Value> {
    match Find(secs, name) case None => None case Some(sec) => Lookup(sec.pairs, key)
  }

  // ---- Writing sections ----

  function PairLines(pairs: seq<(string, Value)>): seq<Line> {
    if pairs == [] then [] else [Pair(pairs[0].0, pairs[0].1)] + PairLines(pairs[1..])
  }

  function HeaderLine(sec: Section): Line { if sec.repeats then ArrayHeader(sec.name) else Header(sec.name) }

  // Each section after a blank line.
  function Flatten(secs: seq<Section>): seq<Line> {
    if secs == [] then [] else [Blank, HeaderLine(secs[0])] + PairLines(secs[0].pairs) + Flatten(secs[1..])
  }

  predicate KeysDistinct(pairs: seq<(string, Value)>) {
    forall i, j :: 0 <= i < j < |pairs| ==> pairs[i].0 != pairs[j].0
  }

  predicate NamesDistinct(secs: seq<Section>) {
    forall i, j :: 0 <= i < j < |secs| ==> secs[i].name != secs[j].name
  }

  predicate WellKeyed(secs: seq<Section>) { forall i :: 0 <= i < |secs| ==> KeysDistinct(secs[i].pairs) }

  lemma {:induction false} PairsGroup(secs: seq<Section>, sec: Section, pairs: seq<(string, Value)>, rest: seq<Line>)
    requires KeysDistinct(sec.pairs + pairs)
    ensures Group(secs + [sec], PairLines(pairs) + rest) == Group(secs + [sec.(pairs := sec.pairs + pairs)], rest)
    decreases |pairs|
  {
    if pairs == [] {
      assert PairLines(pairs) + rest == rest && sec.pairs + pairs == sec.pairs;
    } else {
      var sec' := sec.(pairs := sec.pairs + [pairs[0]]);
      assert sec'.pairs + pairs[1..] == sec.pairs + pairs;
      var ls := PairLines(pairs) + rest;
      assert ls[1..] == PairLines(pairs[1..]) + rest;
      assert (secs + [sec])[..|secs|] == secs;
      forall i | 0 <= i < |sec.pairs| ensures sec.pairs[i].0 != pairs[0].0 {
        assert (sec.pairs + pairs)[i].0 != (sec.pairs + pairs)[|sec.pairs|].0;
      }
      assert AddLine(secs + [sec], ls[0]) == Some(secs + [sec']);
      PairsGroup(secs, sec', pairs[1..], rest);
    }
  }

  lemma HeaderGroups(secs: seq<Section>, sec: Section, rest: seq<Line>)
    requires secs != [] && forall i :: 0 <= i < |secs| ==> secs[i].name != sec.name
    ensures Group(secs, [Blank, HeaderLine(sec)] + rest) == Group(secs + [sec.(pairs := [])], rest)
  {
    var ls := [Blank, HeaderLine(sec)] + rest;
    assert ls[1..][1..] == rest;
    assert !Clashes(secs, sec.repeats, sec.name);
    assert Group(secs, ls) == Group(secs, ls[1..]);
  }

  /** Sections written out are gathered again as they were. */
  lemma {:induction false} SectionsGroup(secs: seq<Section>, more: seq<Section>, rest: seq<Line>)
    requires secs != [] && NamesDistinct(secs + more) && WellKeyed(more)
    ensures Group(secs, Flatten(more) + rest) == Group(secs + more, rest)
    decreases |more|
  {
    if more == [] {
      assert Flatten(more) + rest == rest && secs + more == secs;
    } else {
      var sec := more[0];
      var tail := Flatten(more[1..]) + rest;
      assert Flatten(more) + rest == [Blank, HeaderLine(sec)] + (PairLines(sec.pairs) + tail);
      forall i | 0 <= i < |secs| ensures secs[i].name != sec.name {
        assert (secs + more)[i].name != (secs + more)[|secs|].name;
      }
      HeaderGroups(secs, sec, PairLines(sec.pairs) + tail);
      assert [] + sec.pairs == sec.pairs;
      PairsGroup(secs, sec.(pairs := []), sec.pairs, tail);
      assert (secs + [sec]) + more[1..] == secs + more;
      SectionsGroup(secs + [sec], more[1..], rest);
    }
  }

  // ---- What grouping never undoes ----

  predicate Extends(b: seq<Section>, a: seq<Section>) {
    && a != [] && |a| <= |b| && a[..|a| - 1] == b[..|a| - 1]
    && a[|a| - 1].name == b[|a| - 1].name && a[|a| - 1].pairs <= b[|a| - 1].pairs
  }

  lemma {:induction false} GroupExtends(secs: seq<Section>, ls: seq<Line>)
    requires secs != []
    ensures var r := Group(secs, ls); r.Some? ==> Extends(r.value, secs)
    decreases |ls|
  {
    if ls != [] && AddLine(secs, ls[0]).Some? {
      GroupExtends(AddLine(secs, ls[0]).value, ls[1..]);
    }
  }

  // ---- Looking up ----

  lemma {:induction false} FindIs(secs: seq<Section>, i: nat)
    requires i < |secs| && forall j :: 0 <= j < i ==> secs[j].name != secs[i].name
    ensures Find(secs, secs[i].name) == Some(secs[i])
  {
    if i > 0 { FindIs(secs[1..], i - 1); }
  }

  lemma {:induction false} FindNone(secs: seq<Section>, name: string)
    requires forall i :: 0 <= i < |secs| ==> secs[i].name != name
    ensures Find(secs, name) == None
  {
    if secs != [] { FindNone(secs[1..], name); }
  }

  lemma {:induction false} FindAppend(a: seq<Section>, b: seq<Section>, name: string)
    requires forall i :: 0 <= i < |a| ==> a[i].name != name
    ensures Find(a + b, name) == Find(b, name)
  {
    if a == [] {
      assert a + b == b;
    } else {
      assert (a + b)[1..] == a[1..] + b;
      FindAppend(a[1..], b, name);
    }
  }

  lemma {:induction false} LookupIs(pairs: seq<(string, Value)>, i: nat)
    requires i < |pairs| && forall j :: 0 <= j < i ==> pairs[j].0 != pairs[i].0
    ensures Lookup(pairs, pairs[i].0) == Some(pairs[i].1)
  {
    if i > 0 { LookupIs(pairs[1..], i - 1); }
  }

  /** A value written is found under its table and key. */
  lemma AtIs(secs: seq<Section>, i: nat, j: nat)
    requires NamesDistinct(secs) && WellKeyed(secs) && i < |secs| && j < |secs[i].pairs|
    ensures At(secs, secs[i].name, secs[i].pairs[j].0) == Some(secs[i].pairs[j].1)
  {
    FindIs(secs, i);
    LookupIs(secs[i].pairs, j);
  }
}
