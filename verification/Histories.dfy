/** A history is a run with every intermediate state: each of them is a place to crash. */
module Histories {
  import opened Entities
  import opened Machine

  datatype History = History(states: seq<(Proc, World)>, choices: seq<Choice>)

  ghost predicate Genuine(cfg: Settings, h: History) {
    && |h.states| == |h.choices| + 1
    && (forall k {:trigger h.choices[k]} :: 0 <= k < |h.choices| ==>
          Step(cfg, h.states[k].0, h.states[k].1, h.choices[k]) == h.states[k + 1])
  }

  function First(h: History): (Proc, World)
    requires h.states != []
  {
    h.states[0]
  }

  function Last(h: History): (Proc, World)
    requires h.states != []
  {
    h.states[|h.states| - 1]
  }

  function Started(pr: Proc, w: World): History { History([(pr, w)], []) }

  function Extended(cfg: Settings, h: History, c: Choice): History
    requires h.states != []
  {
    History(h.states + [Step(cfg, Last(h).0, Last(h).1, c)], h.choices + [c])
  }

  // One step on its own.
  function Single(pr: Proc, w: World, c: Choice, pr': Proc, w': World): History { History([(pr, w), (pr', w')], [c]) }

  lemma SingleIsGenuine(cfg: Settings, pr: Proc, w: World, c: Choice, pr': Proc, w': World)
    requires Step(cfg, pr, w, c) == (pr', w')
    ensures Genuine(cfg, Single(pr, w, c, pr', w'))
  {
  }

  lemma SingleIsStep(cfg: Settings, pr: Proc, w: World, c: Choice, pr': Proc, w': World)
    requires Genuine(cfg, Single(pr, w, c, pr', w'))
    ensures Step(cfg, pr, w, c) == (pr', w')
  {
    var h := Single(pr, w, c, pr', w');
    assert h.choices[0] == c && h.states[0] == (pr, w) && h.states[0 + 1] == (pr', w');
  }

  lemma ExtendedIsGenuine(cfg: Settings, h: History, c: Choice)
    requires Genuine(cfg, h)
    ensures Genuine(cfg, Extended(cfg, h, c)) && First(Extended(cfg, h, c)) == First(h)
    ensures Last(Extended(cfg, h, c)) == Step(cfg, Last(h).0, Last(h).1, c)
  {
    var h' := Extended(cfg, h, c);
    forall k | 0 <= k < |h'.choices|
      ensures Step(cfg, h'.states[k].0, h'.states[k].1, h'.choices[k]) == h'.states[k + 1]
    {
      if k < |h.choices| { assert h.choices[k] == h'.choices[k]; }
    }
  }

  /** A genuine history is a run of the operation, and so is each of its prefixes. */
  lemma {:induction false} GenuineIsRun(cfg: Settings, h: History, k: nat)
    requires Genuine(cfg, h) && k <= |h.choices|
    ensures Run(cfg, First(h).0, First(h).1, h.choices[..k]) == h.states[k]
  {
    if k > 0 {
      GenuineIsRun(cfg, h, k - 1);
      assert h.choices[..k][..k - 1] == h.choices[..k - 1] && h.choices[..k][k - 1] == h.choices[k - 1];
    }
  }
}
