/** Text cut at its newlines. */
module Lines {
  function SplitLines(s: string): seq<string> {
    if '\n' !in s then [s]
    else var k := Newline(s); [s[..k]] + SplitLines(s[k + 1..])
  }

  function Newline(s: string): (k: nat)
    requires '\n' in s
    ensures k < |s| && s[k] == '\n' && forall i :: 0 <= i < k ==> s[i] != '\n'
  {
    if s[0] == '\n' then 0 else 1 + Newline(s[1..])
  }

  lemma SplitFirst(a: string, b: string)
    requires '\n' !in a
    ensures SplitLines(a + "\n" + b) == [a] + SplitLines(b)
  {
    var s := a + "\n" + b;
    assert s[|a|] == '\n';
    var k := Newline(s);
    assert k == |a|;
    assert s[..k] == a && s[k + 1..] == b;
  }
}
