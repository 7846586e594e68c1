/** String helpers the stages use: `str.lower` on ASCII letters, `sep.join`,
    and splitting on one character, which undoes a join. */
module Text {

  function LowerChar(c: char): char {
    if 'A' <= c <= 'Z' then (c as int + 32) as char else c
  }

  /** `str.lower`, for ASCII letters. */
  function Lower(s: string): (r: string)
    ensures |r| == |s|
    ensures forall i :: 0 <= i < |s| ==> r[i] == LowerChar(s[i])
    ensures forall i :: 0 <= i < |s| ==> !('A' <= r[i] <= 'Z')
  {
    if s == [] then [] else [LowerChar(s[0])] + Lower(s[1..])
  }

  /** `sep.join(parts)`. */
  function Join(sep: string, parts: seq<string>): string {
    if parts == [] then ""
    else if |parts| == 1 then parts[0]
    else parts[0] + sep + Join(sep, parts[1..])
  }

  /** The index of the first `c` in `s`, if any. */
  function Find(c: char, s: string): (r: nat)
    ensures r <= |s|
    ensures r < |s| ==> s[r] == c
    ensures forall i :: 0 <= i < r ==> s[i] != c
    ensures r == |s| <==> c !in s
  {
    if s == [] then 0
    else if s[0] == c then 0
    else
      var k := 1 + Find(c, s[1..]);
      assert forall i :: 1 <= i < |s| ==> s[i] == s[1..][i - 1];
      k
  }

  /** `s.split(c)`. */
  function Split(c: char, s: string): seq<string>
    decreases |s|
  {
    var k := Find(c, s);
    if k == |s| then [s] else [s[..k]] + Split(c, s[k + 1..])
  }

  lemma SplitAfter(c: char, a: string, rest: string)
    requires c !in a
    ensures Split(c, a + [c] + rest) == [a] + Split(c, rest)
  {
    var s := a + [c] + rest;
    assert forall i :: 0 <= i < |a| ==> s[i] == a[i];
    assert s[|a|] == c;
    assert Find(c, s) == |a|;
    assert s[..|a|] == a && s[|a| + 1..] == rest;
  }

  /** Joining parts that do not contain the separator character and splitting
      again on it gives the parts back. */
  lemma {:induction false} SplitJoin(c: char, parts: seq<string>)
    requires parts != []
    requires forall i :: 0 <= i < |parts| ==> c !in parts[i]
    ensures Split(c, Join([c], parts)) == parts
  {
    if |parts| == 1 {
      assert Find(c, parts[0]) == |parts[0]|;
    } else {
      SplitJoin(c, parts[1..]);
      SplitAfter(c, parts[0], Join([c], parts[1..]));
      assert parts == [parts[0]] + parts[1..];
    }
  }
}
