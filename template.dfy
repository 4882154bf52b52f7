/**
  A JavaScript template literal evaluates to its literal strings with the
  substituted values spliced in between: strs[0] + subs[0] + strs[1] + ... +
  subs[n - 1] + strs[n].
 */
module Template {

  function Interpolate(strs: seq<string>, subs: seq<string>): string
    requires |strs| == |subs| + 1
    decreases |subs|
  {
    if subs == [] then strs[0] else strs[0] + subs[0] + Interpolate(strs[1..], subs[1..])
  }

  /** Each substitution sits, verbatim, between the text the template gives
      before it and the text it gives after it. */
  lemma {:induction false} InterpolateSplit(strs: seq<string>, subs: seq<string>, k: nat)
    requires |strs| == |subs| + 1 && k < |subs|
    ensures Interpolate(strs, subs) ==
      Interpolate(strs[..k + 1], subs[..k]) + subs[k] + Interpolate(strs[k + 1..], subs[k + 1..])
    decreases k
  {
    if k == 0 {
      assert strs[..1] == [strs[0]];
      assert subs[..0] == [];
    } else {
      InterpolateSplit(strs[1..], subs[1..], k - 1);
      assert strs[1..][..k] == strs[..k + 1][1..];
      assert subs[1..][..k - 1] == subs[..k][1..];
      assert strs[1..][k..] == strs[k + 1..];
      assert subs[1..][k..] == subs[k + 1..];
    }
  }

  lemma InterpolateCons(strs: seq<string>, subs: seq<string>)
    requires |strs| == |subs| + 1 && |subs| > 0
    ensures Interpolate(strs, subs) == strs[0] + subs[0] + Interpolate(strs[1..], subs[1..])
  {
  }

  lemma Reassociate(a0: string, b0: string, a1: string, b1: string, a2: string, b2: string, a3: string, b3: string, rest: string)
    ensures a0 + b0 + (a1 + b1 + (a2 + b2 + (a3 + b3 + rest))) == a0 + b0 + a1 + b1 + a2 + b2 + a3 + b3 + rest
  {
  }

  /** A template with at least four substitutions, the first four written out. */
  lemma InterpolateFirstFour(strs: seq<string>, subs: seq<string>)
    requires |strs| == |subs| + 1 && |subs| >= 4
    ensures Interpolate(strs, subs) ==
      strs[0] + subs[0] + strs[1] + subs[1] + strs[2] + subs[2] + strs[3] + subs[3] + Interpolate(strs[4..], subs[4..])
  {
    var s1, u1 := strs[1..], subs[1..];
    var s2, u2 := s1[1..], u1[1..];
    var s3, u3 := s2[1..], u2[1..];
    var s4, u4 := s3[1..], u3[1..];
    InterpolateCons(strs, subs);
    InterpolateCons(s1, u1);
    InterpolateCons(s2, u2);
    InterpolateCons(s3, u3);
    assert s1[0] == strs[1] && s2[0] == strs[2] && s3[0] == strs[3];
    assert u1[0] == subs[1] && u2[0] == subs[2] && u3[0] == subs[3];
    assert s4 == strs[4..] && u4 == subs[4..];
    Reassociate(strs[0], subs[0], strs[1], subs[1], strs[2], subs[2], strs[3], subs[3], Interpolate(s4, u4));
  }
}
