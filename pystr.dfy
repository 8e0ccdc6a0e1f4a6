/** Python's `str.find`, on which two decisions of the authorization-request
    builder rest. */
module PyStr {

  /** `sub` occurs in `s` starting at index `i`. */
  predicate OccursAt(s: string, sub: string, i: int) {
    0 <= i && i + |sub| <= |s| && s[i..i + |sub|] == sub
  }

  lemma ShiftOccurs(s: string, sub: string)
    requires s != []
    ensures forall j :: 1 <= j ==> (OccursAt(s, sub, j) <==> OccursAt(s[1..], sub, j - 1))
  {
    forall j | 1 <= j
      ensures OccursAt(s, sub, j) <==> OccursAt(s[1..], sub, j - 1)
    {
      if j + |sub| <= |s| {
        assert s[1..][j - 1..j - 1 + |sub|] == s[j..j + |sub|];
      }
    }
  }

  /** `s.find(sub)`: the lowest index at which `sub` occurs in `s`, or -1 when
      it occurs nowhere. */
  function Find(s: string, sub: string): (r: int)
    ensures -1 <= r
    ensures r >= 0 ==> OccursAt(s, sub, r)
    ensures forall j :: 0 <= j && (r < 0 || j < r) ==> !OccursAt(s, sub, j)
    decreases |s|
  {
    if |s| < |sub| then -1
    else if s[..|sub|] == sub then 0
    else
      var k := Find(s[1..], sub);
      ShiftOccurs(s, sub);
      assert !OccursAt(s, sub, 0) by { assert s[0..|sub|] == s[..|sub|]; }
      if k < 0 then -1 else k + 1
  }

  /** Finding a single character is the same as asking whether it is in `s`. */
  lemma FindChar(s: string, c: char)
    ensures Find(s, [c]) < 0 <==> c !in s
  {
    var r := Find(s, [c]);
    if c in s {
      var i :| 0 <= i < |s| && s[i] == c;
      assert s[i..i + 1] == [c];
      assert OccursAt(s, [c], i);
    }
    if r >= 0 {
      assert s[r] == s[r..r + 1][0];
    }
  }

  /** `s` begins with `prefix`. */
  predicate StartsWith(s: string, prefix: string) {
    |prefix| <= |s| && s[..|prefix|] == prefix
  }

  /** `s.find(sub)` is 0 exactly when `s` begins with `sub`. */
  lemma FindIsZero(s: string, sub: string)
    ensures Find(s, sub) == 0 <==> StartsWith(s, sub)
  {
    if StartsWith(s, sub) {
      assert s[0..|sub|] == s[..|sub|];
      assert OccursAt(s, sub, 0);
    }
    if Find(s, sub) == 0 {
      assert s[0..|sub|] == s[..|sub|];
    }
  }
}
