/** The two string operations of Python's standard library that the
    orchestrator relies on: `os.path.join` (POSIX flavour) and the
    substring test `sub in s`. */
module PathLib {

  /** `os.path.join(a, b)`: a component that starts with '/' replaces
      everything before it; otherwise a '/' separator is inserted unless
      `a` is empty or already ends with one. */
  function PathJoin(a: string, b: string): string
  {
    if |b| > 0 && b[0] == '/' then b
    else if a == [] || a[|a| - 1] == '/' then a + b
    else a + "/" + b
  }

  /** The joined path always ends with the last component; a relative
      component keeps the first one as a prefix, with at most one '/'
      between them. */
  lemma PathJoinShape(a: string, b: string)
    ensures var r := PathJoin(a, b);
      |r| >= |b| && r[|r| - |b|..] == b &&
      (|b| > 0 && b[0] == '/' ==> r == b) &&
      (!(|b| > 0 && b[0] == '/') ==>
         |r| >= |a| && r[..|a|] == a &&
         (r == a + b || (|r| == |a| + 1 + |b| && r[|a|] == '/')))
  {
  }

  /** `sub` occurs in `s` starting at index `i`. */
  predicate OccursAt(s: string, sub: string, i: int)
  {
    0 <= i && i + |sub| <= |s| && s[i..i + |sub|] == sub
  }

  /** Python's `sub in s` on strings. */
  function Contains(s: string, sub: string): (r: bool)
    ensures r <==> exists i :: OccursAt(s, sub, i)
    decreases |s|
  {
    if |s| < |sub| then
      false
    else if s[..|sub|] == sub then
      assert OccursAt(s, sub, 0);
      true
    else
      var rest := Contains(s[1..], sub);
      assert !OccursAt(s, sub, 0);
      assert forall i :: OccursAt(s[1..], sub, i) <==> OccursAt(s, sub, i + 1) by {
        forall i ensures OccursAt(s[1..], sub, i) <==> OccursAt(s, sub, i + 1) {
          if 0 <= i && i + |sub| <= |s| - 1 {
            assert s[1..][i..i + |sub|] == s[i + 1..i + 1 + |sub|];
          }
        }
      }
      assert (exists i :: OccursAt(s, sub, i)) ==> exists i :: OccursAt(s[1..], sub, i) by {
        if exists i :: OccursAt(s, sub, i) {
          var i :| OccursAt(s, sub, i);
          assert i != 0;
          assert OccursAt(s[1..], sub, i - 1);
        }
      }
      rest
  }
}
