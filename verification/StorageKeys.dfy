/** Object-storage keys of task artifacts: one key per task and attempt (apps/worker/src/managed-task-worker.ts). */
module StorageKeys {

  predicate NoSlash(s: string) {
    '/' !in s
  }

  function Decimal(n: nat): (s: string)
    ensures s != [] && forall c :: c in s ==> '0' <= c <= '9'
  {
    var d := ('0' as int + n % 10) as char;
    if n < 10 then [d] else Decimal(n / 10) + [d]
  }

  function Value(s: string): int {
    if s == [] then 0 else 10 * Value(s[..|s| - 1]) + (s[|s| - 1] as int - '0' as int)
  }

  lemma {:induction false} DecimalIsReadable(n: nat)
    ensures Value(Decimal(n)) == n
  {
    if n >= 10 {
      DecimalIsReadable(n / 10);
      assert Decimal(n)[..|Decimal(n)| - 1] == Decimal(n / 10);
    }
  }

  function ArtifactId(task: string): string
    requires 4 <= |task|
  {
    "art_" + task[4..]
  }

  function StorageKey(tenant: string, task: string, attempt: nat, tag: string): string
    requires 4 <= |task|
  {
    "v1/" + (tenant + "/" + (task + "/" + (ArtifactId(task) + ("/a" + (Decimal(attempt) + "-" + tag)))))
  }

  /** A separator that occurs in neither left part splits a concatenation in only one way. */
  lemma SplitOnce(a: string, x: string, b: string, y: string, sep: string)
    requires |sep| == 1 && sep[0] !in a && sep[0] !in b
    requires a + sep + x == b + sep + y
    ensures a == b && x == y
  {
    var l, r := a + sep + x, b + sep + y;
    assert l[|a|] == sep[0] && r[|b|] == sep[0];
    assert forall i :: 0 <= i < |a| ==> l[i] == a[i];
    assert forall i :: 0 <= i < |b| ==> r[i] == b[i];
    assert |a| == |b|;
    assert a == l[..|a|] && b == r[..|b|];
    assert x == l[|a| + 1..] && y == r[|b| + 1..];
  }

  lemma SamePrefix(p: string, x: string, y: string)
    requires p + x == p + y
    ensures x == y
  {
    assert x == (p + x)[|p|..] && y == (p + y)[|p|..];
  }

  /** Attempts of any two tasks that share a key are the same attempt of the same task. */
  lemma KeysAreInjective(n1: string, t1: string, a1: nat, g1: string, n2: string, t2: string, a2: nat, g2: string)
    requires 4 <= |t1| && 4 <= |t2|
    requires NoSlash(n1) && NoSlash(t1) && NoSlash(n2) && NoSlash(t2)
    requires StorageKey(n1, t1, a1, g1) == StorageKey(n2, t2, a2, g2)
    ensures n1 == n2 && t1 == t2 && a1 == a2
  {
    var e1, e2 := Decimal(a1) + "-" + g1, Decimal(a2) + "-" + g2;
    var r1, r2 := ArtifactId(t1) + ("/a" + e1), ArtifactId(t2) + ("/a" + e2);
    SamePrefix("v1/", n1 + "/" + (t1 + "/" + r1), n2 + "/" + (t2 + "/" + r2));
    SplitOnce(n1, t1 + "/" + r1, n2, t2 + "/" + r2, "/");
    SplitOnce(t1, r1, t2, r2, "/");
    SamePrefix(ArtifactId(t1), "/a" + e1, "/a" + e2);
    SamePrefix("/a", e1, e2);
    SplitOnce(Decimal(a1), g1, Decimal(a2), g2, "-");
    DecimalIsReadable(a1);
    DecimalIsReadable(a2);
  }
}
