/** The names built from ids, and why no two tasks share one. */
module TaskNames {
  import opened Prelude

  /** Names the image of a task and separates the output of its steps. */
  function BuildTaskIdentifier(taskId: nat): string {
    "prescott_" + Decimal(taskId)
  }

  function BuildTaskUniqueName(groupId: nat, name: string): string {
    Decimal(groupId) + "_" + name
  }

  /** An image name ends in the id of its task. */
  lemma {:induction false} IdentifierTellsTask(taskId: nat)
    ensures var id := BuildTaskIdentifier(taskId); |id| > 9 && id[..9] == "prescott_" && id[9..] == Decimal(taskId)
    ensures NumberOf(BuildTaskIdentifier(taskId)[9..]) == taskId
  {
    DecimalReads(taskId);
    assert BuildTaskIdentifier(taskId)[9..] == Decimal(taskId);
  }

  lemma {:induction false} UniqueNameInjective(g: nat, a: string, h: nat, b: string)
    requires BuildTaskUniqueName(g, a) == BuildTaskUniqueName(h, b)
    ensures g == h && a == b
  {
    var s, m, n := BuildTaskUniqueName(g, a), |Decimal(g)|, |Decimal(h)|;
    assert s[m] == '_' && s[n] == '_';
    assert forall i :: 0 <= i < m ==> s[i] == Decimal(g)[i];
    assert forall i :: 0 <= i < n ==> s[i] == Decimal(h)[i];
    assert m == n;
    assert s[..m] == Decimal(g) && s[..n] == Decimal(h);
    assert s[m + 1..] == a && s[n + 1..] == b;
    DecimalInjective(g, h);
  }

  lemma {:induction false} IdentifierInjective(t: nat, u: nat)
    requires BuildTaskIdentifier(t) == BuildTaskIdentifier(u)
    ensures t == u
  {
    assert BuildTaskIdentifier(t)[9..] == Decimal(t) && BuildTaskIdentifier(u)[9..] == Decimal(u);
    DecimalInjective(t, u);
  }
}
