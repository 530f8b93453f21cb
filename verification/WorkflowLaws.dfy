/** What a published template consists of, and that its path is its own. */
module WorkflowLaws {
  import opened Names
  import opened Wrappers
  import opened WorkflowRegistry

  // ------------------------------------------------------------------ what is published

  /** Life-cycle data of the caller make no difference to what is published. */
  lemma LifecycleIgnored(setup: Setup, t: Template, u: Template, now: int)
    requires t.id == u.id && t.version == u.version && t.body == u.body
    ensures setup.Fresh(t, now) == setup.Fresh(u, now) && setup.Acceptable(setup.Bare(t)) == setup.Acceptable(setup.Bare(u))
    ensures setup.Fresh(t, now) ==
      Template(t.id, t.version, t.body, Active, setup.hash(Template(t.id, t.version, t.body, Active, "", Some(now), None)), Some(now), None)
  {
  }

  /** The path of a template. */
  function PathOf(name: FileName): string { name.0 + "@" + name.1 + ".json" }

  lemma NoSeparator(s: string)
    requires ValidToken(s)
    ensures s != "" && forall i :: 0 <= i < |s| ==> s[i] != '@' && s[i] != '/' && s[i] != '\\'
  {
    forall i | 0 <= i < |s| ensures s[i] != '@' && s[i] != '/' && s[i] != '\\' { assert TokenChar(s[i]); }
  }

  /** The separator comes no earlier than the end of an id without one. */
  lemma SeparatorAt(a: string, b: string, n: nat)
    requires forall i :: 0 <= i < |a| ==> a[i] != '@'
    requires n < |a + "@" + b| && (a + "@" + b)[n] == '@'
    ensures |a| <= n
  {
  }

  lemma SplitAt(a: string, b: string)
    ensures (a + "@" + b)[|a|] == '@' && (a + "@" + b)[..|a|] == a && (a + "@" + b)[|a| + 1..] == b
  {
  }

  lemma SplitOnce(a: string, b: string, c: string, d: string)
    requires (forall i :: 0 <= i < |a| ==> a[i] != '@') && (forall i :: 0 <= i < |c| ==> c[i] != '@')
    requires a + "@" + b == c + "@" + d
    ensures a == c && b == d
  {
    SplitAt(a, b);
    SplitAt(c, d);
    SeparatorAt(a, b, |c|);
    SeparatorAt(c, d, |a|);
  }

  /** Valid ids and versions make different paths for different templates. */
  lemma PathsDiffer(one: FileName, other: FileName)
    requires ValidToken(one.0) && ValidToken(one.1) && ValidToken(other.0) && ValidToken(other.1) && PathOf(one) == PathOf(other)
    ensures one == other
  {
    NoSeparator(one.0);
    NoSeparator(other.0);
    var (b, d) := (one.1 + ".json", other.1 + ".json");
    assert PathOf(one) == one.0 + "@" + b && PathOf(other) == other.0 + "@" + d;
    SplitOnce(one.0, b, other.0, d);
    assert b[..|b| - 5] == one.1 && d[..|d| - 5] == other.1;
  }
}
