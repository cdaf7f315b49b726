/** The bounded process-memory cache of Bash consent, oldest grant first. */
module BashGrants {
  import opened Wrappers

  const MAX_GRANTS: nat := 256

  type Grants<K, E> = seq<(K, E)>

  function Without<K(==), E>(g: Grants<K, E>, scope: K): Grants<K, E> {
    if g == [] then [] else if g[0].0 == scope then Without(g[1..], scope) else [g[0]] + Without(g[1..], scope)
  }

  /** allows(): whether this scope was granted under this epoch; a grant of another epoch is forgotten. */
  function Looked<K(==), E(==)>(g: Grants<K, E>, scope: K, epoch: E): (bool, Grants<K, E>) {
    if (scope, epoch) in g then (true, g) else (false, Without(g, scope))
  }

  /** remember(): newest last, and the oldest gives way. */
  function Remembered<K(==), E>(g: Grants<K, E>, scope: K, epoch: E): Grants<K, E> {
    var all := Without(g, scope) + [(scope, epoch)];
    if |all| > MAX_GRANTS then all[|all| - MAX_GRANTS..] else all
  }

  predicate OnePerScope<K(==), E>(g: Grants<K, E>) {
    && |g| <= MAX_GRANTS
    && forall i, j :: 0 <= i < j < |g| ==> g[i].0 != g[j].0
  }

  lemma {:induction false} WithoutExactly<K, E>(g: Grants<K, E>, scope: K)
    ensures |Without(g, scope)| <= |g|
    ensures forall x :: x in Without(g, scope) <==> x in g && x.0 != scope
    ensures forall i :: 0 <= i < |Without(g, scope)| ==> Without(g, scope)[i].0 != scope && Without(g, scope)[i] in g
  {
    if g != [] {
      WithoutExactly(g[1..], scope);
    }
  }

  lemma {:induction false} WithoutKeepsOne<K, E>(g: Grants<K, E>, scope: K)
    requires forall i, j :: 0 <= i < j < |g| ==> g[i].0 != g[j].0
    ensures var r := Without(g, scope); forall i, j :: 0 <= i < j < |r| ==> r[i].0 != r[j].0
  {
    if g != [] {
      WithoutKeepsOne(g[1..], scope);
      WithoutExactly(g[1..], scope);
      var rest := Without(g[1..], scope);
      if g[0].0 != scope {
        forall j | 0 <= j < |rest|
          ensures rest[j].0 != g[0].0
        {
          var k :| 0 <= k < |g[1..]| && g[1..][k] == rest[j];
          assert g[k + 1] == rest[j];
        }
      }
    }
  }

  lemma CacheStaysBounded<K, E>(g: Grants<K, E>, scope: K, epoch: E)
    requires OnePerScope(g)
    ensures OnePerScope(Looked(g, scope, epoch).1) && OnePerScope(Remembered(g, scope, epoch))
  {
    WithoutKeepsOne(g, scope);
    WithoutExactly(g, scope);
    var kept := Without(g, scope);
  }

  datatype Use<K, E> = Look(scope: K, epoch: E) | Remember(scope: K, epoch: E)

  function After<K(==), E(==)>(g: Grants<K, E>, uses: seq<Use<K, E>>): Grants<K, E>
    decreases |uses|
  {
    if uses == [] then g
    else
      var last := uses[|uses| - 1];
      var before := After(g, uses[..|uses| - 1]);
      if last.Look? then Looked(before, last.scope, last.epoch).1 else Remembered(before, last.scope, last.epoch)
  }

  /** The epoch a scope was last remembered under, unless a look under another epoch came since. */
  function Standing<K(==), E(==)>(uses: seq<Use<K, E>>, scope: K): Option<E> {
    if uses == [] then None
    else
      var last := uses[|uses| - 1];
      var before := Standing(uses[..|uses| - 1], scope);
      if last.scope != scope then before
      else if last.Remember? then Some(last.epoch)
      else if before == Some(last.epoch) then before else None
  }

  /**
   * The cache never invents consent: what it allows was remembered for that scope and epoch and not
   * displaced since.
   */
  lemma {:induction false} OnlyStandingGrants<K, E>(uses: seq<Use<K, E>>, scope: K, epoch: E)
    requires (scope, epoch) in After([], uses)
    ensures Standing(uses, scope) == Some(epoch)
  {
    if uses != [] {
      var init, last := uses[..|uses| - 1], uses[|uses| - 1];
      var before := After([], init);
      WithoutExactly(before, last.scope);
      if last == Remember(scope, epoch) {
      } else if (scope, epoch) in before {
        OnlyStandingGrants(init, scope, epoch);
        if last.scope == scope && last.Look? && last.epoch != epoch && (scope, last.epoch) in before {
          OnlyStandingGrants(init, scope, last.epoch);
        }
      }
    }
  }

  class BashGrantCache<K(==), E(==)> {
    var grants: seq<(K, E)>

    constructor ()
      ensures grants == []
    {
      grants := [];
    }

    method Forget(scope: K)
      modifies this
      ensures grants == Without(old(grants), scope)
    {
      var kept: seq<(K, E)> := [];
      for i := 0 to |grants|
        invariant grants == old(grants)
        invariant kept + Without(grants[i..], scope) == Without(grants, scope)
      {
        assert grants[i..][1..] == grants[i + 1..];
        if grants[i].0 != scope {
          kept := kept + [grants[i]];
        }
      }
      grants := kept;
    }

    method Allows(scope: K, epoch: E) returns (allowed: bool)
      modifies this
      ensures (allowed, grants) == Looked(old(grants), scope, epoch)
    {
      allowed := (scope, epoch) in grants;
      if !allowed {
        Forget(scope);
      }
    }

    method Grant(scope: K, epoch: E)
      modifies this
      ensures grants == Remembered(old(grants), scope, epoch)
      ensures (scope, epoch) in grants
    {
      Forget(scope);
      grants := grants + [(scope, epoch)];
      ghost var all := grants;
      while |grants| > MAX_GRANTS
        invariant |grants| <= |all| && grants == all[|all| - |grants|..]
        invariant |all| > MAX_GRANTS ==> |grants| >= MAX_GRANTS
        invariant |all| <= MAX_GRANTS ==> grants == all
      {
        grants := grants[1..];
      }
      assert grants[|grants| - 1] == (scope, epoch);
    }
  }
}
