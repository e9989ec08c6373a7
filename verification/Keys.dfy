/**
 The joined string keys of the answer cache ("fqdn|TYPE") and of the resolver's in-flight
 map ("fqdn|TYPE|strategy"), and the prefix test by which FlushName picks the keys of one name.
*/
module Keys {

  predicate NoBar(s: string) {
    '|' !in s
  }

  function Join(fqdn: string, typ: string): string {
    fqdn + "|" + typ
  }

  function JoinStrategy(fqdn: string, typ: string, strategy: string): string {
    fqdn + "|" + typ + "|" + strategy
  }

  /** FlushName's test on a stored key. */
  predicate NameMatches(k: string, name: string) {
    |k| > |name| && k[..|name|] == name && k[|name|] == '|'
  }

  lemma ShorterNameDiffers(a: string, t: string, b: string, u: string)
    requires NoBar(t) && |a| < |b|
    ensures Join(a, t) != Join(b, u)
  {
    assert Join(b, u)[|b|] == '|';
    if |b| < |Join(a, t)| {
      assert Join(a, t)[|b|] == t[|b| - |a| - 1];
    }
  }

  /** Two cache keys agree exactly when name and type name agree, whatever the names contain. */
  lemma JoinInjective(a: string, t: string, b: string, u: string)
    requires NoBar(t) && NoBar(u)
    ensures Join(a, t) == Join(b, u) <==> a == b && t == u
  {
    if |a| < |b| {
      ShorterNameDiffers(a, t, b, u);
    } else if |b| < |a| {
      ShorterNameDiffers(b, u, a, t);
    } else if Join(a, t) == Join(b, u) {
      assert a == Join(a, t)[..|a|] && b == Join(b, u)[..|b|];
      assert t == Join(a, t)[|a| + 1..] && u == Join(b, u)[|b| + 1..];
    }
  }

  /** The same for coalescing keys, which end in a strategy name. */
  lemma JoinStrategyInjective(a: string, t: string, p: string, b: string, u: string, q: string)
    requires NoBar(t) && NoBar(u) && NoBar(p) && NoBar(q)
    ensures JoinStrategy(a, t, p) == JoinStrategy(b, u, q) <==> a == b && t == u && p == q
  {
    JoinInjective(Join(a, t), p, Join(b, u), q);
    JoinInjective(a, t, b, u);
  }

  /**
   Exactly which keys FlushName removes. The first alternative is the documented one; the second
   catches a longer name whose own text has a bar right after the flushed name.
  */
  lemma NameMatchesExactly(name: string, fqdn: string, typ: string)
    requires NoBar(typ)
    ensures NameMatches(Join(fqdn, typ), name) <==>
            name == fqdn || (|name| < |fqdn| && fqdn[..|name|] == name && fqdn[|name|] == '|')
  {}

  /** Flushing "a." also drops the entries of the different name "a.|b.". */
  lemma NameMatchesTooMuch()
    ensures NameMatches(Join("a.|b.", "A"), "a.") && "a." != "a.|b."
  {}

  // ---------- keys that start with a label ----------

  /** The tracker's key of an endpoint. */
  function StatsKey(path: string, endpoint: string): string {
    path + "|" + endpoint
  }

  /** The detector's key of an incident. */
  function IncidentKey(kind: string, path: string, endpoint: string): string {
    kind + "|" + path + "|" + endpoint
  }

  lemma ShorterLabelDiffers(a: string, x: string, b: string, y: string)
    requires NoBar(b) && |a| < |b|
    ensures StatsKey(a, x) != StatsKey(b, y)
  {
    assert StatsKey(a, x)[|a|] == '|';
    assert StatsKey(b, y)[|a|] == b[|a|];
  }

  /** Two endpoints share a key exactly when path and endpoint agree, whatever the endpoints contain. */
  lemma StatsKeyInjective(a: string, x: string, b: string, y: string)
    requires NoBar(a) && NoBar(b)
    ensures StatsKey(a, x) == StatsKey(b, y) <==> a == b && x == y
  {
    if |a| < |b| {
      ShorterLabelDiffers(a, x, b, y);
    } else if |b| < |a| {
      ShorterLabelDiffers(b, y, a, x);
    } else if StatsKey(a, x) == StatsKey(b, y) {
      assert a == StatsKey(a, x)[..|a|] && b == StatsKey(b, y)[..|b|];
      assert x == StatsKey(a, x)[|a| + 1..] && y == StatsKey(b, y)[|b| + 1..];
    }
  }

  /** The same for incidents, whose kinds and paths hold no bar. */
  lemma IncidentKeyInjective(k: string, a: string, x: string, l: string, b: string, y: string)
    requires NoBar(k) && NoBar(l) && NoBar(a) && NoBar(b)
    ensures IncidentKey(k, a, x) == IncidentKey(l, b, y) <==> k == l && a == b && x == y
  {
    assert IncidentKey(k, a, x) == StatsKey(k, StatsKey(a, x)) && IncidentKey(l, b, y) == StatsKey(l, StatsKey(b, y));
    StatsKeyInjective(k, StatsKey(a, x), l, StatsKey(b, y));
    StatsKeyInjective(a, x, b, y);
  }
}
