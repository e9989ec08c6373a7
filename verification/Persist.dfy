/**
 Persistence of the cache: SaveToFile's snapshot and loadFromFile's reading of it, with the file
 itself taken as returning the sequence that was written.
*/
module Persist {
  import opened Wrappers
  import opened CacheSpec

  datatype Saved = Saved(key: string, packed: Packed, expireAt: int, hits: nat)

  /** The entries not yet expired at now, in list order. */
  function Save(lines: seq<Line>, now: int): seq<Saved> {
    if lines == [] then []
    else if now > lines[0].expireAt then Save(lines[1..], now)
    else [Saved(lines[0].key, lines[0].packed, lines[0].expireAt, lines[0].hits)] + Save(lines[1..], now)
  }

  function Restored(p: Saved): Line {
    Line(p.key, p.packed, p.expireAt, p.hits, false)
  }

  function Load(saved: seq<Saved>, now: int): seq<Line> {
    if saved == [] then []
    else if now > saved[0].expireAt then Load(saved[1..], now)
    else [Restored(saved[0])] + Load(saved[1..], now)
  }

  /** The entries unexpired at now, no longer marked as prefetched. */
  ghost function Survivors(lines: seq<Line>, now: int): seq<Line> {
    if lines == [] then []
    else if lines[0].expireAt < now then Survivors(lines[1..], now)
    else [lines[0].(fromPrefetch := false)] + Survivors(lines[1..], now)
  }

  /** Saving at t and loading at t' gives back exactly the entries still unexpired at t'. */
  lemma {:induction false} RoundTrip(lines: seq<Line>, t: int, t': int)
    requires t <= t'
    ensures Load(Save(lines, t), t') == Survivors(lines, t')
  {
    if lines != [] {
      RoundTrip(lines[1..], t, t');
      if t <= lines[0].expireAt {
        assert Save(lines, t)[1..] == Save(lines[1..], t);
      }
    }
  }

  /** What a restarted cache holds under a key, and that its keys are still distinct. */
  lemma {:induction false} SurvivorsByKey(lines: seq<Line>, now: int, k: string)
    requires Distinct(lines)
    ensures Distinct(Survivors(lines, now)) && |Survivors(lines, now)| <= |lines|
    ensures Find(Survivors(lines, now), k) ==
            match Find(lines, k)
            case Some(e) => if e.expireAt < now then None else Some(e.(fromPrefetch := false))
            case None => None
  {
    if lines != [] {
      SurvivorsByKey(lines[1..], now, lines[0].key);
      SurvivorsByKey(lines[1..], now, k);
      if lines[0].expireAt >= now {
        assert Survivors(lines, now)[1..] == Survivors(lines[1..], now);
      }
    }
  }

  /** Which entries survive does not depend on restarting once or twice. */
  lemma {:induction false} RestartTwice(lines: seq<Line>, t: int, t': int)
    requires t <= t'
    ensures Survivors(Survivors(lines, t), t') == Survivors(lines, t')
  {
    if lines != [] {
      RestartTwice(lines[1..], t, t');
      if lines[0].expireAt >= t {
        assert Survivors(lines, t)[1..] == Survivors(lines[1..], t);
      }
    }
  }

  /** A file that lists a key twice loads both entries. */
  lemma RepeatedKeyLoadsTwice(p: Saved, now: int)
    requires now <= p.expireAt
    ensures Load([p, p], now) == [Restored(p), Restored(p)] && !Distinct(Load([p, p], now))
  {
    assert [p, p][1..] == [p] && [p][1..] == [];
    assert Load([p], now) == [Restored(p)];
    assert [Restored(p), Restored(p)][1..] == [Restored(p)];
  }

  // ---------- snapshots in pieces, for the loops ----------

  lemma {:induction false} SaveMore(lines: seq<Line>, x: Line, now: int)
    ensures Save(lines + [x], now) == Save(lines, now)
                                      + if now > x.expireAt then [] else [Saved(x.key, x.packed, x.expireAt, x.hits)]
  {
    if lines != [] {
      SaveMore(lines[1..], x, now);
      assert (lines + [x])[1..] == lines[1..] + [x];
    } else {
      assert [x][1..] == [];
    }
  }

  lemma {:induction false} LoadMore(saved: seq<Saved>, p: Saved, now: int)
    ensures Load(saved + [p], now) == Load(saved, now) + if now > p.expireAt then [] else [Restored(p)]
  {
    if saved != [] {
      LoadMore(saved[1..], p, now);
      assert (saved + [p])[1..] == saved[1..] + [p];
    } else {
      assert [p][1..] == [];
    }
  }
}
