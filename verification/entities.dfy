/**
 * Simulated bodies of the game (Moon, Gun, Bullet, Fighter), reduced to what the
 * bookkeeping in Game needs: their identity and their variant. Position, velocity,
 * mass and gravity are floating-point physics and are not modelled. Which bodies are
 * destroyed is given as a set of entities (Game keeps it), so the filters below are
 * functions of a collection and that set.
 */
module Entities {

  datatype Kind = Moon | Gun | Bullet | Fighter

  class Entity {
    const kind: Kind

    constructor (kind: Kind)
      ensures this.kind == kind
    {
      this.kind := kind;
    }
  }

  /** No entry of `s` is destroyed. */
  predicate AllLive(s: seq<Entity>, destroyed: set<Entity>) {
    forall i :: 0 <= i < |s| ==> s[i] !in destroyed
  }

  /**
   * The order-preserving filter of the live entries of `s`: the value a cleanup pass
   * must leave in a collection.
   */
  function Live(s: seq<Entity>, destroyed: set<Entity>): (r: seq<Entity>)
    ensures |r| <= |s|
  {
    if s == [] then []
    else (if s[0] in destroyed then [] else [s[0]]) + Live(s[1..], destroyed)
  }

  /**
   * The filter keeps exactly the live entries: no live entry is dropped and no
   * destroyed one survives.
   */
  lemma {:induction false} LiveMembers(s: seq<Entity>, destroyed: set<Entity>, e: Entity)
    ensures e in Live(s, destroyed) <==> e in s && e !in destroyed
  {
    if s != [] {
      LiveMembers(s[1..], destroyed, e);
    }
  }

  /** A cleaned collection holds no destroyed entry. */
  lemma {:induction false} LiveAllLive(s: seq<Entity>, destroyed: set<Entity>)
    ensures AllLive(Live(s, destroyed), destroyed)
  {
    if s != [] {
      LiveAllLive(s[1..], destroyed);
    }
  }

  /** Filtering distributes over concatenation. */
  lemma {:induction false} LiveAppend(a: seq<Entity>, b: seq<Entity>, destroyed: set<Entity>)
    ensures Live(a + b, destroyed) == Live(a, destroyed) + Live(b, destroyed)
  {
    if a == [] {
      assert a + b == b;
    } else {
      assert (a + b)[1..] == a[1..] + b;
      LiveAppend(a[1..], b, destroyed);
    }
  }

  /** A collection is its own filter exactly when none of its entries is destroyed. */
  lemma {:induction false} LiveFixpoint(s: seq<Entity>, destroyed: set<Entity>)
    ensures Live(s, destroyed) == s <==> AllLive(s, destroyed)
  {
    if s != [] {
      LiveFixpoint(s[1..], destroyed);
    }
  }

  /** Cleaning twice is cleaning once. */
  lemma {:induction false} LiveIdempotent(s: seq<Entity>, destroyed: set<Entity>)
    ensures Live(Live(s, destroyed), destroyed) == Live(s, destroyed)
  {
    LiveAllLive(s, destroyed);
    LiveFixpoint(Live(s, destroyed), destroyed);
  }

  /** Cutting one destroyed entry out of a collection does not change its live entries. */
  lemma {:induction false} RemoveDestroyedKeepsLive(s: seq<Entity>, i: nat, destroyed: set<Entity>)
    requires i < |s| && s[i] in destroyed
    ensures Live(s[..i] + s[i + 1..], destroyed) == Live(s, destroyed)
  {
    var before, after := s[..i], s[i + 1..];
    assert s == before + ([s[i]] + after);
    LiveAppend(before, [s[i]] + after, destroyed);
    assert ([s[i]] + after)[1..] == after;
    LiveAppend(before, after, destroyed);
  }
}
