/** Scopes and the keyed scope collection that sessions and access tokens keep.
    An entity stores its scopes in an array keyed by scope id, in the order they
    were first associated; associating a scope whose id is already present keeps
    the scope stored first. The collection is modelled as the sequence of stored
    scopes, whose ids are then pairwise distinct. */
module Scopes {

  datatype Scope = Scope(id: string, description: string)

  /** Some scope in `xs` carries the id `id`. */
  predicate HasId(xs: seq<Scope>, id: string) {
    exists i :: 0 <= i < |xs| && xs[i].id == id
  }

  /** No two scopes in `xs` share an id: `xs` is a valid keyed collection. */
  predicate UniqueIds(xs: seq<Scope>) {
    forall i, j :: 0 <= i < j < |xs| ==> xs[i].id != xs[j].id
  }

  /** `associateScope($scope)`: store `s` under its id unless that id is already stored. */
  function Associate(xs: seq<Scope>, s: Scope): (r: seq<Scope>)
    ensures HasId(r, s.id)
    ensures forall id :: HasId(r, id) <==> HasId(xs, id) || id == s.id
    ensures UniqueIds(xs) ==> UniqueIds(r)
    ensures |xs| <= |r| && r[..|xs|] == xs
    ensures forall x :: x in r ==> x in xs || x == s
  {
    if HasId(xs, s.id) then xs
    else
      assert (xs + [s])[|xs|].id == s.id;
      xs + [s]
  }

  /** The collection obtained by associating the scopes of `ys` one after another,
      starting from an empty collection. */
  function Collect(ys: seq<Scope>): (r: seq<Scope>)
    ensures UniqueIds(r)
    ensures forall id :: HasId(r, id) <==> HasId(ys, id)
    ensures forall x :: x in r ==> x in ys
    ensures |r| <= |ys|
  {
    if ys == [] then []
    else
      var init, last := ys[..|ys| - 1], ys[|ys| - 1];
      assert ys == init + [last];
      var r := Associate(Collect(init), last);
      assert forall id :: HasId(ys, id) <==> HasId(init, id) || id == last.id by {
        forall id ensures HasId(ys, id) <==> HasId(init, id) || id == last.id {
          if HasId(ys, id) {
            var i :| 0 <= i < |ys| && ys[i].id == id;
            if i < |init| { assert init[i].id == id; }
          }
          if HasId(init, id) {
            var i :| 0 <= i < |init| && init[i].id == id;
            assert ys[i].id == id;
          }
          if id == last.id { assert ys[|ys| - 1].id == id; }
        }
      }
      r
  }

  /** Associating scopes whose ids are pairwise distinct stores exactly those scopes,
      in the order given; in particular, associating the scopes of a collection one by
      one into an empty one rebuilds exactly that collection. */
  lemma {:induction false} CollectOfUnique(ys: seq<Scope>)
    requires UniqueIds(ys)
    ensures Collect(ys) == ys
  {
    if ys != [] {
      var init, last := ys[..|ys| - 1], ys[|ys| - 1];
      assert UniqueIds(init) by {
        forall i, j | 0 <= i < j < |init| ensures init[i].id != init[j].id {
          assert init[i] == ys[i] && init[j] == ys[j];
        }
      }
      CollectOfUnique(init);
      assert !HasId(init, last.id) by {
        forall i | 0 <= i < |init| ensures init[i].id != last.id {
          assert init[i] == ys[i];
        }
      }
      assert ys == init + [last];
    }
  }

  /** Copying a collection into a fresh one, scope by scope, yields the same collection:
      `Collect` is idempotent. */
  lemma CollectIdempotent(ys: seq<Scope>)
    ensures Collect(Collect(ys)) == Collect(ys)
  {
    CollectOfUnique(Collect(ys));
  }
}
