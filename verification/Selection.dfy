/** Which positions of a list a loop picked, and in which order. */
module Selection {

  /** `at` lists exactly the positions below `n` that pass, in ascending order. */
  ghost predicate Selects(at: seq<nat>, n: nat, pick: nat -> bool) {
    && (forall i, j | 0 <= i < j < |at| :: at[i] < at[j])
    && (forall k: nat :: k in at <==> k < n && pick(k))
  }

  lemma NothingSelected(pick: nat -> bool)
    ensures Selects([], 0, pick)
  {
  }

  lemma OneMoreSelected(at: seq<nat>, n: nat, pick: nat -> bool) returns (more: seq<nat>)
    requires Selects(at, n, pick)
    ensures more == if pick(n) then at + [n] else at
    ensures Selects(more, n + 1, pick)
  {
    more := if pick(n) then at + [n] else at;
    forall k: nat ensures k in more <==> k < n + 1 && pick(k) {
      assert k in at <==> k < n && pick(k);
    }
    forall i, j | 0 <= i < j < |more| ensures more[i] < more[j] {
      assert more[i] in at;
    }
  }
}
