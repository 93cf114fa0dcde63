/**
 * The id-keyed list operations behind the journal's trade list: replace-by-id (the update
 * handler's `map`), remove-by-id (the confirmed delete's `filter`), and the greatest date of
 * an imported list (the date the journal jumps to after an import).
 */
module Store {
  import opened Types
  import opened Strings

  /** The ids of a list, in order. */
  function IdsOf(ts: seq<Trade>): (r: seq<string>)
    ensures |r| == |ts|
    ensures forall i :: 0 <= i < |ts| ==> r[i] == ts[i].id
  {
    if ts == [] then [] else [ts[0].id] + IdsOf(ts[1..])
  }

  /** No two entries share an id. */
  predicate UniqueIds(ts: seq<Trade>) {
    forall i, j :: 0 <= i < j < |ts| ==> ts[i].id != ts[j].id
  }

  predicate HasId(ts: seq<Trade>, id: string) {
    exists i :: 0 <= i < |ts| && ts[i].id == id
  }

  /** Every entry whose id is `u.id` becomes `u`; all others stay where they are. */
  function ReplaceById(ts: seq<Trade>, u: Trade): (r: seq<Trade>)
    ensures |r| == |ts|
    ensures forall i :: 0 <= i < |ts| ==> r[i] == (if ts[i].id == u.id then u else ts[i])
  {
    if ts == [] then [] else [if ts[0].id == u.id then u else ts[0]] + ReplaceById(ts[1..], u)
  }

  /** Updating a trade whose id is not in the list changes nothing. */
  lemma {:induction false} ReplaceAbsentIsIdentity(ts: seq<Trade>, u: Trade)
    requires !HasId(ts, u.id)
    ensures ReplaceById(ts, u) == ts
  {
    var r := ReplaceById(ts, u);
    forall i | 0 <= i < |ts| ensures r[i] == ts[i] {
      assert ts[i].id != u.id;
    }
  }

  /** Replacing keeps the sequence of ids, so it keeps ids unique. */
  lemma ReplaceKeepsIds(ts: seq<Trade>, u: Trade)
    ensures IdsOf(ReplaceById(ts, u)) == IdsOf(ts)
    ensures UniqueIds(ts) ==> UniqueIds(ReplaceById(ts, u))
  {
    var r := ReplaceById(ts, u);
    assert forall i :: 0 <= i < |ts| ==> r[i].id == ts[i].id;
  }

  /** Applying the same update twice is the same as applying it once. */
  lemma ReplaceIdempotent(ts: seq<Trade>, u: Trade)
    ensures ReplaceById(ReplaceById(ts, u), u) == ReplaceById(ts, u)
  {
  }

  /** With unique ids, an update of a present id changes exactly one position. */
  lemma ReplaceUniqueHitsOne(ts: seq<Trade>, u: Trade, k: nat)
    requires UniqueIds(ts) && k < |ts| && ts[k].id == u.id
    ensures ReplaceById(ts, u) == ts[k := u]
  {
    var r := ReplaceById(ts, u);
    forall i | 0 <= i < |ts| ensures r[i] == ts[k := u][i] {
      if i != k {
        // UniqueIds is stated for ordered pairs, so name the pair in increasing order.
        if i < k {
          assert ts[i].id != ts[k].id;
        } else {
          assert ts[k].id != ts[i].id;
        }
      }
    }
  }

  /** The entries whose id is not `id`, in their original order. */
  function RemoveById(ts: seq<Trade>, id: string): (r: seq<Trade>)
    ensures |r| <= |ts|
    ensures forall t :: t in r <==> t in ts && t.id != id
  {
    if ts == [] then []
    else (if ts[0].id != id then [ts[0]] else []) + RemoveById(ts[1..], id)
  }

  /** Removal distributes over concatenation: order among the survivors is kept. */
  lemma {:induction false} RemoveConcat(a: seq<Trade>, b: seq<Trade>, id: string)
    ensures RemoveById(a + b, id) == RemoveById(a, id) + RemoveById(b, id)
  {
    if a == [] {
      assert a + b == b;
    } else {
      var ab := a + b;
      assert ab[0] == a[0];
      assert ab[1..] == a[1..] + b;
      RemoveConcat(a[1..], b, id);
      var head := if a[0].id != id then [a[0]] else [];
      var x, y := RemoveById(a[1..], id), RemoveById(b, id);
      calc {
        RemoveById(ab, id);
        head + RemoveById(a[1..] + b, id);
        head + (x + y);
        (head + x) + y;
      }
    }
  }

  /** Removing an absent id changes nothing. */
  lemma {:induction false} RemoveAbsentIsIdentity(ts: seq<Trade>, id: string)
    requires !HasId(ts, id)
    ensures RemoveById(ts, id) == ts
  {
    if ts != [] {
      assert ts[0].id != id;
      assert !HasId(ts[1..], id);
      RemoveAbsentIsIdentity(ts[1..], id);
      assert ts == [ts[0]] + ts[1..];
    }
  }

  /** Removal drops one entry for each entry carrying the id. */
  function CountId(ts: seq<Trade>, id: string): (n: nat)
    ensures n <= |ts|
  {
    if ts == [] then 0 else (if ts[0].id == id then 1 else 0) + CountId(ts[1..], id)
  }

  lemma {:induction false} RemoveLength(ts: seq<Trade>, id: string)
    ensures |RemoveById(ts, id)| == |ts| - CountId(ts, id)
  {
    if ts != [] {
      RemoveLength(ts[1..], id);
    }
  }

  /** A sublist of a list with unique ids has unique ids. */
  lemma {:induction false} RemoveKeepsUnique(ts: seq<Trade>, id: string)
    requires UniqueIds(ts)
    ensures UniqueIds(RemoveById(ts, id))
  {
    if ts != [] {
      var rest := RemoveById(ts[1..], id);
      RemoveKeepsUnique(ts[1..], id);
      if ts[0].id != id {
        forall t | t in rest ensures t.id != ts[0].id {
          var j :| 0 <= j < |ts[1..]| && ts[1..][j] == t;
          assert ts[j + 1] == t;
        }
        var r := [ts[0]] + rest;
        forall i, j | 0 <= i < j < |r| ensures r[i].id != r[j].id {
          if i == 0 {
            assert r[j] in rest;
          } else {
            assert r[i] == rest[i - 1] && r[j] == rest[j - 1];
          }
        }
      }
    }
  }

  /** Prepending a trade with a fresh id keeps ids unique. */
  lemma PrependFreshKeepsUnique(ts: seq<Trade>, t: Trade)
    requires UniqueIds(ts) && !HasId(ts, t.id)
    ensures UniqueIds([t] + ts)
  {
    var r := [t] + ts;
    forall i, j | 0 <= i < j < |r| ensures r[i].id != r[j].id {
      if i == 0 {
        assert r[j] == ts[j - 1];
      }
    }
  }

  /** The date that sorts first when the list is ordered by date, greatest first. */
  function GreatestDate(ts: seq<Trade>): (r: string)
    requires |ts| > 0
    ensures exists i :: 0 <= i < |ts| && ts[i].date == r
    ensures forall i :: 0 <= i < |ts| ==> LexLe(ts[i].date, r)
  {
    if |ts| == 1 then
      LexLeReflexive(ts[0].date);
      ts[0].date
    else
      var m := GreatestDate(ts[1..]);
      assert forall i :: 1 <= i < |ts| ==> ts[i] == ts[1..][i - 1];
      LexLeTotal(m, ts[0].date);
      if LexLe(m, ts[0].date) then
        LexLeReflexive(ts[0].date);
        assert forall i :: 1 <= i < |ts| ==> LexLe(ts[i].date, m) && LexLe(m, ts[0].date);
        GreatestDateTransitive(ts, m, ts[0].date);
        ts[0].date
      else
        m
  }

  /** Helper: every date of the tail below `m`, and `m` below `top`, puts every tail date below `top`. */
  lemma GreatestDateTransitive(ts: seq<Trade>, m: string, top: string)
    requires |ts| > 0 && LexLe(m, top) && LexLe(ts[0].date, top)
    requires forall i :: 1 <= i < |ts| ==> LexLe(ts[i].date, m)
    ensures forall i :: 0 <= i < |ts| ==> LexLe(ts[i].date, top)
  {
    forall i | 1 <= i < |ts| ensures LexLe(ts[i].date, top) {
      LexLeTransitive(ts[i].date, m, top);
    }
  }

  /** The greatest date is the only date in the list that no other date exceeds. */
  lemma GreatestDateUnique(ts: seq<Trade>, d: string)
    requires |ts| > 0
    requires exists i :: 0 <= i < |ts| && ts[i].date == d
    requires forall i :: 0 <= i < |ts| ==> LexLe(ts[i].date, d)
    ensures GreatestDate(ts) == d
  {
    var g := GreatestDate(ts);
    var i :| 0 <= i < |ts| && ts[i].date == g;
    var j :| 0 <= j < |ts| && ts[j].date == d;
    assert LexLe(ts[i].date, d) && LexLe(ts[j].date, g);
    LexLeAntisymmetric(g, d);
  }
}
