/** The three operations Mongoose offers on an array of subdocuments that
    the controllers use: `array.id(x)` (first entry with that `_id`),
    `subdoc.remove()` (pull every entry with that `_id`) and `push`. */
module Subdocs {

  import opened Wrappers
  import opened Records

  predicate HasId<T>(xs: seq<Entry<T>>, id: Id) {
    exists i :: 0 <= i < |xs| && xs[i].id == id
  }

  /** No two entries share an `_id`, as freshly generated ObjectIds ensure. */
  predicate UniqueIds<T>(xs: seq<Entry<T>>) {
    forall i, j :: 0 <= i < j < |xs| ==> xs[i].id != xs[j].id
  }

  /** `array.id(id)`: the position of the first entry carrying `id`. */
  function FindIndex<T>(xs: seq<Entry<T>>, id: Id): (r: Option<nat>)
    ensures r.Some? ==> r.value < |xs| && xs[r.value].id == id
    ensures r.Some? ==> forall j :: 0 <= j < r.value ==> xs[j].id != id
    ensures r.None? <==> !HasId(xs, id)
  {
    if |xs| == 0 then None
    else if xs[0].id == id then Some(0)
    else
      var r := FindIndex(xs[1..], id);
      assert HasId(xs, id) ==> HasId(xs[1..], id) by {
        if HasId(xs, id) {
          var i :| 0 <= i < |xs| && xs[i].id == id;
          assert xs[1..][i - 1] == xs[i];
        }
      }
      if r.None? then None else Some(r.value + 1)
  }

  /** Pulling by `_id`: every entry with `id` goes, the rest keep their order. */
  function Pull<T>(xs: seq<Entry<T>>, id: Id): (r: seq<Entry<T>>)
    ensures |r| <= |xs|
  {
    if |xs| == 0 then []
    else if xs[0].id == id then Pull(xs[1..], id)
    else [xs[0]] + Pull(xs[1..], id)
  }

  /** Pulling keeps exactly the entries with another id, and removes at
      least one entry iff one carries `id`. */
  lemma PullContents<T(!new)>(xs: seq<Entry<T>>, id: Id)
    ensures forall e :: e in Pull(xs, id) <==> e in xs && e.id != id
    ensures !HasId(xs, id) ==> Pull(xs, id) == xs
    ensures HasId(xs, id) ==> |Pull(xs, id)| < |xs|
  {
    PullMembers(xs, id);
    PullSize(xs, id);
  }

  lemma {:induction false} PullMembers<T(!new)>(xs: seq<Entry<T>>, id: Id)
    ensures forall e :: e in Pull(xs, id) <==> e in xs && e.id != id
  {
    if |xs| > 0 {
      PullMembers(xs[1..], id);
      forall e ensures e in xs <==> e == xs[0] || e in xs[1..] {
        assert xs == [xs[0]] + xs[1..];
      }
    }
  }

  lemma {:induction false} PullSize<T>(xs: seq<Entry<T>>, id: Id)
    ensures !HasId(xs, id) ==> Pull(xs, id) == xs
    ensures HasId(xs, id) ==> |Pull(xs, id)| < |xs|
  {
    if |xs| > 0 {
      PullSize(xs[1..], id);
      if xs[0].id != id {
        assert HasId(xs, id) <==> HasId(xs[1..], id) by {
          if HasId(xs, id) {
            var i :| 0 <= i < |xs| && xs[i].id == id;
            assert xs[1..][i - 1] == xs[i];
          }
          if HasId(xs[1..], id) {
            var i :| 0 <= i < |xs[1..]| && xs[1..][i].id == id;
            assert xs[i + 1] == xs[1..][i];
          }
        }
        assert xs == [xs[0]] + xs[1..];
      }
    }
  }

  /** With unique ids, pulling the id found at `i` removes exactly that one
      entry and closes the gap. */
  lemma {:induction false} PullUnique<T(!new)>(xs: seq<Entry<T>>, i: nat)
    requires UniqueIds(xs) && i < |xs|
    ensures Pull(xs, xs[i].id) == xs[..i] + xs[i + 1..]
  {
    var id := xs[i].id;
    if i == 0 {
      UniqueTail(xs);
      PullFirst(xs);
    } else {
      var rest := Pull(xs[1..], id);
      assert rest == xs[1..i] + xs[i + 1..] by {
        UniqueTail(xs);
        assert xs[1..][i - 1] == xs[i];
        PullUnique(xs[1..], i - 1);
        assert xs[1..][..i - 1] == xs[1..i];
        assert xs[1..][i..] == xs[i + 1..];
      }
      assert Pull(xs, id) == [xs[0]] + rest by {
        assert xs[0].id != id;
      }
      assert xs[..i] == [xs[0]] + xs[1..i];
    }
  }

  /** With unique ids, pulling the first entry's id leaves the rest. */
  lemma PullFirst<T(!new)>(xs: seq<Entry<T>>)
    requires UniqueIds(xs) && |xs| > 0
    ensures Pull(xs, xs[0].id) == xs[1..]
  {
    assert !HasId(xs[1..], xs[0].id) by {
      forall j | 0 <= j < |xs[1..]| ensures xs[1..][j].id != xs[0].id {
        assert xs[1..][j] == xs[j + 1];
      }
    }
    PullContents(xs[1..], xs[0].id);
  }

  /** Dropping the first entry keeps the ids unique. */
  lemma UniqueTail<T>(xs: seq<Entry<T>>)
    requires UniqueIds(xs) && |xs| > 0
    ensures UniqueIds(xs[1..])
  {
    forall a, b | 0 <= a < b < |xs[1..]| ensures xs[1..][a].id != xs[1..][b].id {
      assert xs[1..][a] == xs[a + 1] && xs[1..][b] == xs[b + 1];
    }
  }

  lemma PullIfUnique<T(!new)>(xs: seq<Entry<T>>, i: nat)
    requires i < |xs|
    ensures UniqueIds(xs) ==> Pull(xs, xs[i].id) == xs[..i] + xs[i + 1..]
  {
    if UniqueIds(xs) {
      PullUnique(xs, i);
    }
  }

  /** Appending an entry with a fresh id keeps the ids unique. */
  lemma AppendFreshKeepsUnique<T>(xs: seq<Entry<T>>, e: Entry<T>)
    requires UniqueIds(xs) && !HasId(xs, e.id)
    ensures UniqueIds(xs + [e])
  {
    forall i, j | 0 <= i < j < |xs + [e]| ensures (xs + [e])[i].id != (xs + [e])[j].id {
      if j == |xs| {
        assert (xs + [e])[i] == xs[i];
      }
    }
  }
}
