/** The array update `$pull: { tags: id }` that deleting a tag applies to
    every note: it removes each occurrence of one value from a sequence. */
module Cascade {
  import opened Http
  import opened Documents

  function Pull(tags: seq<Id>, id: Id): (r: seq<Id>)
    ensures id !in r
    ensures |r| <= |tags|
    ensures forall t :: t in r ==> t in tags
  {
    if tags == [] then []
    else if tags[0] == id then Pull(tags[1..], id)
    else [tags[0]] + Pull(tags[1..], id)
  }

  /** Pull works element by element: it distributes over concatenation. */
  lemma {:induction false} PullAppend(a: seq<Id>, b: seq<Id>, id: Id)
    ensures Pull(a + b, id) == Pull(a, id) + Pull(b, id)
  {
    if a != [] {
      assert (a + b)[0] == a[0] && (a + b)[1..] == a[1..] + b;
      PullAppend(a[1..], b, id);
    } else {
      assert a + b == b;
    }
  }

  /** After a pull, `id` no longer occurs and every other value still does. */
  lemma {:induction false} PullMembers(tags: seq<Id>, id: Id)
    ensures forall t :: t in Pull(tags, id) <==> t in tags && t != id
  {
    if tags != [] {
      PullMembers(tags[1..], id);
      assert forall t :: t in tags <==> t == tags[0] || t in tags[1..];
    }
  }

  /** A pull removes every occurrence of `id` and keeps every other occurrence. */
  lemma {:induction false} PullCounts(tags: seq<Id>, id: Id)
    ensures multiset(Pull(tags, id)) == multiset(tags)[id := 0]
  {
    if tags != [] {
      PullCounts(tags[1..], id);
      assert tags == [tags[0]] + tags[1..];
    }
  }

  /** What a pull keeps it keeps in order: the result is a subsequence of the input. */
  ghost predicate Subsequence(a: seq<Id>, b: seq<Id>)
    decreases |b|
  {
    a == [] || (b != [] && ((a[0] == b[0] && Subsequence(a[1..], b[1..])) || Subsequence(a, b[1..])))
  }

  lemma {:induction false} PullKeepsOrder(tags: seq<Id>, id: Id)
    ensures Subsequence(Pull(tags, id), tags)
  {
    if tags != [] {
      PullKeepsOrder(tags[1..], id);
      if tags[0] != id {
        assert Pull(tags, id)[1..] == Pull(tags[1..], id);
      }
    }
  }

  /** A list without `id` is left as it is. */
  lemma {:induction false} PullAbsent(tags: seq<Id>, id: Id)
    requires id !in tags
    ensures Pull(tags, id) == tags
  {
    if tags != [] {
      PullAbsent(tags[1..], id);
      assert tags == [tags[0]] + tags[1..];
    }
  }

  /** Pulling the same id a second time changes nothing. */
  lemma PullIdempotent(tags: seq<Id>, id: Id)
    ensures Pull(Pull(tags, id), id) == Pull(tags, id)
  {
    PullMembers(tags, id);
    PullAbsent(Pull(tags, id), id);
  }

  /** The effect of the bulk update on one note: only `tags` changes. */
  function PullFromNote(n: Note, id: Id): (r: Note)
    ensures r.(tags := n.tags) == n
    ensures id !in r.tags
  {
    PullMembers(n.tags, id);
    n.(tags := Pull(n.tags, id))
  }

  /** The effect of the bulk update `Note.update({}, { $pull: { tags: id } }, { multi: true })`
      on the whole collection. */
  ghost function PullFromAll(notes: map<Id, Note>, id: Id): (r: map<Id, Note>)
    ensures r.Keys == notes.Keys
    ensures forall k :: k in r ==> id !in r[k].tags
  {
    map k | k in notes :: PullFromNote(notes[k], id)
  }

  lemma PullFromAllIdempotent(notes: map<Id, Note>, id: Id)
    ensures PullFromAll(PullFromAll(notes, id), id) == PullFromAll(notes, id)
  {
    var once := PullFromAll(notes, id);
    forall k | k in once
      ensures PullFromNote(once[k], id) == once[k]
    {
      PullIdempotent(notes[k].tags, id);
    }
  }

  /** The notes whose tag list holds `id`. */
  ghost function Holding(notes: map<Id, Note>, id: Id): set<Id>
  {
    set k | k in notes && id in notes[k].tags
  }

  /** Every note outside `rest` has been pulled; the others are as they were. */
  ghost predicate PulledOutside(pulled: map<Id, Note>, notes: map<Id, Note>, id: Id, rest: set<Id>)
  {
    && pulled.Keys == notes.Keys
    && forall k :: k in pulled ==> pulled[k] == if k in rest then notes[k] else PullFromNote(notes[k], id)
  }

  /** One step of the bulk update: the note under `k` is pulled and leaves `rest`. */
  lemma PullStep(pulled: map<Id, Note>, notes: map<Id, Note>, id: Id, rest: set<Id>, k: Id)
    requires rest <= notes.Keys && k in rest
    requires PulledOutside(pulled, notes, id, rest)
    ensures PulledOutside(pulled[k := PullFromNote(notes[k], id)], notes, id, rest - {k})
    ensures Holding(notes, id) - (rest - {k}) ==
      if id in notes[k].tags then (Holding(notes, id) - rest) + {k} else Holding(notes, id) - rest
  {
  }

  lemma PulledEverywhere(pulled: map<Id, Note>, notes: map<Id, Note>, id: Id)
    requires PulledOutside(pulled, notes, id, {})
    ensures pulled == PullFromAll(notes, id)
  {
  }

  /** The bulk update done note by note: pulls `id` from every note and
      counts the notes it changed. */
  method PullFromEach(notes: map<Id, Note>, id: Id) returns (pulled: map<Id, Note>, modified: nat)
    ensures pulled == PullFromAll(notes, id)
    ensures modified == |Holding(notes, id)|
  {
    pulled := notes;
    modified := 0;
    var rest := notes.Keys;
    ghost var changed: set<Id> := {};
    while rest != {}
      invariant rest <= notes.Keys
      invariant PulledOutside(pulled, notes, id, rest)
      invariant changed == Holding(notes, id) - rest
      invariant modified == |changed|
      decreases rest
    {
      var k :| k in rest;
      PullStep(pulled, notes, id, rest, k);
      if id in notes[k].tags {
        changed := changed + {k};
        modified := modified + 1;
      }
      pulled := pulled[k := PullFromNote(notes[k], id)];
      rest := rest - {k};
    }
    PulledEverywhere(pulled, notes, id);
  }
}
