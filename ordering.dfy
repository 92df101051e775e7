/** The orders the database returns listings in (`sort({ name: 'asc' })`
    and `sort({ updatedAt: 'desc' })`), and what it means for a sequence of
    records to list a collection. */
module Ordering {
  import opened Http
  import opened Documents

  /** Ascending order on names: lexicographic by character code, a prefix first. */
  predicate NameLe(a: string, b: string)
    decreases |a|
  {
    a == [] || (b != [] && (a[0] < b[0] || (a[0] == b[0] && NameLe(a[1..], b[1..]))))
  }

  lemma {:induction false} NameLeReflexive(a: string)
    ensures NameLe(a, a)
    decreases |a|
  {
    if a != [] {
      NameLeReflexive(a[1..]);
    }
  }

  lemma {:induction false} NameLeTotal(a: string, b: string)
    ensures NameLe(a, b) || NameLe(b, a)
    decreases |a|
  {
    if a != [] && b != [] && a[0] == b[0] {
      NameLeTotal(a[1..], b[1..]);
    }
  }

  lemma {:induction false} NameLeAntisymmetric(a: string, b: string)
    requires NameLe(a, b) && NameLe(b, a)
    ensures a == b
    decreases |a|
  {
    if a != [] {
      NameLeAntisymmetric(a[1..], b[1..]);
      assert a == [a[0]] + a[1..] && b == [b[0]] + b[1..];
    }
  }

  lemma {:induction false} NameLeTransitive(a: string, b: string, c: string)
    requires NameLe(a, b) && NameLe(b, c)
    ensures NameLe(a, c)
    decreases |a|
  {
    if a != [] && a[0] == b[0] && b[0] == c[0] {
      NameLeTransitive(a[1..], b[1..], c[1..]);
    }
  }

  ghost predicate SortedByName(s: seq<Named>)
  {
    forall i, j :: 0 <= i < j < |s| ==> NameLe(s[i].name, s[j].name)
  }

  ghost predicate SortedByRecency(s: seq<Note>)
  {
    forall i, j :: 0 <= i < j < |s| ==> s[i].updatedAt >= s[j].updatedAt
  }

  /** Every stored record sits under its own `_id`. */
  ghost predicate KeyedById<T>(m: map<Id, T>, id: T -> Id)
  {
    forall k :: k in m ==> id(m[k]) == k
  }

  /** The `_id` of a folder or tag, and of a note. */
  function NamedId(d: Named): Id { d.id }

  function NoteId(n: Note): Id { n.id }

  /** The ids of the records in `s`. */
  ghost function IdsOf<T>(s: seq<T>, id: T -> Id): set<Id>
  {
    set i | 0 <= i < |s| :: id(s[i])
  }

  /** `s` holds the records of `m` under `ids`, each exactly once, and nothing else. */
  ghost predicate ListsOf<T>(s: seq<T>, m: map<Id, T>, ids: set<Id>, id: T -> Id)
  {
    && IdsOf(s, id) == ids
    && (forall i :: 0 <= i < |s| ==> id(s[i]) in m && m[id(s[i])] == s[i])
    && (forall i, j :: 0 <= i < j < |s| ==> id(s[i]) != id(s[j]))
  }

  /** `s` holds every record of `m` exactly once and nothing else. */
  ghost predicate ListsNamed(s: seq<Named>, m: map<Id, Named>)
  {
    ListsOf(s, m, m.Keys, NamedId)
  }

  ghost predicate ListsNotes(s: seq<Note>, m: map<Id, Note>)
  {
    ListsOf(s, m, m.Keys, NoteId)
  }

  /** Inserting one more record of `m`, anywhere, extends a partial listing. */
  lemma InsertExtends<T>(s: seq<T>, m: map<Id, T>, ids: set<Id>, k: Id, p: nat, id: T -> Id)
    requires ListsOf(s, m, ids, id) && KeyedById(m, id)
    requires k in m && k !in ids && p <= |s|
    ensures ListsOf(InsertAt(s, p, m[k]), m, ids + {k}, id)
  {
    var r := InsertAt(s, p, m[k]);
    assert forall i :: 0 <= i < |r| ==> r[i] == (if i < p then s[i] else if i == p then m[k] else s[i - 1]);
    forall y | y in IdsOf(s, id) ensures y in IdsOf(r, id) {
      var i :| 0 <= i < |s| && id(s[i]) == y;
      if i < p { assert id(r[i]) == y; } else { assert id(r[i + 1]) == y; }
    }
    assert id(r[p]) == k;
  }

  /** No two records of `m` share a name: the unique index on `name`. */
  ghost predicate UniqueNames(m: map<Id, Named>)
  {
    forall a, b :: a in m && b in m && m[a].name == m[b].name ==> a == b
  }

  lemma ListsNamedEmpty(s: seq<Named>, m: map<Id, Named>)
    requires ListsNamed(s, m)
    ensures s == [] <==> m == map[]
  {
    if s != [] {
      assert s[0].id in IdsOf(s, NamedId);
    }
  }

  lemma ListsNamedTail(s: seq<Named>, m: map<Id, Named>)
    requires ListsNamed(s, m) && s != []
    ensures ListsNamed(s[1..], m - {s[0].id})
  {
    var t, m' := s[1..], m - {s[0].id};
    forall i | 0 <= i < |t|
      ensures t[i].id in m' && m'[t[i].id] == t[i]
    {
      assert t[i] == s[i + 1];
    }
    forall y | y in m'.Keys
      ensures y in IdsOf(t, NamedId)
    {
      var i :| 0 <= i < |s| && s[i].id == y;
      assert t[i - 1].id == y;
    }
  }

  /** Two name-sorted listings of a collection with unique names start with the same record. */
  lemma SortedListingsStartAlike(s1: seq<Named>, s2: seq<Named>, m: map<Id, Named>)
    requires UniqueNames(m)
    requires ListsNamed(s1, m) && SortedByName(s1) && s1 != []
    requires ListsNamed(s2, m) && SortedByName(s2) && s2 != []
    ensures s1[0] == s2[0]
  {
    assert s2[0].id in IdsOf(s2, NamedId);
    var j :| 0 <= j < |s1| && s1[j].id == s2[0].id;
    assert s1[0].id in IdsOf(s1, NamedId);
    var i :| 0 <= i < |s2| && s2[i].id == s1[0].id;
    if 0 < j && 0 < i {
      NameLeAntisymmetric(s1[0].name, s2[0].name);
    }
  }

  /** Names being unique, a collection has exactly one listing in ascending
      order of name: GET /folders and GET /tags answer deterministically. */
  lemma {:induction false} SortedListingUnique(s1: seq<Named>, s2: seq<Named>, m: map<Id, Named>)
    requires UniqueNames(m)
    requires ListsNamed(s1, m) && SortedByName(s1)
    requires ListsNamed(s2, m) && SortedByName(s2)
    ensures s1 == s2
    decreases |s1|
  {
    ListsNamedEmpty(s1, m);
    ListsNamedEmpty(s2, m);
    if s1 != [] {
      SortedListingsStartAlike(s1, s2, m);
      ListsNamedTail(s1, m);
      ListsNamedTail(s2, m);
      SortedListingUnique(s1[1..], s2[1..], m - {s1[0].id});
      assert s1 == [s1[0]] + s1[1..] && s2 == [s2[0]] + s2[1..];
    }
  }

  /** Where a record named `name` goes in a name-sorted sequence: after every
      smaller name, before the first name not smaller. */
  function NamePosition(s: seq<Named>, name: string): (p: nat)
    ensures p <= |s|
    ensures forall i :: 0 <= i < p ==> !NameLe(name, s[i].name)
    ensures p < |s| ==> NameLe(name, s[p].name)
  {
    if s == [] || NameLe(name, s[0].name) then 0 else 1 + NamePosition(s[1..], name)
  }

  /** Where a note goes in a sequence sorted newest first: after every note
      updated later, before the first one updated no later. */
  function RecencyPosition(s: seq<Note>, updatedAt: nat): (p: nat)
    ensures p <= |s|
    ensures forall i :: 0 <= i < p ==> s[i].updatedAt > updatedAt
    ensures p < |s| ==> s[p].updatedAt <= updatedAt
  {
    if s == [] || s[0].updatedAt <= updatedAt then 0 else 1 + RecencyPosition(s[1..], updatedAt)
  }

  function InsertAt<T>(s: seq<T>, p: nat, x: T): (r: seq<T>)
    requires p <= |s|
  {
    s[..p] + [x] + s[p..]
  }

  lemma InsertByNameSorted(s: seq<Named>, x: Named)
    requires SortedByName(s)
    ensures SortedByName(InsertAt(s, NamePosition(s, x.name), x))
  {
    var p := NamePosition(s, x.name);
    var r := InsertAt(s, p, x);
    forall i | 0 <= i < p
      ensures NameLe(s[i].name, x.name)
    {
      NameLeTotal(s[i].name, x.name);
    }
    forall j | p <= j < |s|
      ensures NameLe(x.name, s[j].name)
    {
      if j > p {
        NameLeTransitive(x.name, s[p].name, s[j].name);
      }
    }
    forall i, j | 0 <= i < j < |r|
      ensures NameLe(r[i].name, r[j].name)
    {
      if j < p {
        assert r[i] == s[i] && r[j] == s[j];
      } else if j == p {
        assert r[i] == s[i] && r[j] == x;
      } else if i < p {
        assert r[i] == s[i] && r[j] == s[j - 1];
        NameLeTransitive(s[i].name, x.name, s[j - 1].name);
      } else if i == p {
        assert r[i] == x && r[j] == s[j - 1];
      } else {
        assert r[i] == s[i - 1] && r[j] == s[j - 1];
      }
    }
  }

  lemma InsertByRecencySorted(s: seq<Note>, x: Note)
    requires SortedByRecency(s)
    ensures SortedByRecency(InsertAt(s, RecencyPosition(s, x.updatedAt), x))
  {
    var p := RecencyPosition(s, x.updatedAt);
    var r := InsertAt(s, p, x);
    forall i, j | 0 <= i < j < |r|
      ensures r[i].updatedAt >= r[j].updatedAt
    {
      if j < p {
        assert r[i] == s[i] && r[j] == s[j];
      } else if j == p {
        assert r[i] == s[i] && r[j] == x;
      } else if i < p {
        assert r[i] == s[i] && r[j] == s[j - 1];
      } else if i == p {
        assert r[i] == x && r[j] == s[j - 1];
      } else {
        assert r[i] == s[i - 1] && r[j] == s[j - 1];
      }
    }
  }

  /** The folders or tags of `m`, in ascending order of name, as
      `find().sort({ name: 'asc' })` yields them. */
  method ListByName(m: map<Id, Named>) returns (r: seq<Named>)
    requires KeyedById(m, NamedId)
    ensures ListsNamed(r, m)
    ensures SortedByName(r)
  {
    r := [];
    var rest := m.Keys;
    while rest != {}
      invariant rest <= m.Keys
      invariant ListsOf(r, m, m.Keys - rest, NamedId)
      invariant SortedByName(r)
      decreases rest
    {
      var k :| k in rest;
      var p := NamePosition(r, m[k].name);
      InsertByNameSorted(r, m[k]);
      InsertExtends(r, m, m.Keys - rest, k, p, NamedId);
      r := InsertAt(r, p, m[k]);
      rest := rest - {k};
      assert m.Keys - rest == (m.Keys - (rest + {k})) + {k};
    }
  }

  /** The notes of `m`, newest `updatedAt` first, as `sort({ updatedAt: 'desc' })` yields them. */
  method ListByRecency(m: map<Id, Note>) returns (r: seq<Note>)
    requires KeyedById(m, NoteId)
    ensures ListsNotes(r, m)
    ensures SortedByRecency(r)
  {
    r := [];
    var rest := m.Keys;
    while rest != {}
      invariant rest <= m.Keys
      invariant ListsOf(r, m, m.Keys - rest, NoteId)
      invariant SortedByRecency(r)
      decreases rest
    {
      var k :| k in rest;
      var p := RecencyPosition(r, m[k].updatedAt);
      InsertByRecencySorted(r, m[k]);
      InsertExtends(r, m, m.Keys - rest, k, p, NoteId);
      r := InsertAt(r, p, m[k]);
      rest := rest - {k};
      assert m.Keys - rest == (m.Keys - (rest + {k})) + {k};
    }
  }
}
