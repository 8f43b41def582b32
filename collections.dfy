/**
 * Reading a collection: `Model.find(filter)` returns every stored record the filter
 * keeps, each once, in an order the database chooses.
 */
module Collections {
  import opened Json

  /** A stored record: its id and its fields. */
  datatype Record = Record(id: Id, doc: Doc)

  /** No record appears twice. */
  predicate NoDupIds(s: seq<Record>) {
    forall i, j :: 0 <= i < j < |s| ==> s[i].id != s[j].id
  }

  /** `find(filter)`: the records of `docs` that `keep` accepts, each exactly once. */
  method FindWhere(docs: map<Id, Doc>, keep: Doc -> bool) returns (r: seq<Record>)
    ensures forall rec :: rec in r <==> rec.id in docs && rec.doc == docs[rec.id] && keep(rec.doc)
    ensures NoDupIds(r)
  {
    var rest := docs.Keys;
    r := [];
    while rest != {}
      invariant rest <= docs.Keys
      invariant forall rec :: rec in r <==> rec.id in docs && rec.id !in rest && rec.doc == docs[rec.id] && keep(rec.doc)
      invariant NoDupIds(r)
      decreases rest
    {
      var k :| k in rest;
      if keep(docs[k]) {
        r := r + [Record(k, docs[k])];
      }
      rest := rest - {k};
    }
  }

  /** Records of distinct ids stay distinct under any reordering. */
  lemma NoDupIdsPermutation(a: seq<Record>, b: seq<Record>)
    requires NoDupIds(a) && multiset(a) == multiset(b)
    requires forall x, y :: x in a && y in a && x.id == y.id ==> x == y
    ensures NoDupIds(b)
  {
    forall i, j | 0 <= i < j < |b| ensures b[i].id != b[j].id {
      if b[i].id == b[j].id {
        assert b[i] in multiset(a) && b[j] in multiset(a);
        assert b[i] == b[j];
        TwiceCounted(b, i, j);
        OnceCounted(a, b[i]);
      }
    }
  }

  lemma TwiceCounted<T>(s: seq<T>, i: nat, j: nat)
    requires i < j < |s| && s[i] == s[j]
    ensures multiset(s)[s[i]] >= 2
  {
    assert s == s[..i] + [s[i]] + s[i + 1..j] + [s[j]] + s[j + 1..];
  }

  lemma {:induction false} OnceCounted(s: seq<Record>, x: Record)
    requires NoDupIds(s)
    ensures multiset(s)[x] <= 1
  {
    if s != [] {
      assert s == [s[0]] + s[1..];
      assert NoDupIds(s[1..]) by {
        forall i, j | 0 <= i < j < |s[1..]| ensures s[1..][i].id != s[1..][j].id {
          assert s[1..][i] == s[i + 1] && s[1..][j] == s[j + 1];
        }
      }
      OnceCounted(s[1..], x);
      if x == s[0] {
        assert x !in s[1..];
      }
    }
  }
}
