/**
 * The entity store gateway as the logistics view sees it: one collection
 * of documents per entity type, with `add`, `update` and `remove`.
 * The asynchronous Firestore hook behind it is reduced to synchronous
 * operations on a sequence; the id a new document receives is chosen by
 * the gateway and is passed in.
 */
module Store {
  import opened JsValues

  /** A stored document: its id and the fields written to it. */
  datatype Doc = Doc(id: string, fields: Record)

  type Collection = seq<Doc>

  function Ids(c: Collection): set<string>
  {
    set d | d in c :: d.id
  }

  /** No two documents of a collection share an id. */
  ghost predicate UniqueIds(c: Collection)
  {
    forall i, j :: 0 <= i < j < |c| ==> c[i].id != c[j].id
  }

  /** `add(data)`: a new document with the gateway's fresh id is appended. */
  function AddDoc(c: Collection, id: string, data: Record): (r: Collection)
    ensures Ids(r) == Ids(c) + {id}
    ensures UniqueIds(c) && id !in Ids(c) ==> UniqueIds(r)
    ensures |r| == |c| + 1 && r[|c|] == Doc(id, data) && r[..|c|] == c
  {
    var r := c + [Doc(id, data)];
    assert Doc(id, data) in r;
    assert forall d :: d in r <==> d in c || d == Doc(id, data);
    assert r[..|c|] == c;
    r
  }

  /** `update(id, updates)`: the given fields are merged into every document with that id. */
  function UpdateDocs(c: Collection, id: string, updates: Record): (r: Collection)
    ensures |r| == |c|
    ensures forall i :: 0 <= i < |c| ==>
      r[i] == if c[i].id == id then Doc(id, c[i].fields + updates) else c[i]
    decreases |c|
  {
    if c == [] then []
    else
      var d := c[0];
      [if d.id == id then Doc(id, d.fields + updates) else d] + UpdateDocs(c[1..], id, updates)
  }

  /** `remove(id)`: every document with that id is dropped and every other document stays. */
  function RemoveDocs(c: Collection, id: string): (r: Collection)
    ensures id !in Ids(r)
    ensures forall d :: d in r <==> d in c && d.id != id
    ensures |r| <= |c|
    decreases |c|
  {
    if c == [] then []
    else if c[0].id == id then RemoveDocs(c[1..], id)
    else [c[0]] + RemoveDocs(c[1..], id)
  }

  /** An update keeps the set of ids, hence their uniqueness. */
  lemma UpdateKeepsIds(c: Collection, id: string, updates: Record)
    ensures Ids(UpdateDocs(c, id, updates)) == Ids(c)
    ensures UniqueIds(c) ==> UniqueIds(UpdateDocs(c, id, updates))
  {
    var r := UpdateDocs(c, id, updates);
    forall x | x in Ids(r) ensures x in Ids(c) {
      var i :| 0 <= i < |r| && r[i].id == x;
      assert c[i] in c;
    }
    forall x | x in Ids(c) ensures x in Ids(r) {
      var i :| 0 <= i < |c| && c[i].id == x;
      assert r[i] in r;
    }
  }

  /** Two updates of an id agree when they agree on every document carrying that id. */
  lemma UpdatesAgree(c: Collection, id: string, u: Record, v: Record)
    requires forall i :: 0 <= i < |c| && c[i].id == id ==> c[i].fields + u == c[i].fields + v
    ensures UpdateDocs(c, id, u) == UpdateDocs(c, id, v)
  {
    var a, b := UpdateDocs(c, id, u), UpdateDocs(c, id, v);
    forall i | 0 <= i < |c| ensures a[i] == b[i] {
    }
  }

  /** With unique ids, the document at a position carrying a stored document's id is that document. */
  lemma OnlyDocWithId(c: Collection, d: Doc, i: int)
    requires UniqueIds(c) && d in c
    requires 0 <= i < |c| && c[i].id == d.id
    ensures c[i] == d
  {
    var j :| 0 <= j < |c| && c[j] == d;
    assert i == j;
  }

  /** A document an update produced anew carries the id and every updated field. */
  lemma UpdatedDocHasFields(c: Collection, id: string, u: Record, d: Doc)
    requires d in UpdateDocs(c, id, u) && d !in c
    ensures d.id == id && u.Keys <= d.fields.Keys
    ensures forall k :: k in u ==> d.fields[k] == u[k]
  {
    var r := UpdateDocs(c, id, u);
    var i :| 0 <= i < |r| && r[i] == d;
    assert c[i] in c;
  }

  /** The only document an add introduces is the added one. */
  lemma AddedDocIsNew(c: Collection, id: string, u: Record, d: Doc)
    requires d in AddDoc(c, id, u) && d !in c
    ensures d == Doc(id, u)
  {
    var r := AddDoc(c, id, u);
    var i :| 0 <= i < |r| && r[i] == d;
    assert forall k :: 0 <= k < |c| ==> r[k] == c[k] && c[k] in c;
  }

  /** Removing an id that no document carries changes nothing. */
  lemma {:induction false} RemoveAbsent(c: Collection, id: string)
    requires id !in Ids(c)
    ensures RemoveDocs(c, id) == c
    decreases |c|
  {
    if c != [] {
      assert c[0] in c;
      assert Ids(c[1..]) <= Ids(c) by {
        forall x | x in Ids(c[1..]) ensures x in Ids(c) {
          var d :| d in c[1..] && d.id == x;
          assert d in c;
        }
      }
      RemoveAbsent(c[1..], id);
      assert c == [c[0]] + c[1..];
    }
  }

  /** After a removal exactly the other ids remain. */
  lemma RemoveIds(c: Collection, id: string)
    ensures Ids(RemoveDocs(c, id)) == Ids(c) - {id}
  {
    var r := RemoveDocs(c, id);
    forall x | x in Ids(c) - {id} ensures x in Ids(r) {
      var d :| d in c && d.id == x;
      assert d in r;
    }
  }

  /** Putting a document with a new id in front keeps ids unique. */
  lemma ConsUnique(x: Doc, r: Collection)
    requires UniqueIds(r) && x.id !in Ids(r)
    ensures UniqueIds([x] + r)
  {
    var s := [x] + r;
    forall i, j | 0 <= i < j < |s| ensures s[i].id != s[j].id {
      assert s[j] == r[j - 1] && r[j - 1] in r;
      if i > 0 {
        assert s[i] == r[i - 1];
      }
    }
  }

  /** A removal keeps ids unique. */
  lemma {:induction false} RemoveKeepsUnique(c: Collection, id: string)
    requires UniqueIds(c)
    ensures UniqueIds(RemoveDocs(c, id))
    decreases |c|
  {
    if c != [] {
      var tail := c[1..];
      assert UniqueIds(tail) by {
        forall i, j | 0 <= i < j < |tail| ensures tail[i].id != tail[j].id {
          assert tail[i] == c[i + 1] && tail[j] == c[j + 1];
        }
      }
      RemoveKeepsUnique(tail, id);
      if c[0].id != id {
        var rest := RemoveDocs(tail, id);
        assert c[0].id !in Ids(rest) by {
          forall d | d in rest ensures d.id != c[0].id {
            var k :| 0 <= k < |tail| && tail[k] == d;
            assert c[k + 1] == d;
          }
        }
        ConsUnique(c[0], rest);
      }
    }
  }

  /** With unique ids, removing an id that is present drops exactly one document. */
  lemma {:induction false} RemovePresent(c: Collection, id: string)
    requires UniqueIds(c) && id in Ids(c)
    ensures |RemoveDocs(c, id)| == |c| - 1
    decreases |c|
  {
    var tail := c[1..];
    assert UniqueIds(tail);
    if c[0].id == id {
      assert id !in Ids(tail) by {
        forall k | 0 <= k < |tail| ensures tail[k].id != id {
          assert tail[k] == c[k + 1];
        }
      }
      RemoveAbsent(tail, id);
    } else {
      assert id in Ids(tail) by {
        var d :| d in c && d.id == id;
        var k :| 0 <= k < |c| && c[k] == d;
        assert k != 0;
        assert tail[k - 1] == d;
      }
      RemovePresent(tail, id);
    }
  }
}
