// The order of the supplier summary (apps/reporting/queries.py:389-395): by name, then by identifier.

module SupplierOrder {
  import opened LedgerModel

  // Character by character; of two texts of which one begins with the other, the shorter first.
  predicate TextNotAfter(a: string, b: string) {
    a == [] || (b != [] && (a[0] < b[0] || (a[0] == b[0] && TextNotAfter(a[1..], b[1..]))))
  }

  lemma {:induction false} TextIsTotal(a: string, b: string)
    ensures TextNotAfter(a, b) || TextNotAfter(b, a)
    ensures TextNotAfter(a, b) && TextNotAfter(b, a) ==> a == b
  {
    if a != [] && b != [] {
      TextIsTotal(a[1..], b[1..]);
      assert a == [a[0]] + a[1..] && b == [b[0]] + b[1..];
    }
  }

  lemma {:induction false} TextIsTransitive(a: string, b: string, c: string)
    requires TextNotAfter(a, b) && TextNotAfter(b, c)
    ensures TextNotAfter(a, c)
  {
    if a != [] && a[0] == b[0] == c[0] {
      TextIsTransitive(a[1..], b[1..], c[1..]);
    }
  }

  predicate LineNotAfter(names: Id -> string, a: Id, b: Id) {
    if names(a) == names(b) then a <= b else TextNotAfter(names(a), names(b))
  }

  // The texts agree up to somewhere, where the one ends or has the smaller character.
  ghost predicate Precedes(a: string, b: string) {
    exists k :: 0 <= k <= |a| && k < |b| && a[..k] == b[..k] && (k < |a| ==> a[k] < b[k])
  }

  lemma {:induction false} NotAfterIsPreceding(a: string, b: string)
    ensures TextNotAfter(a, b) <==> a == b || Precedes(a, b)
  {
    if a == [] {
      assert b != [] ==> a[..0] == b[..0];
    } else if b != [] && a[0] == b[0] {
      NotAfterIsPreceding(a[1..], b[1..]);
      assert a == [a[0]] + a[1..] && b == [b[0]] + b[1..];
      if k :| 0 <= k <= |a[1..]| && k < |b[1..]| && a[1..][..k] == b[1..][..k] && (k < |a[1..]| ==> a[1..][k] < b[1..][k]) {
        assert a[..k + 1] == [a[0]] + a[1..][..k] && b[..k + 1] == [b[0]] + b[1..][..k];
      }
      if k :| 0 <= k <= |a| && k < |b| && a[..k] == b[..k] && (k < |a| ==> a[k] < b[k]) {
        assert k > 0;
        assert a[1..][..k - 1] == a[..k][1..] && b[1..][..k - 1] == b[..k][1..];
      }
    } else if b != [] {
      FirstDecides(a, b);
    }
  }

  lemma FirstDecides(a: string, b: string)
    requires a != [] && b != [] && a[0] != b[0]
    ensures Precedes(a, b) <==> a[0] < b[0]
  {
    assert a[..0] == b[..0];
    forall k | 0 < k <= |a| && k < |b| ensures a[..k] != b[..k] {
      assert a[..k][0] != b[..k][0];
    }
  }

  // Smaller names first; of two suppliers of one name, the smaller identifier.
  ghost predicate InNameOrder(names: Id -> string, ids: seq<Id>) {
    forall p, q :: 0 <= p < q < |ids| ==>
      Precedes(names(ids[p]), names(ids[q])) || (names(ids[p]) == names(ids[q]) && ids[p] <= ids[q])
  }

  lemma LineNotAfterDecides(names: Id -> string, a: Id, b: Id)
    ensures LineNotAfter(names, a, b) <==> Precedes(names(a), names(b)) || (names(a) == names(b) && a <= b)
  {
    NotAfterIsPreceding(names(a), names(b));
  }

  predicate LinesInOrder(names: Id -> string, ids: seq<Id>) {
    forall p, q :: 0 <= p < q < |ids| ==> LineNotAfter(names, ids[p], ids[q])
  }

  lemma LinesInNameOrder(names: Id -> string, ids: seq<Id>)
    ensures LinesInOrder(names, ids) <==> InNameOrder(names, ids)
  {
    hide LineNotAfter, Precedes;
    forall a, b ensures LineNotAfter(names, a, b) <==> Precedes(names(a), names(b)) || (names(a) == names(b) && a <= b) {
      LineNotAfterDecides(names, a, b);
    }
  }

  lemma LinesAreTotal(names: Id -> string, a: Id, b: Id)
    ensures LineNotAfter(names, a, b) || LineNotAfter(names, b, a)
  {
    TextIsTotal(names(a), names(b));
  }

  lemma LinesAreTransitive(names: Id -> string, a: Id, b: Id, c: Id)
    requires LineNotAfter(names, a, b) && LineNotAfter(names, b, c)
    ensures LineNotAfter(names, a, c)
  {
    TextIsTotal(names(a), names(b));
    TextIsTotal(names(b), names(c));
    if TextNotAfter(names(a), names(b)) && TextNotAfter(names(b), names(c)) {
      TextIsTransitive(names(a), names(b), names(c));
    }
    TextIsTotal(names(a), names(c));
  }

  function Placed(names: Id -> string, id: Id, ids: seq<Id>): seq<Id> {
    if ids == [] || LineNotAfter(names, id, ids[0]) then [id] + ids else [ids[0]] + Placed(names, id, ids[1..])
  }

  lemma {:induction false} PlacedContent(names: Id -> string, id: Id, ids: seq<Id>)
    ensures multiset(Placed(names, id, ids)) == multiset{id} + multiset(ids)
  {
    if ids != [] && !LineNotAfter(names, id, ids[0]) {
      PlacedContent(names, id, ids[1..]);
      assert ids == [ids[0]] + ids[1..];
    }
  }

  lemma PlacedOrThere(names: Id -> string, id: Id, ids: seq<Id>, i: Id)
    requires i in Placed(names, id, ids)
    ensures i == id || i in ids
  {
    hide Placed;
    PlacedContent(names, id, ids);
    assert i in multiset(Placed(names, id, ids));
  }

  lemma FirstInOrder(names: Id -> string, first: Id, ids: seq<Id>)
    requires LinesInOrder(names, ids) && forall i :: i in ids ==> LineNotAfter(names, first, i)
    ensures LinesInOrder(names, [first] + ids)
  {
    hide LineNotAfter;
  }

  lemma {:induction false} PlacedInOrder(names: Id -> string, id: Id, ids: seq<Id>)
    requires LinesInOrder(names, ids)
    ensures LinesInOrder(names, Placed(names, id, ids))
  {
    hide LineNotAfter;
    if ids == [] {
    } else if LineNotAfter(names, id, ids[0]) {
      forall i | i in ids ensures LineNotAfter(names, id, i) {
        if i != ids[0] {
          LinesAreTransitive(names, id, ids[0], i);
        }
      }
      FirstInOrder(names, id, ids);
    } else {
      PlacedInOrder(names, id, ids[1..]);
      forall i | i in Placed(names, id, ids[1..]) ensures LineNotAfter(names, ids[0], i) {
        LinesAreTotal(names, ids[0], id);
        PlacedOrThere(names, id, ids[1..], i);
      }
      FirstInOrder(names, ids[0], Placed(names, id, ids[1..]));
    }
  }

  // Every identifier once, in the order of the names.
  method Arranged(names: Id -> string, ids: set<Id>) returns (list: seq<Id>)
    ensures multiset(list) == multiset(ids) && InNameOrder(names, list)
  {
    list := [];
    var rest := ids;
    assert multiset(ids - rest) == multiset{};
    while rest != {}
      invariant rest <= ids && multiset(list) == multiset(ids - rest) && LinesInOrder(names, list)
      decreases rest
    {
      hide LinesInOrder;
      var id :| id in rest;
      PlacedContent(names, id, list);
      PlacedInOrder(names, id, list);
      assert multiset(ids - (rest - {id})) == multiset(ids - rest) + multiset{id};
      list, rest := Placed(names, id, list), rest - {id};
    }
    assert ids - rest == ids;
    LinesInNameOrder(names, list);
  }
}
