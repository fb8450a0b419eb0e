/**
 * The buyer's supplier list (Pages/Buyer/Suppliers/SuppliersList.js): a
 * fixed list loaded once, and `updateRating`, which the details screen calls
 * to replace one supplier's rating. Ratings are kept in tenths of a star
 * (3.2 is 32).
 */
module SuppliersList {

  datatype Supplier = Supplier(id: string, name: string, rating: nat, email: string, phone: string)

  /** The list `fetchSuppliers` installs. */
  const InitialSuppliers: seq<Supplier> := [
    Supplier("1", "Supplier A", 32, "supplier.a@gmail.com", "0702031499"),
    Supplier("2", "Supplier B", 45, "supplier.b@gmail.com", "0771234567")
  ]

  ghost predicate IdsDistinct(s: seq<Supplier>)
  {
    forall i, j :: 0 <= i < j < |s| ==> s[i].id != s[j].id
  }

  /** The starting list holds two suppliers with the distinct ids '1' and '2'. */
  lemma InitialSuppliersShape()
    ensures |InitialSuppliers| == 2
    ensures InitialSuppliers[0].id == "1" && InitialSuppliers[1].id == "2"
    ensures IdsDistinct(InitialSuppliers)
  {
  }

  /** `s.map(x => x.id === id ? { ...x, rating: newRating } : x)`. */
  function WithRating(s: seq<Supplier>, id: string, newRating: nat): seq<Supplier>
  {
    if s == [] then []
    else [if s[0].id == id then s[0].(rating := newRating) else s[0]] + WithRating(s[1..], id, newRating)
  }

  /**
   * The list keeps its length and order; each supplier with the id gets the
   * new rating and keeps every other field; every other supplier is unchanged.
   */
  lemma {:induction false} WithRatingPointwise(s: seq<Supplier>, id: string, newRating: nat)
    ensures |WithRating(s, id, newRating)| == |s|
    ensures forall i :: 0 <= i < |s| && s[i].id == id ==> WithRating(s, id, newRating)[i] == s[i].(rating := newRating)
    ensures forall i :: 0 <= i < |s| && s[i].id != id ==> WithRating(s, id, newRating)[i] == s[i]
  {
    if s != [] {
      WithRatingPointwise(s[1..], id, newRating);
      var r := WithRating(s, id, newRating);
      forall i | 0 < i < |s| ensures r[i] == WithRating(s[1..], id, newRating)[i - 1] {
      }
    }
  }

  /** An id no supplier has leaves the list as it was. */
  lemma {:induction false} WithRatingAbsent(s: seq<Supplier>, id: string, newRating: nat)
    requires forall i :: 0 <= i < |s| ==> s[i].id != id
    ensures WithRating(s, id, newRating) == s
  {
    if s != [] {
      WithRatingAbsent(s[1..], id, newRating);
      assert s == [s[0]] + s[1..];
    }
  }

  /** A second rating for the same id replaces the first. */
  lemma {:induction false} WithRatingLastWins(s: seq<Supplier>, id: string, first: nat, second: nat)
    ensures WithRating(WithRating(s, id, first), id, second) == WithRating(s, id, second)
  {
    if s != [] {
      WithRatingLastWins(s[1..], id, first, second);
      assert WithRating(s, id, first)[1..] == WithRating(s[1..], id, first);
    }
  }

  /** Ratings never change ids, so distinct ids stay distinct. */
  lemma WithRatingKeepsIds(s: seq<Supplier>, id: string, newRating: nat)
    ensures |WithRating(s, id, newRating)| == |s|
    ensures forall i :: 0 <= i < |s| ==> WithRating(s, id, newRating)[i].id == s[i].id
    ensures IdsDistinct(s) ==> IdsDistinct(WithRating(s, id, newRating))
  {
    WithRatingPointwise(s, id, newRating);
  }

  class SuppliersScreen {
    var suppliers: seq<Supplier>

    ghost predicate Valid()
      reads this
    {
      IdsDistinct(suppliers)
    }

    /** `useState([])`. */
    constructor ()
      ensures Valid() && suppliers == []
    {
      suppliers := [];
    }

    /** The mount effect: `setSuppliers(data)`. */
    method LoadSuppliers()
      modifies this
      ensures Valid() && suppliers == InitialSuppliers
    {
      suppliers := InitialSuppliers;
      InitialSuppliersShape();
    }

    /** `updateRating(id, newRating)`. */
    method UpdateRating(id: string, newRating: nat)
      requires Valid()
      modifies this
      ensures Valid()
      ensures suppliers == WithRating(old(suppliers), id, newRating)
    {
      WithRatingKeepsIds(suppliers, id, newRating);
      suppliers := WithRating(suppliers, id, newRating);
    }
  }
}
