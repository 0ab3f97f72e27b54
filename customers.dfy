/** The fixed customer reference list and the `customers.find` lookup that
    fills in the order's address. */
module Customers {

  import opened OrderRecord

  datatype Customer = Customer(id: string, name: string, address: string)

  const Table: seq<Customer> := [
    Customer("1", "PT ABC Corporation", "Jl. Sudirman No. 123, Jakarta"),
    Customer("2", "CV XYZ Trading", "Jl. Gatot Subroto No. 456, Bandung"),
    Customer("3", "UD Maju Jaya", "Jl. Ahmad Yani No. 789, Surabaya")
  ]

  /** `cs.find(c => c.id === id)`: the first customer with that id, if any. */
  function Find(cs: seq<Customer>, id: string): (r: Option<Customer>)
    ensures r.None? <==> forall i :: 0 <= i < |cs| ==> cs[i].id != id
    ensures r.Some? ==> exists i :: 0 <= i < |cs| && cs[i] == r.value && cs[i].id == id
                                   && forall j :: 0 <= j < i ==> cs[j].id != id
    decreases |cs|
  {
    if cs == [] then None
    else if cs[0].id == id then Some(cs[0])
    else
      var r := Find(cs[1..], id);
      assert r.Some? ==> exists i :: 0 <= i < |cs| && cs[i] == r.value && cs[i].id == id
                                     && forall j :: 0 <= j < i ==> cs[j].id != id by {
        if r.Some? {
          var i :| 0 <= i < |cs[1..]| && cs[1..][i] == r.value && cs[1..][i].id == id
                   && forall j :: 0 <= j < i ==> cs[1..][j].id != id;
          assert cs[i + 1] == r.value;
          assert forall j :: 0 <= j < i + 1 ==> cs[j].id != id by {
            forall j | 0 <= j < i + 1 ensures cs[j].id != id {
              if j > 0 { assert cs[j] == cs[1..][j - 1]; }
            }
          }
        }
      }
      r
  }

  /** `customer ? customer.address : ''` for the lookup of id in the table:
      the address of an entry carrying the id, or "" when none does. */
  function AddressFor(id: string): (r: string)
    ensures (forall i :: 0 <= i < |Table| ==> Table[i].id != id) ==> r == ""
    ensures (exists i :: 0 <= i < |Table| && Table[i].id == id) ==>
              exists i :: 0 <= i < |Table| && Table[i].id == id && r == Table[i].address
  {
    match Find(Table, id)
    case Some(c) => c.address
    case None => ""
  }

  /** The table's ids are pairwise distinct, so a lookup that matches is
      unambiguous: the i-th entry's id yields the i-th entry's address. */
  lemma {:induction false} AddressForTableId(i: int)
    requires 0 <= i < |Table|
    ensures forall j, k :: 0 <= j < k < |Table| ==> Table[j].id != Table[k].id
    ensures AddressFor(Table[i].id) == Table[i].address
  {
    var r := Find(Table, Table[i].id);
    assert r.Some?;
    var m :| 0 <= m < |Table| && Table[m] == r.value && Table[m].id == Table[i].id;
    assert m == i;
  }

  /** An id that no entry carries gives the empty address, with no error. */
  lemma AddressForUnknownId(id: string)
    requires forall i :: 0 <= i < |Table| ==> Table[i].id != id
    ensures AddressFor(id) == ""
  {
  }
}
