/**
 * The in-memory signer table of the mock API: a module-level array of
 * records and a `nextId` counter, behind five CRUD operations.  The network
 * delay each operation awaits first is not modelled.
 *
 * Ids are integers; the source compares them with `==` and re-parses the
 * update id with `parseInt`, which coincide on integers.  A payload is a
 * record without an `id` field: in the source the payload is spread after
 * the assigned id, so a payload carrying its own `id` would override it.
 */
module MockApi {
  import opened Lists

  datatype SignerData = SignerData(name: string, npwp: string, email: string, phone: string, address: string)

  datatype Signer = Signer(id: int, data: SignerData)

  /** A resolved promise with its value, or a rejected one with the error's message. */
  datatype Result<T> = Ok(value: T) | Err(message: string)

  const NotFound := "Signer not found"

  /* IdIs, Holds and DistinctIds mirror those over Notification in Notifications. */

  /** The callback `s => s.id == id` given to find and findIndex. */
  function IdIs(id: int): Signer -> bool {
    (s: Signer) => s.id == id
  }

  predicate Holds(table: seq<Signer>, id: int) {
    exists i :: 0 <= i < |table| && table[i].id == id
  }

  predicate DistinctIds(table: seq<Signer>) {
    forall i, j :: 0 <= i < j < |table| ==> table[i].id != table[j].id
  }

  predicate IdsBelow(table: seq<Signer>, bound: int) {
    forall i :: 0 <= i < |table| ==> table[i].id < bound
  }

  /** The three records the table starts with. */
  function InitialSigners(): (t: seq<Signer>)
    ensures |t| == 3 && t[0].id == 1 && t[1].id == 2 && t[2].id == 3
  {
    [ Signer(1, SignerData("John Doe", "123456789012345", "john.doe@example.com",
                           "+6281234567890", "Jl. Sudirman No. 123, Jakarta")),
      Signer(2, SignerData("Jane Smith", "987654321098765", "jane.smith@example.com",
                           "+6281234567891", "Jl. Thamrin No. 456, Jakarta")),
      Signer(3, SignerData("Bob Johnson", "456789123456789", "bob.johnson@example.com",
                           "+6281234567892", "Jl. Gatot Subroto No. 789, Jakarta")) ]
  }

  /** The first index holding the id, or -1; the same index for findIndex and find. */
  function IndexOf(table: seq<Signer>, id: int): (i: int)
    ensures -1 <= i < |table|
    ensures i == -1 <==> !Holds(table, id)
    ensures 0 <= i ==> table[i].id == id && forall j :: 0 <= j < i ==> table[j].id != id
  {
    var i := FindIndex(table, IdIs(id));
    assert 0 <= i ==> IdIs(id)(table[i]);
    assert forall j :: 0 <= j < |table| && (i == -1 || j < i) ==> !IdIs(id)(table[j]);
    i
  }

  /** The table invariant: ids distinct and below the counter, so the counter never names a present record. */
  predicate TableInvariant(table: seq<Signer>, nextId: int) {
    DistinctIds(table) && IdsBelow(table, nextId)
  }

  lemma InitialInvariant()
    ensures TableInvariant(InitialSigners(), 4)
  {
  }

  /** Appending a record with the counter's id and bumping the counter keeps the invariant. */
  lemma AppendKeepsInvariant(table: seq<Signer>, nextId: int, data: SignerData)
    requires TableInvariant(table, nextId)
    ensures TableInvariant(table + [Signer(nextId, data)], nextId + 1)
  {
    var t := table + [Signer(nextId, data)];
    forall i, j | 0 <= i < j < |t|
      ensures t[i].id != t[j].id
    {
      if j == |table| {
        assert t[i] == table[i];
      }
    }
  }

  /** Replacing a record by one with the same id keeps the invariant. */
  lemma ReplaceKeepsInvariant(table: seq<Signer>, nextId: int, i: int, data: SignerData)
    requires TableInvariant(table, nextId) && 0 <= i < |table|
    ensures TableInvariant(table[i := Signer(table[i].id, data)], nextId)
  {
    var t := table[i := Signer(table[i].id, data)];
    assert forall k :: 0 <= k < |t| ==> t[k].id == table[k].id;
  }

  /** Splicing a record out keeps the invariant, and the removed id is then absent. */
  lemma SpliceKeepsInvariant(table: seq<Signer>, nextId: int, i: int)
    requires TableInvariant(table, nextId) && 0 <= i < |table|
    ensures TableInvariant(Splice(table, i), nextId)
    ensures !Holds(Splice(table, i), table[i].id)
  {
    var t := Splice(table, i);
    forall a, b | 0 <= a < b < |t|
      ensures t[a].id != t[b].id
    {
      var a', b' := if a < i then a else a + 1, if b < i then b else b + 1;
      assert t[a] == table[a'] && t[b] == table[b'];
    }
    forall k | 0 <= k < |t|
      ensures t[k].id != table[i].id
    {
      var k' := if k < i then k else k + 1;
      assert t[k] == table[k'];
    }
  }

  class SignerStore {
    /** `mockSigners` */
    var signers: seq<Signer>
    /** `nextId` */
    var nextId: int
    /** Every id the counter has handed out, including those of the initial records. */
    ghost var issued: set<int>

    ghost predicate Valid()
      reads this
    {
      TableInvariant(signers, nextId) &&
      (forall i :: 0 <= i < |signers| ==> signers[i].id in issued) &&
      (forall x :: x in issued ==> x < nextId)
    }

    constructor()
      ensures Valid()
      ensures signers == InitialSigners() && nextId == 4
    {
      signers := InitialSigners();
      nextId := 4;
      issued := {1, 2, 3};
    }

    /** getSigners: a copy of the whole table, in order. */
    method GetSigners() returns (r: seq<Signer>)
      ensures r == signers
    {
      r := signers;
    }

    /** getSigner: the first record with the id, or "Signer not found". */
    method GetSigner(id: int) returns (r: Result<Signer>)
      ensures r.Ok? <==> Holds(signers, id)
      ensures r.Ok? ==> r.value.id == id &&
                        exists i :: 0 <= i < |signers| && signers[i] == r.value &&
                                    forall j :: 0 <= j < i ==> signers[j].id != id
      ensures r.Err? ==> r.message == NotFound
    {
      var index := IndexOf(signers, id);
      if index == -1 {
        r := Err(NotFound);
      } else {
        r := Ok(signers[index]);
      }
    }

    /** createSigner: appends a record carrying the counter's id, and bumps the counter. */
    method CreateSigner(data: SignerData) returns (r: Signer)
      modifies this
      ensures r == Signer(old(nextId), data)
      ensures signers == old(signers) + [r]
      ensures nextId == old(nextId) + 1
      ensures old(Valid()) ==> Valid() && r.id !in old(issued)
    {
      ghost var wasValid := Valid();
      if wasValid {
        AppendKeepsInvariant(signers, nextId, data);
      }
      r := Signer(nextId, data);
      issued := issued + {nextId};
      nextId := nextId + 1;
      signers := signers + [r];
    }

    /** updateSigner: replaces the first record with the id by the payload under that id. */
    method UpdateSigner(id: int, data: SignerData) returns (r: Result<Signer>)
      modifies this
      ensures nextId == old(nextId) && issued == old(issued)
      ensures r.Ok? <==> old(Holds(signers, id))
      ensures r.Ok? ==> r.value == Signer(id, data) &&
                        exists i :: 0 <= i < |old(signers)| && old(signers)[i].id == id &&
                                    (forall j :: 0 <= j < i ==> old(signers)[j].id != id) &&
                                    signers == old(signers)[i := r.value]
      ensures r.Err? ==> r.message == NotFound && signers == old(signers)
      ensures old(Valid()) ==> Valid()
    {
      var index := IndexOf(signers, id);
      if index == -1 {
        r := Err(NotFound);
      } else {
        if Valid() {
          ReplaceKeepsInvariant(signers, nextId, index, data);
        }
        signers := signers[index := Signer(id, data)];
        r := Ok(signers[index]);
      }
    }

    /** deleteSigner: splices out the first record with the id; the counter is untouched. */
    method DeleteSigner(id: int) returns (r: Result<bool>)
      modifies this
      ensures nextId == old(nextId) && issued == old(issued)
      ensures r.Ok? <==> old(Holds(signers, id))
      ensures r.Ok? ==> r.value &&
                        exists i :: 0 <= i < |old(signers)| && old(signers)[i].id == id &&
                                    (forall j :: 0 <= j < i ==> old(signers)[j].id != id) &&
                                    signers == old(signers)[..i] + old(signers)[i + 1..]
      ensures r.Err? ==> r.message == NotFound && signers == old(signers)
      ensures old(Valid()) ==> Valid() && !Holds(signers, id)
    {
      var index := IndexOf(signers, id);
      if index == -1 {
        r := Err(NotFound);
      } else {
        if Valid() {
          SpliceKeepsInvariant(signers, nextId, index);
        }
        signers := Splice(signers, index);
        r := Ok(true);
      }
    }
  }

  /** Deleting a seeded record and creating a new one: the new record gets 4, not the freed id. */
  method DeleteThenCreate() returns (ids: seq<int>)
    ensures ids == [1, 3, 4]
  {
    var store := new SignerStore();
    var deleted := store.DeleteSigner(2);
    var created := store.CreateSigner(SignerData("Ann", "", "", "", ""));
    var table := store.GetSigners();
    ids := seq(|table|, i requires 0 <= i < |table| => table[i].id);
  }
}
