/** A user's saved addresses: listing, reading, adding, editing, removing
    and choosing the default one. Only the owner may touch an address; a
    user keeps at most one default. */
module Addresses {
  import opened Wrappers
  import opened Text
  import opened Market

  const ADDRESS_NOT_FOUND := "Address not found."

  datatype Address = Address(
    id: string,
    userId: string,
    labelName: string,
    name: string,
    phone: Option<string>,
    email: Option<string>,
    address: string,
    city: string,
    district: string,
    notes: Option<string>,
    isDefault: bool)

  /** The body of an addition. */
  datatype NewAddress = NewAddress(
    labelName: Option<string>,
    name: Option<string>,
    phone: Option<string>,
    email: Option<string>,
    address: Option<string>,
    city: Option<string>,
    district: Option<string>,
    notes: Option<string>,
    isDefault: Option<bool>)

  /** The body of an edit: a field the request does not carry is None; the
      nullable ones may also be sent as null, Some(None). */
  datatype AddressPatch = AddressPatch(
    labelName: Option<string>,
    name: Option<string>,
    phone: Option<Option<string>>,
    email: Option<Option<string>>,
    address: Option<string>,
    city: Option<string>,
    district: Option<string>,
    notes: Option<Option<string>>,
    isDefault: Option<bool>)

  predicate Within(s: Option<string>, n: nat) { s.None? || |s.value| <= n }
  predicate FilledWithin(s: Option<string>, n: nat) { s.Some? && Filled(s.value) && |s.value| <= n }
  predicate FilledIfSent(s: Option<string>, n: nat) { s.None? || (Filled(s.value) && |s.value| <= n) }

  /** The rules of an addition: label, name, address, city and district
      required, with their lengths. */
  predicate NewValid(req: NewAddress)
  {
    && FilledWithin(req.labelName, 50) && FilledWithin(req.name, 255)
    && Within(req.phone, 25) && Within(req.email, 255)
    && req.address.Some? && Filled(req.address.value)
    && FilledWithin(req.city, 100) && FilledWithin(req.district, 100)
  }

  /** The rules of an edit: the same fields, each checked only when sent. */
  predicate PatchValid(req: AddressPatch)
  {
    && FilledIfSent(req.labelName, 50) && FilledIfSent(req.name, 255)
    && (req.phone.None? || Within(req.phone.value, 25))
    && (req.email.None? || Within(req.email.value, 255))
    && (req.address.None? || Filled(req.address.value))
    && FilledIfSent(req.city, 100) && FilledIfSent(req.district, 100)
  }

  /** Ids are unique and every user has at most one default address. */
  predicate TableOk(rows: seq<Address>)
  {
    && (forall a, b | 0 <= a < b < |rows| :: rows[a].id != rows[b].id)
    && (forall a, b | 0 <= a < b < |rows| && rows[a].userId == rows[b].userId :: !(rows[a].isDefault && rows[b].isDefault))
  }

  /** The ids of a user's default addresses. */
  function DefaultsOf(rows: seq<Address>, userId: string): set<string>
  {
    set k | 0 <= k < |rows| && rows[k].userId == userId && rows[k].isDefault :: rows[k].id
  }

  /** The position of the address with an id. */
  function Find(rows: seq<Address>, id: string): (r: Option<nat>)
    ensures r.Some? ==> r.value < |rows| && rows[r.value].id == id
    ensures r.None? ==> forall k | 0 <= k < |rows| :: rows[k].id != id
  {
    FirstWhere(rows, (a: Address) => a.id == id)
  }

  /** The bulk update clearing the default flag on a user's addresses,
      except the one kept. */
  function Unset(rows: seq<Address>, userId: string, keep: Option<string>): (r: seq<Address>)
    ensures |r| == |rows|
    ensures forall k | 0 <= k < |rows| ::
              r[k] == if rows[k].userId == userId && keep != Some(rows[k].id) then rows[k].(isDefault := false) else rows[k]
  {
    seq(|rows|, k requires 0 <= k < |rows| =>
      if rows[k].userId == userId && keep != Some(rows[k].id) then rows[k].(isDefault := false) else rows[k])
  }

  /** The row an addition creates. */
  function Created(id: string, userId: string, req: NewAddress): (a: Address)
    requires NewValid(req)
    ensures a.id == id && a.userId == userId && a.isDefault == req.isDefault.GetOr(false)
  {
    Address(id, userId, req.labelName.value, req.name.value, req.phone, req.email, req.address.value,
            req.city.value, req.district.value, req.notes, req.isDefault.GetOr(false))
  }

  /** The address after an edit: the fields sent replaced, the rest kept. */
  function Edited(a: Address, req: AddressPatch): Address
  {
    a.(labelName := req.labelName.GetOr(a.labelName), name := req.name.GetOr(a.name), phone := req.phone.GetOr(a.phone),
       email := req.email.GetOr(a.email), address := req.address.GetOr(a.address), city := req.city.GetOr(a.city),
       district := req.district.GetOr(a.district), notes := req.notes.GetOr(a.notes),
       isDefault := req.isDefault.GetOr(a.isDefault))
  }

  function StoredRows(rows: seq<Address>, a: Address): seq<Address>
  {
    (if a.isDefault then Unset(rows, a.userId, None) else rows) + [a]
  }

  function EditedRows(rows: seq<Address>, k: nat, req: AddressPatch): seq<Address>
    requires k < |rows|
  {
    var cleared := if req.isDefault == Some(true) then Unset(rows, rows[k].userId, Some(rows[k].id)) else rows;
    cleared[k := Edited(cleared[k], req)]
  }

  function DefaultRows(rows: seq<Address>, k: nat): seq<Address>
    requires k < |rows|
  {
    var cleared := Unset(rows, rows[k].userId, Some(rows[k].id));
    cleared[k := cleared[k].(isDefault := true)]
  }

  function RemovedRows(rows: seq<Address>, k: nat): seq<Address>
    requires k < |rows|
  {
    rows[..k] + rows[k + 1..]
  }

  /** Clearing a user's defaults leaves only the kept one, if any. */
  lemma UnsetDefaults(rows: seq<Address>, userId: string, keep: Option<string>)
    requires TableOk(rows)
    ensures TableOk(Unset(rows, userId, keep))
    ensures keep.None? ==> DefaultsOf(Unset(rows, userId, keep), userId) == {}
    ensures forall u | u != userId :: DefaultsOf(Unset(rows, userId, keep), u) == DefaultsOf(rows, u)
  {
    var r := Unset(rows, userId, keep);
    forall u | u != userId
      ensures DefaultsOf(r, u) == DefaultsOf(rows, u)
    {
      forall x | x in DefaultsOf(rows, u) ensures x in DefaultsOf(r, u) {
        var k :| 0 <= k < |rows| && rows[k].userId == u && rows[k].isDefault && rows[k].id == x;
        assert r[k] == rows[k];
      }
    }
  }

  /** Adding an address keeps the table sound; a default addition becomes
      the user's only default, any other leaves the defaults as they were. */
  lemma StoreKeepsTable(rows: seq<Address>, a: Address)
    requires TableOk(rows) && forall k | 0 <= k < |rows| :: rows[k].id != a.id
    ensures TableOk(StoredRows(rows, a))
    ensures a.isDefault ==> DefaultsOf(StoredRows(rows, a), a.userId) == {a.id}
    ensures !a.isDefault ==> StoredRows(rows, a)[..|rows|] == rows
    ensures forall u | u != a.userId :: DefaultsOf(StoredRows(rows, a), u) == DefaultsOf(rows, u)
  {
    var cleared := if a.isDefault then Unset(rows, a.userId, None) else rows;
    var r := cleared + [a];
    assert r[..|rows|] == cleared;
    if a.isDefault {
      UnsetDefaults(rows, a.userId, None);
      assert a.id in DefaultsOf(r, a.userId) by { assert r[|rows|] == a; }
    }
    forall u | u != a.userId
      ensures DefaultsOf(r, u) == DefaultsOf(rows, u)
    {
      if a.isDefault {
        UnsetDefaults(rows, a.userId, None);
      }
      forall x | x in DefaultsOf(cleared, u) ensures x in DefaultsOf(r, u) {
        var k :| 0 <= k < |cleared| && cleared[k].userId == u && cleared[k].isDefault && cleared[k].id == x;
        assert r[k] == cleared[k];
      }
    }
  }

  /** Choosing a default makes it the user's only default and touches no
      other user's addresses. */
  lemma SetDefaultKeepsTable(rows: seq<Address>, k: nat)
    requires TableOk(rows) && k < |rows|
    ensures TableOk(DefaultRows(rows, k))
    ensures DefaultsOf(DefaultRows(rows, k), rows[k].userId) == {rows[k].id}
    ensures forall j | 0 <= j < |rows| && rows[j].userId != rows[k].userId :: DefaultRows(rows, k)[j] == rows[j]
  {
    var r := DefaultRows(rows, k);
    assert rows[k].id in DefaultsOf(r, rows[k].userId) by { assert r[k].isDefault; }
  }

  /** An edit keeps the table sound; an edit that makes an address the
      default leaves it the user's only default. */
  lemma EditKeepsTable(rows: seq<Address>, k: nat, req: AddressPatch)
    requires TableOk(rows) && k < |rows|
    ensures TableOk(EditedRows(rows, k, req))
    ensures req.isDefault == Some(true) ==> DefaultsOf(EditedRows(rows, k, req), rows[k].userId) == {rows[k].id}
    ensures forall j | 0 <= j < |rows| && j != k && rows[j].userId != rows[k].userId :: EditedRows(rows, k, req)[j] == rows[j]
  {
    var r := EditedRows(rows, k, req);
    if req.isDefault == Some(true) {
      assert rows[k].id in DefaultsOf(r, rows[k].userId) by { assert r[k].isDefault; }
    }
  }

  /** Removing an address keeps the table sound and promotes no other
      address to default. */
  lemma RemoveKeepsTable(rows: seq<Address>, k: nat)
    requires TableOk(rows) && k < |rows|
    ensures TableOk(RemovedRows(rows, k))
    ensures forall u :: DefaultsOf(RemovedRows(rows, k), u) == DefaultsOf(rows, u) - {rows[k].id}
  {
    var r := RemovedRows(rows, k);
    assert forall j | 0 <= j < |r| :: r[j] == if j < k then rows[j] else rows[j + 1];
    forall u
      ensures DefaultsOf(r, u) == DefaultsOf(rows, u) - {rows[k].id}
    {
      forall x | x in DefaultsOf(rows, u) - {rows[k].id} ensures x in DefaultsOf(r, u) {
        var j :| 0 <= j < |rows| && rows[j].userId == u && rows[j].isDefault && rows[j].id == x;
        if j < k { assert r[j] == rows[j]; } else { assert r[j - 1] == rows[j]; }
      }
    }
  }

  /** The positions of a user's addresses that a condition selects, in
      creation order. */
  function Positions(rows: seq<Address>, p: Address -> bool): (r: seq<nat>)
    ensures forall k | 0 <= k < |r| :: r[k] < |rows| && p(rows[r[k]])
    ensures forall j | 0 <= j < |rows| && p(rows[j]) :: j in r
    ensures forall a, b | 0 <= a < b < |r| :: r[a] < r[b]
    decreases |rows|
  {
    if rows == [] then []
    else
      var rest := Positions(rows[..|rows| - 1], p);
      if p(rows[|rows| - 1]) then rest + [|rows| - 1] else rest
  }

  /** Positions of a user's rows: defaults first, each group in creation
      order. */
  function Listing(rows: seq<Address>, userId: string): (r: seq<nat>)
    ensures forall k | 0 <= k < |r| :: r[k] < |rows| && rows[r[k]].userId == userId
    ensures forall j | 0 <= j < |rows| && rows[j].userId == userId :: j in r
    ensures forall a, b | 0 <= a < b < |r| && rows[r[b]].isDefault :: rows[r[a]].isDefault && r[a] < r[b]
    ensures forall a, b | 0 <= a < b < |r| && !rows[r[a]].isDefault :: !rows[r[b]].isDefault && r[a] < r[b]
  {
    var defaults := Positions(rows, (a: Address) => a.userId == userId && a.isDefault);
    var others := Positions(rows, (a: Address) => a.userId == userId && !a.isDefault);
    assert forall k | 0 <= k < |defaults| :: rows[defaults[k]].isDefault;
    assert forall k | 0 <= k < |others| :: !rows[others[k]].isDefault;
    defaults + others
  }

  class AddressTable {
    var rows: seq<Address>

    constructor (rows: seq<Address>)
      requires TableOk(rows)
      ensures this.rows == rows && Valid()
    {
      this.rows := rows;
    }

    predicate Valid()
      reads this
    {
      TableOk(rows)
    }
  }

  class AddressController {
    const table: AddressTable

    constructor (table: AddressTable)
      ensures this.table == table
    {
      this.table := table;
    }

    /** The user's addresses: defaults first, each group in creation order. */
    function Index(userId: string): (r: seq<nat>)
      reads table
      ensures r == Listing(table.rows, userId)
    {
      Listing(table.rows, userId)
    }

    /** One of the caller's addresses; another user's reads as missing. */
    function Show(userId: string, id: string): (r: Reply<Address>)
      reads table
      requires table.Valid()
      ensures Find(table.rows, id).None? ==> r == Refused(404, NOT_FOUND)
      ensures r.Ok? <==> exists k :: 0 <= k < |table.rows| && table.rows[k].id == id && table.rows[k].userId == userId
      ensures r.Ok? ==> r.body.id == id && r.body in table.rows
    {
      var k := Find(table.rows, id);
      if k.None? then Refused(404, NOT_FOUND)
      else if table.rows[k.value].userId != userId then Refused(404, ADDRESS_NOT_FOUND)
      else Ok(table.rows[k.value])
    }

    /** Adds an address for the caller; as default, it first clears the
        caller's other defaults. The new id is given. */
    method Store(userId: string, req: NewAddress, id: string) returns (r: Reply<Address>)
      requires table.Valid() && forall k | 0 <= k < |table.rows| :: table.rows[k].id != id
      modifies table
      ensures table.Valid()
      ensures !NewValid(req) <==> r == Refused(422, INVALID)
      ensures r.Refused? ==> table.rows == old(table.rows)
      ensures r.Ok? ==> r.body == Created(id, userId, req) && table.rows == StoredRows(old(table.rows), r.body)
      ensures r.Ok? && r.body.isDefault ==> DefaultsOf(table.rows, userId) == {id}
      ensures r.Ok? && !r.body.isDefault ==> table.rows[..|old(table.rows)|] == old(table.rows)
    {
      if !NewValid(req) {
        return Refused(422, INVALID);
      }
      var a := Created(id, userId, req);
      StoreKeepsTable(table.rows, a);
      if req.isDefault.GetOr(false) {
        table.rows := Unset(table.rows, userId, None);
      }
      table.rows := table.rows + [a];
      r := Ok(a);
    }

    /** Edits one of the caller's addresses; making it the default clears
        the caller's other defaults. */
    method Update(userId: string, id: string, req: AddressPatch) returns (r: Reply<Address>)
      requires table.Valid()
      modifies table
      ensures table.Valid()
      ensures r.Refused? ==> table.rows == old(table.rows)
      ensures Find(old(table.rows), id).None? ==> r == Refused(404, NOT_FOUND)
      ensures Find(old(table.rows), id).Some? && old(table.rows)[Find(old(table.rows), id).value].userId != userId ==>
                r == Refused(404, ADDRESS_NOT_FOUND)
      ensures (Find(old(table.rows), id).Some? && old(table.rows)[Find(old(table.rows), id).value].userId == userId
               && !PatchValid(req)) ==> r == Refused(422, INVALID)
      ensures r.Ok? <==> Find(old(table.rows), id).Some? && old(table.rows)[Find(old(table.rows), id).value].userId == userId
                         && PatchValid(req)
      ensures r.Ok? ==>
                var k := Find(old(table.rows), id).value;
                && old(table.rows)[k].userId == userId && PatchValid(req)
                && table.rows == EditedRows(old(table.rows), k, req) && r.body == table.rows[k]
      ensures r.Ok? && req.isDefault == Some(true) ==> DefaultsOf(table.rows, userId) == {id}
    {
      var k := Find(table.rows, id);
      if k.None? {
        return Refused(404, NOT_FOUND);
      }
      if table.rows[k.value].userId != userId {
        return Refused(404, ADDRESS_NOT_FOUND);
      }
      if !PatchValid(req) {
        return Refused(422, INVALID);
      }
      EditKeepsTable(table.rows, k.value, req);
      if req.isDefault == Some(true) {
        table.rows := Unset(table.rows, userId, Some(id));
      }
      table.rows := table.rows[k.value := Edited(table.rows[k.value], req)];
      r := Ok(table.rows[k.value]);
    }

    /** Removes one of the caller's addresses; no other becomes default. */
    method Destroy(userId: string, id: string) returns (r: Reply<()>)
      requires table.Valid()
      modifies table
      ensures table.Valid()
      ensures r.Refused? ==> table.rows == old(table.rows)
      ensures Find(old(table.rows), id).None? ==> r == Refused(404, NOT_FOUND)
      ensures r.Ok? <==> Find(old(table.rows), id).Some? && old(table.rows)[Find(old(table.rows), id).value].userId == userId
      ensures r.Ok? ==> table.rows == RemovedRows(old(table.rows), Find(old(table.rows), id).value)
      ensures r.Ok? ==> forall u :: DefaultsOf(table.rows, u) == DefaultsOf(old(table.rows), u) - {id}
    {
      var k := Find(table.rows, id);
      if k.None? {
        return Refused(404, NOT_FOUND);
      }
      if table.rows[k.value].userId != userId {
        return Refused(404, ADDRESS_NOT_FOUND);
      }
      RemoveKeepsTable(table.rows, k.value);
      table.rows := table.rows[..k.value] + table.rows[k.value + 1..];
      r := Ok(());
    }

    /** Makes one of the caller's addresses their only default. */
    method SetDefault(userId: string, id: string) returns (r: Reply<Address>)
      requires table.Valid()
      modifies table
      ensures table.Valid()
      ensures r.Refused? ==> table.rows == old(table.rows)
      ensures Find(old(table.rows), id).None? ==> r == Refused(404, NOT_FOUND)
      ensures r.Ok? <==> Find(old(table.rows), id).Some? && old(table.rows)[Find(old(table.rows), id).value].userId == userId
      ensures r.Ok? ==> table.rows == DefaultRows(old(table.rows), Find(old(table.rows), id).value)
      ensures r.Ok? ==> DefaultsOf(table.rows, userId) == {id}
      ensures r.Ok? ==> forall j | 0 <= j < |table.rows| && table.rows[j].userId != userId :: table.rows[j] == old(table.rows)[j]
    {
      var k := Find(table.rows, id);
      if k.None? {
        return Refused(404, NOT_FOUND);
      }
      if table.rows[k.value].userId != userId {
        return Refused(404, ADDRESS_NOT_FOUND);
      }
      SetDefaultKeepsTable(table.rows, k.value);
      table.rows := Unset(table.rows, userId, Some(id));
      table.rows := table.rows[k.value := table.rows[k.value].(isDefault := true)];
      r := Ok(table.rows[k.value]);
    }
  }
}
