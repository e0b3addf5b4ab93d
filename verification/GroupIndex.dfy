/** Looking a group up by its hashed identifier: through the identifier index when possible,
    otherwise by scanning every stored group. */
module GroupIndexes {
  import opened Common

  type Key = seq<int>
  type Gid = string
  type Aci = string

  datatype Group = Group(title: string, members: seq<Aci>)

  datatype Row = Row(key: Key, group: Group)

  /** The groups table, in the order the store lists it. */
  type Table = seq<Row>

  ghost predicate UniqueKeys(table: Table) {
    forall i, j :: 0 <= i < j < |table| ==> table[i].key != table[j].key
  }

  /** The identifier function (a SHA-256 digest of the master key) does not collide. */
  ghost predicate Injective(identifier: Key -> Gid) {
    forall k, l :: identifier(k) == identifier(l) ==> k == l
  }

  /** The store's own lookup by master key. */
  function ByKey(table: Table, key: Key): Option<Group> {
    if table == [] then None
    else if table[0].key == key then Some(table[0].group)
    else ByKey(table[1..], key)
  }

  predicate IsMember(g: Group, local: Aci) { local in g.members }

  /** `active_group`: the group, if the local account is a member. */
  function ActiveByKey(table: Table, key: Key, local: Aci): Option<Group> {
    var g := ByKey(table, key);
    if g.Some? && IsMember(g.value, local) then g else None
  }

  predicate Matches(row: Row, identifier: Key -> Gid, id: Gid, local: Aci) {
    identifier(row.key) == id && IsMember(row.group, local)
  }

  /** The reference: the first group with this identifier that the account belongs to. */
  function Scan(table: Table, identifier: Key -> Gid, id: Gid, local: Aci): Option<Row> {
    if table == [] then None
    else if Matches(table[0], identifier, id, local) then Some(table[0])
    else Scan(table[1..], identifier, id, local)
  }

  type Index = map<Gid, Key>

  /** What the indexed lookup answers. The two store reads may see different tables. */
  function Lookup(index: Index, first: Table, second: Table, identifier: Key -> Gid, id: Gid, local: Aci): Option<Row> {
    if id in index && ActiveByKey(first, index[id], local).Some?
    then Some(Row(index[id], ActiveByKey(first, index[id], local).value))
    else Scan(second, identifier, id, local)
  }

  function IndexAfter(index: Index, first: Table, second: Table, identifier: Key -> Gid, id: Gid, local: Aci): Index {
    if id in index && ActiveByKey(first, index[id], local).Some? then index
    else
      var found := Scan(second, identifier, id, local);
      if found.Some? then index[id := found.value.key] else index
  }

  /** Entries may be stale, but each leads to a key with that identifier. */
  ghost predicate Honest(index: Index, identifier: Key -> Gid) {
    forall id :: id in index ==> identifier(index[id]) == id
  }

  lemma {:induction false} ScanSound(table: Table, identifier: Key -> Gid, id: Gid, local: Aci)
    requires Scan(table, identifier, id, local).Some?
    ensures var row := Scan(table, identifier, id, local).value;
            row in table && Matches(row, identifier, id, local)
  {
    if !Matches(table[0], identifier, id, local) {
      ScanSound(table[1..], identifier, id, local);
    }
  }

  lemma {:induction false} ByKeySound(table: Table, key: Key)
    requires ByKey(table, key).Some?
    ensures Row(key, ByKey(table, key).value) in table
  {
    if table[0].key != key {
      ByKeySound(table[1..], key);
    } else {
      assert table[0] == Row(key, ByKey(table, key).value);
    }
  }

  /** With unique keys and no collisions only one row can carry an identifier, so whatever row
      matches is what the scan finds. */
  lemma {:induction false} ScanUnique(table: Table, identifier: Key -> Gid, id: Gid, local: Aci, row: Row)
    requires UniqueKeys(table) && Injective(identifier)
    requires row in table && Matches(row, identifier, id, local)
    ensures Scan(table, identifier, id, local) == Some(row)
  {
    if table[0] != row {
      TailUnique(table, row);
      ScanUnique(table[1..], identifier, id, local, row);
    }
  }

  lemma TailUnique(table: Table, row: Row)
    requires UniqueKeys(table) && row in table && table[0] != row
    ensures UniqueKeys(table[1..]) && row in table[1..] && table[0].key != row.key
  {
    var rest := table[1..];
    var i :| 0 <= i < |table| && table[i] == row;
    assert rest[i - 1] == row;
    forall a, b | 0 <= a < b < |rest|
      ensures rest[a].key != rest[b].key
    {
      assert table[a + 1].key != table[b + 1].key;
    }
  }

  /** One lookup, stale entries included: the answer is the scan's answer on the table that was
      read, and the index stays honest. */
  lemma LookupRefinesScan(index: Index, first: Table, second: Table, identifier: Key -> Gid, id: Gid, local: Aci)
    requires Honest(index, identifier) && Injective(identifier) && UniqueKeys(first)
    ensures var hit := id in index && ActiveByKey(first, index[id], local).Some?;
            Lookup(index, first, second, identifier, id, local)
            == Scan(if hit then first else second, identifier, id, local)
    ensures Honest(IndexAfter(index, first, second, identifier, id, local), identifier)
  {
    if id in index && ActiveByKey(first, index[id], local).Some? {
      ByKeySound(first, index[id]);
      ScanUnique(first, identifier, id, local, Row(index[id], ByKey(first, index[id]).value));
    } else if Scan(second, identifier, id, local).Some? {
      ScanSound(second, identifier, id, local);
    }
  }

  /** The scan finds the first matching row, and nothing only if there is none. */
  lemma {:induction false} ScanFindsFirst(table: Table, identifier: Key -> Gid, id: Gid, local: Aci, i: nat)
    requires i < |table| && identifier(table[i].key) == id && local in table[i].group.members
    requires forall j :: 0 <= j < i ==> identifier(table[j].key) != id || local !in table[j].group.members
    ensures Scan(table, identifier, id, local) == Some(table[i])
  {
    if i > 0 {
      assert !Matches(table[0], identifier, id, local);
      assert forall j :: 0 <= j < i - 1 ==> table[1..][j] == table[j + 1];
      ScanFindsFirst(table[1..], identifier, id, local, i - 1);
    }
  }

  /** A lookup that finds a group leaves its key in the index, and no other entry changes. */
  lemma LookupTeaches(index: Index, first: Table, second: Table, identifier: Key -> Gid, id: Gid, local: Aci)
    ensures var found, after := Lookup(index, first, second, identifier, id, local),
                                IndexAfter(index, first, second, identifier, id, local);
            && (found.Some? ==> id in after && after[id] == found.value.key)
            && (found.None? ==> after == index)
            && forall x :: x != id ==> (x in after <==> x in index) && (x in index ==> after[x] == index[x])
  {
  }

  datatype Op =
    | IndexGroup(key: Key)
    | RemoveIndex(id: Gid)
    | LookupGroup(id: Gid, first: Table, second: Table)

  function After(ops: seq<Op>, identifier: Key -> Gid, local: Aci): Index {
    if ops == [] then map[]
    else
      var index := After(ops[..|ops| - 1], identifier, local);
      match ops[|ops| - 1]
      case IndexGroup(key) => index[identifier(key) := key]
      case RemoveIndex(id) => index - {id}
      case LookupGroup(id, first, second) => IndexAfter(index, first, second, identifier, id, local)
  }

  lemma {:induction false} HonestAfter(ops: seq<Op>, identifier: Key -> Gid, local: Aci)
    ensures Honest(After(ops, identifier, local), identifier)
  {
    if ops != [] {
      HonestAfter(ops[..|ops| - 1], identifier, local);
      var index := After(ops[..|ops| - 1], identifier, local);
      match ops[|ops| - 1] {
        case LookupGroup(id, first, second) =>
          if Scan(second, identifier, id, local).Some? {
            ScanSound(second, identifier, id, local);
          }
        case _ =>
      }
    }
  }

  /** For every history of indexing, removing and looking up, and every store content, the
      indexed lookup gives the result of scanning all groups. */
  lemma IndexRefinesScan(ops: seq<Op>, identifier: Key -> Gid, local: Aci, table: Table, id: Gid)
    requires Injective(identifier) && UniqueKeys(table)
    ensures Lookup(After(ops, identifier, local), table, table, identifier, id, local)
            == Scan(table, identifier, id, local)
  {
    HonestAfter(ops, identifier, local);
    LookupRefinesScan(After(ops, identifier, local), table, table, identifier, id, local);
  }

  /** Freedom from collisions is needed: with two keys sharing an identifier, an indexed lookup
      and a scan disagree. */
  lemma CollisionBreaksRefinement() returns (table: Table, identifier: Key -> Gid, ops: seq<Op>)
    ensures UniqueKeys(table)
    ensures Lookup(After(ops, identifier, "me"), table, table, identifier, "id", "me")
            != Scan(table, identifier, "id", "me")
  {
    identifier := _ => "id";
    table := [Row([1], Group("a", ["me"])), Row([2], Group("b", ["me"]))];
    ops := [IndexGroup([2])];
    assert ops[..0] == [];
    assert After(ops, identifier, "me") == map["id" := [2]];
    assert table[1..] == [Row([2], Group("b", ["me"]))];
    assert ByKey(table, [2]) == Some(Group("b", ["me"]));
  }

  /** `MetadataCache` with `resolve_active_group_in_store`. */
  class MetadataCache {
    var groupIndex: Index

    constructor ()
      ensures groupIndex == map[]
    {
      groupIndex := map[];
    }

    method ResolveActiveGroup(first: Table, second: Table, identifier: Key -> Gid, id: Gid, local: Aci)
      returns (found: Option<Row>)
      modifies this
      ensures found == Lookup(old(groupIndex), first, second, identifier, id, local)
      ensures groupIndex == IndexAfter(old(groupIndex), first, second, identifier, id, local)
    {
      if id in groupIndex {
        var indexed := ActiveByKey(first, groupIndex[id], local);
        if indexed.Some? {
          return Some(Row(groupIndex[id], indexed.value));
        }
      }
      found := None;
      var i := 0;
      while i < |second|
        invariant 0 <= i <= |second|
        invariant found.None?
        invariant Scan(second, identifier, id, local) == Scan(second[i..], identifier, id, local)
        invariant groupIndex == old(groupIndex)
      {
        assert second[i..][1..] == second[i + 1..];
        if identifier(second[i].key) == id && IsMember(second[i].group, local) {
          found := Some(second[i]);
          groupIndex := groupIndex[id := second[i].key];
          return;
        }
        i := i + 1;
      }
    }
  }
}
