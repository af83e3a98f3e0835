/**
 * Two reference tables of app.py that the application edits in place: the
 * location types (TblTypeEmpla123, `api_types_emplacement_add`) and the
 * circuit groups (TblGroupeCircuit, `api_groupes_circuit_add` and
 * `api_groupes_circuit_delete`).
 */
module Reference {
  import opened Wrappers
  import opened Text
  import opened Values
  import opened BulkRequests

  // ---------------------------------------------------------------------------
  // Location types
  // ---------------------------------------------------------------------------

  /** A row of TblTypeEmpla123; a stored column may be NULL. */
  datatype TypeRow = TypeRow(type1: Option<string>, type2: Option<string>, type3: Option<string>)

  /** The replies of the type add: Type1 missing, triple already stored, triple added, or a 500 when a field is not text. */
  datatype TypeReply = TypeMissing | TypeExists(t1: string, t2: string, t3: string) | TypeAdded(t1: string, t2: string, t3: string) | TypeFieldError

  /** `WHERE Type1=@t1 AND Type2=@t2 AND Type3=@t3`: a NULL column matches nothing. */
  predicate Stores(r: TypeRow, t1: string, t2: string, t3: string) {
    r.type1 == Some(t1) && r.type2 == Some(t2) && r.type3 == Some(t3)
  }

  /** No triple of text values is stored twice. */
  predicate UniqueTypes(rows: seq<TypeRow>) {
    forall i, j | 0 <= i < j < |rows| && rows[i].type1.Some? && rows[i].type2.Some? && rows[i].type3.Some? :: rows[i] != rows[j]
  }

  /** The type add: its reply and the table afterwards. */
  function TypeAdd(rows: seq<TypeRow>, body: Object): (seq<TypeRow>, TypeReply) {
    var t1 := StrippedOrEmpty(Field(body, "type"));
    var t2 := StrippedOrEmpty(Field(body, "designation"));
    var t3 := StrippedOrEmpty(Field(body, "longueur"));
    if t1.None? || t2.None? || t3.None? then (rows, TypeFieldError)
    else if t1.value == "" then (rows, TypeMissing)
    else if exists i | 0 <= i < |rows| :: Stores(rows[i], t1.value, t2.value, t3.value) then
      (rows, TypeExists(t1.value, t2.value, t3.value))
    else (rows + [TypeRow(Some(t1.value), Some(t2.value), Some(t3.value))], TypeAdded(t1.value, t2.value, t3.value))
  }

  /**
   * The type add stores a new triple with a non-empty Type1 and nothing else;
   * a missing Type1 and a stored triple are refused without change, so a
   * table without repeated triples keeps none.
   */
  lemma TypeAddMeaning(rows: seq<TypeRow>, body: Object)
    ensures var (after, reply) := TypeAdd(rows, body);
      && (!reply.TypeAdded? ==> after == rows)
      && (reply.TypeAdded? ==>
            && reply.t1 != ""
            && (forall i | 0 <= i < |rows| :: !Stores(rows[i], reply.t1, reply.t2, reply.t3))
            && after == rows + [TypeRow(Some(reply.t1), Some(reply.t2), Some(reply.t3))])
      && (reply.TypeExists? ==> exists i | 0 <= i < |rows| :: Stores(rows[i], reply.t1, reply.t2, reply.t3))
      && (Field(body, "type") == JNull && reply != TypeFieldError ==> reply == TypeMissing)
      && (UniqueTypes(rows) ==> UniqueTypes(after))
  {
    var (after, reply) := TypeAdd(rows, body);
    if reply.TypeAdded? {
      var n := TypeRow(Some(reply.t1), Some(reply.t2), Some(reply.t3));
      assert after[|rows|] == n;
      assert forall i | 0 <= i < |rows| :: after[i] == rows[i];
    }
  }

  /** TblTypeEmpla123. */
  class LocationTypes {
    var rows: seq<TypeRow>

    constructor(initial: seq<TypeRow>)
      ensures rows == initial
    {
      rows := initial;
    }

    /** `api_types_emplacement_add`. */
    method Add(body: Object) returns (reply: TypeReply)
      modifies this
      ensures (rows, reply) == TypeAdd(old(rows), body)
    {
      var t1 := StrippedOrEmpty(Field(body, "type"));
      var t2 := StrippedOrEmpty(Field(body, "designation"));
      var t3 := StrippedOrEmpty(Field(body, "longueur"));
      if t1.None? || t2.None? || t3.None? {
        return TypeFieldError;
      }
      if t1.value == "" {
        return TypeMissing;
      }
      if exists i | 0 <= i < |rows| :: Stores(rows[i], t1.value, t2.value, t3.value) {
        return TypeExists(t1.value, t2.value, t3.value);
      }
      rows := rows + [TypeRow(Some(t1.value), Some(t2.value), Some(t3.value))];
      return TypeAdded(t1.value, t2.value, t3.value);
    }
  }

  // ---------------------------------------------------------------------------
  // Circuit groups
  // ---------------------------------------------------------------------------

  /** A row of TblGroupeCircuit: one circuit of one group. */
  datatype GroupRow = GroupRow(group: string, designation: string, circuit: string)

  /** The replies of the group endpoints. */
  datatype GroupReply =
    | GroupIncomplete
    | CircuitsTaken(conflicts: seq<GroupRow>)
    | GroupCreated
    | GroupUpdated
    | GroupMissing
    | GroupDeleted(group: string)
    | GroupFieldError

  /** `data.get(key, "").strip()`: a missing key is empty; anything but text makes `.strip()` raise. */
  function StripOr(o: Object, key: string): Option<string> {
    if key !in o then Some("")
    else match o[key]
      case JStr(s) => Some(Trim(s))
      case _ => None
  }

  /** The rows of other groups that already hold a requested circuit. */
  function Conflicts(rows: seq<GroupRow>, group: string, circuits: seq<string>): (r: seq<GroupRow>)
    ensures forall x :: x in r <==> x in rows && x.circuit in circuits && x.group != group
  {
    if rows == [] then []
    else (if rows[0].circuit in circuits && rows[0].group != group then [rows[0]] else []) + Conflicts(rows[1..], group, circuits)
  }

  /** `DELETE ... WHERE GroupeCircuit = @groupe`: the rows of every other group, in order. */
  function WithoutGroup(rows: seq<GroupRow>, group: string): (r: seq<GroupRow>)
    ensures forall x :: x in r <==> x in rows && x.group != group
    ensures |r| <= |rows|
  {
    if rows == [] then []
    else (if rows[0].group != group then [rows[0]] else []) + WithoutGroup(rows[1..], group)
  }

  /** The rows of one group, in order. */
  function OfGroup(rows: seq<GroupRow>, group: string): (r: seq<GroupRow>)
    ensures forall x :: x in r <==> x in rows && x.group == group
  {
    if rows == [] then []
    else (if rows[0].group == group then [rows[0]] else []) + OfGroup(rows[1..], group)
  }

  /** The rows the group add inserts: one per requested circuit, in request order. */
  function GroupRows(group: string, designation: string, circuits: seq<string>): (r: seq<GroupRow>)
    ensures |r| == |circuits|
    ensures forall i | 0 <= i < |r| :: r[i] == GroupRow(group, designation, circuits[i])
  {
    seq(|circuits|, i requires 0 <= i < |circuits| => GroupRow(group, designation, circuits[i]))
  }

  /** Every circuit belongs to one group at most. */
  predicate Exclusive(rows: seq<GroupRow>) {
    forall i, j | 0 <= i < |rows| && 0 <= j < |rows| && rows[i].circuit == rows[j].circuit :: rows[i].group == rows[j].group
  }

  /** The group add: its reply and the table afterwards. */
  function GroupAdd(rows: seq<GroupRow>, body: Object, circuits: seq<string>): (seq<GroupRow>, GroupReply) {
    var group := StripOr(body, "groupe");
    var designation := StripOr(body, "designation");
    if group.None? || designation.None? then (rows, GroupFieldError)
    else if group.value == "" || circuits == [] then (rows, GroupIncomplete)
    else
      var taken := Conflicts(rows, group.value, circuits);
      if taken != [] then (rows, CircuitsTaken(taken))
      else
        var existed := exists i | 0 <= i < |rows| :: rows[i].group == group.value;
        (WithoutGroup(rows, group.value) + GroupRows(group.value, designation.value, circuits),
         if existed then GroupUpdated else GroupCreated)
  }

  /** The group delete: its reply and the table afterwards. */
  function GroupDelete(rows: seq<GroupRow>, body: Object): (seq<GroupRow>, GroupReply) {
    var group := StrippedOrEmpty(Field(body, "groupe"));
    if group.None? then (rows, GroupFieldError)
    else if group.value == "" then (rows, GroupMissing)
    else (WithoutGroup(rows, group.value), GroupDeleted(group.value))
  }

  lemma {:induction false} WithoutGroupAppend(a: seq<GroupRow>, b: seq<GroupRow>, group: string)
    ensures WithoutGroup(a + b, group) == WithoutGroup(a, group) + WithoutGroup(b, group)
  {
    if a != [] {
      assert (a + b)[0] == a[0] && (a + b)[1..] == a[1..] + b;
      WithoutGroupAppend(a[1..], b, group);
    } else {
      assert a + b == b;
    }
  }

  lemma WithoutGroupSnoc(rows: seq<GroupRow>, x: GroupRow, group: string)
    ensures WithoutGroup(rows + [x], group) == WithoutGroup(rows, group) + (if x.group != group then [x] else [])
  {
    WithoutGroupAppend(rows, [x], group);
    assert [x][1..] == [];
  }

  /** One more row of the table: kept exactly when it is of another group. */
  lemma WithoutGroupStep(rows: seq<GroupRow>, i: nat, group: string)
    requires i < |rows|
    ensures WithoutGroup(rows[..i + 1], group) == WithoutGroup(rows[..i], group) + (if rows[i].group != group then [rows[i]] else [])
  {
    assert rows[..i + 1] == rows[..i] + [rows[i]];
    WithoutGroupSnoc(rows[..i], rows[i], group);
  }

  lemma {:induction false} OfGroupAppend(a: seq<GroupRow>, b: seq<GroupRow>, group: string)
    ensures OfGroup(a + b, group) == OfGroup(a, group) + OfGroup(b, group)
  {
    if a != [] {
      assert (a + b)[0] == a[0] && (a + b)[1..] == a[1..] + b;
      OfGroupAppend(a[1..], b, group);
    } else {
      assert a + b == b;
    }
  }

  lemma {:induction false} OfGroupOfOthers(rows: seq<GroupRow>, group: string, other: string)
    requires other != group
    ensures OfGroup(WithoutGroup(rows, group), other) == OfGroup(rows, other)
  {
    if rows != [] {
      OfGroupOfOthers(rows[1..], group, other);
      OfGroupAppend(if rows[0].group != group then [rows[0]] else [], WithoutGroup(rows[1..], group), other);
    }
  }

  lemma {:induction false} OfGroupNone(rows: seq<GroupRow>, group: string)
    requires forall i | 0 <= i < |rows| :: rows[i].group != group
    ensures OfGroup(rows, group) == []
  {
    if rows != [] {
      OfGroupNone(rows[1..], group);
    }
  }

  lemma {:induction false} OfGroupAll(rows: seq<GroupRow>, group: string)
    requires forall i | 0 <= i < |rows| :: rows[i].group == group
    ensures OfGroup(rows, group) == rows
  {
    if rows != [] {
      OfGroupAll(rows[1..], group);
    }
  }

  /**
   * A successful group add makes the group's rows exactly the requested
   * circuits in request order, and leaves the rows of every other group
   * as they were, in order.
   */
  lemma GroupAddMeaning(rows: seq<GroupRow>, body: Object, circuits: seq<string>, other: string)
    ensures var (after, reply) := GroupAdd(rows, body, circuits);
      && (!(reply.GroupCreated? || reply.GroupUpdated?) ==> after == rows)
      && ((reply.GroupCreated? || reply.GroupUpdated?) ==>
            var g := StripOr(body, "groupe").value;
            && OfGroup(after, g) == GroupRows(g, StripOr(body, "designation").value, circuits)
            && (other != g ==> OfGroup(after, other) == OfGroup(rows, other)))
  {
    var (after, reply) := GroupAdd(rows, body, circuits);
    if reply.GroupCreated? || reply.GroupUpdated? {
      var g := StripOr(body, "groupe").value;
      var kept := WithoutGroup(rows, g);
      var added := GroupRows(g, StripOr(body, "designation").value, circuits);
      OfGroupAppend(kept, added, g);
      OfGroupAppend(kept, added, other);
      assert forall i | 0 <= i < |kept| :: kept[i].group != g by {
        assert forall i | 0 <= i < |kept| :: kept[i] in kept;
      }
      OfGroupNone(kept, g);
      OfGroupAll(added, g);
      if other != g {
        OfGroupOfOthers(rows, g, other);
        OfGroupNone(added, other);
      }
    }
  }

  /** Joining a table with the rows of one group whose circuits it does not hold keeps circuits exclusive. */
  lemma ExclusiveJoin(a: seq<GroupRow>, b: seq<GroupRow>, g: string, circuits: seq<string>)
    requires Exclusive(a)
    requires forall x | x in a :: x.circuit !in circuits
    requires forall y | y in b :: y.group == g && y.circuit in circuits
    ensures Exclusive(a + b)
  {
    var ab := a + b;
    forall i, j | 0 <= i < |a| <= j < |ab| ensures ab[i].circuit != ab[j].circuit {
      assert ab[i] in a && ab[j] in b;
    }
    forall i, j | 0 <= i < |ab| && 0 <= j < |ab| && ab[i].circuit == ab[j].circuit
      ensures ab[i].group == ab[j].group
    {
      if i < |a| && j < |a| {
        assert ab[i] == a[i] && ab[j] == a[j];
      } else if |a| <= i && |a| <= j {
        assert ab[i] in b && ab[j] in b;
      }
    }
  }

  /** The rows left after removing a group keep circuits exclusive. */
  lemma ExclusiveWithout(rows: seq<GroupRow>, g: string)
    requires Exclusive(rows)
    ensures Exclusive(WithoutGroup(rows, g))
  {
    var r := WithoutGroup(rows, g);
    forall i, j | 0 <= i < |r| && 0 <= j < |r| && r[i].circuit == r[j].circuit ensures r[i].group == r[j].group {
      assert r[i] in rows && r[j] in rows;
    }
  }

  /** The conflict check keeps every circuit in one group at most. */
  lemma GroupAddExclusive(rows: seq<GroupRow>, body: Object, circuits: seq<string>)
    requires Exclusive(rows)
    ensures Exclusive(GroupAdd(rows, body, circuits).0)
  {
    var (after, reply) := GroupAdd(rows, body, circuits);
    if reply.GroupCreated? || reply.GroupUpdated? {
      var g := StripOr(body, "groupe").value;
      var kept := WithoutGroup(rows, g);
      var added := GroupRows(g, StripOr(body, "designation").value, circuits);
      assert Conflicts(rows, g, circuits) == [];
      ExclusiveWithout(rows, g);
      forall y | y in added ensures y.group == g && y.circuit in circuits {
        var k :| 0 <= k < |added| && added[k] == y;
      }
      ExclusiveJoin(kept, added, g, circuits);
    }
  }

  /** The group delete leaves no row of the named group and keeps every other group's rows. */
  lemma GroupDeleteMeaning(rows: seq<GroupRow>, body: Object, other: string)
    ensures var (after, reply) := GroupDelete(rows, body);
      && (!reply.GroupDeleted? ==> after == rows)
      && (reply.GroupDeleted? ==>
            && OfGroup(after, reply.group) == []
            && (other != reply.group ==> OfGroup(after, other) == OfGroup(rows, other)))
      && (Exclusive(rows) ==> Exclusive(after))
  {
    var (after, reply) := GroupDelete(rows, body);
    if reply.GroupDeleted? {
      assert forall i | 0 <= i < |after| :: after[i].group != reply.group by {
        assert forall i | 0 <= i < |after| :: after[i] in after;
      }
      OfGroupNone(after, reply.group);
      if other != reply.group {
        OfGroupOfOthers(rows, reply.group, other);
      }
      if Exclusive(rows) {
        ExclusiveWithout(rows, reply.group);
      }
    }
  }

  /** The row-by-row scan of the `DELETE`: the rows of the other groups, in order. */
  method KeepOtherGroups(rows: seq<GroupRow>, group: string) returns (kept: seq<GroupRow>)
    ensures kept == WithoutGroup(rows, group)
  {
    kept := [];
    for i := 0 to |rows|
      invariant kept == WithoutGroup(rows[..i], group)
    {
      WithoutGroupStep(rows, i, group);
      if rows[i].group != group {
        kept := kept + [rows[i]];
      }
    }
    assert rows[..|rows|] == rows;
  }

  /** TblGroupeCircuit. */
  class CircuitGroups {
    var rows: seq<GroupRow>

    constructor(initial: seq<GroupRow>)
      ensures rows == initial
    {
      rows := initial;
    }

    /** `DELETE FROM TblGroupeCircuit WHERE GroupeCircuit = @groupe`, row by row. */
    method DropGroup(group: string)
      modifies this
      ensures rows == WithoutGroup(old(rows), group)
    {
      rows := KeepOtherGroups(rows, group);
    }

    /** `api_groupes_circuit_add`: the checks, then the group's rows deleted and one row inserted per requested circuit. */
    method Add(body: Object, circuits: seq<string>) returns (reply: GroupReply)
      modifies this
      ensures (rows, reply) == GroupAdd(old(rows), body, circuits)
    {
      var group := StripOr(body, "groupe");
      var designation := StripOr(body, "designation");
      if group.None? || designation.None? {
        return GroupFieldError;
      }
      if group.value == "" || |circuits| == 0 {
        return GroupIncomplete;
      }
      var taken := Conflicts(rows, group.value, circuits);
      if taken != [] {
        return CircuitsTaken(taken);
      }
      var existed := exists i | 0 <= i < |rows| :: rows[i].group == group.value;
      DropGroup(group.value);
      InsertGroup(group.value, designation.value, circuits);
      reply := if existed then GroupUpdated else GroupCreated;
    }

    /** The `INSERT` of one row per circuit, in request order. */
    method InsertGroup(group: string, designation: string, circuits: seq<string>)
      modifies this
      ensures rows == old(rows) + GroupRows(group, designation, circuits)
    {
      for k := 0 to |circuits|
        invariant rows == old(rows) + GroupRows(group, designation, circuits[..k])
      {
        assert GroupRows(group, designation, circuits[..k + 1])
          == GroupRows(group, designation, circuits[..k]) + [GroupRow(group, designation, circuits[k])];
        rows := rows + [GroupRow(group, designation, circuits[k])];
      }
      assert circuits[..|circuits|] == circuits;
    }

    /** `api_groupes_circuit_delete`. */
    method Delete(body: Object) returns (reply: GroupReply)
      modifies this
      ensures (rows, reply) == GroupDelete(old(rows), body)
    {
      var group := StrippedOrEmpty(Field(body, "groupe"));
      if group.None? {
        return GroupFieldError;
      }
      if group.value == "" {
        return GroupMissing;
      }
      DropGroup(group.value);
      return GroupDeleted(group.value);
    }
  }
}
