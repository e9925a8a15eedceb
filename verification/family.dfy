/**
 * The `family_members` table: a patient's dependants, added, edited and
 * deleted through the patient controller. Every statement on it is keyed by
 * the row id AND the owning patient, so a patient can never touch another
 * patient's dependants.
 */
module Family {
  import opened Common

  datatype Member = Member(
    id: nat,
    patientId: nat,
    fullName: string,
    gender: Option<string>,
    dob: Option<string>,
    bloodGroup: Option<string>,
    heightCm: Option<int>,
    weightKg: Option<int>,
    relation: string,
    createdAt: int)

  /** A column of `family_members` that updateFamilyMember may set. */
  datatype Column =
    | FullNameColumn | GenderColumn | DobColumn | BloodGroupColumn
    | HeightColumn | WeightColumn | RelationColumn

  /** `SET column = value` on one row. */
  function Assign(m: Member, c: Column, v: SqlValue): Member
  {
    match (c, v)
    case (FullNameColumn, Text(s)) => m.(fullName := s)
    case (GenderColumn, Text(s)) => m.(gender := Some(s))
    case (DobColumn, Text(s)) => m.(dob := Some(s))
    case (BloodGroupColumn, Text(s)) => m.(bloodGroup := Some(s))
    case (HeightColumn, Number(n)) => m.(heightCm := Some(n))
    case (WeightColumn, Number(n)) => m.(weightKg := Some(n))
    case (RelationColumn, Text(s)) => m.(relation := s)
    case _ => m
  }

  /** The row after `SET c1 = v1, c2 = v2, ...`, applied left to right. */
  function AssignAll(m: Member, columns: seq<Column>, values: seq<SqlValue>): (r: Member)
    requires |columns| <= |values|
    ensures r.id == m.id && r.patientId == m.patientId && r.createdAt == m.createdAt
    decreases |columns|
  {
    if |columns| == 0 then m else AssignAll(Assign(m, columns[0], values[0]), columns[1..], values[1..])
  }

  /** The value a column holds, NULL as `None`. */
  function Field(m: Member, c: Column): Option<SqlValue>
  {
    match c
    case FullNameColumn => Some(Text(m.fullName))
    case GenderColumn => if m.gender.Some? then Some(Text(m.gender.value)) else None
    case DobColumn => if m.dob.Some? then Some(Text(m.dob.value)) else None
    case BloodGroupColumn => if m.bloodGroup.Some? then Some(Text(m.bloodGroup.value)) else None
    case HeightColumn => if m.heightCm.Some? then Some(Number(m.heightCm.value)) else None
    case WeightColumn => if m.weightKg.Some? then Some(Number(m.weightKg.value)) else None
    case RelationColumn => Some(Text(m.relation))
  }

  /** Heights and weights are numbers, every other column text. */
  predicate ValueFits(c: Column, v: SqlValue)
  {
    if c == HeightColumn || c == WeightColumn then v.Number? else v.Text?
  }

  /**
   * With distinct columns and well-typed values, the SET list writes each
   * listed column with its own value and leaves every other column as it was.
   */
  lemma {:induction false} AssignAllFields(m: Member, columns: seq<Column>, values: seq<SqlValue>)
    requires |columns| <= |values|
    requires forall i, j :: 0 <= i < j < |columns| ==> columns[i] != columns[j]
    requires forall i :: 0 <= i < |columns| ==> ValueFits(columns[i], values[i])
    ensures forall i :: 0 <= i < |columns| ==> Field(AssignAll(m, columns, values), columns[i]) == Some(values[i])
    ensures forall c :: c !in columns ==> Field(AssignAll(m, columns, values), c) == Field(m, c)
    decreases |columns|
  {
    if |columns| > 0 {
      var q := Assign(m, columns[0], values[0]);
      var cs, vs := columns[1..], values[1..];
      assert forall i, j :: 0 <= i < j < |cs| ==> cs[i] != cs[j] by {
        forall i, j | 0 <= i < j < |cs| ensures cs[i] != cs[j] { assert cs[i] == columns[i + 1] && cs[j] == columns[j + 1]; }
      }
      AssignAllFields(q, cs, vs);
      assert columns[0] !in cs by {
        forall i | 0 <= i < |cs| ensures cs[i] != columns[0] { assert cs[i] == columns[i + 1]; }
      }
      forall i | 0 <= i < |columns|
        ensures Field(AssignAll(m, columns, values), columns[i]) == Some(values[i])
      {
        if i > 0 { assert columns[i] == cs[i - 1] && values[i] == vs[i - 1]; }
      }
    }
  }

  /** A row is determined by its key columns and the columns an update may set. */
  lemma SameFields(r: Member, q: Member)
    requires r.id == q.id && r.patientId == q.patientId && r.createdAt == q.createdAt
    requires Field(r, FullNameColumn) == Field(q, FullNameColumn)
    requires Field(r, GenderColumn) == Field(q, GenderColumn)
    requires Field(r, DobColumn) == Field(q, DobColumn)
    requires Field(r, BloodGroupColumn) == Field(q, BloodGroupColumn)
    requires Field(r, HeightColumn) == Field(q, HeightColumn)
    requires Field(r, WeightColumn) == Field(q, WeightColumn)
    requires Field(r, RelationColumn) == Field(q, RelationColumn)
    ensures r == q
  {
  }

  /** `WHERE id = ? AND patient_id = ?`. */
  predicate Owned(m: Member, id: nat, patientId: nat)
  {
    m.id == id && m.patientId == patientId
  }

  /** affectedRows of a statement with that WHERE clause. */
  function OwnedCount(rows: seq<Member>, id: nat, patientId: nat): (n: nat)
    ensures n == 0 <==> forall i :: 0 <= i < |rows| ==> !Owned(rows[i], id, patientId)
  {
    if |rows| == 0 then 0
    else
      assert forall i :: 1 <= i < |rows| ==> rows[i] == rows[1..][i - 1];
      (if Owned(rows[0], id, patientId) then 1 else 0) + OwnedCount(rows[1..], id, patientId)
  }

  /** The table after `DELETE FROM family_members WHERE id = ? AND patient_id = ?`. */
  function DeleteOwned(rows: seq<Member>, id: nat, patientId: nat): (r: seq<Member>)
    ensures forall m :: m in r <==> m in rows && !Owned(m, id, patientId)
  {
    if |rows| == 0 then []
    else
      var rest := DeleteOwned(rows[1..], id, patientId);
      assert forall m :: m in rows <==> m == rows[0] || m in rows[1..];
      if Owned(rows[0], id, patientId) then rest else [rows[0]] + rest
  }

  ghost predicate UniqueIds(rows: seq<Member>, nextId: nat)
  {
    && (forall i :: 0 <= i < |rows| ==> rows[i].id < nextId)
    && (forall i, j :: 0 <= i < j < |rows| ==> rows[i].id != rows[j].id)
  }

  /** Deleting keeps only rows of the old table, so ids stay unique. */
  lemma {:induction false} DeleteKeepsUnique(rows: seq<Member>, nextId: nat, id: nat, patientId: nat)
    requires UniqueIds(rows, nextId)
    ensures UniqueIds(DeleteOwned(rows, id, patientId), nextId)
  {
    if |rows| > 0 {
      var tail := rows[1..];
      assert UniqueIds(tail, nextId) by {
        assert forall i :: 0 <= i < |tail| ==> tail[i] == rows[i + 1];
      }
      DeleteKeepsUnique(tail, nextId, id, patientId);
      var rest := DeleteOwned(tail, id, patientId);
      forall j | 0 <= j < |rest| ensures rest[j].id != rows[0].id {
        assert rest[j] in tail;
        var k :| 0 <= k < |tail| && tail[k] == rest[j];
        assert rows[k + 1] == rest[j];
      }
    }
  }

  class FamilyTable {
    var rows: seq<Member>
    /** The AUTO_INCREMENT counter of `family_members.id`. */
    var nextId: nat

    ghost predicate Valid()
      reads this
    {
      UniqueIds(rows, nextId)
    }

    constructor ()
      ensures Valid() && rows == [] && nextId == 1
    {
      rows := [];
      nextId := 1;
    }

    /** INSERT INTO family_members: the row gets the next id. */
    method Insert(m: Member) returns (id: nat)
      requires Valid()
      modifies this
      ensures Valid()
      ensures id == old(nextId) && nextId == id + 1
      ensures rows == old(rows) + [m.(id := id)]
    {
      id := nextId;
      rows := rows + [m.(id := id)];
      nextId := nextId + 1;
    }

    /** UPDATE family_members SET ... WHERE id = ? AND patient_id = ?; returns affectedRows. */
    method Update(id: nat, patientId: nat, columns: seq<Column>, values: seq<SqlValue>) returns (affected: nat)
      requires Valid() && |columns| <= |values|
      modifies this
      ensures Valid() && nextId == old(nextId)
      ensures affected == OwnedCount(old(rows), id, patientId)
      ensures |rows| == |old(rows)|
      ensures forall i :: 0 <= i < |rows| ==>
        rows[i] == if Owned(old(rows)[i], id, patientId) then AssignAll(old(rows)[i], columns, values) else old(rows)[i]
    {
      affected := OwnedCount(rows, id, patientId);
      var old_ := rows;
      rows := seq(|old_|, i requires 0 <= i < |old_| =>
        if Owned(old_[i], id, patientId) then AssignAll(old_[i], columns, values) else old_[i]);
      assert forall i :: 0 <= i < |rows| ==> rows[i].id == old_[i].id;
    }

    /** DELETE FROM family_members WHERE id = ? AND patient_id = ?; returns affectedRows. */
    method Delete(id: nat, patientId: nat) returns (affected: nat)
      requires Valid()
      modifies this
      ensures Valid() && nextId == old(nextId)
      ensures affected == OwnedCount(old(rows), id, patientId)
      ensures rows == DeleteOwned(old(rows), id, patientId)
    {
      affected := OwnedCount(rows, id, patientId);
      DeleteKeepsUnique(rows, nextId, id, patientId);
      rows := DeleteOwned(rows, id, patientId);
    }
  }
}
