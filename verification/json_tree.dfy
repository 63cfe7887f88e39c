/** Ordered JSON trees, and assignment along a path of keys. */
module JsonTree {
  import opened Wrappers

  /** `Int` holds what fits the 64-bit integers of the parser, and `Number` every other number. */
  datatype Json =
    | Null
    | Bool(flag: bool)
    | Int(number: int)
    | Number(text: string)
    | String(text: string)
    | Array(items: seq<Json>)
    | Object(members: seq<Member>)

  datatype Member = Member(key: string, value: Json)

  type Path = seq<string>

  function Lookup(members: seq<Member>, key: string): Option<Json> {
    if members == [] then None
    else if members[0].key == key then Some(members[0].value)
    else Lookup(members[1..], key)
  }

  /** In place where the key is there already, and at the end where it is not. */
  function Put(members: seq<Member>, key: string, value: Json): seq<Member> {
    if members == [] then [Member(key, value)]
    else if members[0].key == key then [Member(key, value)] + members[1..]
    else [members[0]] + Put(members[1..], key, value)
  }

  function Keys(members: seq<Member>): seq<string> {
    seq(|members|, i requires 0 <= i < |members| => members[i].key)
  }

  /** Anything but an object has no members, and is replaced by one that gets some. */
  function MembersOf(j: Json): seq<Member> {
    if j.Object? then j.members else []
  }

  function Get(j: Json, path: Path): Option<Json>
    decreases |path|
  {
    if path == [] then Some(j)
    else
      match Lookup(MembersOf(j), path[0])
      case None => None
      case Some(child) => Get(child, path[1..])
  }

  function ChildOf(j: Json, key: string): Json {
    match Lookup(MembersOf(j), key)
    case None => Null
    case Some(child) => child
  }

  function Set(j: Json, path: Path, value: Json): Json
    decreases |path|
  {
    if path == [] then value
    else Object(Put(MembersOf(j), path[0], Set(ChildOf(j, path[0]), path[1..], value)))
  }

  datatype Assignment = Assignment(path: Path, value: Json)

  function Assign(j: Json, assignments: seq<Assignment>): Json
    decreases |assignments|
  {
    if assignments == [] then j
    else Assign(Set(j, assignments[0].path, assignments[0].value), assignments[1..])
  }

  /** Neither path leads through the other. */
  predicate Apart(p: Path, q: Path) {
    exists i | 0 <= i < |p| && i < |q| :: p[i] != q[i]
  }

  ghost predicate AllApart(assignments: seq<Assignment>) {
    forall i, j | 0 <= i < j < |assignments| :: Apart(assignments[i].path, assignments[j].path)
  }

  // ---- Members -------------------------------------------------------------------------------------

  lemma {:induction false} LookupPut(members: seq<Member>, key: string, value: Json, other: string)
    ensures Lookup(Put(members, key, value), other) == if other == key then Some(value) else Lookup(members, other)
  {
    if members != [] && members[0].key != key {
      LookupPut(members[1..], key, value, other);
      assert Put(members, key, value)[1..] == Put(members[1..], key, value);
    } else if members != [] {
      assert Put(members, key, value)[1..] == members[1..];
    }
  }

  lemma {:induction false} PutTwice(members: seq<Member>, key: string, first: Json, second: Json)
    ensures Put(Put(members, key, first), key, second) == Put(members, key, second)
  {
    if members != [] && members[0].key != key {
      PutTwice(members[1..], key, first, second);
      assert Put(members, key, first)[1..] == Put(members[1..], key, first);
    } else if members != [] {
      assert Put(members, key, first)[1..] == members[1..];
    }
  }

  /** A key that is already there keeps its place, so it may be put before or after another. */
  lemma {:induction false} PutCommutes(members: seq<Member>, key: string, value: Json, other: string, second: Json)
    requires key != other && Lookup(members, key).Some?
    ensures Put(Put(members, key, value), other, second) == Put(Put(members, other, second), key, value)
  {
    if members[0].key == key {
      assert Put(members, key, value)[1..] == members[1..];
      assert Put(members, other, second)[1..] == Put(members[1..], other, second);
    } else if members[0].key == other {
      assert Put(members, other, second)[1..] == members[1..];
      assert Put(members, key, value)[1..] == Put(members[1..], key, value);
    } else {
      PutCommutes(members[1..], key, value, other, second);
      assert Put(members, key, value)[1..] == Put(members[1..], key, value);
      assert Put(members, other, second)[1..] == Put(members[1..], other, second);
    }
  }

  lemma {:induction false} PutKeepsOrder(members: seq<Member>, key: string, value: Json)
    ensures Keys(members) <= Keys(Put(members, key, value))
    ensures Lookup(members, key).Some? ==> |Put(members, key, value)| == |members|
  {
    if members != [] && members[0].key != key {
      PutKeepsOrder(members[1..], key, value);
      var rest, put := members[1..], Put(members[1..], key, value);
      forall i | 0 <= i < |members| ensures i < |put| + 1 && Put(members, key, value)[i].key == members[i].key {
        assert i > 0 ==> Keys(rest)[i - 1] == Keys(put)[i - 1];
      }
    }
  }

  // ---- Paths ---------------------------------------------------------------------------------------

  lemma {:induction false} GetSet(j: Json, path: Path, value: Json)
    ensures Get(Set(j, path, value), path) == Some(value)
    decreases |path|
  {
    if path != [] {
      LookupPut(MembersOf(j), path[0], Set(ChildOf(j, path[0]), path[1..], value), path[0]);
      GetSet(ChildOf(j, path[0]), path[1..], value);
    }
  }

  lemma ApartTail(p: Path, q: Path)
    requires Apart(p, q) && p[0] == q[0]
    ensures Apart(p[1..], q[1..])
  {
    var i :| 0 <= i < |p| && i < |q| && p[i] != q[i];
    assert p[1..][i - 1] != q[1..][i - 1];
  }

  lemma ApartSymmetric(p: Path, q: Path)
    requires Apart(p, q)
    ensures Apart(q, p)
  {
    var i :| 0 <= i < |p| && i < |q| && p[i] != q[i];
    assert q[i] != p[i];
  }

  /** Setting one path leaves what every path apart from it leads to. */
  lemma {:induction false} GetApart(j: Json, path: Path, value: Json, other: Path)
    requires Apart(path, other)
    ensures Get(Set(j, path, value), other) == Get(j, other)
    decreases |path|
  {
    LookupPut(MembersOf(j), path[0], Set(ChildOf(j, path[0]), path[1..], value), other[0]);
    if path[0] == other[0] {
      ApartTail(path, other);
      GetApart(ChildOf(j, path[0]), path[1..], value, other[1..]);
    }
  }

  lemma {:induction false} SetTwice(j: Json, path: Path, first: Json, second: Json)
    ensures Set(Set(j, path, first), path, second) == Set(j, path, second)
    decreases |path|
  {
    if path != [] {
      var child := Set(ChildOf(j, path[0]), path[1..], first);
      LookupPut(MembersOf(j), path[0], child, path[0]);
      SetTwice(ChildOf(j, path[0]), path[1..], first, second);
      PutTwice(MembersOf(j), path[0], child, Set(child, path[1..], second));
    }
  }

  /** A path that is already there may be set before or after one apart from it. */
  lemma {:induction false} SetCommutes(j: Json, path: Path, value: Json, other: Path, second: Json)
    requires Apart(path, other) && Get(j, path).Some?
    ensures Set(Set(j, path, value), other, second) == Set(Set(j, other, second), path, value)
    decreases |path|
  {
    var members, key, name := MembersOf(j), path[0], other[0];
    var child, sibling := ChildOf(j, key), ChildOf(j, name);
    var here, there := Set(child, path[1..], value), Set(sibling, other[1..], second);
    LookupPut(members, key, here, name);
    LookupPut(members, name, there, key);
    if key == name {
      ApartTail(path, other);
      SetCommutes(child, path[1..], value, other[1..], second);
      PutTwice(members, key, here, Set(here, other[1..], second));
      PutTwice(members, key, there, Set(there, path[1..], value));
    } else {
      PutCommutes(members, key, here, name, there);
    }
  }

  /** The sections on the way to a value are objects. */
  lemma {:induction false} SectionIsObject(j: Json, path: Path, key: string)
    requires Get(j, path + [key]).Some?
    ensures Get(j, path).Some? && Get(j, path).value.Object?
    decreases |path|
  {
    if path == [] {
      assert ([] + [key])[0] == key;
    } else {
      assert (path + [key])[1..] == path[1..] + [key];
      SectionIsObject(ChildOf(j, path[0]), path[1..], key);
    }
  }

  // ---- Assignments ---------------------------------------------------------------------------------

  lemma {:induction false} AssignConcat(j: Json, a: seq<Assignment>, b: seq<Assignment>)
    ensures Assign(j, a + b) == Assign(Assign(j, a), b)
    decreases |a|
  {
    if a == [] {
      assert a + b == b;
    } else {
      assert (a + b)[1..] == a[1..] + b;
      AssignConcat(Set(j, a[0].path, a[0].value), a[1..], b);
    }
  }

  /** What every assignment is apart from stays as it is. */
  lemma {:induction false} AssignFrame(j: Json, assignments: seq<Assignment>, path: Path)
    requires forall i | 0 <= i < |assignments| :: Apart(assignments[i].path, path)
    ensures Get(Assign(j, assignments), path) == Get(j, path)
    decreases |assignments|
  {
    if assignments != [] {
      GetApart(j, assignments[0].path, assignments[0].value, path);
      AssignFrame(Set(j, assignments[0].path, assignments[0].value), assignments[1..], path);
    }
  }

  /** Every assignment is there to be read afterwards. */
  lemma {:induction false} AssignedIsRead(j: Json, assignments: seq<Assignment>, i: nat)
    requires AllApart(assignments) && i < |assignments|
    ensures Get(Assign(j, assignments), assignments[i].path) == Some(assignments[i].value)
    decreases |assignments|
  {
    var first, rest := assignments[0], assignments[1..];
    var next := Set(j, first.path, first.value);
    if i == 0 {
      GetSet(j, first.path, first.value);
      forall k | 0 <= k < |rest| ensures Apart(rest[k].path, first.path) {
        ApartSymmetric(first.path, assignments[k + 1].path);
      }
      AssignFrame(next, rest, first.path);
    } else {
      AssignedIsRead(next, rest, i - 1);
    }
  }

  /** A path that is already there may be set before or after assignments apart from it. */
  lemma {:induction false} SetCommutesWithAssign(j: Json, assignments: seq<Assignment>, path: Path, value: Json)
    requires Get(j, path).Some? && forall i | 0 <= i < |assignments| :: Apart(path, assignments[i].path)
    ensures Set(Assign(j, assignments), path, value) == Assign(Set(j, path, value), assignments)
    decreases |assignments|
  {
    if assignments != [] {
      var first, rest := assignments[0], assignments[1..];
      SetCommutes(j, path, value, first.path, first.value);
      ApartSymmetric(path, first.path);
      GetApart(j, first.path, first.value, path);
      SetCommutesWithAssign(Set(j, first.path, first.value), rest, path, value);
    }
  }

  predicate SamePaths(a: seq<Assignment>, b: seq<Assignment>) {
    |a| == |b| && forall i | 0 <= i < |a| :: a[i].path == b[i].path
  }

  /** What was assigned before along the same paths leaves no trace: not in a value, and not in the order. */
  lemma {:induction false} AssignForgets(j: Json, before: seq<Assignment>, after: seq<Assignment>)
    requires AllApart(after) && SamePaths(before, after)
    ensures Assign(Assign(j, before), after) == Assign(j, after)
    decreases |after|
  {
    if after != [] {
      var path, old', new' := after[0].path, before[0].value, after[0].value;
      var next := Set(j, path, old');
      GetSet(j, path, old');
      SetCommutesWithAssign(next, before[1..], path, new');
      SetTwice(j, path, old', new');
      AssignForgets(Set(j, path, new'), before[1..], after[1..]);
    }
  }

  // ---- Positions -----------------------------------------------------------------------------------

  /** An object on the way keeps its members in their order; what is new comes after them. */
  lemma {:induction false} SetKeepsOrder(j: Json, path: Path, value: Json, section: Path)
    requires Apart(path, section) || (section <= path && section != path)
    requires Get(j, section).Some? && Get(j, section).value.Object?
    ensures Get(Set(j, path, value), section).Some? && Get(Set(j, path, value), section).value.Object?
    ensures Keys(Get(j, section).value.members) <= Keys(Get(Set(j, path, value), section).value.members)
    decreases |path|
  {
    if Apart(path, section) {
      GetApart(j, path, value, section);
    } else {
      var inner := Set(ChildOf(j, path[0]), path[1..], value);
      if section == [] {
        PutKeepsOrder(MembersOf(j), path[0], inner);
      } else {
        LookupPut(MembersOf(j), path[0], inner, path[0]);
        assert section[0] == path[0] && section[1..] <= path[1..];
        SetKeepsOrder(ChildOf(j, path[0]), path[1..], value, section[1..]);
      }
    }
  }

  lemma {:induction false} AssignKeepsOrder(j: Json, assignments: seq<Assignment>, section: Path)
    requires forall i | 0 <= i < |assignments| ::
               Apart(assignments[i].path, section) || (section <= assignments[i].path && section != assignments[i].path)
    requires Get(j, section).Some? && Get(j, section).value.Object?
    ensures Get(Assign(j, assignments), section).Some? && Get(Assign(j, assignments), section).value.Object?
    ensures Keys(Get(j, section).value.members) <= Keys(Get(Assign(j, assignments), section).value.members)
    decreases |assignments|
  {
    if assignments != [] {
      SetKeepsOrder(j, assignments[0].path, assignments[0].value, section);
      AssignKeepsOrder(Set(j, assignments[0].path, assignments[0].value), assignments[1..], section);
    }
  }

  // ---- Sections ------------------------------------------------------------------------------------

  /** The assignments of a section, from where the section stands. */
  function Under(key: string, assignments: seq<Assignment>): seq<Assignment> {
    seq(|assignments|, i requires 0 <= i < |assignments| =>
      Assignment([key] + assignments[i].path, assignments[i].value))
  }

  /** A section as it is, or a new one in place of what is no object. */
  function Section(j: Json, key: string): Json {
    if ChildOf(j, key).Object? then ChildOf(j, key) else Object([])
  }

  function WithField(j: Json, key: string, value: Json): Json {
    Object(Put(MembersOf(j), key, value))
  }

  lemma Peel(j: Json, assignments: seq<Assignment>, k: nat)
    requires k < |assignments|
    ensures Assign(j, assignments[k..])
         == Assign(Set(j, assignments[k].path, assignments[k].value), assignments[k + 1..])
    ensures Assign(j, assignments[|assignments|..]) == j
  {
    assert assignments[k..][1..] == assignments[k + 1..];
  }

  lemma SetField(j: Json, key: string, value: Json)
    ensures Set(j, [key], value) == WithField(j, key, value)
  {
    assert [key][1..] == [];
  }

  /** Assigning within a section, from the whole, is assigning in the section and storing it again. */
  lemma {:induction false} AssignUnder(j: Json, key: string, assignments: seq<Assignment>)
    requires assignments != [] && forall i | 0 <= i < |assignments| :: assignments[i].path != []
    ensures Assign(j, Under(key, assignments)) == WithField(j, key, Assign(Section(j, key), assignments))
    decreases |assignments|
  {
    var first, rest := assignments[0], assignments[1..];
    var section := Section(j, key);
    var child := Set(section, first.path, first.value);
    assert ([key] + first.path)[1..] == first.path;
    var next := WithField(j, key, child);
    assert Set(j, [key] + first.path, first.value) == next;
    assert Under(key, assignments)[1..] == Under(key, rest);
    LookupPut(MembersOf(j), key, child, key);
    if rest != [] {
      AssignUnder(next, key, rest);
      PutTwice(MembersOf(j), key, child, Assign(child, rest));
    }
  }
}
