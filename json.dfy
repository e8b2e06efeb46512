/** JSON documents after parsing, and the way Go's encoding/json binds the
    members of an object to the fields of a struct.

    An object keeps its members in text order: Go matches a member to a
    field by exact or case-insensitive name (FoldEq), later members
    overwrite earlier ones, and a member of the wrong JSON kind makes the
    whole decode fail. `null` leaves a scalar or struct field as it was and
    resets a map field to nil; each object bound to a map field merges its
    members into the map. */
module Json {
  import opened Common

  datatype Json =
    | JNull
    | JBool(b: bool)
    | JNum(n: int)
    | JStr(s: string)
    | JArr(items: seq<Json>)
    | JObj(members: seq<Member>)

  datatype Member = Member(key: string, value: Json)

  /** The non-null values of the members bound to struct field `field`, in
      text order. */
  function Bound(members: seq<Member>, field: string): (vs: seq<Json>)
    ensures forall i :: 0 <= i < |vs| ==> vs[i] != JNull
    ensures |vs| <= |members|
  {
    if members == [] then []
    else
      var rest := Bound(members[..|members| - 1], field);
      var m := members[|members| - 1];
      if FoldEq(m.key, field) && m.value != JNull then rest + [m.value] else rest
  }

  /** The members of the JSON value a struct is decoded from: an object's
      members; `null` decodes to the zero struct; anything else is a type
      error. */
  function StructMembers(j: Json): (r: Result<seq<Member>>)
    ensures r.Ok? <==> (j.JObj? || j.JNull?)
  {
    match j
    case JObj(ms) => Ok(ms)
    case JNull => Ok([])
    case _ => Err("cannot unmarshal into Go struct")
  }

  /** Decodes a `string` field. */
  function StringField(members: seq<Member>, field: string): (r: Result<string>)
    ensures r.Ok? <==> forall v :: v in Bound(members, field) ==> v.JStr?
    ensures r.Ok? && r.value != "" ==> JStr(r.value) in Bound(members, field)
  {
    var vs := Bound(members, field);
    if exists v :: v in vs && !v.JStr? then Err("cannot unmarshal into Go string field " + field)
    else if vs == [] then Ok("")
    else Ok(vs[|vs| - 1].s)
  }

  /** Decodes a `bool` field. */
  function BoolField(members: seq<Member>, field: string): (r: Result<bool>)
    ensures r.Ok? <==> forall v :: v in Bound(members, field) ==> v.JBool?
  {
    var vs := Bound(members, field);
    if exists v :: v in vs && !v.JBool? then Err("cannot unmarshal into Go bool field " + field)
    else if vs == [] then Ok(false)
    else Ok(vs[|vs| - 1].b)
  }

  predicate IsU8(v: Json) { v.JNum? && 0 <= v.n < 256 }

  /** Decodes a `uint8` field: a number out of range is an error. */
  function U8Field(members: seq<Member>, field: string): (r: Result<u8>)
    ensures r.Ok? <==> forall v :: v in Bound(members, field) ==> IsU8(v)
  {
    var vs := Bound(members, field);
    if exists v :: v in vs && !IsU8(v) then Err("cannot unmarshal into Go uint8 field " + field)
    else if vs == [] then Ok(0)
    else
      var last := vs[|vs| - 1];
      assert last in vs;
      var n: u8 := last.n;
      Ok(n)
  }

  /** The JSON value a nested struct or map field is decoded from: the last
      bound value, or `null` when none is bound. */
  function LastBound(members: seq<Member>, field: string): Json
  {
    var vs := Bound(members, field);
    if vs == [] then JNull else vs[|vs| - 1]
  }

  /** The values of all members bound to struct field `field`, nulls
      included, in text order. */
  function Occurrences(members: seq<Member>, field: string): (vs: seq<Json>)
    ensures |vs| <= |members|
  {
    if members == [] then []
    else
      var rest := Occurrences(members[..|members| - 1], field);
      var m := members[|members| - 1];
      if FoldEq(m.key, field) then rest + [m.value] else rest
  }

  /** The entries a map ends with after decoding `vs` into it in turn:
      `null` resets it, an object adds its members (a later key replacing
      an earlier one when the entries are read into a map), and any other
      value is a type error. */
  function MergeObjects(vs: seq<Json>): (r: Result<seq<Member>>)
    ensures r.Ok? <==> forall v :: v in vs ==> v.JNull? || v.JObj?
    ensures r.Ok? && vs != [] && vs[|vs| - 1].JNull? ==> r.value == []
    ensures r.Ok? && vs != [] && vs[|vs| - 1].JObj? ==>
              |vs[|vs| - 1].members| <= |r.value| && r.value[|r.value| - |vs[|vs| - 1].members|..] == vs[|vs| - 1].members
  {
    if vs == [] then Ok([])
    else
      var r := MergeObjects(vs[..|vs| - 1]);
      var v := vs[|vs| - 1];
      assert forall w :: w in vs <==> w in vs[..|vs| - 1] || w == v;
      if r.Err? then r
      else if v.JNull? then Ok([])
      else if v.JObj? then Ok(r.value + v.members)
      else Err("cannot unmarshal into Go map")
  }

  /** Decodes a map field: the entries of the merged objects, in order. */
  function MapField(members: seq<Member>, field: string): Result<seq<Member>>
  {
    MergeObjects(Occurrences(members, field))
  }

  /** A map field bound to one object decodes to its members; bound to
      `null` or to nothing, to no entries. */
  lemma MapFieldSingle(key: string, v: Json, field: string)
    requires FoldEq(key, field) && (v.JObj? || v.JNull?)
    ensures MapField([Member(key, v)], field) == Ok(if v.JObj? then v.members else [])
  {
    assert Occurrences([Member(key, v)], field) == [v] by {
      assert [Member(key, v)][..0] == [];
    }
    assert [v][..0] == [];
    assert MergeObjects([v][..0]) == Ok([]);
    if v.JObj? {
      assert [] + v.members == v.members;
    }
  }

  /** A field bound to one string decodes to that string. */
  lemma StringFieldOf(members: seq<Member>, field: string, t: string)
    requires Bound(members, field) == [JStr(t)]
    ensures StringField(members, field) == Ok(t)
  {
  }

  /** A bool field bound to `true`, or to nothing for `false`, decodes to
      that bool. */
  lemma BoolFieldOf(members: seq<Member>, field: string, b: bool)
    requires Bound(members, field) == (if b then [JBool(true)] else [])
    ensures BoolField(members, field) == Ok(b)
  {
  }

  /** A uint8 field bound to the number, or to nothing for zero, decodes
      to that number. */
  lemma U8FieldOf(members: seq<Member>, field: string, n: u8)
    requires Bound(members, field) == (if n != 0 then [JNum(n)] else [])
    ensures U8Field(members, field) == Ok(n)
  {
  }

  lemma BoundSingle(key: string, v: Json, field: string)
    requires FoldEq(key, field) && v != JNull
    ensures Bound([Member(key, v)], field) == [v]
  {
  }

  lemma {:induction false} BoundAppend(a: seq<Member>, b: seq<Member>, field: string)
    ensures Bound(a + b, field) == Bound(a, field) + Bound(b, field)
  {
    if b != [] {
      assert (a + b)[..|a + b| - 1] == a + b[..|b| - 1];
      BoundAppend(a, b[..|b| - 1], field);
    } else {
      assert a + b == a;
    }
  }

  /** A member whose key does not fold to the field name is never bound. */
  lemma BoundSkips(key: string, v: Json, field: string)
    requires !FoldEq(key, field)
    ensures Bound([Member(key, v)], field) == []
  {
  }

  /** The one member whose key folds to the field name is bound, unless it
      is null. */
  lemma {:induction false} BoundAt(members: seq<Member>, field: string, i: nat)
    requires i < |members| && FoldEq(members[i].key, field)
    requires forall k :: 0 <= k < |members| && k != i ==> !FoldEq(members[k].key, field)
    ensures Bound(members, field) == if members[i].value == JNull then [] else [members[i].value]
  {
    var init := members[..|members| - 1];
    if i < |members| - 1 {
      BoundAt(init, field, i);
    } else {
      BoundNone(init, field);
    }
  }

  /** No member binds a field no key folds to. */
  lemma {:induction false} BoundNone(members: seq<Member>, field: string)
    requires forall k :: 0 <= k < |members| ==> !FoldEq(members[k].key, field)
    ensures Bound(members, field) == []
  {
    if members != [] {
      BoundNone(members[..|members| - 1], field);
    }
  }
}
