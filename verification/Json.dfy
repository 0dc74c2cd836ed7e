/** JSON values and the merge patch of section 2 of RFC 7396, which MySQL's
    JSON_MERGE_PATCH implements. */
module Json {
  import opened Base

  datatype Value =
    | Null
    | Bool(flag: bool)
    | Number(number: real)
    | Text(text: string)
    | List(items: seq<Value>)
    | Object(fields: map<string, Value>)

  function Fields(v: Value): map<string, Value> {
    if v.Object? then v.fields else map[]
  }

  function Field(v: Value, name: string): Option<Value> {
    if v.Object? && name in v.fields then Some(v.fields[name]) else None
  }

  function MergePatch(target: Value, patch: Value): Value
    decreases patch
  {
    if !patch.Object? then patch
    else
      var t := Fields(target);
      Object(map name | name in t.Keys + patch.fields.Keys && !(name in patch.fields && patch.fields[name] == Null) ::
        if name !in patch.fields then t[name]
        else MergePatch(if name in t then t[name] else Null, patch.fields[name]))
  }

  /** The merge patch algorithm as a relation: null removes a member, an object is merged into the member, any other
      value replaces it, and members that the patch does not name stay. */
  ghost predicate Merged(target: Value, patch: Value, result: Value)
    decreases patch
  {
    if !patch.Object? then result == patch
    else
      && result.Object?
      && (forall name :: name in result.fields <==>
            if name in patch.fields then patch.fields[name] != Null else target.Object? && name in target.fields)
      && (forall name :: name in result.fields && name !in patch.fields ==> result.fields[name] == target.fields[name])
      && forall name :: name in patch.fields && patch.fields[name] != Null ==>
           Merged(if target.Object? && name in target.fields then target.fields[name] else Null, patch.fields[name],
                  result.fields[name])
  }

  lemma {:induction false} MergePatchMerges(target: Value, patch: Value)
    ensures Merged(target, patch, MergePatch(target, patch))
    decreases patch
  {
    if patch.Object? {
      var result := MergePatch(target, patch);
      forall name | name in patch.fields && patch.fields[name] != Null
        ensures Merged(if target.Object? && name in target.fields then target.fields[name] else Null,
                       patch.fields[name], result.fields[name])
      {
        MergePatchMerges(if target.Object? && name in target.fields then target.fields[name] else Null,
                         patch.fields[name]);
      }
    }
  }

  /** A patch of one field merges into that field and leaves every other field alone. */
  lemma PatchField(target: Value, name: string, value: Value, other: string)
    requires value != Null
    ensures Field(MergePatch(target, Object(map[name := value])), other) ==
            if other == name then Some(MergePatch(if name in Fields(target) then Fields(target)[name] else Null, value))
            else Field(target, other)
  {
  }

  /** Patching twice with the same value is patching once. */
  lemma {:induction false} MergeIdempotent(target: Value, patch: Value)
    ensures MergePatch(MergePatch(target, patch), patch) == MergePatch(target, patch)
    decreases patch
  {
    if patch.Object? {
      var once := MergePatch(target, patch);
      var twice := MergePatch(once, patch);
      forall name | name in patch.fields && patch.fields[name] != Null
        ensures name in once.fields && name in twice.fields && twice.fields[name] == once.fields[name]
      {
        MergeIdempotent(if name in Fields(target) then Fields(target)[name] else Null, patch.fields[name]);
      }
      assert twice.fields == once.fields;
    }
  }
}
