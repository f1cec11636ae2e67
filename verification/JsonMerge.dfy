/** JSON values, the merge patch of RFC 7396 section 2, and the patch a client computes from two
    versions of an object (the `MergeFrom` patch of the Kubernetes client). */
module JsonMerge {

  datatype Json =
    | Null
    | Bool(b: bool)
    | Num(n: int)
    | Str(s: string)
    | Arr(elems: seq<Json>)
    | Obj(fields: map<string, Json>)

  /** RFC 7396 section 2: `null` removes a member, an object is merged member by member and any
      other value replaces the target. An absent target member behaves like a non-object. */
  function Apply(target: Json, patch: Json): Json
    decreases patch
  {
    if patch.Obj? then
      var base := if target.Obj? then target.fields else map[];
      Obj(map k | k in base.Keys + patch.fields.Keys && !(k in patch.fields && patch.fields[k].Null?) ::
            if k in patch.fields then Apply(if k in base then base[k] else Null, patch.fields[k])
            else base[k])
    else patch
  }

  /** The members that changed from `a` to `b`; a removed member is written as `null`, and a member
      that is an object on both sides is compared recursively and left out when nothing changed. */
  function Diff(a: Json, b: Json): map<string, Json>
    requires a.Obj? && b.Obj?
    decreases b, 0
  {
    (map k | k in b.fields && (k !in a.fields || Changed(a.fields[k], b.fields[k])) ::
       if k in a.fields then Change(a.fields[k], b.fields[k]) else b.fields[k])
    + (map k | k in a.fields && k !in b.fields :: Null)
  }

  predicate Changed(a: Json, b: Json)
    decreases b, 1
  {
    if a.Obj? && b.Obj? then Diff(a, b) != map[] else a != b
  }

  function Change(a: Json, b: Json): Json
    decreases b, 1
  {
    if a.Obj? && b.Obj? then Obj(Diff(a, b)) else b
  }

  /** No object member, at any depth reached through objects, is `null`. */
  predicate NullFree(j: Json) {
    j.Obj? ==> forall k | k in j.fields :: !j.fields[k].Null? && NullFree(j.fields[k])
  }

  /** The patch is empty exactly when nothing changed. */
  lemma {:induction false} DiffIsEmptyIffEqual(a: Json, b: Json)
    requires a.Obj? && b.Obj?
    ensures Diff(a, b) == map[] <==> a == b
    decreases b
  {
    forall k | k in a.fields && k in b.fields
      ensures Changed(a.fields[k], b.fields[k]) <==> a.fields[k] != b.fields[k]
    {
      if a.fields[k].Obj? && b.fields[k].Obj? {
        DiffIsEmptyIffEqual(a.fields[k], b.fields[k]);
      }
    }
    if a.fields == b.fields {
      assert Diff(a, b) == map[];
    } else {
      var k :| (k in a.fields || k in b.fields)
               && !(k in a.fields && k in b.fields && a.fields[k] == b.fields[k]);
      assert k in Diff(a, b);
    }
  }

  /** A null-free value is its own patch, whatever it is applied to that is not an object. */
  lemma {:induction false} ApplyFresh(t: Json, j: Json)
    requires NullFree(j) && !t.Obj?
    ensures Apply(t, j) == j
    decreases j
  {
    if j.Obj? {
      forall k | k in j.fields ensures Apply(Null, j.fields[k]) == j.fields[k] {
        ApplyFresh(Null, j.fields[k]);
      }
      assert Apply(t, j).fields == j.fields;
    }
  }

  /** Applying the computed patch to the original yields the modified object. */
  lemma {:induction false} ApplyDiff(a: Json, b: Json)
    requires a.Obj? && b.Obj? && NullFree(b)
    ensures Apply(a, Obj(Diff(a, b))) == b
    decreases b
  {
    var p := Diff(a, b);
    forall k | k in b.fields
      ensures k in Apply(a, Obj(p)).fields && Apply(a, Obj(p)).fields[k] == b.fields[k]
    {
      ApplyDiffMember(a, b, k);
    }
    forall k | k in a.fields && k !in b.fields ensures k !in Apply(a, Obj(p)).fields {
      assert p[k] == Null;
    }
    assert Apply(a, Obj(p)).fields == b.fields;
  }

  lemma ApplyDiffMember(a: Json, b: Json, k: string)
    requires a.Obj? && b.Obj? && NullFree(b) && k in b.fields
    ensures k in Apply(a, Obj(Diff(a, b))).fields
    ensures Apply(a, Obj(Diff(a, b))).fields[k] == b.fields[k]
    decreases b, 0
  {
    var p := Diff(a, b);
    var bv := b.fields[k];
    if k !in a.fields {
      assert p[k] == bv;
      ApplyFresh(Null, bv);
    } else {
      var av := a.fields[k];
      if av.Obj? && bv.Obj? {
        DiffIsEmptyIffEqual(av, bv);
        ApplyDiff(av, bv);
      } else if av != bv {
        assert Changed(av, bv) && Change(av, bv) == bv && p[k] == Change(av, bv);
        if bv.Obj? { ApplyFresh(av, bv); }
      }
    }
  }
}
