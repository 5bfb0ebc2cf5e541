/** JSON values as far as patching looks into them, and the deep merge. */
module Json {
  import opened Prelude

  /** Scalars and lists are atoms: a merge never looks inside them. */
  datatype Json = Null | Atom(text: Name) | Obj(fields: map<Name, Json>)

  /** Copy-and-recurse merge: objects merge member by member, anything else in the patch replaces. */
  function Merge(base: Json, patch: Json): Json
    decreases patch
  {
    if base.Obj? && patch.Obj? then
      Obj(map k | k in base.fields.Keys + patch.fields.Keys ::
            if k !in patch.fields then base.fields[k]
            else if k in base.fields then Merge(base.fields[k], patch.fields[k])
            else patch.fields[k])
    else patch
  }

  /** MergePatch of RFC 7396, section 2: a null member deletes, and a patch object turns any target into an object. */
  function MergePatch(target: Json, patch: Json): Json
    decreases patch
  {
    if patch.Obj? then
      var fields := if target.Obj? then target.fields else map[];
      Obj(map k | k in fields.Keys + patch.fields.Keys && (k in patch.fields ==> !patch.fields[k].Null?) ::
            if k in patch.fields then MergePatch(if k in fields then fields[k] else Null, patch.fields[k])
            else fields[k])
    else patch
  }

  ghost predicate NoNullMembers(j: Json)
    decreases j
  {
    j.Obj? ==> forall k | k in j.fields :: !j.fields[k].Null? && NoNullMembers(j.fields[k])
  }

  lemma {:induction false} MergePatchIntoNonObject(target: Json, patch: Json)
    requires !target.Obj? && NoNullMembers(patch)
    ensures MergePatch(target, patch) == patch
    decreases patch
  {
    if patch.Obj? {
      forall k | k in patch.fields
        ensures MergePatch(Null, patch.fields[k]) == patch.fields[k]
      {
        MergePatchIntoNonObject(Null, patch.fields[k]);
      }
    }
  }

  lemma {:induction false} MergeIsMergePatch(base: Json, patch: Json)
    requires NoNullMembers(patch)
    ensures Merge(base, patch) == MergePatch(base, patch)
    decreases patch
  {
    if !base.Obj? || !patch.Obj? {
      MergePatchIntoNonObject(if base.Obj? then Null else base, patch);
    } else {
      forall k | k in patch.fields
        ensures k in base.fields ==>
                Merge(base.fields[k], patch.fields[k]) == MergePatch(base.fields[k], patch.fields[k])
        ensures MergePatch(Null, patch.fields[k]) == patch.fields[k]
      {
        MergePatchIntoNonObject(Null, patch.fields[k]);
        if k in base.fields {
          MergeIsMergePatch(base.fields[k], patch.fields[k]);
        }
      }
    }
  }

  /** A null member is where the two part ways: the code stores it, the standard deletes. */
  lemma {:induction false} NullMembersDiffer(base: Json, patch: Json)
    requires !NoNullMembers(patch)
    ensures Merge(base, patch) != MergePatch(base, patch)
    decreases patch
  {
    var k :| k in patch.fields && (patch.fields[k].Null? || !NoNullMembers(patch.fields[k]));
    var merged, standard := Merge(base, patch), MergePatch(base, patch);
    if patch.fields[k].Null? {
      assert k in merged.fields && k !in standard.fields;
    } else {
      var was := if base.Obj? && k in base.fields then base.fields[k] else Null;
      NullMembersDiffer(was, patch.fields[k]);
      assert merged.fields[k] == Merge(was, patch.fields[k]);
      assert standard.fields[k] == MergePatch(was, patch.fields[k]);
    }
  }

  /** The merge is RFC 7396's exactly on patches without null members, whatever they are merged into. */
  lemma {:induction false} MergeAgreesWithStandard(base: Json, patch: Json)
    ensures Merge(base, patch) == MergePatch(base, patch) <==> NoNullMembers(patch)
  {
    if NoNullMembers(patch) {
      MergeIsMergePatch(base, patch);
    } else {
      NullMembersDiffer(base, patch);
    }
  }

  /** Patching twice is patching once. */
  lemma {:induction false} MergeIdempotent(base: Json, patch: Json)
    ensures Merge(patch, patch) == patch
    ensures Merge(Merge(base, patch), patch) == Merge(base, patch)
    decreases patch
  {
    if patch.Obj? {
      forall k | k in patch.fields
        ensures Merge(patch.fields[k], patch.fields[k]) == patch.fields[k]
        ensures base.Obj? && k in base.fields ==>
                  Merge(Merge(base.fields[k], patch.fields[k]), patch.fields[k]) ==
                      Merge(base.fields[k], patch.fields[k])
      {
        MergeIdempotent(if base.Obj? && k in base.fields then base.fields[k] else Null, patch.fields[k]);
      }
    }
  }

  /** At no path does q put an object where p holds something else. */
  ghost predicate NoObjectOverOther(p: Json, q: Json)
    decreases p
  {
    if p.Obj? then q.Obj? ==> forall k | k in p.fields && k in q.fields :: NoObjectOverOther(p.fields[k], q.fields[k])
    else !q.Obj?
  }

  lemma {:induction false} MergeAssociates(a: Json, p: Json, q: Json)
    requires NoObjectOverOther(p, q)
    ensures Merge(Merge(a, p), q) == Merge(a, Merge(p, q))
    decreases p
  {
    if a.Obj? && p.Obj? && q.Obj? {
      forall k | k in p.fields && k in q.fields && k in a.fields
        ensures Merge(Merge(a.fields[k], p.fields[k]), q.fields[k]) ==
                Merge(a.fields[k], Merge(p.fields[k], q.fields[k]))
      {
        MergeAssociates(a.fields[k], p.fields[k], q.fields[k]);
      }
    }
  }

  lemma FreshKey(m: map<Name, Json>) returns (k: Name)
    ensures k !in m
  {
    var n := LongerThanAll(m.Keys);
    k := Name(seq(n, i => 'a'));
  }

  lemma {:induction false} LongerThanAll(s: set<Name>) returns (n: nat)
    ensures forall k | k in s :: |k.text| < n
    decreases |s|
  {
    if s == {} {
      n := 0;
    } else {
      var k :| k in s;
      var m := LongerThanAll(s - {k});
      n := if |k.text| < m then m else |k.text| + 1;
    }
  }

  /** A base that tells the two groupings apart when q puts an object over something else in p. */
  lemma {:induction false} MergeFailsToAssociate(p: Json, q: Json) returns (a: Json)
    requires !NoObjectOverOther(p, q)
    ensures Merge(Merge(a, p), q) != Merge(a, Merge(p, q))
    decreases p
  {
    if p.Obj? {
      var k :| k in p.fields && k in q.fields && !NoObjectOverOther(p.fields[k], q.fields[k]);
      var inner := MergeFailsToAssociate(p.fields[k], q.fields[k]);
      a := Obj(map[k := inner]);
      assert Merge(Merge(a, p), q).fields[k] == Merge(Merge(inner, p.fields[k]), q.fields[k]);
      assert Merge(a, Merge(p, q)).fields[k] == Merge(inner, Merge(p.fields[k], q.fields[k]));
    } else {
      var k := FreshKey(q.fields);
      a := Obj(map[k := Null]);
      assert Merge(Merge(a, p), q) == q;
      assert k in Merge(a, q).fields;
    }
  }

  /** Two patches may be combined before merging, for every base, exactly when the second never puts an
      object where the first holds something else. */
  lemma {:induction false} AssociativityCondition(p: Json, q: Json)
    ensures (forall a :: Merge(Merge(a, p), q) == Merge(a, Merge(p, q))) <==> NoObjectOverOther(p, q)
  {
    if NoObjectOverOther(p, q) {
      forall a
        ensures Merge(Merge(a, p), q) == Merge(a, Merge(p, q))
      {
        MergeAssociates(a, p, q);
      }
    } else {
      var a := MergeFailsToAssociate(p, q);
    }
  }
}
