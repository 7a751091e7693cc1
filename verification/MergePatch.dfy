/** JSON documents and the write-back's merge patch (packages/shared/sor.py),
    its algebra, and its relation to the recursive MergePatch of
    section 2 of RFC 7396. */
module MergePatch {

  datatype Json =
    | Null
    | Bool(b: bool)
    | Number(mantissa: int, exponent: int)
    | Text(s: string)
    | Array(items: seq<Json>)
    | Object(fields: map<string, Json>)

  type Doc = map<string, Json>

  // The document in which a key is governed by the patch if the patch has it
  // (a null deletes it), and by the target otherwise.
  function Patched(target: Doc, patch: Doc): Doc {
    map k | k in target.Keys + patch.Keys && !(k in patch && patch[k].Null?)
      :: if k in patch then patch[k] else target[k]
  }

  // The loop visits the patch in some order; every order gives the same document.
  method ApplyJsonMergePatch(target: Doc, patch: Doc) returns (res: Doc)
    ensures res == Patched(target, patch)
  {
    res := target;
    var todo := patch.Keys;
    while todo != {}
      invariant todo <= patch.Keys
      invariant res == Patched(target, map k | k in patch && k !in todo :: patch[k])
    {
      var k :| k in todo;
      if patch[k].Null? {
        res := res - {k};
      } else {
        res := res[k := patch[k]];
      }
      todo := todo - {k};
    }
    assert patch == map k | k in patch && k !in todo :: patch[k];
  }

  /******* Algebra *******/

  // Folding patches one after the other.
  function PatchedAll(target: Doc, patches: seq<Doc>): Doc {
    if patches == [] then target
    else Patched(PatchedAll(target, patches[..|patches| - 1]), patches[|patches| - 1])
  }

  // The key-wise override of a list of patches, later ones winning, nulls kept.
  function Overriding(patches: seq<Doc>): Doc {
    if patches == [] then map[]
    else Overriding(patches[..|patches| - 1]) + patches[|patches| - 1]
  }

  lemma {:induction false} PatchTwiceIsOverride(t: Doc, p: Doc, q: Doc)
    ensures Patched(Patched(t, p), q) == Patched(t, p + q)
  {
  }

  // A whole batch of patches collapses to one patch.
  lemma {:induction false} PatchesCollapse(t: Doc, patches: seq<Doc>)
    ensures PatchedAll(t, patches) == Patched(t, Overriding(patches))
  {
    if patches == [] {
      assert Patched(t, map[]) == t;
    } else {
      var init := patches[..|patches| - 1];
      PatchesCollapse(t, init);
      PatchTwiceIsOverride(t, Overriding(init), patches[|patches| - 1]);
    }
  }

  // Re-applying a batch that is already in changes nothing.
  lemma {:induction false} PatchesIdempotent(t: Doc, patches: seq<Doc>)
    ensures PatchedAll(PatchedAll(t, patches), patches) == PatchedAll(t, patches)
  {
    var all := Overriding(patches);
    PatchesCollapse(t, patches);
    PatchesCollapse(PatchedAll(t, patches), patches);
    PatchTwiceIsOverride(t, all, all);
    assert all + all == all;
  }

  // Two patches commute on every document exactly when they agree on every key
  // that both of them carry; disjoint patches are the common case.
  lemma {:induction false} PatchesCommuteIff(p: Doc, q: Doc)
    ensures (forall t: Doc :: Patched(Patched(t, p), q) == Patched(Patched(t, q), p))
       <==> (forall k :: k in p && k in q ==> p[k] == q[k])
  {
    if forall k :: k in p && k in q ==> p[k] == q[k] {
      assert p + q == q + p;
      forall t: Doc ensures Patched(Patched(t, p), q) == Patched(Patched(t, q), p) {
        PatchTwiceIsOverride(t, p, q);
        PatchTwiceIsOverride(t, q, p);
      }
    } else {
      var k :| k in p && k in q && p[k] != q[k];
      var pq, qp := Patched(Patched(map[], p), q), Patched(Patched(map[], q), p);
      assert (k in pq <==> !q[k].Null?) && (k in qp <==> !p[k].Null?);
      assert pq != qp;
    }
  }

  /******* RFC 7396 *******/

  // MergePatch(Target, Patch) as section 2 of RFC 7396 defines it; an absent
  // member of the target counts as a non-object.
  function Rfc7396(target: Json, patch: Json): Json
    decreases patch
  {
    if !patch.Object? then patch
    else
      var base := if target.Object? then target.fields else map[];
      Object(map k | k in base.Keys + patch.fields.Keys && !(k in patch.fields && patch.fields[k].Null?)
               :: if k in patch.fields then Rfc7396(if k in base then base[k] else Null, patch.fields[k])
                  else base[k])
  }

  lemma {:induction false} FreshKey(keys: set<string>) returns (k: string)
    ensures k !in keys
  {
    var n: nat, todo := 0, keys;
    while todo != {}
      invariant todo <= keys
      invariant forall x :: x in keys - todo ==> |x| <= n
    {
      var x :| x in todo;
      n := if |x| > n then |x| else n;
      todo := todo - {x};
    }
    assert keys - todo == keys;
    k := seq(n + 1, _ => 'k');
  }

  // The simplified patch is the RFC's patch, for every document it may meet,
  // exactly when no member of the patch is itself an object.
  lemma {:induction false} RfcAgreementIff(patch: Doc)
    ensures (forall t: Doc :: Object(Patched(t, patch)) == Rfc7396(Object(t), Object(patch)))
       <==> (forall k :: k in patch ==> !patch[k].Object?)
  {
    if k :| k in patch && patch[k].Object? {
      var inner := patch[k].fields;
      var extra := FreshKey(inner.Keys);
      var t: Doc := map[k := Object(map[extra := Bool(true)])];
      var rfc := Rfc7396(Object(t), Object(patch));
      assert rfc.fields[k] == Rfc7396(t[k], patch[k]);
      assert extra in Rfc7396(t[k], patch[k]).fields;
      assert Patched(t, patch)[k] == Object(inner);
    } else {
      forall t: Doc ensures Object(Patched(t, patch)) == Rfc7396(Object(t), Object(patch)) {
        assert Patched(t, patch) == Rfc7396(Object(t), Object(patch)).fields;
      }
    }
  }
}
