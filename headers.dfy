/** Operations on multi-valued maps that the handlers perform with for-range
    loops: keeping the first value per name, adding values one per name, and
    setting one value per name on a response writer's header map. Go ranges over
    a map in an unspecified order; the loops below pick the next key arbitrarily. */
module Headers {
  import opened Details

  /** Every name carries at least one value; indexing the first value needs it. */
  ghost predicate NonEmptyLists(mm: Values) {
    forall k :: k in mm ==> mm[k] != []
  }

  /** The single-valued map that keeps only the first value listed per name. */
  function FirstValues(mm: Values): map<string, string>
    requires NonEmptyLists(mm)
  {
    map k | k in mm :: mm[k][0]
  }

  /** The multi-valued map that lists exactly one value per name. */
  function Singletons(m: map<string, string>): Values {
    map k | k in m :: [m[k]]
  }

  /** Flattening a multi-valued map into a fresh map, one name at a time,
      keeping the first value listed under each name. */
  method FlattenFirst(mm: Values) returns (m: map<string, string>)
    requires NonEmptyLists(mm)
    ensures m.Keys == mm.Keys
    ensures forall k :: k in m ==> m[k] == mm[k][0]
    ensures m == FirstValues(mm)
  {
    m := map[];
    var todo := mm.Keys;
    while todo != {}
      invariant todo <= mm.Keys
      invariant m.Keys == mm.Keys - todo
      invariant forall k :: k in m ==> m[k] == mm[k][0]
      decreases todo
    {
      var k :| k in todo;
      m := m[k := mm[k][0]];
      todo := todo - {k};
    }
  }

  /** Adding each entry of `m` to the header map `h`, one name at a time:
      each value is appended to the list already held under its name. */
  method AddEach(h: Values, m: map<string, string>) returns (out: Values)
    ensures out.Keys == h.Keys + m.Keys
    ensures forall k :: k in out ==>
      out[k] == (if k in h then h[k] else []) + (if k in m then [m[k]] else [])
  {
    out := h;
    var todo := m.Keys;
    while todo != {}
      invariant todo <= m.Keys
      invariant out.Keys == h.Keys + (m.Keys - todo)
      invariant forall k :: k in out ==>
        out[k] == (if k in h then h[k] else []) + (if k in m && k !in todo then [m[k]] else [])
      decreases todo
    {
      var k :| k in todo;
      out := out[k := (if k in out then out[k] else []) + [m[k]]];
      todo := todo - {k};
    }
  }

  /** Setting each entry of `m` on the header map `h`, one name at a time:
      each name named in `m` ends up with that one value, replacing whatever
      it held. */
  method SetEach(h: Values, m: map<string, string>) returns (out: Values)
    ensures out.Keys == h.Keys + m.Keys
    ensures forall k :: k in out ==> out[k] == if k in m then [m[k]] else h[k]
  {
    out := h;
    var todo := m.Keys;
    while todo != {}
      invariant todo <= m.Keys
      invariant out.Keys == h.Keys + (m.Keys - todo)
      invariant forall k :: k in out ==>
        out[k] == if k in m && k !in todo then [m[k]] else h[k]
      decreases todo
    {
      var k :| k in todo;
      out := out[k := [m[k]]];
      todo := todo - {k};
    }
  }

  /** A multimap holding exactly the value of `m` under each name of `m` is Singletons(m). */
  lemma IsSingletons(m: map<string, string>, mm: Values)
    requires mm.Keys == m.Keys
    requires forall k :: k in mm ==> mm[k] == [] + [m[k]]
    ensures mm == Singletons(m)
  {
    forall k | k in mm ensures mm[k] == Singletons(m)[k] {
      assert [] + [m[k]] == [m[k]];
    }
  }

  /** Flattening a map that holds one value per name gives back the original pairs. */
  lemma FirstOfSingletons(m: map<string, string>)
    ensures NonEmptyLists(Singletons(m)) && FirstValues(Singletons(m)) == m
  {
    var f := FirstValues(Singletons(m));
    assert f.Keys == m.Keys;
    forall k | k in m ensures f[k] == m[k] {
      assert Singletons(m)[k] == [m[k]];
    }
  }

  /** Flattening is lossless exactly when every name carries a single value. */
  lemma FlattenLosslessIff(mm: Values)
    requires NonEmptyLists(mm)
    ensures Singletons(FirstValues(mm)) == mm <==> forall k :: k in mm ==> |mm[k]| == 1
  {
    var back := Singletons(FirstValues(mm));
    if forall k :: k in mm ==> |mm[k]| == 1 {
      forall k | k in mm ensures back[k] == mm[k] {
        assert mm[k] == [mm[k][0]];
      }
    } else {
      var k :| k in mm && |mm[k]| != 1;
      assert |back[k]| == 1;
    }
  }
}
