/**
 * The column selection that `changeFieldDisplay` of the `model.fields` hook
 * (packages/xadmin-model/src/hooks.js) computes: the toggled selection, and
 * the displayed columns, which are the schema's columns (list fields first,
 * then every property, without repeats) that are selected, in that order.
 */
module ListFields {

  predicate Distinct(s: seq<string>) {
    forall i, j :: 0 <= i < j < |s| ==> s[i] != s[j]
  }

  /** `a` keeps some of the elements of `b`, in the order `b` has them. */
  predicate Subsequence(a: seq<string>, b: seq<string>)
    decreases |b|
  {
    if a == [] then true
    else if b == [] then false
    else if a[0] == b[0] then Subsequence(a[1..], b[1..])
    else Subsequence(a, b[1..])
  }

  /**
   * `Array.from(new Set(s))`: the first occurrence of every element, in
   * order. A list without repeats comes back as it is, and deduplicating a
   * prefix gives a prefix of the result (`DedupePrefix`); with the two
   * membership clauses this fixes the order of first occurrences.
   */
  function Dedupe(s: seq<string>): (d: seq<string>)
    ensures Distinct(d)
    ensures forall x :: x in d <==> x in s
    ensures Distinct(s) ==> d == s
  {
    if s == [] then []
    else
      var init := s[..|s| - 1];
      var d := Dedupe(init);
      assert forall x :: x in s <==> x in init || x == s[|s| - 1] by {
        assert s == init + [s[|s| - 1]];
      }
      assert Distinct(s) ==> Distinct(init) && s[|s| - 1] !in init by {
        if Distinct(s) {
          forall i, j | 0 <= i < j < |init| ensures init[i] != init[j] {
            assert init[i] == s[i] && init[j] == s[j];
          }
          forall k | 0 <= k < |init| ensures init[k] != s[|s| - 1] {
            assert init[k] == s[k];
          }
        }
      }
      assert Distinct(s) ==> d + [s[|s| - 1]] == s by {
        if Distinct(s) {
          assert s == init + [s[|s| - 1]];
        }
      }
      if s[|s| - 1] in d then d else d + [s[|s| - 1]]
  }

  /** Deduplicating more elements only adds to the end: `Dedupe(a)` is a prefix of `Dedupe(a + b)`. */
  lemma {:induction false} DedupePrefix(a: seq<string>, b: seq<string>)
    ensures |Dedupe(a)| <= |Dedupe(a + b)|
    ensures Dedupe(a + b)[..|Dedupe(a)|] == Dedupe(a)
    decreases |b|
  {
    if b == [] {
      assert a + b == a;
    } else {
      var c := a + b[..|b| - 1];
      assert (a + b)[..|a + b| - 1] == c;
      DedupePrefix(a, b[..|b| - 1]);
      var dc := Dedupe(c);
      assert Dedupe(a + b)[..|dc|] == dc;
      assert Dedupe(a + b)[..|Dedupe(a)|] == dc[..|Dedupe(a)|];
    }
  }

  /** `_.remove(s, i => i === x)`: every occurrence of `x` goes, the rest keep their order. */
  function RemoveAll(s: seq<string>, x: string): (r: seq<string>)
    ensures forall y :: y in r <==> y in s && y != x
    ensures Subsequence(r, s)
    ensures multiset(r) == multiset(s)[x := 0]
    ensures |r| == |s| - multiset(s)[x]
  {
    if s == [] then []
    else if s[0] == x then
      var r := RemoveAll(s[1..], x);
      SubsequenceOfTail(r, s);
      assert s == [s[0]] + s[1..];
      assert multiset(s) == multiset{x} + multiset(s[1..]);
      r
    else
      var r := RemoveAll(s[1..], x);
      assert forall y :: y in s <==> y == s[0] || y in s[1..] by {
        assert s == [s[0]] + s[1..];
      }
      assert s == [s[0]] + s[1..];
      assert multiset(s) == multiset{s[0]} + multiset(s[1..]);
      [s[0]] + r
  }

  lemma {:induction false} SubsequenceOfTail(a: seq<string>, b: seq<string>)
    requires b != [] && Subsequence(a, b[1..])
    ensures Subsequence(a, b)
    decreases |b|, 0
  {
    if a != [] && a[0] == b[0] {
      SubsequenceTail(a, b[1..]);
    }
  }

  lemma {:induction false} SubsequenceTail(a: seq<string>, c: seq<string>)
    requires a != [] && Subsequence(a, c)
    ensures Subsequence(a[1..], c)
    decreases |c|, 1
  {
    if a[1..] != [] {
      if a[0] == c[0] {
        SubsequenceOfTail(a[1..], c);
      } else {
        SubsequenceTail(a, c[1..]);
        SubsequenceOfTail(a[1..], c);
      }
    }
  }

  /**
   * `list.filter(f => keep.indexOf(f) >= 0)`: the elements of `list` that
   * occur in `keep`, in the order of `list`.
   */
  function KeepMembers(list: seq<string>, keep: seq<string>): (r: seq<string>)
    ensures forall x :: x in r <==> x in list && x in keep
    ensures Subsequence(r, list)
    ensures Distinct(list) ==> Distinct(r)
  {
    if list == [] then []
    else
      var r := KeepMembers(list[1..], keep);
      assert forall y :: y in list <==> y == list[0] || y in list[1..] by {
        assert list == [list[0]] + list[1..];
      }
      if list[0] in keep then
        assert Distinct(list) ==> list[0] !in list[1..] by {
          if Distinct(list) {
            forall k | 0 <= k < |list[1..]| ensures list[1..][k] != list[0] {
              assert list[1..][k] == list[k + 1];
            }
          }
        }
        assert Distinct(list) ==> Distinct(list[1..]) by {
          if Distinct(list) {
            forall i, j | 0 <= i < j < |list[1..]| ensures list[1..][i] != list[1..][j] {
              assert list[1..][i] == list[i + 1] && list[1..][j] == list[j + 1];
            }
          }
        }
        [list[0]] + r
      else
        assert Distinct(list) ==> Distinct(list[1..]) by {
          if Distinct(list) {
            forall i, j | 0 <= i < j < |list[1..]| ensures list[1..][i] != list[1..][j] {
              assert list[1..][i] == list[i + 1] && list[1..][j] == list[j + 1];
            }
          }
        }
        SubsequenceOfTail(r, list);
        r
  }

  /**
   * The working copy `fs` after the toggle: a selected field is pushed when
   * absent, a deselected one is removed wherever it occurs.
   */
  function Toggle(selected: seq<string>, field: string, on: bool): (fs: seq<string>)
    ensures forall x :: x in fs <==> (if x == field then on else x in selected)
  {
    if on then
      if field in selected then selected else selected + [field]
    else RemoveAll(selected, field)
  }

  /** The schema's candidate columns: `new Set([...listFields, ...Object.keys(properties)])`. */
  function Columns(listFields: seq<string>, propertyKeys: seq<string>): (cols: seq<string>)
    ensures Distinct(cols)
    ensures forall x :: x in cols <==> x in listFields || x in propertyKeys
    ensures |Dedupe(listFields)| <= |cols| && cols[..|Dedupe(listFields)|] == Dedupe(listFields)
    ensures Distinct(listFields) ==> |listFields| <= |cols| && cols[..|listFields|] == listFields
    ensures Distinct(listFields + propertyKeys) ==> cols == listFields + propertyKeys
  {
    DedupePrefix(listFields, propertyKeys);
    Dedupe(listFields + propertyKeys)
  }

  /**
   * The selection `changeFieldDisplay([field, on])` stores: a duplicate-free
   * subsequence of the columns; it holds the toggled column iff it was
   * switched on; every other column keeps its previous membership.
   */
  function Displayed(selected: seq<string>, field: string, on: bool, listFields: seq<string>, propertyKeys: seq<string>): (r: seq<string>)
    ensures Distinct(r)
    ensures Subsequence(r, Columns(listFields, propertyKeys))
    ensures field in Columns(listFields, propertyKeys) ==> (field in r <==> on)
    ensures forall g :: g in Columns(listFields, propertyKeys) && g != field ==> (g in r <==> g in selected)
    ensures forall g :: g in r ==> g in listFields || g in propertyKeys
  {
    KeepMembers(Columns(listFields, propertyKeys), Toggle(selected, field, on))
  }

  /** Keeping the members of a list that it all contains returns the list itself. */
  lemma {:induction false} KeepAll(list: seq<string>, keep: seq<string>)
    requires forall x :: x in list ==> x in keep
    ensures KeepMembers(list, keep) == list
  {
    if list != [] {
      KeepAll(list[1..], keep);
      assert list == [list[0]] + list[1..];
    }
  }

  /**
   * With every column selected, switching a column on (again) leaves all
   * columns displayed, in schema order.
   */
  lemma {:induction false} SelectOnAllColumns(selected: seq<string>, field: string, listFields: seq<string>, propertyKeys: seq<string>)
    requires forall x :: x in listFields || x in propertyKeys ==> x in selected
    ensures Displayed(selected, field, true, listFields, propertyKeys) == Columns(listFields, propertyKeys)
  {
    KeepAll(Columns(listFields, propertyKeys), Toggle(selected, field, true));
  }
}
