/** cJSON_Compare and cJSON_Duplicate: what it means for two trees to compare equal. */
module JsonCompare {
  import opened Bytes
  import opened JsonTree

  // ---- looking members up ----

  /** tolower, in the C locale. */
  function Lower(b: byte): byte { if 65 <= b <= 90 then b + 32 else b }

  /** A key as the lookup sees it: as it is, or in lower case. */
  function Fold(key: seq<byte>, exact: bool): seq<byte> {
    if exact then key else seq(|key|, i requires 0 <= i < |key| => Lower(key[i]))
  }

  /** `a` is a capital letter of the alphabet and `b` the small one. */
  predicate TwoCases(a: byte, b: byte) { 'A' as int <= a as int <= 'Z' as int && b as int == a as int + 32 }

  /** Without regard to case two keys are the same when they differ at most in the case of letters. */
  lemma FoldExactly(x: seq<byte>, y: seq<byte>)
    ensures Fold(x, false) == Fold(y, false) <==>
              && |x| == |y|
              && forall i :: 0 <= i < |x| ==> x[i] == y[i] || TwoCases(x[i], y[i]) || TwoCases(y[i], x[i])
  {
    if Fold(x, false) == Fold(y, false) {
      assert |Fold(x, false)| == |x| && |Fold(y, false)| == |y|;
      forall i | 0 <= i < |x| ensures x[i] == y[i] || TwoCases(x[i], y[i]) || TwoCases(y[i], x[i]) {
        assert Fold(x, false)[i] == Fold(y, false)[i];
      }
    }
  }

  /** get_object_item: the list from the first member with that key on, or the empty list. */
  function Lookup(ms: Members, key: seq<byte>, exact: bool): Members {
    if ms.NoMembers? || Fold(ms.key, exact) == Fold(key, exact) then ms else Lookup(ms.rest, key, exact)
  }

  /** No member has the key. */
  predicate KeyFree(ms: Members, key: seq<byte>, exact: bool) {
    ms.Member? ==> Fold(ms.key, exact) != Fold(key, exact) && KeyFree(ms.rest, key, exact)
  }

  /** Of several members with the key the first is found, and none exactly if there is none. */
  lemma {:induction false} LookupFirst(front: Members, ms: Members, key: seq<byte>, exact: bool)
    requires KeyFree(front, key, exact)
    ensures ms.Member? && Fold(ms.key, exact) == Fold(key, exact) ==> Lookup(JoinMembers(front, ms), key, exact) == ms
    ensures Lookup(front, key, exact) == NoMembers
  {
    if front.NoMembers? {
    } else {
      LookupFirst(front.rest, ms, key, exact);
    }
  }

  function Size(v: Value): nat {
    match v
    case Array(items) => 1 + ItemsSize(items)
    case Object(members) => 1 + MembersSize(members)
    case _ => 0
  }

  function ItemsSize(items: Items): nat {
    if items.NoItems? then 0 else 1 + Size(items.head) + ItemsSize(items.tail)
  }

  function MembersSize(ms: Members): nat {
    if ms.NoMembers? then 0 else 1 + Size(ms.value) + MembersSize(ms.rest)
  }

  lemma {:induction false} LookupSize(ms: Members, key: seq<byte>, exact: bool)
    ensures MembersSize(Lookup(ms, key, exact)) <= MembersSize(ms)
    ensures Lookup(ms, key, exact).Member? ==> Size(Lookup(ms, key, exact).value) < MembersSize(ms)
  {
    if ms.NoMembers? {
    } else {
      LookupSize(ms.rest, key, exact);
    }
  }

  // ---- comparing ----

  const DBL_EPSILON := 1.0 / 4503599627370496.0

  function Abs(x: real): real { if x < 0.0 then -x else x }

  /** compare_double. */
  predicate Close(x: real, y: real) { Abs(x - y) <= (if Abs(x) > Abs(y) then Abs(x) else Abs(y)) * DBL_EPSILON }

  function IntAbs(n: int): nat { if n < 0 then -n else n }

  /** compare_double, without the fraction. */
  lemma CloseScaled(m: int, n: int)
    ensures var max := if IntAbs(m) > IntAbs(n) then IntAbs(m) else IntAbs(n);
            Close(m as real, n as real) <==> IntAbs(m - n) * 0x10_0000_0000_0000 <= max
  {
  }

  /** cJSON_Compare, for trees at different nodes. */
  predicate Same(a: Value, b: Value, exact: bool)
    decreases Size(a) + Size(b), 0
  {
    match (a, b)
    case (Null, Null) => true
    case (False, False) => true
    case (True, True) => true
    case (Number(x), Number(y)) => Close(x, y)
    case (String(s), String(t)) => s == t
    case (Array(i), Array(j)) => SameItems(i, j, exact)
    case (Object(m), Object(n)) => AllFound(m, n, exact) && AllFound(n, m, exact)
    case _ => false
  }

  predicate SameItems(a: Items, b: Items, exact: bool)
    decreases ItemsSize(a) + ItemsSize(b), 1
  {
    if a.NoItems? || b.NoItems? then a == b
    else Same(a.head, b.head, exact) && SameItems(a.tail, b.tail, exact)
  }

  /** Every member of the first list has its like in the second. */
  predicate AllFound(ms: Members, ns: Members, exact: bool)
    decreases MembersSize(ms) + MembersSize(ns), 1
  {
    ms.NoMembers? ||
      var n := Lookup(ns, ms.key, exact);
      LookupSize(ns, ms.key, exact);
      n.Member? && Same(ms.value, n.value, exact) && AllFound(ms.rest, ns, exact)
  }

  /** get_object_item. */
  method GetObjectItem(ms: Members, key: seq<byte>, exact: bool) returns (m: Members)
    ensures m == Lookup(ms, key, exact)
  {
    m := ms;
    while m.Member? && Fold(m.key, exact) != Fold(key, exact)
      invariant Lookup(m, key, exact) == Lookup(ms, key, exact)
      decreases m
    {
      m := m.rest;
    }
  }

  /** cJSON_Compare. `identical` says that the two pointers are the same; in trees that share no nodes
      that never happens between the children of different nodes. */
  method Compare(a: Value, b: Value, identical: bool, exact: bool) returns (same: bool)
    requires identical ==> a == b
    ensures same == (identical || Same(a, b, exact))
    decreases Size(a) + Size(b), 2
  {
    if identical {
      return true;
    }
    match (a, b)
    case (Null, Null) => same := true;
    case (False, False) => same := true;
    case (True, True) => same := true;
    case (Number(x), Number(y)) => same := Close(x, y);
    case (String(s), String(t)) => same := s == t;
    case (Array(i), Array(j)) => same := CompareItems(i, j, exact);
    case (Object(m), Object(n)) =>
      same := FindAll(m, n, exact);
      if same {
        same := FindAll(n, m, exact);
      }
    case _ => same := false;
  }

  method CompareItems(a: Items, b: Items, exact: bool) returns (same: bool)
    ensures same == SameItems(a, b, exact)
    decreases ItemsSize(a) + ItemsSize(b), 1
  {
    var i, j := a, b;
    while i.Item? && j.Item?
      invariant SameItems(a, b, exact) == SameItems(i, j, exact)
      invariant ItemsSize(i) <= ItemsSize(a) && ItemsSize(j) <= ItemsSize(b)
      decreases i
    {
      same := Compare(i.head, j.head, false, exact);
      if !same {
        return;
      }
      i, j := i.tail, j.tail;
    }
    same := i == j;
  }

  /** One of the two loops over members. */
  method FindAll(ms: Members, ns: Members, exact: bool) returns (same: bool)
    ensures same == AllFound(ms, ns, exact)
    decreases MembersSize(ms) + MembersSize(ns), 1
  {
    var m := ms;
    while m.Member?
      invariant AllFound(ms, ns, exact) == AllFound(m, ns, exact)
      invariant MembersSize(m) <= MembersSize(ms)
      decreases m
    {
      var n := GetObjectItem(ns, m.key, exact);
      LookupSize(ns, m.key, exact);
      if n.NoMembers? {
        return false;
      }
      same := Compare(m.value, n.value, false, exact);
      if !same {
        return;
      }
      m := m.rest;
    }
    same := true;
  }

  // ---- what it decides ----

  /** A tree up to the order of members: objects are maps. */
  datatype Canon =
    | CanonNull
    | CanonFalse
    | CanonTrue
    | CanonNumber(value: real)
    | CanonString(s: seq<byte>)
    | CanonArray(items: CanonItems)
    | CanonObject(members: map<seq<byte>, Canon>)

  datatype CanonItems = NoCanonItems | CanonItem(head: Canon, tail: CanonItems)

  function CanonOf(v: Value, exact: bool): Canon {
    match v
    case Null => CanonNull
    case False => CanonFalse
    case True => CanonTrue
    case Number(x) => CanonNumber(x)
    case String(s) => CanonString(s)
    case Array(items) => CanonArray(CanonItemsOf(items, exact))
    case Object(members) => CanonObject(CanonMembers(members, exact))
  }

  function CanonItemsOf(items: Items, exact: bool): CanonItems {
    if items.NoItems? then NoCanonItems else CanonItem(CanonOf(items.head, exact), CanonItemsOf(items.tail, exact))
  }

  function CanonMembers(ms: Members, exact: bool): map<seq<byte>, Canon> {
    if ms.NoMembers? then map[] else CanonMembers(ms.rest, exact)[Fold(ms.key, exact) := CanonOf(ms.value, exact)]
  }

  /** An integer below 2^52 in absolute value. */
  predicate IsInteger(x: real) { x == x.Floor as real && IntAbs(x.Floor) < 0x10_0000_0000_0000 }

  /** All numbers are integers below 2^52 in absolute value, those of the range of int among them. */
  predicate Integral(v: Value) {
    match v
    case Number(x) => IsInteger(x)
    case Array(items) => IntegralItems(items)
    case Object(members) => IntegralMembers(members)
    case _ => true
  }

  predicate IntegralItems(items: Items) {
    items.Item? ==> Integral(items.head) && IntegralItems(items.tail)
  }

  predicate IntegralMembers(ms: Members) {
    ms.Member? ==> Integral(ms.value) && IntegralMembers(ms.rest)
  }

  /** In every object, the members of the same key have values that differ at most in the order of members. */
  predicate Uniform(v: Value, exact: bool) {
    match v
    case Array(items) => UniformItems(items, exact)
    case Object(members) => UniformMembers(members, exact)
    case _ => true
  }

  predicate UniformItems(items: Items, exact: bool) {
    items.Item? ==> Uniform(items.head, exact) && UniformItems(items.tail, exact)
  }

  predicate UniformMembers(ms: Members, exact: bool) {
    ms.Member? ==>
      && Uniform(ms.value, exact) && UniformMembers(ms.rest, exact)
      && var n := Lookup(ms.rest, ms.key, exact);
         n.Member? ==> CanonOf(n.value, exact) == CanonOf(ms.value, exact)
  }

  /** On such integers compare_double is equality. */
  lemma CloseInts(x: real, y: real)
    requires IsInteger(x) && IsInteger(y)
    ensures Close(x, y) <==> x == y
  {
    CloseScaled(x.Floor, y.Floor);
  }

  lemma {:induction false} LookupCanon(ms: Members, key: seq<byte>, exact: bool)
    ensures var n := Lookup(ms, key, exact);
            && (n.Member? <==> Fold(key, exact) in CanonMembers(ms, exact))
            && (n.Member? ==> CanonMembers(ms, exact)[Fold(key, exact)] == CanonOf(n.value, exact))
  {
    if ms.NoMembers? {
    } else {
      LookupCanon(ms.rest, key, exact);
    }
  }

  lemma {:induction false} LookupIntegral(ms: Members, key: seq<byte>, exact: bool)
    requires IntegralMembers(ms)
    ensures Lookup(ms, key, exact).Member? ==> Integral(Lookup(ms, key, exact).value)
  {
    if ms.NoMembers? {
    } else {
      LookupIntegral(ms.rest, key, exact);
    }
  }

  lemma {:induction false} LookupUniform(ms: Members, key: seq<byte>, exact: bool)
    requires UniformMembers(ms, exact)
    ensures Lookup(ms, key, exact).Member? ==> Uniform(Lookup(ms, key, exact).value, exact)
  {
    if ms.NoMembers? {
    } else {
      LookupUniform(ms.rest, key, exact);
    }
  }

  /** Every member of the list is uniform, and so is the member of the other list that is found for
      it; that one is the same up to the order of members. */
  predicate AllMatch(ms: Members, ns: Members, exact: bool) {
    ms.Member? ==>
      && AllMatch(ms.rest, ns, exact)
      && var n := Lookup(ns, ms.key, exact);
         && n.Member? && Uniform(ms.value, exact) && Uniform(n.value, exact)
         && CanonOf(ms.value, exact) == CanonOf(n.value, exact)
  }

  ghost predicate Within(m: map<seq<byte>, Canon>, n: map<seq<byte>, Canon>) {
    forall k :: k in m ==> k in n && m[k] == n[k]
  }

  lemma MapsEqual(m: map<seq<byte>, Canon>, n: map<seq<byte>, Canon>)
    ensures m == n <==> Within(m, n) && Within(n, m)
  {
    if Within(m, n) && Within(n, m) { assert m == n; }
  }

  lemma {:induction false} MatchWithin(ms: Members, ns: Members, exact: bool)
    requires AllMatch(ms, ns, exact)
    ensures UniformMembers(ms, exact) && Within(CanonMembers(ms, exact), CanonMembers(ns, exact))
  {
    if ms.NoMembers? {
    } else {
      MatchWithin(ms.rest, ns, exact);
      LookupCanon(ns, ms.key, exact);
      LookupCanon(ms.rest, ms.key, exact);
    }
  }

  lemma {:induction false} WithinMatch(ms: Members, ns: Members, exact: bool)
    requires UniformMembers(ms, exact) && UniformMembers(ns, exact)
    requires Within(CanonMembers(ms, exact), CanonMembers(ns, exact))
    ensures AllMatch(ms, ns, exact)
  {
    if ms.NoMembers? {
    } else {
      var k := Fold(ms.key, exact);
      LookupCanon(ms.rest, ms.key, exact);
      LookupCanon(ns, ms.key, exact);
      LookupUniform(ns, ms.key, exact);
      WithinRest(CanonMembers(ms.rest, exact), k, CanonOf(ms.value, exact), CanonMembers(ns, exact));
      WithinMatch(ms.rest, ns, exact);
    }
  }

  lemma WithinRest(m: map<seq<byte>, Canon>, k: seq<byte>, c: Canon, n: map<seq<byte>, Canon>)
    requires (k in m ==> m[k] == c) && Within(m[k := c], n)
    ensures Within(m, n) && k in n && n[k] == c
  {
    assert k in m[k := c];
    forall x | x in m ensures x in n && m[x] == n[x] { assert x in m[k := c] && m[k := c][x] == m[x]; }
  }

  /** Each list finds its like in the other exactly when both are uniform and the same up to the order. */
  lemma MatchBoth(ms: Members, ns: Members, exact: bool)
    ensures AllMatch(ms, ns, exact) && AllMatch(ns, ms, exact) <==>
              && UniformMembers(ms, exact) && UniformMembers(ns, exact)
              && CanonMembers(ms, exact) == CanonMembers(ns, exact)
  {
    MapsEqual(CanonMembers(ms, exact), CanonMembers(ns, exact));
    if AllMatch(ms, ns, exact) && AllMatch(ns, ms, exact) {
      MatchWithin(ms, ns, exact);
      MatchWithin(ns, ms, exact);
    } else if UniformMembers(ms, exact) && UniformMembers(ns, exact)
              && CanonMembers(ms, exact) == CanonMembers(ns, exact) {
      WithinMatch(ms, ns, exact);
      WithinMatch(ns, ms, exact);
    }
  }

  /** On trees of integers cJSON_Compare decides equality up to the order of members, for uniform
      trees; every other tree compares different from every tree at other nodes, a copy of itself included. */
  lemma {:induction false} SameCanon(a: Value, b: Value, exact: bool)
    requires Integral(a) && Integral(b)
    ensures Same(a, b, exact) <==> Uniform(a, exact) && Uniform(b, exact) && CanonOf(a, exact) == CanonOf(b, exact)
    decreases Size(a) + Size(b), 0
  {
    match (a, b)
    case (Number(x), Number(y)) => CloseInts(x, y);
    case (Array(i), Array(j)) => SameItemsCanon(i, j, exact);
    case (Object(m), Object(n)) =>
      AllFoundMatch(m, n, exact);
      AllFoundMatch(n, m, exact);
      MatchBoth(m, n, exact);
    case _ =>
  }

  lemma {:induction false} SameItemsCanon(a: Items, b: Items, exact: bool)
    requires IntegralItems(a) && IntegralItems(b)
    ensures SameItems(a, b, exact) <==>
              && UniformItems(a, exact) && UniformItems(b, exact)
              && CanonItemsOf(a, exact) == CanonItemsOf(b, exact)
    decreases ItemsSize(a) + ItemsSize(b), 1
  {
    if a.NoItems? || b.NoItems? {
    } else {
      SameCanon(a.head, b.head, exact);
      SameItemsCanon(a.tail, b.tail, exact);
    }
  }

  lemma {:induction false} AllFoundMatch(ms: Members, ns: Members, exact: bool)
    requires IntegralMembers(ms) && IntegralMembers(ns)
    ensures AllFound(ms, ns, exact) <==> AllMatch(ms, ns, exact)
    decreases MembersSize(ms) + MembersSize(ns), 1
  {
    if ms.NoMembers? {
    } else {
      var n := Lookup(ns, ms.key, exact);
      LookupSize(ns, ms.key, exact);
      LookupIntegral(ns, ms.key, exact);
      AllFoundMatch(ms.rest, ns, exact);
      if n.Member? { SameCanon(ms.value, n.value, exact); }
    }
  }

  /** Hence it is symmetric and transitive there, and a tree compares equal to a copy of itself, at other
      nodes, exactly when it is uniform. One and the same node is always equal to itself. */
  lemma SameEquivalence(a: Value, b: Value, c: Value, exact: bool)
    requires Integral(a) && Integral(b) && Integral(c)
    ensures Same(a, a, exact) <==> Uniform(a, exact)
    ensures Same(a, b, exact) ==> Same(b, a, exact)
    ensures Same(a, b, exact) && Same(b, c, exact) ==> Same(a, c, exact)
  {
    SameCanon(a, a, exact);
    SameCanon(a, b, exact);
    SameCanon(b, a, exact);
    SameCanon(b, c, exact);
    SameCanon(a, c, exact);
  }

  /** An object with one key twice. */
  function Twice(key: seq<byte>, a: Value, b: Value): Value { Object(Member(key, a, Member(key, b, NoMembers))) }

  /** It compares equal to a copy of itself exactly when the two values do to each other. */
  lemma TwiceTheSameKey(key: seq<byte>, a: Value, b: Value, exact: bool)
    requires Integral(a) && Integral(b)
    ensures Same(Twice(key, a, b), Twice(key, a, b), exact) <==> Same(a, b, exact)
  {
    var v := Twice(key, a, b);
    var second := v.members.rest;
    assert IntegralMembers(NoMembers) && IntegralMembers(second);
    SameCanon(a, b, exact);
    SameCanon(v, v, exact);
    assert Lookup(NoMembers, key, exact) == NoMembers && Lookup(second, key, exact) == second;
    assert UniformMembers(NoMembers, exact);
    assert UniformMembers(second, exact) <==> Uniform(b, exact);
  }

  /** With 1 and 2 it does not. */
  lemma OneAndTwo(key: seq<byte>, exact: bool)
    ensures !Same(Twice(key, Number(1.0), Number(2.0)), Twice(key, Number(1.0), Number(2.0)), exact)
  {
    TwiceTheSameKey(key, Number(1.0), Number(2.0), exact);
  }

  // ---- greater integers ----

  /** The integers up to 2^53, which a double holds exactly. Differences of two of them, and their
      products with the epsilon, are exact or too far apart for rounding to matter. */
  predicate InDouble(n: int) { -0x20_0000_0000_0000 <= n <= 0x20_0000_0000_0000 }

  predicate SameInt(m: int, n: int, exact: bool) { Same(Number(m as real), Number(n as real), exact) }

  /** Two equal neighbours lead from the integer to one that is not equal to it. */
  ghost predicate StepsAway(x: int, exact: bool) {
    exists y, z :: InDouble(y) && InDouble(z) && SameInt(x, y, exact) && SameInt(y, z, exact) && !SameInt(x, z, exact)
  }

  /** On integers a double holds exactly, comparison fails to be transitive from an integer on if and
      only if its absolute value is at least 2^52 - 1. */
  lemma TransitiveBelow(x: int, exact: bool)
    requires InDouble(x)
    ensures StepsAway(x, exact) <==> IntAbs(x) >= 0x10_0000_0000_0000 - 1
  {
    if IntAbs(x) >= 0x10_0000_0000_0000 - 1 {
      var sign := if x < 0 then -1 else 1;
      var y, z := StepFrom(IntAbs(x));
      TwoSteps(x, sign * y, sign * z, exact);
    } else {
      forall y | InDouble(y) && SameInt(x, y, exact) ensures y == x { CloseScaled(x, y); }
    }
  }

  lemma StepFrom(x: nat) returns (y: int, z: int)
    requires InDouble(x) && x >= 0x10_0000_0000_0000 - 1
    ensures 0 <= y && 0 <= z && InDouble(y) && InDouble(z)
    ensures Close(x as real, y as real) && Close(y as real, z as real) && !Close(x as real, z as real)
  {
    if x == 0x20_0000_0000_0000 {
      y, z := x - 2, x - 3;
    } else if x <= 0x10_0000_0000_0001 {
      y, z := x + 1, x + 2;
    } else {
      y, z := x - 1, x - 2;
    }
    CloseScaled(x, y);
    CloseScaled(y, z);
    CloseScaled(x, z);
  }

  lemma TwoSteps(x: int, y: int, z: int, exact: bool)
    requires InDouble(y) && InDouble(z)
    requires Close(x as real, y as real) && Close(y as real, z as real) && !Close(x as real, z as real)
    ensures StepsAway(x, exact)
  {
    assert SameInt(x, y, exact) && SameInt(y, z, exact) && !SameInt(x, z, exact);
  }

  // ---- copying ----

  /** cJSON_Duplicate, with the children. */
  method Duplicate(v: Value) returns (copy: Value)
    ensures copy == v
    ensures Integral(v) ==> forall exact :: Same(v, copy, exact) <==> Uniform(v, exact)
    decreases Size(v), 1
  {
    copy := v;
    if v.Array? {
      var items := DuplicateItems(v.items);
      copy := Array(items);
    } else if v.Object? {
      var members := DuplicateMembers(v.members);
      copy := Object(members);
    }
    if Integral(v) {
      forall exact ensures Same(v, copy, exact) <==> Uniform(v, exact) { SameCanon(v, v, exact); }
    }
  }

  method DuplicateItems(items: Items) returns (copy: Items)
    ensures copy == items
    decreases ItemsSize(items), 0
  {
    var child := items;
    copy := NoItems;
    while child.Item?
      invariant Join(copy, child) == items && ItemsSize(child) <= ItemsSize(items)
      decreases child
    {
      var newChild := Duplicate(child.head);
      JoinTwice(copy, newChild, child.tail);
      copy := Join(copy, Item(newChild, NoItems));
      child := child.tail;
    }
    JoinNone(copy);
  }

  method DuplicateMembers(members: Members) returns (copy: Members)
    ensures copy == members
    decreases MembersSize(members), 0
  {
    var child := members;
    copy := NoMembers;
    while child.Member?
      invariant JoinMembers(copy, child) == members && MembersSize(child) <= MembersSize(members)
      decreases child
    {
      var newChild := Duplicate(child.value);
      JoinMembersTwice(copy, child.key, newChild, child.rest);
      copy := JoinMembers(copy, Member(child.key, newChild, NoMembers));
      child := child.rest;
    }
    JoinMembersNone(copy);
  }
}
