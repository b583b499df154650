/** Migration lists: when they can be ordered without ambiguity, and in which order. */
module Migrations {
  import opened Wrappers
  import opened Order
  import Text

  datatype Migration = Migration(version: string, name: string, hasUp: bool)

  function ID(m: Migration): string {
    m.version + "_" + m.name
  }

  // ---- validation -------------------------------------------------------

  predicate Complete(m: Migration) {
    Text.TrimSpace(m.version) != "" && Text.TrimSpace(m.name) != "" && m.hasUp
  }

  predicate Apart(m: Migration, n: Migration) {
    ID(m) != ID(n) && m.version != n.version
  }

  /** Every migration is complete, and no two share an identifier or a version. */
  predicate WellFormed(list: seq<Migration>) {
    (forall i :: 0 <= i < |list| ==> Complete(list[i]))
    && (forall i, j :: 0 <= i < j < |list| ==> Apart(list[i], list[j]))
  }

  datatype Fault = NoVersion | NoName | NoUp | Repeated | SharedVersion

  lemma WellFormedSnoc(list: seq<Migration>, i: nat)
    requires i < |list| && WellFormed(list[..i])
    ensures WellFormed(list[..i + 1]) <==>
      Complete(list[i]) && forall j :: 0 <= j < i ==> Apart(list[j], list[i])
  {
  }

  /** None exactly for a well-formed list, otherwise the first migration that is at
      fault and why. */
  method Validate(list: seq<Migration>) returns (fault: Option<(nat, Fault)>)
    ensures fault.None? <==> WellFormed(list)
    ensures fault.Some? ==>
      var i := fault.value.0;
      i < |list| && WellFormed(list[..i]) && !WellFormed(list[..i + 1])
      && match fault.value.1
         case NoVersion => Text.TrimSpace(list[i].version) == ""
         case NoName => Text.TrimSpace(list[i].name) == ""
         case NoUp => !list[i].hasUp
         case Repeated => exists j :: 0 <= j < i && ID(list[j]) == ID(list[i])
         case SharedVersion => exists j :: 0 <= j < i && list[j].version == list[i].version
  {
    hide WellFormed;
    var seen: set<string> := {};
    var versions: map<string, string> := map[];
    EmptyWellFormed(list);
    for i := 0 to |list|
      invariant WellFormed(list[..i])
      invariant forall id :: id in seen <==> exists j :: 0 <= j < i && ID(list[j]) == id
      invariant forall v :: v in versions <==> exists j :: 0 <= j < i && list[j].version == v
    {
      var m := list[i];
      WellFormedSnoc(list, i);
      WellFormedPrefix(list, i + 1);
      if Text.TrimSpace(m.version) == "" {
        return Some((i, NoVersion));
      } else if Text.TrimSpace(m.name) == "" {
        return Some((i, NoName));
      } else if !m.hasUp {
        return Some((i, NoUp));
      } else if ID(m) in seen {
        return Some((i, Repeated));
      }
      if m.version in versions {
        return Some((i, SharedVersion));
      }
      seen := seen + {ID(m)};
      versions := versions[m.version := m.name];
    }
    assert list[..|list|] == list;
    return None;
  }

  lemma EmptyWellFormed(list: seq<Migration>)
    ensures WellFormed(list[..0])
  {
  }

  lemma WellFormedPrefix(list: seq<Migration>, i: nat)
    requires i <= |list|
    ensures WellFormed(list) ==> WellFormed(list[..i])
  {
  }

  // ---- order ------------------------------------------------------------

  function IDs(list: seq<Migration>): (ids: seq<string>)
    ensures |ids| == |list|
    ensures forall i :: 0 <= i < |list| ==> ids[i] == ID(list[i])
  {
    seq(|list|, i requires 0 <= i < |list| => ID(list[i]))
  }

  function Insert(id: string, ids: seq<string>): (out: seq<string>)
    requires Ascending(ids) && id !in ids
    ensures Ascending(out) && Members(out) == {id} + Members(ids) && |out| == |ids| + 1
  {
    if ids == [] then [id]
    else if Less(id, ids[0]) then
      InFront(id, ids);
      [id] + ids
    else
      LessTotal(id, ids[0]);
      var rest := Insert(id, ids[1..]);
      Placed(ids, id, rest);
      [ids[0]] + rest
  }

  lemma InFront(id: string, ids: seq<string>)
    requires Ascending(ids) && ids != [] && Less(id, ids[0])
    ensures Ascending([id] + ids) && Members([id] + ids) == {id} + Members(ids)
  {
    MembersCons(id, ids);
    forall i | 0 < i < |ids|
      ensures Less(id, ids[i])
    {
      LessTransitive(id, ids[0], ids[i]);
    }
  }

  lemma Placed(ids: seq<string>, id: string, rest: seq<string>)
    requires ids != [] && Ascending(ids) && Less(ids[0], id)
    requires Ascending(rest) && Members(rest) == {id} + Members(ids[1..])
    ensures Ascending([ids[0]] + rest)
    ensures Members([ids[0]] + rest) == {id} + Members(ids)
  {
    hide Less;
    MembersCons(ids[0], rest);
    MembersCons(ids[0], ids[1..]);
    assert ids == [ids[0]] + ids[1..];
    forall i | 0 <= i < |rest|
      ensures Less(ids[0], rest[i])
    {
      assert rest[i] in Members(rest);
    }
  }

  predicate Distinct(ids: seq<string>) {
    forall i, j :: 0 <= i < j < |ids| ==> ids[i] != ids[j]
  }

  /** The ascending arrangement of distinct identifiers. */
  function Ordered(ids: seq<string>): (out: seq<string>)
    requires Distinct(ids)
    ensures Ascending(out) && Members(out) == Members(ids) && |out| == |ids|
  {
    if ids == [] then []
    else
      var rest := Ordered(ids[1..]);
      MembersCons(ids[0], ids[1..]);
      assert ids == [ids[0]] + ids[1..];
      NotMember(ids[0], rest);
      Insert(ids[0], rest)
  }

  // ---- what the order of identifiers says about versions ----------------

  lemma {:induction false} LessCommon(p: string, a: string, b: string)
    ensures Less(p + a, p + b) == Less(a, b)
  {
    if p == [] {
      assert p + a == a && p + b == b;
    } else {
      assert (p + a)[1..] == p[1..] + a && (p + b)[1..] == p[1..] + b;
      LessCommon(p[1..], a, b);
    }
  }

  lemma {:induction false} LessDiffer(u: string, v: string, a: string, b: string)
    requires !(u <= v) && !(v <= u)
    ensures Less(u + a, v + b) == Less(u, v)
  {
    assert u != [] && v != [];
    assert (u + a)[1..] == u[1..] + a && (v + b)[1..] == v[1..] + b;
    if u[0] == v[0] {
      assert u == [u[0]] + u[1..] && v == [v[0]] + v[1..];
      assert !(u[1..] <= v[1..]) && !(v[1..] <= u[1..]);
      LessDiffer(u[1..], v[1..], a, b);
    }
  }

  lemma LessPrefix(u: string, n: string, v: string, m: string)
    requires u <= v && u != v && Text.AllDigits(v)
    ensures Less(v + "_" + m, u + "_" + n) && Less(u, v)
  {
    var rest := v[|u|..];
    assert v == u + rest;
    assert v + "_" + m == u + (rest + "_" + m) && u + "_" + n == u + ("_" + n);
    LessCommon(u, rest + "_" + m, "_" + n);
    assert Text.IsDigit(rest[0]);
    assert u + "" == u;
    LessCommon(u, "", rest);
    LessTotal(u, v);
  }

  /** Identifiers sort as their versions do exactly when neither version is the
      beginning of the other: the underscore sorts after every digit, so version 10
      comes before version 1. */
  lemma VersionOrderExact(m: Migration, n: Migration)
    requires Text.AllDigits(m.version) && Text.AllDigits(n.version) && m.version != n.version
    ensures (Less(ID(m), ID(n)) <==> Less(m.version, n.version)) <==>
            !(m.version <= n.version) && !(n.version <= m.version)
  {
    LessTotal(ID(m), ID(n));
    LessTotal(m.version, n.version);
    if m.version <= n.version {
      LessPrefix(m.version, m.name, n.version, n.name);
    } else if n.version <= m.version {
      LessPrefix(n.version, n.name, m.version, m.name);
    } else {
      assert ID(m) == m.version + ("_" + m.name) && ID(n) == n.version + ("_" + n.name);
      LessDiffer(m.version, n.version, "_" + m.name, "_" + n.name);
    }
  }

  /** Version 10 sorts before version 1, although it comes after. */
  lemma TenBeforeOne()
    ensures
      var one, ten := Migration("1", "a", true), Migration("10", "b", true);
      WellFormed([one, ten]) && Less(one.version, ten.version) && Ordered(IDs([one, ten])) == ["10_b", "1_a"]
  {
    var one, ten := Migration("1", "a", true), Migration("10", "b", true);
    assert ID(one) == "1_a" && ID(ten) == "10_b";
    LessPrefix(one.version, one.name, ten.version, ten.name);
    Plain(one);
    Plain(ten);
    var ids := IDs([one, ten]);
    assert ids == ["1_a", "10_b"];
    hide Less, Ordered;
    assert Ascending(["10_b", "1_a"]);
    forall id
      ensures id in Members(ids) <==> id in Members(["10_b", "1_a"])
    {
    }
    OneOrder(Ordered(ids), ["10_b", "1_a"]);
  }

  lemma Plain(m: Migration)
    requires m == Migration("1", "a", true) || m == Migration("10", "b", true)
    ensures Complete(m)
  {
    Text.TrimSpaceIdle(m.version);
    Text.TrimSpaceIdle(m.name);
  }

  lemma {:induction false} LessIsValue(u: string, v: string)
    requires |u| == |v| && Text.AllDigits(u) && Text.AllDigits(v)
    ensures Less(u, v) <==> Text.Value(u) < Text.Value(v)
  {
    if u != [] {
      var a, b := u[1..], v[1..];
      LessIsValue(a, b);
      assert u == [u[0]] + a && v == [v[0]] + b;
      Text.ValueOfConcat([u[0]], a);
      Text.ValueOfConcat([v[0]], b);
      Text.ValueBound(a);
      Text.ValueBound(b);
      HeadValue(u[0]);
      HeadValue(v[0]);
      Digitwise(Text.DigitValue(u[0]), Text.DigitValue(v[0]), Text.Value(a), Text.Value(b), Text.Pow10(|a|));
    }
  }

  lemma HeadValue(c: char)
    requires Text.IsDigit(c)
    ensures Text.Value([c]) == Text.DigitValue(c)
  {
  }

  lemma Digitwise(d: nat, e: nat, x: nat, y: nat, p: nat)
    requires x < p && y < p
    ensures d * p + x < e * p + y <==> (d < e || (d == e && x < y))
  {
    if d < e {
      Ahead(d, e, x, y, p);
    } else if e < d {
      Ahead(e, d, y, x, p);
    }
  }

  lemma {:induction false} Ahead(d: nat, e: nat, x: nat, y: nat, p: nat)
    requires d < e && x < p
    ensures d * p + x < e * p + y
  {
    assert e * p == (e - 1) * p + p;
    if d < e - 1 {
      Ahead(d, e - 1, x, y, p);
    }
  }

  /** Zero-padded to one width, versions run in the order of their numbers. */
  lemma PaddedVersionsAscend(m: Migration, n: Migration)
    requires Text.AllDigits(m.version) && Text.AllDigits(n.version)
    requires |m.version| == |n.version| && m.version != n.version
    ensures Less(ID(m), ID(n)) <==> Text.Value(m.version) < Text.Value(n.version)
  {
    VersionOrderExact(m, n);
    LessIsValue(m.version, n.version);
  }
}
