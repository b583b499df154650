/** The order of texts, byte by byte, and the one arrangement it gives a list. */
module Order {

  /** The order `strings.Compare` puts two texts in. */
  predicate Less(a: string, b: string) {
    b != [] && (a == [] || a[0] < b[0] || (a[0] == b[0] && Less(a[1..], b[1..])))
  }

  lemma {:induction false} LessTotal(a: string, b: string)
    ensures Less(a, b) || a == b || Less(b, a)
    ensures !(Less(a, b) && Less(b, a)) && !Less(a, a)
  {
    if a != [] {
      LessTotal(a[1..], a[1..]);
      if b != [] && a[0] == b[0] {
        LessTotal(a[1..], b[1..]);
        assert a == [a[0]] + a[1..] && b == [b[0]] + b[1..];
      }
    }
  }

  lemma {:induction false} LessTransitive(a: string, b: string, c: string)
    requires Less(a, b) && Less(b, c)
    ensures Less(a, c)
  {
    if a != [] && a[0] == b[0] == c[0] {
      LessTransitive(a[1..], b[1..], c[1..]);
    }
  }

  predicate Ascending(ids: seq<string>) {
    forall i, j :: 0 <= i < j < |ids| ==> Less(ids[i], ids[j])
  }

  function Members(ids: seq<string>): set<string> {
    set id | id in ids
  }

  lemma MembersCons(id: string, ids: seq<string>)
    ensures Members([id] + ids) == {id} + Members(ids)
  {
  }

  lemma NoMembers(ids: seq<string>)
    ensures Members(ids) == {} <==> ids == []
  {
    assert ids != [] ==> ids[0] in Members(ids);
  }

  lemma NotMember(id: string, ids: seq<string>)
    ensures id in Members(ids) <==> id in ids
  {
  }

  lemma AscendingHead(ids: seq<string>, x: string)
    requires ids != [] && Ascending(ids) && x in ids
    ensures x == ids[0] || Less(ids[0], x)
  {
  }

  lemma HeadNotInTail(ids: seq<string>)
    requires ids != [] && Ascending(ids)
    ensures ids[0] !in ids[1..]
  {
    LessTotal(ids[0], ids[0]);
  }

  /** The members of a list have one ascending arrangement: how the sort goes about
      it, stable or not, cannot matter. */
  lemma {:induction false} OneOrder(a: seq<string>, b: seq<string>)
    requires Ascending(a) && Ascending(b) && Members(a) == Members(b)
    ensures a == b
  {
    hide Less;
    if a != [] && b != [] {
      assert a[0] in Members(a) && b[0] in Members(b);
      AscendingHead(a, b[0]);
      AscendingHead(b, a[0]);
      LessTotal(a[0], b[0]);
      assert a == [a[0]] + a[1..] && b == [b[0]] + b[1..];
      MembersCons(a[0], a[1..]);
      MembersCons(b[0], b[1..]);
      HeadNotInTail(a);
      HeadNotInTail(b);
      assert Members(a[1..]) == Members(a) - {a[0]} == Members(b[1..]);
      OneOrder(a[1..], b[1..]);
    } else {
      NoMembers(a);
      NoMembers(b);
    }
  }
}
