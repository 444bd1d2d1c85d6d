/**
 * IAM role bindings and their merge: the bindings the tool derives from the
 * project's groups come first, the ones the author declares are added after
 * them, and bindings for the same role are folded into one whose members are
 * the members of all of them, in order.
 */
module Bindings {
  import opened Seqs

  datatype Binding = Binding(role: string, members: seq<string>)

  function Roles(bs: seq<Binding>): seq<string> {
    seq(|bs|, i requires 0 <= i < |bs| => bs[i].role)
  }

  /** Every member `bs` grants `role`, in order, repeats kept. */
  function MembersOf(bs: seq<Binding>, role: string): seq<string> {
    if bs == [] then []
    else (if bs[0].role == role then bs[0].members else []) + MembersOf(bs[1..], role)
  }

  /** Some binding of `bs` grants `role` to `member`. */
  predicate Grants(bs: seq<Binding>, role: string, member: string) {
    exists b :: b in bs && b.role == role && member in b.members
  }

  lemma GrantsAppend(a: seq<Binding>, b: seq<Binding>)
    ensures forall role, member :: Grants(a + b, role, member) <==> Grants(a, role, member) || Grants(b, role, member)
  {
    assert forall x :: x in a + b <==> x in a || x in b;
  }

  /** Folds `b` into `acc`: onto the binding for the same role, or as a new last binding. */
  function AddBinding(acc: seq<Binding>, b: Binding): seq<Binding> {
    if acc == [] then [b]
    else if acc[0].role == b.role then [Binding(b.role, acc[0].members + b.members)] + acc[1..]
    else [acc[0]] + AddBinding(acc[1..], b)
  }

  /**
   * The bindings of `bs` with one binding per role: roles in the order they
   * first appear, and each role's members those `bs` grants it, in order.
   */
  function MergeBindings(bs: seq<Binding>): (r: seq<Binding>)
    ensures Roles(r) == Dedup(Roles(bs))
    ensures forall role :: MembersOf(r, role) == MembersOf(bs, role)
  {
    if bs == [] then []
    else
      var init := bs[..|bs| - 1];
      var last := bs[|bs| - 1];
      var m := MergeBindings(init);
      AddBindingRoles(m, last);
      AddBindingMembers(m, last);
      assert Roles(bs)[..|bs| - 1] == Roles(init);
      assert bs == init + [last];
      MembersOfAppendAll(init, [last]);
      assert forall role :: MembersOf([last], role) == (if last.role == role then last.members else []) by {
        assert [last][1..] == [];
      }
      AddBinding(m, last)
  }

  lemma {:induction false} MembersOfAppend(a: seq<Binding>, b: seq<Binding>, role: string)
    ensures MembersOf(a + b, role) == MembersOf(a, role) + MembersOf(b, role)
  {
    if a == [] {
      assert a + b == b;
    } else {
      assert (a + b)[1..] == a[1..] + b;
      MembersOfAppend(a[1..], b, role);
    }
  }

  lemma MembersOfAppendAll(a: seq<Binding>, b: seq<Binding>)
    ensures forall role :: MembersOf(a + b, role) == MembersOf(a, role) + MembersOf(b, role)
  {
    forall role { MembersOfAppend(a, b, role); }
  }

  /** A role no binding names is granted to nobody. */
  lemma {:induction false} MembersOfAbsent(bs: seq<Binding>, role: string)
    requires role !in Roles(bs)
    ensures MembersOf(bs, role) == []
  {
    if bs != [] {
      assert Roles(bs[1..]) == Roles(bs)[1..];
      assert Roles(bs)[0] == bs[0].role;
      MembersOfAbsent(bs[1..], role);
    }
  }

  lemma {:induction false} AddBindingRoles(acc: seq<Binding>, b: Binding)
    ensures Roles(AddBinding(acc, b)) == if b.role in Roles(acc) then Roles(acc) else Roles(acc) + [b.role]
  {
    if acc != [] {
      assert Roles(acc) == [acc[0].role] + Roles(acc[1..]);
      if acc[0].role != b.role {
        AddBindingRoles(acc[1..], b);
        assert Roles(AddBinding(acc, b)) == [acc[0].role] + Roles(AddBinding(acc[1..], b));
      } else {
        assert Roles(AddBinding(acc, b)) == [b.role] + Roles(acc[1..]);
      }
    }
  }

  lemma {:induction false} AddBindingMembersAt(acc: seq<Binding>, b: Binding, role: string)
    requires Distinct(Roles(acc))
    ensures MembersOf(AddBinding(acc, b), role) == MembersOf(acc, role) + (if b.role == role then b.members else [])
  {
    if acc != [] {
      HeadRoleNotInTail(acc);
      var rest := acc[1..];
      if acc[0].role == b.role {
        assert ([Binding(b.role, acc[0].members + b.members)] + rest)[1..] == rest;
        if role == b.role {
          MembersOfAbsent(rest, role);
        }
      } else {
        assert ([acc[0]] + AddBinding(rest, b))[1..] == AddBinding(rest, b);
        AddBindingMembersAt(rest, b, role);
      }
    }
  }

  lemma AddBindingMembers(acc: seq<Binding>, b: Binding)
    requires Distinct(Roles(acc))
    ensures forall role :: MembersOf(AddBinding(acc, b), role) == MembersOf(acc, role) + (if b.role == role then b.members else [])
  {
    forall role { AddBindingMembersAt(acc, b, role); }
  }

  lemma HeadRoleNotInTail(bs: seq<Binding>)
    requires Distinct(Roles(bs)) && bs != []
    ensures bs[0].role !in Roles(bs[1..])
    ensures Distinct(Roles(bs[1..]))
  {
    assert Roles(bs[1..]) == Roles(bs)[1..];
    forall j | 0 <= j < |bs| - 1 ensures Roles(bs[1..])[j] != bs[0].role {
      assert Roles(bs)[j + 1] != Roles(bs)[0];
    }
  }

  /** `member` is among the members `bs` grants `role` exactly when some binding grants it. */
  lemma {:induction false} MembersOfGrants(bs: seq<Binding>, role: string, member: string)
    ensures member in MembersOf(bs, role) <==> Grants(bs, role, member)
  {
    if bs != [] {
      MembersOfGrants(bs[1..], role, member);
      assert forall b :: b in bs <==> b == bs[0] || b in bs[1..];
    }
  }

  /** In bindings with distinct roles, MembersOf reads off the one binding for the role. */
  lemma {:induction false} MembersOfDistinct(bs: seq<Binding>, i: nat)
    requires Distinct(Roles(bs))
    requires i < |bs|
    ensures MembersOf(bs, bs[i].role) == bs[i].members
  {
    HeadRoleNotInTail(bs);
    if i == 0 {
      MembersOfAbsent(bs[1..], bs[0].role);
    } else {
      assert Roles(bs)[0] != Roles(bs)[i];
      MembersOfDistinct(bs[1..], i - 1);
    }
  }

  /**
   * Merging never drops or invents an access grant, names each role once,
   * and each merged binding holds every member granted that role, in order.
   */
  lemma MergeBindingsSound(bs: seq<Binding>)
    ensures Distinct(Roles(MergeBindings(bs)))
    ensures forall role, member :: Grants(MergeBindings(bs), role, member) <==> Grants(bs, role, member)
    ensures forall i :: 0 <= i < |MergeBindings(bs)| ==>
              MergeBindings(bs)[i].members == MembersOf(bs, MergeBindings(bs)[i].role)
  {
    var m := MergeBindings(bs);
    forall role, member ensures Grants(m, role, member) <==> Grants(bs, role, member) {
      MembersOfGrants(m, role, member);
      MembersOfGrants(bs, role, member);
    }
    forall i | 0 <= i < |m| ensures m[i].members == MembersOf(bs, m[i].role) {
      MembersOfDistinct(m, i);
    }
  }

  /** Bindings that already name each role once are their own merge. */
  lemma {:induction false} MergeBindingsOfDistinct(bs: seq<Binding>)
    requires Distinct(Roles(bs))
    ensures MergeBindings(bs) == bs
  {
    if bs != [] {
      var init := bs[..|bs| - 1];
      var last := bs[|bs| - 1];
      assert Roles(init) == Roles(bs)[..|bs| - 1];
      MergeBindingsOfDistinct(init);
      assert last.role !in Roles(init) by {
        assert Roles(bs)[|bs| - 1] == last.role;
      }
      AddBindingAppends(init, last);
      assert init + [last] == bs;
    }
  }

  /** A binding for a role not yet present goes at the end. */
  lemma {:induction false} AddBindingAppends(acc: seq<Binding>, b: Binding)
    requires b.role !in Roles(acc)
    ensures AddBinding(acc, b) == acc + [b]
  {
    if acc != [] {
      assert Roles(acc) == [acc[0].role] + Roles(acc[1..]);
      AddBindingAppends(acc[1..], b);
      assert [acc[0]] + (acc[1..] + [b]) == acc + [b];
    }
  }
}
