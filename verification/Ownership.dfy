/**
  Controller owner references, as the controller library compares and edits them:
  two references name the same owner if group, kind and name agree; the unique id
  is not compared.
*/
module Ownership {
  import opened Redis
  import opened Conditions

  datatype OwnerRef = OwnerRef(group: string, kind: string, name: string, uid: string, controller: bool)

  predicate SameOwner(a: OwnerRef, b: OwnerRef) { a.group == b.group && a.kind == b.kind && a.name == b.name }

  /** The first reference marked as controller. */
  function Controller(owners: seq<OwnerRef>): Option<OwnerRef> {
    if owners == [] then None else if owners[0].controller then Some(owners[0]) else Controller(owners[1..])
  }

  /** Replace the first reference to that owner, or append one. */
  function Upsert(owners: seq<OwnerRef>, ref: OwnerRef): seq<OwnerRef> {
    if owners == [] then [ref]
    else if SameOwner(owners[0], ref) then [ref] + owners[1..]
    else [owners[0]] + Upsert(owners[1..], ref)
  }

  datatype Claimed = Mine(owners: seq<OwnerRef>) | Refused(error: ChildError)

  /** Ownership check of a child: an existing one must already have this owner as its controller. */
  function Claim(found: bool, owners: seq<OwnerRef>, ref: OwnerRef): Claimed {
    var controller := Controller(owners);
    if found && controller.None? then Refused(NoControllerOwner)
    else if controller.Some? && !SameOwner(controller.value, ref) then Refused(OwnedByOther(controller.value.name))
    else Mine(Upsert(owners, ref))
  }

  /** An existing child another controller, or none, is responsible for. */
  predicate NotMine(owners: seq<OwnerRef>, ref: OwnerRef) {
    Controller(owners).None? || !SameOwner(Controller(owners).value, ref)
  }

  lemma {:induction false} UpsertAgain(owners: seq<OwnerRef>, ref: OwnerRef)
    ensures Upsert(Upsert(owners, ref), ref) == Upsert(owners, ref)
  {
    if owners != [] && !SameOwner(owners[0], ref) {
      UpsertAgain(owners[1..], ref);
      assert ([owners[0]] + Upsert(owners[1..], ref))[1..] == Upsert(owners[1..], ref);
    } else if owners != [] {
      assert ([ref] + owners[1..])[1..] == owners[1..];
    }
  }

  /** Once claimed, the owner is the controller. */
  lemma {:induction false} UpsertController(owners: seq<OwnerRef>, ref: OwnerRef)
    requires ref.controller && (Controller(owners).None? || SameOwner(Controller(owners).value, ref))
    ensures Controller(Upsert(owners, ref)) == Some(ref)
  {
    if owners != [] && !SameOwner(owners[0], ref) {
      UpsertController(owners[1..], ref);
      assert ([owners[0]] + Upsert(owners[1..], ref))[1..] == Upsert(owners[1..], ref);
    }
  }

  /** A child is taken exactly if it is missing or already this owner's, and taking it again is the same. */
  lemma ClaimExactly(found: bool, owners: seq<OwnerRef>, ref: OwnerRef)
    requires ref.controller && (!found ==> owners == [])
    ensures Claim(found, owners, ref).Mine? <==> !found || !NotMine(owners, ref)
    ensures Claim(found, owners, ref).Mine? ==>
      var taken := Claim(found, owners, ref).owners;
      Controller(taken) == Some(ref) && Claim(true, taken, ref) == Mine(taken)
  {
    if Claim(found, owners, ref).Mine? {
      UpsertAgain(owners, ref);
      UpsertController(owners, ref);
    }
  }

  ghost predicate ControlsFirstAt(owners: seq<OwnerRef>, i: int) {
    0 <= i < |owners| && owners[i].controller && forall j :: 0 <= j < i ==> !owners[j].controller
  }

  /** The controller is the first reference marked so. */
  lemma {:induction false} ControllerExactly(owners: seq<OwnerRef>)
    ensures Controller(owners).None? <==> forall i :: 0 <= i < |owners| ==> !owners[i].controller
    ensures forall i :: ControlsFirstAt(owners, i) ==> Controller(owners) == Some(owners[i])
  {
    if owners != [] {
      ControllerExactly(owners[1..]);
      assert owners == [owners[0]] + owners[1..];
      forall i | ControlsFirstAt(owners, i) ensures Controller(owners) == Some(owners[i]) {
        if i > 0 {
          assert !owners[0].controller && owners[1..][i - 1] == owners[i];
          assert forall j :: 0 <= j < i - 1 ==> owners[1..][j] == owners[j + 1];
          assert ControlsFirstAt(owners[1..], i - 1);
        }
      }
    }
  }

  /** Taking a child leaves the references to other owners as they are, and in place. */
  lemma {:induction false} UpsertKeepsOthers(owners: seq<OwnerRef>, ref: OwnerRef)
    ensures |owners| <= |Upsert(owners, ref)| <= |owners| + 1
    ensures forall i :: 0 <= i < |owners| && !SameOwner(owners[i], ref) ==> Upsert(owners, ref)[i] == owners[i]
    ensures ref in Upsert(owners, ref)
    ensures |Upsert(owners, ref)| == |owners| <==> exists i :: 0 <= i < |owners| && SameOwner(owners[i], ref)
  {
    if owners != [] && !SameOwner(owners[0], ref) {
      UpsertKeepsOthers(owners[1..], ref);
      assert owners == [owners[0]] + owners[1..];
    }
  }

  /** Why a child is not taken: it has no controller, or another one, which is named. */
  lemma RefusedExactly(found: bool, owners: seq<OwnerRef>, ref: OwnerRef)
    ensures Claim(found, owners, ref) == Refused(NoControllerOwner) <==> found && Controller(owners).None?
    ensures Controller(owners).Some? ==>
      var c := Controller(owners).value;
      (Claim(found, owners, ref) == Refused(OwnedByOther(c.name)) <==>
         c.group != ref.group || c.kind != ref.kind || c.name != ref.name)
  {
  }

  /** The unique id is not compared: a child of a deleted namesake is taken over. */
  lemma TakesOverNamesake() returns (owners: seq<OwnerRef>, ref: OwnerRef)
    ensures ref.controller && Controller(owners).Some? && Controller(owners).value.uid != ref.uid
    ensures Claim(true, owners, ref).Mine?
  {
    ref := OwnerRef("platform.kernexys.io", "ModelDeployment", "sentiment", "2", true);
    owners := [ref.(uid := "1")];
    assert "1"[0] != "2"[0];
  }
}
