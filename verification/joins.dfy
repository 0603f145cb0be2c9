/** `joinDonationRecipient`: which join rules apply to one donation, in order. */
module Joins {
  import opened Wrappers
  import opened Text
  import opened Donations
  import opened Schemas
  import Aggregation

  /** Why a recipient join fails the read: a computed key names no schema
      (populate is handed no schema), or a proposed project has no type to
      lower-case. */
  datatype JoinError = UnknownSchema(key: string) | MissingProposedProjectType

  /** The owner schema key: `po-donor-owner` for a donor owner (the payer
      rule `po-donor` would attach under the wrong name), otherwise
      `po-<ownerType>`, lower-cased. */
  function OwnerKey(d: Donation): string {
    if ToLower(d.ownerType) == "donor" then "po-donor-owner" else "po-" + ToLower(d.ownerType)
  }

  /** The proposed-project schema key `po-<proposedProjectType>-proposed`, lower-cased. */
  function ProposedKey(projectType: string): string {
    "po-" + ToLower(projectType) + "-proposed"
  }

  /** The owner types the rest of the system produces. */
  predicate IsKnownOwnerType(d: Donation) {
    ToLower(d.ownerType) in {"campaign", "milestone", "dac", "donor"}
  }

  /** The schemas joined onto one donation: the owner schema first, then
      `po-dac` when `delegate` is truthy, then the proposed-project schema
      when `proposedProject > 0`; nothing else. The steps run in that order,
      so the first one that cannot be resolved decides the error. */
  function JoinPlan(d: Donation): (r: Result<seq<SchemaName>, JoinError>)
    ensures Lookup(OwnerKey(d)).None? ==> r == Failure(UnknownSchema(OwnerKey(d)))
    ensures Lookup(OwnerKey(d)).Some? && HasProposedProject(d) && d.proposedProjectType.None?
      ==> r == Failure(MissingProposedProjectType)
    ensures Lookup(OwnerKey(d)).Some? && HasProposedProject(d) && d.proposedProjectType.Some?
            && Lookup(ProposedKey(d.proposedProjectType.value)).None?
      ==> r == Failure(UnknownSchema(ProposedKey(d.proposedProjectType.value)))
    ensures r.Success? <==>
      && Lookup(OwnerKey(d)).Some?
      && (HasProposedProject(d) ==>
            d.proposedProjectType.Some? && Lookup(ProposedKey(d.proposedProjectType.value)).Some?)
    ensures r.Success? ==>
      var p := r.value;
      && |p| == 1 + (if d.delegate then 1 else 0) + (if HasProposedProject(d) then 1 else 0)
      && Key(p[0]) == OwnerKey(d)
      && (d.delegate <==> PoDac in p[1..])
      && (d.delegate ==> p[1] == PoDac)
      && (HasProposedProject(d) <==> |p| > 1 && p[|p| - 1] != PoDac)
      && (HasProposedProject(d) ==> Key(p[|p| - 1]) == ProposedKey(d.proposedProjectType.value))
  {
    var ownerKey := OwnerKey(d);
    match Lookup(ownerKey)
    case None => Failure(UnknownSchema(ownerKey))
    case Some(owner) =>
      var delegated := if d.delegate then [PoDac] else [];
      if !HasProposedProject(d) then Success([owner] + delegated)
      else
        match d.proposedProjectType
        case None => Failure(MissingProposedProjectType)
        case Some(t) =>
          match Lookup(ProposedKey(t))
          case None => Failure(UnknownSchema(ProposedKey(t)))
          case Some(proposed) =>
            assert proposed != PoDac by { ProposedKeyNotDac(t); }
            var plan := [owner] + delegated + [proposed];
            assert plan[1..] == delegated + [proposed];
            Success(plan)
  }

  lemma ProposedKeyNotDac(t: string)
    ensures ProposedKey(t) != Key(PoDac)
  {
  }

  /** Which schema the owner key selects, for every known owner type; the
      payer rule `po-donor` is never selected as the owner. */
  lemma {:induction false} OwnerSchema(d: Donation)
    ensures Lookup(OwnerKey(d)) != Some(PoDonor)
    ensures ToLower(d.ownerType) == "campaign" ==> Lookup(OwnerKey(d)) == Some(PoCampaign)
    ensures ToLower(d.ownerType) == "milestone" ==> Lookup(OwnerKey(d)) == Some(PoMilestone)
    ensures ToLower(d.ownerType) == "dac" ==> Lookup(OwnerKey(d)) == Some(PoDac)
    ensures ToLower(d.ownerType) == "donor" ==> Lookup(OwnerKey(d)) == Some(PoDonorOwner)
  {
    var lower := ToLower(d.ownerType);
    if lower != "donor" {
      PrefixedKey(lower);
    }
  }

  /** The schema found under `po-<x>` for an owner type `x` other than donor. */
  lemma PrefixedKey(x: string)
    requires x != "donor"
    ensures Lookup("po-" + x) != Some(PoDonor)
    ensures x == "campaign" ==> Lookup("po-" + x) == Some(PoCampaign)
    ensures x == "milestone" ==> Lookup("po-" + x) == Some(PoMilestone)
    ensures x == "dac" ==> Lookup("po-" + x) == Some(PoDac)
  {
    assert ("po-" + x)[3..] == x;
  }

  /** The proposed key resolves exactly for a campaign or milestone project type. */
  lemma {:induction false} ProposedSchema(t: string)
    ensures Lookup(ProposedKey(t)).Some? <==> ToLower(t) == "campaign" || ToLower(t) == "milestone"
    ensures ToLower(t) == "campaign" ==> Lookup(ProposedKey(t)) == Some(PoCampaignProposed)
    ensures ToLower(t) == "milestone" ==> Lookup(ProposedKey(t)) == Some(PoMilestoneProposed)
  {
    SuffixedKey(ToLower(t));
  }

  /** The schema found under `po-<x>-proposed`. */
  lemma SuffixedKey(x: string)
    ensures Lookup("po-" + x + "-proposed").Some? <==> x == "campaign" || x == "milestone"
    ensures x == "campaign" ==> Lookup("po-" + x + "-proposed") == Some(PoCampaignProposed)
    ensures x == "milestone" ==> Lookup("po-" + x + "-proposed") == Some(PoMilestoneProposed)
  {
    var k := "po-" + x + "-proposed";
    if Lookup(k).Some? {
      ProposedKeyMatch(x, Lookup(k).value);
    }
  }

  /** The only keys of the shape `po-<x>-proposed` are the two proposed schemas'. */
  lemma ProposedKeyMatch(x: string, n: SchemaName)
    requires Key(n) == "po-" + x + "-proposed"
    ensures (n == PoCampaignProposed && x == "campaign") || (n == PoMilestoneProposed && x == "milestone")
  {
    var k := "po-" + x + "-proposed";
    assert k[3..|k| - 9] == x;
    assert k[|k| - 9..] == "-proposed";
    assert |Key(n)| >= 12 && Key(n)[|Key(n)| - 9..] == "-proposed";
    KeySuffix(n);
    if n == PoCampaignProposed {
      assert "po-campaign-proposed"[3..11] == "campaign";
    } else {
      assert "po-milestone-proposed"[3..12] == "milestone";
    }
  }

  /** Only the two proposed schemas have keys ending in `-proposed`. */
  lemma KeySuffix(n: SchemaName)
    ensures || n == PoCampaignProposed || n == PoMilestoneProposed
            || |Key(n)| < 12 || Key(n)[|Key(n)| - 9..] != "-proposed"
  {
    match n
    case PoDonorOwner =>
      assert Key(n)[5] == 'n';
    case PoMilestone =>
      assert Key(n)[3] == 'm';
    case _ =>
  }

  /** The entity a donation is credited to is also the one the recipient
      join attaches: the plan holds a rule reading the target's store
      through the same foreign key the aggregation used. */
  lemma CreditedTargetIsJoined(d: Donation, t: Aggregation.Target, p: seq<SchemaName>)
    requires Aggregation.SelectTarget(d) == Some(t)
    requires JoinPlan(d) == Success(p)
    ensures exists i :: 0 <= i < |p| && Rule(p[i]).service == t.store
                        && Rule(p[i]).parentField == (if t.store == Dacs then "delegateId" else "ownerId")
  {
    OwnerSchema(d);
  }

  /** The recipient plan never contains the payer rule: the `donor` slot is
      filled only by the gate's donor modes. */
  lemma JoinPlanWithoutPayer(d: Donation)
    requires JoinPlan(d).Success?
    ensures PoDonor !in JoinPlan(d).value
  {
    var p := JoinPlan(d).value;
    OwnerSchema(d);
    if HasProposedProject(d) {
      ProposedSchema(d.proposedProjectType.value);
      LookupKey(p[|p| - 1]);
    }
    LookupKey(p[0]);
    forall i | 0 <= i < |p|
      ensures p[i] != PoDonor
    {
      if 0 < i && p[i] != PoDac {
        assert HasProposedProject(d) && i == |p| - 1;
      }
    }
  }

  /** The slots the recipient plan fills, for a known owner type. */
  lemma PlanSlots(d: Donation, p: seq<SchemaName>)
    requires IsKnownOwnerType(d)
    requires JoinPlan(d) == Success(p)
    ensures !Attaches(p, Donor)
    ensures Attaches(p, OwnerEntity) <==> ToLower(d.ownerType) != "dac"
    ensures Attaches(p, DelegateEntity) <==> d.delegate || ToLower(d.ownerType) == "dac"
    ensures Attaches(p, ProposedEntity) <==> HasProposedProject(d)
  {
    var dacOwned := ToLower(d.ownerType) == "dac";
    PlanShape(d, p);
    PlanOwnerSlot(d, p);
    PlanProposedSlot(d, p);
    ShapeSlots(p, if dacOwned then DelegateEntity else OwnerEntity, d.delegate, HasProposedProject(d));
  }

  /** The plan's length and the place of `po-dac` and of the proposed schema. */
  lemma PlanShape(d: Donation, p: seq<SchemaName>)
    requires JoinPlan(d) == Success(p)
    ensures |p| == 1 + (if d.delegate then 1 else 0) + (if HasProposedProject(d) then 1 else 0)
    ensures d.delegate ==> p[1] == PoDac
    ensures forall i :: 0 < i < |p| ==> p[i] == PoDac || (HasProposedProject(d) && i == |p| - 1)
  {
  }

  /** The owner schema fills `delegateEntity` for a dac owner and `ownerEntity` otherwise. */
  lemma PlanOwnerSlot(d: Donation, p: seq<SchemaName>)
    requires IsKnownOwnerType(d)
    requires JoinPlan(d) == Success(p)
    ensures Rule(p[0]).nameAs == (if ToLower(d.ownerType) == "dac" then DelegateEntity else OwnerEntity)
  {
    OwnerSchema(d);
    LookupKey(p[0]);
  }

  /** The proposed-project schema fills `proposedEntity`. */
  lemma PlanProposedSlot(d: Donation, p: seq<SchemaName>)
    requires JoinPlan(d) == Success(p)
    ensures HasProposedProject(d) ==> Rule(p[|p| - 1]).nameAs == ProposedEntity
  {
    if HasProposedProject(d) {
      ProposedSchema(d.proposedProjectType.value);
      LookupKey(p[|p| - 1]);
    }
  }

  /** The slots of any plan of the recipient shape: an owner schema filling
      `owner`, then `po-dac` when delegated, then a proposed schema. */
  lemma ShapeSlots(p: seq<SchemaName>, owner: Slot, delegated: bool, proposed: bool)
    requires owner == OwnerEntity || owner == DelegateEntity
    requires |p| == 1 + (if delegated then 1 else 0) + (if proposed then 1 else 0)
    requires Rule(p[0]).nameAs == owner
    requires delegated ==> p[1] == PoDac
    requires proposed ==> Rule(p[|p| - 1]).nameAs == ProposedEntity
    requires forall i :: 0 < i < |p| ==> p[i] == PoDac || (proposed && i == |p| - 1)
    ensures !Attaches(p, Donor)
    ensures Attaches(p, OwnerEntity) <==> owner == OwnerEntity
    ensures Attaches(p, DelegateEntity) <==> delegated || owner == DelegateEntity
    ensures Attaches(p, ProposedEntity) <==> proposed
  {
    assert forall i :: 0 < i < |p| ==> Rule(p[i]).nameAs == DelegateEntity || Rule(p[i]).nameAs == ProposedEntity;
    if delegated {
      assert Rule(p[1]).nameAs == DelegateEntity;
    }
  }

  /** With neither a delegate nor a proposed project, the plan is the owner schema alone. */
  lemma OwnerOnlyPlan(d: Donation)
    requires Lookup(OwnerKey(d)).Some?
    requires !d.delegate && !HasProposedProject(d)
    ensures JoinPlan(d) == Success([Lookup(OwnerKey(d)).value])
  {
    assert [Lookup(OwnerKey(d)).value] + [] == [Lookup(OwnerKey(d)).value];
  }

  /** A delegated donation with no proposed project joins its owner and then
      the delegate, nothing else. */
  lemma DelegatedPlan(d: Donation)
    requires Lookup(OwnerKey(d)).Some?
    requires d.delegate && !HasProposedProject(d)
    ensures JoinPlan(d) == Success([Lookup(OwnerKey(d)).value, PoDac])
  {
    assert [Lookup(OwnerKey(d)).value] + [PoDac] == [Lookup(OwnerKey(d)).value, PoDac];
  }
}
