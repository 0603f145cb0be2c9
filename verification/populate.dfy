/** `populateSchema`: the verbosity gate run after every donation read, and
    its application to a single record or a list of records. */
module Populate {
  import opened Wrappers
  import opened Text
  import opened Donations
  import opened Schemas
  import opened Joins

  /** The four outcomes of the request's `schema` parameter. */
  datatype Mode = NoDetails | DonorDetails | TypeDetails | TypeAndDonorDetails

  /** The parameter value that selects each mode other than `NoDetails`. */
  function ModeName(m: Mode): string {
    match m
    case NoDetails => ""
    case DonorDetails => "includeDonorDetails"
    case TypeDetails => "includeTypeDetails"
    case TypeAndDonorDetails => "includeTypeAndDonorDetails"
  }

  /** The gate: the three recognised values are compared exactly; any other
      value, or no value, asks for no enrichment. */
  function ModeOf(schema: Option<string>): (m: Mode)
    ensures m != NoDetails ==> schema == Some(ModeName(m))
  {
    match schema
    case None => NoDetails
    case Some(s) =>
      if s == "includeDonorDetails" then DonorDetails
      else if s == "includeTypeDetails" then TypeDetails
      else if s == "includeTypeAndDonorDetails" then TypeAndDonorDetails
      else NoDetails
  }

  /** Each recognised value selects its own mode, so the gate and `ModeName`
      are inverse on the three enriching modes. */
  lemma ModeOfName(m: Mode)
    requires m != NoDetails
    ensures ModeOf(Some(ModeName(m))) == m
  {
  }

  /** What the hook leaves in `context.result`: nothing (removal by id), one
      record, or a list. */
  datatype Items<T> = Absent | Single(item: T) | Many(items: seq<T>)

  /** A donation together with the schemas joined onto it, in the order applied. */
  datatype Enriched = Enriched(donation: Donation, joins: seq<SchemaName>)

  /** The schemas one mode joins onto one donation: the payer for the donor
      modes, the recipient plan for the type modes, the payer first when both
      are asked for. */
  function ItemPlan(m: Mode, d: Donation): (r: Result<seq<SchemaName>, JoinError>)
    ensures m == NoDetails ==> r == Success([])
    ensures m == DonorDetails ==> r == Success([PoDonor])
    ensures (m == TypeDetails || m == TypeAndDonorDetails) ==> (r.Success? <==> JoinPlan(d).Success?)
    ensures m == TypeDetails && r.Success? ==> r.value == JoinPlan(d).value
    ensures m == TypeAndDonorDetails && r.Success? ==> r.value == [PoDonor] + JoinPlan(d).value
  {
    match m
    case NoDetails => Success([])
    case DonorDetails => Success([PoDonor])
    case TypeDetails => JoinPlan(d)
    case TypeAndDonorDetails =>
      match JoinPlan(d)
      case Failure(e) => Failure(e)
      case Success(p) => Success([PoDonor] + p)
  }

  function Enrich(m: Mode, d: Donation): (r: Result<Enriched, JoinError>)
    ensures r.Success? <==> ItemPlan(m, d).Success?
    ensures r.Success? ==> r.value.donation == d && r.value.joins == ItemPlan(m, d).value
  {
    match ItemPlan(m, d)
    case Failure(e) => Failure(e)
    case Success(p) => Success(Enriched(d, p))
  }

  /** `items.map(joinDonationRecipient)` awaited with `Promise.all`: one
      enriched record per donation, in the same order; the read fails when
      any one record fails. */
  function EnrichAll(m: Mode, ds: seq<Donation>): (r: Result<seq<Enriched>, JoinError>)
    ensures r.Success? <==> forall i :: 0 <= i < |ds| ==> Enrich(m, ds[i]).Success?
    ensures r.Success? ==> |r.value| == |ds|
    ensures r.Success? ==> forall i :: 0 <= i < |ds| ==> r.value[i] == Enrich(m, ds[i]).value
  {
    if |ds| == 0 then Success([])
    else
      match Enrich(m, ds[0])
      case Failure(e) => Failure(e)
      case Success(first) =>
        match EnrichAll(m, ds[1..])
        case Failure(e) => Failure(e)
        case Success(rest) => Success([first] + rest)
  }

  /** The whole after-hook: the gate chooses the mode, and the mode's plan is
      applied to the single record or to every record of the list. With no
      enrichment every record comes back exactly as it was. */
  function PopulateSchema(schema: Option<string>, items: Items<Donation>): (r: Result<Items<Enriched>, JoinError>)
    ensures items.Absent? ==> r == Success(Absent)
    ensures items.Single? ==> (r.Success? <==> ItemPlan(ModeOf(schema), items.item).Success?)
    ensures items.Single? && r.Success? ==>
      r.value == Single(Enriched(items.item, ItemPlan(ModeOf(schema), items.item).value))
    ensures items.Many? ==>
      (r.Success? <==> forall i :: 0 <= i < |items.items| ==> ItemPlan(ModeOf(schema), items.items[i]).Success?)
    ensures items.Many? && r.Success? ==>
      && r.value.Many?
      && |r.value.items| == |items.items|
      && forall i :: 0 <= i < |items.items| ==>
           r.value.items[i] == Enriched(items.items[i], ItemPlan(ModeOf(schema), items.items[i]).value)
    ensures ModeOf(schema) == NoDetails ==> r.Success?
  {
    var m := ModeOf(schema);
    match items
    case Absent => Success(Absent)
    case Single(d) =>
      (match Enrich(m, d)
       case Failure(e) => Failure(e)
       case Success(e) => Success(Single(e)))
    case Many(ds) =>
      match EnrichAll(m, ds)
      case Failure(e) => Failure(e)
      case Success(es) => Success(Many(es))
  }

  /** Exactly which slots each mode fills on a donation of a known owner
      type: `donor` only in the donor modes, and in the type modes an
      `ownerEntity` unless a dac owns the donation (its owner schema is
      `po-dac`), a `delegateEntity` exactly when it is delegated or dac-owned,
      and a `proposedEntity` exactly when it proposes a project. */
  lemma AttachedSlots(m: Mode, d: Donation)
    requires IsKnownOwnerType(d)
    requires ItemPlan(m, d).Success?
    ensures Attaches(ItemPlan(m, d).value, Donor) <==> m == DonorDetails || m == TypeAndDonorDetails
    ensures m == TypeDetails || m == TypeAndDonorDetails ==>
      var joins := ItemPlan(m, d).value;
      && (Attaches(joins, OwnerEntity) <==> ToLower(d.ownerType) != "dac")
      && (Attaches(joins, DelegateEntity) <==> d.delegate || ToLower(d.ownerType) == "dac")
      && (Attaches(joins, ProposedEntity) <==> HasProposedProject(d))
    ensures m == NoDetails ==> ItemPlan(m, d).value == []
  {
    var joins := ItemPlan(m, d).value;
    match m
    case NoDetails =>
    case DonorDetails =>
      assert Rule(joins[0]).nameAs == Donor;
    case TypeDetails =>
      PlanSlots(d, JoinPlan(d).value);
    case TypeAndDonorDetails =>
      PlanSlots(d, JoinPlan(d).value);
      PayerFirstSlots(JoinPlan(d).value);
  }

  /** Putting the payer rule in front adds the `donor` slot and nothing else. */
  lemma PayerFirstSlots(p: seq<SchemaName>)
    ensures forall slot :: Attaches([PoDonor] + p, slot) <==> slot == Donor || Attaches(p, slot)
  {
    var joins := [PoDonor] + p;
    forall slot | Attaches(p, slot)
      ensures Attaches(joins, slot)
    {
      var i :| 0 <= i < |p| && Rule(p[i]).nameAs == slot;
      assert joins[i + 1] == p[i];
    }
    forall slot | Attaches(joins, slot) && slot != Donor
      ensures Attaches(p, slot)
    {
      var i :| 0 <= i < |joins| && Rule(joins[i]).nameAs == slot;
      assert i > 0 && joins[i] == p[i - 1];
    }
    assert Rule(joins[0]).nameAs == Donor;
  }

  /** A worked example: a campaign donation with no delegate and no
      proposed project gets exactly `ownerEntity` in type mode, exactly
      `donor` in donor mode, both in the combined mode, nothing otherwise. */
  lemma CampaignDonationSlots()
    ensures
      var d := Donation("1000", "0xd0", "campaign", "C1", false, "", Some(0), None, None);
      && ItemPlan(NoDetails, d) == Success([])
      && ItemPlan(DonorDetails, d) == Success([PoDonor])
      && ItemPlan(TypeDetails, d) == Success([PoCampaign])
      && ItemPlan(TypeAndDonorDetails, d) == Success([PoDonor, PoCampaign])
      && Rule(PoCampaign).nameAs == OwnerEntity
  {
    var d := Donation("1000", "0xd0", "campaign", "C1", false, "", Some(0), None, None);
    LowerCaseUnchanged("campaign");
    OwnerSchema(d);
    OwnerOnlyPlan(d);
    assert [PoDonor] + [PoCampaign] == [PoDonor, PoCampaign];
  }

  /** A donor-owned donation, delegated or not and with or without a
      proposed project, attaches the owning user under `ownerEntity` through
      `po-donor-owner`, keyed by `donorAddress`, never through the payer
      rule; the plain and the delegated shapes get exactly one and two joins. */
  lemma DonorOwnerDispatch(d: Donation)
    requires ToLower(d.ownerType) == "donor"
    ensures ItemPlan(TypeDetails, d).Success?
      <==> (HasProposedProject(d) ==>
              d.proposedProjectType.Some? && Lookup(ProposedKey(d.proposedProjectType.value)).Some?)
    ensures ItemPlan(TypeDetails, d).Success? ==> ItemPlan(TypeDetails, d).value[0] == PoDonorOwner
    ensures !d.delegate && !HasProposedProject(d) ==> ItemPlan(TypeDetails, d) == Success([PoDonorOwner])
    ensures d.delegate && !HasProposedProject(d) ==> ItemPlan(TypeDetails, d) == Success([PoDonorOwner, PoDac])
    ensures Rule(PoDonorOwner).nameAs == OwnerEntity && Rule(PoDonorOwner).parentField == "donorAddress"
  {
    OwnerSchema(d);
    LookupKey(PoDonorOwner);
    if !HasProposedProject(d) {
      if d.delegate {
        DelegatedPlan(d);
      } else {
        OwnerOnlyPlan(d);
      }
    }
  }

  /** The `includeTypeAndDonorDetails` branch as written: the `po-donor`
      populate is started but not awaited, and the records handed on are
      those of the recipient joins alone. */
  function AwaitedPlan(m: Mode, d: Donation): Result<seq<SchemaName>, JoinError> {
    if m == TypeAndDonorDetails then JoinPlan(d) else ItemPlan(m, d)
  }

  /** As written, the combined mode waits for no `donor` attachment, while
      the intended plan (`ItemPlan`) puts the payer first. */
  lemma AwaitedPlanDropsDonor(d: Donation)
    requires JoinPlan(d).Success?
    ensures AwaitedPlan(TypeAndDonorDetails, d).Success?
    ensures PoDonor !in AwaitedPlan(TypeAndDonorDetails, d).value
    ensures ItemPlan(TypeAndDonorDetails, d).value[0] == PoDonor
  {
    JoinPlanWithoutPayer(d);
  }
}
