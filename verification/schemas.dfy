/** `poSchemas`: the closed table of join rules the populate steps use. */
module Schemas {
  import opened Wrappers
  import opened Donations

  datatype SchemaName =
    | PoDonor | PoDonorOwner | PoCampaign | PoCampaignProposed
    | PoDac | PoMilestone | PoMilestoneProposed

  /** The name (`nameAs`) under which a join attaches the fetched entity:
      `donor`, `ownerEntity`, `delegateEntity` or `proposedEntity`. */
  datatype Slot = Donor | OwnerEntity | DelegateEntity | ProposedEntity

  /** One `include` entry: fetch from `service` the entity whose `childField`
      equals the donation's `parentField`, and attach it as `nameAs`. */
  datatype JoinRule = JoinRule(
    service: Service,
    nameAs: Slot,
    parentField: string,
    childField: string,
    useInnerPopulate: bool)

  /** The table key of each schema. */
  function Key(n: SchemaName): string {
    match n
    case PoDonor => "po-donor"
    case PoDonorOwner => "po-donor-owner"
    case PoCampaign => "po-campaign"
    case PoCampaignProposed => "po-campaign-proposed"
    case PoDac => "po-dac"
    case PoMilestone => "po-milestone"
    case PoMilestoneProposed => "po-milestone-proposed"
  }

  /** `poSchemas[key]`: the schema stored under `key`, None for any other string. */
  function Lookup(key: string): (r: Option<SchemaName>)
    ensures r.Some? ==> Key(r.value) == key
    ensures r.None? ==> forall n :: Key(n) != key
  {
    if key == "po-donor" then Some(PoDonor)
    else if key == "po-donor-owner" then Some(PoDonorOwner)
    else if key == "po-campaign" then Some(PoCampaign)
    else if key == "po-campaign-proposed" then Some(PoCampaignProposed)
    else if key == "po-dac" then Some(PoDac)
    else if key == "po-milestone" then Some(PoMilestone)
    else if key == "po-milestone-proposed" then Some(PoMilestoneProposed)
    else None
  }

  /** The single `include` rule of each schema. Only the two donor rules read
      the users store, both keyed `donorAddress` -> `address`; every other
      rule asks for the fetched entity's own populate hooks to run. */
  function Rule(n: SchemaName): (r: JoinRule)
    ensures r.service == Users <==> n == PoDonor || n == PoDonorOwner
    ensures r.service == Users ==> r.parentField == "donorAddress" && r.childField == "address"
    ensures r.useInnerPopulate <==> r.service != Users
    ensures r.nameAs == Donor <==> n == PoDonor
    ensures r.nameAs == ProposedEntity <==> n == PoCampaignProposed || n == PoMilestoneProposed
    ensures r.nameAs == DelegateEntity <==> n == PoDac
  {
    match n
    case PoDonor => JoinRule(Users, Donor, "donorAddress", "address", false)
    case PoDonorOwner => JoinRule(Users, OwnerEntity, "donorAddress", "address", false)
    case PoCampaign => JoinRule(Campaigns, OwnerEntity, "ownerId", "_id", true)
    case PoCampaignProposed => JoinRule(Campaigns, ProposedEntity, "proposedProject", "projectId", true)
    case PoDac => JoinRule(Dacs, DelegateEntity, "delegateId", "_id", true)
    case PoMilestone => JoinRule(Milestones, OwnerEntity, "ownerId", "_id", true)
    case PoMilestoneProposed => JoinRule(Milestones, ProposedEntity, "proposedProject", "projectId", true)
  }

  /** Looking up a schema's own key finds that schema, so the table has
      exactly seven entries under seven distinct keys. */
  lemma LookupKey(n: SchemaName)
    ensures Lookup(Key(n)) == Some(n)
  {
  }

  /** The payer rule and the donor-as-owner rule fetch the same user but
      attach it in different slots. */
  lemma DonorRulesDifferOnlyInSlot()
    ensures Rule(PoDonor).(nameAs := OwnerEntity) == Rule(PoDonorOwner)
    ensures Rule(PoDonor).nameAs != Rule(PoDonorOwner).nameAs
  {
  }

  /** The attachment slot each applied schema fills. */
  predicate Attaches(joins: seq<SchemaName>, slot: Slot) {
    exists i :: 0 <= i < |joins| && Rule(joins[i]).nameAs == slot
  }
}
