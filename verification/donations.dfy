/** The donation record as the hooks see it, and the `createdAt` creation step. */
module Donations {
  import opened Wrappers

  type Id = string

  /** The entity stores the hooks address by name. */
  datatype Service = Users | Campaigns | Milestones | Dacs

  /** A `createdAt` value: a string supplied by the client, or the `Date` the hook creates. */
  datatype Timestamp = Supplied(text: string) | Date(millis: int)

  /** The fields of a donation the core reads. `delegate` is the field's
      JavaScript truthiness; an absent `proposedProject` or `proposedProjectType`
      is `None`. */
  datatype Donation = Donation(
    amount: string,
    donorAddress: string,
    ownerType: string,
    ownerId: Id,
    delegate: bool,
    delegateId: Id,
    proposedProject: Option<int>,
    proposedProjectType: Option<string>,
    createdAt: Option<Timestamp>)

  /** `item.proposedProject > 0`; an absent value compares false. */
  predicate HasProposedProject(d: Donation) {
    d.proposedProject.Some? && d.proposedProject.value > 0
  }

  /** JavaScript truthiness of a `createdAt` field: absent and the empty string
      are falsy, a `Date` object is always truthy. */
  predicate IsSet(t: Option<Timestamp>) {
    match t
    case None => false
    case Some(Supplied(s)) => s != ""
    case Some(Date(_)) => true
  }

  /** The last `before.create` step: a falsy `createdAt` is replaced by the
      current time, a truthy one is kept. */
  function StampCreatedAt(d: Donation, now: int): (r: Donation)
    ensures IsSet(r.createdAt)
    ensures IsSet(d.createdAt) ==> r == d
    ensures !IsSet(d.createdAt) ==> r.createdAt == Some(Date(now))
    ensures r.(createdAt := d.createdAt) == d
  {
    if IsSet(d.createdAt) then d else d.(createdAt := Some(Date(now)))
  }

  /** Stamping is idempotent: a second pass, at any time, changes nothing. */
  lemma StampCreatedAtIdempotent(d: Donation, now: int, later: int)
    ensures StampCreatedAt(StampCreatedAt(d, now), later) == StampCreatedAt(d, now)
  {
  }
}
