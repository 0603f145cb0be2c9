/** `updateType`: crediting a newly created donation to the running totals of
    the campaign, milestone or delegate (dac) it is directed at. */
module Aggregation {
  import opened Wrappers
  import opened Text
  import opened Donations
  import Decimal

  /** Where a donation is credited: a store and the id of an entity in it. */
  datatype Target = Target(store: Service, id: Id)

  /** The running totals of one entity. `rest` stands for every other field
      of the entity, which the patch must leave alone. */
  datatype Entity = Entity(donationCount: Option<nat>, totalDonated: Option<string>, rest: map<string, string>)

  /** The entity stores, keyed by store and id. */
  type Db = map<Target, Entity>

  /** Why the hook gave up. `GetRejected` and `PatchRejected` stand for any
      rejection of the store's `get` or `patch` (store unavailable, a hook of
      that service refusing); `TargetNotFound` is `get` finding no entity. */
  datatype AggregationError = GetRejected | TargetNotFound | MalformedTotal | MalformedAmount | PatchRejected

  /** The store requests that reject during one run of the hook: a `get` of
      a target in `get`, a `patch` of a target in `patch`. The stores' own
      behaviour is outside the model, so it is an input. */
  datatype Faults = Faults(get: set<Target>, patch: set<Target>)

  const NoFaults := Faults({}, {})

  /** What the hook did; it never blocks the creation of the donation. */
  datatype Outcome = Credited(target: Target) | Skipped | Failed(target: Target, error: AggregationError)

  datatype AggregateResult = AggregateResult(outcome: Outcome, db: Db)

  predicate IsProjectOwner(d: Donation) {
    ToLower(d.ownerType) == "campaign" || ToLower(d.ownerType) == "milestone"
  }

  /** The `if / else if` chain choosing the store and id: a campaign owner,
      then a milestone owner, then a truthy `delegate`; otherwise no target. */
  function SelectTarget(d: Donation): (r: Option<Target>)
    ensures r.Some? ==> r.value.store != Users
    ensures (r.Some? && r.value.store == Campaigns) <==> ToLower(d.ownerType) == "campaign"
    ensures (r.Some? && r.value.store == Milestones) <==> ToLower(d.ownerType) == "milestone"
    ensures (r.Some? && r.value.store == Dacs) <==> d.delegate && !IsProjectOwner(d)
    ensures r.Some? && r.value.store != Dacs ==> r.value.id == d.ownerId
    ensures r.Some? && r.value.store == Dacs ==> r.value.id == d.delegateId
  {
    if ToLower(d.ownerType) == "campaign" then Some(Target(Campaigns, d.ownerId))
    else if ToLower(d.ownerType) == "milestone" then Some(Target(Milestones, d.ownerId))
    else if d.delegate then Some(Target(Dacs, d.delegateId))
    else None
  }

  /** `entity.donationCount || 0`. */
  function CountOf(e: Entity): nat {
    match e.donationCount
    case None => 0
    case Some(c) => c
  }

  /** `toBN(entity.totalDonated || 0)`: None when the stored total is not a number. */
  function TotalOf(e: Entity): Option<nat> {
    match e.totalDonated
    case None => Some(0)
    case Some(s) => Decimal.ToBN(s)
  }

  /** The read-modify-write on one entity: one more donation, `amount` more
      in total, written back as a decimal string; nothing else changes. */
  function Fold(e: Entity, amount: string): (r: Result<Entity, AggregationError>)
    ensures r.Success? <==> TotalOf(e).Some? && Decimal.ToBN(amount).Some?
    ensures TotalOf(e).None? ==> r == Failure(MalformedTotal)
    ensures TotalOf(e).Some? && Decimal.ToBN(amount).None? ==> r == Failure(MalformedAmount)
    ensures r.Success? ==> CountOf(r.value) == CountOf(e) + 1
    ensures r.Success? ==> TotalOf(r.value) == Some(TotalOf(e).value + Decimal.ToBN(amount).value)
    ensures r.Success? ==> r.value.totalDonated.Some? && Decimal.Canonical(r.value.totalDonated.value)
    ensures r.Success? ==> r.value.rest == e.rest
  {
    match TotalOf(e)
    case None => Failure(MalformedTotal)
    case Some(total) =>
      match Decimal.ToBN(amount)
      case None => Failure(MalformedAmount)
      case Some(a) => Success(e.(donationCount := Some(CountOf(e) + 1), totalDonated := Some(Decimal.Format(total + a))))
  }

  /** The whole hook against the stores: select the target, fetch it, fold,
      patch. A rejected request, a missing target or an unreadable number is
      caught and reported, and then the stores are left exactly as they were. */
  function Aggregate(db: Db, d: Donation, f: Faults): (r: AggregateResult)
    ensures r.outcome.Skipped? <==> SelectTarget(d).None?
    ensures !r.outcome.Skipped? ==> SelectTarget(d) == Some(r.outcome.target)
    ensures (r.outcome.Failed? && r.outcome.error == GetRejected)
        <==> SelectTarget(d).Some? && SelectTarget(d).value in f.get
    ensures (r.outcome.Failed? && r.outcome.error == TargetNotFound)
        <==> SelectTarget(d).Some? && SelectTarget(d).value !in f.get && SelectTarget(d).value !in db
    ensures (r.outcome.Failed? && r.outcome.error == MalformedTotal)
        <==> (SelectTarget(d).Some? && SelectTarget(d).value !in f.get && SelectTarget(d).value in db
              && TotalOf(db[SelectTarget(d).value]).None?)
    ensures (r.outcome.Failed? && r.outcome.error == MalformedAmount)
        <==> (SelectTarget(d).Some? && SelectTarget(d).value !in f.get && SelectTarget(d).value in db
              && TotalOf(db[SelectTarget(d).value]).Some? && Decimal.ToBN(d.amount).None?)
    ensures (r.outcome.Failed? && r.outcome.error == PatchRejected)
        <==> (SelectTarget(d).Some? && SelectTarget(d).value !in f.get && SelectTarget(d).value in db
              && Fold(db[SelectTarget(d).value], d.amount).Success? && SelectTarget(d).value in f.patch)
    ensures r.outcome.Credited?
        <==> (SelectTarget(d).Some? && SelectTarget(d).value !in f.get && SelectTarget(d).value in db
              && TotalOf(db[SelectTarget(d).value]).Some? && Decimal.ToBN(d.amount).Some?
              && SelectTarget(d).value !in f.patch)
    ensures !r.outcome.Credited? ==> r.db == db
    ensures r.db.Keys == db.Keys
    ensures r.outcome.Credited? ==> r.db == db[r.outcome.target := r.db[r.outcome.target]]
    ensures r.outcome.Credited? ==>
      var t := r.outcome.target;
      && CountOf(r.db[t]) == CountOf(db[t]) + 1
      && TotalOf(r.db[t]) == Some(TotalOf(db[t]).value + Decimal.ToBN(d.amount).value)
      && r.db[t].rest == db[t].rest
  {
    match SelectTarget(d)
    case None => AggregateResult(Skipped, db)
    case Some(t) =>
      if t in f.get then AggregateResult(Failed(t, GetRejected), db)
      else if t !in db then AggregateResult(Failed(t, TargetNotFound), db)
      else
        match Fold(db[t], d.amount)
        case Failure(e) => AggregateResult(Failed(t, e), db)
        case Success(e') =>
          if t in f.patch then AggregateResult(Failed(t, PatchRejected), db)
          else AggregateResult(Credited(t), db[t := e'])
  }

  /** One run of the hook: the donation being created and the requests that
      reject while it runs. */
  datatype Call = Call(donation: Donation, faults: Faults)

  /** The stores after the hook ran once per call, in order. */
  function AggregateAll(db: Db, cs: seq<Call>): Db {
    if |cs| == 0 then db else AggregateAll(Aggregate(db, cs[0].donation, cs[0].faults).db, cs[1..])
  }

  /** Whether call `c` credits `t`, given that `t` exists with a readable
      total: `t` is selected, the amount is a number and neither request
      on `t` rejects. */
  predicate Credits(c: Call, t: Target) {
    && SelectTarget(c.donation) == Some(t)
    && Decimal.ToBN(c.donation.amount).Some?
    && t !in c.faults.get && t !in c.faults.patch
  }

  /** How many of `cs` credit `t`. */
  function CountFor(cs: seq<Call>, t: Target): nat {
    if |cs| == 0 then 0
    else (if Credits(cs[0], t) then 1 else 0) + CountFor(cs[1..], t)
  }

  /** The amount of call `c` if it credits `t`, and 0 otherwise. */
  function AmountFor(c: Call, t: Target): nat {
    match Decimal.ToBN(c.donation.amount)
    case Some(a) => if Credits(c, t) then a else 0
    case None => 0
  }

  /** The sum of the amounts of those of `cs` that credit `t`. */
  function SumFor(cs: seq<Call>, t: Target): nat {
    if |cs| == 0 then 0 else AmountFor(cs[0], t) + SumFor(cs[1..], t)
  }

  /** The totals invariant for sequential donations: once the target exists
      with a readable total, its count grows by exactly the number of calls
      that credit it and its total by exactly the sum of their amounts,
      whatever other calls, to other targets, with malformed amounts or with
      rejected requests, are interleaved. */
  lemma {:induction false} AggregateAllTotals(db: Db, cs: seq<Call>, t: Target)
    requires t in db && TotalOf(db[t]).Some?
    ensures AggregateAll(db, cs).Keys == db.Keys
    ensures CountOf(AggregateAll(db, cs)[t]) == CountOf(db[t]) + CountFor(cs, t)
    ensures TotalOf(AggregateAll(db, cs)[t]) == Some(TotalOf(db[t]).value + SumFor(cs, t))
  {
    if |cs| > 0 {
      AggregateStep(db, cs[0], t);
      AggregateAllTotals(Aggregate(db, cs[0].donation, cs[0].faults).db, cs[1..], t);
    }
  }

  /** One step of `AggregateAllTotals`: what a single call does to `t`. */
  lemma AggregateStep(db: Db, c: Call, t: Target)
    requires t in db && TotalOf(db[t]).Some?
    ensures Aggregate(db, c.donation, c.faults).db.Keys == db.Keys
    ensures TotalOf(Aggregate(db, c.donation, c.faults).db[t]).Some?
    ensures CountOf(Aggregate(db, c.donation, c.faults).db[t]) == CountOf(db[t]) + (if Credits(c, t) then 1 else 0)
    ensures TotalOf(Aggregate(db, c.donation, c.faults).db[t]).value == TotalOf(db[t]).value + AmountFor(c, t)
  {
    var r := Aggregate(db, c.donation, c.faults);
    if Credits(c, t) {
      assert r.outcome.Credited?;
    } else {
      assert !r.outcome.Credited? || r.outcome.target != t;
    }
  }

  /** Priority of the chain: a campaign or milestone owner wins over a truthy `delegate`. */
  lemma OwnerWinsOverDelegate(d: Donation)
    requires IsProjectOwner(d) && d.delegate
    ensures SelectTarget(d).Some? && SelectTarget(d).value.store != Dacs
    ensures SelectTarget(d).value.id == d.ownerId
  {
  }

  /** The owner type is compared case-insensitively. */
  lemma SelectTargetIgnoresCase(d: Donation)
    ensures SelectTarget(d) == SelectTarget(d.(ownerType := ToLower(d.ownerType)))
  {
  }

  /** A worked example: a 1000 donation to campaign C1 holding 2 donations
      totalling 500 leaves C1 with 3 donations totalling "1500". */
  lemma CampaignExample()
    ensures
      var c1 := Target(Campaigns, "C1");
      var db := map[c1 := Entity(Some(2), Some("500"), map[])];
      var d := Donation("1000", "0xd0", "campaign", "C1", false, "", Some(0), None, None);
      var r := Aggregate(db, d, NoFaults);
      r.outcome == Credited(c1) && r.db[c1] == Entity(Some(3), Some("1500"), map[])
  {
    var d := Donation("1000", "0xd0", "campaign", "C1", false, "", Some(0), None, None);
    LowerCaseUnchanged("campaign");
    assert SelectTarget(d) == Some(Target(Campaigns, "C1"));
    CampaignExampleFold();
  }

  /** The arithmetic of that example: 2 donations totalling "500"
      plus one of "1000" make 3 totalling "1500". */
  lemma CampaignExampleFold()
    ensures Fold(Entity(Some(2), Some("500"), map[]), "1000") == Success(Entity(Some(3), Some("1500"), map[]))
  {
    assert Decimal.Format(500) == "500";
    assert Decimal.Format(1000) == "1000";
    assert Decimal.Format(1500) == "1500";
  }
}
