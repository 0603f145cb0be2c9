# Donation hooks: aggregation and polymorphic joins

This project models the core of the donation service hooks of feathers-giveth
(`src/services/donations/donations.hooks.js`). It covers three things.

- **Aggregation (`updateType`).** When a donation is created, the hook picks the
  campaign, milestone or delegate (dac) it is credited to. It then folds the
  donation into that entity's `donationCount` and `totalDonated`. Totals are
  arbitrary-precision integers written as decimal strings. Failures of the
  fetch, the number conversion and the patch are caught, so they do not block
  the creation.
- **The `createdAt` step.** It sets `createdAt` only when the payload has no
  truthy one.
- **Populate.** The `poSchemas` table holds seven join rules.
  `joinDonationRecipient` derives an ordered join plan for each donation from
  its `ownerType`, `delegate`, `proposedProject` and `proposedProjectType`.
  `populateSchema` is the verbosity gate. It maps the request's `schema`
  parameter to no enrichment, donor only, type details, or type plus donor. It
  applies the plan to a single record or to every record of a list.

Modules:
- `Wrappers`: `Option` and `Result`.
- `Text`: ASCII `toLowerCase`.
- `Decimal`: `toBN` reading decimal strings and `BN.toString()` writing them. Includes the round trip.
- `Donations`: the donation record and the `createdAt` step.
- `Aggregation`: target selection, the fold, and the hook against an abstract map of entity stores.
- `Schemas`: the rule table.
- `Joins`: the recipient join plan.
- `Populate`: the mode gate and list mapping.

The entity stores are a pure `map` from (store, id) to totals. Which store
requests reject (`get` or `patch`) is an input, `Faults`, because the stores'
own behaviour is outside the model. The hook's "best effort" behaviour is an
`Outcome` value: `Credited`, `Skipped` or `Failed(reason)`. Stores are left
unchanged unless the outcome is `Credited`.

Points where the source is easy to misread:
- The delegate store `updateType` credits is named `dacs`.
- `updateType` is a `before.create` hook. Totals are therefore credited before the donation itself is stored.
- An `ownerType` of `dac` selects the owner schema `po-dac`. That schema attaches under `delegateEntity`, keyed by `delegateId`, not under `ownerEntity`.
- A computed schema key that is not in the table, such as an unknown owner type, hands populate no schema. The model treats this as a failed read (`UnknownSchema`).
- `proposedProject > 0` with no `proposedProjectType` makes `toLowerCase` throw. The model treats this as a failed read (`MissingProposedProjectType`).

## Model

| member | source | states |
|---|---|---|
| Text.ToLower | src/services/donations/donations.hooks.js:57 | lower-casing keeps the length, leaves no upper-case letter and changes only upper-case letters, so comparisons with the lower-case literals ignore case |
| Decimal.ToBN | src/services/donations/donations.hooks.js:79 | a string converts to a number exactly when it is all decimal digits, and the empty string converts to 0 |
| Decimal.Format | src/services/donations/donations.hooks.js:79 | `toString()` writes a canonical decimal string (digits only, no leading zero except "0") that reads back as the same number |
| Decimal.FormatValueOf | src/services/donations/donations.hooks.js:79 | every canonical decimal string is what `toString()` writes for the number it denotes, the other half of the round trip |
| Donations.StampCreatedAt | src/services/donations/donations.hooks.js:237-240 | afterwards `createdAt` is truthy; a supplied truthy `createdAt` is kept unchanged, a falsy one becomes the current time, and no other field changes |
| Aggregation.SelectTarget | src/services/donations/donations.hooks.js:57-67 | first match wins: campaign owner gives (campaigns, ownerId), else milestone owner gives (milestones, ownerId), else a truthy delegate gives (dacs, delegateId), else no target; the three cases exclude each other |
| Aggregation.OwnerWinsOverDelegate | src/services/donations/donations.hooks.js:57-67 | a campaign or milestone owner is credited even when `delegate` is truthy |
| Aggregation.SelectTargetIgnoresCase | src/services/donations/donations.hooks.js:57-61 | target selection depends on `ownerType` only through its lower-case form |
| Aggregation.Fold | src/services/donations/donations.hooks.js:74-81 | with an absent count or total read as 0: the count becomes the old count plus exactly 1, the total the old total plus the amount in arbitrary precision, written as a canonical decimal string, and no other field changes; an unreadable total or amount is an error |
| Aggregation.Aggregate | src/services/donations/donations.hooks.js:49-89 | skipped exactly when no target is selected; a rejected `get`, a missing target, an unreadable total or amount, and a rejected `patch` are each caught, in that order, and leave every store untouched; credited exactly when none of them happens, and then only the selected entity changes, by one donation and its amount |
| Aggregation.AggregateAllTotals | src/services/donations/donations.hooks.js:73-82 | for an existing target with a readable total, after any sequence of hook runs, its count has grown by the number of runs that credit it (it is selected, the amount is a number, no request on it rejects) and its total by the sum of their amounts; runs to other targets, with malformed amounts or with rejected requests, change nothing |
| Aggregation.CampaignExample | src/services/donations/donations.hooks.js:73-82 | a 1000 donation to campaign C1 holding 2 donations totalling "500" leaves it with 3 donations totalling "1500" |
| Schemas.Lookup | src/services/donations/donations.hooks.js:91-167 | a key finds a schema only if it is that schema's key; every other string finds nothing |
| Schemas.Rule | src/services/donations/donations.hooks.js:91-167 | only the two donor rules read `users`, keyed `donorAddress` to `address`, and only they skip the inner populate; `donor`, `delegateEntity` and `proposedEntity` each name exactly the rules listed |
| Schemas.LookupKey | src/services/donations/donations.hooks.js:91-167 | every schema is found under its own key, so the table has seven distinct entries |
| Schemas.DonorRulesDifferOnlyInSlot | src/services/donations/donations.hooks.js:92-111 | `po-donor` and `po-donor-owner` are the same fetch attached under different names (`donor` and `ownerEntity`) |
| Joins.JoinPlan | src/services/donations/donations.hooks.js:169-188 | the plan is the owner schema, then `po-dac` if and only if `delegate` is truthy, then the proposed schema if and only if `proposedProject > 0`, and nothing else; it fails exactly when a key is unknown or the project type is missing, and the first failing step decides the error |
| Joins.OwnerSchema | src/services/donations/donations.hooks.js:172-178 | campaign, milestone, dac and donor owners select `po-campaign`, `po-milestone`, `po-dac` and `po-donor-owner`; the payer rule `po-donor` is never the owner schema |
| Joins.ProposedSchema | src/services/donations/donations.hooks.js:185 | the proposed key resolves if and only if the project type lower-cases to campaign or milestone, to the matching proposed schema |
| Joins.CreditedTargetIsJoined | src/services/donations/donations.hooks.js:172-182 | the entity a donation is credited to is read by a join in its plan, from the same store and through the same foreign key |
| Populate.ModeOf | src/services/donations/donations.hooks.js:193-195 | only the exact strings `includeDonorDetails`, `includeTypeDetails` and `includeTypeAndDonorDetails` enable enrichment |
| Populate.ModeOfName | src/services/donations/donations.hooks.js:193-195 | each recognised string selects its own mode |
| Populate.EnrichAll | src/services/donations/donations.hooks.js:206-213 | a list maps to a list of the same length and order, item i enriched from donation i; the list fails if and only if some item fails |
| Populate.PopulateSchema | src/services/donations/donations.hooks.js:190-225 | absent items stay absent; a single record or every list record keeps its donation and gets its mode's plan; with no recognised mode nothing fails and nothing is attached |
| Joins.JoinPlanWithoutPayer | src/services/donations/donations.hooks.js:172-186 | the recipient plan never contains `po-donor` |
| Populate.AttachedSlots | src/services/donations/donations.hooks.js:193-221 | for a known owner type: `donor` is attached only in the donor modes; in the type modes `ownerEntity` is attached unless a dac owns it, `delegateEntity` if and only if delegated or dac-owned, and `proposedEntity` if and only if a project is proposed |
| Joins.PlanSlots | src/services/donations/donations.hooks.js:169-188 | for a known owner type the recipient plan never fills `donor`; it fills `ownerEntity` if and only if the owner is not a dac, `delegateEntity` if and only if the donation is delegated or dac-owned, and `proposedEntity` if and only if `proposedProject > 0` |
| Populate.CampaignDonationSlots | src/services/donations/donations.hooks.js:193-221 | a plain campaign donation gets `[]`, `[po-donor]`, `[po-campaign]` and `[po-donor, po-campaign]` in the four modes |
| Populate.DonorOwnerDispatch | src/services/donations/donations.hooks.js:174-175 | every donor-owned donation, delegated or proposing a project or neither, has `po-donor-owner` as its first join, attaching the owner as `ownerEntity` keyed by `donorAddress`; it fails only when a proposed project's type does not resolve; a plain one gets exactly `[po-donor-owner]` and a delegated one `[po-donor-owner, po-dac]` |
| Populate.AwaitedPlanDropsDonor | src/services/donations/donations.hooks.js:196-198 | as written, the combined mode waits for no `po-donor` join, while the intended plan puts it first |

## Left out

- Fetching and attaching entities is not modelled. This covers `commons.populate`, `getItems` and `replaceItems`. The model stops at the ordered list of rules applied to each record. A related entity that is missing is therefore not modelled either.
- `useInnerPopulate` asks the fetched entity's own service hooks to run. Those hooks are not part of this model, so only the flag is kept, in `Schemas.Rule`.
- `sanitizeAddress` and `setAddress` are not part of this model. They validate addresses.
- `context.app.service(name)` is replaced by a map keyed by (store, id). `console.error` is dropped.
- `Aggregation.SelectTarget`: when nothing matches, the source calls `app.service(undefined)` outside the caught promise chain. `Skipped` assumes that call returns a falsy value, so the `if (!service) return` guard applies. If the framework throws there instead, a donation with no target fails to be created, and the model does not show that.
- The read-modify-write lost-update race and the concurrency of `Promise.all` are not modelled. Aggregation is a single sequential fold.
- The commented-out `restrict` logic and the `remove: disallow` wiring are left out.
- `Decimal.ToBN` is narrower than `toBN`. It reads only plain decimal digit strings and the empty string. The library also accepts hex and `0x` forms, a leading minus and surrounding whitespace. The model treats all of these as malformed.
- `Text.ToLower` lower-cases ASCII letters only. JavaScript's `toLowerCase` also folds other Unicode letters.
- `Aggregation.Fold`: the count is a JavaScript number, and the model treats it as unbounded. Precision loss above 2^53 is not modelled. The patch goes to the selected id rather than to the fetched `entity._id`. These coincide in a store keyed by id.
- `Populate.PopulateSchema`: the source guards an undefined result (`items === undefined`) only in the type modes. The donor-only branch hands it to `commons.populate`, whose handling is not part of this model. The model returns an absent result unchanged in every mode. The service disallows `remove`, the only call the source names as producing it.
- `Populate.EnrichAll`: when several records fail, `Promise.all` reports whichever rejects first in time. The model reports the first by position.
- The donation's `ownerType` is always a string in the model. An absent `ownerType` makes `toLowerCase` throw in both hooks. In `updateType` that throw is outside the caught promise chain, so it fails the create. That case is not modelled.
- `delegate` is a boolean standing for the field's JavaScript truthiness. `proposedProject` is an integer or absent.

## Findings

| source | as written | input that shows it | evidently intended | confidence | as-written member | corrected member |
|---|---|---|---|---|---|---|
| src/services/donations/donations.hooks.js:196-198 | `commons.populate` for `po-donor` is started but its promise is neither awaited nor merged. Items are read and replaced from the recipient joins alone. | `schema = includeTypeAndDonorDetails` on any donation | the result carries the `donor` attachment followed by the recipient attachments | medium, not executed; the outcome depends on timing and on whether populate mutates records in place | Populate.AwaitedPlanDropsDonor | Populate.AttachedSlots |

The rest of the model uses the corrected plan, `Populate.ItemPlan`. It puts `po-donor` first in the combined mode.
