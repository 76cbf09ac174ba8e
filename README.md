# Mergington High School activity registry, in Dafny

The service keeps an in-memory table that maps each extracurricular activity's
name to its record. A record holds a description, an optional schedule, a
stored capacity (`max_participants`) and an ordered list of participant
emails. The table is filled once at start-up. Listing reads it. Signing up and
unregistering change it in place.

- `list_ops.dfy` (module `ListOps`) gives the two Python list operations the
  handlers use. `x in s` is membership. `s.remove(x)` deletes the first element
  equal to `x` (`RemoveFirst`, with `IndexOf` giving that first position).
- `app.dfy` (module `App`) holds the data model (`Activity`, `Table`, and
  `Outcome`, whose values are `Ok(message)`, `ActivityNotFound` and
  `ParticipantNotFound`), the seed table, and the two requests as functions of
  the table (`SignupStep`, `UnregisterStep`). It also holds the lemmas that
  relate the requests, and the class `ActivityRegistry`. That class's field
  `activities` is the table. Its `Signup` and `Unregister` methods change the
  field in place and are proved equal to the step functions.

The two HTTP 404 answers become the `ActivityNotFound` and
`ParticipantNotFound` values. The confirmation messages are kept with their
exact text (`Signed up <email> for <name>`, `Removed <email> from <name>`).
Activity names and emails are case-sensitive strings.

## Model

| member | source | states |
|---|---|---|
| ListOps.IndexOf | src/app.py:118 | the position that `remove` deletes at holds the email, and the email does not occur before it |
| ListOps.RemoveFirst | src/app.py:118 | `remove` shortens the list by one; it drops exactly the first occurrence and keeps the elements before and after it in order; the multiset loses one copy of the email |
| ListOps.RemoveFirstOfAppended | src/app.py:100 | removing an element just appended to a list that did not hold it gives back the original list |
| ListOps.RemoveFirstKeepsDuplicates | src/app.py:114-118 | after `remove`, the email is still present exactly when it occurred twice or more; every other email keeps its count |
| App.SeedNamesExactly | src/app.py:23-76 | after start-up the table holds exactly the nine seeded names, all distinct, among them "Chess Club", "Programming Class" and the separate key "chess_club" |
| App.SeedRecords | src/app.py:24-75 | `update` adds the six new activities, each with an empty list, and the three founding records are kept as created (Chess Club keeps its two participants) |
| App.NineDistinctNames | src/app.py:24-75 | the nine seeded names are pairwise distinct |
| App.SignupStep | src/app.py:90-101 | an unknown name gives ActivityNotFound and leaves the table unchanged; otherwise the email is appended to that activity's list, which grows by one with no duplicate or capacity check, and nothing else in the table changes |
| App.UnregisterStep | src/app.py:105-119 | an unknown name gives ActivityNotFound for any email; then an email not on the list gives ParticipantNotFound; in both cases the table is unchanged; success happens exactly when both checks pass; it removes the first occurrence, the list shrinks by one, and nothing else changes |
| App.SignupThenUnregister | src/app.py:97-118 | for an email not on an existing activity's list, signup then unregister both succeed and give back the original table |
| App.UnregisterRemovesOneCopy | src/app.py:114-118 | after a successful unregister, the email is gone from the list exactly when it occurred only once |
| App.ServeKeepsActivities | src/app.py:23-119 | no sequence of signups and unregistrations adds or removes an activity or changes any description, schedule or capacity; started from the seed, the names stay the nine seeded ones |
| App.ActivityRegistry.constructor | src/app.py:23-76 | the registry starts as the founding table merged with the added activities, with the nine seeded names |
| App.ActivityRegistry.GetActivities | src/app.py:84-86 | listing returns the whole table as it stands and changes nothing |
| App.ActivityRegistry.Signup | src/app.py:89-101 | the in-place signup leaves the field and answer that `SignupStep` gives for the old table; the key set is kept |
| App.ActivityRegistry.Unregister | src/app.py:104-119 | the in-place unregistration leaves the field and answer that `UnregisterStep` gives for the old table; the key set is kept |

## Left out

- Web framework plumbing is not modelled: building the FastAPI app, the route decorators, `HTTPException` and status codes, and JSON serialisation. Errors are `Outcome` values here.
- The static-files mount (src/app.py:17-20) and the `/` redirect (src/app.py:79-81) are not modelled. They are routing and file I/O with no logic.
- Aliasing is not captured. `get_activities` hands out the live dictionary, so a caller could mutate it. The model returns the table as a value.
- Concurrent requests racing on the shared table are not modelled. The source has no locking. `Serve` models requests handled one at a time.
- Capacity and duplicate limits are not enforced, because the source never checks them. No invariant about them is stated.
- Input validation of emails is not modelled. The source does none.
