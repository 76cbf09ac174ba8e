/**
 * The Mergington High School activity registry: an in-memory table from
 * activity name to activity record, seeded at start-up, read by listing and
 * changed in place by signing up and unregistering students (by email).
 */
module App {
  import opened ListOps

  datatype Option<T> = None | Some(value: T)

  /** One activity record. Capacity is stored but never enforced. */
  datatype Activity = Activity(
    description: string,
    schedule: Option<string>,
    maxParticipants: int,
    participants: seq<string>)

  /** The registry: activity name (case-sensitive) to its record. */
  type Table = map<string, Activity>

  /** What a request answers; the two errors are the source's two 404 details. */
  datatype Outcome = Ok(message: string) | ActivityNotFound | ParticipantNotFound

  /** The table after a request, and the request's answer. */
  datatype Step = Step(table: Table, outcome: Outcome)

  // ---------------------------------------------------------------------------
  // Seed data
  // ---------------------------------------------------------------------------

  /** The three activities the table is created with. */
  function FoundingActivities(): Table
  {
    map[
      "Chess Club" := Activity(
        "Learn strategies and compete in chess tournaments",
        Some("Fridays, 3:30 PM - 5:00 PM"), 12,
        ["michael@mergington.edu", "daniel@mergington.edu"]),
      "Programming Class" := Activity(
        "Learn programming fundamentals and build software projects",
        Some("Tuesdays and Thursdays, 3:30 PM - 4:30 PM"), 20,
        ["emma@mergington.edu", "sophia@mergington.edu"]),
      "Gym Class" := Activity(
        "Physical education and sports activities",
        Some("Mondays, Wednesdays, Fridays, 2:00 PM - 3:00 PM"), 30,
        ["john@mergington.edu", "olivia@mergington.edu"])
    ]
  }

  /** The six activities merged in right after creation; they have no schedule. */
  function AddedActivities(): Table
  {
    map[
      "basketball" := Activity(
        "Partida de basquete 5x5 para estudantes de todos os níveis.", None, 10, []),
      "tennis" := Activity(
        "Aulas e treinos de tênis — raquetes fornecidas quando necessário.", None, 8, []),
      "painting" := Activity(
        "Oficina de pintura com aquarela e acrílico, materiais inclusos.", None, 12, []),
      "sculpture" := Activity(
        "Atelier de escultura em argila para iniciantes e intermediários.", None, 10, []),
      "chess_club" := Activity(
        "Clube de xadrez: aulas, partidas e pequenos torneios semanais.", None, 20, []),
      "robotics_workshop" := Activity(
        "Workshop de robótica e lógica para desenvolvimento de projetos práticos.", None, 15, [])
    ]
  }

  /** The nine activity names the registry holds from start-up on. */
  function SeedNames(): set<string>
  {
    {"Chess Club", "Programming Class", "Gym Class",
     "basketball", "tennis", "painting", "sculpture", "chess_club", "robotics_workshop"}
  }

  /** The table after start-up: the founding three updated with the added six. */
  function Seed(): Table
  {
    FoundingActivities() + AddedActivities()
  }

  /**
   * Start-up yields exactly the nine names, all distinct: "Chess Club" and
   * "chess_club" are two activities.
   */
  lemma SeedNamesExactly()
    ensures Seed().Keys == SeedNames()
    ensures |Seed()| == 9
    ensures "Chess Club" in Seed() && "Programming Class" in Seed() && "chess_club" in Seed()
  {
    NineDistinctNames();
    assert Seed().Keys == SeedNames();
  }

  /**
   * The founding activities keep their records, participants included, and
   * the added ones start with nobody signed up.
   */
  lemma SeedRecords()
    ensures Seed()["Chess Club"] != Seed()["chess_club"]
    ensures Seed()["Chess Club"].participants == ["michael@mergington.edu", "daniel@mergington.edu"]
    ensures forall name :: name in FoundingActivities() ==> Seed()[name] == FoundingActivities()[name]
    ensures forall name :: name in AddedActivities() ==> Seed()[name].participants == []
  {
  }

  /** The nine seeded names are pairwise distinct. */
  lemma NineDistinctNames()
    ensures |SeedNames()| == 9
  {
  }

  // ---------------------------------------------------------------------------
  // The two requests that change the table, as functions of the table
  // ---------------------------------------------------------------------------

  /**
   * `after` differs from `before` at most in the participant list of `name`:
   * same names, every other record identical, and the description, schedule
   * and capacity of `name` untouched.
   */
  predicate OnlyParticipantsOf(before: Table, after: Table, name: string)
  {
    && before.Keys == after.Keys
    && (forall k :: k in before && k != name ==> after[k] == before[k])
    && (name in before ==> after[name] == before[name].(participants := after[name].participants))
  }

  /**
   * Signing `email` up for `name`: an unknown name is refused and nothing
   * changes; otherwise the email goes at the end of the list, whether or not it
   * is already there and whatever the capacity.
   */
  function SignupStep(table: Table, name: string, email: string): (s: Step)
    ensures name !in table ==> s == Step(table, ActivityNotFound)
    ensures name in table ==>
      && s.outcome == Ok("Signed up " + email + " for " + name)
      && OnlyParticipantsOf(table, s.table, name)
      && s.table[name].participants == table[name].participants + [email]
      && |s.table[name].participants| == |table[name].participants| + 1
  {
    if name !in table then Step(table, ActivityNotFound)
    else
      var activity := table[name];
      Step(table[name := activity.(participants := activity.participants + [email])],
           Ok("Signed up " + email + " for " + name))
  }

  /**
   * Unregistering `email` from `name`: an unknown name is refused first, with
   * any email; then an email not on the list is refused; in both cases
   * nothing changes. Otherwise the first occurrence of the email is removed.
   */
  function UnregisterStep(table: Table, name: string, email: string): (s: Step)
    ensures name !in table ==> s == Step(table, ActivityNotFound)
    ensures name in table && email !in table[name].participants ==> s == Step(table, ParticipantNotFound)
    ensures s.outcome.Ok? <==> name in table && email in table[name].participants
    ensures s.outcome.Ok? ==>
      && s.outcome == Ok("Removed " + email + " from " + name)
      && OnlyParticipantsOf(table, s.table, name)
      && s.table[name].participants == RemoveFirst(table[name].participants, email)
      && |s.table[name].participants| == |table[name].participants| - 1
  {
    if name !in table then Step(table, ActivityNotFound)
    else
      var activity := table[name];
      if email !in activity.participants then Step(table, ParticipantNotFound)
      else
        Step(table[name := activity.(participants := RemoveFirst(activity.participants, email))],
             Ok("Removed " + email + " from " + name))
  }

  // ---------------------------------------------------------------------------
  // Properties relating the requests
  // ---------------------------------------------------------------------------

  /**
   * Round trip: signing up an email that is not on the list and then
   * unregistering it succeeds twice and gives back the original table.
   */
  lemma {:induction false} SignupThenUnregister(table: Table, name: string, email: string)
    requires name in table && email !in table[name].participants
    ensures SignupStep(table, name, email).outcome.Ok?
    ensures UnregisterStep(SignupStep(table, name, email).table, name, email).outcome.Ok?
    ensures UnregisterStep(SignupStep(table, name, email).table, name, email).table == table
  {
    var before := table[name];
    var mid := SignupStep(table, name, email).table;
    RemoveFirstOfAppended(before.participants, email);
    var after := UnregisterStep(mid, name, email).table;
    assert after[name] == before;
    assert after == table[name := before];
  }

  /**
   * After unregistering an email that was on the list once, it is no longer on
   * the list; if it was there more than once, the later copies remain.
   */
  lemma UnregisterRemovesOneCopy(table: Table, name: string, email: string)
    requires name in table && email in table[name].participants
    ensures var after := UnregisterStep(table, name, email).table;
      email in after[name].participants <==> multiset(table[name].participants)[email] >= 2
  {
  }

  /** A request the registry serves: a signup or an unregistration. */
  datatype Request = SignupRequest(name: string, email: string)
                   | UnregisterRequest(name: string, email: string)

  /** The table after serving `requests` one after another. */
  function Serve(table: Table, requests: seq<Request>): Table
    decreases |requests|
  {
    if requests == [] then table
    else
      var next := match requests[0]
        case SignupRequest(n, e) => SignupStep(table, n, e).table
        case UnregisterRequest(n, e) => UnregisterStep(table, n, e).table;
      Serve(next, requests[1..])
  }

  /**
   * The registry never gains or loses an activity: after any sequence of
   * requests from start-up, the names are exactly the nine seeded ones, and
   * every description, schedule and capacity is the seeded one.
   */
  lemma {:induction false} ServeKeepsActivities(table: Table, requests: seq<Request>)
    ensures Serve(table, requests).Keys == table.Keys
    ensures forall name :: name in table ==>
      Serve(table, requests)[name].(participants := table[name].participants) == table[name]
    ensures table == Seed() ==> Serve(table, requests).Keys == SeedNames()
    decreases |requests|
  {
    if table == Seed() {
      SeedNamesExactly();
    }
    if requests != [] {
      var next := match requests[0]
        case SignupRequest(n, e) => SignupStep(table, n, e).table
        case UnregisterRequest(n, e) => UnregisterStep(table, n, e).table;
      assert OnlyParticipantsOf(table, next, requests[0].name);
      ServeKeepsActivities(next, requests[1..]);
      assert Serve(table, requests) == Serve(next, requests[1..]);
    }
  }

  // ---------------------------------------------------------------------------
  // The registry object
  // ---------------------------------------------------------------------------

  /** The process-wide registry, updated in place by the request handlers. */
  class ActivityRegistry {
    var activities: Table

    /** Builds the founding table, then merges the added activities into it. */
    constructor ()
      ensures activities == Seed()
      ensures activities.Keys == SeedNames()
    {
      activities := FoundingActivities();
      activities := activities + AddedActivities();
      SeedNamesExactly();
    }

    /** Listing: the whole table as it stands; nothing is changed. */
    method GetActivities() returns (r: Table)
      ensures r == activities
    {
      r := activities;
    }

    /** Signs `email` up for `name`, appending it to that activity's list. */
    method Signup(name: string, email: string) returns (outcome: Outcome)
      modifies this
      ensures Step(activities, outcome) == SignupStep(old(activities), name, email)
      ensures activities.Keys == old(activities).Keys
    {
      if name !in activities {
        return ActivityNotFound;
      }
      var activity := activities[name];
      activities := activities[name := activity.(participants := activity.participants + [email])];
      outcome := Ok("Signed up " + email + " for " + name);
    }

    /** Removes the first occurrence of `email` from the list of `name`. */
    method Unregister(name: string, email: string) returns (outcome: Outcome)
      modifies this
      ensures Step(activities, outcome) == UnregisterStep(old(activities), name, email)
      ensures activities.Keys == old(activities).Keys
    {
      if name !in activities {
        return ActivityNotFound;
      }
      var activity := activities[name];
      if email !in activity.participants {
        return ParticipantNotFound;
      }
      activities := activities[name := activity.(participants := RemoveFirst(activity.participants, email))];
      outcome := Ok("Removed " + email + " from " + name);
    }
  }
}
