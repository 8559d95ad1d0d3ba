/** backend/assign_seed_events_to_user.py: hands every event without a
    `host_id` to the first user of the users collection. */
module AssignSeedEvents {
  import opened Text
  import opened Bson
  import opened Mongo

  /** `f"{user.get('first_name')} {user.get('last_name')}"`; a missing name
      prints as "None". */
  function DisplayName(u: Doc): (r: string)
  {
    PyStr(Get(u, "first_name")) + " " + PyStr(Get(u, "last_name"))
  }

  /** The `$set` document: the user's id as text and their display name. */
  function HostFields(u: Doc): (m: map<string, Value>)
    ensures "host_id" in m && m["host_id"] != Null
  {
    map["host_id" := Str(IdString(u.id)), "host" := Str(DisplayName(u))]
  }

  /** How the script ends. */
  datatype AssignOutcome = AllHaveHost | NoUsers | Assigned(user: Doc)

  /** The events collection after `update_many({'host_id': None}, …)` with
      `user` as the new host. */
  function AssignAll(events: seq<Doc>, user: Doc): (r: seq<Doc>)
    ensures |r| == |events|
    ensures forall i :: 0 <= i < |events| && !MatchesNull(events[i], "host_id") ==> r[i] == events[i]
    ensures forall i :: 0 <= i < |events| && MatchesNull(events[i], "host_id") ==>
              r[i].id == events[i].id
              && "host_id" in r[i].fields && "host" in r[i].fields
              && r[i].fields["host_id"] == Str(IdString(user.id))
              && r[i].fields["host"] == Str(DisplayName(user))
              && forall k :: k in events[i].fields && k != "host_id" && k != "host" ==> k in r[i].fields && r[i].fields[k] == events[i].fields[k]
    ensures CountNull(r, "host_id") == 0
  {
    var r := UpdateManyNull(events, "host_id", HostFields(user));
    UpdateClearsNull(events, "host_id", HostFields(user));
    r
  }

  /** `assign_seed_events`: nothing happens when no event lacks a host or
      when there is no user; otherwise the host-less events go to the
      first user and no event lacks a host afterwards. */
  method Assign(db: Database) returns (outcome: AssignOutcome)
    modifies db`events
    ensures CountNull(old(db.events), "host_id") == 0 ==> outcome == AllHaveHost && db.events == old(db.events)
    ensures CountNull(old(db.events), "host_id") > 0 && |db.users| == 0 ==> outcome == NoUsers && db.events == old(db.events)
    ensures CountNull(old(db.events), "host_id") > 0 && |db.users| > 0 ==>
              outcome == Assigned(db.users[0]) && db.events == AssignAll(old(db.events), db.users[0])
    ensures outcome != NoUsers ==> CountNull(db.events, "host_id") == 0
  {
    var count := CountNull(db.events, "host_id");
    if count == 0 {
      return AllHaveHost;
    }
    if |db.users| == 0 {
      return NoUsers;
    }
    var firstUser := db.users[0];
    db.events := AssignAll(db.events, firstUser);
    return Assigned(firstUser);
  }
}
