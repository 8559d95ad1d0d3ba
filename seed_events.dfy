/** backend/seed_events.py: makes the first user the organizer of every
    sample event, RSVPs them to it, and inserts the samples in one batch.
    The sample events themselves are fixture data and arrive as a
    parameter. */
module SeedEvents {
  import opened Bson
  import opened Mongo

  /** One sample event after the loop body: `organizer_id` is the user's id
      and `rsvp_attendees` is exactly that id; nothing else changes. */
  function WithOrganizer(sample: map<string, Value>, organizer: ObjectId): (r: map<string, Value>)
    ensures r.Keys == sample.Keys + {"organizer_id", "rsvp_attendees"}
    ensures r["organizer_id"] == Oid(organizer)
    ensures r["rsvp_attendees"] == OidList([organizer])
    ensures forall k :: k in sample && k != "organizer_id" && k != "rsvp_attendees" ==> r[k] == sample[k]
  {
    sample["organizer_id" := Oid(organizer)]["rsvp_attendees" := OidList([organizer])]
  }

  /** The organizer is among the attendees of every prepared sample. */
  lemma OrganizerAttends(sample: map<string, Value>, organizer: ObjectId)
    ensures var r := WithOrganizer(sample, organizer);
            r["organizer_id"].Oid? && r["rsvp_attendees"].OidList?
            && r["organizer_id"].id in r["rsvp_attendees"].ids
  {
  }

  /** The module-level script. `newIds` are the ids the server assigns to
      the inserted documents. With no user it stops before the loop and
      before any insert (`exit(1)`); otherwise every sample is rewritten in
      place and all of them are appended to the events collection. */
  method Seed(db: Database, samples: array<map<string, Value>>, newIds: seq<ObjectId>) returns (inserted: bool)
    requires |newIds| == samples.Length
    modifies db`events, samples
    ensures inserted <==> |db.users| > 0
    ensures !inserted ==> db.events == old(db.events) && samples[..] == old(samples[..])
    ensures inserted ==>
              (forall i :: 0 <= i < samples.Length ==> samples[i] == WithOrganizer(old(samples[i]), db.users[0].id))
              && db.events == InsertMany(old(db.events), newIds, samples[..])
  {
    if |db.users| == 0 {
      return false;
    }
    var firstUser := db.users[0];
    for i := 0 to samples.Length
      invariant forall k :: 0 <= k < i ==> samples[k] == WithOrganizer(old(samples[k]), firstUser.id)
      invariant forall k :: i <= k < samples.Length ==> samples[k] == old(samples[k])
      invariant db.events == old(db.events)
    {
      samples[i] := samples[i]["organizer_id" := Oid(firstUser.id)];
      samples[i] := samples[i]["rsvp_attendees" := OidList([firstUser.id])];
    }
    db.events := InsertMany(db.events, newIds, samples[..]);
    return true;
  }
}
