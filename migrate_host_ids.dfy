/** backend/migrate_add_host_ids.py: gives every event without a `host_id`
    the id of the user whose first and last name match the event's `host`
    text, and counts what happened to each event. */
module MigrateHostIds {
  import opened Wrappers
  import opened Text
  import opened Bson
  import opened Mongo

  /** What the loop does with one event. */
  datatype Outcome =
    | Updated(userId: ObjectId)
    | Skipped
    | NoHost        // `host` missing or falsy
    | NotText       // `host` is truthy but not a string: `strip()` raises
    | Unparsable    // no space left in the stripped name
    | NoUser        // no user with that first and last name

  predicate IsError(o: Outcome)
  {
    o.NoHost? || o.NotText? || o.Unparsable? || o.NoUser?
  }

  /** `host_name.strip().split(' ', 1)` when it has two parts: the first name
      is everything before the first space, the last name everything after
      it (spaces included). */
  function ParseHostName(host: string): (r: Option<(string, string)>)
    ensures r.Some? <==> ' ' in PyStrip(host)
    ensures r.Some? ==> r.value.0 + " " + r.value.1 == PyStrip(host) && ' ' !in r.value.0
  {
    var parts := SplitOnce(PyStrip(host), ' ');
    if |parts| == 2 then Some((parts[0], parts[1])) else None
  }

  predicate NamedAs(u: Doc, first: string, last: string)
  {
    Get(u, "first_name") == Str(first) && Get(u, "last_name") == Str(last)
  }

  /** `find_one({'first_name': first, 'last_name': last})`: the first user
      in collection order with both names. */
  function FindUserByName(users: seq<Doc>, first: string, last: string): (r: Option<Doc>)
    ensures r.None? <==> forall i :: 0 <= i < |users| ==> !NamedAs(users[i], first, last)
    ensures r.Some? ==> exists i :: 0 <= i < |users| && users[i] == r.value
                                   && NamedAs(r.value, first, last)
                                   && forall j :: 0 <= j < i ==> !NamedAs(users[j], first, last)
  {
    if |users| == 0 then None
    else if NamedAs(users[0], first, last) then Some(users[0])
    else
      var r := FindUserByName(users[1..], first, last);
      assert forall i :: 1 <= i < |users| ==> users[i] == users[1..][i - 1];
      if r.Some? then
        ghost var i :| 0 <= i < |users[1..]| && users[1..][i] == r.value
                       && forall j :: 0 <= j < i ==> !NamedAs(users[1..][j], first, last);
        assert users[i + 1] == r.value;
        r
      else r
  }

  /** The branch the loop body takes for `event`. */
  function Classify(event: Doc, users: seq<Doc>): Outcome
  {
    var host := Get(event, "host");
    if PyTruthy(Get(event, "host_id")) then Skipped
    else if !PyTruthy(host) then NoHost
    else if !host.Str? then NotText
    else
      match ParseHostName(host.s)
      case None => Unparsable
      case Some((first, last)) =>
        match FindUserByName(users, first, last)
        case None => NoUser
        case Some(u) => Updated(u.id)
  }

  /** Each branch of the loop body, by the event's fields: skipped exactly
      when `host_id` is truthy; otherwise a host-less error when `host` is
      falsy, a failed `strip()` when it is not text, a parse error when the
      stripped name has no space, a missing-user error when no user carries
      both names, and an update, with the first such user's id, when one
      does. */
  lemma ClassifyCases(event: Doc, users: seq<Doc>)
    ensures var o := Classify(event, users);
            var host := Get(event, "host");
            var pending := !PyTruthy(Get(event, "host_id")) && PyTruthy(host);
            && (o == Skipped <==> PyTruthy(Get(event, "host_id")))
            && (o == NoHost <==> !PyTruthy(Get(event, "host_id")) && !PyTruthy(host))
            && (o == NotText <==> pending && !host.Str?)
            && (o == Unparsable <==> pending && host.Str? && ParseHostName(host.s).None?)
            && (o == NoUser <==>
                  pending && host.Str? && ParseHostName(host.s).Some?
                  && FindUserByName(users, ParseHostName(host.s).value.0, ParseHostName(host.s).value.1).None?)
            && (o.Updated? <==>
                  pending && host.Str? && ParseHostName(host.s).Some?
                  && FindUserByName(users, ParseHostName(host.s).value.0, ParseHostName(host.s).value.1).Some?)
            && (o.Updated? ==>
                  o.userId == FindUserByName(users, ParseHostName(host.s).value.0, ParseHostName(host.s).value.1).value.id)
  {
  }

  /** The event after its iteration: the `$set` of the new `host_id` for an
      update, the event untouched otherwise. */
  function MigrateEvent(event: Doc, users: seq<Doc>): Doc
  {
    var o := Classify(event, users);
    if o.Updated? then SetFields(event, map["host_id" := Str(IdString(o.userId))]) else event
  }

  /** Only an update touches an event, and then only its `host_id`, which
      becomes the user's id as text. */
  lemma MigrateEventEffect(event: Doc, users: seq<Doc>)
    ensures var o := Classify(event, users);
            var r := MigrateEvent(event, users);
            && (!o.Updated? ==> r == event)
            && (o.Updated? ==>
                  && r.id == event.id
                  && r.fields.Keys == event.fields.Keys + {"host_id"}
                  && Get(r, "host_id") == Str(IdString(o.userId))
                  && forall k :: k in event.fields && k != "host_id" ==> r.fields[k] == event.fields[k])
  {
  }

  /** Running the migration again changes nothing: an updated event now has
      a truthy `host_id` and is skipped, every other event is as before. */
  lemma MigrateEventIdempotent(event: Doc, users: seq<Doc>)
    ensures MigrateEvent(MigrateEvent(event, users), users) == MigrateEvent(event, users)
  {
    var r := MigrateEvent(event, users);
    if Classify(event, users).Updated? {
      MigrateEventEffect(event, users);
      ClassifyCases(r, users);
      assert |IdString(Classify(event, users).userId)| == 24;
    }
  }

  /** The tallies the script prints: events updated, skipped and in error. */
  function CountUpdated(events: seq<Doc>, users: seq<Doc>): (n: nat)
    ensures n <= |events|
  {
    if |events| == 0 then 0
    else CountUpdated(events[..|events| - 1], users) + (if Classify(events[|events| - 1], users).Updated? then 1 else 0)
  }

  function CountSkipped(events: seq<Doc>, users: seq<Doc>): (n: nat)
    ensures n <= |events|
  {
    if |events| == 0 then 0
    else CountSkipped(events[..|events| - 1], users) + (if Classify(events[|events| - 1], users) == Skipped then 1 else 0)
  }

  function CountErrors(events: seq<Doc>, users: seq<Doc>): (n: nat)
    ensures n <= |events|
  {
    if |events| == 0 then 0
    else CountErrors(events[..|events| - 1], users) + (if IsError(Classify(events[|events| - 1], users)) then 1 else 0)
  }

  /** Every outcome is exactly one of updated, skipped and error, so the
      three tallies add up to the number of events. */
  lemma {:induction false} TalliesPartition(events: seq<Doc>, users: seq<Doc>)
    ensures CountUpdated(events, users) + CountSkipped(events, users) + CountErrors(events, users) == |events|
  {
    if |events| > 0 {
      TalliesPartition(events[..|events| - 1], users);
    }
  }

  /** The events collection after the whole loop. */
  function MigrateAll(events: seq<Doc>, users: seq<Doc>): (r: seq<Doc>)
    ensures |r| == |events|
    ensures forall i :: 0 <= i < |events| ==> r[i] == MigrateEvent(events[i], users)
  {
    seq(|events|, i requires 0 <= i < |events| => MigrateEvent(events[i], users))
  }

  /** One more event added to the tallies. */
  lemma CountsStep(events: seq<Doc>, users: seq<Doc>, i: nat)
    requires i < |events|
    ensures var o := Classify(events[i], users);
            CountUpdated(events[..i + 1], users) == CountUpdated(events[..i], users) + (if o.Updated? then 1 else 0)
            && CountSkipped(events[..i + 1], users) == CountSkipped(events[..i], users) + (if o == Skipped then 1 else 0)
            && CountErrors(events[..i + 1], users) == CountErrors(events[..i], users) + (if IsError(o) then 1 else 0)
  {
    assert events[..i + 1][..i] == events[..i];
  }

  /** `migrate_host_ids`: one pass over the events in collection order.
      `_id` is unique within a collection, so the `update_one` keyed by the
      event's `_id` rewrites exactly the event the loop is looking at. The
      users collection is only read. */
  method MigrateHostIdsLoop(db: Database) returns (updated: nat, skipped: nat, errors: nat)
    modifies db`events
    ensures db.events == MigrateAll(old(db.events), db.users)
    ensures updated == CountUpdated(old(db.events), db.users)
    ensures skipped == CountSkipped(old(db.events), db.users)
    ensures errors == CountErrors(old(db.events), db.users)
    ensures updated + skipped + errors == |old(db.events)|
  {
    ghost var events := db.events;
    var users := db.users;
    updated, skipped, errors := 0, 0, 0;
    var current := db.events;
    var i := 0;
    while i < |current|
      invariant db.events == current
      invariant 0 <= i <= |current| == |events|
      invariant forall k :: 0 <= k < i ==> current[k] == MigrateEvent(events[k], users)
      invariant forall k :: i <= k < |events| ==> current[k] == events[k]
      invariant updated == CountUpdated(events[..i], users)
      invariant skipped == CountSkipped(events[..i], users)
      invariant errors == CountErrors(events[..i], users)
    {
      var event := current[i];
      var outcome := Classify(event, users);
      CountsStep(events, users, i);
      if outcome.Updated? {
        current := current[i := SetFields(event, map["host_id" := Str(IdString(outcome.userId))])];
        db.events := current;
        updated := updated + 1;
      } else if outcome == Skipped {
        skipped := skipped + 1;
      } else {
        errors := errors + 1;
      }
      i := i + 1;
    }
    assert events[..i] == events;
    TalliesPartition(events, users);
  }
}
