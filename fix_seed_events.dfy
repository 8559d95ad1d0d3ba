/** backend/fix_seed_events.py: an interactive menu that either hands the
    events without a `host_id` to one of the first five users or deletes
    them. The three prompt answers are parameters. */
module FixSeedEvents {
  import opened Wrappers
  import opened Text
  import opened Bson
  import opened Mongo
  import AssignSeedEvents

  /** `list(db.users.find().limit(5))`. */
  function Offered(users: seq<Doc>): (r: seq<Doc>)
    ensures |r| == if |users| < 5 then |users| else 5
    ensures r == users[..|r|]
  {
    if |users| < 5 then users else users[..5]
  }

  /** Python's `xs[i]`: a negative index counts from the end; `None` is the
      `IndexError`. */
  function PyIndex(xs: seq<Doc>, i: int): (r: Option<Doc>)
    ensures r.Some? <==> -|xs| <= i < |xs|
    ensures 0 <= i < |xs| ==> r == Some(xs[i])
    ensures -|xs| <= i < 0 ==> r == Some(xs[|xs| + i])
  {
    if 0 <= i < |xs| then Some(xs[i])
    else if -|xs| <= i < 0 then Some(xs[|xs| + i])
    else None
  }

  /** `users[int(user_choice) - 1]`, where `user_choice` is the stripped
      answer; `None` is the `ValueError` / `IndexError` that prints
      "Invalid selection". */
  function SelectUser(offered: seq<Doc>, userChoice: string): (r: Option<Doc>)
    ensures r.Some? <==> PyInt(userChoice).Some? && -|offered| <= PyInt(userChoice).value - 1 < |offered|
    ensures r.Some? ==> r.value in offered
  {
    match PyInt(userChoice)
    case None => None
    case Some(n) => PyIndex(offered, n - 1)
  }

  /** Typing the number shown next to a user selects that user. */
  lemma SelectListedUser(offered: seq<Doc>, k: nat)
    requires 1 <= k <= |offered|
    ensures SelectUser(offered, Decimal(k)) == Some(offered[k - 1])
  {
    PyIntOfDecimal(k);
  }

  /** An answer holding, once stripped, a character that cannot appear in
      an integer (a letter, a dot, an inner space) selects nobody. */
  lemma SelectRejectsNonNumeric(offered: seq<Doc>, userChoice: string, k: nat)
    requires k < |PyStrip(userChoice)|
    requires var c := PyStrip(userChoice)[k]; !IsDigit(c) && c != '_' && c != '-' && c != '+'
    ensures SelectUser(offered, userChoice).None?
  {
    PyIntShape(userChoice);
  }

  /** A number past the end of the list, or below its negated length,
      selects nobody. */
  lemma SelectRejectsOutOfRange(offered: seq<Doc>, n: nat)
    requires n > |offered|
    ensures SelectUser(offered, Decimal(n)).None?
    ensures SelectUser(offered, "-" + Decimal(n)).None?
  {
    PyIntOfDecimal(n);
    PyIntOfNegDecimal(n);
  }

  /** "0" and negative answers are not rejected: `-k` becomes index
      `-k - 1` and picks the user `k + 1` places from the end. */
  lemma NonPositiveSelectsFromEnd(offered: seq<Doc>, k: nat)
    requires k < |offered|
    ensures SelectUser(offered, if k == 0 then "0" else "-" + Decimal(k)) == Some(offered[|offered| - 1 - k])
  {
    var answer := if k == 0 then "0" else "-" + Decimal(k);
    assert PyInt(answer) == Some(-(k as int)) by {
      if k == 0 {
        PyIntOfDecimal(0);
        assert Decimal(0) == "0";
      } else {
        PyIntOfNegDecimal(k);
      }
    }
    assert PyIndex(offered, -(k as int) - 1) == Some(offered[|offered| - 1 - k]);
  }

  /** How the script ends. */
  datatype FixOutcome =
    | AllHaveHost
    | NoUsers
    | InvalidSelection
    | Assigned(user: Doc)
    | Deleted
    | Cancelled

  /** `fix_seed_events`, with the answers to the menu prompt, the user
      prompt and the confirmation prompt as parameters (a prompt that is
      never reached leaves its answer unused). */
  method Fix(db: Database, choiceAnswer: string, userAnswer: string, confirmAnswer: string)
    returns (outcome: FixOutcome)
    modifies db`events
    ensures CountNull(old(db.events), "host_id") == 0 ==> outcome == AllHaveHost
    ensures outcome.Assigned? <==>
              CountNull(old(db.events), "host_id") > 0 && PyStrip(choiceAnswer) == "1"
              && SelectUser(Offered(db.users), PyStrip(userAnswer)).Some?
    ensures outcome.Assigned? ==>
              outcome.user == SelectUser(Offered(db.users), PyStrip(userAnswer)).value
              && outcome.user in Offered(db.users)
    ensures outcome.Assigned? ==> db.events == AssignSeedEvents.AssignAll(old(db.events), outcome.user)
    ensures outcome == Deleted <==>
              CountNull(old(db.events), "host_id") > 0 && PyStrip(choiceAnswer) == "2"
              && Lower(PyStrip(confirmAnswer)) == "yes"
    ensures outcome == Deleted ==> db.events == DeleteManyNull(old(db.events), "host_id")
    ensures !outcome.Assigned? && outcome != Deleted ==> db.events == old(db.events)
  {
    var count := CountNull(db.events, "host_id");
    if count == 0 {
      return AllHaveHost;
    }
    var choice := PyStrip(choiceAnswer);
    if choice == "1" {
      var users := Offered(db.users);
      if |users| == 0 {
        return NoUsers;
      }
      var selected := SelectUser(users, PyStrip(userAnswer));
      if selected.None? {
        return InvalidSelection;
      }
      db.events := AssignSeedEvents.AssignAll(db.events, selected.value);
      return Assigned(selected.value);
    } else if choice == "2" {
      var confirm := Lower(PyStrip(confirmAnswer));
      if confirm == "yes" {
        db.events := DeleteManyNull(db.events, "host_id");
        return Deleted;
      }
      return Cancelled;
    }
    return Cancelled;
  }
}
