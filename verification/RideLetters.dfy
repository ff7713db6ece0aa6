// What passengers are told: every request is answered, and whoever is fetched is
// told so once.
module RideLetters {
  import opened Walk
  import opened Ride

  // ---- Answers ----

  predicate IsAnswer(p: Posted) {
    p.letter.reply.Accepts? || p.letter.reply.Refuses?
  }

  // Every request is answered at once, by one letter over its own connection:
  // with the driver's socket iff the ride is taken, and by a refusal iff a ride
  // is under way, which it leaves alone.
  lemma RequestIsAnswered(run: seq<World>, steps: seq<Step>, k: nat)
    requires IsRun(run, steps) && k < |steps| && steps[k].HandleRequest?
    ensures var w, w', q := run[k], run[k + 1], steps[k];
      && |w'.mail| == |w.mail| + 1 && w'.mail[..|w.mail|] == w.mail
      && var letter := w'.mail[|w.mail|].letter;
         && letter.to == q.from
         && (letter.reply == Accepts(w.driver.socket)
             <==> w'.log == w.log + [Accepted(q.from, q.passenger, q.origin, q.destination)])
         && (letter.reply == Refuses <==> |w.log| % 2 == 1 && w'.log == w.log && w'.driver == w.driver)
         && (letter.reply == Accepts(w.driver.socket) || letter.reply == Refuses)
  {
    RunHasOneToken(run, steps, k);
    assert Enabled(run[k], steps[k]) && run[k + 1] == Next(run[k], steps[k]);
    assert run[k].log + [] == run[k].log;
  }

  // Nothing else is answered.
  lemma OnlyRequestsAreAnswered(run: seq<World>, steps: seq<Step>, k: nat)
    requires IsRun(run, steps) && k < |steps| && !steps[k].HandleRequest?
    ensures var w, w' := run[k], run[k + 1];
      && w.mail <= w'.mail
      && forall j | |w.mail| <= j < |w'.mail| :: !IsAnswer(w'.mail[j])
  {
    assert Enabled(run[k], steps[k]) && run[k + 1] == Next(run[k], steps[k]);
  }

  function Answers(mail: seq<Posted>): nat {
    if mail == [] then 0
    else Answers(mail[..|mail| - 1]) + if IsAnswer(mail[|mail| - 1]) then 1 else 0
  }

  function Requests(steps: seq<Step>): nat {
    if steps == [] then 0
    else Requests(steps[..|steps| - 1]) + if steps[|steps| - 1].HandleRequest? then 1 else 0
  }

  lemma {:induction false} NoMoreAnswers(mail: seq<Posted>, more: seq<Posted>)
    requires mail <= more && forall j | |mail| <= j < |more| :: !IsAnswer(more[j])
    ensures Answers(more) == Answers(mail)
    decreases |more|
  {
    if |mail| < |more| {
      NoMoreAnswers(mail, more[..|more| - 1]);
    } else {
      assert more == mail;
    }
  }

  // There are as many answers as requests.
  lemma {:induction false} AsManyAnswers(run: seq<World>, steps: seq<Step>, k: nat)
    requires IsRun(run, steps) && k < |run|
    ensures Answers(run[k].mail) == Requests(steps[..k])
  {
    if k > 0 {
      AsManyAnswers(run, steps, k - 1);
      assert steps[..k][..k - 1] == steps[..k - 1];
      if steps[k - 1].HandleRequest? {
        RequestIsAnswered(run, steps, k - 1);
      } else {
        OnlyRequestsAreAnswered(run, steps, k - 1);
        NoMoreAnswers(run[k - 1].mail, run[k].mail);
      }
    }
  }

  // ---- Arrivals ----

  predicate IsArrival(p: Posted, age: nat) {
    p.letter.reply.HasArrived? && p.age == age
  }

  function Arrivals(mail: seq<Posted>, age: nat): nat {
    if mail == [] then 0
    else Arrivals(mail[..|mail| - 1], age) + if IsArrival(mail[|mail| - 1], age) then 1 else 0
  }

  lemma {:induction false} NoArrivals(mail: seq<Posted>, age: nat)
    requires forall p | p in mail :: !IsArrival(p, age)
    ensures Arrivals(mail, age) == 0
  {
    if mail != [] {
      assert mail[|mail| - 1] in mail;
      NoArrivals(mail[..|mail| - 1], age);
    }
  }

  lemma OneMore(mail: seq<Posted>, p: Posted, age: nat)
    ensures Arrivals(mail + [p], age) == Arrivals(mail, age) + if IsArrival(p, age) then 1 else 0
  {
    assert (mail + [p])[..|mail + [p]| - 1] == mail;
  }

  // The letter goes to the passenger of the ride, from where it waits.
  predicate RightPlace(log: seq<Trip>, p: Posted) {
    && p.age <= |log|
    && (p.letter.reply.HasArrived? ==>
          && 0 < p.age && log[p.age - 1].Accepted?
          && p.letter.to == log[p.age - 1].from && p.at == log[p.age - 1].origin)
  }

  // One arrival for every ride that got as far as the passenger.
  ghost predicate MailOk(w: World) {
    && (forall p | p in w.mail :: RightPlace(w.log, p))
    && forall age: nat | age % 2 == 1 && age <= |w.log| ::
         Arrivals(w.mail, age) == if age < |w.log| || w.driver.pickedUp then 1 else 0
  }

  lemma PlaceStays(log: seq<Trip>, more: seq<Trip>, p: Posted)
    requires RightPlace(log, p) && log <= more
    ensures RightPlace(more, p)
  {
  }

  lemma RequestKeepsMail(w: World, from: nat, passenger: nat, origin: Point, destination: Point)
    requires OneToken(w) && MailOk(w) && Enabled(w, HandleRequest(from, passenger, origin, destination))
    ensures MailOk(Next(w, HandleRequest(from, passenger, origin, destination)))
  {
    var w' := Next(w, HandleRequest(from, passenger, origin, destination));
    var p := w'.mail[|w.mail|];
    assert w'.mail == w.mail + [p] && !p.letter.reply.HasArrived?;
    forall x | x in w'.mail ensures RightPlace(w'.log, x) {
      if x in w.mail { PlaceStays(w.log, w'.log, x); }
    }
    forall age: nat | age % 2 == 1 && age <= |w'.log|
      ensures Arrivals(w'.mail, age) == if age < |w'.log| || w'.driver.pickedUp then 1 else 0
    {
      OneMore(w.mail, p, age);
      if age > |w.log| { NoArrivals(w.mail, age); }
    }
  }

  lemma ArrivalKeepsMail(w: World)
    requires OneToken(w) && MailOk(w) && w.tasks == [PickUpPassenger] && Enabled(w, HandleTask(0))
    ensures MailOk(Next(w, HandleTask(0)))
  {
    var w' := Next(w, HandleTask(0));
    assert w.log + [] == w.log;
    if w'.driver.pickedUp {
      var p := Posted(Letter(w.log[|w.log| - 1].from, HasArrived), w'.driver.position, |w.log|);
      assert w'.mail == w.mail + [p];
      forall age: nat | age % 2 == 1 && age <= |w'.log|
        ensures Arrivals(w'.mail, age) == if age < |w'.log| || w'.driver.pickedUp then 1 else 0
      {
        OneMore(w.mail, p, age);
      }
    } else {
      assert w'.mail == w.mail;
    }
  }

  lemma TaskKeepsMail(w: World, k: nat)
    requires OneToken(w) && MailOk(w) && Enabled(w, HandleTask(k)) && !w.tasks[k].PickUpPassenger?
    ensures MailOk(Next(w, HandleTask(k)))
  {
    var w' := Next(w, HandleTask(k));
    assert w'.mail == w.mail && w.log <= w'.log;
    forall x | x in w'.mail ensures RightPlace(w'.log, x) {
      PlaceStays(w.log, w'.log, x);
    }
  }

  lemma StepKeepsMail(w: World, step: Step)
    requires OneToken(w) && MailOk(w) && Enabled(w, step)
    ensures MailOk(Next(w, step))
  {
    match step
    case HandleRequest(from, passenger, origin, destination) =>
      RequestKeepsMail(w, from, passenger, origin, destination);
    case HandleTask(k) =>
      assert w.tasks == [w.tasks[0]];
      if w.tasks[k].PickUpPassenger? { ArrivalKeepsMail(w); } else { TaskKeepsMail(w, k); }
    case HandleRegister =>
      assert Next(w, step).mail == w.mail && Next(w, step).log == w.log;
    case _ =>
  }

  lemma {:induction false} RunKeepsMail(run: seq<World>, steps: seq<Step>, k: nat)
    requires IsRun(run, steps) && k < |run|
    ensures MailOk(run[k])
  {
    if k > 0 {
      RunKeepsMail(run, steps, k - 1);
      RunHasOneToken(run, steps, k - 1);
      assert Enabled(run[k - 1], steps[k - 1]);
      StepKeepsMail(run[k - 1], steps[k - 1]);
    }
  }

  // The passenger of every ride that has ended was told exactly once, over its
  // own connection and with the driver where it was waiting, that the driver has
  // arrived; the passenger of a ride under way iff it was picked up.
  lemma ArrivesOnce(run: seq<World>, steps: seq<Step>, k: nat, ride: nat)
    requires IsRun(run, steps) && k < |run| && ride < |run[k].log| && run[k].log[ride].Accepted?
    ensures Arrivals(run[k].mail, ride + 1)
         == if ride + 1 < |run[k].log| || run[k].driver.pickedUp then 1 else 0
    ensures forall p | p in run[k].mail && IsArrival(p, ride + 1) ::
      p.letter.to == run[k].log[ride].from && p.at == run[k].log[ride].origin
  {
    RunKeepsMail(run, steps, k);
    RunHasOneToken(run, steps, k);
    assert InTurn(run[k].log, ride);
  }
}
