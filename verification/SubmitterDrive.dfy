/** Driving the submitter's chain in closed form, and the proof that driving it twice is driving it once. */
module SubmitterDrive {
  import opened Prelude
  import opened SubmitterModel
  import opened SubmitterRuns

  function Finish(s: Sys, j: Junk): Sys {
    RequestComms(RequestMonitor(s, j), j)
  }

  /** The first stage whose value is missing acts, alone. */
  function Drive(c: Config, s: Sys, j: Junk): Sys {
    if s.authorization.None? then
      if s.requested.authorization then s
      else Issue(s.(requested := s.requested.(authorization := true)), Authenticate(c.oauth))
    else if s.pilot.None? then
      if s.requested.pilot then s
      else Issue(s.(requested := s.requested.(pilot := true)), FetchPilot(s.authorization.value))
    else if s.activeFlights.None? then
      if s.requested.activeFlights then s
      else Issue(s.(requested := s.requested.(activeFlights := true)), SearchFlights(s.pilot))
    else if s.activeFlights.value != [] then
      if s.requested.endActiveFlights then s
      else IssueEnds(s.(requested := s.requested.(endActiveFlights := true)),
                     s.authorization.value, s.activeFlights.value)
    else if s.plan.None? then
      if s.requested.create then s
      else
        var t := s.(requested := s.requested.(create := true));
        if s.position.None? then t else Issue(t, CreateCall(c, t, s.position.value, j))
    else if s.flight.None? then
      if s.requested.submit then s
      else Issue(s.(requested := s.requested.(submit := true)), SubmitPlan(s.authorization.value, s.plan.value.id))
    else Finish(s, j)
  }

  /** Authorization, pilot and an empty list of active flights: what opening a flight needs. */
  predicate Ready(s: Sys) {
    s.authorization.Some? && s.pilot.Some? && s.activeFlights == Some([])
  }

  lemma SubmitIsDrive(c: Config, s: Sys, j: Junk)
    requires Ready(s) && s.plan.Some?
    ensures RequestSubmit(s, j) == Drive(c, s, j)
  {
    hide RequestComms, RequestMonitor;
  }

  lemma CreateIsDrive(c: Config, s: Sys, j: Junk)
    requires Ready(s)
    ensures RequestCreate(c, s, j) == Drive(c, s, j)
  {
    hide RequestComms, RequestMonitor;
  }

  lemma EndActiveIsDrive(c: Config, s: Sys, j: Junk)
    requires s.authorization.Some? && s.pilot.Some? && s.activeFlights.Some?
    ensures RequestEndActive(c, s, j) == Drive(c, s, j)
  {
    hide RequestCreate, Finish;
    if Ready(s) { CreateIsDrive(c, s, j); }
  }

  lemma SearchIsDrive(c: Config, s: Sys, j: Junk)
    requires s.authorization.Some? && s.pilot.Some?
    ensures RequestActiveFlights(c, s, j) == Drive(c, s, j)
  {
    hide RequestEndActive, Finish;
    if s.activeFlights.Some? { EndActiveIsDrive(c, s, j); }
  }

  lemma PilotIsDrive(c: Config, s: Sys, j: Junk)
    requires s.authorization.Some?
    ensures RequestPilot(c, s, j) == Drive(c, s, j)
  {
    hide RequestActiveFlights, Finish;
    if s.pilot.Some? { SearchIsDrive(c, s, j); }
  }

  /** The chain of request and handler functions does exactly what its closed form says. */
  lemma ChainIsDrive(c: Config, s: Sys, j: Junk)
    ensures RequestAuthorization(c, s, j) == Drive(c, s, j)
  {
    hide RequestPilot, Finish;
    if s.authorization.Some? { PilotIsDrive(c, s, j); }
  }

  lemma FinishTwice(s: Sys, j: Junk, k: Junk)
    ensures Finish(Finish(s, j), k) == Finish(s, j)
  {
    if s.monitor.Some? {
      var m := s.monitor.value;
      assert s.subscribed + {m} + {m} == s.subscribed + {m};
    }
  }

  lemma IssueEndsKeepsRest(s: Sys, token: string, fs: seq<Flight>)
    ensures var t := IssueEnds(s, token, fs); t == s.(pending := t.pending, issued := t.issued)
  {
    IssueEndsCount(s, token, fs, 0);
  }

  lemma FinishKeepsRest(s: Sys, j: Junk)
    ensures var t := Finish(s, j);
            t == s.(requested := t.requested, pending := t.pending, issued := t.issued, subscribed := t.subscribed)
  {
  }

  lemma DriveTwice(c: Config, s: Sys, j: Junk, k: Junk)
    ensures Drive(c, Drive(c, s, j), k) == Drive(c, s, j)
  {
    hide Finish, CreateCall, IssueEnds;
    if s.authorization.Some? && s.pilot.Some? && s.activeFlights.Some? {
      if s.activeFlights.value != [] {
        IssueEndsKeepsRest(s.(requested := s.requested.(endActiveFlights := true)),
                         s.authorization.value, s.activeFlights.value);
      } else if s.plan.Some? && s.flight.Some? {
        FinishTwice(s, j, k);
        FinishKeepsRest(s, j);
      }
    }
  }

  /** In every state, driving the chain again with no completion in between issues nothing and
      changes nothing, the subscriber set included. */
  lemma RedriveIdle(c: Config, s: Sys, j: Junk, k: Junk)
    ensures RequestAuthorization(c, RequestAuthorization(c, s, j), k) == RequestAuthorization(c, s, j)
  {
    hide RequestAuthorization;
    ChainIsDrive(c, s, j);
    var t := Drive(c, s, j);
    ChainIsDrive(c, t, k);
    DriveTwice(c, s, j, k);
  }

  /** Driving changes flags, calls and subscriptions only. */
  lemma DriveKeepsRest(c: Config, s: Sys, j: Junk)
    ensures var t := Drive(c, s, j);
            t == s.(requested := t.requested, pending := t.pending, issued := t.issued, subscribed := t.subscribed)
  {
    hide IssueEnds, CreateCall, Finish;
    if s.authorization.Some? && s.pilot.Some? && s.activeFlights.Some? {
      IssueEndsKeepsRest(s.(requested := s.requested.(endActiveFlights := true)),
                         s.authorization.value, s.activeFlights.value);
      FinishKeepsRest(s, j);
    }
  }

  /** An effective deactivation leaves a new submitter, except for what it was told from outside, the
      list of active flights, and what it has done: one request to end the flight it held. */
  lemma DeactivateForgets(s: Sys)
    requires s.active
    ensures var t := Deactivate(s);
            var closing := if s.authorization.Some? && s.flight.Some?
                           then [Pending(EndFlight(s.authorization.value, s.flight.value.id), s.epoch + 1)] else [];
            t == INITIAL.(position := s.position, mission := s.mission, activeFlights := s.activeFlights,
                          subscribed := s.subscribed, pending := s.pending + closing, issued := s.issued + closing,
                          sent := s.sent, epoch := s.epoch + 1)
  {
  }

  /** The next activation starts over with exactly one call, for a new authorization. */
  lemma ReactivationStartsOver(c: Config, s: Sys, j: Junk)
    requires s.active
    ensures var t := Deactivate(s);
            var u := Activate(c, t, j);
            u.issued == t.issued + [Pending(Authenticate(c.oauth), s.epoch + 1)] && u.active
  {
    DeactivateForgets(s);
  }
}
