/** After a failure: the next update or activation asks again for what failed. */
module SubmitterRetries {
  import opened Prelude
  import opened SubmitterModel
  import opened SubmitterRuns
  import opened SubmitterDrive
  import opened SubmitterTimely

  /** One more call, of this stage and in this activation. */
  predicate AsksAgain(before: seq<Pending>, epoch: nat, t: Sys, st: Stage) {
    && |t.issued| == |before| + 1 && t.issued == before + [t.issued[|before|]]
    && t.issued[|before|].epoch == epoch && StageOf(t.issued[|before|].request) == st
    && t.issued[|before|] in t.pending
  }

  /** One more end request for each listed flight, in order. */
  predicate EndsAgain(before: seq<Pending>, epoch: nat, t: Sys, fs: seq<Flight>) {
    && |t.issued| == |before| + |fs| && t.issued[..|before|] == before && t.authorization.Some?
    && forall k | 0 <= k < |fs| ::
         t.issued[|before| + k] == Pending(EndActiveFlight(t.authorization.value, fs[k].id), epoch)
  }

  lemma {:induction false} EndsIssued(s: Sys, token: string, fs: seq<Flight>)
    requires s.authorization == Some(token)
    ensures EndsAgain(s.issued, s.epoch, IssueEnds(s, token, fs), fs)
    ensures var t := IssueEnds(s, token, fs); t.epoch == s.epoch && t.authorization == s.authorization
    decreases |fs|
  {
    if fs != [] { EndsIssued(s, token, fs[..|fs| - 1]); }
  }

  /** It is the turn of this stage, and its call is not in flight. */
  predicate Due(s: Sys, st: Stage) {
    match st
    case AuthorizationStage => !s.requested.authorization && s.authorization.None?
    case PilotStage => !s.requested.pilot && s.authorization.Some? && s.pilot.None?
    case SearchStage => !s.requested.activeFlights && s.pilot.Some? && s.activeFlights.None?
    case EndStage => !s.requested.endActiveFlights && s.pilot.Some? && s.activeFlights.Some?
    case CreateStage => !s.requested.create && Ready(s) && s.plan.None? && s.flight.None?
    case SubmitStage => !s.requested.submit && s.plan.Some? && s.flight.None?
    case _ => false
  }

  predicate Early(st: Stage) {
    st in {AuthorizationStage, PilotStage, SearchStage, EndStage, CreateStage, SubmitStage}
  }

  lemma DriveRetries(c: Config, s: Sys, st: Stage, j: Junk)
    requires Chain(s) && Due(s, st)
    ensures var t := Drive(c, s, j);
            if st.EndStage? then
              s.activeFlights.value != [] ==> EndsAgain(s.issued, s.epoch, t, s.activeFlights.value)
            else (st.CreateStage? ==> s.position.Some?) ==> AsksAgain(s.issued, s.epoch, t, st)
  {
    hide Finish, IssueEnds;
    if s.authorization.Some? && s.activeFlights.Some? {
      EndsIssued(s.(requested := s.requested.(endActiveFlights := true)), s.authorization.value, s.activeFlights.value);
    }
  }

  /** An update that arrives while the key is missing drives the chain, and so does every activation. */
  lemma UpdateDrives(c: Config, s: Sys, e: Event, j: Junk)
    requires e.Activation? || (e.PositionUpdate? && s.active && s.key.None?)
    ensures var t := if e.PositionUpdate? then s.(position := Some(e.position)) else s.(active := true);
            NextSys(c, s, e, j) == Drive(c, t, j)
  {
    hide RequestAuthorization, Drive, ReportOf;
    ChainIsDrive(c, if e.PositionUpdate? then s.(position := Some(e.position)) else s.(active := true), j);
  }

  lemma FailureLeaves(c: Config, w: World, i: nat, j: Junk)
    requires Sound(w) && i < |w.s.pending| && w.s.pending[i].epoch == w.s.epoch
    requires Within(w.s, StageOf(w.s.pending[i].request))
    ensures var st := StageOf(w.s.pending[i].request);
            var t := Next(c, w, Completion(i, Failed), j).s;
            && Chain(t) && t == w.s.(pending := t.pending, requested := t.requested)
            && (Early(st) ==> Due(t, st))
  {
    hide Count, Accounted, Tagged;
    CountRemove(w.s.pending, i, w.s.epoch);
  }

  /** In timely runs: when a call of the present activation has failed, the next position update or
      activation issues it anew, one call of the same stage, or, if it was to end an active flight, one
      for each flight still listed. */
  lemma FailureRetried(c: Config, w: World, i: nat, e: Event, j: Junk, k: Junk)
    requires Sound(w) && w.s.active && i < |w.s.pending| && w.s.pending[i].epoch == w.s.epoch
    requires e.Activation? || e.PositionUpdate?
    ensures var st := StageOf(w.s.pending[i].request);
            var t := NextSys(c, Next(c, w, Completion(i, Failed), j).s, e, k);
            && (Early(st) && !st.EndStage? && (st.CreateStage? ==> e.PositionUpdate? || w.s.position.Some?) ==>
                  AsksAgain(w.s.issued, w.s.epoch, t, st))
            && (st.EndStage? && w.s.activeFlights.GetOr([]) != [] ==>
                  EndsAgain(w.s.issued, w.s.epoch, t, w.s.activeFlights.value))
  {
    hide Count, Within, Accounted, Tagged, Drive, AsksAgain, EndsAgain, NextSys, Record, Deliver;
    var st := StageOf(w.s.pending[i].request);
    FailureLeaves(c, w, i, j);
    var u := Next(c, w, Completion(i, Failed), j).s;
    if Early(st) && (st.EndStage? ==> u.activeFlights.GetOr([]) != []) {
      UpdateDrives(c, u, e, k);
      DriveRetries(c, if e.PositionUpdate? then u.(position := Some(e.position)) else u.(active := true), st, k);
    }
  }

  lemma FinishAsksMonitor(s: Sys, j: Junk)
    requires s.monitor.None? && !s.requested.monitoring
    ensures Count(Finish(s, j).issued, MonitorStage, 0) == Count(s.issued, MonitorStage, 0) + 1
  {
    hide Count;
    var t := RequestMonitor(s, j);
    CountAppend(s.issued, t.issued[|s.issued|], 0);
    CountAppend(t.issued, Pending(StartComms(t.authorization.GetOr(j.authorization), t.flight.GetOr(j.flight).id),
                                  t.epoch), 0);
  }

  lemma MonitorFails(c: Config, w: World, i: nat, j: Junk)
    requires Sound(w) && i < |w.s.pending| && w.s.pending[i].epoch == w.s.epoch
    requires w.s.pending[i].request.MonitorTraffic? && Within(w.s, MonitorStage)
    ensures var t := Next(c, w, Completion(i, Failed), j).s;
            && t == w.s.(pending := t.pending, requested := w.s.requested.(monitoring := false))
            && Ready(t) && t.flight.Some? && t.monitor.None? && (t.plan.None? ==> t.requested.create)
  {
    hide Count, Accounted, Tagged;
    CountRemove(w.s.pending, i, w.s.epoch);
  }

  /** In timely runs: when the call for a traffic monitor has failed, the next position update or
      activation asks again exactly if the flight came from a plan and, for an update, the key is still
      missing: once telemetry flows, updates no longer drive the chain. */
  lemma MonitorRetriedIff(c: Config, w: World, i: nat, e: Event, j: Junk, k: Junk)
    requires Sound(w) && w.s.active && i < |w.s.pending| && w.s.pending[i].epoch == w.s.epoch
    requires w.s.pending[i].request.MonitorTraffic? && (e.Activation? || e.PositionUpdate?)
    ensures var t := NextSys(c, Next(c, w, Completion(i, Failed), j).s, e, k);
            Count(t.issued, MonitorStage, 0) != Count(w.s.issued, MonitorStage, 0) <==>
              w.s.plan.Some? && (e.Activation? || w.s.key.None?)
  {
    hide Count, Within, Accounted, Tagged, Finish, IssueEnds, ReportOf, Record, Deliver;
    MonitorFails(c, w, i, j);
    var u := Next(c, w, Completion(i, Failed), j).s;
    if e.Activation? || w.s.key.None? {
      hide NextSys;
      var v := if e.PositionUpdate? then u.(position := Some(e.position)) else u.(active := true);
      UpdateDrives(c, u, e, k);
      FinishAsksMonitor(v, k);
    }
  }
}
