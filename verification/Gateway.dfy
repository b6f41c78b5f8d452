/**
 The preview gateway of one project: which configuration its two files hold, which
 deployment its row calls active, and what activation, recovery and rollback leave behind
 when a command or a write fails, when the answer of a commit is lost, or when the process
 dies before any one of their effects. Docker, nginx and the probes answer as the
 parameters say; lives counts the effects a call lives through.
 */
module Gateway {
  import opened Wrappers
  import opened Ids

  /** A rendered configuration is known by the deployment its marker line names. */
  datatype Config = Default | For(deployment: DeploymentId)

  datatype Row = Row(active: Option<DeploymentId>, port: nat)

  /** activated remembers every deployment the row ever called active. */
  datatype State = State(current: Option<Config>, lastGood: Option<Config>, active: Option<DeploymentId>, activated: set<DeploymentId>)

  predicate Names(c: Option<Config>, d: DeploymentId) {
    c == Some(For(d))
  }

  predicate Proven(c: Option<Config>, activated: set<DeploymentId>) {
    c.Some? && c.value.For? ==> c.value.deployment in activated
  }

  /** last-good.config only ever holds the default or the configuration of a deployment that was once active. */
  predicate Inv(s: State) {
    && Proven(s.lastGood, s.activated)
    && (s.active.Some? ==> s.active.value in s.activated)
    && (s.current == None ==> s.lastGood == None)
  }

  // ---------------------------------------------------------------- what the commands answer

  /** A transaction commits and says so, fails, or commits although its caller sees an error. */
  datatype Commit = Commits | Rejected | AnswerLost

  datatype ActivateAnswers = ActivateAnswers(
    directory: bool, bases: nat, gateway: bool, port: nat, connects: bool, valid: bool, switches: bool, reloads: bool,
    probes: bool, rebase: bool, rebased: bool, commit: Commit, keeps: bool, promotes: bool, restores: bool)

  datatype Outcome = Returned | Raised | Died

  datatype Inspection = CommandFailed | Missing | Foreign | Managed

  datatype Observation = Observation(reachable: bool, deployment: Option<DeploymentId>)

  datatype RecoverAnswers = RecoverAnswers(
    inspection: Inspection, edgeAttached: bool, port: Option<nat>, first: Observation, candidateFound: bool, healthy: bool,
    commit: Commit, shows: bool, keeps: bool, promotes: bool, restores: bool, reloads: bool, second: Observation)

  datatype Verdict = Active | SafeToRetry | Uncertain | NoVerdict

  /** What the gateway shows is what the row says, or an unmarked configuration in its stead. */
  predicate MatchesPrevious(seen: Option<DeploymentId>, s: State) {
    || seen == s.active
    || (seen == None && (s.active.Some? ==> Names(s.lastGood, s.active.value)))
  }

  // ---------------------------------------------------------------- what the operations may do

  /**
   What a call for d had done when it ended: moved the row to d, left d in current.conf,
   written d's configuration to last-good.config; or put the last good one in d's place.
   */
  datatype Ending = Ending(committed: bool, shown: bool, recorded: bool) | Withdrawn

  const NOTHING := Ending(false, false, false)

  function Ended(s: State, d: DeploymentId, e: Ending): State {
    match e
    case Withdrawn => s.(current := s.lastGood)
    case Ending(committed, shown, recorded) =>
      State(if shown then Some(For(d)) else s.current,
            if recorded then Some(For(d)) else s.lastGood,
            if committed then Some(d) else s.active,
            if committed then s.activated + {d} else s.activated)
  }

  /** A first use writes two default files, of which it may have come to write fewer. */
  function FirstUse(s: State, written: nat): State {
    if s.current.Some? || written == 0 then s
    else if written == 1 then s.(current := Some(Default))
    else s.(current := Some(Default), lastGood := Some(Default))
  }

  predicate ActivateMay(s: State, d: DeploymentId, outcome: Outcome, written: nat, e: Ending, s': State) {
    && s' == Ended(FirstUse(s, written), d, e)
    && e != Withdrawn
    && (e.recorded ==> e.committed)
    && (e != NOTHING ==> s.active != Some(d) && (s.current.Some? || written >= 2))
    && (outcome == Returned ==> e == if s.active == Some(d) then NOTHING else Ending(true, true, true))
  }

  predicate RecoverMay(s: State, d: DeploymentId, verdict: Verdict, e: Ending, s': State) {
    && s' == Ended(s, d, e)
    && (e == Withdrawn ==> Names(s.current, d) && s.lastGood.Some?)
    && (e.Ending? ==> (e.shown ==> e.committed) && (e.recorded ==> e.shown))
    && (s.active == Some(d) ==> verdict == Active && e == NOTHING)
    && match verdict
       case Active => s.active != Some(d) ==> e == Ending(true, true, true)
       case SafeToRetry => e == if Names(s.current, d) then Withdrawn else NOTHING
       case Uncertain => e == Withdrawn || e == NOTHING
       case NoVerdict => true
  }

  predicate RollbackMay(s: State, d: DeploymentId, e: Ending, s': State) {
    && s' == Ended(s, d, e)
    && (e == NOTHING || (e == Withdrawn && s.active != Some(d) && Names(s.current, d) && s.lastGood.Some?))
  }

  // ---------------------------------------------------------------- when which ending is reached

  /** Everything up to the check of the row succeeds. */
  predicate FindsRow(s: State, row: Option<Row>, a: ActivateAnswers) {
    && a.directory && (s.current == None ==> a.bases >= 2) && a.gateway
    && (row.Some? ==> row.value.port == a.port)
  }

  /** There is a move to make, and d's configuration was found valid. */
  predicate Prepares(s: State, row: Option<Row>, d: DeploymentId, a: ActivateAnswers) {
    FindsRow(s, row, a) && s.active != Some(d) && a.connects && a.valid
  }

  /** The file is switched, everything before the row is moved succeeds, and so does moving it. */
  predicate Commits(a: ActivateAnswers) {
    a.switches && a.reloads && a.probes && (a.rebase ==> a.rebased) && a.commit != Rejected
  }

  predicate Records(a: ActivateAnswers) {
    Commits(a) && a.commit == Commit.Commits && a.keeps
  }

  predicate Completes(a: ActivateAnswers) {
    Records(a) && a.promotes
  }

  /** A failure behind the switch puts the old file back if it can, whether or not the row was moved. */
  function SwitchEnding(a: ActivateAnswers): Ending {
    Ending(Commits(a), a.switches && (Completes(a) || !a.restores), Records(a))
  }

  /** What is done when the process dies that many effects after the preparations: switch, commit, last good file. */
  function CutEnding(a: ActivateAnswers, effects: nat): Ending {
    Ending(effects >= 2 && a.commit != Rejected, effects >= 1, effects >= 3)
  }

  /** What an activation that is not cut short has done. */
  function ActivateEnding(s: State, row: Option<Row>, d: DeploymentId, a: ActivateAnswers): Ending {
    if Prepares(s, row, d, a) then SwitchEnding(a) else NOTHING
  }

  /** A running gateway of the project answered on the port on record. */
  predicate Observed(row: Option<Row>, a: RecoverAnswers) {
    && a.inspection == Managed && a.edgeAttached
    && a.port.Some? && (row.Some? ==> row.value.port == a.port.value)
    && a.first.reachable
  }

  /** The gateway shows d, whose containers are all there and answer. */
  predicate Confirmed(row: Option<Row>, d: DeploymentId, a: RecoverAnswers) {
    Observed(row, a) && a.first.deployment == Some(d) && a.candidateFound && a.healthy
  }

  /** The recovery tries to take d out of current.conf. */
  predicate Withdraws(s: State, row: Option<Row>, d: DeploymentId, a: RecoverAnswers) {
    || a.inspection == Missing
    || (Observed(row, a) && !Confirmed(row, d, a) && (a.first.deployment == Some(d) || MatchesPrevious(a.first.deployment, s)))
  }

  predicate Replaceable(s: State, d: DeploymentId) {
    Names(s.current, d) && s.lastGood.Some?
  }

  /** Nothing of d is left in the file, and what the gateway shows, if there is one, is the previous generation. */
  predicate Safe(s: State, row: Option<Row>, d: DeploymentId, a: RecoverAnswers) {
    && Withdraws(s, row, d, a)
    && (Names(s.current, d) ==> s.lastGood.Some? && a.restores)
    && (a.inspection != Missing ==>
          (Names(s.current, d) ==> a.reloads) && a.second.reachable && MatchesPrevious(a.second.deployment, s))
  }

  predicate Finishes(row: Option<Row>, d: DeploymentId, a: RecoverAnswers) {
    Confirmed(row, d, a) && a.commit == Commit.Commits && a.shows && a.keeps && a.promotes
  }

  /** What a recovery has done that lives through so many of its effects. */
  function RecoverEnding(s: State, row: Option<Row>, d: DeploymentId, a: RecoverAnswers, lives: nat): Ending {
    if s.active == Some(d) then NOTHING
    else if Confirmed(row, d, a) then
      var shown := lives >= 3 && a.commit == Commit.Commits && a.shows;
      Ending(lives >= 2 && a.commit != Rejected, shown, lives >= 4 && shown && a.keeps)
    else if Withdraws(s, row, d, a) && Replaceable(s, d) && a.restores && lives >= (if a.inspection == Missing then 1 else 2)
    then Withdrawn
    else NOTHING
  }

  /** What a rollback has done. */
  function RollbackEnding(s: State, d: DeploymentId, restores: bool): Ending {
    if s.active != Some(d) && Replaceable(s, d) && restores then Withdrawn else NOTHING
  }

  /** Which verdict it comes to: none exactly if a commit or a write behind it, or the write of a withdrawal, fails. */
  function RecoverVerdict(s: State, row: Option<Row>, d: DeploymentId, a: RecoverAnswers): Verdict {
    if s.active == Some(d) || Finishes(row, d, a) then Active
    else if Confirmed(row, d, a) || (Withdraws(s, row, d, a) && Replaceable(s, d) && !a.restores) then NoVerdict
    else if Safe(s, row, d, a) then SafeToRetry
    else Uncertain
  }

  /**
   What the answers must have been for a recovery to move the row, to call the deployment
   active, or to say that trying again is safe.
   */
  predicate IsJustified(s: State, row: Option<Row>, d: DeploymentId, a: RecoverAnswers, verdict: Verdict, e: Ending, s': State) {
    && (e.Ending? && e.committed ==>
          && a.inspection == Managed && a.edgeAttached && (row.Some? ==> a.port == Some(row.value.port))
          && a.first == Observation(true, Some(d)) && a.candidateFound && a.healthy && a.commit != Rejected)
    && (verdict == Active ==>
          && s'.active == Some(d) && Names(s'.current, d) && Names(s'.lastGood, d)
          && a.first == Observation(true, Some(d)) && a.candidateFound && a.healthy && a.promotes)
    && (verdict == SafeToRetry ==>
          && s'.active == s.active && s'.lastGood == s.lastGood
          && (if Names(s.current, d) then s'.current == s.lastGood && s.lastGood.Some? else s'.current == s.current)
          && (a.inspection == Missing || ShowsPrevious(s, row, d, a)))
  }

  /** It was reached and shows the generation before, or nothing in its stead. */
  predicate IsPrevious(seen: Observation, s: State) {
    && seen.reachable
    && (if seen.deployment.Some? then seen.deployment == s.active
        else s.active.Some? ==> Names(s.lastGood, s.active.value))
  }

  /** The gateway on the port on record did not confirm d, and at the end shows the generation before. */
  predicate ShowsPrevious(s: State, row: Option<Row>, d: DeploymentId, a: RecoverAnswers) {
    && a.inspection == Managed && a.edgeAttached && a.port.Some? && (row.Some? ==> a.port.value == row.value.port)
    && (if a.first.deployment == Some(d) then a.first.reachable && (!a.candidateFound || !a.healthy) else IsPrevious(a.first, s))
    && IsPrevious(a.second, s)
  }

  /** d's configuration is not in the file, or can be taken out of it and out of nginx. */
  predicate CanWithdraw(s: State, d: DeploymentId, a: RecoverAnswers) {
    Names(s.current, d) ==> s.lastGood.Some? && a.restores && (a.inspection == Missing || a.reloads)
  }

  lemma SafeVerdict(s: State, row: Option<Row>, d: DeploymentId, a: RecoverAnswers)
    requires s.active != Some(d)
    ensures RecoverVerdict(s, row, d, a) == SafeToRetry
            <==> (a.inspection == Missing || ShowsPrevious(s, row, d, a)) && CanWithdraw(s, d, a)
  {
  }

  lemma VerdictIsJustified(s: State, row: Option<Row>, d: DeploymentId, a: RecoverAnswers, lives: nat,
                           verdict: Verdict, e: Ending, s': State)
    requires s.active != Some(d) && a.inspection == Managed
    requires s' == Ended(s, d, e) && e == RecoverEnding(s, row, d, a, lives)
    requires lives >= 4 ==> verdict == RecoverVerdict(s, row, d, a)
    requires verdict == Active ==> e == Ending(true, true, true)
    requires verdict == Uncertain ==> e == Withdrawn || e == NOTHING
    requires verdict == SafeToRetry ==> Safe(s, row, d, a) && e == if Names(s.current, d) then Withdrawn else NOTHING
    ensures RecoverMay(s, d, verdict, e, s') && IsJustified(s, row, d, a, verdict, e, s')
  {
  }

  // ---------------------------------------------------------------- the operations

  class NginxGateway {
    var current: Option<Config>
    var lastGood: Option<Config>
    var row: Option<Row>
    ghost var activated: set<DeploymentId>

    constructor ()
      ensures View() == State(None, None, None, {}) && row == None
    {
      current, lastGood, row, activated := None, None, None, {};
    }

    ghost function View(): State
      reads this
    {
      State(current, lastGood, if row.Some? then row.value.active else None, activated)
    }

    /** Inserts the row or finds it; a row with another port is a conflict. */
    method EnsureRow(port: nat) returns (ok: bool)
      modifies this`row
      ensures ok <==> old(row) == None || old(row).value.port == port
      ensures row == if old(row) == None then Some(Row(None, port)) else old(row)
    {
      if row == None {
        row := Some(Row(None, port));
      }
      ok := row.value.port == port;
    }

    /** The transaction that makes d active; ok is what the caller learns of it. */
    method MarkActive(d: DeploymentId, commit: Commit) returns (ok: bool)
      requires row.Some?
      modifies this`row, this`activated
      ensures row == if commit == Rejected then old(row) else Some(old(row).value.(active := Some(d)))
      ensures activated == if commit == Rejected then old(activated) else old(activated) + {d}
      ensures ok <==> commit == Commit.Commits
    {
      if commit != Rejected {
        row := Some(row.value.(active := Some(d)));
        activated := activated + {d};
      }
      ok := commit == Commit.Commits;
    }

    /**
     Writes the default files of a first use; false if one of the writes fails or the
     process dies, of which lives tells the latter.
     */
    method WriteDefaults(bases: nat, lives: nat) returns (ok: bool, left: nat, ghost written: nat)
      modifies this`current, this`lastGood
      ensures View() == FirstUse(old(View()), written)
      ensures left + written == lives && written <= (if old(current).Some? then 0 else 2)
      ensures ok ==> (old(current) == None ==> bases >= 2 && written >= 2)
      ensures !ok ==> old(current) == None && (bases < 2 || left == 0)
    {
      left, written := lives, 0;
      if current.Some? { return true, left, 0; }
      if bases < 1 || left == 0 { return false, left, 0; }
      current, left, written := Some(Default), left - 1, 1;
      if bases < 2 || left == 0 { return false, left, 1; }
      lastGood, left, written := Some(Default), left - 1, 2;
      ok := true;
    }

    /**
     Switches the gateway to d's configuration and commits it. A failure before the row is
     moved leaves both files as they were. A failure after it, in writing the last good file
     or in retiring the previous generation, still puts the previous configuration back,
     although the row names d; and putting it back may itself fail.
     */
    method Activate(d: DeploymentId, a: ActivateAnswers, lives: nat) returns (outcome: Outcome, ghost written: nat, ghost ending: Ending)
      modifies this
      ensures ActivateMay(old(View()), d, outcome, written, ending, View())
      ensures written <= if old(current).Some? then 0 else 2
      ensures lives >= 7 ==> outcome != Died
      ensures Prepares(old(View()), old(row), d, a) && Completes(a) && lives < written + 4 ==> outcome == Died
      ensures outcome == Died ==> ending == if lives <= written then NOTHING else CutEnding(a, lives - written - 1)
      ensures outcome != Died ==> ending == ActivateEnding(old(View()), old(row), d, a)
      ensures row.Some? ==> row.value.port == if old(row).Some? then old(row).value.port else a.port
      ensures outcome != Died ==>
                (outcome == Returned <==> if old(View()).active == Some(d) then FindsRow(old(View()), old(row), a)
                                          else Prepares(old(View()), old(row), d, a) && Completes(a))
      ensures ending.Ending? && (ending.committed || ending.shown || ending.recorded) ==>
        a.directory && a.gateway && a.connects && a.valid && a.switches && old(View()).active != Some(d)
        && (old(row).Some? ==> old(row).value.port == a.port)
      ensures ending.Ending? && ending.committed ==>
        a.reloads && a.probes && (a.rebase ==> a.rebased) && a.commit != Rejected
      ensures ending.Ending? && ending.recorded ==> ending.committed && a.commit == Commit.Commits && a.keeps
      ensures outcome == Returned && old(View()).active != Some(d) ==>
        row.Some? && row.value.active == Some(d) && Names(current, d) && Names(lastGood, d)
        && a.valid && a.reloads && a.probes && (a.rebase ==> a.rebased) && a.keeps && a.promotes
      ensures outcome == Raised && a.restores ==> current == old(current) || (old(current) == None && current == Some(Default))
    {
      ending, written := NOTHING, 0;
      if !a.directory { return Raised, 0, NOTHING; }
      var based, life;
      based, life, written := WriteDefaults(a.bases, lives);
      if !based { return if a.bases < 2 then Raised else Died, written, NOTHING; }
      if !a.gateway { return Raised, written, NOTHING; }
      if life == 0 { return Died, written, NOTHING; }
      life := life - 1;
      var agreed := EnsureRow(a.port);
      if !agreed { return Raised, written, NOTHING; }
      if row.value.active == Some(d) { return Returned, written, NOTHING; }
      if !a.connects || !a.valid { return Raised, written, NOTHING; }
      outcome, ending := SwitchAndCommit(d, a, life);
    }

    /** The part of an activation inside its exception handler. */
    method SwitchAndCommit(d: DeploymentId, a: ActivateAnswers, lives: nat) returns (outcome: Outcome, ghost ending: Ending)
      requires row.Some? && View().active != Some(d)
      modifies this
      ensures View() == Ended(old(View()), d, ending) && row.Some?
      ensures ending != Withdrawn && (ending.recorded ==> ending.committed)
      ensures lives >= 4 ==> outcome != Died
      ensures Completes(a) && lives < 3 ==> outcome == Died
      ensures outcome == Died ==> ending == CutEnding(a, lives)
      ensures outcome == Returned ==> ending == Ending(true, true, true)
      ensures row.value.port == old(row).value.port
      ensures outcome != Died ==> ending == SwitchEnding(a) && (outcome == Returned <==> Completes(a))
      ensures ending.Ending? && ending.shown ==> a.switches
      ensures ending.Ending? && ending.committed ==>
        a.switches && a.reloads && a.probes && (a.rebase ==> a.rebased) && a.commit != Rejected
      ensures ending.Ending? && ending.recorded ==> ending.committed && a.commit == Commit.Commits && a.keeps
      ensures outcome == Returned ==> ending.committed && a.commit == Commit.Commits && a.keeps && a.promotes
      ensures outcome == Raised && a.restores ==> current == old(current)
    {
      if !a.switches { return Raised, NOTHING; }
      if lives < 1 { return Died, NOTHING; }
      var previous := current;
      current := Some(For(d));
      if !a.reloads || !a.probes || (a.rebase && !a.rebased) {
        outcome, ending := PutBack(previous, a, lives - 1, Ending(false, true, false));
        return;
      }
      if lives < 2 { return Died, Ending(false, true, false); }
      var ok := MarkActive(d, a.commit);
      ghost var committed := a.commit != Rejected;
      if !ok || !a.keeps {
        outcome, ending := PutBack(previous, a, lives - 2, Ending(committed, true, false));
        return;
      }
      if lives < 3 { return Died, Ending(true, true, false); }
      lastGood := current;
      if !a.promotes {
        outcome, ending := PutBack(previous, a, lives - 3, Ending(true, true, true));
        return;
      }
      return Returned, Ending(true, true, true);
    }

    /** The exception handler: the configuration of before is written back, if that works. */
    method PutBack(previous: Option<Config>, a: ActivateAnswers, lives: nat, ghost done: Ending)
      returns (outcome: Outcome, ghost ending: Ending)
      requires done.Ending? && done.shown
      modifies this`current
      ensures ending.Ending? && ending == done.(shown := ending.shown)
      ensures current == if ending.shown then old(current) else previous
      ensures outcome == Raised || (outcome == Died && lives == 0 && ending == done)
      ensures outcome == Raised ==> ending.shown == !a.restores
    {
      if !a.restores { return Raised, done; }
      if lives < 1 { return Died, done; }
      current := previous;
      return Raised, done.(shown := false);
    }

    /** Puts the last good configuration in the place of d's; no answer when the write fails. */
    method RestoreTargetFile(d: DeploymentId, restores: bool) returns (ok: Option<bool>)
      modifies this`current
      ensures current == if Replaceable(old(View()), d) && restores then lastGood else old(current)
      ensures ok == if Replaceable(old(View()), d) && !restores then None else Some(Names(old(current), d) ==> lastGood.Some?)
    {
      if current == None || current != Some(For(d)) { return Some(true); }
      if lastGood == None { return Some(false); }
      if !restores { return None; }
      current := lastGood;
      ok := Some(true);
    }

    method RestorePreviousGeneration(d: DeploymentId, a: RecoverAnswers) returns (ok: Option<bool>)
      requires row.Some?
      modifies this`current
      ensures current == if Replaceable(old(View()), d) && a.restores then lastGood else old(current)
      ensures ok == None <==> Replaceable(old(View()), d) && !a.restores
      ensures ok == Some(true) <==>
        && (Names(old(current), d) ==> lastGood.Some? && a.restores && a.reloads)
        && a.second.reachable && MatchesPrevious(a.second.deployment, old(View()))
    {
      var switched := current == Some(For(d));
      ok := RestoreTargetFile(d, a.restores);
      if ok != Some(true) || (switched && !a.reloads) { return if ok == None then None else Some(false); }
      ok := Some(a.second.reachable && (|| a.second.deployment == row.value.active
        || (a.second.deployment == None && (row.value.active.Some? ==> lastGood == Some(For(row.value.active.value))))));
    }

    /** Writes down the activation of d that the gateway was found to have already made. */
    method FinishActivation(d: DeploymentId, a: RecoverAnswers, lives: nat) returns (verdict: Verdict, ghost ending: Ending)
      requires row.Some? && View().active != Some(d)
      modifies this
      ensures View() == Ended(old(View()), d, ending)
      ensures ending.Ending? && (ending.shown ==> ending.committed) && (ending.recorded ==> ending.shown)
      ensures verdict == NoVerdict || (verdict == Active && ending == Ending(true, true, true))
      ensures lives >= 3 ==> (verdict == Active <==> a.commit == Commit.Commits && a.shows && a.keeps && a.promotes)
      ensures var shown := lives >= 2 && a.commit == Commit.Commits && a.shows;
              ending == Ending(lives >= 1 && a.commit != Rejected, shown, lives >= 3 && shown && a.keeps)
      ensures ending.Ending? && ending.committed ==> a.commit != Rejected
      ensures verdict == Active ==> a.commit == Commit.Commits && a.shows && a.keeps && a.promotes
    {
      if lives < 1 { return NoVerdict, NOTHING; }
      var ok := MarkActive(d, a.commit);
      if !ok { return NoVerdict, Ending(a.commit != Rejected, false, false); }
      if lives < 2 || !a.shows { return NoVerdict, Ending(true, false, false); }
      current := Some(For(d));
      if lives < 3 || !a.keeps { return NoVerdict, Ending(true, true, false); }
      lastGood := Some(For(d));
      return if a.promotes then Active else NoVerdict, Ending(true, true, true);
    }

    /** Decides what became of an interrupted activation of d: exactly one verdict for every set of answers. */
    method Recover(d: DeploymentId, a: RecoverAnswers, lives: nat) returns (verdict: Verdict, ghost ending: Ending)
      modifies this
      ensures RecoverMay(old(View()), d, verdict, ending, View())
      ensures ending == RecoverEnding(old(View()), old(row), d, a, lives)
      ensures lives >= 4 ==> verdict == RecoverVerdict(old(View()), old(row), d, a)
      ensures old(View()).active == Some(d) ==> verdict == Active && View() == old(View())
      ensures a.inspection == Missing && old(View()).active != Some(d) && lives >= 1 ==>
        verdict == if !Names(old(current), d) || (lastGood.Some? && a.restores) then SafeToRetry
                   else if lastGood == None then Uncertain else NoVerdict
      ensures a.inspection == CommandFailed || a.inspection == Foreign ==>
        verdict == (if old(View()).active == Some(d) then Active else Uncertain) && View() == old(View())
      ensures old(View()).active != Some(d) ==> IsJustified(old(View()), old(row), d, a, verdict, ending, View())
      ensures lives >= 4 && old(View()).active != Some(d) ==>
        (verdict == SafeToRetry <==>
          (a.inspection == Missing || ShowsPrevious(old(View()), old(row), d, a)) && CanWithdraw(old(View()), d, a))
    {
      ending := NOTHING;
      if View().active != Some(d) { SafeVerdict(View(), row, d, a); }
      if row.Some? && row.value.active == Some(d) { return Active, NOTHING; }
      if a.inspection == CommandFailed || a.inspection == Foreign { return Uncertain, NOTHING; }
      if a.inspection == Missing {
        if lives == 0 { return NoVerdict, NOTHING; }
        ending := if Replaceable(View(), d) && a.restores then Withdrawn else NOTHING;
        var restored := RestoreTargetFile(d, a.restores);
        verdict := if restored == None then NoVerdict else if restored.value then SafeToRetry else Uncertain;
      } else {
        verdict, ending := RecoverRunning(d, a, lives);
        VerdictIsJustified(old(View()), old(row), d, a, lives, verdict, ending, View());
      }
    }

    /** Recovery with a managed gateway at hand: what it shows decides. */
    method RecoverRunning(d: DeploymentId, a: RecoverAnswers, lives: nat) returns (verdict: Verdict, ghost ending: Ending)
      requires a.inspection == Managed && View().active != Some(d)
      modifies this
      ensures View() == Ended(old(View()), d, ending)
      ensures ending == RecoverEnding(old(View()), old(row), d, a, lives)
      ensures lives >= 4 ==> verdict == RecoverVerdict(old(View()), old(row), d, a)
      ensures verdict == SafeToRetry ==> Safe(old(View()), old(row), d, a)
      ensures verdict == Active ==> ending == Ending(true, true, true)
      ensures verdict == Uncertain ==> ending == Withdrawn || ending == NOTHING
      ensures verdict == SafeToRetry ==> ending == if Names(old(current), d) then Withdrawn else NOTHING
    {
      ending := NOTHING;
      if !a.edgeAttached || a.port == None { return Uncertain, NOTHING; }
      if lives == 0 { return NoVerdict, NOTHING; }
      var agreed := EnsureRow(a.port.value);
      if !agreed || !a.first.reachable { return Uncertain, NOTHING; }
      if a.first.deployment == Some(d) && a.candidateFound && a.healthy {
        verdict, ending := FinishActivation(d, a, lives - 1);
      } else {
        verdict, ending := WithdrawUnconfirmed(d, a, lives - 1);
      }
    }

    /** Puts the last good configuration back where the gateway shows d without its containers, or the generation before. */
    method WithdrawUnconfirmed(d: DeploymentId, a: RecoverAnswers, lives: nat) returns (verdict: Verdict, ghost ending: Ending)
      requires Observed(row, a) && !Confirmed(row, d, a) && View().active != Some(d) && row.Some?
      modifies this`current
      ensures View() == Ended(old(View()), d, ending)
      ensures ending == RecoverEnding(old(View()), row, d, a, lives + 1)
      ensures lives >= 1 ==> verdict == RecoverVerdict(old(View()), row, d, a)
      ensures lives == 0 ==> verdict == NoVerdict || verdict == Uncertain
      ensures verdict != Active && (verdict == SafeToRetry ==> Safe(old(View()), row, d, a))
      ensures verdict == SafeToRetry ==> ending == if Names(old(current), d) then Withdrawn else NOTHING
    {
      ghost var before := View();
      if && a.first.deployment != Some(d)
         && !(|| a.first.deployment == row.value.active
              || (a.first.deployment == None && (row.value.active.Some? ==> lastGood == Some(For(row.value.active.value)))))
      {
        return Uncertain, NOTHING;
      }
      if lives == 0 { return NoVerdict, NOTHING; }
      var ok := RestorePreviousGeneration(d, a);
      return if ok == None then NoVerdict else if ok.value then SafeToRetry else Uncertain,
             if Replaceable(before, d) && a.restores then Withdrawn else NOTHING;
    }

    method RollbackCandidate(d: DeploymentId, restores: bool) returns (ghost ending: Ending)
      modifies this`current
      ensures RollbackMay(old(View()), d, ending, View())
      ensures ending == RollbackEnding(old(View()), d, restores)
    {
      ending := NOTHING;
      if row.Some? && row.value.active == Some(d) { return; }
      if current.Some? && lastGood.Some? {
        if current == Some(For(d)) && restores {
          current := lastGood;
          ending := Withdrawn;
        }
      }
    }
  }

  // ---------------------------------------------------------------- every run of the operations

  datatype Call =
    | CallActivate(d: DeploymentId, outcome: Outcome, written: nat, ending: Ending)
    | CallRecover(d: DeploymentId, verdict: Verdict, ending: Ending)
    | CallRollback(d: DeploymentId, ending: Ending)

  predicate May(s: State, c: Call, s': State) {
    match c
    case CallActivate(d, outcome, written, ending) => ActivateMay(s, d, outcome, written, ending, s')
    case CallRecover(d, verdict, ending) => RecoverMay(s, d, verdict, ending, s')
    case CallRollback(d, ending) => RollbackMay(s, d, ending, s')
  }

  /** A run of calls for any deployments of the project, each returning, failing or dying midway. */
  predicate Run(states: seq<State>, calls: seq<Call>) {
    && |states| == |calls| + 1
    && states[0] == State(None, None, None, {})
    && forall i :: 0 <= i < |calls| ==> May(states[i], calls[i], states[i + 1])
  }

  lemma CallKeeps(s: State, c: Call, s': State)
    requires Inv(s) && May(s, c, s')
    ensures Inv(s')
  {
  }

  lemma {:induction false} RunKeeps(states: seq<State>, calls: seq<Call>, n: nat)
    requires Run(states, calls) && n <= |calls|
    ensures Inv(states[n])
  {
    if n > 0 {
      RunKeeps(states, calls, n - 1);
      CallKeeps(states[n - 1], calls[n - 1], states[n]);
    }
  }

  /** Some call of the run made d active. */
  predicate ActivatedBy(states: seq<State>, d: DeploymentId, n: nat)
    requires n < |states|
  {
    exists i :: 0 <= i < n && states[i].active != Some(d) && states[i + 1].active == Some(d)
  }

  lemma {:induction false} MemoryIsHonest(states: seq<State>, calls: seq<Call>, n: nat, d: DeploymentId)
    requires Run(states, calls) && n <= |calls|
    ensures d in states[n].activated <==> ActivatedBy(states, d, n)
  {
    if n > 0 {
      MemoryIsHonest(states, calls, n - 1, d);
      assert May(states[n - 1], calls[n - 1], states[n]);
      assert ActivatedBy(states, d, n - 1) ==> ActivatedBy(states, d, n);
      if states[n - 1].active != Some(d) && states[n].active == Some(d) { assert ActivatedBy(states, d, n); }
    }
  }

  // ---------------------------------------------------------------- when the active deployment is served

  /** Call m was the last to change which deployment the row calls active. */
  predicate MovedLast(states: seq<State>, m: nat, n: nat)
    requires n < |states|
  {
    && m < n && states[m].active != states[m + 1].active
    && forall i :: m < i <= n ==> states[i].active == states[n].active
  }

  function LastMove(states: seq<State>, n: nat): (m: nat)
    requires n < |states| && states[0].active == None && states[n].active.Some?
    ensures MovedLast(states, m, n)
  {
    if states[n - 1].active == states[n].active then LastMove(states, n - 1) else n - 1
  }

  /** What happened to current.conf last in a stretch of calls that do not move the row. */
  datatype LastWrite = Untouched | Switched | Restored

  function WrittenLast(calls: seq<Call>, from: nat, n: nat): LastWrite
    requires from <= n <= |calls|
  {
    if n == from then Untouched
    else if calls[n - 1].ending == Withdrawn then Restored
    else if calls[n - 1].ending.shown then Switched
    else WrittenLast(calls, from, n - 1)
  }

  /**
   Whether current.conf names the active deployment x, told from the call that moved the row
   to x and from the calls since. Left alone since, it does if that call ended with x shown,
   or found it there already. A later activation that was interrupted behind its switch
   hides x; taking that back shows x again if last-good.config had been written for it.
   */
  predicate Serves(states: seq<State>, calls: seq<Call>, m: nat, n: nat, x: DeploymentId)
    requires m < n <= |calls| < |states|
  {
    var e := calls[m].ending;
    match WrittenLast(calls, m + 1, n)
    case Untouched => (e.Ending? && e.shown) || Names(states[m].current, x)
    case Switched => false
    case Restored => (e.Ending? && e.recorded) || Names(states[m].lastGood, x)
  }

  /** One call that leaves the row at x. */
  lemma CallBehindMove(s: State, c: Call, s': State, x: DeploymentId)
    requires May(s, c, s') && s.active == s'.active == Some(x) && (s.current == None ==> s.lastGood == None)
    ensures Names(s'.lastGood, x) <==> Names(s.lastGood, x)
    ensures Names(s'.current, x) <==>
      if c.ending == Withdrawn then Names(s.lastGood, x) else !c.ending.shown && Names(s.current, x)
  {
  }

  lemma MovingCall(s: State, c: Call, s': State, x: DeploymentId)
    requires May(s, c, s') && s.active != s'.active == Some(x) && (s.current == None ==> s.lastGood == None)
    ensures c.d == x && c.ending.Ending? && c.ending.committed
    ensures Names(s'.current, x) <==> c.ending.shown || Names(s.current, x)
    ensures Names(s'.lastGood, x) <==> c.ending.recorded || Names(s.lastGood, x)
  {
  }

  lemma {:induction false} SinceTheMove(states: seq<State>, calls: seq<Call>, m: nat, n: nat, x: DeploymentId)
    requires Run(states, calls) && n <= |calls| && MovedLast(states, m, n) && states[n].active == Some(x)
    ensures Names(states[n].lastGood, x) <==> calls[m].ending.Ending? && (calls[m].ending.recorded || Names(states[m].lastGood, x))
    ensures Names(states[n].current, x) <==> Serves(states, calls, m, n, x)
  {
    if n == m + 1 {
      RunKeeps(states, calls, m);
      MovingCall(states[m], calls[m], states[n], x);
    } else {
      SinceTheMove(states, calls, m, n - 1, x);
      RunKeeps(states, calls, n - 1);
      CallBehindMove(states[n - 1], calls[n - 1], states[n], x);
    }
  }

  /**
   After every run, current.conf names the active deployment if and only if Serves says so of
   the call that moved the row last. When that call returned normally or said ACTIVE, that
   is: unless a later activation was interrupted behind its switch and not taken back.
   */
  lemma ActiveIsServedIff(states: seq<State>, calls: seq<Call>, x: DeploymentId)
    requires Run(states, calls) && states[|calls|].active == Some(x)
    ensures var m := LastMove(states, |calls|);
            && (Names(states[|calls|].current, x) <==> Serves(states, calls, m, |calls|, x))
            && (calls[m].ending == Ending(true, true, true) ==>
                  (Names(states[|calls|].current, x) <==> WrittenLast(calls, m + 1, |calls|) != Switched))
  {
    var m := LastMove(states, |calls|);
    SinceTheMove(states, calls, m, |calls|, x);
  }

  // ---------------------------------------------------------------- the same, told from what a caller can see

  /** What a call was given: the answers it got, and how many effects it lived through. */
  datatype Request =
    | ToActivate(row: Option<Row>, a: ActivateAnswers, lives: nat)
    | ToRecover(row: Option<Row>, answers: RecoverAnswers, lives: nat)
    | ToRollBack(restores: bool)

  /** The call ended as its answers and its lives say, which is what each of the three operations ensures. */
  predicate AsAnswered(s: State, c: Call, q: Request) {
    match c
    case CallActivate(d, outcome, written, ending) =>
      && q.ToActivate? && written <= (if s.current.Some? then 0 else 2)
      && ending == if outcome != Died then ActivateEnding(s, q.row, d, q.a)
                   else if q.lives <= written then NOTHING else CutEnding(q.a, q.lives - written - 1)
    case CallRecover(d, _, ending) => q.ToRecover? && ending == RecoverEnding(s, q.row, d, q.answers, q.lives)
    case CallRollback(d, ending) => q.ToRollBack? && ending == RollbackEnding(s, d, q.restores)
  }

  predicate EndedWell(c: Call) {
    (c.CallActivate? && c.outcome == Returned) || (c.CallRecover? && c.verdict == Active)
  }

  /** The activation of another deployment came as far as its switch, and then died or could not put the old file back. */
  predicate Interrupted(s: State, c: Call, q: Request) {
    && c.CallActivate? && q.ToActivate?
    && if c.outcome == Died then q.lives >= (if s.current.Some? then 2 else 4)
       else Prepares(s, q.row, c.d, q.a) && q.a.switches && !q.a.restores
  }

  /** The file named the call's deployment, which is not active, and the last good one was written over it. */
  predicate TakesBack(s: State, c: Call, q: Request) {
    && s.active != Some(c.d) && Replaceable(s, c.d)
    && match q
       case ToActivate(_, _, _) => false
       case ToRecover(row, a, lives) =>
         && Withdraws(s, row, c.d, a) && !Confirmed(row, c.d, a) && a.restores
         && lives >= (if a.inspection == Missing then 1 else 2)
       case ToRollBack(restores) => restores
  }

  lemma CallToldByAnswers(s: State, c: Call, s': State, q: Request)
    requires May(s, c, s') && AsAnswered(s, c, q) && s.active == s'.active
    ensures c.ending == Withdrawn <==> TakesBack(s, c, q)
    ensures c.ending.Ending? && c.ending.shown <==> Interrupted(s, c, q)
  {
  }

  predicate InterruptedAt(states: seq<State>, calls: seq<Call>, asked: seq<Request>, k: nat)
    requires k < |calls| == |asked| < |states|
  {
    Interrupted(states[k], calls[k], asked[k])
  }

  predicate TakesBackAt(states: seq<State>, calls: seq<Call>, asked: seq<Request>, k: nat)
    requires k < |calls| == |asked| < |states|
  {
    TakesBack(states[k], calls[k], asked[k])
  }

  /** An interrupted activation that nothing has taken back. */
  predicate StandsFrom(states: seq<State>, calls: seq<Call>, asked: seq<Request>, k: nat, n: nat)
    requires k < n <= |calls| == |asked| < |states|
  {
    InterruptedAt(states, calls, asked, k) && forall j :: k < j < n ==> !TakesBackAt(states, calls, asked, j)
  }

  lemma {:induction false} SwitchedToldByAnswers(states: seq<State>, calls: seq<Call>, asked: seq<Request>, m: nat, n: nat)
    requires Run(states, calls) && |asked| == |calls| && m < n <= |calls|
    requires forall i :: 0 <= i < |calls| ==> AsAnswered(states[i], calls[i], asked[i])
    requires forall i :: m < i <= n ==> states[i].active == states[n].active
    ensures WrittenLast(calls, m + 1, n) == Switched <==> exists k :: m < k < n && StandsFrom(states, calls, asked, k, n)
  {
    if n > m + 1 {
      var last := n - 1;
      SwitchedToldByAnswers(states, calls, asked, m, last);
      CallToldByAnswers(states[last], calls[last], states[n], asked[last]);
      if InterruptedAt(states, calls, asked, last) { assert StandsFrom(states, calls, asked, last, n); }
      if k :| m < k < last && StandsFrom(states, calls, asked, k, last) {
        if !TakesBackAt(states, calls, asked, last) { assert StandsFrom(states, calls, asked, k, n); }
      }
      if k :| m < k < n && StandsFrom(states, calls, asked, k, n) {
        if k < last { assert StandsFrom(states, calls, asked, k, last); }
      }
    }
  }

  /**
   Once a call has moved the row and said so, the active deployment is served if and only if
   no activation since came as far as its switch and then died or could not put the old file
   back, unless a recovery or a rollback has taken it back since.
   */
  lemma ServedToldByAnswers(states: seq<State>, calls: seq<Call>, asked: seq<Request>, x: DeploymentId)
    requires Run(states, calls) && states[|calls|].active == Some(x) && |asked| == |calls|
    requires forall i :: 0 <= i < |calls| ==> AsAnswered(states[i], calls[i], asked[i])
    requires EndedWell(calls[LastMove(states, |calls|)])
    ensures Names(states[|calls|].current, x) <==>
            !exists k :: LastMove(states, |calls|) < k < |calls| && StandsFrom(states, calls, asked, k, |calls|)
  {
    var m := LastMove(states, |calls|);
    assert May(states[m], calls[m], states[m + 1]);
    ActiveIsServedIff(states, calls, x);
    SwitchedToldByAnswers(states, calls, asked, m, |calls|);
  }

  /**
   After any run, a recovery of d that says ACTIVE leaves d in the row, and in current.conf
   unless it only found the row there; then Serves tells whether it is. One that says
   SAFE_TO_RETRY leaves current.conf naming d exactly when both files named d before. A
   deployment that no call ever activated is therefore never named after that verdict.
   */
  lemma VerdictsAreSound(states: seq<State>, calls: seq<Call>, d: DeploymentId, verdict: Verdict, ending: Ending, s': State)
    requires Run(states, calls) && RecoverMay(states[|calls|], d, verdict, ending, s')
    ensures verdict == Active ==>
              && s'.active == Some(d)
              && (Names(s'.current, d) <==>
                    states[|calls|].active == Some(d) ==> Serves(states, calls, LastMove(states, |calls|), |calls|, d))
    ensures verdict == SafeToRetry ==>
              && s'.active != Some(d)
              && var s := states[|calls|];
                 (Names(s'.current, d) <==> Names(s.current, d) && Names(s.lastGood, d))
    ensures verdict == SafeToRetry && !ActivatedBy(states, d, |calls|) ==> !Names(s'.current, d)
    ensures verdict == Uncertain ==> s'.active != Some(d)
  {
    RunKeeps(states, calls, |calls|);
    MemoryIsHonest(states, calls, |calls|, d);
    if states[|calls|].active == Some(d) { ActiveIsServedIff(states, calls, d); }
  }

  /** The same for the cleanup after a failure. */
  lemma RollbackIsSound(states: seq<State>, calls: seq<Call>, d: DeploymentId, ending: Ending, s': State)
    requires Run(states, calls) && RollbackMay(states[|calls|], d, ending, s')
    ensures var s := states[|calls|];
            && s'.active == s.active && s'.lastGood == s.lastGood
            && (s.active == Some(d) ==> s' == s)
            && (s.lastGood.Some? && s.active != Some(d) && !ActivatedBy(states, d, |calls|) ==>
                  (Names(s'.current, d) <==> Names(s.current, d) && ending != Withdrawn))
  {
    RunKeeps(states, calls, |calls|);
    MemoryIsHonest(states, calls, |calls|, d);
  }

  // ---------------------------------------------------------------- two runs that are not served

  const FINE := ActivateAnswers(true, 2, true, 8000, true, true, true, true, true, false, false, Commit.Commits, true, true, true)

  /** Retiring the previous generation fails: the row names d, and the file what it named before. */
  method ActiveMayNotBeServed(served: DeploymentId, d: DeploymentId, a: RecoverAnswers) returns (g: NginxGateway, verdict: Verdict)
    requires served != d
    ensures verdict == Active && Names(g.current, served) && g.View().active == Some(d)
  {
    g := new NginxGateway();
    var first, _, _ := g.Activate(served, FINE, 8);
    assert first == Returned;
    var second, _, _ := g.Activate(d, FINE.(promotes := false), 8);
    assert second == Raised;
    var answer, _ := g.Recover(d, a, 8);
    verdict := answer;
  }

  /** The process dies between the switch to d and the commit: the row still names the deployment served before. */
  method InterruptedSwitchIsNotServed(served: DeploymentId, d: DeploymentId, a: RecoverAnswers) returns (g: NginxGateway, verdict: Verdict)
    requires served != d
    ensures verdict == Active && Names(g.current, d) && g.View().active == Some(served)
  {
    g := new NginxGateway();
    var first, _, _ := g.Activate(served, FINE, 8);
    var second, _, _ := g.Activate(d, FINE, 2);
    var answer, _ := g.Recover(served, a, 8);
    verdict := answer;
  }
}
