/** The installation cutover as a saga over the host's versioned parts, with its
    rollback. An exception can end the forward part, or the rollback, between
    any two of their steps: a step that fails without effect ends it before, one
    that fails after taking effect ends it behind. An interrupt can do so even
    between a rename and the assignment that records it. */
module Cutover {
  datatype Side = Old | New
  datatype Installation = None | Installed(side: Side)

  /** What a service start meets. */
  datatype Parts = Parts(installation: Installation, authority: Side, config: Side, unit: Side, schema: Side)

  function AllOf(side: Side): Parts {
    Parts(Installed(side), side, side, side, side)
  }

  /** The migrating form also changes the database schema. */
  datatype Form = NativeHistory | SourceLinks

  /** The parts after a complete cutover; the installation-only form runs on the schema it found. */
  function Target(form: Form): Parts {
    if form == NativeHistory then AllOf(New) else AllOf(New).(schema := Old)
  }

  /** All parts are from the same side. */
  predicate Coherent(form: Form, p: Parts) {
    p == AllOf(Old) || p == Target(form)
  }

  // The forward steps after which something is decided.
  const STOPPED: nat := 1
  const ARCHIVED: nat := 6
  const NEW_FLAGGED: nat := 12
  const NEW_ISSUED: nat := 13
  const ALL_STEPS: nat := 14
  /** No rollback has more steps than this. */
  const FULL_RECOVERY: nat := 11

  class Host {
    const form: Form
    var current: Installation
    var archive: Installation
    var candidate: Installation
    var failed: Installation
    var authority: Side
    var config: Side
    var unit: Side
    var schema: Side
    var running: bool
    /** The parts each issued service start met, in order. */
    ghost var starts: seq<Parts>

    // the flags of `main`
    var stopped: bool
    var backupVerified: bool
    var migrationAttempted: bool
    var swapped: bool
    var newStarted: bool

    /** Steps until the exception. */
    var budget: nat

    ghost function View(): Parts
      reads this
    {
      Parts(current, authority, config, unit, schema)
    }

    constructor (form: Form)
      ensures this.form == form && Untouched()
    {
      this.form := form;
      current, archive, candidate, failed := Installed(Old), None, Installed(New), None;
      authority, config, unit, schema, running := Old, Old, Old, Old, true;
      starts := [];
      stopped, backupVerified, migrationAttempted, swapped, newStarted := false, false, false, false, false;
      budget := 0;
    }

    /** The old service runs, and the cutover has not begun. */
    ghost predicate Untouched()
      reads this
    {
      && View() == AllOf(Old) && archive == None && candidate == Installed(New) && failed == None
      && running && starts == []
      && !stopped && !backupVerified && !migrationAttempted && !swapped && !newStarted
    }

    /** The state after so many forward steps. */
    ghost predicate Reached(steps: nat)
      reads this
    {
      && stopped == (steps >= if form == NativeHistory then 2 else 1)
      && running == (steps < (if form == NativeHistory then 1 else 2) || steps >= NEW_ISSUED)
      && backupVerified == (steps >= 3)
      && migrationAttempted == (form == NativeHistory && steps >= 4)
      && schema == (if form == NativeHistory && steps >= 5 then New else Old)
      && archive == (if steps >= ARCHIVED then Installed(Old) else None)
      && swapped == (steps >= 7)
      && current == (if steps < ARCHIVED then Installed(Old) else if steps < 8 then None else Installed(New))
      && candidate == (if steps < 8 then Installed(New) else None)
      && failed == None
      && authority == (if steps >= 9 then New else Old)
      && config == (if steps >= 10 then New else Old)
      && unit == (if steps >= 11 then New else Old)
      && newStarted == (steps >= NEW_FLAGGED)
      && starts == (if steps >= NEW_ISSUED then [Target(form)] else [])
    }

    /** One more step, unless the exception comes first. */
    method Next() returns (ok: bool)
      modifies this`budget
      ensures ok <==> old(budget) > 0
      ensures budget == if ok then old(budget) - 1 else 0
    {
      ok := budget > 0;
      if ok { budget := budget - 1; }
    }

    method Start()
      modifies this`running, this`starts
      ensures running && starts == old(starts) + [View()]
    {
      starts := starts + [View()];
      running := true;
    }

    /** Stopping the service, the backup and the migration. */
    method Prepare() returns (ok: bool)
      requires Untouched()
      modifies this`budget, this`running, this`stopped, this`backupVerified, this`migrationAttempted, this`schema
      ensures ok <==> old(budget) >= 5
      ensures Reached(if ok then 5 else old(budget))
      ensures budget == if ok then old(budget) - 5 else 0
    {
      ok := Next();
      if !ok { return; }
      if form == NativeHistory { running := false; } else { stopped := true; }
      ok := Next();
      if !ok { return; }
      if form == NativeHistory { stopped := true; } else { running := false; }
      ok := Next();
      if !ok { return; }
      backupVerified := true;
      ok := Next();
      if !ok { return; }
      if form == NativeHistory { migrationAttempted := true; }
      ok := Next();
      if !ok { return; }
      if form == NativeHistory { schema := New; }
    }

    /** Switching the installation. */
    method SwitchInstallation() returns (ok: bool)
      requires Reached(5)
      modifies this`budget, this`current, this`archive, this`candidate, this`swapped
      ensures ok <==> old(budget) >= 3
      ensures Reached(if ok then 8 else 5 + old(budget))
      ensures budget == if ok then old(budget) - 3 else 0
    {
      ok := Next();
      if !ok { return; }
      current, archive := None, current;
      ok := Next();
      if !ok { return; }
      swapped := true;
      ok := Next();
      if !ok { return; }
      candidate, current := None, candidate;
    }

    /** Switching its authority file, configuration and unit. */
    method SwitchFiles() returns (ok: bool)
      requires Reached(8)
      modifies this`budget, this`authority, this`config, this`unit
      ensures ok <==> old(budget) >= 3
      ensures Reached(if ok then 11 else 8 + old(budget))
      ensures budget == if ok then old(budget) - 3 else 0
    {
      ok := Next();
      if !ok { return; }
      authority := New;
      ok := Next();
      if !ok { return; }
      config := New;
      ok := Next();
      if !ok { return; }
      unit := New;
    }

    method Forward() returns (ok: bool)
      requires Untouched()
      modifies this
      ensures ok <==> old(budget) >= ALL_STEPS
      ensures Reached(if ok then ALL_STEPS else old(budget))
    {
      ok := Prepare();
      if !ok { return; }
      ok := SwitchInstallation();
      if !ok { return; }
      ok := SwitchFiles();
      if !ok { return; }
      ok := Next();
      if !ok { return; }
      newStarted := true;
      ok := Next();
      if !ok { return; }
      Start();
      ok := Next();
    }

    /** Put the old installation back, if the switch was recorded. */
    method RestoreInstallation() returns (ok: bool)
      modifies this`budget, this`current, this`archive, this`failed
      ensures !old(swapped) ==> ok && current == old(current) && archive == old(archive) && budget == old(budget)
      ensures old(swapped) && ok ==> current == old(archive) && archive == None
      ensures budget + 2 >= old(budget)
      ensures old(budget) >= 2 ==> ok
    {
      ok := true;
      if swapped {
        if current != None {
          ok := Next();
          if !ok { return; }
          failed, current := current, None;
        }
        ok := Next();
        if !ok { return; }
        current, archive := archive, None;
      }
    }

    method RestoreFiles() returns (ok: bool)
      modifies this`budget, this`config, this`unit, this`authority
      ensures ok ==> config == Old && unit == Old && authority == Old
      ensures budget + 4 >= old(budget)
      ensures old(budget) >= 4 ==> ok
    {
      ok := Next();
      if !ok { return; }
      config := Old;
      ok := Next();
      if !ok { return; }
      unit := Old;
      ok := Next();
      if !ok { return; }
      authority := Old;
      ok := Next();
    }

    /** Restore the database through the installed program; without one, this fails. */
    method RestoreDatabase() returns (ok: bool)
      modifies this`budget, this`schema
      ensures !migrationAttempted ==> ok && schema == old(schema) && budget == old(budget)
      ensures migrationAttempted && ok ==> current != None && schema == Old
      ensures migrationAttempted && current == None ==> !ok
      ensures !ok ==> schema == old(schema)
      ensures budget + 1 >= old(budget)
      ensures old(budget) >= 1 && (!migrationAttempted || current != None) ==> ok
    {
      ok := true;
      if migrationAttempted {
        ok := Next();
        if !ok { return; }
        if current == None { return false; }
        schema := Old;
      }
    }

    /** The rollback behind an exception that came after so many forward steps. */
    method Recover(ghost steps: nat) returns (ok: bool)
      requires Reached(steps)
      modifies this
      ensures newStarted == old(newStarted)
      // after the new start was decided on, nothing is rolled back
      ensures steps >= NEW_FLAGGED ==> View() == Target(form) && starts == old(starts) && archive == Installed(Old)
      ensures steps >= NEW_FLAGGED ==> (ok <==> old(budget) >= 1) && (ok ==> !running)
      // before it, at most the old service is started
      ensures steps < NEW_FLAGGED ==> starts == [] || starts == [View()]
      ensures steps < NEW_FLAGGED && starts != [] ==>
                running && Restarts(form, steps)
                && View() == if steps == ARCHIVED then AllOf(Old).(installation := None) else AllOf(Old)
      ensures steps < NEW_FLAGGED && starts == [] ==> running == old(running)
      ensures steps < NEW_FLAGGED && old(budget) >= FULL_RECOVERY ==>
                (Restarts(form, steps) ==> starts != []) && (!Restarts(form, steps) ==> View() == old(View()))
    {
      if newStarted {
        ok := Next();
        if !ok { return; }
        running := false;
        return;
      }
      ok := Next();
      if !ok { return; }
      if stopped {
        if migrationAttempted && !backupVerified { return false; }
        ok := Next();
        if !ok { return; }
        ok := RestoreInstallation();
        if !ok { return; }
        ok := RestoreFiles();
        if !ok { return; }
        ok := RestoreDatabase();
        if !ok { return; }
        ok := Next();
        if !ok { return; }
        Start();
      }
    }

    /** The whole cutover: an exception after `fault` forward steps, another
        after `recoveryFault` steps of the rollback. */
    method Apply(fault: nat, recoveryFault: nat) returns (ok: bool)
      requires Untouched()
      modifies this
      ensures ok <==> fault >= ALL_STEPS
      ensures ok ==> View() == Target(form) && running && starts == [Target(form)]
      // every start meets coherent parts, but for one point of one form
      ensures forall p <- starts :: Coherent(form, p) <==> !(form == SourceLinks && fault == ARCHIVED)
      // behind the decision to start the new service, nothing is rolled back
      ensures fault >= NEW_FLAGGED ==>
                View() == Target(form) && starts == if fault >= NEW_ISSUED then [Target(form)] else []
      ensures NEW_FLAGGED <= fault < ALL_STEPS && recoveryFault >= 1 ==> !running
      // before it, the old service is started again or nothing is
      ensures fault < NEW_FLAGGED ==> starts == [] || starts == [View()]
      ensures fault < NEW_FLAGGED && starts != [] && fault != ARCHIVED ==> View() == AllOf(Old) && running
      ensures fault < NEW_FLAGGED && recoveryFault >= FULL_RECOVERY ==>
                (starts != [] <==> Restarts(form, fault)) && (View() == AllOf(Old) <==> fault != ARCHIVED)
      // and it runs, but for two points of the migrating form
      ensures fault < NEW_FLAGGED && recoveryFault >= FULL_RECOVERY ==>
                (running <==> !(form == NativeHistory && (fault == STOPPED || fault == ARCHIVED)))
    {
      budget := fault;
      ok := Forward();
      if !ok {
        budget := recoveryFault;
        var recovered := Recover(fault);
      }
    }
  }

  /** Where an exception leads to a start of the old service, if the rollback is not interrupted. */
  predicate Restarts(form: Form, fault: nat) {
    match form
    case NativeHistory => 2 <= fault < NEW_FLAGGED && fault != ARCHIVED
    case SourceLinks => 1 <= fault < NEW_FLAGGED
  }
}
