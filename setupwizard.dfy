/**
 * The four-step setup wizard of src/screens/TeamSetupScreen.tsx: pick the teams,
 * then the player count, then the tactic, then start. The config is the one-count,
 * one-tactic record that helpers.ts reads.
 */
module SetupWizard {
  import opened BoardTypes
  import opened Formations
  import opened Helpers

  datatype SetupStep = TeamStep | CountStep | TacticalStep | Complete

  /** The player-count section is shown from the count step on. */
  predicate ShowsCount(step: SetupStep) {
    step != TeamStep
  }

  /** The count's confirm button is shown only at the count step. */
  predicate ShowsConfirm(step: SetupStep) {
    step == CountStep
  }

  /** The tactic section is shown at the tactic step and once complete. */
  predicate ShowsTactical(step: SetupStep) {
    step == TacticalStep || step == Complete
  }

  /** The start button is shown only once complete. */
  predicate ShowsStart(step: SetupStep) {
    step == Complete
  }

  /** Each section shown implies the one before it is shown too. */
  lemma SectionsNest(step: SetupStep)
    ensures ShowsStart(step) ==> ShowsTactical(step)
    ensures ShowsTactical(step) ==> ShowsCount(step)
    ensures ShowsConfirm(step) ==> ShowsCount(step) && !ShowsTactical(step)
  {
  }

  /** The tactics offered: all seven for eleven a side, else only free and set piece. */
  function TacticalOptions(playerCount: nat): (r: seq<Tactic>)
    ensures playerCount == 11 ==> |r| == 7
    ensures playerCount != 11 ==> r == [Free, SetPiece]
  {
    if playerCount == 11 then [Free, F442, F433, F352, F4231, F532, SetPiece] else [Free, SetPiece]
  }

  /** Every offered tactic has a table in helpers.ts, and the eleven-a-side list has no repeats. */
  lemma TacticalOptionsKnown(playerCount: nat)
    ensures forall t :: t in TacticalOptions(playerCount) ==> HelpersFormation(t).Some?
    ensures forall i, j :: 0 <= i < j < |TacticalOptions(playerCount)| ==>
      TacticalOptions(playerCount)[i] != TacticalOptions(playerCount)[j]
  {
  }

  class Wizard {
    var step: SetupStep
    var config: PlayerConfig

    /** Starts at the team step with both teams, eleven a side, free play. */
    constructor()
      ensures step == TeamStep && config == PlayerConfig(BothTeams, 11, Free)
    {
      step := TeamStep;
      config := PlayerConfig(BothTeams, 11, Free);
    }

    /** `handleTeamSelection`: store the selection and go to the count step, from any step. */
    method SelectTeam(selection: TeamSelection)
      modifies this
      ensures config == old(config).(teamSelection := selection)
      ensures step == CountStep
    {
      config := config.(teamSelection := selection);
      step := CountStep;
    }

    /** `handlePlayerCountSelection`: store the count; advance to the tactic step only from the count step. */
    method SelectPlayerCount(playerCount: nat)
      modifies this
      ensures config == old(config).(playerCount := playerCount)
      ensures old(step) == CountStep ==> step == TacticalStep
      ensures old(step) != CountStep ==> step == old(step)
    {
      config := config.(playerCount := playerCount);
      if step == CountStep {
        step := TacticalStep;
      }
    }

    /** `handlePlayerCountConfirm`: go to the tactic step. */
    method ConfirmPlayerCount()
      modifies this
      ensures step == TacticalStep && config == old(config)
    {
      step := TacticalStep;
    }

    /** `handleTacticalSelection`: store the tactic and complete. */
    method SelectTactic(t: Tactic)
      modifies this
      ensures config == old(config).(tacticalType := t)
      ensures step == Complete
    {
      config := config.(tacticalType := t);
      step := Complete;
    }
  }

  /**
   * The flow a user first walks: both teams, then confirm the count. The tactic
   * section then shows the seven eleven-a-side options, and the start button is not
   * shown yet.
   */
  method ConfirmedDefaultFlow() returns (shown: bool, options: seq<Tactic>, canStart: bool)
    ensures shown && !canStart
    ensures options == [Free, F442, F433, F352, F4231, F532, SetPiece]
  {
    var w := new Wizard();
    w.SelectTeam(BothTeams);
    w.ConfirmPlayerCount();
    shown := ShowsTactical(w.step);
    options := TacticalOptions(w.config.playerCount);
    canStart := ShowsStart(w.step);
  }
}
