/** How App.tsx wires an ImageEditor to the ledger: the props it mounts the
    editor with, and the callbacks `onBack`, `onFieldSolved`,
    `onSideMissionProgress` and `onComplete`. */
module Flow {

  import opened Missions
  import opened Quiz
  import opened Progression
  import opened Editor

  /** The `initialState` prop: the snapshot saved under `id`, if any. */
  function SavedFor(progress: map<string, Progress>, id: string): (r: Option<Progress>)
    ensures r.Some? <==> id in progress
    ensures r.Some? ==> r.value == progress[id]
  {
    if id in progress then Some(progress[id]) else None
  }

  /** Opening mission `p`: the ledger selects it and an editor is mounted
      with its saved snapshot and its completion status. */
  method Open(game: Game, p: Puzzle) returns (ed: MissionEditor)
    requires game.Valid() && p in Catalogue
    modifies game`active, game`view
    ensures game.Valid() && game.active == Some(p) && game.view == EditorView
    ensures fresh(ed) && ed.Valid() && ed.puzzle == p
    ensures ed.isCompleted == (p.id in game.completedIds)
    ensures ed.Snapshot() == Restore(p, SavedFor(game.progress, p.id), p.id in game.completedIds)
    ensures !ed.showSuccessModal
    ensures !ed.part1Error && !ed.part2Error && !ed.showQuizError && ed.resultImage == None && ed.error == None
  {
    game.SelectPuzzle(p);
    ed := new MissionEditor(p, SavedFor(game.progress, p.id), p.id in game.completedIds);
  }

  /** The session is consistent with the ledger that mounted it. */
  ghost predicate Mounted(game: Game, ed: MissionEditor)
    reads game, ed
  {
    && game.Valid() && ed.Valid()
    && game.active == Some(ed.puzzle)
    && ed.isCompleted == (ed.puzzle.id in game.completedIds)
  }

  /** The back button: `handleBack` hands its snapshot to
      `handleEditorBack`, which stores it under the mission's id. */
  method Leave(game: Game, ed: MissionEditor)
    requires Mounted(game, ed)
    modifies game`progress, game`active, game`view
    ensures game.Valid() && game.active == None && game.view == HomeView
    ensures game.progress == old(game.progress)[ed.puzzle.id := ed.Snapshot()]
  {
    var snapshot := ed.Back();
    game.EditorBack(Some(snapshot));
  }

  /** Leaving a mission and opening it again gives back the same answers,
      photo and solved flags, provided there is a description and no empty
      image; the error flags, the edited image and the error message start
      cleared. */
  method LeaveAndReopen(game: Game, ed: MissionEditor) returns (ed': MissionEditor)
    requires Mounted(game, ed) && ed.puzzle in Catalogue
    requires ed.prompt != "" && ed.originalImage != Some("")
    modifies game`progress, game`active, game`view
    ensures Mounted(game, ed') && fresh(ed')
    ensures ed'.Snapshot() == ed.Snapshot()
    ensures !ed'.part1Error && !ed'.part2Error && !ed'.showQuizError && ed'.resultImage == None && ed'.error == None
  {
    Leave(game, ed);
    ed' := Open(game, ed.puzzle);
    RestoreRoundTrip(ed.puzzle, ed.Snapshot(), ed.isCompleted);
  }

  /** A Part 1 check and, if it passes, the field bonus. */
  method CheckPart1(game: Game, ed: MissionEditor)
    requires Mounted(game, ed)
    modifies ed`part1Solved, ed`part1Error, ed`isQuizSolved, game`currentXp, game`level, game`rank
    ensures Mounted(game, ed)
    ensures ed.CurrentFlags() == AfterPart1(old(ed.CurrentFlags()), Part1Accepted(ed.heights))
    ensures game.currentXp == old(game.currentXp) +
      if Part1Accepted(ed.heights) && FieldBonusApplies(game.active, game.completedIds) then FieldBonus else 0
  {
    var solved := ed.VerifyPart1();
    if solved {
      game.FieldSolved();
    }
  }

  /** A Part 2 check and, if it passes, the field bonus. */
  method CheckPart2(game: Game, ed: MissionEditor)
    requires Mounted(game, ed)
    modifies ed`part2Solved, ed`part2Error, ed`isQuizSolved, game`currentXp, game`level, game`rank
    ensures Mounted(game, ed)
    ensures ed.CurrentFlags() == AfterPart2(old(ed.CurrentFlags()), Part2Accepted(ed.reason))
    ensures game.currentXp == old(game.currentXp) +
      if Part2Accepted(ed.reason) && FieldBonusApplies(game.active, game.completedIds) then FieldBonus else 0
  {
    var solved := ed.VerifyPart2();
    if solved {
      game.FieldSolved();
    }
  }

  /** A quiz check and, if it passes, the field bonus. */
  method CheckQuiz(game: Game, ed: MissionEditor)
    requires Mounted(game, ed) && ed.puzzle.quiz.Some?
    modifies ed`isQuizSolved, ed`showQuizError, game`currentXp, game`level, game`rank
    ensures Mounted(game, ed)
    ensures var accepted := QuizAccepted(ed.puzzle, ed.quizInput, ed.select1, ed.select2);
      && ed.CurrentFlags() == AfterQuiz(old(ed.CurrentFlags()), accepted)
      && game.currentXp == old(game.currentXp) +
         if accepted && FieldBonusApplies(game.active, game.completedIds) then FieldBonus else 0
  {
    var solved := ed.VerifyQuiz();
    if solved {
      game.FieldSolved();
    }
  }

  /** No check of a completed mission earns anything. */
  lemma CompletedEarnsNoBonus(game: Game, ed: MissionEditor)
    requires Mounted(game, ed) && ed.isCompleted
    ensures !FieldBonusApplies(game.active, game.completedIds)
  {
  }

  /** The dialog's confirm button: `handleFinalExit` reports a side
      mission's progress and hands the snapshot to `handleImageComplete`. */
  method Finish(game: Game, ed: MissionEditor)
    requires Mounted(game, ed)
    modifies game`progress, game`completedIds, game`currentXp, game`level, game`rank, game`mana,
      game`fragments, game`active, game`view
    ensures game.Valid() && game.active == None && game.view == HomeView
    ensures ed.puzzle.kind == Side ==>
      && game.currentXp == old(game.currentXp) + ed.puzzle.xpReward
      && game.mana == SpendMana(old(game.mana), ManaCost)
      && game.completedIds == old(game.completedIds) && game.fragments == old(game.fragments)
      && game.progress == old(game.progress) - {ed.puzzle.id}
    ensures ed.puzzle.kind == Main ==> game.progress == old(game.progress)[ed.puzzle.id := ed.Snapshot()]
    ensures ed.puzzle.kind == Main && ed.isCompleted ==>
      && game.currentXp == old(game.currentXp) && game.mana == old(game.mana)
      && game.completedIds == old(game.completedIds) && game.fragments == old(game.fragments)
    ensures ed.puzzle.kind == Main && !ed.isCompleted ==>
      && game.completedIds == old(game.completedIds) + [ed.puzzle.id]
      && game.currentXp == old(game.currentXp) + ed.puzzle.xpReward
      && game.mana == SpendMana(old(game.mana), ManaCost)
      && game.fragments == Collect(old(game.fragments), ed.puzzle)
  {
    var side, data := ed.FinalExit();
    if side {
      game.SideMissionProgress();
    }
    game.ImageComplete(Some(data));
  }

  /** The side mission's "upload the next one" button: the dialog closes,
      the photos are dropped and the report earns the reward again. */
  method ReportAnother(game: Game, ed: MissionEditor)
    requires Mounted(game, ed) && ed.puzzle.kind == Side
    modifies ed`showSuccessModal, ed`originalImage, ed`resultImage, game`currentXp, game`level, game`rank, game`mana
    ensures Mounted(game, ed)
    ensures !ed.showSuccessModal && ed.originalImage == None && ed.resultImage == None
    ensures game.currentXp == old(game.currentXp) + ed.puzzle.xpReward
    ensures game.mana == SpendMana(old(game.mana), ManaCost)
    ensures game.completedIds == old(game.completedIds)
  {
    ed.UploadAnother();
    game.SideMissionProgress();
  }
}
