/** The in-mission session of ImageEditor.tsx: the answers typed so far, the
    solved and error flags, the snapshot handed back to the ledger, and its
    restoration when the mission is opened again. */
module Editor {

  import opened Missions
  import opened Text
  import opened Quiz

  /** The verification flags of a session. */
  datatype Flags = Flags(
    part1Solved: bool,
    part2Solved: bool,
    isQuizSolved: bool,
    part1Error: bool,
    part2Error: bool,
    quizError: bool)

  /** `verifyM1Part1` on flags `f`, given whether the heights were accepted. */
  function AfterPart1(f: Flags, accepted: bool): (r: Flags)
    ensures r.part1Solved == (f.part1Solved || accepted) && r.part2Solved == f.part2Solved
    ensures r.isQuizSolved == (f.isQuizSolved || (accepted && f.part2Solved))
    ensures r.part1Error == !accepted
    ensures r.part2Error == f.part2Error && r.quizError == f.quizError
  {
    if accepted then f.(part1Solved := true, part1Error := false, isQuizSolved := f.isQuizSolved || f.part2Solved)
    else f.(part1Error := true)
  }

  /** `verifyM1Part2` on flags `f`, given whether the reason was accepted. */
  function AfterPart2(f: Flags, accepted: bool): (r: Flags)
    ensures r.part2Solved == (f.part2Solved || accepted) && r.part1Solved == f.part1Solved
    ensures r.isQuizSolved == (f.isQuizSolved || (accepted && f.part1Solved))
    ensures r.part2Error == !accepted
    ensures r.part1Error == f.part1Error && r.quizError == f.quizError
  {
    if accepted then f.(part2Solved := true, part2Error := false, isQuizSolved := f.isQuizSolved || f.part1Solved)
    else f.(part2Error := true)
  }

  /** `handleQuizVerify` on flags `f`, for a mission with a quiz. */
  function AfterQuiz(f: Flags, accepted: bool): (r: Flags)
    ensures r.isQuizSolved == (f.isQuizSolved || accepted)
    ensures r.part1Solved == f.part1Solved && r.part2Solved == f.part2Solved
    ensures r.quizError == !accepted
    ensures r.part1Error == f.part1Error && r.part2Error == f.part2Error
  {
    if accepted then f.(isQuizSolved := true, quizError := false)
    else f.(quizError := true)
  }

  /** A rejected check only raises its own error flag. */
  lemma RejectionKeepsSolved(f: Flags)
    ensures AfterPart1(f, false) == f.(part1Error := true)
    ensures AfterPart2(f, false) == f.(part2Error := true)
    ensures AfterQuiz(f, false) == f.(quizError := true)
  {
  }

  /** Every flag solved in `f` is still solved in `g`. */
  predicate KeepsSolved(f: Flags, g: Flags)
  {
    (f.part1Solved ==> g.part1Solved) && (f.part2Solved ==> g.part2Solved) && (f.isQuizSolved ==> g.isQuizSolved)
  }

  /** The solved flags never go back to false. */
  lemma SolvedMonotone(f: Flags, accepted: bool)
    ensures KeepsSolved(f, AfterPart1(f, accepted))
    ensures KeepsSolved(f, AfterPart2(f, accepted))
    ensures KeepsSolved(f, AfterQuiz(f, accepted))
  {
  }

  /** The two parts of mission '1' may be checked in either order. */
  lemma PartsCommute(f: Flags, a1: bool, a2: bool)
    ensures AfterPart2(AfterPart1(f, a1), a2) == AfterPart1(AfterPart2(f, a2), a1)
  {
  }

  /** Whichever part succeeds second solves the quiz; a part that succeeds
      while the other is still open does not. */
  lemma SecondPartSolves(f: Flags)
    ensures f.part2Solved ==> AfterPart1(f, true).isQuizSolved
    ensures f.part1Solved ==> AfterPart2(f, true).isQuizSolved
    ensures !f.isQuizSolved && !f.part2Solved ==> !AfterPart1(f, true).isQuizSolved
    ensures !f.isQuizSolved && !f.part1Solved ==> !AfterPart2(f, true).isQuizSolved
  {
  }

  /** One press of a check button and whether its input was accepted. */
  datatype Check = Part1Check(accepted: bool) | Part2Check(accepted: bool) | QuizCheck(accepted: bool)

  function Apply(f: Flags, c: Check): Flags
  {
    match c
    case Part1Check(a) => AfterPart1(f, a)
    case Part2Check(a) => AfterPart2(f, a)
    case QuizCheck(a) => AfterQuiz(f, a)
  }

  /** The flags after a series of checks, in order. */
  function Run(f: Flags, cs: seq<Check>): Flags
    decreases |cs|
  {
    if cs == [] then f else Run(Apply(f, cs[0]), cs[1..])
  }

  /** The two-part rule of mission '1': from flags in which the quiz is
      solved exactly when both parts are, any series of part checks leaves
      each part solved iff it was, or one of its checks passed, and the quiz
      solved iff both parts are, whatever the order. */
  lemma {:induction false} MissionOneRun(f: Flags, cs: seq<Check>)
    requires forall i :: 0 <= i < |cs| ==> !cs[i].QuizCheck?
    requires f.isQuizSolved == (f.part1Solved && f.part2Solved)
    ensures Run(f, cs).part1Solved == (f.part1Solved || Part1Check(true) in cs)
    ensures Run(f, cs).part2Solved == (f.part2Solved || Part2Check(true) in cs)
    ensures Run(f, cs).isQuizSolved == (Run(f, cs).part1Solved && Run(f, cs).part2Solved)
    decreases |cs|
  {
    if cs != [] {
      var g := Apply(f, cs[0]);
      assert forall i :: 0 <= i < |cs[1..]| ==> cs[1..][i] == cs[i + 1];
      MissionOneRun(g, cs[1..]);
      assert cs == [cs[0]] + cs[1..];
      assert forall c :: c in cs <==> c == cs[0] || c in cs[1..];
    }
  }

  /** The session before the restore effect: the mission's prompt hint and
      otherwise empty fields. */
  function Fresh(p: Puzzle): (r: Progress)
    ensures !r.part1Solved && !r.part2Solved && !r.isQuizSolved
    ensures r.heights == EmptyHeights && r.reason == "" && r.quizInput == "" && r.uploadedImage == None
    ensures r.select1 == "" && r.select2 == ""
    ensures r.imageDescription == p.promptHint
  {
    Progress(EmptyHeights, "", "", "", "", p.promptHint, None, false, false, false)
  }

  /** A saved text is restored only when it is non-empty. */
  function KeepText(current: string, saved: string): (r: string)
    ensures saved != "" ==> r == saved
    ensures r == "" <==> current == "" && saved == ""
  {
    if saved != "" then saved else current
  }

  /** Loads a saved snapshot over the session `d`: the heights always, each
      text and the image only when present and non-empty, each solved flag
      only when true. */
  function Load(d: Progress, s: Progress): (r: Progress)
    ensures r.heights == s.heights
    ensures r.part1Solved == (d.part1Solved || s.part1Solved)
    ensures r.part2Solved == (d.part2Solved || s.part2Solved)
    ensures r.isQuizSolved == (d.isQuizSolved || s.isQuizSolved)
    ensures
      && s.reason != "" && s.quizInput != "" && s.select1 != "" && s.select2 != "" && s.imageDescription != ""
      && s.uploadedImage.Some? && s.uploadedImage.value != ""
      && (d.part1Solved ==> s.part1Solved) && (d.part2Solved ==> s.part2Solved) && (d.isQuizSolved ==> s.isQuizSolved)
      ==> r == s
  {
    Progress(
      s.heights,
      KeepText(d.reason, s.reason),
      KeepText(d.quizInput, s.quizInput),
      KeepText(d.select1, s.select1),
      KeepText(d.select2, s.select2),
      KeepText(d.imageDescription, s.imageDescription),
      if s.uploadedImage.Some? && s.uploadedImage.value != "" then s.uploadedImage else d.uploadedImage,
      d.part1Solved || s.part1Solved,
      d.part2Solved || s.part2Solved,
      d.isQuizSolved || s.isQuizSolved)
  }

  /** The session after the restore effect, given the saved snapshot if any
      and whether the mission is already completed. */
  function Restore(p: Puzzle, init: Option<Progress>, isCompleted: bool): (r: Progress)
    ensures isCompleted ==> r.part1Solved && r.part2Solved && r.isQuizSolved
    ensures p.quiz.None? ==> r.isQuizSolved
    ensures init.None? && !isCompleted && p.quiz.Some? ==> r == Fresh(p)
    ensures init.None? ==> r.heights == EmptyHeights && r.reason == "" && r.quizInput == "" && r.uploadedImage == None
    ensures init.None? ==> r.select1 == "" && r.select2 == "" && r.imageDescription == p.promptHint
    ensures init.None? && !isCompleted ==> !r.part1Solved && !r.part2Solved && (r.isQuizSolved <==> p.quiz.None?)
  {
    var d := if init.Some? then Load(Fresh(p), init.value) else Fresh(p);
    if isCompleted then d.(part1Solved := true, part2Solved := true, isQuizSolved := true)
    else if p.quiz.None? then d.(isQuizSolved := true)
    else d
  }

  /** Restoring a snapshot gives back every saved non-empty field and every
      true solved flag; an empty text comes back as on a fresh session, and
      a flag is also raised by completion or by the absence of a quiz. */
  lemma RestoreSnapshot(p: Puzzle, s: Progress, isCompleted: bool)
    ensures var r := Restore(p, Some(s), isCompleted);
      && r.heights == s.heights
      && r.reason == s.reason && r.quizInput == s.quizInput
      && r.select1 == s.select1 && r.select2 == s.select2
      && r.imageDescription == (if s.imageDescription != "" then s.imageDescription else p.promptHint)
      && r.uploadedImage == (if s.uploadedImage == Some("") then None else s.uploadedImage)
      && r.part1Solved == (s.part1Solved || isCompleted)
      && r.part2Solved == (s.part2Solved || isCompleted)
      && r.isQuizSolved == (s.isQuizSolved || isCompleted || p.quiz.None?)
  {
  }

  /** Saving and reopening a mission is the identity on any snapshot with a
      description and no empty image whose flags already satisfy what the
      restore forces: the quiz flag for a mission without a quiz, all three
      for a completed mission. */
  lemma RestoreRoundTrip(p: Puzzle, s: Progress, isCompleted: bool)
    requires s.imageDescription != "" && s.uploadedImage != Some("")
    requires p.quiz.None? ==> s.isQuizSolved
    requires isCompleted ==> s.part1Solved && s.part2Solved && s.isQuizSolved
    ensures Restore(p, Some(s), isCompleted) == s
  {
    RestoreSnapshot(p, s, isCompleted);
  }

  /** A description cleared before leaving comes back as the prompt hint. */
  lemma RestoreRefillsClearedPrompt(p: Puzzle, s: Progress, isCompleted: bool)
    requires s.imageDescription == ""
    ensures Restore(p, Some(s), isCompleted).imageDescription == p.promptHint
  {
    RestoreSnapshot(p, s, isCompleted);
  }

  /** The four mountains of mission '1'. */
  datatype Mountain = Tiger | Leopard | Lion | Elephant

  function WithHeight(h: Heights, m: Mountain, v: string): Heights
  {
    match m
    case Tiger => h.(tiger := v)
    case Leopard => h.(leopard := v)
    case Lion => h.(lion := v)
    case Elephant => h.(elephant := v)
  }

  /** What the photo picker delivered: nothing chosen, the image data, or a
      read failure. */
  datatype FileRead = NoFile | Loaded(data: string) | ReadFailed

  /** The outcome of the remote image edit, which is not part of this model. */
  datatype EditOutcome = Edited(image: string) | EditFailed(message: string)

  const LoadFailedMessage: string := "Failed to load image."
  const EditFailedMessage: string := "Protocol Failed. Re-calibrate sensors."

  /** The state of one mounted ImageEditor. The component is mounted afresh
      each time a mission is opened, so `puzzle` and `isCompleted` are fixed
      for its lifetime. */
  class MissionEditor {
    const puzzle: Puzzle
    const isCompleted: bool
    var heights: Heights
    var reason: string
    var quizInput: string
    var select1: string
    var select2: string
    /** The image description, initialised from the mission's prompt hint. */
    var prompt: string
    var originalImage: Option<string>
    var resultImage: Option<string>
    var error: Option<string>
    var part1Solved: bool
    var part2Solved: bool
    var isQuizSolved: bool
    var part1Error: bool
    var part2Error: bool
    var showQuizError: bool
    var showSuccessModal: bool

    function CurrentFlags(): Flags
      reads this
    {
      Flags(part1Solved, part2Solved, isQuizSolved, part1Error, part2Error, showQuizError)
    }

    /** The snapshot built by `handleBack` and `handleFinalExit`. */
    function Snapshot(): Progress
      reads this
    {
      Progress(heights, reason, quizInput, select1, select2, prompt, originalImage, part1Solved, part2Solved, isQuizSolved)
    }

    ghost predicate Valid()
      reads this
    {
      && (isCompleted ==> part1Solved && part2Solved && isQuizSolved)
      && (puzzle.quiz.None? ==> isQuizSolved)
    }

    /** Mounting with the saved snapshot and completion status passed down
        by the ledger, followed by the restore effect. */
    constructor (p: Puzzle, init: Option<Progress>, completed: bool)
      ensures puzzle == p && isCompleted == completed
      ensures Valid()
      ensures Snapshot() == Restore(p, init, completed)
      ensures !part1Error && !part2Error && !showQuizError && !showSuccessModal
      ensures resultImage == None && error == None
    {
      var r := Restore(p, init, completed);
      puzzle, isCompleted := p, completed;
      heights, reason, quizInput, select1, select2 := r.heights, r.reason, r.quizInput, r.select1, r.select2;
      prompt, originalImage, resultImage, error := r.imageDescription, r.uploadedImage, None, None;
      part1Solved, part2Solved, isQuizSolved := r.part1Solved, r.part2Solved, r.isQuizSolved;
      part1Error, part2Error, showQuizError, showSuccessModal := false, false, false, false;
    }

    /** `verifyM1Part1`: `fieldSolved` reports the call to `onFieldSolved`. */
    method VerifyPart1() returns (fieldSolved: bool)
      requires Valid()
      modifies this`part1Solved, this`part1Error, this`isQuizSolved
      ensures Valid()
      ensures fieldSolved == Part1Accepted(heights)
      ensures CurrentFlags() == AfterPart1(old(CurrentFlags()), fieldSolved)
    {
      if CheckRange(heights.tiger, TigerBand) && CheckRange(heights.leopard, LeopardBand)
        && CheckRange(heights.lion, LionBand) && CheckRange(heights.elephant, ElephantBand)
      {
        part1Solved, part1Error := true, false;
        fieldSolved := true;
        if part2Solved {
          isQuizSolved := true;
        }
      } else {
        part1Error := true;
        fieldSolved := false;
      }
    }

    /** `verifyM1Part2`. */
    method VerifyPart2() returns (fieldSolved: bool)
      requires Valid()
      modifies this`part2Solved, this`part2Error, this`isQuizSolved
      ensures Valid()
      ensures fieldSolved == Part2Accepted(reason)
      ensures CurrentFlags() == AfterPart2(old(CurrentFlags()), fieldSolved)
    {
      var r := Trim(reason);
      if ContainsAny(r, HighKeywords) && ContainsAny(r, LowKeywords) {
        part2Solved, part2Error := true, false;
        fieldSolved := true;
        if part1Solved {
          isQuizSolved := true;
        }
      } else {
        part2Error := true;
        fieldSolved := false;
      }
    }

    /** `handleQuizVerify`: nothing happens for a mission without a quiz. */
    method VerifyQuiz() returns (fieldSolved: bool)
      requires Valid()
      modifies this`isQuizSolved, this`showQuizError
      ensures Valid()
      ensures puzzle.quiz.None? ==> !fieldSolved && CurrentFlags() == old(CurrentFlags())
      ensures puzzle.quiz.Some? ==>
        && fieldSolved == QuizAccepted(puzzle, quizInput, select1, select2)
        && CurrentFlags() == AfterQuiz(old(CurrentFlags()), fieldSolved)
    {
      if puzzle.quiz.None? {
        return false;
      }
      var isCorrect := false;
      if puzzle.id == "3" {
        if (select1 == Dense && select2 == Tired) || (select1 == Sparse && select2 == NotTired) {
          isCorrect := true;
        }
      } else {
        var input := Trim(quizInput);
        var target := puzzle.quiz.value.answer;
        isCorrect := input == target || Contains(input, target);
        if puzzle.id == "2" && Contains(input, NangangEscape) {
          isCorrect := true;
        }
      }
      if isCorrect {
        isQuizSolved, showQuizError := true, false;
      } else {
        showQuizError := true;
      }
      fieldSolved := isCorrect;
    }

    /** `handleBack`: the snapshot handed to `onBack`. */
    method Back() returns (snapshot: Progress)
      ensures snapshot == Snapshot()
    {
      snapshot := Progress(heights, reason, quizInput, select1, select2, prompt, originalImage, part1Solved, part2Solved, isQuizSolved);
    }

    /** `handlePreComplete`: the success dialog is opened. */
    method PreComplete()
      requires Valid()
      modifies this`showSuccessModal
      ensures Valid() && showSuccessModal
    {
      showSuccessModal := true;
    }

    /** `handleFinalExit`: a side mission first reports progress, then the
        snapshot is handed to `onComplete`. */
    method FinalExit() returns (sideProgress: bool, data: Progress)
      ensures sideProgress == (puzzle.kind == Side)
      ensures data == Snapshot()
    {
      sideProgress := puzzle.kind == Side;
      data := Snapshot();
    }

    /** The side mission's "upload the next one" button: the dialog closes,
        both images are dropped and progress is reported (the report is the
        caller's). */
    method UploadAnother()
      requires Valid()
      modifies this`showSuccessModal, this`originalImage, this`resultImage
      ensures Valid()
      ensures !showSuccessModal && originalImage == None && resultImage == None
    {
      showSuccessModal, originalImage, resultImage := false, None, None;
    }

    /** `handleFileChange`, with the file already read; the picker is
        disabled on a completed mission. */
    method AttachImage(read: FileRead)
      requires Valid()
      modifies this`originalImage, this`resultImage, this`error
      ensures Valid()
      ensures isCompleted || read.NoFile? ==>
        originalImage == old(originalImage) && resultImage == old(resultImage) && error == old(error)
      ensures !isCompleted && read.Loaded? ==>
        originalImage == Some(read.data) && resultImage == None && error == None
      ensures !isCompleted && read.ReadFailed? ==>
        originalImage == old(originalImage) && resultImage == old(resultImage) && error == Some(LoadFailedMessage)
    {
      if isCompleted {
        return;
      }
      match read
      case NoFile =>
      case Loaded(data) =>
        originalImage, resultImage, error := Some(data), None, None;
      case ReadFailed =>
        error := Some(LoadFailedMessage);
    }

    /** The refresh button beside the photo: the photo is removed. */
    method ClearImage()
      requires Valid()
      modifies this`originalImage
      ensures Valid()
      ensures originalImage == if isCompleted then old(originalImage) else None
    {
      if !isCompleted {
        originalImage := None;
      }
    }

    /** `handleGenerate`, with the remote edit's outcome given: nothing
        happens without a photo or a description. */
    method Generate(outcome: EditOutcome)
      requires Valid()
      modifies this`resultImage, this`error
      ensures Valid()
      ensures originalImage.None? || originalImage == Some("") || prompt == "" ==>
        resultImage == old(resultImage) && error == old(error)
      ensures originalImage.Some? && originalImage != Some("") && prompt != "" ==>
        match outcome
        case Edited(image) => resultImage == Some(image) && error == None
        case EditFailed(message) =>
          resultImage == old(resultImage) && error == Some(if message != "" then message else EditFailedMessage)
    {
      if originalImage.None? || originalImage.value == "" || prompt == "" {
        return;
      }
      error := None;
      match outcome
      case Edited(image) =>
        resultImage := Some(image);
      case EditFailed(message) =>
        error := Some(if message != "" then message else EditFailedMessage);
    }

    /** Typing a height; the inputs are locked once Part 1 is solved. */
    method EditHeight(m: Mountain, v: string)
      requires Valid()
      modifies this`heights
      ensures Valid()
      ensures heights == if part1Solved || isCompleted then old(heights) else WithHeight(old(heights), m, v)
    {
      if !(part1Solved || isCompleted) {
        heights := WithHeight(heights, m, v);
      }
    }

    /** Typing the Part 2 reason; locked once Part 2 is solved. */
    method EditReason(v: string)
      requires Valid()
      modifies this`reason
      ensures Valid()
      ensures reason == if part2Solved || isCompleted then old(reason) else v
    {
      if !(part2Solved || isCompleted) {
        reason := v;
      }
    }

    /** Typing the text answer; locked once the quiz is solved. */
    method EditQuizInput(v: string)
      requires Valid()
      modifies this`quizInput
      ensures Valid()
      ensures quizInput == if isQuizSolved || isCompleted then old(quizInput) else v
    {
      if !(isQuizSolved || isCompleted) {
        quizInput := v;
      }
    }

    /** Choosing in the two drop-downs of mission '3'; locked once solved. */
    method EditSelections(v1: string, v2: string)
      requires Valid()
      modifies this`select1, this`select2
      ensures Valid()
      ensures isQuizSolved || isCompleted ==> select1 == old(select1) && select2 == old(select2)
      ensures !(isQuizSolved || isCompleted) ==> select1 == v1 && select2 == v2
    {
      if !(isQuizSolved || isCompleted) {
        select1, select2 := v1, v2;
      }
    }

    /** Editing the image description; locked on a completed mission. */
    method EditPrompt(v: string)
      requires Valid()
      modifies this`prompt
      ensures Valid()
      ensures prompt == if isCompleted then old(prompt) else v
    {
      if !isCompleted {
        prompt := v;
      }
    }
  }
}
