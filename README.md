# Field-game progression and mission verification, modelled in Dafny

The game is a geology treasure hunt. A team walks to the missions on a map. It answers each mission's quiz in an editor screen, attaches a photo and finalises the mission. Each finalisation earns experience points (XP), costs mana and, for a main mission, yields a map fragment.

This project models the two pieces of sequential logic behind that:

- **The progression ledger of `App.tsx`** (`Progression.Game`). It holds:
  - XP, and the level and rank derived from it;
  - mana, floored at zero;
  - the completed main missions, which are append-only and free of duplicates;
  - the collected fragments;
  - the saved snapshot of each mission;
  - the tutorial stepper.

  Every React handler is one atomic transition that reads the pre-state.
- **The in-mission session of `components/ImageEditor.tsx`** (`Editor.MissionEditor`). It covers:
  - the answers typed so far;
  - the solved and error flags, and how they combine into `isQuizSolved`;
  - the snapshot handed back on leaving or finishing;
  - the restore effect that reloads that snapshot when the mission is opened again.

The accept/reject rules of the quiz are pure predicates in module `Quiz`:
- the numeric band check;
- the four heights and the keyword test of mission `'1'`;
- the pair rule of mission `'3'`;
- the containment rule with mission `'2'`'s escape phrase.

They are built on module `Text`, which models the JavaScript string primitives they use: `replace(/[^0-9]/g, '')`, `parseInt` on the digits that remain, `trim`, and `includes`.

Module `Missions` holds the mission catalogue (`SAMPLE_PUZZLES` and `SIDE_MISSIONS`) and the snapshot record. Module `Flow` wires an editor to the ledger exactly as `App.tsx` mounts it: the `initialState` and `isCompleted` props, and the `onBack`, `onFieldSolved`, `onSideMissionProgress` and `onComplete` callbacks.

Three details of the code shape the model:
- **How the quiz rule is chosen.** The code picks the rule by mission id; the mission records carry no kind of quiz. Mission `'1'` renders the two-part check, `'3'` the pair rule, and every other mission the text rule.
- **`nextLevelXp`.** The code sets it once in `INITIAL_STATS` and never recomputes it, so it plays no part in the level, which is derived from XP alone.
- **The keywords of `ImageEditor.tsx`.** They are stored mis-decoded: UTF-8 bytes read as Mac Roman, for example `È´ò` where 高 is meant. The model copies every keyword and option value exactly as written. `Quiz.IntendedKeywordsRejected` shows the consequence: a Part 2 reason typed with the intended characters is rejected. The escape phrase of mission `'2'` is stored the same way, so `Quiz.IntendedEscapeRejected` shows that 南港 typed on its own is rejected. The same holds for the pair options, which the same file's `<option>` values also store mis-decoded, so the two sides agree with each other.

## Model

| member | source | states |
|---|---|---|
| Missions.CatalogueWellFormed | App.tsx:11-81 | No two missions share an id. Every main mission carries a fragment id of 0 or more, and no two main missions share one. The side mission carries -1. |
| Text.StripNonDigits | components/ImageEditor.tsx:119 | The result of deleting every non-digit is all digits and never longer than the input. |
| Text.StripAppend | components/ImageEditor.tsx:119 | Deleting non-digits distributes over concatenation. |
| Text.StripKeepsDigits | components/ImageEditor.tsx:119 | A string of digits is left as it is. |
| Text.StripDropsNonDigits | components/ImageEditor.tsx:119 | A string without digits becomes empty. |
| Text.ParseDigits | components/ImageEditor.tsx:119-120 | `parseInt` of the digits that remain yields NaN exactly when none remain. |
| Text.DecimalRoundTrip | components/ImageEditor.tsx:119-120 | Parsing the decimal text of any natural number gives that number back. |
| Text.LeadingZero | components/ImageEditor.tsx:119-120 | A leading zero does not change the value parsed. |
| Text.Trim | components/ImageEditor.tsx:142 | `trim` never lengthens its input, and what it returns neither starts nor ends with white space. |
| Text.TrimSpec | components/ImageEditor.tsx:142 | `trim` returns the slice of the input left after removing the leading and trailing ECMAScript white space and line terminators. What it returns neither starts nor ends with such a character. |
| Text.TrimPadded | components/ImageEditor.tsx:174 | Trimming white space padded around a string that does not start or end with white space gives back that string. |
| Text.TrimIdempotent | components/ImageEditor.tsx:142 | Trimming twice is trimming once. |
| Text.Contains | components/ImageEditor.tsx:143-144 | `includes` of the empty pattern always holds, and the empty string includes only the empty pattern. |
| Text.ContainsIff | components/ImageEditor.tsx:177 | `includes` holds iff the pattern occurs at some index. |
| Text.ContainsInfix | components/ImageEditor.tsx:177 | A string contains every infix of itself. |
| Text.ContainsNoLonger | components/ImageEditor.tsx:180 | No string contains a longer one. |
| Text.ContainsSurvivesTrim | components/ImageEditor.tsx:142-144 | A pattern that neither starts nor ends with white space and occurs in a string still occurs after the string is trimmed. |
| Text.ContainsAnyIff | components/ImageEditor.tsx:143-144 | A disjunction of `includes` tests holds iff one of the keywords occurs. |
| Quiz.CheckRange | components/ImageEditor.tsx:118-121 | An accepted value holds at least one digit, and its band is not empty. |
| Quiz.CheckRangeDecorated | components/ImageEditor.tsx:118-121 | For the digits of a number n surrounded by digit-free text, the band check accepts iff n lies in the inclusive band. |
| Quiz.CheckRangeNeedsDigits | components/ImageEditor.tsx:118-121 | Input without digits is rejected. |
| Quiz.CheckRangeAcceptsSuffixed | components/ImageEditor.tsx:118-121 | In [135,145], "138m" is accepted: the unit is dropped before parsing. |
| Quiz.CheckRangeRejectsAbove | components/ImageEditor.tsx:118-121 | In [135,145], "200" is rejected. |
| Quiz.CheckRangeRejectsLetters | components/ImageEditor.tsx:118-121 | "abc" is rejected, since no digits remain to parse. |
| Quiz.Part1Accepted | components/ImageEditor.tsx:123-126 | Part 1 accepts only when none of the four heights is left empty. |
| Quiz.Part1AcceptsAnswer | components/ImageEditor.tsx:122-126 | The heights 138, 141, 151 and 183 pass the four-band check of Part 1. |
| Quiz.Part1RejectsOutOfBand | components/ImageEditor.tsx:122-126 | Heights with the elephant at 200, outside [180,188], fail Part 1 although the other three are in band. |
| Quiz.Part2Accepted | components/ImageEditor.tsx:141-146 | A reason that is empty or all white space is never accepted. |
| Quiz.Part2AcceptedIff | components/ImageEditor.tsx:141-146 | Part 2 accepts iff the trimmed reason contains one of the two "high" keywords and one of the four "low" keywords. |
| Quiz.Part2AcceptsBothConcepts | components/ImageEditor.tsx:141-146 | Any reason containing some high keyword and some low keyword is accepted, in either order and with any surrounding text or white space, since no keyword starts or ends with white space. |
| Quiz.Part2AcceptsBareKeywords | components/ImageEditor.tsx:141-146 | A reason made of just a high keyword and a low keyword, in either order, is accepted. |
| Quiz.IntendedKeywordsRejected | components/ImageEditor.tsx:143-144 | A reason written with the intended characters 高山低窪 is rejected, because the keywords are stored mis-decoded. |
| Quiz.PairAccepted | components/ImageEditor.tsx:166-171 | An accepted pair has both selections made, and the first is the dense option exactly when the second is the tired one. |
| Quiz.PairRule | components/ImageEditor.tsx:166-171 | (dense, tired) and (sparse, not tired) are accepted. The cross pairs and any empty selection are rejected. |
| Quiz.TextAccepted | components/ImageEditor.tsx:172-182 | Outside mission '2', an accepted input is, once trimmed, at least as long as the answer. |
| Quiz.TextAcceptedIff | components/ImageEditor.tsx:172-182 | The text rule accepts iff the trimmed input contains the answer, or, for mission '2', the escape phrase. The equality test adds nothing. |
| Quiz.TextAcceptsContaining | components/ImageEditor.tsx:174-178 | With answer 南港層, the input 我覺得是南港層 is accepted. |
| Quiz.TextRejectsOther | components/ImageEditor.tsx:174-182 | With answer 南港層, the input 北港層 is rejected. |
| Quiz.TextIgnoresPadding | components/ImageEditor.tsx:174 | White space around the answer is ignored. |
| Quiz.QuizAccepted | components/ImageEditor.tsx:160-183 | For mission '3' an accepted answer has both selections made. For missions other than '2' and '3' the trimmed input is at least as long as the answer. |
| Quiz.IntendedEscapeRejected | components/ImageEditor.tsx:179-182 | Mission '2' rejects the intended 南港 typed on its own, because the escape phrase is stored mis-decoded. |
| Quiz.CatalogueQuizzes | components/ImageEditor.tsx:160-182 | Mission '3' is judged only by the pair rule and ignores the text box. Mission '2' accepts any input containing 南港層 or the escape phrase. |
| Progression.LevelFor | App.tsx:196 | The level is at least 1, and currentXp lies in [(level-1)*500, level*500). |
| Progression.LevelForUnique | App.tsx:196 | Only one level has an XP window containing a given XP. |
| Progression.LevelForMonotone | App.tsx:196 | More XP never gives a lower level. |
| Progression.RankTier | App.tsx:160-165 | The rank tier is one of the four titles. |
| Progression.RankTitle | App.tsx:160-165 | The rank shown for any level is one of the four titles. |
| Progression.RankTierMonotone | App.tsx:160-165 | A higher level never has a lower rank. |
| Progression.RankTitleDeterminesTier | App.tsx:160-165 | Two levels show the same title iff they have the same tier, because the four titles are distinct. |
| Progression.RankForXp | App.tsx:160-165 | Measured in XP, the tier is xp/500 below 1500 and 3 from then on. |
| Progression.SpendMana | App.tsx:242 | Mana after a cost is never negative. It is the difference when mana covers the cost, and 0 otherwise. |
| Progression.SpendManaTwice | App.tsx:242 | Two spends in a row equal one spend of the sum. |
| Progression.AppendUnique | App.tsx:231 | Appending to the completed ids keeps them free of duplicates. The old list stays a prefix, and the elements are the old ones plus the new id. |
| Progression.Collect | App.tsx:246-249 | The fragment list is either left as it was or extended by the mission's fragment id when that id was not yet collected. A mission with a fragment always has it collected afterwards, and one without (-1) leaves the list unchanged. |
| Progression.FragmentsOfGrows | App.tsx:247-249 | Completing more missions never loses a fragment id. |
| Progression.CompletionKeepsLedger | App.tsx:230-249 | The first completion of a main mission keeps the ledger invariant. Completed ids and fragments stay free of duplicates, and every completed id is a main mission's. The fragments are exactly those of the completed main missions: every fragment belongs to one, and every completed main mission with a fragment has it collected. |
| Progression.FieldBonusApplies | App.tsx:188-192 | The field bonus is refused while the active mission is a side mission or a completed one. |
| Progression.NoBonusAfterCompletion | App.tsx:191-192 | A mission in the completed ids earns no field bonus. |
| Progression.Game.constructor | App.tsx:84-92 | The initial stats are level 1, 0 XP, the first title and 75 mana. Nothing is completed or saved, and the view is the intro. |
| Progression.Game.IntroStart | App.tsx:291-294 | The team name is stored and the map is shown. |
| Progression.Game.ViewChanged | App.tsx:150-157 | On the map, a tutorial not yet seen is opened. |
| Progression.Game.CloseTutorial | App.tsx:167-170 | The tutorial is marked as seen and hidden. |
| Progression.Game.NextTutorialStep | App.tsx:172-178 | The step advances through the three steps, and the last step closes the tutorial. The step stays below 3. |
| Progression.Game.SelectPuzzle | App.tsx:180-184 | The chosen mission becomes active and the editor is shown. |
| Progression.Game.AwardXp | App.tsx:193-203 | XP grows by exactly the amount. Level and rank are recomputed from the new total, so the ledger invariant holds. |
| Progression.Game.FieldSolved | App.tsx:188-204 | XP grows by exactly 100, unless the active mission is a side mission or already completed, in which case nothing changes. Mana is untouched. |
| Progression.Game.ImageComplete | App.tsx:206-256 | The snapshot is stored under the active id. A side mission's entry is deleted and nothing else changes. A main mission's first completion appends its id, adds its reward, spends 15 mana and adds its fragment when there is one and it is new. A repeat completion changes only the snapshot. The invariants are kept: level from XP, mana in [0,100], no duplicates, and the fragments are exactly those of the completed main missions. |
| Progression.Game.CompleteMain | App.tsx:230-249 | The first completion of a main mission, as described for `ImageComplete`. |
| Progression.Game.SaveSnapshot | App.tsx:209-214 | The snapshot replaces the entry for the id, and every other entry stays as it was. |
| Progression.Game.DropSnapshot | App.tsx:218-222 | The entry for the id is removed, and every other entry stays as it was. |
| Progression.Game.ReturnToMap | App.tsx:252-254 | The editor is closed and the map is shown. |
| Progression.Game.EditorBack | App.tsx:259-268 | The snapshot is stored under the active id. No other entry and no stat changes. |
| Progression.Game.SideMissionProgress | App.tsx:271-289 | A side mission earns its reward and spends 15 mana every time, and is never marked as completed. A main mission changes nothing. |
| Editor.AfterPart1 | components/ImageEditor.tsx:123-138 | After a Part 1 check, Part 1 is solved iff it was or the check passed. Part 2 is unchanged. The quiz becomes solved iff the check passed while Part 2 was solved. The Part 1 error shows iff the check failed, and the other two error flags are unchanged. |
| Editor.AfterPart2 | components/ImageEditor.tsx:141-157 | The same for Part 2, with the roles of the two parts exchanged. |
| Editor.AfterQuiz | components/ImageEditor.tsx:185-191 | After a quiz check, the quiz is solved iff it was or the answer was accepted. The part flags and the part errors are unchanged, and the quiz error shows iff the answer was rejected. |
| Editor.RejectionKeepsSolved | components/ImageEditor.tsx:136-138 | A rejected check raises only its own error flag. |
| Editor.SolvedMonotone | components/ImageEditor.tsx:127-135 | No check ever lowers a solved flag. |
| Editor.PartsCommute | components/ImageEditor.tsx:122-158 | The two parts of mission '1' can be checked in either order with the same result. |
| Editor.SecondPartSolves | components/ImageEditor.tsx:133-135 | Whichever part succeeds second sets `isQuizSolved`. A part that succeeds while the other is open does not. |
| Editor.MissionOneRun | components/ImageEditor.tsx:122-158 | After any series of part checks, a part is solved iff one of its checks passed. The quiz is solved iff both parts are, whatever the order. |
| Editor.Fresh | components/ImageEditor.tsx:74-89 | A fresh session has nothing solved, empty heights, reason, answer and selections, no image, and the prompt hint as its description. |
| Editor.KeepText | components/ImageEditor.tsx:51-56 | A non-empty saved text is restored. An empty one leaves the current text, so the result is empty only when both are. |
| Editor.Load | components/ImageEditor.tsx:49-63 | Loading a snapshot restores its heights and keeps every solved flag that either side had raised. A snapshot whose texts and image are all non-empty, and whose flags include the current ones, is loaded exactly. |
| Editor.Restore | components/ImageEditor.tsx:44-97 | Completion forces all three solved flags. A mission without a quiz starts solved. Without a snapshot, the heights, reason, answer and both selections start empty, there is no image, and the description is the prompt hint. Without a snapshot and not completed, no part is solved, and the quiz is solved exactly when the mission has none. |
| Editor.RestoreSnapshot | components/ImageEditor.tsx:49-63 | Restoring a snapshot gives back the heights, every saved text and image and every true flag. An empty description comes back as the prompt hint. |
| Editor.RestoreRoundTrip | components/ImageEditor.tsx:44-115 | Restoring the snapshot taken on leaving reproduces it exactly, given a description and no empty image. |
| Editor.RestoreRefillsClearedPrompt | components/ImageEditor.tsx:45-56 | A description cleared before leaving comes back as the prompt hint. |
| Editor.MissionEditor.constructor | components/ImageEditor.tsx:17-97 | Mounting plus the restore effect gives the session `Restore` describes, with no error and the dialog closed. |
| Editor.MissionEditor.VerifyPart1 | components/ImageEditor.tsx:117-139 | The bonus callback is reported iff all four heights are in band, and the flags move as `AfterPart1` says. |
| Editor.MissionEditor.VerifyPart2 | components/ImageEditor.tsx:141-158 | The bonus callback is reported iff the reason passes the keyword test, and the flags move as `AfterPart2` says. |
| Editor.MissionEditor.VerifyQuiz | components/ImageEditor.tsx:160-192 | Without a quiz nothing happens. Otherwise the bonus callback is reported iff the answer is accepted. A wrong answer only raises the quiz error. |
| Editor.MissionEditor.Back | components/ImageEditor.tsx:100-115 | The snapshot holds the current fields and flags. |
| Editor.MissionEditor.PreComplete | components/ImageEditor.tsx:229-231 | The success dialog is opened. |
| Editor.MissionEditor.FinalExit | components/ImageEditor.tsx:234-254 | A side mission reports progress, and the current snapshot is handed on. |
| Editor.MissionEditor.UploadAnother | components/ImageEditor.tsx:689-695 | The dialog closes and both images are dropped. |
| Editor.MissionEditor.AttachImage | components/ImageEditor.tsx:194-205 | A loaded file replaces the photo and clears the result and the error. A read failure sets the error message. A completed mission ignores the picker. |
| Editor.MissionEditor.ClearImage | components/ImageEditor.tsx:555-557 | The photo is removed, except on a completed mission. |
| Editor.MissionEditor.Generate | components/ImageEditor.tsx:207-221 | Without a photo or a description nothing happens. An edit sets the result. A failure sets its message, or the default one when the message is empty. |
| Editor.MissionEditor.EditHeight | components/ImageEditor.tsx:343-347 | One height changes, unless Part 1 is solved or the mission is completed. |
| Editor.MissionEditor.EditReason | components/ImageEditor.tsx:386-390 | The reason changes, unless Part 2 is solved or the mission is completed. |
| Editor.MissionEditor.EditQuizInput | components/ImageEditor.tsx:456-461 | The text answer changes, unless the quiz is solved or the mission is completed. |
| Editor.MissionEditor.EditSelections | components/ImageEditor.tsx:415-430 | The selections change, unless the quiz is solved or the mission is completed. |
| Editor.MissionEditor.EditPrompt | components/ImageEditor.tsx:589-593 | The description changes, unless the mission is completed. |
| Flow.SavedFor | App.tsx:652 | The `initialState` prop is present iff a snapshot is stored under the id, and is that snapshot. |
| Flow.Open | App.tsx:645-654 | Selecting a mission mounts an editor restored from its stored snapshot and its completion status, with every error flag, the edited image and the error message cleared and the dialog closed. |
| Flow.Leave | App.tsx:259-268 | Going back stores exactly the editor's snapshot under the mission id. |
| Flow.LeaveAndReopen | App.tsx:645-654 | Leaving a mission and reopening it gives back the same snapshot (answers, description, photo and solved flags), provided its description is not empty and it holds no empty image. The error flags, the edited image and the error message start cleared. |
| Flow.CheckPart1 | components/ImageEditor.tsx:127-128 | A passing Part 1 check earns the 100 XP field bonus when the bonus applies, and a failing one earns nothing. |
| Flow.CheckPart2 | components/ImageEditor.tsx:146-147 | The same for Part 2. |
| Flow.CheckQuiz | components/ImageEditor.tsx:185-188 | The same for the quiz. |
| Flow.CompletedEarnsNoBonus | App.tsx:191 | No check in a completed mission's editor earns XP. |
| Flow.Finish | components/ImageEditor.tsx:234-254 | Finishing a side mission earns its reward once, spends mana and clears its snapshot. Finishing a main mission stores the snapshot. The first time it completes the mission, earns the reward, spends mana and collects the mission's fragment as `Collect` describes. Later times change no stat. |
| Flow.ReportAnother | components/ImageEditor.tsx:689-695 | Each further side report earns the reward again and spends mana, without completing anything. |

## Left out

- The map's fog of war, distance computation and GPS status: they live in the map component, which is not part of this model, and use floating point.
- The image-editing service (`services/geminiService.ts`) is a network call. `Editor.MissionEditor.Generate` takes its outcome as a parameter, and `AttachImage` takes the file reader's outcome as a parameter.
- The `loading` flag of `handleGenerate`: it only spans the awaited network call, and there is no concurrency in the model.
- The intro screen's team-name gate (components/IntroScreen.tsx is not part of this model). `Progression.Game.IntroStart` accepts any name.
- The one-second clock, all rendering, the modal toggles (manual, fragment map, side list, encyclopedia), `sosCount`, `nextLevelXp` and `rankRequirement`. None of them takes part in the progression rules.
- `localStorage`. The "tutorial seen" flag is the field `hasSeenTutorial`, and the constructor takes its stored value as a parameter.
- The mission titles, descriptions, difficulty and coordinates. They only feed rendering and the map.
- JavaScript numbers are modelled as unbounded integers. XP values stay far below 2^53, so no rounding occurs. `parseInt` on a very long digit string rounds above 2^53, or gives Infinity; this changes no band outcome, because such values and their rounded forms all lie above every band's upper end (188), and the rounding is monotone.
- `maxMana` (100) is set in `INITIAL_STATS` and never read. The model keeps 100 only as the bound `mana <= 100` in `Progression.Game.Valid`, which holds because mana starts at 75 and only decreases.
- The render gating of the buttons: the check buttons (for example Part 1's button shows only while Part 1 is unsolved), the photo picker (rendered only while no photo is attached, components/ImageEditor.tsx:516-542) and the finish buttons that open the success dialog. The handlers, including `Editor.MissionEditor.AttachImage` and `Editor.MissionEditor.PreComplete`, are modelled as callable in any state. `Flow.CompletedEarnsNoBonus` states the guard that keeps a completed mission from earning XP.
