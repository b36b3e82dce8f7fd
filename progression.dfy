/** The player progression ledger and the mission finalisation handlers of
    App.tsx: XP, level and rank, mana, the completed main missions, the
    collected fragments, the per-mission progress store and the tutorial
    stepper. */
module Progression {

  import opened Missions

  const XpPerLevel: nat := 500
  /** XP for each quiz field answered correctly in a main mission. */
  const FieldBonus: nat := 100
  /** Mana spent on each main first-completion and each side report. */
  const ManaCost: nat := 15
  const MaxMana: int := 100
  const InitialMana: int := 75
  const TutorialStepCount: nat := 3

  /** The rank titles, lowest tier first. */
  const RankTitles: seq<string> := ["小小地質學家", "地形線索搜查員", "地質現象調查員", "永春大地守護者"]

  /** The level reached with `xp` points: one level per 500 XP, from 1. */
  function LevelFor(xp: nat): (level: nat)
    ensures level >= 1
    ensures (level - 1) * XpPerLevel <= xp < level * XpPerLevel
  {
    xp / XpPerLevel + 1
  }

  /** The level is the only one whose XP window holds `xp`. */
  lemma LevelForUnique(xp: nat, level: int)
    requires level >= 1 && (level - 1) * XpPerLevel <= xp < level * XpPerLevel
    ensures level == LevelFor(xp)
  {
  }

  /** More XP never means a lower level. */
  lemma LevelForMonotone(xp: nat, xp': nat)
    requires xp <= xp'
    ensures LevelFor(xp) <= LevelFor(xp')
  {
  }

  /** The tier of the rank title for a level: `getRankTitle`. */
  function RankTier(level: int): (tier: nat)
    ensures tier < |RankTitles|
  {
    if level <= 1 then 0 else if level == 2 then 1 else if level == 3 then 2 else 3
  }

  function RankTitle(level: int): (r: string)
    ensures r in RankTitles
  {
    RankTitles[RankTier(level)]
  }

  /** A higher level never has a lower rank. */
  lemma RankTierMonotone(level: int, level': int)
    requires level <= level'
    ensures RankTier(level) <= RankTier(level')
  {
  }

  /** The titles are distinct, so the title shown names the tier. */
  lemma RankTitleDeterminesTier(level: int, level': int)
    ensures RankTitle(level) == RankTitle(level') <==> RankTier(level) == RankTier(level')
  {
    assert RankTitles[0][0] != RankTitles[1][0];
    assert RankTitles[1][1] != RankTitles[2][1];
    assert RankTitles[1][1] != RankTitles[3][1];
    assert RankTitles[0][0] != RankTitles[2][0];
    assert RankTitles[0][0] != RankTitles[3][0];
    assert RankTitles[2][1] != RankTitles[3][1];
  }

  /** Measured in XP: every 500 points raise the rank by one tier until the
      fourth tier, reached at 1500 XP, which is the last. */
  lemma RankForXp(xp: nat)
    ensures RankTier(LevelFor(xp)) == if xp < 3 * XpPerLevel then xp / XpPerLevel else 3
  {
  }

  /** `Math.max(0, mana - cost)`. */
  function SpendMana(mana: int, cost: nat): (r: int)
    ensures r >= 0
    ensures mana >= cost ==> r == mana - cost
    ensures mana < cost ==> r == 0
  {
    if mana - cost > 0 then mana - cost else 0
  }

  /** Spending twice is spending the sum once. */
  lemma SpendManaTwice(mana: int, a: nat, b: nat)
    requires mana >= 0
    ensures SpendMana(SpendMana(mana, a), b) == SpendMana(mana, a + b)
  {
  }

  predicate NoDup<T(==)>(s: seq<T>)
  {
    forall i, j :: 0 <= i < j < |s| ==> s[i] != s[j]
  }

  /** `[...new Set([...s, x])]`: appends `x` unless it is already there. */
  function AppendUnique(s: seq<string>, x: string): (r: seq<string>)
    requires NoDup(s)
    ensures NoDup(r) && s <= r
    ensures forall y :: y in r <==> y in s || y == x
    ensures |r| <= |s| + 1
  {
    if x in s then s else s + [x]
  }

  /** The ids of the main missions. */
  ghost function MainIds(): set<string>
  {
    set p | p in Catalogue && p.kind == Main :: p.id
  }

  /** The fragment ids of the main missions whose ids are in `ids`. */
  ghost function FragmentsOf(ids: seq<string>): set<int>
  {
    set p | p in Catalogue && p.kind == Main && p.id in ids && p.fragmentId != NoFragment :: p.fragmentId
  }

  /** Completing more missions never loses a fragment id. */
  lemma FragmentsOfGrows(ids: seq<string>, ids': seq<string>)
    requires forall x :: x in ids ==> x in ids'
    ensures FragmentsOf(ids) <= FragmentsOf(ids')
  {
  }

  /** The fragment list after completing `a`: its fragment is appended when
      it has one that is not yet collected. */
  function Collect(fragments: seq<int>, a: Puzzle): (r: seq<int>)
    ensures r == fragments || (r == fragments + [a.fragmentId] && a.fragmentId !in fragments)
    ensures a.fragmentId != NoFragment ==> a.fragmentId in r
    ensures a.fragmentId == NoFragment ==> r == fragments
  {
    if a.fragmentId != NoFragment && a.fragmentId !in fragments then fragments + [a.fragmentId] else fragments
  }

  /** The invariant of the completed ids and the fragments: neither holds a
      duplicate, every completed id is a main mission's, every fragment
      belongs to a completed main mission, and every completed main
      mission's fragment is collected. */
  ghost predicate Ledger(ids: seq<string>, fragments: seq<int>)
  {
    && NoDup(ids)
    && NoDup(fragments)
    && (forall i :: 0 <= i < |ids| ==> ids[i] in MainIds())
    && (forall i :: 0 <= i < |fragments| ==> fragments[i] in FragmentsOf(ids))
    && (forall f :: f in FragmentsOf(ids) ==> f in fragments)
  }

  /** The first completion of a main mission keeps the ledger invariant. */
  lemma CompletionKeepsLedger(ids: seq<string>, fragments: seq<int>, a: Puzzle)
    requires Ledger(ids, fragments)
    requires a in Catalogue && a.kind == Main && a.id !in ids
    ensures Ledger(ids + [a.id], Collect(fragments, a))
  {
    var ids' := ids + [a.id];
    assert a.id in MainIds();
    FragmentsOfGrows(ids, ids');
    if a.fragmentId != NoFragment {
      assert a.fragmentId in FragmentsOf(ids');
    }
    forall f | f in FragmentsOf(ids')
      ensures f in Collect(fragments, a)
    {
      var p :| p in Catalogue && p.kind == Main && p.id in ids' && p.fragmentId != NoFragment && p.fragmentId == f;
      if p.id != a.id {
        assert f in FragmentsOf(ids);
      } else {
        CatalogueWellFormed();
        assert p == a;
      }
    }
  }

  /** Whether `handleFieldSolved` awards its bonus: not for a side mission and
      not for a mission already completed. */
  predicate FieldBonusApplies(active: Option<Puzzle>, completedIds: seq<string>)
  {
    !(active.Some? && (active.value.kind == Side || active.value.id in completedIds))
  }

  /** No field bonus for a completed mission, so none after finalisation. */
  lemma NoBonusAfterCompletion(p: Puzzle, completedIds: seq<string>)
    requires p.id in completedIds
    ensures !FieldBonusApplies(Some(p), completedIds)
  {
  }

  datatype View = IntroView | HomeView | EditorView

  /** The state of the App component. */
  class Game {
    var level: nat
    var currentXp: nat
    var rank: string
    var mana: int
    /** completedPuzzleIds: main missions finalised, in order. */
    var completedIds: seq<string>
    /** collectedFragments, in order of collection. */
    var fragments: seq<int>
    /** puzzleProgress: the saved snapshot per mission id. */
    var progress: map<string, Progress>
    var active: Option<Puzzle>
    var view: View
    var teamName: string
    var showTutorial: bool
    var tutorialStep: nat
    /** The persisted "tutorial already shown" flag. */
    var hasSeenTutorial: bool

    ghost predicate Valid()
      reads this
    {
      && level == LevelFor(currentXp)
      && rank == RankTitle(level)
      && 0 <= mana <= MaxMana
      && Ledger(completedIds, fragments)
      && (active.Some? ==> active.value in Catalogue)
      && tutorialStep < TutorialStepCount
      && (showTutorial ==> !hasSeenTutorial)
    }

    /** A fresh session with INITIAL_STATS; `tutorialSeen` is the flag read
        back from storage. */
    constructor (tutorialSeen: bool)
      ensures Valid()
      ensures level == 1 && currentXp == 0 && rank == RankTitles[0] && mana == InitialMana
      ensures completedIds == [] && fragments == [] && progress == map[]
      ensures active == None && view == IntroView && teamName == "UNIT-734"
      ensures !showTutorial && tutorialStep == 0 && hasSeenTutorial == tutorialSeen
    {
      level, currentXp, rank, mana := 1, 0, RankTitles[0], InitialMana;
      completedIds, fragments, progress := [], [], map[];
      active, view, teamName := None, IntroView, "UNIT-734";
      showTutorial, tutorialStep, hasSeenTutorial := false, 0, tutorialSeen;
    }

    /** `handleIntroStart`: the team name is taken and the map is shown. */
    method IntroStart(name: string)
      requires Valid()
      modifies this`teamName, this`view
      ensures Valid() && teamName == name && view == HomeView
    {
      teamName, view := name, HomeView;
    }

    /** The effect run when the view changes: on the map, an unseen
        tutorial is opened. */
    method ViewChanged()
      requires Valid()
      modifies this`showTutorial
      ensures Valid()
      ensures showTutorial == (old(showTutorial) || (view == HomeView && !hasSeenTutorial))
    {
      if view == HomeView && !hasSeenTutorial {
        showTutorial := true;
      }
    }

    /** `closeTutorial`: the flag is stored and the overlay hidden. */
    method CloseTutorial()
      requires Valid()
      modifies this`hasSeenTutorial, this`showTutorial
      ensures Valid() && hasSeenTutorial && !showTutorial
    {
      hasSeenTutorial, showTutorial := true, false;
    }

    /** `nextTutorialStep`: advances through the three steps and closes the
        tutorial from the last one. */
    method NextTutorialStep()
      requires Valid()
      modifies this`tutorialStep, this`hasSeenTutorial, this`showTutorial
      ensures Valid()
      ensures old(tutorialStep) < TutorialStepCount - 1 ==>
        tutorialStep == old(tutorialStep) + 1 && showTutorial == old(showTutorial) && hasSeenTutorial == old(hasSeenTutorial)
      ensures old(tutorialStep) == TutorialStepCount - 1 ==>
        tutorialStep == old(tutorialStep) && hasSeenTutorial && !showTutorial
    {
      if tutorialStep < TutorialStepCount - 1 {
        tutorialStep := tutorialStep + 1;
      } else {
        CloseTutorial();
      }
    }

    /** `handlePuzzleSelect`: a mission from the map or the side list is
        opened in the editor. */
    method SelectPuzzle(p: Puzzle)
      requires Valid() && p in Catalogue
      modifies this`active, this`view
      ensures Valid() && active == Some(p) && view == EditorView
    {
      active, view := Some(p), EditorView;
    }

    /** Adds `amount` XP and recomputes level and rank from the new total. */
    method AwardXp(amount: nat)
      requires Valid()
      modifies this`currentXp, this`level, this`rank
      ensures Valid()
      ensures currentXp == old(currentXp) + amount
    {
      currentXp := currentXp + amount;
      level := LevelFor(currentXp);
      rank := RankTitle(level);
    }

    /** `handleFieldSolved`: +100 XP unless the active mission is a side
        mission or already completed; mana and everything else unchanged. */
    method FieldSolved()
      requires Valid()
      modifies this`currentXp, this`level, this`rank
      ensures Valid()
      ensures currentXp == old(currentXp) + if FieldBonusApplies(active, completedIds) then FieldBonus else 0
    {
      if active.Some? && active.value.kind == Side {
        return;
      }
      if active.Some? && active.value.id in completedIds {
        return;
      }
      AwardXp(FieldBonus);
    }

    /** `handleImageComplete`: finalises the active mission. The snapshot, if
        any, is stored under its id. A side mission then loses its entry and
        changes nothing else. A main mission not yet completed is added to
        the completed ids, earns its reward, costs mana and yields its
        fragment if it has one not yet held; a completed one earns nothing.
        The editor is left for the map either way. */
    method ImageComplete(data: Option<Progress>)
      requires Valid()
      modifies this`progress, this`completedIds, this`currentXp, this`level, this`rank, this`mana, this`fragments, this`active, this`view
      ensures Valid()
      ensures old(active).None? ==>
        && currentXp == old(currentXp) && mana == old(mana) && completedIds == old(completedIds)
        && fragments == old(fragments) && progress == old(progress) && active == old(active) && view == old(view)
      ensures old(active).Some? ==> active == None && view == HomeView
      ensures old(active).Some? && old(active).value.kind == Side ==>
        && currentXp == old(currentXp) && mana == old(mana) && completedIds == old(completedIds)
        && fragments == old(fragments) && progress == old(progress) - {old(active).value.id}
      ensures old(active).Some? && old(active).value.kind == Main ==>
        progress == if data.Some? then old(progress)[old(active).value.id := data.value] else old(progress)
      ensures old(active).Some? && old(active).value.kind == Main && old(active).value.id in old(completedIds) ==>
        && currentXp == old(currentXp) && mana == old(mana) && completedIds == old(completedIds)
        && fragments == old(fragments)
      ensures old(active).Some? && old(active).value.kind == Main && old(active).value.id !in old(completedIds) ==>
        var a := old(active).value;
        && completedIds == old(completedIds) + [a.id]
        && currentXp == old(currentXp) + a.xpReward
        && mana == SpendMana(old(mana), ManaCost)
        && fragments == Collect(old(fragments), a)
    {
      if active.None? {
        return;
      }
      var a := active.value;
      if data.Some? {
        SaveSnapshot(a.id, data.value);
      }
      if a.kind == Side {
        DropSnapshot(a.id);
      } else if a.id !in completedIds {
        CompleteMain(a);
      }
      ReturnToMap();
    }

    /** Stores `snapshot` under `id`, replacing any earlier one. */
    method SaveSnapshot(id: string, snapshot: Progress)
      requires Valid()
      modifies this`progress
      ensures Valid() && progress == old(progress)[id := snapshot]
    {
      progress := progress[id := snapshot];
    }

    /** Deletes the entry for `id`, if any. */
    method DropSnapshot(id: string)
      requires Valid()
      modifies this`progress
      ensures Valid() && progress == old(progress) - {id}
    {
      progress := progress - {id};
    }

    /** Closes the editor and shows the map. */
    method ReturnToMap()
      requires Valid()
      modifies this`active, this`view
      ensures Valid() && active == None && view == HomeView
    {
      active, view := None, HomeView;
    }

    /** The first completion of main mission `a`: its id is recorded, its
        reward earned, mana spent and its fragment collected if it carries
        one not yet held. */
    method CompleteMain(a: Puzzle)
      requires Valid() && a in Catalogue && a.kind == Main && a.id !in completedIds
      modifies this`completedIds, this`currentXp, this`level, this`rank, this`mana, this`fragments
      ensures Valid()
      ensures completedIds == old(completedIds) + [a.id]
      ensures currentXp == old(currentXp) + a.xpReward
      ensures mana == SpendMana(old(mana), ManaCost)
      ensures fragments == Collect(old(fragments), a)
    {
      AwardXp(a.xpReward);
      CompletionKeepsLedger(completedIds, fragments, a);
      var collected := a.fragmentId in fragments;
      completedIds := AppendUnique(completedIds, a.id);
      mana := SpendMana(mana, ManaCost);
      if a.kind != Side && a.fragmentId != NoFragment && !collected {
        fragments := fragments + [a.fragmentId];
      }
    }

    /** `handleEditorBack`: the snapshot, if any, is stored under the active
        mission's id and the editor is left for the map; no other entry and
        no stat changes. */
    method EditorBack(data: Option<Progress>)
      requires Valid()
      modifies this`progress, this`active, this`view
      ensures Valid()
      ensures progress == if data.Some? && old(active).Some? then old(progress)[old(active).value.id := data.value] else old(progress)
      ensures active == None && view == HomeView
    {
      if data.Some? && active.Some? {
        SaveSnapshot(active.value.id, data.value);
      }
      ReturnToMap();
    }

    /** `handleSideMissionProgress`: a side mission's report earns its reward
        and costs mana, every time; nothing happens for a main mission. */
    method SideMissionProgress()
      requires Valid()
      modifies this`currentXp, this`level, this`rank, this`mana
      ensures Valid()
      ensures active.Some? && active.value.kind == Side ==>
        currentXp == old(currentXp) + active.value.xpReward && mana == SpendMana(old(mana), ManaCost)
      ensures !(active.Some? && active.value.kind == Side) ==>
        currentXp == old(currentXp) && mana == old(mana)
    {
      if active.Some? && active.value.kind == Side {
        AwardXp(active.value.xpReward);
        mana := SpendMana(mana, ManaCost);
      }
    }
  }
}
