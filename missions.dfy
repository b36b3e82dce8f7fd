/** The mission catalogue of the field game and the records shared by the
    progression ledger (App.tsx) and the in-mission editor (ImageEditor.tsx). */
module Missions {

  datatype Option<+T> = None | Some(value: T)

  /** A main mission completes once; a side mission repeats forever. */
  datatype Kind = Main | Side

  datatype Quiz = Quiz(question: string, answer: string)

  /** The part of a mission definition that the game logic reads. Titles,
      descriptions, difficulty, rank requirement and coordinates only feed
      rendering and the map, and are not kept. */
  datatype Puzzle = Puzzle(
    id: string,
    xpReward: nat,
    fragmentId: int,
    kind: Kind,
    quiz: Option<Quiz>,
    promptHint: string,
    uploadInstruction: Option<string>)

  /** The fragment id of a mission that carries no fragment. */
  const NoFragment: int := -1

  /** The four heights typed for mission '1', one per mountain. */
  datatype Heights = Heights(tiger: string, leopard: string, lion: string, elephant: string)

  const EmptyHeights: Heights := Heights("", "", "", "")

  /** The snapshot of an editor session kept per mission id (PuzzleProgress). */
  datatype Progress = Progress(
    heights: Heights,
    reason: string,
    quizInput: string,
    select1: string,
    select2: string,
    imageDescription: string,
    uploadedImage: Option<string>,
    part1Solved: bool,
    part2Solved: bool,
    isQuizSolved: bool)

  const Mission1: Puzzle := Puzzle(
    "1", 300, 0, Main,
    Some(Quiz("請對照Mapy，填入四獸山的高度", "138,141,151,183")),
    "Overlay digital measurement grid on mountain peaks, visualize hydrological flow into the valley",
    None)

  const Mission2: Puzzle := Puzzle(
    "2", 300, 1, Main,
    Some(Quiz("請問我們現在在哪一層？", "南港層")),
    "描述岩石特徵 (例如：羽毛狀節理)",
    Some("請拍攝所收集到的砂岩照片，並描述它的樣子。例如：羽毛狀、貝殼狀、放射狀"))

  const Mission3: Puzzle := Puzzle(
    "3", 300, 2, Main,
    Some(Quiz("爬完的感受？", "等高線越密集，爬起來越累 或 稀疏→不累")),
    "Project holographic red contour lines onto the terrain, high density on steep slopes",
    Some("上傳您的Mapy截圖，並繪製路線。"))

  const RetainingWallHunt: Puzzle := Puzzle(
    "s1", 50, NoFragment, Side,
    None,
    "Analyze retaining wall structure, highlight drainage holes in red, check for structural cracks",
    Some("請拍攝擋土牆正面照片，需清楚呈現排水設施或植生狀況。"))

  const SamplePuzzles: seq<Puzzle> := [Mission1, Mission2, Mission3]

  const SideMissions: seq<Puzzle> := [RetainingWallHunt]

  /** Every mission a player can select: the map markers and the side list. */
  const Catalogue: seq<Puzzle> := SamplePuzzles + SideMissions

  /** No two missions share an id, so an id names one mission. */
  predicate DistinctIds(ps: seq<Puzzle>)
  {
    forall i, j :: 0 <= i < j < |ps| ==> ps[i].id != ps[j].id
  }

  /** The catalogue is well formed: ids are unique, every main mission
      carries its own fragment and every side mission carries none. */
  lemma CatalogueWellFormed()
    ensures DistinctIds(Catalogue)
    ensures forall p :: p in Catalogue && p.kind == Main ==> p.fragmentId >= 0
    ensures forall p :: p in Catalogue && p.kind == Side ==> p.fragmentId == NoFragment
    ensures forall p, q :: p in Catalogue && q in Catalogue && p.kind == Main && q.kind == Main && p.fragmentId == q.fragmentId ==> p == q
  {
    assert Catalogue == [Mission1, Mission2, Mission3, RetainingWallHunt];
  }
}
