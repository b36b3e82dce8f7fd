/** The accept/reject rules of the in-mission quiz (components/ImageEditor.tsx):
    the numeric band check on the four heights of mission '1', the keyword
    check on its free-text reason, the two-choice rule of mission '3' and the
    free-text containment rule of every other mission.

    The keywords and options are stored in ImageEditor.tsx in a mis-decoded
    form (each UTF-8 byte of a Chinese character read as one Mac Roman
    character). The constants below copy those characters exactly, written as
    code points; the comment beside each names the character it stands for. */
module Quiz {

  import opened Missions
  import opened Text

  // Keywords of the "high" concept: 高, 山.
  const HighKeywords: seq<string> := [
    "\U{00C8}\U{00B4}\U{00F2}",
    "\U{00C2}\U{00B1}\U{00B1}"]

  // Keywords of the "low" concept: 低, 窪, 水, 凹.
  const LowKeywords: seq<string> := [
    "\U{2030}\U{03A9}\U{00E9}",
    "\U{00C1}\U{2122}\U{2122}",
    "\U{00CA}\U{221E}\U{00A5}",
    "\U{00C2}\U{00E1}\U{03C0}"]

  // The options of the two selects of mission '3': 密集, 稀疏 and 累, 不累.
  const Dense: string := "\U{00C2}\U{00D8}\U{00DC}\U{00C8}\U{00F5}\U{00DC}"
  const Sparse: string := "\U{00C1}\U{00AE}\U{00C4}\U{00C1}\U{00F1}\U{00E8}"
  const Tired: string := "\U{00C1}\U{00A5}\U{00D8}"
  const NotTired: string := "\U{2030}\U{220F}\U{00E7}\U{00C1}\U{00A5}\U{00D8}"

  // The extra phrase mission '2' accepts, stored mis-decoded: 南港 was
  // meant, so typing 南港 alone does not match it.
  const NangangEscape: string := "\U{00C2}\U{00E7}\U{00F3}\U{00CA}\U{220F}\U{00D8}"

  /** The inclusive band each height of mission '1' must fall in. */
  datatype Band = Band(lo: int, hi: int)

  const TigerBand: Band := Band(135, 145)
  const LeopardBand: Band := Band(139, 143)
  const LionBand: Band := Band(147, 153)
  const ElephantBand: Band := Band(180, 188)

  /** `checkRange`: delete every non-digit, parse what is left, and accept
      when it parsed and lies in [lo, hi]. */
  function CheckRange(val: string, b: Band): (r: bool)
    ensures r ==> StripNonDigits(val) != [] && b.lo <= b.hi
  {
    match ParseDigits(StripNonDigits(val))
    case None => false
    case Some(n) => b.lo <= n <= b.hi
  }

  /** A number written in decimal, with any decoration that holds no digit
      before or after it (a unit, spaces, a sign), is accepted exactly when
      the number lies in the band. */
  lemma CheckRangeDecorated(u: string, n: nat, w: string, b: Band)
    requires NoDigits(u) && NoDigits(w)
    ensures CheckRange(u + ToDecimal(n) + w, b) <==> b.lo <= n <= b.hi
  {
    var d := ToDecimal(n);
    assert StripNonDigits(u + d + w) == d by {
      StripAppend(u + d, w);
      StripAppend(u, d);
      StripDropsNonDigits(u);
      StripDropsNonDigits(w);
      StripKeepsDigits(d);
    }
    DecimalRoundTrip(n);
  }

  /** Input with no digit at all is always rejected. */
  lemma CheckRangeNeedsDigits(val: string, b: Band)
    requires NoDigits(val)
    ensures !CheckRange(val, b)
  {
    StripDropsNonDigits(val);
  }

  /** A unit after the number is ignored: "138m" passes [135, 145]. */
  lemma CheckRangeAcceptsSuffixed()
    ensures CheckRange("138m", TigerBand)
  {
    assert "138m" == "138" + "m";
    StripAppend("138", "m");
    StripKeepsDigits("138");
    StripDropsNonDigits("m");
    assert "138" + [] == "138";
    ThreeDigitValue("138");
  }

  /** "200" is outside [135, 145] and fails. */
  lemma CheckRangeRejectsAbove()
    ensures !CheckRange("200", TigerBand)
  {
    HeightJudged("200", TigerBand);
  }

  /** "abc" holds no digits and fails. */
  lemma CheckRangeRejectsLetters()
    ensures !CheckRange("abc", TigerBand)
  {
    CheckRangeNeedsDigits("abc", TigerBand);
  }

  /** Part 1 of mission '1': all four heights in their bands. */
  predicate Part1Accepted(h: Heights): (r: bool)
    ensures r ==> h.tiger != "" && h.leopard != "" && h.lion != "" && h.elephant != ""
  {
    && CheckRange(h.tiger, TigerBand)
    && CheckRange(h.leopard, LeopardBand)
    && CheckRange(h.lion, LionBand)
    && CheckRange(h.elephant, ElephantBand)
  }

  /** Three digits are read as hundreds, tens and units. */
  lemma ThreeDigitValue(d: string)
    requires |d| == 3 && AllDigits(d)
    ensures DecimalValue(d) == DigitValue(d[0]) * 100 + DigitValue(d[1]) * 10 + DigitValue(d[2])
  {
    var x, y, z := DigitValue(d[0]), DigitValue(d[1]), DigitValue(d[2]);
    assert d[1..][0] == d[1] && d[1..][1..][0] == d[2] && d[1..][1..][1..] == [];
    calc {
      DecimalFrom(0, d);
      DecimalFrom(x, d[1..]);
      DecimalFrom(x * 10 + y, d[1..][1..]);
      DecimalFrom((x * 10 + y) * 10 + z, d[1..][1..][1..]);
    }
  }

  /** A height typed as three digits is judged by its value. */
  lemma HeightJudged(d: string, b: Band)
    requires |d| == 3 && AllDigits(d)
    ensures CheckRange(d, b) <==> b.lo <= DigitValue(d[0]) * 100 + DigitValue(d[1]) * 10 + DigitValue(d[2]) <= b.hi
  {
    StripKeepsDigits(d);
    ThreeDigitValue(d);
  }

  /** The heights of the quiz's own answer, 138, 141, 151 and 183, pass. */
  lemma Part1AcceptsAnswer()
    ensures Part1Accepted(Heights("138", "141", "151", "183"))
  {
    HeightJudged("138", TigerBand);
    HeightJudged("141", LeopardBand);
    HeightJudged("151", LionBand);
    HeightJudged("183", ElephantBand);
  }

  /** One height out of its band is enough to fail. */
  lemma Part1RejectsOutOfBand()
    ensures !Part1Accepted(Heights("138", "141", "151", "200"))
  {
    HeightJudged("200", ElephantBand);
  }

  /** Part 2 of mission '1': the trimmed reason holds a "high" keyword and a
      "low" keyword. */
  predicate Part2Accepted(reason: string): (r: bool)
    ensures r ==> Trim(reason) != ""
  {
    var r := Trim(reason);
    KeywordsHaveSolidEnds();
    ContainsAnyIff(r, HighKeywords);
    ContainsAny(r, HighKeywords) && ContainsAny(r, LowKeywords)
  }

  /** A reason is accepted exactly when some high keyword and some low
      keyword occur in it after trimming. */
  lemma Part2AcceptedIff(reason: string)
    ensures Part2Accepted(reason) <==>
      (exists i :: 0 <= i < |HighKeywords| && Contains(Trim(reason), HighKeywords[i])) &&
      (exists j :: 0 <= j < |LowKeywords| && Contains(Trim(reason), LowKeywords[j]))
  {
    ContainsAnyIff(Trim(reason), HighKeywords);
    ContainsAnyIff(Trim(reason), LowKeywords);
  }

  /** No keyword starts or ends with white space, so trimming never cuts
      into one. */
  lemma KeywordsHaveSolidEnds()
    ensures forall k :: 0 <= k < |HighKeywords| ==>
      HighKeywords[k] != [] && !IsSpace(HighKeywords[k][0]) && !IsSpace(HighKeywords[k][|HighKeywords[k]| - 1])
    ensures forall k :: 0 <= k < |LowKeywords| ==>
      LowKeywords[k] != [] && !IsSpace(LowKeywords[k][0]) && !IsSpace(LowKeywords[k][|LowKeywords[k]| - 1])
  {
  }

  /** A reason that mentions one keyword of each concept is accepted, in
      either order, with any text or white space around them. */
  lemma Part2AcceptsBothConcepts(reason: string, i: nat, j: nat)
    requires i < |HighKeywords| && j < |LowKeywords|
    requires Contains(reason, HighKeywords[i]) && Contains(reason, LowKeywords[j])
    ensures Part2Accepted(reason)
  {
    KeywordsHaveSolidEnds();
    ContainsSurvivesTrim(reason, HighKeywords[i]);
    ContainsSurvivesTrim(reason, LowKeywords[j]);
    ContainsAnyIff(Trim(reason), HighKeywords);
    ContainsAnyIff(Trim(reason), LowKeywords);
  }

  /** The bare answer, the two keywords alone, is accepted in either order. */
  lemma Part2AcceptsBareKeywords(i: nat, j: nat)
    requires i < |HighKeywords| && j < |LowKeywords|
    ensures Part2Accepted(HighKeywords[i] + LowKeywords[j])
    ensures Part2Accepted(LowKeywords[j] + HighKeywords[i])
  {
    var hi, lo := HighKeywords[i], LowKeywords[j];
    ContainsInfix([], hi, lo);
    assert [] + hi + lo == hi + lo;
    ContainsInfix(hi, lo, []);
    assert hi + lo + [] == hi + lo;
    Part2AcceptsBothConcepts(hi + lo, i, j);
    ContainsInfix([], lo, hi);
    assert [] + lo + hi == lo + hi;
    ContainsInfix(lo, hi, []);
    assert lo + hi + [] == lo + hi;
    Part2AcceptsBothConcepts(lo + hi, i, j);
  }

  /** A string contains a non-empty string only if it contains its first
      character. */
  lemma ContainsFirstChar(s: string, t: string)
    requires t != [] && Contains(s, t)
    ensures t[0] in s
  {
    ContainsWitness(s, t);
    var i :| OccursAt(s, t, i);
    assert s[i] == s[i..i + |t|][0];
  }

  /** Because the keywords are stored mis-decoded, a reason written with the
      intended characters 高 (high) and 低 (low) is rejected. */
  lemma IntendedKeywordsRejected()
    ensures !Part2Accepted("高山低窪")
  {
    var r := "高山低窪";
    TrimPadded([], r, []);
    assert [] + r + [] == r;
    ContainsAnyIff(r, HighKeywords);
    forall i | 0 <= i < |HighKeywords|
      ensures !Contains(r, HighKeywords[i])
    {
      if Contains(r, HighKeywords[i]) {
        ContainsFirstChar(r, HighKeywords[i]);
      }
    }
  }

  /** The rule of mission '3': (dense, tired) or (sparse, not tired). */
  predicate PairAccepted(select1: string, select2: string): (r: bool)
    ensures r ==> select1 != "" && select2 != ""
    ensures r ==> (select1 == Dense <==> select2 == Tired)
  {
    assert Dense[0] != Sparse[0];
    assert |Tired| != |NotTired|;
    (select1 == Dense && select2 == Tired) || (select1 == Sparse && select2 == NotTired)
  }

  /** Both directions of reasoning are accepted; the cross pairs and any
      empty selection are rejected. */
  lemma PairRule(x: string)
    ensures PairAccepted(Dense, Tired) && PairAccepted(Sparse, NotTired)
    ensures !PairAccepted(Dense, NotTired) && !PairAccepted(Sparse, Tired)
    ensures !PairAccepted("", x) && !PairAccepted(x, "")
  {
    assert Dense[0] != Sparse[0];
    assert |Tired| != |NotTired|;
  }

  /** The rule of every other mission: the trimmed input equals or contains
      the expected answer; mission '2' also accepts the escape phrase. */
  predicate TextAccepted(id: string, input: string, answer: string): (r: bool)
    ensures r && id != "2" ==> |answer| <= |Trim(input)|
  {
    var t := Trim(input);
    assert Contains(t, answer) ==> |answer| <= |t| by {
      if Contains(t, answer) {
        ContainsNoLonger(t, answer);
      }
    }
    t == answer || Contains(t, answer) || (id == "2" && Contains(t, NangangEscape))
  }

  /** Equality with the answer adds nothing to containment: the rule is
      "contains the answer, or (mission '2') contains the escape phrase". */
  lemma TextAcceptedIff(id: string, input: string, answer: string)
    ensures TextAccepted(id, input, answer) <==>
      Contains(Trim(input), answer) || (id == "2" && Contains(Trim(input), NangangEscape))
  {
    var t := Trim(input);
    if t == answer {
      ContainsInfix([], t, []);
      assert [] + t + [] == t;
    }
  }

  /** With the answer 南港層, an input holding it after other words is
      accepted. */
  lemma TextAcceptsContaining()
    ensures TextAccepted("2", "我覺得是南港層", "南港層")
  {
    var yes := "我覺得是南港層";
    assert Trim(yes) == yes by {
      TrimPadded([], yes, []);
      assert [] + yes + [] == yes;
    }
    assert Contains(yes, "南港層") by {
      ContainsInfix("我覺得是", "南港層", []);
      assert "我覺得是" + "南港層" + [] == yes;
    }
  }

  /** With the answer 南港層, "北港層" is rejected. */
  lemma TextRejectsOther()
    ensures !TextAccepted("2", "北港層", "南港層")
  {
    var no := "北港層";
    assert Trim(no) == no by {
      TrimPadded([], no, []);
      assert [] + no + [] == no;
    }
    if Contains(no, "南港層") {
      ContainsFirstChar(no, "南港層");
    }
    if Contains(no, NangangEscape) {
      ContainsNoLonger(no, NangangEscape);
    }
  }

  /** White space around the answer is ignored. */
  lemma TextIgnoresPadding()
    ensures TextAccepted("2", "  南港層 ", "南港層")
  {
    TrimPadded("  ", "南港層", " ");
    assert "  " + "南港層" + " " == "  南港層 ";
  }

  /** Whether the submitted answer of a mission with a quiz is correct
      (`handleQuizVerify`): mission '3' by the pair rule, every other mission
      by the text rule against its quiz's answer. */
  predicate QuizAccepted(p: Puzzle, quizInput: string, select1: string, select2: string): (r: bool)
    requires p.quiz.Some?
    ensures r && p.id == "3" ==> select1 != "" && select2 != ""
    ensures r && p.id != "2" && p.id != "3" ==> |p.quiz.value.answer| <= |Trim(quizInput)|
  {
    if p.id == "3" then PairAccepted(select1, select2)
    else TextAccepted(p.id, quizInput, p.quiz.value.answer)
  }

  /** The catalogue's quizzes: mission '3' ignores the text box, mission '2'
      accepts its answer and its escape phrase. */
  lemma CatalogueQuizzes(input: string, s1: string, s2: string)
    ensures QuizAccepted(Mission3, input, s1, s2) <==> PairAccepted(s1, s2)
    ensures QuizAccepted(Mission2, input, s1, s2) <==>
      Contains(Trim(input), "南港層") || Contains(Trim(input), NangangEscape)
  {
    TextAcceptedIff("2", input, "南港層");
  }

  /** The escape phrase is stored mis-decoded, so the intended 南港 typed on
      its own is rejected by mission '2'. */
  lemma IntendedEscapeRejected(s1: string, s2: string)
    ensures !QuizAccepted(Mission2, "南港", s1, s2)
  {
    var t := "南港";
    CatalogueQuizzes(t, s1, s2);
    TrimPadded([], t, []);
    assert [] + t + [] == t;
    if Contains(t, "南港層") {
      ContainsNoLonger(t, "南港層");
    }
    if Contains(t, NangangEscape) {
      ContainsNoLonger(t, NangangEscape);
    }
  }
}
