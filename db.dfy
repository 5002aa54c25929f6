/** The switch tables: for each supported game, its switch matrix codes with a
    human-readable name, in the order they are inserted into an `IndexMap`.
    The order is the order of the on-screen switch panel, and since no code is
    inserted twice, the map is exactly this sequence of entries. */
module Db {

  /** One entry of a switch index: the matrix code and its name. */
  datatype SwitchEntry = SwitchEntry(code: nat, text: string)

  /** `SwitchIndex`: an insertion-ordered map from code to name. */
  type SwitchIndex = seq<SwitchEntry>

  /** Each code is smaller than the next one. */
  predicate AdjacentIncreasing(s: SwitchIndex) {
    forall i :: 0 <= i < |s| - 1 ==> s[i].code < s[i + 1].code
  }

  /** Codes increase along the whole insertion order. */
  predicate StrictlyIncreasing(s: SwitchIndex) {
    forall i, j :: 0 <= i < j < |s| ==> s[i].code < s[j].code
  }

  /** No code occurs twice, so only the code identifies a switch. */
  predicate DistinctCodes(s: SwitchIndex) {
    forall i, j :: 0 <= i < |s| && 0 <= j < |s| && i != j ==> s[i].code != s[j].code
  }

  lemma {:induction false} IncreasingAcross(s: SwitchIndex, i: nat, j: nat)
    requires AdjacentIncreasing(s)
    requires i < j < |s|
    ensures s[i].code + (j - i) <= s[j].code
    decreases j - i
  {
    if i + 1 < j {
      IncreasingAcross(s, i + 1, j);
    }
  }

  /** Two increasing runs, the second starting above the end of the first,
      make one increasing run. */
  lemma AdjacentConcat(a: SwitchIndex, b: SwitchIndex)
    requires AdjacentIncreasing(a) && AdjacentIncreasing(b)
    requires a != [] && b != [] && a[|a| - 1].code < b[0].code
    ensures AdjacentIncreasing(a + b)
    ensures (a + b)[|a + b| - 1] == b[|b| - 1]
  {
    forall i | 0 <= i < |a + b| - 1
      ensures (a + b)[i].code < (a + b)[i + 1].code
    {
      if i < |a| - 1 {
        assert (a + b)[i] == a[i] && (a + b)[i + 1] == a[i + 1];
      } else if i == |a| - 1 {
        assert (a + b)[i] == a[i] && (a + b)[i + 1] == b[0];
      } else {
        assert (a + b)[i] == b[i - |a|] && (a + b)[i + 1] == b[i + 1 - |a|];
      }
    }
  }

  /** Increase between neighbours is increase along the whole table, by at
      least one per step, and makes the codes distinct. */
  lemma AdjacentIsStrict(s: SwitchIndex)
    requires AdjacentIncreasing(s)
    ensures StrictlyIncreasing(s) && DistinctCodes(s)
    ensures forall i, j :: 0 <= i < j < |s| ==> s[i].code + (j - i) <= s[j].code
  {
    forall i, j | 0 <= i < j < |s|
      ensures s[i].code + (j - i) <= s[j].code
    {
      IncreasingAcross(s, i, j);
    }
  }

  const MM_COLUMN_1: SwitchIndex :=
    [ SwitchEntry(1, "COIN#1"),
      SwitchEntry(2, "COIN#2"),
      SwitchEntry(3, "COIN#3"),
      SwitchEntry(4, "COIN#4"),
      SwitchEntry(5, "ESCAPE"),
      SwitchEntry(6, "-"),
      SwitchEntry(7, "+"),
      SwitchEntry(8, "ENTER"),
      SwitchEntry(9, "?"),
      SwitchEntry(10, "MENU / ENTER?") ]

  const MM_COLUMN_2: SwitchIndex :=
    [ SwitchEntry(11, "LAUNCH BUTTON"),
      SwitchEntry(12, "CATAPULT TARGET"),
      SwitchEntry(13, "START BUTTON"),
      SwitchEntry(14, "PLUMB BOB TILT"),
      SwitchEntry(15, "L TROLL TARGET"),
      SwitchEntry(16, "LEFT OUTLANE"),
      SwitchEntry(17, "RIGHT RETURN"),
      SwitchEntry(18, "SHOOTER LANE") ]

  const MM_COLUMN_3: SwitchIndex :=
    [ SwitchEntry(21, "SLAM TILT"),
      SwitchEntry(22, "COIN DOOR CLOSED"),
      SwitchEntry(25, "R TROLL TARGET"),
      SwitchEntry(26, "LEFT RETURN"),
      SwitchEntry(27, "RIGHT OUTLANE"),
      SwitchEntry(28, "RIGHT EJECT") ]

  const MM_COLUMN_4: SwitchIndex :=
    [ SwitchEntry(31, "TROUGH EJECT"),
      SwitchEntry(32, "TROUGH BALL 1"),
      SwitchEntry(33, "TROUGH BALL 2"),
      SwitchEntry(34, "TROUGH BALL 3"),
      SwitchEntry(35, "TROUGH BALL 4"),
      SwitchEntry(36, "LEFT POPPER"),
      SwitchEntry(37, "CASTLE GATE"),
      SwitchEntry(38, "CATAPULT") ]

  const MM_COLUMN_5: SwitchIndex :=
    [ SwitchEntry(41, "MOAT ENTER"),
      SwitchEntry(44, "CASTLE LOCK"),
      SwitchEntry(45, "L TROLL (U/PLDF)"),
      SwitchEntry(46, "R TROLL (U/PLDF)"),
      SwitchEntry(47, "LEFT TOP LANE"),
      SwitchEntry(48, "RIGHT TOP LANE") ]

  const MM_COLUMN_6: SwitchIndex :=
    [ SwitchEntry(51, "LEFT SLINGSHOT"),
      SwitchEntry(52, "RIGHT SLINGSHOT"),
      SwitchEntry(53, "LEFT JET"),
      SwitchEntry(54, "BOTTOM JET"),
      SwitchEntry(55, "RIGHT JET"),
      SwitchEntry(56, "DRAWBRIDGE UP"),
      SwitchEntry(57, "DRAWBRIDGE DOWN"),
      SwitchEntry(58, "TOWER EXIT") ]

  const MM_COLUMN_7: SwitchIndex :=
    [ SwitchEntry(61, "L RAMP ENTER"),
      SwitchEntry(62, "L RAMP EXIT"),
      SwitchEntry(63, "R RAMP ENTER"),
      SwitchEntry(64, "R RAMP EXIT"),
      SwitchEntry(65, "LEFT LOOP LO"),
      SwitchEntry(66, "LEFT LOOP HI"),
      SwitchEntry(67, "RIGHT LOOP LO"),
      SwitchEntry(68, "RIGHT LOOP HI") ]

  const MM_COLUMN_8: SwitchIndex :=
    [ SwitchEntry(71, "RIGHT BANK TOP"),
      SwitchEntry(72, "RIGHT BANK MID"),
      SwitchEntry(73, "RIGHT BANK BOT"),
      SwitchEntry(74, "L TROLL UP"),
      SwitchEntry(75, "R TROLL UP") ]

  /** Medieval Madness (mm_109c), one group per switch-matrix column. */
  const MM_SWITCHES: SwitchIndex :=
    MM_COLUMN_1
    + MM_COLUMN_2
    + MM_COLUMN_3
    + MM_COLUMN_4
    + MM_COLUMN_5
    + MM_COLUMN_6
    + MM_COLUMN_7
    + MM_COLUMN_8

  const T2_COLUMN_1: SwitchIndex :=
    [ SwitchEntry(1, "COIN#1"),
      SwitchEntry(2, "COIN#2"),
      SwitchEntry(3, "COIN#3"),
      SwitchEntry(4, "?"),
      SwitchEntry(5, "ESCAPE"),
      SwitchEntry(6, "-"),
      SwitchEntry(7, "+"),
      SwitchEntry(8, "ENTER"),
      SwitchEntry(9, "?"),
      SwitchEntry(10, "MENU / ENTER?") ]

  const T2_COLUMN_2: SwitchIndex :=
    [ SwitchEntry(11, "RIGHT FLIPPER"),
      SwitchEntry(12, "LEFT FLIPPER"),
      SwitchEntry(13, "START BUTTON"),
      SwitchEntry(14, "PLUMB BOB TILT"),
      SwitchEntry(15, "TROUGH LEFT"),
      SwitchEntry(16, "TROUGH CENTER"),
      SwitchEntry(17, "TROUGH RIGHT"),
      SwitchEntry(18, "OUTHOLE") ]

  const T2_COLUMN_3: SwitchIndex :=
    [ SwitchEntry(21, "SLAM TILT"),
      SwitchEntry(22, "COIN DOOR CLOSED"),
      SwitchEntry(23, "TICKED OPTQ"),
      SwitchEntry(25, "LEFT OUT LANE"),
      SwitchEntry(26, "LEFT RET. LANE"),
      SwitchEntry(27, "RIGHT RET. LANE"),
      SwitchEntry(28, "RIGHT OUT LANE") ]

  const T2_COLUMN_4: SwitchIndex :=
    [ SwitchEntry(31, "GUN LOADED"),
      SwitchEntry(32, "GUN MARK"),
      SwitchEntry(33, "GUN HOME"),
      SwitchEntry(34, "GRIP TRIGGER"),
      SwitchEntry(36, "STAND MID LEFT"),
      SwitchEntry(37, "STAND MID CENTER"),
      SwitchEntry(38, "STAND MID RIGHT") ]

  const T2_COLUMN_5: SwitchIndex :=
    [ SwitchEntry(41, "LEFT JET"),
      SwitchEntry(42, "RIGHT JET"),
      SwitchEntry(43, "BOTTOM JET"),
      SwitchEntry(44, "LEFT SLING"),
      SwitchEntry(45, "RIGHT SLING"),
      SwitchEntry(46, "STAND RIGHT TOP"),
      SwitchEntry(47, "STAND RIGHT MID"),
      SwitchEntry(48, "STAND RIGHT BOT") ]

  const T2_COLUMN_6: SwitchIndex :=
    [ SwitchEntry(51, "LEFT LOCK"),
      SwitchEntry(53, "LO ESCAPE ROUTE"),
      SwitchEntry(54, "HI ESCAPE ROUTE"),
      SwitchEntry(55, "TOP LOCK"),
      SwitchEntry(56, "TOP LANE LEFT"),
      SwitchEntry(57, "TOP LANE CENTER"),
      SwitchEntry(58, "TOP LANE RIGHT") ]

  const T2_COLUMN_7: SwitchIndex :=
    [ SwitchEntry(61, "LEFT RAMP ENTRY"),
      SwitchEntry(62, "LEFT RAMP MADE"),
      SwitchEntry(63, "RIGHT RAMP ENTRY"),
      SwitchEntry(64, "RIGHT RAMP MADE"),
      SwitchEntry(65, "LO CHASE LOOP"),
      SwitchEntry(66, "HI CHASE LOOP") ]

  const T2_COLUMN_8: SwitchIndex :=
    [ SwitchEntry(71, "TARGET 1 HI"),
      SwitchEntry(72, "TARGET 2"),
      SwitchEntry(73, "TARGET 3"),
      SwitchEntry(74, "TARGET 4"),
      SwitchEntry(75, "TARGET 5 LOW"),
      SwitchEntry(76, "BALL POPPER"),
      SwitchEntry(77, "DROP TARGET"),
      SwitchEntry(78, "SHOOTER") ]

  /** Terminator 2 (t2_l8), one group per switch-matrix column. */
  const T2_SWITCHES: SwitchIndex :=
    T2_COLUMN_1
    + T2_COLUMN_2
    + T2_COLUMN_3
    + T2_COLUMN_4
    + T2_COLUMN_5
    + T2_COLUMN_6
    + T2_COLUMN_7
    + T2_COLUMN_8

  /** The shape both tables share: codes strictly increasing from 1 up to
      `last`, the first ten entries are the coin-door switches 1..10, and
      entry 18 has code 21, so from there on every code exceeds its position. */
  predicate TableShape(s: SwitchIndex, last: nat) {
    && |s| > 18
    && StrictlyIncreasing(s)
    && DistinctCodes(s)
    && (forall i :: 0 <= i < |s| ==> 1 <= s[i].code <= last)
    && (forall i :: 0 <= i < 10 ==> s[i].code == i + 1)
    && s[18].code == 21
    && (forall i :: 18 <= i < |s| ==> s[i].code > i)
  }

  /** The shape follows from increase between neighbours and five entries. */
  lemma ShapeFromEndpoints(s: SwitchIndex, last: nat)
    requires AdjacentIncreasing(s) && |s| > 18
    requires s[0].code == 1 && s[9].code == 10 && s[18].code == 21
    requires s[|s| - 1].code == last
    ensures TableShape(s, last)
  {
    AdjacentIsStrict(s);
    var n := |s| - 1;
    forall i | 0 <= i < |s| ensures 1 <= s[i].code <= last {
      assert 0 < i ==> s[0].code + i <= s[i].code;
      assert i < n ==> s[i].code + (n - i) <= s[n].code;
    }
    forall i | 0 <= i < 10 ensures s[i].code == i + 1 {
      assert 0 < i ==> s[0].code + i <= s[i].code;
      assert i < 9 ==> s[i].code + (9 - i) <= s[9].code;
    }
    forall i | 18 <= i < |s| ensures s[i].code > i {
      assert 18 < i ==> s[18].code + (i - 18) <= s[i].code;
    }
  }

  /** Each column of the table is increasing on its own. */
  lemma MmColumnsIncreasing()
    ensures AdjacentIncreasing(MM_COLUMN_1)
    ensures AdjacentIncreasing(MM_COLUMN_2)
    ensures AdjacentIncreasing(MM_COLUMN_3)
    ensures AdjacentIncreasing(MM_COLUMN_4)
    ensures AdjacentIncreasing(MM_COLUMN_5)
    ensures AdjacentIncreasing(MM_COLUMN_6)
    ensures AdjacentIncreasing(MM_COLUMN_7)
    ensures AdjacentIncreasing(MM_COLUMN_8)
  {
  }

  lemma MmSwitchesIncreasing()
    ensures AdjacentIncreasing(MM_SWITCHES)
  {
    MmColumnsIncreasing();
    var prefix := MM_COLUMN_1;
    AdjacentConcat(prefix, MM_COLUMN_2);
    prefix := prefix + MM_COLUMN_2;
    AdjacentConcat(prefix, MM_COLUMN_3);
    prefix := prefix + MM_COLUMN_3;
    AdjacentConcat(prefix, MM_COLUMN_4);
    prefix := prefix + MM_COLUMN_4;
    AdjacentConcat(prefix, MM_COLUMN_5);
    prefix := prefix + MM_COLUMN_5;
    AdjacentConcat(prefix, MM_COLUMN_6);
    prefix := prefix + MM_COLUMN_6;
    AdjacentConcat(prefix, MM_COLUMN_7);
    prefix := prefix + MM_COLUMN_7;
    AdjacentConcat(prefix, MM_COLUMN_8);
    prefix := prefix + MM_COLUMN_8;
    assert prefix == MM_SWITCHES;
  }

  lemma MmSwitchesEndpoints()
    ensures |MM_SWITCHES| == 59
    ensures MM_SWITCHES[0].code == 1 && MM_SWITCHES[9].code == 10
    ensures MM_SWITCHES[18].code == 21 && MM_SWITCHES[58].code == 75
  {
  }

  /** Each column of the table is increasing on its own. */
  lemma T2ColumnsIncreasing()
    ensures AdjacentIncreasing(T2_COLUMN_1)
    ensures AdjacentIncreasing(T2_COLUMN_2)
    ensures AdjacentIncreasing(T2_COLUMN_3)
    ensures AdjacentIncreasing(T2_COLUMN_4)
    ensures AdjacentIncreasing(T2_COLUMN_5)
    ensures AdjacentIncreasing(T2_COLUMN_6)
    ensures AdjacentIncreasing(T2_COLUMN_7)
    ensures AdjacentIncreasing(T2_COLUMN_8)
  {
  }

  lemma T2SwitchesIncreasing()
    ensures AdjacentIncreasing(T2_SWITCHES)
  {
    T2ColumnsIncreasing();
    var prefix := T2_COLUMN_1;
    AdjacentConcat(prefix, T2_COLUMN_2);
    prefix := prefix + T2_COLUMN_2;
    AdjacentConcat(prefix, T2_COLUMN_3);
    prefix := prefix + T2_COLUMN_3;
    AdjacentConcat(prefix, T2_COLUMN_4);
    prefix := prefix + T2_COLUMN_4;
    AdjacentConcat(prefix, T2_COLUMN_5);
    prefix := prefix + T2_COLUMN_5;
    AdjacentConcat(prefix, T2_COLUMN_6);
    prefix := prefix + T2_COLUMN_6;
    AdjacentConcat(prefix, T2_COLUMN_7);
    prefix := prefix + T2_COLUMN_7;
    AdjacentConcat(prefix, T2_COLUMN_8);
    prefix := prefix + T2_COLUMN_8;
    assert prefix == T2_SWITCHES;
  }

  lemma T2SwitchesEndpoints()
    ensures |T2_SWITCHES| == 61
    ensures T2_SWITCHES[0].code == 1 && T2_SWITCHES[9].code == 10
    ensures T2_SWITCHES[18].code == 21 && T2_SWITCHES[60].code == 78
  {
  }

  /** Medieval Madness: 59 switches with codes in 1..75. */
  lemma MmSwitchesShape()
    ensures |MM_SWITCHES| == 59 && TableShape(MM_SWITCHES, 75)
  {
    MmSwitchesIncreasing();
    MmSwitchesEndpoints();
    ShapeFromEndpoints(MM_SWITCHES, 75);
  }

  /** Terminator 2: 61 switches with codes in 1..78. */
  lemma T2SwitchesShape()
    ensures |T2_SWITCHES| == 61 && TableShape(T2_SWITCHES, 78)
  {
    T2SwitchesIncreasing();
    T2SwitchesEndpoints();
    ShapeFromEndpoints(T2_SWITCHES, 78);
  }

  /** Names do not identify switches: in Terminator 2 codes 4 and 9 are both "?". */
  lemma T2NamesNotUnique()
    ensures T2_SWITCHES[3].code == 4 && T2_SWITCHES[8].code == 9
    ensures T2_SWITCHES[3].text == T2_SWITCHES[8].text == "?"
  {
    assert T2_SWITCHES[3].text == "?";
    assert T2_SWITCHES[8].text == "?";
  }
}
