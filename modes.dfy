/** The mode state machine of main.c: the six modes selected by the two
    buttons, the setpoint each mode fixes, and the circular path played back
    in the two circle modes. */
module Modes {
  import opened CTypes
  import opened Scheduler

  const MODE_COUNT: nat := 6

  // Touch-panel coordinates of the plate centre and the side offset of modes 1 and 2.
  const CENTER_X: int := 2150
  const CENTER_Y: int := 2150
  const SIDE_OFFSET_X: int := 600

  datatype Point = Point(x: int, y: int)

  /** The mode after a button event: button 1 steps forward, otherwise
      button 2 steps backward, both cyclically; button 1 wins a tie. */
  function NextMode(mode: nat, btn1: bool, btn2: bool): (m: nat)
    requires mode < MODE_COUNT
    ensures m < MODE_COUNT
    ensures btn1 ==> (m - mode) % MODE_COUNT == 1
    ensures !btn1 && btn2 ==> (mode - m) % MODE_COUNT == 1
    ensures !btn1 && !btn2 ==> m == mode
  {
    if btn1 then (mode + 1) % MODE_COUNT
    else if btn2 then (if mode > 0 then mode - 1 else MODE_COUNT - 1)
    else mode
  }

  /** Pressing button 1 and then button 2 (or the reverse) restores the mode. */
  lemma ButtonsInverse(mode: nat)
    requires mode < MODE_COUNT
    ensures NextMode(NextMode(mode, true, false), false, true) == mode
    ensures NextMode(NextMode(mode, false, true), true, false) == mode
  {
  }

  /** The mode after n presses of the same button. */
  function Presses(mode: nat, forward: bool, n: nat): (m: nat)
    requires mode < MODE_COUNT
    ensures m < MODE_COUNT
  {
    if n == 0 then mode else NextMode(Presses(mode, forward, n - 1), forward, !forward)
  }

  /** n presses of a button move the mode by n, modulo 6, so six presses of
      either button cycle back to the starting mode. */
  lemma {:induction false} PressesMod(mode: nat, forward: bool, n: nat)
    requires mode < MODE_COUNT
    ensures Presses(mode, forward, n) == if forward then (mode + n) % MODE_COUNT
                                         else (mode - n) % MODE_COUNT
  {
    if n > 0 {
      PressesMod(mode, forward, n - 1);
      var k := Presses(mode, forward, n - 1);
      var m := if forward then mode + n - 1 else mode - (n - 1);
      var q := m / MODE_COUNT;
      if forward {
        assert m + 1 == (q + (k + 1) / MODE_COUNT) * MODE_COUNT + (k + 1) % MODE_COUNT;
        DivModUnique(m + 1, MODE_COUNT, q + (k + 1) / MODE_COUNT, (k + 1) % MODE_COUNT);
      } else {
        var k' := if k > 0 then k - 1 else MODE_COUNT - 1;
        var q' := if k > 0 then q else q - 1;
        assert m - 1 == q' * MODE_COUNT + k';
        DivModUnique(m - 1, MODE_COUNT, q', k');
      }
    }
  }

  lemma {:induction false} SixPressesCycle(mode: nat)
    requires mode < MODE_COUNT
    ensures Presses(mode, true, MODE_COUNT) == mode
    ensures Presses(mode, false, MODE_COUNT) == mode
  {
    PressesMod(mode, true, MODE_COUNT);
    DivModUnique(mode + MODE_COUNT, MODE_COUNT, 1, mode);
    PressesMod(mode, false, MODE_COUNT);
    DivModUnique(mode - MODE_COUNT, MODE_COUNT, -1, mode);
  }

  /** What entering a mode does: fix a setpoint (modes 0, 1, 2 and the
      default branch, which serves mode 5), or start circle playback by
      resetting its rate (modes 3 and 4, leaving the setpoint alone). */
  datatype ModeEntry = FixedSetpoint(target: Point) | CirclePlayback(rate: nat)

  function EnterMode(mode: nat): (e: ModeEntry)
    ensures e.CirclePlayback? <==> mode == CIRCLE_FORWARD_MODE || mode == CIRCLE_BACKWARD_MODE
    ensures e.CirclePlayback? ==> e.rate == CIRCLE_DEFAULT_RATE > 0
    ensures e.FixedSetpoint? ==>
              e.target.y == CENTER_Y &&
              e.target.x in {CENTER_X - SIDE_OFFSET_X, CENTER_X, CENTER_X + SIDE_OFFSET_X}
  {
    if mode == 1 then FixedSetpoint(Point(CENTER_X + SIDE_OFFSET_X, CENTER_Y))
    else if mode == 2 then FixedSetpoint(Point(CENTER_X - SIDE_OFFSET_X, CENTER_Y))
    else if mode == 3 || mode == 4 then CirclePlayback(CIRCLE_DEFAULT_RATE)
    else FixedSetpoint(Point(CENTER_X, CENTER_Y))
  }

  /** The setpoints of the fixed modes in the firmware's panel coordinates. */
  lemma FixedTargets()
    ensures EnterMode(0) == EnterMode(5) == FixedSetpoint(Point(2150, 2150))
    ensures EnterMode(1) == FixedSetpoint(Point(2750, 2150))
    ensures EnterMode(2) == FixedSetpoint(Point(1550, 2150))
  {
  }

  // Offsets of the circular path from the centre, one entry per path index.
  // Each table is written as ten literal pieces of 36 entries (a tenth of a
  // revolution each) so that the verifier can read the entries of each piece.
  const CIRCLE_POSITION_X0: seq<int> :=
    [250, 250, 250, 250, 249, 249, 249, 248, 248, 247, 246, 245, 245, 244, 243, 241, 240, 239,
     238, 236, 235, 233, 232, 230, 228, 227, 225, 223, 221, 219, 217, 214, 212, 210, 207, 205]
  const CIRCLE_POSITION_X1: seq<int> :=
    [202, 200, 197, 194, 192, 189, 186, 183, 180, 177, 174, 170, 167, 164, 161, 157, 154, 150,
     147, 143, 140, 136, 132, 129, 125, 121, 117, 113, 110, 106, 102, 98, 94, 90, 86, 81]
  const CIRCLE_POSITION_X2: seq<int> :=
    [77, 73, 69, 65, 60, 56, 52, 48, 43, 39, 35, 30, 26, 22, 17, 13, 9, 4,
     0, -4, -9, -13, -17, -22, -26, -30, -35, -39, -43, -48, -52, -56, -60, -65, -69, -73]
  const CIRCLE_POSITION_X3: seq<int> :=
    [-77, -81, -86, -90, -94, -98, -102, -106, -110, -113, -117, -121, -125, -129, -132, -136, -140, -143,
     -147, -150, -154, -157, -161, -164, -167, -170, -174, -177, -180, -183, -186, -189, -192, -194, -197, -200]
  const CIRCLE_POSITION_X4: seq<int> :=
    [-202, -205, -207, -210, -212, -214, -217, -219, -221, -223, -225, -227, -228, -230, -232, -233, -235, -236,
     -238, -239, -240, -241, -243, -244, -245, -245, -246, -247, -248, -248, -249, -249, -249, -250, -250, -250]
  const CIRCLE_POSITION_X5: seq<int> :=
    [-250, -250, -250, -250, -249, -249, -249, -248, -248, -247, -246, -245, -245, -244, -243, -241, -240, -239,
     -238, -236, -235, -233, -232, -230, -228, -227, -225, -223, -221, -219, -217, -214, -212, -210, -207, -205]
  const CIRCLE_POSITION_X6: seq<int> :=
    [-202, -200, -197, -194, -192, -189, -186, -183, -180, -177, -174, -170, -167, -164, -161, -157, -154, -150,
     -147, -143, -140, -136, -132, -129, -125, -121, -117, -113, -110, -106, -102, -98, -94, -90, -86, -81]
  const CIRCLE_POSITION_X7: seq<int> :=
    [-77, -73, -69, -65, -60, -56, -52, -48, -43, -39, -35, -30, -26, -22, -17, -13, -9, -4,
     0, 4, 9, 13, 17, 22, 26, 30, 35, 39, 43, 48, 52, 56, 60, 65, 69, 73]
  const CIRCLE_POSITION_X8: seq<int> :=
    [77, 81, 86, 90, 94, 98, 102, 106, 110, 113, 117, 121, 125, 129, 132, 136, 140, 143,
     147, 150, 154, 157, 161, 164, 167, 170, 174, 177, 180, 183, 186, 189, 192, 194, 197, 200]
  const CIRCLE_POSITION_X9: seq<int> :=
    [202, 205, 207, 210, 212, 214, 217, 219, 221, 223, 225, 227, 228, 230, 232, 233, 235, 236,
     238, 239, 240, 241, 243, 244, 245, 245, 246, 247, 248, 248, 249, 249, 249, 250, 250, 250]
  const CIRCLE_POSITION_X: seq<int> :=
    CIRCLE_POSITION_X0 + CIRCLE_POSITION_X1 + CIRCLE_POSITION_X2 + CIRCLE_POSITION_X3 + CIRCLE_POSITION_X4 +
    CIRCLE_POSITION_X5 + CIRCLE_POSITION_X6 + CIRCLE_POSITION_X7 + CIRCLE_POSITION_X8 + CIRCLE_POSITION_X9

  const CIRCLE_POSITION_Y0: seq<int> :=
    [0, 4, 9, 13, 17, 22, 26, 30, 35, 39, 43, 48, 52, 56, 60, 65, 69, 73,
     77, 81, 86, 90, 94, 98, 102, 106, 110, 113, 117, 121, 125, 129, 132, 136, 140, 143]
  const CIRCLE_POSITION_Y1: seq<int> :=
    [147, 150, 154, 157, 161, 164, 167, 170, 174, 177, 180, 183, 186, 189, 192, 194, 197, 200,
     202, 205, 207, 210, 212, 214, 217, 219, 221, 223, 225, 227, 228, 230, 232, 233, 235, 236]
  const CIRCLE_POSITION_Y2: seq<int> :=
    [238, 239, 240, 241, 243, 244, 245, 245, 246, 247, 248, 248, 249, 249, 249, 250, 250, 250,
     250, 250, 250, 250, 249, 249, 249, 248, 248, 247, 246, 245, 245, 244, 243, 241, 240, 239]
  const CIRCLE_POSITION_Y3: seq<int> :=
    [238, 236, 235, 233, 232, 230, 228, 227, 225, 223, 221, 219, 217, 214, 212, 210, 207, 205,
     202, 200, 197, 194, 192, 189, 186, 183, 180, 177, 174, 170, 167, 164, 161, 157, 154, 150]
  const CIRCLE_POSITION_Y4: seq<int> :=
    [147, 143, 140, 136, 132, 129, 125, 121, 117, 113, 110, 106, 102, 98, 94, 90, 86, 81,
     77, 73, 69, 65, 60, 56, 52, 48, 43, 39, 35, 30, 26, 22, 17, 13, 9, 4]
  const CIRCLE_POSITION_Y5: seq<int> :=
    [0, -4, -9, -13, -17, -22, -26, -30, -35, -39, -43, -48, -52, -56, -60, -65, -69, -73,
     -77, -81, -86, -90, -94, -98, -102, -106, -110, -113, -117, -121, -125, -129, -132, -136, -140, -143]
  const CIRCLE_POSITION_Y6: seq<int> :=
    [-147, -150, -154, -157, -161, -164, -167, -170, -174, -177, -180, -183, -186, -189, -192, -194, -197, -200,
     -202, -205, -207, -210, -212, -214, -217, -219, -221, -223, -225, -227, -228, -230, -232, -233, -235, -236]
  const CIRCLE_POSITION_Y7: seq<int> :=
    [-238, -239, -240, -241, -243, -244, -245, -245, -246, -247, -248, -248, -249, -249, -249, -250, -250, -250,
     -250, -250, -250, -250, -249, -249, -249, -248, -248, -247, -246, -245, -245, -244, -243, -241, -240, -239]
  const CIRCLE_POSITION_Y8: seq<int> :=
    [-238, -236, -235, -233, -232, -230, -228, -227, -225, -223, -221, -219, -217, -214, -212, -210, -207, -205,
     -202, -200, -197, -194, -192, -189, -186, -183, -180, -177, -174, -170, -167, -164, -161, -157, -154, -150]
  const CIRCLE_POSITION_Y9: seq<int> :=
    [-147, -143, -140, -136, -132, -129, -125, -121, -117, -113, -110, -106, -102, -98, -94, -90, -86, -81,
     -77, -73, -69, -65, -60, -56, -52, -48, -43, -39, -35, -30, -26, -22, -17, -13, -9, -4]
  const CIRCLE_POSITION_Y: seq<int> :=
    CIRCLE_POSITION_Y0 + CIRCLE_POSITION_Y1 + CIRCLE_POSITION_Y2 + CIRCLE_POSITION_Y3 + CIRCLE_POSITION_Y4 +
    CIRCLE_POSITION_Y5 + CIRCLE_POSITION_Y6 + CIRCLE_POSITION_Y7 + CIRCLE_POSITION_Y8 + CIRCLE_POSITION_Y9

  const CIRCLE_RADIUS: int := 250

  predicate OffsetsWithin(s: seq<int>)
  {
    forall i | 0 <= i < |s| :: -CIRCLE_RADIUS <= s[i] <= CIRCLE_RADIUS
  }

  lemma OffsetsWithinAppend(a: seq<int>, b: seq<int>)
    requires OffsetsWithin(a) && OffsetsWithin(b)
    ensures OffsetsWithin(a + b)
  {
    forall i | 0 <= i < |a + b| ensures -CIRCLE_RADIUS <= (a + b)[i] <= CIRCLE_RADIUS {
      if i >= |a| { assert (a + b)[i] == b[i - |a|]; }
    }
  }

  lemma TenthWithin0() ensures OffsetsWithin(CIRCLE_POSITION_X0) && OffsetsWithin(CIRCLE_POSITION_Y0) {}
  lemma TenthWithin1() ensures OffsetsWithin(CIRCLE_POSITION_X1) && OffsetsWithin(CIRCLE_POSITION_Y1) {}
  lemma TenthWithin2() ensures OffsetsWithin(CIRCLE_POSITION_X2) && OffsetsWithin(CIRCLE_POSITION_Y2) {}
  lemma TenthWithin3() ensures OffsetsWithin(CIRCLE_POSITION_X3) && OffsetsWithin(CIRCLE_POSITION_Y3) {}
  lemma TenthWithin4() ensures OffsetsWithin(CIRCLE_POSITION_X4) && OffsetsWithin(CIRCLE_POSITION_Y4) {}
  lemma TenthWithin5() ensures OffsetsWithin(CIRCLE_POSITION_X5) && OffsetsWithin(CIRCLE_POSITION_Y5) {}
  lemma TenthWithin6() ensures OffsetsWithin(CIRCLE_POSITION_X6) && OffsetsWithin(CIRCLE_POSITION_Y6) {}
  lemma TenthWithin7() ensures OffsetsWithin(CIRCLE_POSITION_X7) && OffsetsWithin(CIRCLE_POSITION_Y7) {}
  lemma TenthWithin8() ensures OffsetsWithin(CIRCLE_POSITION_X8) && OffsetsWithin(CIRCLE_POSITION_Y8) {}
  lemma TenthWithin9() ensures OffsetsWithin(CIRCLE_POSITION_X9) && OffsetsWithin(CIRCLE_POSITION_Y9) {}

  /** Every offset of the circular path lies within 250 of the centre on
      both axes. */
  lemma {:induction false} CircleTableBounds()
    ensures |CIRCLE_POSITION_X| == CIRCLE_SIZE && |CIRCLE_POSITION_Y| == CIRCLE_SIZE
    ensures OffsetsWithin(CIRCLE_POSITION_X) && OffsetsWithin(CIRCLE_POSITION_Y)
  {
    TenthWithin0(); TenthWithin1(); TenthWithin2(); TenthWithin3(); TenthWithin4();
    TenthWithin5(); TenthWithin6(); TenthWithin7(); TenthWithin8(); TenthWithin9();
    OffsetsWithinAppend(CIRCLE_POSITION_X0, CIRCLE_POSITION_X1);
    OffsetsWithinAppend(CIRCLE_POSITION_X0 + CIRCLE_POSITION_X1, CIRCLE_POSITION_X2);
    OffsetsWithinAppend(CIRCLE_POSITION_X0 + CIRCLE_POSITION_X1 + CIRCLE_POSITION_X2, CIRCLE_POSITION_X3);
    OffsetsWithinAppend(CIRCLE_POSITION_X0 + CIRCLE_POSITION_X1 + CIRCLE_POSITION_X2 + CIRCLE_POSITION_X3, CIRCLE_POSITION_X4);
    OffsetsWithinAppend(CIRCLE_POSITION_X0 + CIRCLE_POSITION_X1 + CIRCLE_POSITION_X2 + CIRCLE_POSITION_X3 + CIRCLE_POSITION_X4, CIRCLE_POSITION_X5);
    OffsetsWithinAppend(CIRCLE_POSITION_X0 + CIRCLE_POSITION_X1 + CIRCLE_POSITION_X2 + CIRCLE_POSITION_X3 + CIRCLE_POSITION_X4 + CIRCLE_POSITION_X5, CIRCLE_POSITION_X6);
    OffsetsWithinAppend(CIRCLE_POSITION_X0 + CIRCLE_POSITION_X1 + CIRCLE_POSITION_X2 + CIRCLE_POSITION_X3 + CIRCLE_POSITION_X4 + CIRCLE_POSITION_X5 + CIRCLE_POSITION_X6, CIRCLE_POSITION_X7);
    OffsetsWithinAppend(CIRCLE_POSITION_X0 + CIRCLE_POSITION_X1 + CIRCLE_POSITION_X2 + CIRCLE_POSITION_X3 + CIRCLE_POSITION_X4 + CIRCLE_POSITION_X5 + CIRCLE_POSITION_X6 + CIRCLE_POSITION_X7, CIRCLE_POSITION_X8);
    OffsetsWithinAppend(CIRCLE_POSITION_X0 + CIRCLE_POSITION_X1 + CIRCLE_POSITION_X2 + CIRCLE_POSITION_X3 + CIRCLE_POSITION_X4 + CIRCLE_POSITION_X5 + CIRCLE_POSITION_X6 + CIRCLE_POSITION_X7 + CIRCLE_POSITION_X8, CIRCLE_POSITION_X9);
    OffsetsWithinAppend(CIRCLE_POSITION_Y0, CIRCLE_POSITION_Y1);
    OffsetsWithinAppend(CIRCLE_POSITION_Y0 + CIRCLE_POSITION_Y1, CIRCLE_POSITION_Y2);
    OffsetsWithinAppend(CIRCLE_POSITION_Y0 + CIRCLE_POSITION_Y1 + CIRCLE_POSITION_Y2, CIRCLE_POSITION_Y3);
    OffsetsWithinAppend(CIRCLE_POSITION_Y0 + CIRCLE_POSITION_Y1 + CIRCLE_POSITION_Y2 + CIRCLE_POSITION_Y3, CIRCLE_POSITION_Y4);
    OffsetsWithinAppend(CIRCLE_POSITION_Y0 + CIRCLE_POSITION_Y1 + CIRCLE_POSITION_Y2 + CIRCLE_POSITION_Y3 + CIRCLE_POSITION_Y4, CIRCLE_POSITION_Y5);
    OffsetsWithinAppend(CIRCLE_POSITION_Y0 + CIRCLE_POSITION_Y1 + CIRCLE_POSITION_Y2 + CIRCLE_POSITION_Y3 + CIRCLE_POSITION_Y4 + CIRCLE_POSITION_Y5, CIRCLE_POSITION_Y6);
    OffsetsWithinAppend(CIRCLE_POSITION_Y0 + CIRCLE_POSITION_Y1 + CIRCLE_POSITION_Y2 + CIRCLE_POSITION_Y3 + CIRCLE_POSITION_Y4 + CIRCLE_POSITION_Y5 + CIRCLE_POSITION_Y6, CIRCLE_POSITION_Y7);
    OffsetsWithinAppend(CIRCLE_POSITION_Y0 + CIRCLE_POSITION_Y1 + CIRCLE_POSITION_Y2 + CIRCLE_POSITION_Y3 + CIRCLE_POSITION_Y4 + CIRCLE_POSITION_Y5 + CIRCLE_POSITION_Y6 + CIRCLE_POSITION_Y7, CIRCLE_POSITION_Y8);
    OffsetsWithinAppend(CIRCLE_POSITION_Y0 + CIRCLE_POSITION_Y1 + CIRCLE_POSITION_Y2 + CIRCLE_POSITION_Y3 + CIRCLE_POSITION_Y4 + CIRCLE_POSITION_Y5 + CIRCLE_POSITION_Y6 + CIRCLE_POSITION_Y7 + CIRCLE_POSITION_Y8, CIRCLE_POSITION_Y9);
  }

  /** The setpoint for circle index i: the centre plus the table entry. */
  function CirclePoint(i: nat): (p: Point)
    requires i < CIRCLE_SIZE
    ensures 1900 <= p.x <= 2400 && 1900 <= p.y <= 2400
  {
    CircleTableBounds();
    Point(CENTER_X + CIRCLE_POSITION_X[i], CENTER_Y + CIRCLE_POSITION_Y[i])
  }
}
