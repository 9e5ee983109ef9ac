/** Sums over the hasher workers. */
module WorkerSums {
  import opened Common
  import opened Pipeline

  // What is summed: the workers behind m_workersRunning, those past their look at the abort flag, the blocks
  // held, the blocks held and not yet hashed, the bytes charged but not yet pushed, and the steps left before
  // the next pop.
  datatype Measure = Counting | Popping | Holding | Unhashed | Charged | StepsLeft

  function Weight(c: Config, m: Measure, w: WorkerPc): nat {
    match m
    case Counting => if w.WInit? || w.WTest? || w.WFinQ? || w.WDone? then 0 else 1
    case Popping => if w.WPop? then 1 else 0
    case Holding => if w.WHash? || w.WCompare? || w.WFree? || w.WCharge? || w.WPush? then 1 else 0
    case Unhashed => if w.WHash? then 1 else 0
    case Charged => if w.WPush? then Len(c, w.b.index) else 0
    case StepsLeft =>
      match w
      case WInit => 6 case WLoop => 5 case WPop => 4
      case WHash(_) => 11 case WCompare(_) => 10 case WFree(_) => 9 case WLoad(_) => 7 case WStore(_, _) => 6
      case WCharge(_) => 9 case WPush(_) => 8
      case WExit => 3 case WTest => 2 case WFinQ => 1 case WDone => 0
  }

  function Sum(c: Config, m: Measure, ws: seq<WorkerPc>): nat {
    if ws == [] then 0 else Sum(c, m, ws[..|ws| - 1]) + Weight(c, m, ws[|ws| - 1])
  }

  lemma {:induction false} SumUpdate(c: Config, m: Measure, ws: seq<WorkerPc>, j: nat, w: WorkerPc)
    requires j < |ws|
    ensures Sum(c, m, ws[j := w]) == Sum(c, m, ws) - Weight(c, m, ws[j]) + Weight(c, m, w)
    ensures Sum(c, m, ws) >= Weight(c, m, ws[j])
    decreases |ws|
  {
    var last := |ws| - 1;
    if j == last {
      assert ws[j := w][..last] == ws[..last];
    } else {
      SumUpdate(c, m, ws[..last], j, w);
      assert ws[j := w][..last] == ws[..last][j := w];
    }
  }

  lemma {:induction false} SumZero(c: Config, m: Measure, ws: seq<WorkerPc>)
    ensures Sum(c, m, ws) == 0 <==> forall j :: 0 <= j < |ws| ==> Weight(c, m, ws[j]) == 0
    decreases |ws|
  {
    if ws != [] {
      var last := |ws| - 1;
      SumZero(c, m, ws[..last]);
      if Sum(c, m, ws) == 0 {
        forall j | 0 <= j < |ws| ensures Weight(c, m, ws[j]) == 0 {
          if j < last { assert ws[..last][j] == ws[j]; }
        }
      } else if Weight(c, m, ws[last]) == 0 {
        var j :| 0 <= j < last && Weight(c, m, ws[..last][j]) != 0;
        assert ws[..last][j] == ws[j];
      }
    }
  }
}
