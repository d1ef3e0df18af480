/** The ids under which the page's provider posts its messages. */
module MessageIds {
  import opened Decimals

  function MessageId(now: nat, counter: nat): string {
    "loyal-" + Numeral(now) + "-" + Numeral(counter)
  }

  /** Two ids are equal only when both the clock and the counter were. */
  lemma MessageIdsDiffer(now1: nat, counter1: nat, now2: nat, counter2: nat)
    requires MessageId(now1, counter1) == MessageId(now2, counter2)
    ensures now1 == now2 && counter1 == counter2
  {
    NumeralDenotes(now1);
    NumeralDenotes(now2);
    NumeralDenotes(counter1);
    NumeralDenotes(counter2);
    SplitAtDash(Numeral(now1), Numeral(counter1), Numeral(now2), Numeral(counter2));
  }

  lemma SplitAtDash(x1: string, y1: string, x2: string, y2: string)
    requires AllDigits(x1) && AllDigits(x2)
    requires "loyal-" + x1 + "-" + y1 == "loyal-" + x2 + "-" + y2
    ensures x1 == x2 && y1 == y2
  {
    var id1, id2 := "loyal-" + x1 + "-" + y1, "loyal-" + x2 + "-" + y2;
    assert id1[6 + |x1|] == '-' && id2[6 + |x2|] == '-';
    assert forall i :: 0 <= i < |x1| ==> id1[6 + i] == x1[i];
    assert forall i :: 0 <= i < |x2| ==> id2[6 + i] == x2[i];
    assert |x1| == |x2|;
    assert x1 == id1[6..6 + |x1|] && x2 == id2[6..6 + |x2|];
    assert y1 == id1[7 + |x1|..] && y2 == id2[7 + |x2|..];
  }
}
