/**
 * Whole runs: configuration text loaded by the loader, then events
 * dispatched from the initial state.
 */
module Scenarios {
  import opened Wrappers
  import opened Text
  import opened Config
  import opened Dispatch

  lemma ShowSmall()
    ensures ShowInt(1) == "1" && ShowInt(2) == "2" && ShowInt(3) == "3"
    ensures ShowInt(5) == "5" && ShowInt(6) == "6" && ShowInt(7) == "7"
    ensures ShowInt(10) == "10" && ShowInt(176) == "176"
  {
    assert ShowNat(17) == ShowNat(1) + [DigitChar(7)];
    assert ShowNat(176) == ShowNat(17) + [DigitChar(6)];
    assert ShowNat(10) == ShowNat(1) + [DigitChar(0)];
  }

  lemma AxisLineText()
    ensures PlainText(176, 7, 1, "X") == "176 7 1 X"
  {
    ShowSmall();
  }

  lemma LoadOne(line: string, d: LineDef)
    requires Classify(line) == Def(d)
    ensures Load([line]) == Success(Config(Enter(map[], d), [d.Device()]))
  {
    var ks := Kinds([line]);
    assert |ks| == 1 && ks[0] == Def(d);
    assert ks == [] + [Def(d)];
    ReplaySnoc([], Def(d));
    assert Replay(ks) == Step(Success(Config(map[], [])), Def(d));
    assert AddDevice([], d.Device()) == [d.Device()];
  }

  lemma ProcessOne(table: map<Key, Entry>, s: DispatchState, e: Event)
    requires !Dispatch.Dispatch(table, s, e).halted
    ensures Process(table, s, [e]) == Dispatch.Dispatch(table, s, e)
  {
    var r := Dispatch.Dispatch(table, s, e);
    assert [e][1..] == [];
    assert Process(table, r.next, []) == Reaction(r.next, [], false);
    assert r.calls + [] == r.calls;
  }

  /** The line `176 7 1 X` maps (176, 7) to the X axis of device 1. */
  lemma AxisLoad()
    ensures Load(["176 7 1 X"]) == Success(Config(map[Key(176, 7) := Plain(1, "X")], [1]))
  {
    AxisLineText();
    ClassifyPlainText(176, 7, 1, "X");
    LoadOne("176 7 1 X", PlainLine(Key(176, 7), 1, "X"));
  }

  /** The event (176, 7, 64) on that table sets X to `(64 + 1) << 8`. */
  lemma AxisDispatch()
    ensures Process(map[Key(176, 7) := Plain(1, "X")], Initial, [Event(176, 7, 64)])
            == Reaction(Initial, [SetAxis(16640, 1, 0x30)], false)
  {
    var table := map[Key(176, 7) := Plain(1, "X")];
    assert IsAxisEntry(table[Key(176, 7)]);
    ProcessOne(table, Initial, Event(176, 7, 64));
  }

  lemma ProcessTwo(table: map<Key, Entry>, s: DispatchState, e1: Event, e2: Event)
    requires !Dispatch.Dispatch(table, s, e1).halted
    requires !Dispatch.Dispatch(table, Dispatch.Dispatch(table, s, e1).next, e2).halted
    ensures var r1 := Dispatch.Dispatch(table, s, e1);
            var r2 := Dispatch.Dispatch(table, r1.next, e2);
            Process(table, s, [e1, e2]) == Reaction(r2.next, r1.calls + r2.calls, false)
  {
    var r1 := Dispatch.Dispatch(table, s, e1);
    ProcessOne(table, s, e1);
    ProcessOne(table, r1.next, e2);
    ProcessAppend(table, s, [e1], [e2]);
    assert [e1] + [e2] == [e1, e2];
  }

  lemma LoadTwo(l1: string, d1: LineDef, l2: string, d2: LineDef)
    requires Classify(l1) == Def(d1) && Classify(l2) == Def(d2)
    ensures Load([l1, l2])
            == Success(Config(Enter(Enter(map[], d1), d2), AddDevice([d1.Device()], d2.Device())))
  {
    LoadOne(l1, d1);
    LoadSnoc([l1], l2);
    assert [l1] + [l2] == [l1, l2];
  }

  const Up := RepeaterHalf(1, "5", "rep", "up")
  const Down := RepeaterHalf(1, "6", "rep", "down")

  lemma RepeaterWords()
    ensures IsWord("5") && IsWord("6") && IsWord("rep") && IsWord("up") && IsWord("down")
  {
    assert forall i :: 0 <= i < 3 ==> "rep"[i] in "rep";
  }

  lemma JoinCons(w: string, ws: seq<string>)
    requires ws != []
    ensures Join([w] + ws) == w + " " + Join(ws)
  {
    assert ([w] + ws)[1..] == ws;
  }

  lemma JoinTail(a: string, b: string, c: string, d: string)
    ensures Join([a, b, c, d]) == a + " " + b + " " + c + " " + d
  {
    assert [c, d] == [c] + [d];
    JoinCons(c, [d]);
    assert [b, c, d] == [b] + [c, d];
    JoinCons(b, [c, d]);
    assert [a, b, c, d] == [a] + [b, c, d];
    JoinCons(a, [b, c, d]);
  }

  lemma JoinSix(a: string, b: string, c: string, d: string, e: string, f: string)
    ensures Join([a, b, c, d, e, f]) == a + " " + b + " " + Join([c, d, e, f])
  {
    assert [b, c, d, e, f] == [b] + [c, d, e, f];
    JoinCons(b, [c, d, e, f]);
    assert [a, b, c, d, e, f] == [a] + [b, c, d, e, f];
    JoinCons(a, [b, c, d, e, f]);
  }

  lemma UpLineText()
    ensures RepeaterText(176, 10, Up) == "176 10 1 5 rep up"
  {
    ShowSmall();
    JoinSix("176", "10", "1", "5", "rep", "up");
    JoinTail("1", "5", "rep", "up");
  }

  lemma DownLineText()
    ensures RepeaterText(176, 10, Down) == "176 10 1 6 rep down"
  {
    ShowSmall();
    JoinSix("176", "10", "1", "6", "rep", "down");
    JoinTail("1", "6", "rep", "down");
  }

  /** Two repeater halves on one key load as one list. */
  lemma LoadRepeaterPair(l1: string, l2: string, k: Key, h1: RepeaterHalf, h2: RepeaterHalf)
    requires Classify(l1) == Def(HalfLine(k, h1))
    requires Classify(l2) == Def(HalfLine(k, h2))
    ensures Load([l1, l2]) == Success(Config(map[k := Pair(Half(h1), h2)], AddDevice([h1.dev], h2.dev)))
  {
    var d1 := HalfLine(k, h1);
    var d2 := HalfLine(k, h2);
    LoadTwo(l1, d1, l2, d2);
    EnterTwoHalves(k, h1, h2);
    assert d1.Device() == h1.dev && d2.Device() == h2.dev;
  }

  lemma EnterTwoHalves(k: Key, h1: RepeaterHalf, h2: RepeaterHalf)
    ensures Enter(Enter(map[], HalfLine(k, h1)), HalfLine(k, h2)) == map[k := Pair(Half(h1), h2)]
  {
    assert Enter(map[], HalfLine(k, h1)) == map[k := Half(h1)];
  }

  /**
   * Two six-token lines on the same key (176, 10) combine into one repeater
   * list: the "up" half first, the "down" half second.
   */
  lemma RepeaterLoad()
    ensures Load(["176 10 1 5 rep up", "176 10 1 6 rep down"])
            == Success(Config(map[Key(176, 10) := Pair(Half(Up), Down)], [1]))
  {
    UpLineText();
    DownLineText();
    RepeaterWords();
    ClassifyRepeaterText(176, 10, Up);
    ClassifyRepeaterText(176, 10, Down);
    LoadRepeaterPair("176 10 1 5 rep up", "176 10 1 6 rep down", Key(176, 10), Up, Down);
  }

  /**
   * On that list, a first reading of 50 only records it; a second reading of
   * 70 is an increase and pulses button 5 of device 1.
   */
  lemma RepeaterDispatch()
    ensures Process(map[Key(176, 10) := Pair(Half(Up), Down)], Initial,
                    [Event(176, 10, 50), Event(176, 10, 70)]).calls
            == [SetBtn(1, 1, 5), SetBtn(0, 1, 5)]
  {
    var table := map[Key(176, 10) := Pair(Half(Up), Down)];
    var e1 := Event(176, 10, 50);
    var e2 := Event(176, 10, 70);
    RepeaterFirstEvent(table, Initial, e1);
    var r1 := Dispatch.Dispatch(table, Initial, e1);
    ScanPair(Half(Up), Down, None, None);
    RepeaterLaterEvent(table, r1.next, e2);
    ShowSmall();
    ParseShowInt(5);
    ProcessTwo(table, Initial, e1, e2);
  }

  /**
   * A button bound to (144, 60) is pressed with velocity 100, which is the
   * value sent; the note-off (128, 60, 0), which is not in the table, then
   * releases it.
   */
  lemma ReleaseDispatch()
    ensures Process(map[Key(144, 60) := Plain(2, "3")], Initial,
                    [Event(144, 60, 100), Event(128, 60, 0)]).calls
            == [SetBtn(100, 2, 3), SetBtn(0, 2, 3)]
  {
    var table := map[Key(144, 60) := Plain(2, "3")];
    var e1 := Event(144, 60, 100);
    var e2 := Event(128, 60, 0);
    ShowSmall();
    ParseShowInt(3);
    assert !IsAxisEntry(table[Key(144, 60)]);
    ButtonEvent(table, Initial, e1);
    var r1 := Dispatch.Dispatch(table, Initial, e1);
    UnmappedEvent(table, r1.next, e2);
    ProcessTwo(table, Initial, e1, e2);
  }

  lemma SplitIndentedComment()
    ensures Split(" # axes") == ["#", "axes"]
  {
    SplitAxes();
    assert " # axes"[1..] == "# axes";
    assert WordLength("# axes") == 1;
    assert "# axes"[..1] == "#" && "# axes"[1..] == " axes";
    assert Split("# axes") == ["#"] + Split(" axes");
  }

  lemma SplitAxes()
    ensures Split(" axes") == ["axes"]
  {
    assert " axes"[1..] == "axes";
    assert WordLength("axes") == 4;
    assert "axes"[..4] == "axes" && "axes"[4..] == "";
    assert Split("axes") == ["axes"] + Split("");
  }

  /**
   * Only a `#` in the very first column marks a comment: an indented comment
   * is tokenised like any other line and, with fewer than four tokens, makes
   * the whole load fail.
   */
  lemma IndentedCommentFails()
    ensures Load([" # axes"]).Failure?
  {
    var line := " # axes";
    SplitIndentedComment();
    assert !IsSkipped(line) by { assert !IsSpace(line[1]); }
    assert Malformed(line);
    LoadFailsIff([line]);
  }
}
