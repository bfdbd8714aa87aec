/**
 * The body of the polling loop in `joystick_run`: one MIDI event
 * `(status, data1, data2)` is looked up in the table and becomes a button
 * press, an axis position, a repeater pulse, the release of the last button,
 * or nothing. The vJoy driver is an append-only log of the calls made to it.
 */
module Dispatch {
  import opened Wrappers
  import opened Text
  import opened Config

  /** The `axis` table: vJoy axis usage codes by configuration token. */
  const Axes: map<string, int> :=
    map["X" := 0x30, "Y" := 0x31, "Z" := 0x32, "RX" := 0x33, "RY" := 0x34, "RZ" := 0x35,
        "SL0" := 0x36, "SL1" := 0x37, "WHL" := 0x38, "POV" := 0x39]

  /** Ten axis tokens with ten distinct codes, 0x30 to 0x39. */
  lemma AxisCodes()
    ensures forall t :: t in Axes ==> 0x30 <= Axes[t] <= 0x39
    ensures forall t, u :: t in Axes && u in Axes && t != u ==> Axes[t] != Axes[u]
  {
  }

  /**
   * `(reading + 1) << 8`. Python's `<<` on an int by 8 is multiplication
   * by 256 for every int, negative ones included.
   */
  function AxisValue(reading: int): (v: int)
    ensures 0 <= reading <= 127 ==> 256 <= v <= 32768
  {
    (reading + 1) * 256
  }

  /** The scaling is strictly increasing and the reading can be read back. */
  lemma AxisValueFaithful(r1: int, r2: int)
    ensures AxisValue(r1) % 256 == 0 && AxisValue(r1) / 256 - 1 == r1
    ensures r1 < r2 <==> AxisValue(r1) < AxisValue(r2)
  {
  }

  /** One event read from the MIDI input. */
  datatype Event = Event(status: int, data1: int, data2: int)

  /** `(vjoy device, vjoy button)` as stored: the button is still a token. */
  datatype Target = Target(dev: int, btn: string)

  /** A call into the vJoy driver. */
  datatype Call =
    | SetBtn(value: int, dev: int, btn: int)
    | SetAxis(value: int, dev: int, code: int)

  /**
   * The loop's variables: `previous_key`/`previous_vjoy_device` (together,
   * the last button press), `value_cache`, `up_vjoy` and `down_vjoy`.
   */
  datatype DispatchState = DispatchState(
    lastPress: Option<Target>,
    cache: map<Key, int>,
    up: Option<Target>,
    down: Option<Target>)

  /** `None`, `None`, `{}`, `None`, `None` */
  const Initial: DispatchState := DispatchState(None, map[], None, None)

  /**
   * The state after one event, the driver calls it made, and whether it
   * raised (which ends the loop).
   */
  datatype Reaction = Reaction(next: DispatchState, calls: seq<Call>, halted: bool)

  /** `opt[1]` when it is a string; the list's `opt[1]` is a tuple, never an axis name. */
  function FieldOne(e: Entry): Option<string> {
    match e
    case Plain(_, f) => Some(f)
    case Half(h) => Some(h.btn)
    case Pair(_, _) => None
  }

  /** `opt[1] in axis` */
  predicate IsAxisEntry(e: Entry) {
    FieldOne(e).Some? && FieldOne(e).value in Axes
  }

  /** `opt[0]` of a tuple entry. */
  function DeviceOf(e: Entry): int
    requires !e.Pair?
  {
    if e.Plain? then e.dev else e.half.dev
  }

  /** `previous_key and previous_vjoy_device`: device 0 and the empty token are falsy. */
  predicate PressRecorded(p: Option<Target>) {
    p.Some? && p.value.dev != 0 && p.value.btn != ""
  }

  /**
   * The `for element in opt` loop choosing `up_vjoy` and `down_vjoy`:
   * `None` is the IndexError of `element[3]` on an element that is not a
   * 4-tuple.
   */
  function ScanTargets(elements: seq<Entry>, up: Option<Target>, down: Option<Target>)
    : Option<(Option<Target>, Option<Target>)>
    decreases |elements|
  {
    if elements == [] then Some((up, down))
    else
      match ScanTargets(elements[..|elements| - 1], up, down)
      case None => None
      case Some(targets) =>
        match elements[|elements| - 1]
        case Half(h) =>
          if h.dir == "up" then Some((Some(Target(h.dev, h.btn)), targets.1))
          else if h.dir == "down" then Some((targets.0, Some(Target(h.dev, h.btn))))
          else Some(targets)
        case _ => None
  }

  /** The two elements of a repeater list. */
  function Elements(e: Entry): seq<Entry>
    requires e.Pair?
  {
    [e.first, Half(e.second)]
  }

  /**
   * `SetBtn(1, t[0], int(t[1]))` then `SetBtn(0, t[0], int(t[1]))`; `None`
   * when `t` is `None` (TypeError) or its button is not an integer
   * (ValueError).
   */
  function Pulse(t: Option<Target>): Option<seq<Call>> {
    if t.None? then None
    else
      match ParseInt(t.value.btn)
      case None => None
      case Some(b) => Some([SetBtn(1, t.value.dev, b), SetBtn(0, t.value.dev, b)])
  }

  /** The repeater branch for a list entry. */
  function Repeat(key: Key, opt: Entry, reading: int, s: DispatchState): Reaction
    requires opt.Pair?
  {
    match ScanTargets(Elements(opt), s.up, s.down)
    case None => Reaction(s, [], true)
    case Some(targets) =>
      var s1 := s.(up := targets.0, down := targets.1);
      var s2 := s1.(cache := s.cache[key := reading]);
      if key !in s.cache then Reaction(s2, [], false)
      else
        var diff := reading - s.cache[key];
        if diff == 0 then Reaction(s2, [], false)
        else
          match Pulse(if diff > 0 then targets.0 else targets.1)
          case None => Reaction(s1, [], true)
          case Some(pulse) => Reaction(s2, pulse, false)
  }

  /** One pass of the inner polling loop. */
  function Dispatch(table: map<Key, Entry>, s: DispatchState, e: Event): Reaction {
    var key := Key(e.status, e.data1);
    var reading := e.data2;
    if key !in table then
      if e.status != 248 && reading == 0 && PressRecorded(s.lastPress) then
        match ParseInt(s.lastPress.value.btn)
        case None => Reaction(s, [], true)
        case Some(b) => Reaction(s, [SetBtn(reading, s.lastPress.value.dev, b)], false)
      else Reaction(s, [], false)
    else if e.status == 0 then Reaction(s, [], false)
    else
      var opt := table[key];
      if IsAxisEntry(opt) then
        Reaction(s, [SetAxis(AxisValue(reading), DeviceOf(opt), Axes[FieldOne(opt).value])], false)
      else if opt.Pair? then Repeat(key, opt, reading, s)
      else
        var btn := FieldOne(opt).value;
        match ParseInt(btn)
        case None => Reaction(s, [], true)
        case Some(b) =>
          Reaction(s.(lastPress := Some(Target(DeviceOf(opt), btn))), [SetBtn(reading, DeviceOf(opt), b)], false)
  }

  /** The inner loop over a stream of events; the first one that raises ends it. */
  function Process(table: map<Key, Entry>, s: DispatchState, events: seq<Event>): Reaction
    decreases |events|
  {
    if events == [] then Reaction(s, [], false)
    else
      var r := Dispatch(table, s, events[0]);
      if r.halted then r
      else
        var rest := Process(table, r.next, events[1..]);
        Reaction(rest.next, r.calls + rest.calls, rest.halted)
  }

  /** The recorded last press always names a button `int()` accepts. */
  predicate StateInv(s: DispatchState) {
    s.lastPress.Some? ==> ParseInt(s.lastPress.value.btn).Some?
  }

  // ---- Properties of one event ----

  /**
   * An unmapped key releases the last pressed button when the reading is 0,
   * the status is not the 248 clock and a press is recorded; otherwise it
   * does nothing. The state never changes.
   */
  lemma UnmappedEvent(table: map<Key, Entry>, s: DispatchState, e: Event)
    requires Key(e.status, e.data1) !in table
    requires StateInv(s)
    ensures var r := Dispatch(table, s, e);
            && r.next == s
            && !r.halted
            && r.calls == if e.status != 248 && e.data2 == 0 && PressRecorded(s.lastPress)
                          then [SetBtn(0, s.lastPress.value.dev, ParseInt(s.lastPress.value.btn).value)]
                          else []
  {
  }

  /** Clock messages (status 248) for unmapped keys do nothing at all. */
  lemma UnmappedClockIgnored(table: map<Key, Entry>, s: DispatchState, data1: int, data2: int)
    requires Key(248, data1) !in table
    ensures Dispatch(table, s, Event(248, data1, data2)) == Reaction(s, [], false)
  {
  }

  /** A mapped event with status byte 0 does nothing. */
  lemma StatusZeroIgnored(table: map<Key, Entry>, s: DispatchState, data1: int, data2: int)
    requires Key(0, data1) in table
    ensures Dispatch(table, s, Event(0, data1, data2)) == Reaction(s, [], false)
  {
  }

  /**
   * A mapped key whose `opt[1]` is an axis token sends exactly one
   * `SetAxis((reading + 1) << 8, dev, axis[token])`, with a code in
   * 0x30..0x39; the state does not change. Status 248 is not filtered here.
   */
  lemma AxisEvent(table: map<Key, Entry>, s: DispatchState, e: Event)
    requires Key(e.status, e.data1) in table
    requires e.status != 0
    requires IsAxisEntry(table[Key(e.status, e.data1)])
    ensures var opt := table[Key(e.status, e.data1)];
            var r := Dispatch(table, s, e);
            && !opt.Pair?
            && r == Reaction(s, [SetAxis(AxisValue(e.data2), DeviceOf(opt), Axes[FieldOne(opt).value])], false)
            && 0x30 <= Axes[FieldOne(opt).value] <= 0x39
  {
    AxisCodes();
  }

  /**
   * A 2-tuple entry, or a lone repeater 4-tuple, whose `opt[1]` is not an
   * axis token is a normal button: `SetBtn(reading, dev, int(btn))` with the
   * raw reading as the value, and `(dev, btn)` becomes the last press. A
   * button token `int()` rejects raises instead, with no call made.
   */
  lemma ButtonEvent(table: map<Key, Entry>, s: DispatchState, e: Event)
    requires Key(e.status, e.data1) in table
    requires e.status != 0
    requires var opt := table[Key(e.status, e.data1)]; (opt.Plain? || opt.Half?) && !IsAxisEntry(opt)
    ensures var opt := table[Key(e.status, e.data1)];
            var btn := FieldOne(opt).value;
            var r := Dispatch(table, s, e);
            && (r.halted <==> ParseInt(btn).None?)
            && (r.halted ==> r.next == s && r.calls == [])
            && (!r.halted ==>
                  && r.calls == [SetBtn(e.data2, DeviceOf(opt), ParseInt(btn).value)]
                  && r.next == s.(lastPress := Some(Target(DeviceOf(opt), btn))))
  {
  }

  /**
   * With its first element a 4-tuple, the repeater loop sets `up_vjoy` from
   * the last element marked "up" and `down_vjoy` from the last marked "down";
   * a direction neither list element names keeps its earlier value, from
   * whatever repeater set it before. A first element that is not a 4-tuple
   * raises.
   */
  lemma ScanPair(first: Entry, second: RepeaterHalf, up: Option<Target>, down: Option<Target>)
    ensures var scan := ScanTargets([first, Half(second)], up, down);
            && (scan.None? <==> !first.Half?)
            && (first.Half? ==>
                  var t1 := Target(first.half.dev, first.half.btn);
                  var t2 := Target(second.dev, second.btn);
                  scan == Some((
                    if second.dir == "up" then Some(t2) else if first.half.dir == "up" then Some(t1) else up,
                    if second.dir == "down" then Some(t2) else if first.half.dir == "down" then Some(t1) else down)))
  {
    var es := [first, Half(second)];
    assert es[..1] == [first];
    assert [first][..0] == [];
    assert ScanTargets([], up, down) == Some((up, down));
    var one := ScanTargets([first], up, down);
    assert one.None? <==> !first.Half?;
    if first.Half? {
      var h := first.half;
      assert one == Some(if h.dir == "up" then (Some(Target(h.dev, h.btn)), down)
                         else if h.dir == "down" then (up, Some(Target(h.dev, h.btn)))
                         else (up, down));
    }
    assert ScanTargets(es, up, down) == match one
      case None => None
      case Some(targets) =>
        if second.dir == "up" then Some((Some(Target(second.dev, second.btn)), targets.1))
        else if second.dir == "down" then Some((targets.0, Some(Target(second.dev, second.btn))))
        else Some(targets);
  }

  /**
   * The first event for a repeater key already takes the up and down
   * targets from the list; it sends nothing and records the reading, and the
   * last press is left alone.
   */
  lemma RepeaterFirstEvent(table: map<Key, Entry>, s: DispatchState, e: Event)
    requires Key(e.status, e.data1) in table
    requires e.status != 0
    requires table[Key(e.status, e.data1)].Pair? && table[Key(e.status, e.data1)].first.Half?
    requires Key(e.status, e.data1) !in s.cache
    ensures var key := Key(e.status, e.data1);
            var opt := table[key];
            ScanTargets(Elements(opt), s.up, s.down).Some? &&
            var targets := ScanTargets(Elements(opt), s.up, s.down).value;
            var r := Dispatch(table, s, e);
            && r.next.up == targets.0 && r.next.down == targets.1
            && !r.halted
            && r.calls == []
            && r.next.cache == s.cache[key := e.data2]
            && r.next.lastPress == s.lastPress
  {
    var opt := table[Key(e.status, e.data1)];
    ScanPair(opt.first, opt.second, s.up, s.down);
  }

  /**
   * Later events for a repeater key pulse `up` when the reading grew and
   * `down` when it shrank (press, then release), and send nothing when it
   * is equal. The reading is recorded whenever the event does not raise, and
   * no other cache entry and not the last press changes.
   */
  lemma RepeaterLaterEvent(table: map<Key, Entry>, s: DispatchState, e: Event)
    requires Key(e.status, e.data1) in table
    requires e.status != 0
    requires table[Key(e.status, e.data1)].Pair? && table[Key(e.status, e.data1)].first.Half?
    requires Key(e.status, e.data1) in s.cache
    ensures var key := Key(e.status, e.data1);
            var opt := table[key];
            ScanTargets(Elements(opt), s.up, s.down).Some? &&
            var targets := ScanTargets(Elements(opt), s.up, s.down).value;
            var before := s.cache[key];
            var r := Dispatch(table, s, e);
            && r.next.up == targets.0 && r.next.down == targets.1
            && r.next.lastPress == s.lastPress
            && (r.halted <==> (e.data2 > before && Pulse(targets.0).None?)
                              || (e.data2 < before && Pulse(targets.1).None?))
            && (r.halted ==> r.calls == [] && r.next.cache == s.cache)
            && (!r.halted ==> r.next.cache == s.cache[key := e.data2])
            && (!r.halted && e.data2 > before ==>
                  var b := ParseInt(targets.0.value.btn).value;
                  r.calls == [SetBtn(1, targets.0.value.dev, b), SetBtn(0, targets.0.value.dev, b)])
            && (!r.halted && e.data2 < before ==>
                  var b := ParseInt(targets.1.value.btn).value;
                  r.calls == [SetBtn(1, targets.1.value.dev, b), SetBtn(0, targets.1.value.dev, b)])
            && (e.data2 == before ==> !r.halted && r.calls == [])
  {
    var opt := table[Key(e.status, e.data1)];
    ScanPair(opt.first, opt.second, s.up, s.down);
  }

  /** An event that raises has made no driver call and recorded nothing. */
  lemma HaltIsSilent(table: map<Key, Entry>, s: DispatchState, e: Event)
    ensures var r := Dispatch(table, s, e);
            r.halted ==> r.calls == [] && r.next.cache == s.cache && r.next.lastPress == s.lastPress
  {
  }

  /**
   * The cache only grows: an event changes at most its own key's entry, and
   * only when the key is bound to a repeater list.
   */
  lemma CacheOnlyGrows(table: map<Key, Entry>, s: DispatchState, e: Event)
    ensures var key := Key(e.status, e.data1);
            var r := Dispatch(table, s, e);
            && s.cache.Keys <= r.next.cache.Keys
            && (forall k :: k in s.cache && k != key ==> r.next.cache[k] == s.cache[k])
            && (r.next.cache != s.cache ==> key in table && table[key].Pair? && r.next.cache == s.cache[key := e.data2])
  {
  }

  /** Every reachable state keeps a last press whose button `int()` accepts. */
  lemma DispatchKeepsInv(table: map<Key, Entry>, s: DispatchState, e: Event)
    requires StateInv(s)
    ensures StateInv(Dispatch(table, s, e).next)
  {
  }

  // ---- Properties of the loop ----

  /** Once an event raises, the events after it are never processed. */
  lemma {:induction false} ProcessStopsAtHalt(table: map<Key, Entry>, s: DispatchState,
                                               events: seq<Event>, more: seq<Event>)
    requires Process(table, s, events).halted
    ensures Process(table, s, events + more) == Process(table, s, events)
    decreases |events|
  {
    var r := Dispatch(table, s, events[0]);
    assert (events + more)[0] == events[0];
    if !r.halted {
      assert (events + more)[1..] == events[1..] + more;
      ProcessStopsAtHalt(table, r.next, events[1..], more);
    }
  }

  /** One turn of the loop: the first event, then the rest unless it raised. */
  lemma ProcessStep(table: map<Key, Entry>, s: DispatchState, events: seq<Event>)
    requires events != []
    ensures var r := Dispatch(table, s, events[0]);
            var rest := Process(table, r.next, events[1..]);
            Process(table, s, events) == if r.halted then r else Reaction(rest.next, r.calls + rest.calls, rest.halted)
  {
  }

  /** Bookkeeping for the loop: one more event's calls move into the log. */
  lemma LogStep(whole: Reaction, out: seq<Call>, rest: Reaction, d: Reaction, after: Reaction)
    requires whole == Reaction(rest.next, out + rest.calls, rest.halted)
    requires !d.halted && rest == Reaction(after.next, d.calls + after.calls, after.halted)
    ensures whole == Reaction(after.next, (out + d.calls) + after.calls, after.halted)
  {
    assert out + (d.calls + after.calls) == (out + d.calls) + after.calls;
  }

  /** Running two stretches of events is running their concatenation. */
  lemma {:induction false} ProcessAppend(table: map<Key, Entry>, s: DispatchState,
                                          events: seq<Event>, more: seq<Event>)
    requires !Process(table, s, events).halted
    ensures var first := Process(table, s, events);
            var second := Process(table, first.next, more);
            Process(table, s, events + more) == Reaction(second.next, first.calls + second.calls, second.halted)
    decreases |events|
  {
    if events == [] {
      assert events + more == more;
    } else {
      var all := events + more;
      assert all[0] == events[0];
      assert all[1..] == events[1..] + more;
      var r := Dispatch(table, s, events[0]);
      ProcessStep(table, s, events);
      ProcessStep(table, s, all);
      ProcessAppend(table, r.next, events[1..], more);
      var tail := Process(table, r.next, events[1..]);
      LogStep(Process(table, s, all), [], Process(table, s, all), r,
              Process(table, r.next, all[1..]));
      JoinLogs(r.calls, tail.calls, Process(table, tail.next, more).calls);
    }
  }

  lemma JoinLogs(a: seq<Call>, b: seq<Call>, c: seq<Call>)
    ensures a + (b + c) == (a + b) + c
  {
  }

  /** The invariant holds after any run from a state that has it. */
  lemma {:induction false} ProcessKeepsInv(table: map<Key, Entry>, s: DispatchState, events: seq<Event>)
    requires StateInv(s)
    ensures StateInv(Process(table, s, events).next)
    decreases |events|
  {
    if events != [] {
      DispatchKeepsInv(table, s, events[0]);
      ProcessKeepsInv(table, Dispatch(table, s, events[0]).next, events[1..]);
    }
  }

  /**
   * The run loop of `joystick_run` with its variables. The table is fixed
   * once loaded; `calls` is what the vJoy driver has been asked to do.
   */
  class Dispatcher {
    const table: map<Key, Entry>
    var lastPress: Option<Target>
    var valueCache: map<Key, int>
    var up: Option<Target>
    var down: Option<Target>
    var calls: seq<Call>

    function State(): DispatchState
      reads this
    {
      DispatchState(lastPress, valueCache, up, down)
    }

    ghost predicate Valid()
      reads this
    {
      StateInv(State())
    }

    constructor (table: map<Key, Entry>)
      ensures Valid()
      ensures this.table == table && State() == Initial && calls == []
    {
      this.table := table;
      lastPress, valueCache, up, down := None, map[], None, None;
      calls := [];
    }

    /** One event; `halted` is true when the Python code would raise. */
    method HandleEvent(e: Event) returns (halted: bool)
      requires Valid()
      modifies this
      ensures Valid()
      ensures var r := Dispatch(table, old(State()), e);
              State() == r.next && calls == old(calls) + r.calls && halted == r.halted
    {
      DispatchKeepsInv(table, State(), e);
      var key := Key(e.status, e.data1);
      var reading := e.data2;
      halted := false;
      if key !in table {
        // It may be the release of the previous key.
        if e.status != 248 && reading == 0 && PressRecorded(lastPress) {
          var b := ParseInt(lastPress.value.btn).value;
          calls := calls + [SetBtn(reading, lastPress.value.dev, b)];
        }
        return;
      }
      var opt := table[key];
      if e.status != 0 {
        if !(FieldOne(opt).Some? && FieldOne(opt).value in Axes) {
          if opt.Pair? {
            halted := Repeater(key, opt, reading);
          } else {
            // A normal button.
            var dev := DeviceOf(opt);
            var btn := FieldOne(opt).value;
            var b := ParseInt(btn);
            if b.None? {
              return true;
            }
            calls := calls + [SetBtn(reading, dev, b.value)];
            lastPress := Some(Target(dev, btn));
          }
        } else {
          calls := calls + [SetAxis(AxisValue(reading), DeviceOf(opt), Axes[FieldOne(opt).value])];
        }
      }
    }

    /**
     * The repeater branch: pick the up and down targets from the list, pulse
     * one of them when the reading moved, and record the reading.
     */
    method Repeater(key: Key, opt: Entry, reading: int) returns (halted: bool)
      requires opt.Pair?
      modifies this
      ensures var r := Repeat(key, opt, reading, old(State()));
              State() == r.next && calls == old(calls) + r.calls && halted == r.halted
    {
      var elements := Elements(opt);
      ScanPair(opt.first, opt.second, up, down);
      for j := 0 to |elements|
        invariant ScanTargets(elements[..j], old(up), old(down)) == Some((up, down))
        invariant lastPress == old(lastPress) && valueCache == old(valueCache) && calls == old(calls)
      {
        assert elements[..j + 1][..j] == elements[..j];
        match elements[j] {
          case Half(h) =>
            if h.dir == "up" {
              up := Some(Target(h.dev, h.btn));
            } else if h.dir == "down" {
              down := Some(Target(h.dev, h.btn));
            }
          case _ =>
            return true;
        }
      }
      assert elements[..|elements|] == elements;
      halted := false;
      if key in valueCache {
        var diff := reading - valueCache[key];
        if diff != 0 {
          halted := Press(if diff > 0 then up else down);
          if halted {
            return;
          }
        }
      }
      valueCache := valueCache[key := reading];
    }

    /** Press then release the target's button; raise when there is none or it is not an integer. */
    method Press(t: Option<Target>) returns (halted: bool)
      modifies this
      ensures halted <==> Pulse(t).None?
      ensures calls == old(calls) + if halted then [] else Pulse(t).value
      ensures lastPress == old(lastPress) && valueCache == old(valueCache)
      ensures up == old(up) && down == old(down)
    {
      if t.None? {
        return true;
      }
      var b := ParseInt(t.value.btn);
      if b.None? {
        return true;
      }
      calls := calls + [SetBtn(1, t.value.dev, b.value)];
      calls := calls + [SetBtn(0, t.value.dev, b.value)];
      halted := false;
    }

    /**
     * The polling loop over the events that arrive; it stops at the first
     * event that raises, as the surrounding `try` does.
     */
    method Run(events: seq<Event>) returns (halted: bool)
      requires Valid()
      modifies this
      ensures Valid()
      ensures var r := Process(table, old(State()), events);
              State() == r.next && calls == old(calls) + r.calls && halted == r.halted
    {
      ghost var s0 := State();
      ghost var c0 := calls;
      ghost var out: seq<Call> := [];
      halted := false;
      var i := 0;
      while i < |events|
        invariant 0 <= i <= |events|
        invariant Valid()
        invariant calls == c0 + out
        invariant var rest := Process(table, State(), events[i..]);
                  Process(table, s0, events) == Reaction(rest.next, out + rest.calls, rest.halted)
      {
        ghost var si := State();
        ghost var d := Dispatch(table, si, events[i]);
        assert events[i..][0] == events[i] && events[i..][1..] == events[i + 1..];
        ProcessStep(table, si, events[i..]);
        halted := HandleEvent(events[i]);
        if halted {
          HaltIsSilent(table, si, events[i]);
          assert out + d.calls == out;
          return;
        }
        LogStep(Process(table, s0, events), out, Process(table, si, events[i..]), d,
                Process(table, d.next, events[i + 1..]));
        out := out + d.calls;
        i := i + 1;
      }
      assert out + [] == out;
      assert events[i..] == [];
    }
  }
}
