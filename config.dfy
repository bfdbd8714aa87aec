/**
 * The configuration loader `read_conf`: lines of text become a table from
 * (status, data1) to a binding, and the list of virtual-device ids in the
 * order they are first seen.
 *
 * The table keeps the loader's own loose typing as three shapes:
 *   - `Plain(dev, field)`  the 2-tuple `(int(fs[2]), fs[3])` of a line that is not 6 tokens long;
 *   - `Half(h)`            the 4-tuple `(int(fs[2]), fs[3], fs[4], fs[5])` of a 6-token line;
 *   - `Pair(first, h)`     the 2-element list `[old, new]` a 6-token line makes of an existing entry.
 */
module Config {
  import opened Wrappers
  import opened Text

  /** `(status, data1)` of a MIDI event. */
  datatype Key = Key(status: int, data1: int)

  /** One repeater line's `(vjoy device, vjoy button, marker, direction)`. */
  datatype RepeaterHalf = RepeaterHalf(dev: int, btn: string, marker: string, dir: string)

  datatype Entry =
    | Plain(dev: int, field: string)
    | Half(half: RepeaterHalf)
    | Pair(first: Entry, second: RepeaterHalf)

  datatype Config = Config(table: map<Key, Entry>, vids: seq<int>)

  /** The whole load fails on the first line `int()` or indexing rejects. */
  datatype ConfigError = BadLine(line: string)

  /** What one accepted line contributes. */
  datatype LineDef =
    | PlainLine(key: Key, dev: int, field: string)
    | HalfLine(key: Key, half: RepeaterHalf)
  {
    /** `int(fs[2])`, the virtual-device id of the line. */
    function Device(): int {
      if PlainLine? then dev else half.dev
    }
  }

  /** Blank lines and lines whose first character is `#` are skipped. */
  predicate IsSkipped(line: string) {
    IsBlank(line) || (|line| > 0 && line[0] == '#')
  }

  /**
   * Tokenise and convert one line that is not skipped. `None` stands for the
   * IndexError of a line with fewer than four tokens and the ValueError of a
   * non-integer status, data1 or device field.
   */
  function ParseLine(line: string): Option<LineDef> {
    var fs := Split(line);
    if |fs| < 4 then None
    else
      match (ParseInt(fs[0]), ParseInt(fs[1]), ParseInt(fs[2]))
      case (Some(status), Some(data1), Some(dev)) =>
        if |fs| == 6 then Some(HalfLine(Key(status, data1), RepeaterHalf(dev, fs[3], fs[4], fs[5])))
        else Some(PlainLine(Key(status, data1), dev, fs[3]))
      case _ => None
  }

  /** How the loader treats one line: skip it, raise on it, or take its definition. */
  datatype LineKind = Skip | Bad(line: string) | Def(def: LineDef)

  function Classify(line: string): LineKind {
    if IsSkipped(line) then Skip
    else
      match ParseLine(line)
      case None => Bad(line)
      case Some(d) => Def(d)
  }

  function Kinds(lines: seq<string>): (ks: seq<LineKind>)
    ensures |ks| == |lines|
    ensures forall i :: 0 <= i < |lines| ==> ks[i] == Classify(lines[i])
  {
    seq(|lines|, i requires 0 <= i < |lines| => Classify(lines[i]))
  }

  /** A line that makes the loader raise. */
  predicate Malformed(line: string) {
    Classify(line).Bad?
  }

  predicate KindMentions(kind: LineKind, k: Key) {
    kind.Def? && kind.def.key == k
  }

  /** A line that defines (part of) the binding of `k`. */
  predicate Mentions(line: string, k: Key) {
    KindMentions(Classify(line), k)
  }

  /** The table update of one accepted line. */
  function Enter(table: map<Key, Entry>, d: LineDef): map<Key, Entry> {
    match d
    case HalfLine(key, h) => table[key := if key in table then Pair(table[key], h) else Half(h)]
    case PlainLine(key, dev, field) => table[key := Plain(dev, field)]
  }

  /** `if not vid in vids: vids.append(vid)` */
  function AddDevice(vids: seq<int>, vid: int): seq<int> {
    if vid in vids then vids else vids + [vid]
  }

  /** The effect of reading one more line. */
  function Step(sofar: Result<Config, ConfigError>, kind: LineKind): Result<Config, ConfigError> {
    match sofar
    case Failure(e) => Failure(e)
    case Success(c) =>
      match kind
      case Skip => Success(c)
      case Bad(line) => Failure(BadLine(line))
      case Def(d) => Success(Config(Enter(c.table, d), AddDevice(c.vids, d.Device())))
  }

  /** The loop of `read_conf` over lines already classified. */
  function Replay(ks: seq<LineKind>): Result<Config, ConfigError>
    decreases |ks|
  {
    if ks == [] then Success(Config(map[], []))
    else Step(Replay(ks[..|ks| - 1]), ks[|ks| - 1])
  }

  /** What `read_conf` returns for these lines, or the error it raises. */
  function Load(lines: seq<string>): Result<Config, ConfigError> {
    Replay(Kinds(lines))
  }

  /** Device ids of the accepted lines, in file order, repetitions kept. */
  function DeviceIdsOf(ks: seq<LineKind>): seq<int>
    decreases |ks|
  {
    if ks == [] then []
    else
      var kind := ks[|ks| - 1];
      DeviceIdsOf(ks[..|ks| - 1]) + if kind.Def? then [kind.def.Device()] else []
  }

  function DeviceIds(lines: seq<string>): seq<int> {
    DeviceIdsOf(Kinds(lines))
  }

  /** The lines with the blank and comment lines taken out. */
  function RemoveSkipped(lines: seq<string>): seq<string>
    decreases |lines|
  {
    if lines == [] then []
    else
      var line := lines[|lines| - 1];
      RemoveSkipped(lines[..|lines| - 1]) + if IsSkipped(line) then [] else [line]
  }

  function DropSkips(ks: seq<LineKind>): seq<LineKind>
    decreases |ks|
  {
    if ks == [] then []
    else DropSkips(ks[..|ks| - 1]) + if ks[|ks| - 1].Skip? then [] else [ks[|ks| - 1]]
  }

  predicate NoDup(s: seq<int>) {
    forall i, j :: 0 <= i < j < |s| ==> s[i] != s[j]
  }

  /** Position of the first occurrence of `x` in `s`. */
  function FirstIndex(s: seq<int>, x: int): (r: nat)
    requires x in s
    ensures r < |s| && s[r] == x
    ensures forall i :: 0 <= i < r ==> s[i] != x
  {
    if s[0] == x then 0 else 1 + FirstIndex(s[1..], x)
  }

  predicate FirstMalformedAt(lines: seq<string>, i: int) {
    && 0 <= i < |lines|
    && Malformed(lines[i])
    && forall j :: 0 <= j < i ==> !Malformed(lines[j])
  }

  predicate FirstBadAt(ks: seq<LineKind>, i: int) {
    && 0 <= i < |ks|
    && ks[i].Bad?
    && forall j :: 0 <= j < i ==> !ks[j].Bad?
  }

  /**
   * `read_conf`: the loop over the lines, updating the table and appending
   * new device ids; a line it cannot convert ends the load with an error.
   */
  method ReadConf(lines: seq<string>) returns (r: Result<Config, ConfigError>)
    ensures r == Load(lines)
    ensures r.Failure? <==> exists i :: 0 <= i < |lines| && Malformed(lines[i])
    ensures r.Success? ==> NoDup(r.value.vids)
  {
    var table: map<Key, Entry> := map[];
    var vids: seq<int> := [];
    var i := 0;
    while i < |lines|
      invariant 0 <= i <= |lines|
      invariant Load(lines[..i]) == Success(Config(table, vids))
    {
      var line := lines[i];
      assert lines[..i + 1] == lines[..i] + [line];
      LoadSnoc(lines[..i], line);
      if !IsSkipped(line) {
        var parsed := ParseLine(line);
        if parsed.None? {
          r := Failure(BadLine(line));
          LoadFailurePersists(lines, i + 1);
          LoadOutcome(lines);
          return;
        }
        var d := parsed.value;
        match d {
          case HalfLine(key, h) =>
            if key in table {
              table := table[key := Pair(table[key], h)];
            } else {
              table := table[key := Half(h)];
            }
          case PlainLine(key, dev, field) =>
            table := table[key := Plain(dev, field)];
        }
        var vid := d.Device();
        if vid !in vids {
          vids := vids + [vid];
        }
      }
      i := i + 1;
    }
    assert lines[..i] == lines;
    r := Success(Config(table, vids));
    LoadOutcome(lines);
  }

  /** What `ReadConf` promises about `Load`, from the two lemmas below. */
  lemma LoadOutcome(lines: seq<string>)
    ensures Load(lines).Failure? <==> exists i :: 0 <= i < |lines| && Malformed(lines[i])
    ensures Load(lines).Success? ==> NoDup(Load(lines).value.vids)
  {
    LoadFailsIff(lines);
    if Load(lines).Success? {
      LoadVids(lines);
    }
  }

  // ---- The fold over classified lines ----

  lemma ReplaySnoc(ks: seq<LineKind>, kind: LineKind)
    ensures Replay(ks + [kind]) == Step(Replay(ks), kind)
  {
    assert (ks + [kind])[..|ks|] == ks;
  }

  lemma {:induction false} ReplayFailurePersists(ks: seq<LineKind>, i: nat)
    requires i <= |ks|
    requires Replay(ks[..i]).Failure?
    ensures Replay(ks) == Replay(ks[..i])
    decreases |ks|
  {
    if i == |ks| {
      assert ks[..i] == ks;
    } else {
      var pre := ks[..|ks| - 1];
      assert pre[..i] == ks[..i];
      ReplayFailurePersists(pre, i);
    }
  }

  lemma {:induction false} ReplayDropSkips(ks: seq<LineKind>)
    ensures Replay(DropSkips(ks)) == Replay(ks)
    decreases |ks|
  {
    if ks != [] {
      var pre := ks[..|ks| - 1];
      var kind := ks[|ks| - 1];
      ReplayDropSkips(pre);
      if kind.Skip? {
        assert DropSkips(ks) == DropSkips(pre) + [];
        assert DropSkips(pre) + [] == DropSkips(pre);
        assert Replay(ks) == Step(Replay(pre), kind);
      } else {
        assert DropSkips(ks) == DropSkips(pre) + [kind];
        ReplaySnoc(DropSkips(pre), kind);
      }
    }
  }

  lemma {:induction false} ReplayKeepsKey(ks: seq<LineKind>, post: seq<LineKind>, k: Key)
    requires Replay(ks + post).Success?
    requires forall j :: 0 <= j < |post| ==> !KindMentions(post[j], k)
    ensures Replay(ks).Success?
    ensures var before := Replay(ks).value.table;
            var after := Replay(ks + post).value.table;
            (k in after <==> k in before) && (k in before ==> after[k] == before[k])
    decreases |post|
  {
    if post == [] {
      assert ks + post == ks;
    } else {
      var p := post[..|post| - 1];
      var kind := post[|post| - 1];
      assert ks + post == (ks + p) + [kind];
      ReplaySnoc(ks + p, kind);
      ReplayKeepsKey(ks, p, k);
    }
  }

  lemma {:induction false} ReplayFailsIff(ks: seq<LineKind>)
    ensures Replay(ks).Failure? <==> exists i :: 0 <= i < |ks| && ks[i].Bad?
    ensures Replay(ks).Failure? ==>
              exists i :: FirstBadAt(ks, i) && Replay(ks).error == BadLine(ks[i].line)
    decreases |ks|
  {
    if ks != [] {
      var pre := ks[..|ks| - 1];
      var kind := ks[|ks| - 1];
      ReplayFailsIff(pre);
      assert forall j :: 0 <= j < |pre| ==> pre[j] == ks[j];
      if Replay(pre).Failure? {
        var i :| FirstBadAt(pre, i) && Replay(pre).error == BadLine(pre[i].line);
        assert FirstBadAt(ks, i);
      } else if kind.Bad? {
        assert FirstBadAt(ks, |ks| - 1);
      } else {
        forall i | 0 <= i < |ks| ensures !ks[i].Bad? {
          if i < |pre| { assert ks[i] == pre[i]; }
        }
      }
    }
  }

  lemma FirstIndexAppend(s: seq<int>, y: int, x: int)
    requires x in s
    ensures FirstIndex(s + [y], x) == FirstIndex(s, x)
  {
    var q := FirstIndex(s, x);
    assert (s + [y])[q] == x;
  }

  lemma {:induction false} ReplayVids(ks: seq<LineKind>)
    requires Replay(ks).Success?
    ensures var vids := Replay(ks).value.vids;
            var ids := DeviceIdsOf(ks);
            && NoDup(vids)
            && (forall x :: x in vids <==> x in ids)
            && (forall i, j :: 0 <= i < j < |vids| ==> FirstIndex(ids, vids[i]) < FirstIndex(ids, vids[j]))
    decreases |ks|
  {
    if ks != [] {
      var pre := ks[..|ks| - 1];
      var kind := ks[|ks| - 1];
      ReplayVids(pre);
      var v := Replay(pre).value.vids;
      var ids := DeviceIdsOf(pre);
      if kind.Def? {
        var d := kind.def.Device();
        var v' := Replay(ks).value.vids;
        var ids' := DeviceIdsOf(ks);
        assert ids' == ids + [d];
        assert v' == AddDevice(v, d);
        forall x | x in ids ensures FirstIndex(ids', x) == FirstIndex(ids, x) {
          FirstIndexAppend(ids, d, x);
        }
        if d !in v {
          assert d !in ids;
          assert FirstIndex(ids', d) == |ids|;
          forall i, j | 0 <= i < j < |v'|
            ensures FirstIndex(ids', v'[i]) < FirstIndex(ids', v'[j])
          {
            assert v'[i] == v[i] && v[i] in ids;
            if j < |v| {
              assert v'[j] == v[j] && v[j] in ids;
            }
          }
        } else {
          forall i, j | 0 <= i < j < |v'|
            ensures FirstIndex(ids', v'[i]) < FirstIndex(ids', v'[j])
          {
            assert v[i] in ids && v[j] in ids;
          }
        }
      } else {
        assert DeviceIdsOf(ks) == ids + [];
        assert ids + [] == ids;
        assert Replay(ks) == Step(Replay(pre), kind);
      }
    }
  }

  // ---- The same facts about lines of text ----

  lemma KindsAppend(a: seq<string>, b: seq<string>)
    ensures Kinds(a + b) == Kinds(a) + Kinds(b)
  {
  }

  lemma LoadSnoc(lines: seq<string>, line: string)
    ensures Load(lines + [line]) == Step(Load(lines), Classify(line))
  {
    KindsAppend(lines, [line]);
    ReplaySnoc(Kinds(lines), Classify(line));
  }

  /** Once a prefix has failed, the whole load fails with the same error. */
  lemma LoadFailurePersists(lines: seq<string>, i: nat)
    requires i <= |lines|
    requires Load(lines[..i]).Failure?
    ensures Load(lines) == Load(lines[..i])
  {
    assert Kinds(lines[..i]) == Kinds(lines)[..i];
    ReplayFailurePersists(Kinds(lines), i);
  }

  /** A skipped line leaves both the table and the device ids as they were. */
  lemma SkippedLineNoEffect(lines: seq<string>, line: string)
    requires IsSkipped(line)
    ensures Load(lines + [line]) == Load(lines)
  {
    LoadSnoc(lines, line);
  }

  lemma {:induction false} KindsRemoveSkipped(lines: seq<string>)
    ensures Kinds(RemoveSkipped(lines)) == DropSkips(Kinds(lines))
    decreases |lines|
  {
    if lines != [] {
      var pre := lines[..|lines| - 1];
      var line := lines[|lines| - 1];
      KindsRemoveSkipped(pre);
      assert Kinds(lines)[..|lines| - 1] == Kinds(pre);
      KindsAppend(RemoveSkipped(pre), if IsSkipped(line) then [] else [line]);
    }
  }

  /** Taking out every blank and comment line does not change the result. */
  lemma LoadIgnoresSkipped(lines: seq<string>)
    ensures Load(RemoveSkipped(lines)) == Load(lines)
  {
    KindsRemoveSkipped(lines);
    ReplayDropSkips(Kinds(lines));
  }

  /** A line `int()` and the indexing accept is never one the skip test drops. */
  lemma ParsedLineNotSkipped(line: string)
    requires ParseLine(line).Some?
    ensures !IsSkipped(line)
  {
    BlankIffNoWords(line);
    if |line| > 0 && line[0] == '#' {
      assert false;
    }
  }

  /** The text of a plain configuration line: `<status> <data1> <vjoyDevice> <buttonOrAxis>`. */
  function PlainText(status: int, data1: int, dev: int, field: string): string {
    Join([ShowInt(status), ShowInt(data1), ShowInt(dev), field])
  }

  /** The text of a repeater line: `<status> <data1> <vjoyDevice> <vjoyButton> rep up|down`. */
  function RepeaterText(status: int, data1: int, h: RepeaterHalf): string {
    Join([ShowInt(status), ShowInt(data1), ShowInt(h.dev), h.btn, h.marker, h.dir])
  }

  lemma ShowIntIsWord(n: int)
    ensures IsWord(ShowInt(n))
  {
    ParseShowInt(n);
    ParsedIsWord(ShowInt(n));
  }

  /** A line whose tokens are `ws`, with three integers first, is a definition. */
  lemma ClassifyWords(line: string, ws: seq<string>, status: int, data1: int, dev: int)
    requires Split(line) == ws && |ws| >= 4
    requires ParseInt(ws[0]) == Some(status) && ParseInt(ws[1]) == Some(data1) && ParseInt(ws[2]) == Some(dev)
    ensures Classify(line)
            == Def(if |ws| == 6 then HalfLine(Key(status, data1), RepeaterHalf(dev, ws[3], ws[4], ws[5]))
                   else PlainLine(Key(status, data1), dev, ws[3]))
  {
    assert ParseLine(line).Some?;
    ParsedLineNotSkipped(line);
  }

  /**
   * The error side of the loader: a line raises exactly when it is not
   * skipped and has fewer than four tokens, or one of its first three tokens
   * is not an integer.
   */
  lemma MalformedIff(line: string)
    ensures var fs := Split(line);
            Malformed(line)
            <==> !IsSkipped(line)
                 && (|fs| < 4 || ParseInt(fs[0]).None? || ParseInt(fs[1]).None? || ParseInt(fs[2]).None?)
  {
  }

  /** A rendered plain line loads back as the entry it was rendered from. */
  lemma ClassifyPlainText(status: int, data1: int, dev: int, field: string)
    requires IsWord(field)
    ensures Classify(PlainText(status, data1, dev, field)) == Def(PlainLine(Key(status, data1), dev, field))
  {
    var ws := [ShowInt(status), ShowInt(data1), ShowInt(dev), field];
    ShowIntIsWord(status);
    ShowIntIsWord(data1);
    ShowIntIsWord(dev);
    SplitJoin(ws);
    ParseShowInt(status);
    ParseShowInt(data1);
    ParseShowInt(dev);
    ClassifyWords(PlainText(status, data1, dev, field), ws, status, data1, dev);
  }

  /** A rendered repeater line loads back as the 4-tuple it was rendered from. */
  lemma ClassifyRepeaterText(status: int, data1: int, h: RepeaterHalf)
    requires IsWord(h.btn) && IsWord(h.marker) && IsWord(h.dir)
    ensures Classify(RepeaterText(status, data1, h)) == Def(HalfLine(Key(status, data1), h))
  {
    var ws := [ShowInt(status), ShowInt(data1), ShowInt(h.dev), h.btn, h.marker, h.dir];
    ShowIntIsWord(status);
    ShowIntIsWord(data1);
    ShowIntIsWord(h.dev);
    SplitJoin(ws);
    ParseShowInt(status);
    ParseShowInt(data1);
    ParseShowInt(h.dev);
    ClassifyWords(RepeaterText(status, data1, h), ws, status, data1, h.dev);
  }

  /**
   * A line of fewer than 6 or more than 6 tokens sets the key's entry to
   * `(dev, field4)`, whatever was there; no other key changes.
   */
  lemma PlainLineOverwrites(lines: seq<string>, line: string, k: Key, dev: int, field: string)
    requires Load(lines).Success?
    requires ParseLine(line) == Some(PlainLine(k, dev, field))
    ensures Load(lines + [line]).Success?
    ensures Load(lines + [line]).value.table == Load(lines).value.table[k := Plain(dev, field)]
  {
    ParsedLineNotSkipped(line);
    LoadSnoc(lines, line);
  }

  /**
   * A 6-token line stores its 4-tuple when the key is new, and otherwise
   * makes the list `[old, new]`; no other key changes.
   */
  lemma RepeaterLineCombines(lines: seq<string>, line: string, k: Key, h: RepeaterHalf)
    requires Load(lines).Success?
    requires ParseLine(line) == Some(HalfLine(k, h))
    ensures Load(lines + [line]).Success?
    ensures var before := Load(lines).value.table;
            Load(lines + [line]).value.table
            == before[k := if k in before then Pair(before[k], h) else Half(h)]
  {
    ParsedLineNotSkipped(line);
    LoadSnoc(lines, line);
  }

  /** Lines that do not mention `k` leave its entry (or its absence) alone. */
  lemma UnmentionedKeyUnchanged(lines: seq<string>, post: seq<string>, k: Key)
    requires Load(lines + post).Success?
    requires forall j :: 0 <= j < |post| ==> !Mentions(post[j], k)
    ensures Load(lines).Success?
    ensures var before := Load(lines).value.table;
            var after := Load(lines + post).value.table;
            (k in after <==> k in before) && (k in before ==> after[k] == before[k])
  {
    KindsAppend(lines, post);
    ReplayKeepsKey(Kinds(lines), Kinds(post), k);
  }

  /** The last plain definition of a key wins. */
  lemma LastPlainDefinitionWins(pre: seq<string>, line: string, post: seq<string>,
                                k: Key, dev: int, field: string)
    requires Load(pre + [line] + post).Success?
    requires ParseLine(line) == Some(PlainLine(k, dev, field))
    requires forall j :: 0 <= j < |post| ==> !Mentions(post[j], k)
    ensures var table := Load(pre + [line] + post).value.table;
            k in table && table[k] == Plain(dev, field)
  {
    UnmentionedKeyUnchanged(pre + [line], post, k);
    LoadSnoc(pre, line);
    PlainLineOverwrites(pre, line, k, dev, field);
  }

  /**
   * Two 6-token lines for a key, and no other line for it, give the list
   * `[first, second]` in definition order.
   */
  lemma RepeaterPairCombines(pre: seq<string>, l1: string, mid: seq<string>, l2: string,
                             post: seq<string>, k: Key, h1: RepeaterHalf, h2: RepeaterHalf)
    requires Load(pre + [l1] + mid + [l2] + post).Success?
    requires ParseLine(l1) == Some(HalfLine(k, h1))
    requires ParseLine(l2) == Some(HalfLine(k, h2))
    requires forall j :: 0 <= j < |pre| ==> !Mentions(pre[j], k)
    requires forall j :: 0 <= j < |mid| ==> !Mentions(mid[j], k)
    requires forall j :: 0 <= j < |post| ==> !Mentions(post[j], k)
    ensures var table := Load(pre + [l1] + mid + [l2] + post).value.table;
            k in table && table[k] == Pair(Half(h1), h2)
  {
    var a := pre + [l1];
    var b := a + mid;
    var c := b + [l2];
    UnmentionedKeyUnchanged(c, post, k);
    LoadSnoc(b, l2);
    UnmentionedKeyUnchanged(a, mid, k);
    LoadSnoc(pre, l1);
    assert [] + pre == pre;
    UnmentionedKeyUnchanged([], pre, k);
    RepeaterLineCombines(pre, l1, k, h1);
    RepeaterLineCombines(b, l2, k, h2);
  }

  /**
   * The load fails exactly when some line is malformed, and then it reports
   * the first such line.
   */
  lemma LoadFailsIff(lines: seq<string>)
    ensures Load(lines).Failure? <==> exists i :: 0 <= i < |lines| && Malformed(lines[i])
    ensures Load(lines).Failure? ==>
              exists i :: FirstMalformedAt(lines, i) && Load(lines).error == BadLine(lines[i])
  {
    var ks := Kinds(lines);
    ReplayFailsIff(ks);
    if Load(lines).Failure? {
      var i :| FirstBadAt(ks, i) && Replay(ks).error == BadLine(ks[i].line);
      assert FirstMalformedAt(lines, i);
    }
  }

  /**
   * `vids` holds each device id of an accepted line exactly once, ordered by
   * where it first appears.
   */
  lemma LoadVids(lines: seq<string>)
    requires Load(lines).Success?
    ensures var vids := Load(lines).value.vids;
            var ids := DeviceIds(lines);
            && NoDup(vids)
            && (forall x :: x in vids <==> x in ids)
            && (forall i, j :: 0 <= i < j < |vids| ==> FirstIndex(ids, vids[i]) < FirstIndex(ids, vids[j]))
  {
    ReplayVids(Kinds(lines));
  }
}
