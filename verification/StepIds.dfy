/**
  The text of a step's run id, `${pipelineRunId}:${pipelineId}:${index}`, determines the
  step: within one invocation no two steps share it.
*/
module StepIds {
  import opened PipelineModel

  function Digit(d: nat): char requires d < 10 { "0123456789"[d] }

  function Digits(n: nat): (s: string)
    ensures |s| > 0 && (|s| == 1 <==> n < 10)
    ensures forall i :: 0 <= i < |s| ==> s[i] in "0123456789"
  {
    if n < 10 then [Digit(n)] else Digits(n / 10) + [Digit(n % 10)]
  }

  function SegmentText(s: Segment): string
  {
    match s
    case ArmOf(index) => ":" + Digits(index) + ":branch"
    case SlotOf(index, slot) => ":" + Digits(index) + ":parallel:" + Digits(slot)
  }

  // What follows the invocation id and the pipeline's own name.
  function Suffix(path: seq<Segment>, index: nat): string
  {
    if path == [] then ":" + Digits(index) else SegmentText(path[0]) + Suffix(path[1..], index)
  }

  function StepRunId(pid: Pid, index: nat): string
  {
    pid.run + ":" + pid.name + Suffix(pid.path, index)
  }

  lemma {:induction false} DigitsInjective(a: nat, b: nat)
    requires Digits(a) == Digits(b)
    ensures a == b
    decreases a
  {
    if a >= 10 {
      var s, t := Digits(a), Digits(b);
      assert s[..|s| - 1] == Digits(a / 10) && t[..|t| - 1] == Digits(b / 10);
      assert s[|s| - 1] == Digit(a % 10) && t[|t| - 1] == Digit(b % 10);
      DigitsInjective(a / 10, b / 10);
    }
  }

  predicate EndsNumber(s: string) { s == "" || s[0] == ':' }

  lemma ColonAt(s: string, x: string, t: string, y: string)
    requires EndsNumber(x) && s + x == t + y && |s| < |t|
    ensures t[|s|] == ':'
  {
    assert t[|s|] == (t + y)[|s|] == (s + x)[|s|] == x[0];
  }

  // A number is read up to the next colon.
  lemma ReadNumber(a: nat, x: string, b: nat, y: string)
    requires EndsNumber(x) && EndsNumber(y) && Digits(a) + x == Digits(b) + y
    ensures a == b && x == y
  {
    var s, t := Digits(a), Digits(b);
    if |s| < |t| { ColonAt(s, x, t, y); }
    if |t| < |s| { ColonAt(t, y, s, x); }
    assert s == (s + x)[..|s|] && t == (t + y)[..|t|];
    assert x == (s + x)[|s|..] && y == (t + y)[|t|..];
    DigitsInjective(a, b);
  }

  lemma Regroup(a: string, b: string, c: string, d: string, e: string)
    ensures a + b + c + d + e == a + (b + (c + (d + e)))
  {
  }

  lemma SuffixStarts(path: seq<Segment>, index: nat)
    ensures |Suffix(path, index)| > 1 && Suffix(path, index)[0] == ':'
    ensures Suffix(path, index)[1] in "0123456789"
  {
    var n := if path == [] then index else path[0].index;
    assert Digits(n)[0] in "0123456789";
    if path != [] { assert SegmentText(path[0])[1] == Digits(n)[0]; }
  }

  // What comes after the first number of a suffix: nothing, an arm or a slot.
  function AfterIndex(path: seq<Segment>, index: nat): string
  {
    if path == [] then ""
    else match path[0]
      case ArmOf(_) => ":branch" + Suffix(path[1..], index)
      case SlotOf(_, slot) => ":parallel:" + (Digits(slot) + Suffix(path[1..], index))
  }

  lemma SuffixParts(path: seq<Segment>, index: nat)
    ensures Suffix(path, index) == ":" + (Digits(if path == [] then index else path[0].index) + AfterIndex(path, index))
  {
    if path == [] {
      assert Digits(index) + "" == Digits(index);
    } else {
      var z := Suffix(path[1..], index);
      match path[0]
      case ArmOf(i) => Regroup(":", Digits(i), ":branch", "", z);
      case SlotOf(i, slot) => Regroup(":", Digits(i), ":parallel:", Digits(slot), z);
    }
  }

  // The tails after the first number agree only when the first segments do.
  lemma AfterIndexParts(path: seq<Segment>, index: nat, path': seq<Segment>, index': nat)
    requires AfterIndex(path, index) == AfterIndex(path', index')
    requires path != [] && path' != [] ==> path[0].index == path'[0].index
    ensures path == [] <==> path' == []
    ensures path != [] && path' != [] ==>
      path[0] == path'[0] && Suffix(path[1..], index) == Suffix(path'[1..], index')
  {
    var x, x' := AfterIndex(path, index), AfterIndex(path', index');
    if path != [] && path' != [] {
      assert x[1] == (if path[0].ArmOf? then 'b' else 'p') && x'[1] == (if path'[0].ArmOf? then 'b' else 'p');
      var z, z' := Suffix(path[1..], index), Suffix(path'[1..], index');
      SuffixStarts(path[1..], index);
      SuffixStarts(path'[1..], index');
      if path[0].ArmOf? {
        assert x[7..] == z && x'[7..] == z';
      } else {
        assert x[10..] == Digits(path[0].slot) + z && x'[10..] == Digits(path'[0].slot) + z';
        ReadNumber(path[0].slot, z, path'[0].slot, z');
      }
    }
  }

  lemma {:induction false} SuffixInjective(path: seq<Segment>, index: nat, path': seq<Segment>, index': nat)
    requires Suffix(path, index) == Suffix(path', index')
    ensures path == path' && index == index'
    decreases |path|
  {
    SuffixParts(path, index);
    SuffixParts(path', index');
    var n, n' := if path == [] then index else path[0].index, if path' == [] then index' else path'[0].index;
    var x, x' := AfterIndex(path, index), AfterIndex(path', index');
    assert Digits(n) + x == Suffix(path, index)[1..] && Digits(n') + x' == Suffix(path', index')[1..];
    ReadNumber(n, x, n', x');
    AfterIndexParts(path, index, path', index');
    if path != [] {
      SuffixInjective(path[1..], index, path'[1..], index');
      assert path == [path[0]] + path[1..] && path' == [path'[0]] + path'[1..];
    }
  }

  // Two steps of one invocation with the same run id are the same step.
  lemma StepRunIdInjective(pid: Pid, index: nat, pid': Pid, index': nat)
    requires pid.run == pid'.run && pid.name == pid'.name
    requires StepRunId(pid, index) == StepRunId(pid', index')
    ensures pid == pid' && index == index'
  {
    var head := pid.run + ":" + pid.name;
    assert Suffix(pid.path, index) == StepRunId(pid, index)[|head|..];
    assert Suffix(pid'.path, index') == StepRunId(pid', index')[|head|..];
    SuffixInjective(pid.path, index, pid'.path, index');
  }

  // ------------------------------------------------------------ the text itself

  function PathText(path: seq<Segment>): string
  {
    if path == [] then "" else SegmentText(path[0]) + PathText(path[1..])
  }

  // The id of a pipeline: its name, and what the arms and slots down to it add.
  function PipelineId(pid: Pid): string { pid.name + PathText(pid.path) }

  lemma PathCons(s: Segment, path: seq<Segment>)
    ensures PathText([s] + path) == SegmentText(s) + PathText(path)
  {
    assert ([s] + path)[1..] == path;
  }

  lemma Around(a: string, b: string, n: string)
    ensures a + (b + ":" + n) == a + b + ":" + n
  {
  }

  lemma Join3(a: string, b: string, c: string)
    ensures a + b + c == a + (b + c)
  {
  }

  lemma {:induction false} PathPush(path: seq<Segment>, s: Segment)
    ensures PathText(path + [s]) == PathText(path) + SegmentText(s)
    decreases path
  {
    if path == [] {
      PathCons(s, []);
      assert [] + [s] == [s] + [] && PathText([]) + SegmentText(s) == SegmentText(s) + PathText([]);
    } else {
      PathPush(path[1..], s);
      PathCons(path[0], path[1..] + [s]);
      assert path + [s] == [path[0]] + (path[1..] + [s]);
      Join3(SegmentText(path[0]), PathText(path[1..]), SegmentText(s));
    }
  }

  lemma {:induction false} SuffixText(path: seq<Segment>, index: nat)
    ensures Suffix(path, index) == PathText(path) + ":" + Digits(index)
    decreases path
  {
    if path == [] {
      Join3("", ":", Digits(index));
    } else {
      SuffixText(path[1..], index);
      Around(SegmentText(path[0]), PathText(path[1..]), Digits(index));
    }
  }

  /**
    The text itself: the invocation, the pipeline's id and the step's index, with colons between.
    An arm's pipeline is named after its branch step, a slot's after its step and place.
  */
  lemma RunIdText(pid: Pid, index: nat, slot: nat)
    ensures StepRunId(pid, index) == pid.run + ":" + PipelineId(pid) + ":" + Digits(index)
    ensures PipelineId(ArmPid(pid, index)) == PipelineId(pid) + ":" + Digits(index) + ":branch"
    ensures PipelineId(SlotPid(pid, index, slot)) == PipelineId(pid) + ":" + Digits(index) + ":parallel:" + Digits(slot)
  {
    SuffixText(pid.path, index);
    IdThen(pid.run, pid.name, PathText(pid.path), Digits(index));
    PathPush(pid.path, ArmOf(index));
    PathPush(pid.path, SlotOf(index, slot));
    PushedName(pid.name, PathText(pid.path), Digits(index), ":branch", "");
    PushedName(pid.name, PathText(pid.path), Digits(index), ":parallel:", Digits(slot));
  }

  lemma IdThen(run: string, name: string, path: string, n: string)
    ensures run + ":" + name + (path + ":" + n) == run + ":" + (name + path) + ":" + n
  {
  }

  lemma PushedName(name: string, path: string, n: string, kind: string, slot: string)
    ensures name + (path + (":" + n + kind + slot)) == name + path + ":" + n + kind + slot
    ensures slot == "" ==>
      ":" + n + kind + slot == ":" + n + kind && name + path + ":" + n + kind + slot == name + path + ":" + n + kind
  {
  }

  // The number a decimal numeral stands for.
  function Number(s: string): int
  {
    if s == "" then 0 else 10 * Number(s[..|s| - 1]) + (s[|s| - 1] as int - '0' as int)
  }

  // Numbers are written in decimal, without leading zeros.
  lemma {:induction false} DigitsDecimal(n: nat)
    ensures Number(Digits(n)) == n && (n > 0 ==> Digits(n)[0] != '0')
    decreases n
  {
    if n < 10 {
      assert Digits(n)[..0] == "";
    } else {
      DigitsDecimal(n / 10);
      assert Digits(n)[..|Digits(n)| - 1] == Digits(n / 10);
    }
  }
}
