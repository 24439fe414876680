/**
  The crumb sequencer and its durable log. Text deltas are buffered into one entry per
  window; the flush may come from a boundary, from size, from a timer at any moment, or
  from the end of the stream. `After` folds one run's history of such steps; the class
  Writer is the source's form of it.
*/
module CrumbLog {
  import opened Wrappers

  datatype Kind = TextDelta | ReasoningDelta

  // What a crumb carries. `logged` is false for the pipeline framing crumbs.
  datatype Body = Delta(kind: Kind, text: string) | Whole(logged: bool, content: string)

  datatype Crumb = Crumb(runId: Option<string>, relayed: bool, body: Body)

  datatype Entry = Entry(seq_: nat, body: Body)

  datatype Window = Window(kind: Kind, text: string)

  // `supported`: the store has a crumb log at all.
  datatype Config = Config(supported: bool, maxBufferBytes: nat)

  // One run's sequencer and log. `windows` is in the order the windows were opened; a
  // muted run (relayed from elsewhere, or no log in the store) writes no entries.
  datatype RunLog = RunLog(counter: nat, windows: seq<Window>, muted: bool, log: seq<Entry>)

  datatype Op = Stream(body: Body) | Timer(kind: Kind) | Finalize

  // ---------------------------------------------------------- one step

  function Find(ws: seq<Window>, kind: Kind): (k: nat)
    ensures k <= |ws| && (k < |ws| ==> ws[k].kind == kind)
    ensures forall i :: 0 <= i < k ==> ws[i].kind != kind
  {
    if ws == [] || ws[0].kind == kind then 0 else 1 + Find(ws[1..], kind)
  }

  function Append(s: RunLog, e: Entry): RunLog
  {
    if s.muted then s else s.(log := s.log + [e])
  }

  // Closes a window into one aggregated entry with its own position.
  function Flush(s: RunLog, kind: Kind): RunLog
  {
    var k := Find(s.windows, kind);
    if k == |s.windows| then s
    else
      var w := s.windows[k];
      Append(s.(counter := s.counter + 1, windows := s.windows[..k] + s.windows[k + 1..]),
             Entry(s.counter + 1, Delta(kind, w.text)))
  }

  function FlushAll(s: RunLog): RunLog
    decreases |s.windows|
  {
    if s.windows == [] then s else FlushAll(Flush(s, s.windows[0].kind))
  }

  function WaitingIn(ws: seq<Window>, kind: Kind): string
  {
    var k := Find(ws, kind);
    if k < |ws| then ws[k].text else ""
  }

  function Buffered(s: RunLog, kind: Kind): string { WaitingIn(s.windows, kind) }

  // The delta goes into the window of its kind, which is opened when there is none.
  function FillWindows(ws: seq<Window>, kind: Kind, text: string): seq<Window>
  {
    var k := Find(ws, kind);
    var w := Window(kind, WaitingIn(ws, kind) + text);
    if k < |ws| then ws[k := w] else ws + [w]
  }

  function Fill(s: RunLog, kind: Kind, text: string): RunLog
  {
    s.(windows := FillWindows(s.windows, kind, text))
  }

  function Buffer(cfg: Config, s: RunLog, kind: Kind, text: string): RunLog
  {
    if !cfg.supported then s
    else
      var s1 := Fill(s, kind, text);
      if |Buffered(s1, kind)| >= cfg.maxBufferBytes then Flush(s1, kind) else s1
  }

  function Step(cfg: Config, s: RunLog, op: Op): RunLog
  {
    match op
    case Timer(kind) => Flush(s, kind)
    case Finalize => FlushAll(s)
    case Stream(Delta(kind, text)) => Buffer(cfg, s, kind, text)
    case Stream(Whole(logged, content)) =>
      var s1 := FlushAll(s);
      var s2 := s1.(counter := s1.counter + 1);
      if logged then Append(s2, Entry(s2.counter, op.body)) else s2
  }

  // The position the streamed crumb is given: its own, or the watermark for a delta.
  function Position(s: RunLog, body: Body): nat
  {
    if body.Delta? then s.counter else FlushAll(s).counter + 1
  }

  function After(cfg: Config, s: RunLog, ops: seq<Op>): RunLog
    decreases |ops|
  {
    if ops == [] then s else Step(cfg, After(cfg, s, ops[..|ops| - 1]), ops[|ops| - 1])
  }

  // -------------------------------------------------------- the store's reads

  function MaxSeq(log: seq<Entry>): (m: nat)
    ensures forall e :: e in log ==> e.seq_ <= m
    ensures m == 0 || exists e :: e in log && e.seq_ == m
  {
    if log == [] then 0
    else
      var m := MaxSeq(log[..|log| - 1]);
      var e := log[|log| - 1];
      if e.seq_ > m then e.seq_ else m
  }

  function Insert(e: Entry, sorted: seq<Entry>): seq<Entry>
  {
    if sorted == [] || sorted[0].seq_ > e.seq_ then [e] + sorted else [sorted[0]] + Insert(e, sorted[1..])
  }

  // The stable sort by position a read starts with.
  function SortBySeq(log: seq<Entry>): seq<Entry>
  {
    if log == [] then [] else Insert(log[|log| - 1], SortBySeq(log[..|log| - 1]))
  }

  function Above(log: seq<Entry>, seq_: nat): seq<Entry>
  {
    if log == [] then []
    else Above(log[..|log| - 1], seq_) + (if log[|log| - 1].seq_ > seq_ then [log[|log| - 1]] else [])
  }

  // getCrumbs; a limit of 0 counts as none.
  function GetCrumbs(log: seq<Entry>, afterSeq: Option<nat>, limit: nat): seq<Entry>
  {
    var rows := SortBySeq(log);
    var wanted := if afterSeq.Some? then Above(rows, afterSeq.value) else rows;
    if limit != 0 && limit < |wanted| then wanted[..limit] else wanted
  }

  // -------------------------------------------------------------- what is kept

  function TextIn(log: seq<Entry>, kind: Kind): string
  {
    if log == [] then ""
    else
      var b := log[|log| - 1].body;
      TextIn(log[..|log| - 1], kind) + (if b.Delta? && b.kind == kind then b.text else "")
  }

  function Streamed(ops: seq<Op>, kind: Kind): string
  {
    if ops == [] then ""
    else
      Streamed(ops[..|ops| - 1], kind) + OpText(ops[|ops| - 1], kind)
  }

  ghost predicate Increasing(log: seq<Entry>)
  {
    forall i, j :: 0 <= i < j < |log| ==> log[i].seq_ < log[j].seq_
  }

  // Windows of different kinds, and a log whose positions grow up to the counter.
  ghost predicate Valid(s: RunLog)
  {
    && !s.muted
    && (forall i, j :: 0 <= i < j < |s.windows| ==> s.windows[i].kind != s.windows[j].kind)
    && Increasing(s.log)
    && (forall i :: 0 <= i < |s.log| ==> s.log[i].seq_ <= s.counter)
  }

  // What a step adds to the log: only at its end, and only above the counter.
  ghost predicate Extends(s: RunLog, s': RunLog)
  {
    && s.counter <= s'.counter
    && |s.log| <= |s'.log| && s'.log[..|s.log|] == s.log
    && forall i :: |s.log| <= i < |s'.log| ==> s.counter < s'.log[i].seq_ <= s'.counter
  }

  lemma ExtendsTrans(a: RunLog, b: RunLog, c: RunLog)
    requires Extends(a, b) && Extends(b, c)
    ensures Extends(a, c)
  {
    assert c.log[..|a.log|] == c.log[..|b.log|][..|a.log|];
    forall i | |a.log| <= i < |c.log| ensures a.counter < c.log[i].seq_ <= c.counter
    {
      if i < |b.log| { assert c.log[i] == c.log[..|b.log|][i]; }
    }
  }

  // The text of one kind the log and the window hold together.
  function Held(s: RunLog, kind: Kind): string { TextIn(s.log, kind) + Buffered(s, kind) }

  lemma TextAppend(log: seq<Entry>, e: Entry, k: Kind)
    ensures TextIn(log + [e], k) == TextIn(log, k) + (if e.body.Delta? && e.body.kind == k then e.body.text else "")
  {
    assert (log + [e])[..|log|] == log;
  }

  // One entry above the counter.
  lemma AppendValid(s: RunLog, s': RunLog, b: Body)
    requires Valid(s)
    requires s' == s.(counter := s.counter + 1, windows := s'.windows, log := s.log + [Entry(s.counter + 1, b)])
    requires forall i, j :: 0 <= i < j < |s'.windows| ==> s'.windows[i].kind != s'.windows[j].kind
    ensures Valid(s') && Extends(s, s')
  {
    assert s'.log[..|s.log|] == s.log;
  }

  lemma FlushKeeps(s: RunLog, kind: Kind, k: Kind)
    requires Valid(s)
    ensures var s' := Flush(s, kind);
      && Valid(s') && Extends(s, s') && Held(s', k) == Held(s, k)
      && |s'.windows| == |s.windows| - (if Find(s.windows, kind) < |s.windows| then 1 else 0)
  {
    var i, s' := Find(s.windows, kind), Flush(s, kind);
    if i < |s.windows| {
      var w := s.windows[i];
      AppendValid(s, s', Delta(kind, w.text));
      FlushText(s, i, k);
    } else {
      assert s.log[..|s.log|] == s.log;
    }
  }

  lemma FlushText(s: RunLog, i: nat, k: Kind)
    requires Valid(s) && i < |s.windows|
    ensures var w := s.windows[i];
      var e := Entry(s.counter + 1, Delta(w.kind, w.text));
      TextIn(s.log + [e], k) + WaitingIn(s.windows[..i] + s.windows[i + 1..], k) == Held(s, k)
  {
    var w := s.windows[i];
    TextAppend(s.log, Entry(s.counter + 1, Delta(w.kind, w.text)), k);
    FindRemoved(s.windows, i, k);
    if k == w.kind {
      FindFirst(s.windows, i);
      Assoc(TextIn(s.log, k), w.text, "");
      assert w.text + "" == w.text;
    } else {
      Assoc(TextIn(s.log, k), "", WaitingIn(s.windows, k));
      assert "" + WaitingIn(s.windows, k) == WaitingIn(s.windows, k);
    }
  }

  lemma FindFirst(ws: seq<Window>, i: nat)
    requires i < |ws| && forall a, b :: 0 <= a < b < |ws| ==> ws[a].kind != ws[b].kind
    ensures Find(ws, ws[i].kind) == i
  {
    var a := Find(ws, ws[i].kind);
    assert !(a < i);
  }

  lemma FindRemoved(ws: seq<Window>, i: nat, k: Kind)
    requires i < |ws| && forall a, b :: 0 <= a < b < |ws| ==> ws[a].kind != ws[b].kind
    ensures var ws' := ws[..i] + ws[i + 1..];
      && (k == ws[i].kind ==> Find(ws', k) == |ws'|)
      && (k != ws[i].kind ==>
            (Find(ws, k) < |ws| <==> Find(ws', k) < |ws'|)
            && (Find(ws, k) < |ws| ==> ws'[Find(ws', k)] == ws[Find(ws, k)]))
  {
    var ws' := ws[..i] + ws[i + 1..];
    assert forall a :: 0 <= a < |ws'| ==> ws'[a] == if a < i then ws[a] else ws[a + 1];
    if k != ws[i].kind && Find(ws, k) < |ws| {
      var a := Find(ws, k);
      assert ws'[if a < i then a else a - 1] == ws[a];
    }
  }

  lemma {:induction false} FlushAllKeeps(s: RunLog, k: Kind)
    requires Valid(s)
    ensures var s' := FlushAll(s);
      && Valid(s') && Extends(s, s') && s'.windows == [] && Held(s', k) == Held(s, k)
    decreases |s.windows|
  {
    if s.windows != [] {
      var s1 := Flush(s, s.windows[0].kind);
      FlushKeeps(s, s.windows[0].kind, k);
      FlushAllKeeps(s1, k);
      ExtendsTrans(s, s1, FlushAll(s));
    } else {
      assert s.log[..|s.log|] == s.log;
    }
  }

  lemma FillValid(s: RunLog, kind: Kind, text: string)
    requires Valid(s)
    ensures Valid(Fill(s, kind, text)) && Extends(s, Fill(s, kind, text))
  {
    var ws' := FillWindows(s.windows, kind, text);
    assert s.log[..|s.log|] == s.log;
    assert forall a, b :: 0 <= a < b < |ws'| ==> ws'[a].kind != ws'[b].kind;
  }

  lemma FillKeeps(s: RunLog, kind: Kind, text: string, k: Kind)
    requires Valid(s)
    ensures var s' := Fill(s, kind, text);
      Valid(s') && Extends(s, s') && Buffered(s', k) == Buffered(s, k) + (if k == kind then text else "")
  {
    FillValid(s, kind, text);
    var i, ws, ws' := Find(s.windows, kind), s.windows, FillWindows(s.windows, kind, text);
    if k != kind {
      FindElsewhere(ws, ws', i, k);
      assert WaitingIn(ws, k) + "" == WaitingIn(ws, k);
    } else {
      FindHere(ws, ws', i, kind);
    }
  }

  lemma Assoc(a: string, b: string, c: string)
    ensures a + b + c == a + (b + c)
  {
  }

  lemma BufferKeeps(cfg: Config, s: RunLog, kind: Kind, text: string, k: Kind)
    requires Valid(s) && cfg.supported
    ensures var s' := Buffer(cfg, s, kind, text);
      Valid(s') && Extends(s, s') && Held(s', k) == Held(s, k) + (if k == kind then text else "")
  {
    var s1, s' := Fill(s, kind, text), Buffer(cfg, s, kind, text);
    assert s' == s1 || s' == Flush(s1, kind);
    FillKeeps(s, kind, text, k);
    Assoc(TextIn(s.log, k), Buffered(s, k), if k == kind then text else "");
    if s' != s1 {
      FlushKeeps(s1, kind, k);
      ExtendsTrans(s, s1, s');
    }
  }

  lemma FindHere(ws: seq<Window>, ws': seq<Window>, i: nat, k: Kind)
    requires i == Find(ws, k) && i < |ws'| && ws'[i].kind == k
    requires forall j :: 0 <= j < i ==> ws'[j] == ws[j]
    ensures Find(ws', k) == i
  {
  }

  lemma FindElsewhere(ws: seq<Window>, ws': seq<Window>, i: nat, k: Kind)
    requires i <= |ws| && i < |ws'| && ws'[i].kind != k && (i < |ws| ==> ws[i].kind != k)
    requires if i < |ws| then |ws'| == |ws| else |ws'| == |ws| + 1
    requires forall j :: 0 <= j < |ws| && j != i ==> ws'[j] == ws[j]
    ensures Find(ws, k) < |ws| ==> Find(ws', k) == Find(ws, k)
    ensures Find(ws, k) == |ws| ==> Find(ws', k) == |ws'|
  {
  }

  function OpText(op: Op, k: Kind): string
  {
    if op.Stream? && op.body.Delta? && op.body.kind == k then op.body.text else ""
  }

  lemma StepKeeps(cfg: Config, s: RunLog, op: Op, k: Kind)
    requires Valid(s) && cfg.supported
    ensures var s' := Step(cfg, s, op);
      Valid(s') && Extends(s, s') && Held(s', k) == Held(s, k) + OpText(op, k)
  {
    match op
    case Timer(kind) =>
      FlushKeeps(s, kind, k);
      assert Held(s, k) + "" == Held(s, k);
    case Finalize =>
      FlushAllKeeps(s, k);
      assert Held(s, k) + "" == Held(s, k);
    case Stream(Delta(kind, text)) =>
      BufferKeeps(cfg, s, kind, text, k);
      assert Held(s, k) + "" == Held(s, k);
    case Stream(Whole(_, _)) =>
      WholeKeeps(cfg, s, op.body, k);
      assert Held(s, k) + "" == Held(s, k);
  }

  // A boundary: nothing stays buffered, and the crumb's position ends the log so far.
  lemma WholeKeeps(cfg: Config, s: RunLog, b: Body, k: Kind)
    requires Valid(s) && cfg.supported && b.Whole?
    ensures var s' := Step(cfg, s, Stream(b));
      && Valid(s') && Extends(s, s') && Held(s', k) == Held(s, k) && s'.windows == []
      && s'.counter == Position(s, b)
      && s'.log == FlushAll(s).log + (if b.logged then [Entry(Position(s, b), b)] else [])
  {
    FlushAllKeeps(s, k);
    var s1, s' := FlushAll(s), Step(cfg, s, Stream(b));
    if b.logged {
      AppendValid(s1, s', b);
      TextAppend(s1.log, Entry(s1.counter + 1, b), k);
      assert Buffered(s', k) == "" == Buffered(s1, k);
    } else {
      assert s'.log[..|s1.log|] == s1.log;
    }
    ExtendsTrans(s, s1, s');
  }

  /**
    Conservation: over any history, for any placement of size and timer flushes, the
    logged text of one kind plus what is still buffered is the text streamed so far.
  */
  lemma {:induction false} TextConserved(cfg: Config, s: RunLog, ops: seq<Op>, k: Kind)
    requires Valid(s) && cfg.supported
    ensures var s' := After(cfg, s, ops);
      Valid(s') && Extends(s, s') && Held(s', k) == Held(s, k) + Streamed(ops, k)
    decreases |ops|
  {
    if ops == [] {
      assert s.log[..|s.log|] == s.log;
      assert Held(s, k) + "" == Held(s, k);
    } else {
      var init, op := ops[..|ops| - 1], ops[|ops| - 1];
      TextConserved(cfg, s, init, k);
      StepKeeps(cfg, After(cfg, s, init), op, k);
      ExtendsTrans(s, After(cfg, s, init), After(cfg, s, ops));
      Assoc(Held(s, k), Streamed(init, k), OpText(op, k));
    }
  }

  // ------------------------------------------------------------- reading back

  lemma {:induction false} AfterSplit(cfg: Config, s: RunLog, ops: seq<Op>, more: seq<Op>)
    ensures After(cfg, s, ops + more) == After(cfg, After(cfg, s, ops), more)
    decreases |more|
  {
    if more == [] {
      assert ops + more == ops;
    } else {
      assert (ops + more)[..|ops + more| - 1] == ops + more[..|more| - 1];
      AfterSplit(cfg, s, ops, more[..|more| - 1]);
    }
  }

  lemma AfterOne(cfg: Config, s: RunLog, ops: seq<Op>, op: Op)
    ensures After(cfg, s, ops + [op]) == Step(cfg, After(cfg, s, ops), op)
  {
    assert (ops + [op])[..|ops|] == ops;
  }

  lemma {:induction false} StreamedSplit(ops: seq<Op>, more: seq<Op>, k: Kind)
    ensures Streamed(ops + more, k) == Streamed(ops, k) + Streamed(more, k)
    decreases |more|
  {
    if more == [] {
      assert ops + more == ops && Streamed(ops, k) + "" == Streamed(ops, k);
    } else {
      var init := more[..|more| - 1];
      assert (ops + more)[..|ops + more| - 1] == ops + init;
      StreamedSplit(ops, init, k);
      Assoc(Streamed(ops, k), Streamed(init, k), OpText(more[|more| - 1], k));
    }
  }

  lemma {:induction false} TextSplit(log: seq<Entry>, n: nat, k: Kind)
    requires n <= |log|
    ensures TextIn(log, k) == TextIn(log[..n], k) + TextIn(log[n..], k)
    decreases |log|
  {
    if n == |log| {
      assert log[..n] == log && TextIn(log, k) + "" == TextIn(log, k);
    } else {
      var m := |log| - 1;
      assert log[n..][..m - n] == log[..m][n..] && log[..m][..n] == log[..n];
      TextSplit(log[..m], n, k);
      var b := log[m].body;
      Assoc(TextIn(log[..n], k), TextIn(log[..m][n..], k), if b.Delta? && b.kind == k then b.text else "");
    }
  }

  // Appending a larger position keeps a sorted read sorted.
  lemma {:induction false} InsertLast(e: Entry, sorted: seq<Entry>)
    requires forall i :: 0 <= i < |sorted| ==> sorted[i].seq_ < e.seq_
    ensures Insert(e, sorted) == sorted + [e]
    decreases sorted
  {
    if sorted != [] { InsertLast(e, sorted[1..]); }
  }

  // A log whose positions grow reads back in the order it was written.
  lemma {:induction false} SortedRead(log: seq<Entry>)
    requires Increasing(log)
    ensures SortBySeq(log) == log
    decreases |log|
  {
    if log != [] {
      var n := |log| - 1;
      SortedRead(log[..n]);
      InsertLast(log[n], log[..n]);
      assert log == log[..n] + [log[n]];
    }
  }

  lemma {:induction false} AboveSuffix(log: seq<Entry>, n: nat, p: nat)
    requires n <= |log|
    requires forall i :: 0 <= i < n ==> log[i].seq_ <= p
    requires forall i :: n <= i < |log| ==> log[i].seq_ > p
    ensures Above(log, p) == log[n..]
    decreases |log|
  {
    if log != [] {
      var m := |log| - 1;
      if n <= m {
        AboveSuffix(log[..m], n, p);
        assert log[..m][n..] + [log[m]] == log[n..];
      } else {
        AboveSuffix(log[..m], m, p);
        assert log[..m][m..] == [] == log[n..];
      }
    }
  }

  function Below(log: seq<Entry>, p: nat): seq<Entry>
  {
    if log == [] then []
    else Below(log[..|log| - 1], p) + (if log[|log| - 1].seq_ < p then [log[|log| - 1]] else [])
  }

  lemma {:induction false} BelowPrefix(log: seq<Entry>, n: nat, p: nat)
    requires n <= |log|
    requires forall i :: 0 <= i < n ==> log[i].seq_ < p
    requires forall i :: n <= i < |log| ==> log[i].seq_ >= p
    ensures Below(log, p) == log[..n]
    decreases |log|
  {
    if log != [] {
      var m := |log| - 1;
      if n <= m {
        BelowPrefix(log[..m], n, p);
        assert log[..m][..n] == log[..n];
      } else {
        BelowPrefix(log[..m], m, p);
        assert log[..m][..m] + [log[m]] == log;
      }
    }
  }

  // A writer opened on a finalized log starts at its highest position.
  lemma SeededIsValid(log: seq<Entry>)
    requires Increasing(log)
    ensures Valid(RunLog(MaxSeq(log), [], false, log))
  {
  }

  // A fresh window set holds what the log holds.
  lemma NothingBuffered(s: RunLog, k: Kind)
    requires s.windows == []
    ensures Held(s, k) == TextIn(s.log, k)
  {
    assert TextIn(s.log, k) + "" == TextIn(s.log, k);
  }

  lemma PrefixAt(a: RunLog, b: RunLog, i: nat)
    requires Extends(a, b) && i < |a.log|
    ensures b.log[i] == a.log[i]
  {
    assert b.log[i] == b.log[..|a.log|][i];
  }

  // Entries logged up to a boundary lie below its position p, and no later one does.
  ghost predicate Boundary(s1: RunLog, s2: RunLog, p: nat)
  {
    && |s1.log| <= |s2.log| && s2.log[..|s1.log|] == s1.log && s1.counter < p == s2.counter
    && (forall j :: 0 <= j < |s1.log| ==> s1.log[j].seq_ <= s1.counter)
    && (forall j :: |s1.log| <= j < |s2.log| ==> s2.log[j].seq_ == p)
  }

  lemma BoundaryEntry(s1: RunLog, s2: RunLog, final: RunLog, p: nat, i: nat)
    requires Boundary(s1, s2, p) && Extends(s2, final) && i < |final.log|
    ensures if i < |s1.log| then final.log[i] == s1.log[i] && final.log[i].seq_ < p else final.log[i].seq_ >= p
  {
    if i < |s2.log| { PrefixAt(s2, final, i); }
    if i < |s1.log| { assert s2.log[i] == s2.log[..|s1.log|][i]; }
  }

  lemma BelowBoundary(s1: RunLog, s2: RunLog, final: RunLog, p: nat)
    requires Boundary(s1, s2, p) && Extends(s2, final)
    ensures Below(final.log, p) == s1.log
  {
    forall i | 0 <= i < |final.log|
      ensures if i < |s1.log| then final.log[i] == s1.log[i] && final.log[i].seq_ < p else final.log[i].seq_ >= p
    {
      BoundaryEntry(s1, s2, final, p, i);
    }
    BelowPrefix(final.log, |s1.log|, p);
    assert final.log[..|s1.log|] == s1.log;
  }

  lemma WholeIsBoundary(cfg: Config, s: RunLog, b: Body)
    requires Valid(s) && cfg.supported && b.Whole?
    ensures Boundary(FlushAll(s), Step(cfg, s, Stream(b)), Position(s, b)) && Valid(Step(cfg, s, Stream(b)))
  {
    FlushAllKeeps(s, TextDelta);
    WholeKeeps(cfg, s, b, TextDelta);
  }

  // The final log's entries below a boundary's position are those flushed by it.
  lemma BoundaryPrefix(cfg: Config, s: RunLog, b: Body, post: seq<Op>)
    requires Valid(s) && cfg.supported && b.Whole?
    ensures var final := After(cfg, Step(cfg, s, Stream(b)), post);
      Below(final.log, Position(s, b)) == FlushAll(s).log
  {
    var s2 := Step(cfg, s, Stream(b));
    WholeIsBoundary(cfg, s, b);
    TextConserved(cfg, s2, post, TextDelta);
    BelowBoundary(FlushAll(s), s2, After(cfg, s2, post), Position(s, b));
  }

  /**
    At every boundary: the logged text below the position of a non-delta crumb is the
    text streamed before that crumb, whatever is streamed or flushed afterwards.
  */
  lemma BoundaryText(cfg: Config, s: RunLog, pre: seq<Op>, b: Body, post: seq<Op>, k: Kind)
    requires Valid(s) && cfg.supported && s.windows == [] && b.Whole?
    ensures var final := After(cfg, s, pre + [Stream(b)] + post);
      TextIn(Below(final.log, Position(After(cfg, s, pre), b)), k) == TextIn(s.log, k) + Streamed(pre, k)
  {
    var s0 := After(cfg, s, pre);
    TextConserved(cfg, s, pre, k);
    FlushAllKeeps(s0, k);
    AfterOne(cfg, s, pre, Stream(b));
    AfterSplit(cfg, s, pre + [Stream(b)], post);
    BoundaryPrefix(cfg, s0, b, post);
    NothingBuffered(s, k);
    NothingBuffered(FlushAll(s0), k);
  }

  // After the end of the stream the whole text is in the log.
  lemma FinalText(cfg: Config, s: RunLog, ops: seq<Op>, k: Kind)
    requires Valid(s) && cfg.supported && s.windows == []
    ensures TextIn(After(cfg, s, ops + [Finalize]).log, k) == TextIn(s.log, k) + Streamed(ops, k)
  {
    var s0 := After(cfg, s, ops);
    TextConserved(cfg, s, ops, k);
    FlushAllKeeps(s0, k);
    AfterOne(cfg, s, ops, Finalize);
    NothingBuffered(s, k);
    NothingBuffered(FlushAll(s0), k);
  }

  // Where the log stood when crumb x was given its position.
  function Mark(cfg: Config, s: RunLog, x: Body): nat
  {
    if x.Delta? then |s.log| else |Step(cfg, s, Stream(x)).log|
  }

  /**
    Replay is exact: reading the final log above the position of any streamed crumb x
    gives what was logged from then on, in the order it was logged.
  */
  lemma ReplayExact(cfg: Config, s: RunLog, pre: seq<Op>, x: Body, post: seq<Op>)
    requires Valid(s) && cfg.supported
    ensures var s0, final := After(cfg, s, pre), After(cfg, s, pre + [Stream(x)] + post);
      && Mark(cfg, s0, x) <= |final.log|
      && GetCrumbs(final.log, Some(Position(s0, x)), 0) == final.log[Mark(cfg, s0, x)..]
      && Extends(s0, final)
  {
    var k := TextDelta;
    var s0 := After(cfg, s, pre);
    var s1, final := Step(cfg, s0, Stream(x)), After(cfg, s, pre + [Stream(x)] + post);
    var p, n := Position(s0, x), Mark(cfg, s0, x);
    TextConserved(cfg, s, pre, k);
    StepKeeps(cfg, s0, Stream(x), k);
    if x.Whole? { WholeKeeps(cfg, s0, x, k); FlushAllKeeps(s0, k); }
    AfterOne(cfg, s, pre, Stream(x));
    AfterSplit(cfg, s, pre + [Stream(x)], post);
    TextConserved(cfg, s1, post, k);
    ExtendsTrans(s0, s1, final);
    SortedRead(final.log);
    forall i | 0 <= i < |final.log|
      ensures i < n ==> final.log[i].seq_ <= p
      ensures i >= n ==> final.log[i].seq_ > p
    {
      if i < |s1.log| { PrefixAt(s1, final, i); }
      if i < |s0.log| { PrefixAt(s0, final, i); }
    }
    AboveSuffix(final.log, n, p);
  }

  /**
    Replay misses nothing: the text read above x's position is all the text streamed
    from x on (with, for a delta x, what was already waiting in its window).
  */
  lemma ReplayText(cfg: Config, s: RunLog, pre: seq<Op>, x: Body, post: seq<Op>, k: Kind)
    requires Valid(s) && cfg.supported && s.windows == []
    ensures var s0 := After(cfg, s, pre);
      var read := GetCrumbs(After(cfg, s, pre + [Stream(x)] + post + [Finalize]).log, Some(Position(s0, x)), 0);
      TextIn(read, k) == if x.Whole? then Streamed(post, k) else Buffered(s0, k) + Streamed([Stream(x)] + post, k)
  {
    var s0, tail := After(cfg, s, pre), [Stream(x)] + post;
    var final, n := After(cfg, s, pre + [Stream(x)] + post + [Finalize]), Mark(cfg, s0, x);
    var rest := if x.Whole? then Streamed(post, k) else Buffered(s0, k) + Streamed(tail, k);
    assert n <= |final.log| && GetCrumbs(final.log, Some(Position(s0, x)), 0) == final.log[n..] by {
      assert pre + [Stream(x)] + (post + [Finalize]) == pre + [Stream(x)] + post + [Finalize];
      ReplayExact(cfg, s, pre, x, post + [Finalize]);
    }
    assert TextIn(final.log[..n], k) + rest == TextIn(final.log, k) by {
      ReplayPrefix(cfg, s, pre, x, post, k);
      WholeText(cfg, s, pre, x, post, k);
    }
    assert TextIn(final.log[..n], k) + TextIn(final.log[n..], k) == TextIn(final.log, k) by {
      TextSplit(final.log, n, k);
    }
    SameTail(TextIn(final.log[..n], k), TextIn(final.log[n..], k), rest);
  }

  lemma WholeText(cfg: Config, s: RunLog, pre: seq<Op>, x: Body, post: seq<Op>, k: Kind)
    requires Valid(s) && cfg.supported && s.windows == []
    ensures TextIn(After(cfg, s, pre + [Stream(x)] + post + [Finalize]).log, k)
         == TextIn(s.log, k) + Streamed(pre, k) + Streamed([Stream(x)] + post, k)
  {
    FinalText(cfg, s, pre + [Stream(x)] + post, k);
    assert pre + [Stream(x)] + post == pre + ([Stream(x)] + post);
    StreamedSplit(pre, [Stream(x)] + post, k);
    Assoc(TextIn(s.log, k), Streamed(pre, k), Streamed([Stream(x)] + post, k));
  }

  // The part of the log a read above x leaves out, and what the read owes.
  lemma ReplayPrefix(cfg: Config, s: RunLog, pre: seq<Op>, x: Body, post: seq<Op>, k: Kind)
    requires Valid(s) && cfg.supported && s.windows == []
    ensures var s0, tail := After(cfg, s, pre), [Stream(x)] + post;
      var final, n := After(cfg, s, pre + [Stream(x)] + post + [Finalize]), Mark(cfg, s0, x);
      n <= |final.log| && TextIn(final.log[..n], k)
        + (if x.Whole? then Streamed(post, k) else Buffered(s0, k) + Streamed(tail, k))
        == TextIn(s.log, k) + Streamed(pre, k) + Streamed(tail, k)
  {
    var s0, tail := After(cfg, s, pre), [Stream(x)] + post;
    if x.Whole? {
      WholeReplay(cfg, s, pre, x, post, k);
      StreamedSplit([Stream(x)], post, k);
      assert [Stream(x)][..0] == [] && Streamed([Stream(x)], k) == "";
      assert "" + Streamed(post, k) == Streamed(post, k);
    } else {
      assert pre + [Stream(x)] + (post + [Finalize]) == pre + [Stream(x)] + post + [Finalize];
      ReplayExact(cfg, s, pre, x, post + [Finalize]);
      TextConserved(cfg, s, pre, k);
      NothingBuffered(s, k);
      Assoc(TextIn(s0.log, k), Buffered(s0, k), Streamed(tail, k));
    }
  }

  lemma SameTail(a: string, b: string, c: string)
    requires a + b == a + c
    ensures b == c
  {
    assert b == (a + b)[|a|..] && c == (a + c)[|a|..];
  }

  lemma WholeReplay(cfg: Config, s: RunLog, pre: seq<Op>, x: Body, post: seq<Op>, k: Kind)
    requires Valid(s) && cfg.supported && s.windows == [] && x.Whole?
    ensures var s0 := After(cfg, s, pre);
      var final, n := After(cfg, s, pre + [Stream(x)] + post + [Finalize]), Mark(cfg, s0, x);
      n <= |final.log| && TextIn(final.log[..n], k) == TextIn(s.log, k) + Streamed(pre, k)
  {
    var s0 := After(cfg, s, pre);
    var s1, final := Step(cfg, s0, Stream(x)), After(cfg, s, pre + [Stream(x)] + post + [Finalize]);
    TextConserved(cfg, s, pre, k);
    WholeKeeps(cfg, s0, x, k);
    AfterOne(cfg, s, pre, Stream(x));
    AfterSplit(cfg, s, pre + [Stream(x)], post + [Finalize]);
    assert pre + [Stream(x)] + (post + [Finalize]) == pre + [Stream(x)] + post + [Finalize];
    TextConserved(cfg, s1, post + [Finalize], k);
    assert final.log[..|s1.log|] == s1.log;
    NothingBuffered(s, k);
    NothingBuffered(s1, k);
  }

  // A logged crumb streamed later is in the final log above every earlier position.
  lemma LaterIsAbove(cfg: Config, s: RunLog, pre: seq<Op>, x: Body, mid: seq<Op>, y: Body, post: seq<Op>)
    requires Valid(s) && cfg.supported && y.Whole? && y.logged
    ensures var before := pre + [Stream(x)] + mid;
      var p := Position(After(cfg, s, before), y);
      && p > Position(After(cfg, s, pre), x)
      && Entry(p, y) in After(cfg, s, before + [Stream(y)] + post).log
  {
    var k := TextDelta;
    var s0, before := After(cfg, s, pre), pre + [Stream(x)] + mid;
    var s1, s2 := Step(cfg, s0, Stream(x)), After(cfg, s, before);
    TextConserved(cfg, s, pre, k);
    StepKeeps(cfg, s0, Stream(x), k);
    if x.Whole? { WholeKeeps(cfg, s0, x, k); }
    AfterOne(cfg, s, pre, Stream(x));
    AfterSplit(cfg, s, pre + [Stream(x)], mid);
    TextConserved(cfg, s1, mid, k);
    FlushAllKeeps(s2, k);
    WholeKeeps(cfg, s2, y, k);
    var s3 := Step(cfg, s2, Stream(y));
    AfterOne(cfg, s, before, Stream(y));
    AfterSplit(cfg, s, before + [Stream(y)], post);
    TextConserved(cfg, s3, post, k);
    var n := |s3.log| - 1;
    assert After(cfg, s, before + [Stream(y)] + post).log[n] == s3.log[n];
  }

  /**
    A later writer, seeded from what an earlier one left, only appends, stays strictly
    above every earlier entry, and its log still reads back in the order it was written.
  */
  lemma LaterWriterAbove(cfg: Config, s: RunLog, ops: seq<Op>, cfg': Config, more: seq<Op>)
    requires Valid(s) && cfg.supported && cfg'.supported
    ensures var log := After(cfg, s, ops).log;
      var log' := After(cfg', RunLog(MaxSeq(log), [], false, log), more).log;
      && log <= log' && SortBySeq(log') == log'
      && forall i, e :: |log| <= i < |log'| && e in log ==> log'[i].seq_ > e.seq_
  {
    TextConserved(cfg, s, ops, TextDelta);
    var log := After(cfg, s, ops).log;
    SeededIsValid(log);
    TextConserved(cfg', RunLog(MaxSeq(log), [], false, log), more, TextDelta);
    SortedRead(After(cfg', RunLog(MaxSeq(log), [], false, log), more).log);
  }

  // A relayed run is numbered and shown, and never written.
  lemma {:induction false} MutedWritesNothing(cfg: Config, s: RunLog, ops: seq<Op>)
    requires s.muted
    ensures After(cfg, s, ops).log == s.log && After(cfg, s, ops).muted
    decreases |ops|
  {
    if ops == [] {
    } else {
      MutedWritesNothing(cfg, s, ops[..|ops| - 1]);
      MutedStep(cfg, After(cfg, s, ops[..|ops| - 1]), ops[|ops| - 1]);
    }
  }

  lemma {:induction false} MutedFlushAll(s: RunLog)
    requires s.muted
    ensures FlushAll(s).log == s.log && FlushAll(s).muted
    decreases |s.windows|
  {
    if s.windows != [] { MutedFlushAll(Flush(s, s.windows[0].kind)); }
  }

  lemma MutedStep(cfg: Config, s: RunLog, op: Op)
    requires s.muted
    ensures Step(cfg, s, op).log == s.log && Step(cfg, s, op).muted
  {
    MutedFlushAll(s);
  }

  // ------------------------------------------------------- the source's form

  datatype RunState = RunState(counter: nat, windows: seq<Window>, relayed: bool)

  function LogIn(logs: map<string, seq<Entry>>, runId: string): seq<Entry>
  {
    if runId in logs then logs[runId] else []
  }

  function ViewOf(cfg: Config, logs: map<string, seq<Entry>>, runId: string, run: RunState): RunLog
  {
    RunLog(run.counter, run.windows, run.relayed || !cfg.supported, LogIn(logs, runId))
  }

  // Every stored log grows in position, and no run that is written is behind its own.
  ghost predicate SoundState(cfg: Config, runs: map<string, RunState>, logs: map<string, seq<Entry>>)
  {
    && (forall id :: id in logs ==> Increasing(logs[id]))
    && (forall id :: id in runs && cfg.supported && !runs[id].relayed ==> Valid(ViewOf(cfg, logs, id, runs[id])))
  }

  // One run takes a step and the others are left alone.
  lemma OneRunSteps(cfg: Config, runs: map<string, RunState>, logs: map<string, seq<Entry>>,
                    runs': map<string, RunState>, logs': map<string, seq<Entry>>, runId: string, before: RunLog, op: Op)
    requires SoundState(cfg, runs, logs) && runs - {runId} == runs' - {runId} && logs - {runId} == logs' - {runId}
    requires runId in runs' && before.log == LogIn(logs, runId) && (before.muted || (Valid(before) && cfg.supported))
    requires ViewOf(cfg, logs', runId, runs'[runId]) == Step(cfg, before, op)
    ensures SoundState(cfg, runs', logs') && forall id :: LogGrown(LogIn(logs, id), LogIn(logs', id))
  {
    StepGrows(cfg, before, op);
    SameButOne(runs, runs', runId);
    SameButOne(logs, logs', runId);
    forall id ensures LogGrown(LogIn(logs, id), LogIn(logs', id)) {
      if id != runId { assert LogIn(logs, id) == LogIn(logs', id); }
    }
  }

  class Writer {
    const cfg: Config
    var runs: map<string, RunState>
    var logs: map<string, seq<Entry>>  // the store's crumb log, keyed by run id

    constructor (cfg: Config, logs: map<string, seq<Entry>>)
      ensures this.cfg == cfg && this.logs == logs && runs == map[]
      ensures (forall id :: id in logs ==> Increasing(logs[id])) ==> Sound()
    {
      this.cfg, this.logs, this.runs := cfg, logs, map[];
    }

    function LogOf(runId: string): seq<Entry>
      reads this`logs
    {
      LogIn(logs, runId)
    }

    // A run the writer has not met yet is seeded from the log.
    function Opened(runId: string, relayed: bool): RunState
      reads this
    {
      if runId in runs then runs[runId]
      else RunState(if cfg.supported && !relayed then MaxSeq(LogOf(runId)) else 0, [], relayed)
    }

    function View(runId: string, run: RunState): RunLog
      reads this`logs
    {
      ViewOf(cfg, logs, runId, run)
    }

    // Every stored log grows in position, and no run met so far is behind its own.
    ghost predicate Sound()
      reads this
    {
      SoundState(cfg, runs, logs)
    }

    // Entries were only appended, each strictly above all that was logged of its run before.
    twostate predicate Grown()
      reads this
    {
      forall id :: LogGrown(old(LogOf(id)), LogOf(id))
    }

    // Nothing but run `runId` is different.
    twostate predicate OnlyRun(runId: string)
      reads this
    {
      runId in runs && runs - {runId} == old(runs - {runId}) && logs - {runId} == old(logs - {runId})
    }

    method GetMaxCrumbSeq(runId: string) returns (m: nat)
      ensures m == MaxSeq(LogOf(runId))
    {
      var rows, i := LogOf(runId), 0;
      m := 0;
      while i < |rows|
        invariant 0 <= i <= |rows| && m == MaxSeq(rows[..i])
      {
        MaxSeqNext(rows, i);
        if rows[i].seq_ > m { m := rows[i].seq_; }
        i := i + 1;
      }
      assert rows[..i] == rows;
    }

    method GetRun(runId: string, relayed: bool) returns (run: RunState)
      modifies this`runs
      ensures run == old(Opened(runId, relayed)) && runId in runs && runs[runId] == run
      ensures runs - {runId} == old(runs - {runId})
      ensures runId in old(runs) ==> run == old(runs)[runId]
      ensures runId !in old(runs) ==> run.windows == [] && run.relayed == relayed
      ensures runId !in old(runs) && cfg.supported && !relayed ==>
        && (forall e :: e in LogOf(runId) ==> e.seq_ <= run.counter)
        && (run.counter == 0 || exists e :: e in LogOf(runId) && e.seq_ == run.counter)
        && (Increasing(LogOf(runId)) ==> Valid(View(runId, run)))
    {
      if runId in runs { return runs[runId]; }
      var counter := 0;
      if cfg.supported && !relayed { counter := GetMaxCrumbSeq(runId); }
      run := RunState(counter, [], relayed);
      runs := runs[runId := run];
    }

    method Enqueue(runId: string, e: Entry)
      requires runId in runs
      modifies this`logs
      ensures View(runId, runs[runId]) == Append(old(View(runId, runs[runId])), e)
      ensures logs - {runId} == old(logs - {runId})
    {
      if !cfg.supported || runs[runId].relayed { return; }
      logs := logs[runId := LogOf(runId) + [e]];
    }

    method FlushWindow(runId: string, kind: Kind)
      requires runId in runs
      modifies this
      ensures OnlyRun(runId) && View(runId, runs[runId]) == Flush(old(View(runId, runs[runId])), kind)
    {
      var run := runs[runId];
      var k := Find(run.windows, kind);
      if k == |run.windows| { return; }
      var text, position := run.windows[k].text, run.counter + 1;
      runs := runs[runId := run.(counter := position, windows := run.windows[..k] + run.windows[k + 1..])];
      Enqueue(runId, Entry(position, Delta(kind, text)));
    }

    method FlushAllWindows(runId: string)
      requires runId in runs
      modifies this
      ensures OnlyRun(runId) && View(runId, runs[runId]) == FlushAll(old(View(runId, runs[runId])))
      ensures runs[runId].windows == []
    {
      var open := runs[runId].windows;
      var i := 0;
      while i < |open|
        invariant 0 <= i <= |open| && runId in runs && OnlyRun(runId)
        invariant runs[runId].windows == open[i..]
        invariant FlushAll(View(runId, runs[runId])) == FlushAll(old(View(runId, runs[runId])))
      {
        assert open[i..][0] == open[i] && open[i..][..0] + open[i..][1..] == open[i + 1..];
        FlushWindow(runId, open[i].kind);
        i := i + 1;
      }
    }

    // The crumb's position; None for a crumb without a run.
    method Process(crumb: Crumb) returns (position: Option<nat>)
      modifies this
      ensures crumb.runId == None ==> position == None && runs == old(runs) && logs == old(logs)
      ensures crumb.runId.Some? ==>
        var runId := crumb.runId.value;
        var before := old(View(runId, Opened(runId, crumb.relayed)));
        && OnlyRun(runId)
        && position == Some(Position(before, crumb.body))
        && View(runId, runs[runId]) == Step(cfg, before, Stream(crumb.body))
      ensures crumb.runId.Some? && crumb.runId.value !in old(runs) && cfg.supported && !crumb.relayed ==>
        AboveLog(old(LogOf(crumb.runId.value)), crumb.body, position.value)
      ensures old(Sound()) ==> Sound() && Grown()
    {
      if crumb.runId == None { return None; }
      var p := ProcessOf(crumb.runId.value, crumb.relayed, crumb.body);
      return Some(p);
    }

    method ProcessOf(runId: string, relayed: bool, body: Body) returns (position: nat)
      modifies this
      ensures OnlyRun(runId)
      ensures position == Position(old(View(runId, Opened(runId, relayed))), body)
      ensures View(runId, runs[runId]) == Step(cfg, old(View(runId, Opened(runId, relayed))), Stream(body))
      ensures runId !in old(runs) && cfg.supported && !relayed ==> AboveLog(old(LogOf(runId)), body, position)
      ensures old(Sound()) ==> Sound() && Grown()
    {
      ghost var before := View(runId, Opened(runId, relayed));
      position := ProcessRun(runId, relayed, body);
      if old(Sound()) {
        OneRunSteps(cfg, old(runs), old(logs), runs, logs, runId, before, Stream(body));
      }
    }

    method ProcessRun(runId: string, relayed: bool, body: Body) returns (position: nat)
      modifies this
      ensures OnlyRun(runId)
      ensures position == Position(old(View(runId, Opened(runId, relayed))), body)
      ensures View(runId, runs[runId]) == Step(cfg, old(View(runId, Opened(runId, relayed))), Stream(body))
      ensures runId !in old(runs) && cfg.supported && !relayed ==> AboveLog(old(LogOf(runId)), body, position)
    {
      match body
      case Delta(kind, text) => position := ProcessDelta(runId, relayed, kind, text);
      case Whole(logged, content) => position := ProcessWhole(runId, relayed, logged, content);
    }

    method FillWindow(runId: string, kind: Kind, text: string) returns (size: nat)
      requires runId in runs
      modifies this`runs
      ensures OnlyRun(runId) && View(runId, runs[runId]) == Fill(old(View(runId, runs[runId])), kind, text)
      ensures size == |Buffered(View(runId, runs[runId]), kind)|
    {
      var run := runs[runId];
      var filled := FillWindows(run.windows, kind, text);
      runs := runs[runId := run.(windows := filled)];
      size := |WaitingIn(filled, kind)|;
    }

    method ProcessDelta(runId: string, relayed: bool, kind: Kind, text: string) returns (position: nat)
      modifies this
      ensures OnlyRun(runId)
      ensures position == old(Opened(runId, relayed)).counter
      ensures View(runId, runs[runId]) == Buffer(cfg, old(View(runId, Opened(runId, relayed))), kind, text)
    {
      var run := GetRun(runId, relayed);
      position := run.counter;
      if !cfg.supported { return; }
      var size := FillWindow(runId, kind, text);
      if size >= cfg.maxBufferBytes { FlushWindow(runId, kind); }
    }

    method ProcessWhole(runId: string, relayed: bool, logged: bool, content: string) returns (position: nat)
      modifies this
      ensures OnlyRun(runId)
      ensures position == Position(old(View(runId, Opened(runId, relayed))), Whole(logged, content))
      ensures View(runId, runs[runId])
           == Step(cfg, old(View(runId, Opened(runId, relayed))), Stream(Whole(logged, content)))
    {
      var run := GetRun(runId, relayed);
      FlushAllWindows(runId);
      position := TakePosition(runId);
      if logged { Enqueue(runId, Entry(position, Whole(logged, content))); }
    }

    method TakePosition(runId: string) returns (position: nat)
      requires runId in runs
      modifies this`runs
      ensures var was := old(View(runId, runs[runId]));
        OnlyRun(runId) && position == was.counter + 1 && View(runId, runs[runId]) == was.(counter := position)
    {
      var run := runs[runId];
      position := run.counter + 1;
      runs := runs[runId := run.(counter := position)];
    }

    // The timer of an open window may fire between any two calls.
    method TimerFires(runId: string, kind: Kind)
      requires runId in runs
      modifies this
      ensures OnlyRun(runId) && View(runId, runs[runId]) == Step(cfg, old(View(runId, runs[runId])), Timer(kind))
      ensures old(Sound()) ==> Sound() && Grown()
    {
      ghost var before := View(runId, runs[runId]);
      FlushWindow(runId, kind);
      if old(Sound()) {
        OneRunSteps(cfg, old(runs), old(logs), runs, logs, runId, before, Timer(kind));
      }
    }

    ghost function Views(): (views: map<string, RunLog>)
      reads this
      ensures views.Keys == runs.Keys
    {
      map id | id in runs :: View(id, runs[id])
    }

    method FlushRun(runId: string)
      requires runId in runs
      modifies this
      ensures Views() == old(Views())[runId := FlushAll(old(Views())[runId])]
      ensures forall id :: id !in old(runs) ==> LogOf(id) == old(LogOf(id))
    {
      ghost var wasRuns, wasLogs := runs, logs;
      FlushAllWindows(runId);
      SameButOne(wasRuns, runs, runId);
      SameButOne(wasLogs, logs, runId);
    }

    method FinalizeAll()
      modifies this
      ensures runs.Keys == old(runs.Keys)
      ensures forall id :: id in runs ==> View(id, runs[id]) == Step(cfg, old(View(id, runs[id])), Finalize)
      ensures forall id :: id !in runs ==> LogOf(id) == old(LogOf(id))
      ensures old(Sound()) ==> Grown()
    {
      ghost var views := Views();
      var todo := runs.Keys;
      assert FlushedBut(views, todo) == views;
      while todo != {}
        invariant todo <= runs.Keys == views.Keys
        invariant Views() == FlushedBut(views, todo)
        invariant forall id :: id !in runs ==> LogOf(id) == old(LogOf(id))
        decreases todo
      {
        var id :| id in todo;
        FlushRun(id);
        FlushedOne(views, todo, id);
        assert runs.Keys == Views().Keys;
        todo := todo - {id};
      }
      forall id | id in runs ensures View(id, runs[id]) == FlushAll(views[id]) {
        assert View(id, runs[id]) == Views()[id] == FlushedBut(views, {})[id];
      }
      if old(Sound()) {
        forall id ensures LogGrown(old(LogOf(id)), LogOf(id)) {
          if id in runs { StepGrows(cfg, views[id], Finalize); }
        }
      }
    }
  }

  // A crumb's position is above all that is logged, or for a delta at least as high.
  ghost predicate AboveLog(log: seq<Entry>, body: Body, position: nat)
  {
    forall e :: e in log ==> e.seq_ < position || (body.Delta? && e.seq_ == position)
  }

  // What was logged stays, and what is new is above it.
  ghost predicate LogGrown(log: seq<Entry>, log': seq<Entry>)
  {
    log <= log' && forall i, e :: |log| <= i < |log'| && e in log ==> log'[i].seq_ > e.seq_
  }

  // Any step of a run: a muted one writes nothing, any other only above what is logged.
  lemma StepGrows(cfg: Config, s: RunLog, op: Op)
    requires s.muted || (Valid(s) && cfg.supported)
    ensures var s' := Step(cfg, s, op);
      LogGrown(s.log, s'.log) && s'.muted == s.muted && (if s.muted then s'.log == s.log else Valid(s'))
  {
    if s.muted { MutedStep(cfg, s, op); } else { StepKeeps(cfg, s, op, TextDelta); }
  }

  lemma MaxSeqNext(rows: seq<Entry>, i: nat)
    requires i < |rows|
    ensures var m := MaxSeq(rows[..i]); MaxSeq(rows[..i + 1]) == if rows[i].seq_ > m then rows[i].seq_ else m
  {
    assert rows[..i + 1][..i] == rows[..i];
  }

  ghost function FlushedBut(views: map<string, RunLog>, left: set<string>): (done: map<string, RunLog>)
    ensures done.Keys == views.Keys
  {
    map id | id in views :: if id in left then views[id] else FlushAll(views[id])
  }

  lemma FlushedOne(views: map<string, RunLog>, left: set<string>, id: string)
    requires id in left && id in views
    ensures var was := FlushedBut(views, left); was[id := FlushAll(was[id])] == FlushedBut(views, left - {id})
  {
  }

  lemma SameButOne<V>(a: map<string, V>, b: map<string, V>, id: string)
    requires a - {id} == b - {id}
    ensures forall x :: x != id ==> (x in a <==> x in b) && (x in a ==> a[x] == b[x])
  {
    forall x | x != id ensures (x in a <==> x in b) && (x in a ==> a[x] == b[x]) {
      assert x in a - {id} <==> x in b - {id};
      assert x in a ==> (a - {id})[x] == a[x];
      assert x in b ==> (b - {id})[x] == b[x];
    }
  }
}
