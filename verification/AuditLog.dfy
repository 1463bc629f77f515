/**
 Many commands and one audit log. Each command appends its record under the log's lock, in as many
 writes as it takes, and answers the agent only afterwards; any write, any flush and any cutting back of
 the file may fail.
 */
module AuditLog {
  import opened Outcomes

  /** How far a command has come. From `Writing` to `Appended` it holds the lock. */
  datatype Phase =
    | Decided                               // it has a result, nothing is logged yet
    | Writing(start: nat, left: string)     // the length to fall back to, and what is still to be written
    | Failing(start: nat)                   // a write or the flush failed
    | Appended(ok: bool)
    | Released(ok: bool)                    // the lock is free again
    | Emitted                               // the agent has the result
    | Withheld                              // the agent got AUDIT_FAILED instead

  /** What a command left in the file: its record, or the first `n` characters of it, which could not be cut off. */
  datatype Entry = Record(i: nat) | Torn(i: nat, n: nat)

  /** `order` lists what the commands left, in the order they held the lock. */
  datatype State = State(file: string, holder: Option<nat>, phases: map<nat, Phase>, order: seq<Entry>)

  datatype Step =
    | LockFails(i: nat)                     // or the file cannot be opened, or is no regular file
    | Lock(i: nat)
    | LenFails(i: nat)
    | Write(i: nat, n: nat)
    | WriteFails(i: nat)
    | Flush(i: nat)
    | FlushFails(i: nat)
    | RollBack(i: nat)
    | RollBackFails(i: nat)
    | Unlock(i: nat)
    | Answer(i: nat)

  /** The commands of a run: for each its record, without the newline. */
  type Records = map<nat, string>

  function Line(records: Records, i: nat): string
    requires i in records
  {
    records[i] + "\n"
  }

  predicate Holding(p: Phase) {
    p.Writing? || p.Failing? || p.Appended?
  }

  /** The step the command `i` may take now, and what it leads to; none when it may not. */
  function Next(records: Records, s: State, step: Step): Option<State> {
    var i := step.i;
    if i !in s.phases || i !in records then None
    else
      var p := s.phases[i];
      match step
      case LockFails(_) =>
        if p.Decided? then Some(s.(phases := s.phases[i := Released(false)])) else None
      case LenFails(_) =>
        if p == Writing(|s.file|, Line(records, i)) then Some(s.(phases := s.phases[i := Appended(false)])) else None
      case Lock(_) =>
        if p.Decided? && s.holder == None then
          Some(s.(holder := Some(i), phases := s.phases[i := Writing(|s.file|, Line(records, i))]))
        else None
      case Write(_, n) =>
        if p.Writing? && 0 < n <= |p.left| then
          Some(s.(file := s.file + p.left[..n], phases := s.phases[i := Writing(p.start, p.left[n..])]))
        else None
      case WriteFails(_) =>
        if p.Writing? && p.left != "" then Some(s.(phases := s.phases[i := Failing(p.start)])) else None
      case Flush(_) =>
        if p.Writing? && p.left == "" then
          Some(s.(phases := s.phases[i := Appended(true)], order := s.order + [Record(i)]))
        else None
      case FlushFails(_) =>
        if p.Writing? && p.left == "" then Some(s.(phases := s.phases[i := Failing(p.start)])) else None
      case RollBack(_) =>
        if p.Failing? && p.start <= |s.file| then
          Some(s.(file := s.file[..p.start], phases := s.phases[i := Appended(false)]))
        else None
      case RollBackFails(_) =>
        if p.Failing? && p.start <= |s.file| then
          Some(s.(phases := s.phases[i := Appended(false)], order := s.order + [Torn(i, |s.file| - p.start)]))
        else None
      case Unlock(_) =>
        if p.Appended? then Some(s.(holder := None, phases := s.phases[i := Released(p.ok)])) else None
      case Answer(_) =>
        if p.Released? then Some(s.(phases := s.phases[i := if p.ok then Emitted else Withheld])) else None
  }

  predicate Fits(records: Records, e: Entry) {
    e.i in records && (e.Torn? ==> e.n <= |Line(records, e.i)|)
  }

  function Piece(records: Records, e: Entry): string
    requires Fits(records, e)
  {
    match e
    case Record(i) => Line(records, i)
    case Torn(i, n) => Line(records, i)[..n]
  }

  /** The text of `order`: whole records, each with its newline, and torn ones. */
  function Text(records: Records, order: seq<Entry>): string
    requires forall e :: e in order ==> Fits(records, e)
  {
    if order == [] then ""
    else Text(records, order[..|order| - 1]) + Piece(records, order[|order| - 1])
  }

  function Start(file: string, records: Records): State {
    State(file, None, map i | i in records :: Decided, [])
  }

  /** A run: any number of steps of any commands, in any order. */
  function Run(records: Records, s: State, steps: seq<Step>): Option<State>
    decreases |steps|
  {
    if steps == [] then Some(s)
    else
      match Next(records, s, steps[0])
      case Some(t) => Run(records, t, steps[1..])
      case None => None
  }

  /** What the file holds while `i` is at its record, `log` being the log without it. */
  predicate FileAt(records: Records, file: string, log: string, i: nat, p: Phase)
    requires i in records
  {
    match p
    case Writing(start, left) => start == |log| && file + left == log + Line(records, i) && log <= file
    case Failing(start) => start == |log| && log <= file <= log + Line(records, i)
    case _ => file == log
  }

  /** The lock, the phases and the order agree. */
  predicate Booked(records: Records, s: State) {
    && s.phases.Keys == records.Keys
    && (forall e :: e in s.order ==> Fits(records, e))
    && (forall k, l :: 0 <= k < l < |s.order| ==> s.order[k].i != s.order[l].i)
    && (forall i :: i in s.phases ==> (Record(i) in s.order <==> Succeeded(s.phases[i])))
    && (forall e :: e in s.order && e.Torn? ==> e.i in s.phases && Failed(s.phases[e.i]))
    && (forall i :: i in s.phases ==> (Holding(s.phases[i]) <==> s.holder == Some(i)))
    && (s.holder.Some? ==> s.holder.value in records)
  }

  predicate Succeeded(p: Phase) {
    p == Appended(true) || p == Released(true) || p == Emitted
  }

  predicate Failed(p: Phase) {
    p == Appended(false) || p == Released(false) || p == Withheld
  }

  /** The file, `log` being what the finished commands make it. */
  predicate FileIs(records: Records, s: State, log: string) {
    match s.holder
    case None => s.file == log
    case Some(i) => i in records && i in s.phases && FileAt(records, s.file, log, i, s.phases[i])
  }

  /** What every step of every command keeps. */
  predicate Inv(records: Records, original: string, s: State) {
    Booked(records, s) && FileIs(records, s, original + Text(records, s.order))
  }

  /** A command that holds the lock, or takes it while it is free, moves to its next phase. */
  lemma PhaseMoves(records: Records, s: State, i: nat, q: Phase, holder: Option<nat>)
    requires Booked(records, s) && i in s.phases && (s.holder == None || s.holder == Some(i))
    requires holder == (if Holding(q) then Some(i) else None) && Succeeded(q) == Succeeded(s.phases[i])
    requires Failed(s.phases[i]) ==> Failed(q)
    ensures Booked(records, s.(holder := holder, phases := s.phases[i := q]))
  {
  }

  lemma AnswerIsBooked(records: Records, s: State, i: nat, q: Phase)
    requires Booked(records, s) && i in s.phases && !Holding(s.phases[i]) && !Holding(q)
    requires Succeeded(q) == Succeeded(s.phases[i]) && (Failed(s.phases[i]) ==> Failed(q))
    ensures Booked(records, s.(phases := s.phases[i := q]))
  {
  }

  /** The command at the end of its append is listed, as a record or as a torn one. */
  lemma EntryIsBooked(records: Records, s: State, e: Entry)
    requires Booked(records, s) && e.i in s.phases && Fits(records, e)
    requires s.phases[e.i].Writing? || s.phases[e.i].Failing?
    ensures Booked(records, s.(phases := s.phases[e.i := Appended(e.Record?)], order := s.order + [e]))
  {
    forall k | 0 <= k < |s.order|
      ensures s.order[k].i != e.i
    {
      assert s.order[k] in s.order;
    }
  }

  /** What the step adds to the list. */
  function Added(s: State, step: Step): seq<Entry> {
    match step
    case Flush(i) => [Record(i)]
    case RollBackFails(i) =>
      if i in s.phases && s.phases[i].Failing? && s.phases[i].start <= |s.file| then
        [Torn(i, |s.file| - s.phases[i].start)]
      else []
    case _ => []
  }

  lemma StepKeepsBooks(records: Records, s: State, step: Step)
    requires Booked(records, s) && Next(records, s, step).Some?
    requires forall e :: e in Added(s, step) ==> Fits(records, e)
    ensures Booked(records, Next(records, s, step).value)
  {
    var i, t := step.i, Next(records, s, step).value;
    match step {
      case Flush(_) => EntryIsBooked(records, s, Record(i));
      case RollBackFails(_) => EntryIsBooked(records, s, Torn(i, |s.file| - s.phases[i].start));
      case LockFails(_) => AnswerIsBooked(records, s, i, t.phases[i]);
      case Answer(_) => AnswerIsBooked(records, s, i, t.phases[i]);
      case _ => PhaseMoves(records, s, i, t.phases[i], t.holder);
    }
  }

  /** The log as the steps of the one command that moves see it. */
  lemma StepKeepsFile(records: Records, s: State, step: Step, log: string)
    requires Booked(records, s) && Next(records, s, step).Some? && FileIs(records, s, log)
    ensures forall e :: e in Added(s, step) ==> Fits(records, e)
    ensures FileIs(records, Next(records, s, step).value,
                   if Added(s, step) == [] then log else log + Piece(records, Added(s, step)[0]))
  {
    if step.RollBackFails? {
      var start := s.phases[step.i].start;
      assert s.file == log + Line(records, step.i)[..|s.file| - start];
    }
  }

  lemma TextGrows(records: Records, original: string, order: seq<Entry>, e: Entry)
    requires (forall d :: d in order ==> Fits(records, d)) && Fits(records, e)
    ensures forall d :: d in order + [e] ==> Fits(records, d)
    ensures original + Text(records, order + [e]) == original + Text(records, order) + Piece(records, e)
  {
  }

  lemma OrderGrows(records: Records, s: State, step: Step)
    requires Next(records, s, step).Some?
    ensures var order := Next(records, s, step).value.order;
            order == if Added(s, step) == [] then s.order else s.order + [Added(s, step)[0]]
  {
  }

  lemma StepKeepsInv(records: Records, original: string, s: State, step: Step)
    requires Inv(records, original, s) && Next(records, s, step).Some?
    ensures Inv(records, original, Next(records, s, step).value)
  {
    StepKeepsFile(records, s, step, original + Text(records, s.order));
    StepKeepsBooks(records, s, step);
    OrderGrows(records, s, step);
    if Added(s, step) != [] {
      TextGrows(records, original, s.order, Added(s, step)[0]);
    }
  }

  lemma {:induction false} RunKeepsInv(records: Records, original: string, s: State, steps: seq<Step>)
    requires Inv(records, original, s) && Run(records, s, steps).Some?
    ensures Inv(records, original, Run(records, s, steps).value)
    decreases |steps|
  {
    if steps != [] {
      StepKeepsInv(records, original, s, steps[0]);
      RunKeepsInv(records, original, Next(records, s, steps[0]).value, steps[1..]);
    }
  }

  /** The command `i` left a torn record. */
  predicate Tore(order: seq<Entry>, i: nat) {
    exists k :: 0 <= k < |order| && order[k].Torn? && order[k].i == i
  }

  lemma ToreGrows(order: seq<Entry>, e: Entry, i: nat)
    ensures Tore(order + [e], i) <==> Tore(order, i) || (e.Torn? && e.i == i)
  {
    var grown := order + [e];
    assert grown[|order|] == e && forall k :: 0 <= k < |order| ==> grown[k] == order[k];
  }

  /** Torn records come from cuts that failed, and from nothing else. */
  lemma {:induction false} CutsTear(records: Records, s: State, steps: seq<Step>, i: nat)
    requires Run(records, s, steps).Some?
    ensures Tore(Run(records, s, steps).value.order, i) <==> Tore(s.order, i) || RollBackFails(i) in steps
    decreases |steps|
  {
    if steps != [] {
      var t := Next(records, s, steps[0]).value;
      if Added(s, steps[0]) != [] {
        ToreGrows(s.order, Added(s, steps[0])[0], i);
      }
      assert steps == [steps[0]] + steps[1..];
      CutsTear(records, t, steps[1..], i);
    }
  }

  /**
   In every run, whenever the lock is free, the file is what it was at first followed by what the
   commands left, in the order of the lock: whole records with their newlines, and a torn one exactly
   for each cut that failed. Every result the agent has is one of the whole records.
   */
  lemma LogIsExact(original: string, records: Records, steps: seq<Step>)
    requires Run(records, Start(original, records), steps).Some?
    ensures var s := Run(records, Start(original, records), steps).value;
            && (forall e :: e in s.order ==> Fits(records, e))
            && (s.holder == None ==> s.file == original + Text(records, s.order))
            && (forall i :: i in s.phases && s.phases[i] == Emitted ==> Record(i) in s.order)
            && (forall i :: i in s.phases && s.phases[i] == Withheld ==> Record(i) !in s.order)
            && (forall i :: Tore(s.order, i) <==> RollBackFails(i) in steps)
            && (forall k, l :: 0 <= k < l < |s.order| ==> s.order[k].i != s.order[l].i)
  {
    assert original + "" == original;
    RunKeepsInv(records, original, Start(original, records), steps);
    forall i
      ensures Tore(Run(records, Start(original, records), steps).value.order, i) <==> RollBackFails(i) in steps
    {
      CutsTear(records, Start(original, records), steps, i);
    }
  }

  /** Where no cut failed, the file is the original and whole records. */
  lemma WholeWithoutFailedCuts(original: string, records: Records, steps: seq<Step>)
    requires Run(records, Start(original, records), steps).Some?
    requires forall step :: step in steps ==> !step.RollBackFails?
    ensures forall e :: e in Run(records, Start(original, records), steps).value.order ==> e.Record?
  {
    var order := Run(records, Start(original, records), steps).value.order;
    forall k | 0 <= k < |order|
      ensures order[k].Record?
    {
      LogIsExact(original, records, steps);
      assert order[k].Torn? ==> Tore(order, order[k].i);
    }
  }

  /** Whoever holds the lock, the records of the results already given are in the file for good. */
  lemma EmittedIsLogged(original: string, records: Records, steps: seq<Step>)
    requires Run(records, Start(original, records), steps).Some?
    ensures var s := Run(records, Start(original, records), steps).value;
            && (forall e :: e in s.order ==> Fits(records, e))
            && original + Text(records, s.order) <= s.file
            && (forall i :: i in s.phases && s.phases[i] == Emitted ==> Record(i) in s.order)
  {
    assert original + "" == original;
    RunKeepsInv(records, original, Start(original, records), steps);
  }

  // ----- the append of one command -----

  /** How an append went. */
  datatype Way = NoLock | NoLength | Broke(written: bool, cut: bool) | Whole

  /** How many characters one write took. */
  type Size = n: int | n > 0 witness 1

  function Sum(cuts: seq<Size>): nat {
    if cuts == [] then 0 else Sum(cuts[..|cuts| - 1]) + cuts[|cuts| - 1]
  }

  lemma SumGrows(cuts: seq<Size>, n: Size)
    ensures Sum(cuts + [n]) == Sum(cuts) + n
  {
    assert (cuts + [n])[..|cuts|] == cuts;
  }

  /** The writes that an append of `size` characters may have made. */
  predicate Legal(cuts: seq<Size>, way: Way, size: nat) {
    match way
    case Broke(written, _) => if written then Sum(cuts) == size else Sum(cuts) < size
    case Whole => Sum(cuts) == size
    case _ => cuts == []
  }

  function Writes(i: nat, cuts: seq<Size>): seq<Step> {
    seq(|cuts|, k requires 0 <= k < |cuts| => Write(i, cuts[k]))
  }

  /** What follows the writes of an append. */
  function Closing(i: nat, way: Way): seq<Step> {
    match way
    case NoLock => []
    case NoLength => [LenFails(i), Unlock(i)]
    case Broke(written, cut) =>
      [if written then FlushFails(i) else WriteFails(i), if cut then RollBack(i) else RollBackFails(i), Unlock(i)]
    case Whole => [Flush(i), Unlock(i)]
  }

  /** Everything the command `i` does to append its record. */
  function Append(i: nat, cuts: seq<Size>, way: Way): seq<Step> {
    if way.NoLock? then [LockFails(i)] else [Lock(i)] + Writes(i, cuts) + Closing(i, way)
  }

  lemma RunOne(records: Records, s: State, step: Step)
    ensures Run(records, s, [step]) == Next(records, s, step)
  {
    var steps := [step];
    assert steps[1..] == [];
  }

  lemma RunTwo(records: Records, s: State, a: Step, b: Step)
    requires Next(records, s, a).Some?
    ensures Run(records, s, [a, b]) == Next(records, Next(records, s, a).value, b)
  {
    RunOne(records, Next(records, s, a).value, b);
    assert [a, b][1..] == [b];
  }

  lemma {:induction false} RunConcat(records: Records, s: State, a: seq<Step>, b: seq<Step>)
    ensures Run(records, s, a + b)
            == match Run(records, s, a)
               case Some(t) => Run(records, t, b)
               case None => None
    decreases |a|
  {
    if a == [] {
      assert a + b == b;
    } else {
      assert (a + b)[0] == a[0] && (a + b)[1..] == a[1..] + b;
      if Next(records, s, a[0]).Some? {
        RunConcat(records, Next(records, s, a[0]).value, a[1..], b);
      }
    }
  }

  /** The lock is taken by `i`. */
  function Locked(records: Records, s: State, i: nat): State
    requires i in records
  {
    s.(holder := Some(i), phases := s.phases[i := Writing(|s.file|, Line(records, i))])
  }

  /** After the first `n` characters of its record. */
  function Written(records: Records, s: State, i: nat, n: nat): State
    requires i in records && n <= |Line(records, i)|
  {
    var line := Line(records, i);
    s.(file := s.file + line[..n], holder := Some(i), phases := s.phases[i := Writing(|s.file|, line[n..])])
  }

  lemma OneWrite(records: Records, s: State, i: nat, n: nat, more: nat)
    requires i in records && i in s.phases && more > 0 && n + more <= |Line(records, i)|
    ensures Run(records, Written(records, s, i, n), [Write(i, more)]) == Some(Written(records, s, i, n + more))
  {
    var line := Line(records, i);
    var t := Written(records, s, i, n);
    assert s.file + line[..n] + line[n..][..more] == s.file + line[..n + more];
    assert line[n..][more..] == line[n + more..];
    assert t.phases[i := Writing(|s.file|, line[n + more..])] == s.phases[i := Writing(|s.file|, line[n + more..])];
    var one := [Write(i, more)];
    assert one[1..] == [];
  }

  lemma {:induction false} WritesRun(records: Records, s: State, i: nat, cuts: seq<Size>)
    requires i in records && i in s.phases
    requires Sum(cuts) <= |Line(records, i)|
    ensures Run(records, Locked(records, s, i), Writes(i, cuts)) == Some(Written(records, s, i, Sum(cuts)))
    decreases |cuts|
  {
    if cuts == [] {
      assert s.file + Line(records, i)[..0] == s.file && Line(records, i)[0..] == Line(records, i);
    } else {
      var front, last := cuts[..|cuts| - 1], cuts[|cuts| - 1];
      WritesRun(records, s, i, front);
      OneWrite(records, s, i, Sum(front), last);
      RunConcat(records, Locked(records, s, i), Writes(i, front), [Write(i, last)]);
      assert Writes(i, cuts) == Writes(i, front) + [Write(i, last)];
    }
  }

  /** What the append of `i` leads to, `n` characters having been written. */
  function Ended(records: Records, s: State, i: nat, n: nat, way: Way): State
    requires i in records && n <= |Line(records, i)|
  {
    match way
    case Whole =>
      s.(file := s.file + Line(records, i), phases := s.phases[i := Released(true)], order := s.order + [Record(i)])
    case Broke(_, false) =>
      s.(file := s.file + Line(records, i)[..n], phases := s.phases[i := Released(false)],
         order := s.order + [Torn(i, n)])
    case _ => s.(phases := s.phases[i := Released(false)])
  }

  lemma UnlockEnds(records: Records, s: State, i: nat, file: string, ok: bool, order: seq<Entry>)
    requires i in records && i in s.phases
    ensures Next(records, State(file, Some(i), s.phases[i := Appended(ok)], order), Unlock(i))
            == Some(State(file, None, s.phases[i := Released(ok)], order))
  {
    assert s.phases[i := Appended(ok)][i := Released(ok)] == s.phases[i := Released(ok)];
  }

  /** The record is written and flushed. */
  lemma WholeCloses(records: Records, s: State, i: nat, n: nat)
    requires i in records && i in s.phases && s.holder == None && n == |Line(records, i)|
    ensures Run(records, Written(records, s, i, n), Closing(i, Whole)) == Some(Ended(records, s, i, n, Whole))
  {
    var line, t := Line(records, i), Written(records, s, i, n);
    assert line[..n] == line;
    assert t.phases[i := Appended(true)] == s.phases[i := Appended(true)];
    UnlockEnds(records, s, i, t.file, true, s.order + [Record(i)]);
    RunTwo(records, t, Flush(i), Unlock(i));
  }

  lemma NoLengthCloses(records: Records, s: State, i: nat)
    requires i in records && i in s.phases && s.holder == None
    ensures Run(records, Written(records, s, i, 0), Closing(i, NoLength)) == Some(Ended(records, s, i, 0, NoLength))
  {
    var line, t := Line(records, i), Written(records, s, i, 0);
    assert t.file == s.file && line[0..] == line;
    assert t.phases[i := Appended(false)] == s.phases[i := Appended(false)];
    UnlockEnds(records, s, i, s.file, false, s.order);
    RunTwo(records, t, LenFails(i), Unlock(i));
  }

  /** The write or the flush failed, and the file is cut back, or cannot be. */
  lemma BrokenCloses(records: Records, s: State, i: nat, n: nat, written: bool, cut: bool)
    requires i in records && i in s.phases && s.holder == None && n <= |Line(records, i)|
    requires written <==> n == |Line(records, i)|
    ensures Run(records, Written(records, s, i, n), Closing(i, Broke(written, cut)))
            == Some(Ended(records, s, i, n, Broke(written, cut)))
  {
    var t := Written(records, s, i, n);
    var first := if written then FlushFails(i) else WriteFails(i);
    var second := if cut then RollBack(i) else RollBackFails(i);
    var failed := t.(phases := s.phases[i := Failing(|s.file|)]);
    assert t.phases[i := Failing(|s.file|)] == failed.phases;
    assert Next(records, t, first) == Some(failed);
    assert failed.file[..|s.file|] == s.file;
    assert failed.phases[i := Appended(false)] == s.phases[i := Appended(false)];
    UnlockEnds(records, s, i, if cut then s.file else t.file, false, if cut then s.order else s.order + [Torn(i, n)]);
    RunTwo(records, failed, second, Unlock(i));
    var closing := Closing(i, Broke(written, cut));
    assert closing == [first, second, Unlock(i)] && closing[1..] == [second, Unlock(i)];
  }

  lemma ClosingRuns(records: Records, s: State, i: nat, cuts: seq<Size>, way: Way)
    requires i in records && i in s.phases && s.holder == None && !way.NoLock? && Legal(cuts, way, |Line(records, i)|)
    ensures Run(records, Written(records, s, i, Sum(cuts)), Closing(i, way))
            == Some(Ended(records, s, i, Sum(cuts), way))
  {
    match way {
      case NoLength => NoLengthCloses(records, s, i);
      case Whole => WholeCloses(records, s, i, Sum(cuts));
      case Broke(written, cut) => BrokenCloses(records, s, i, Sum(cuts), written, cut);
    }
  }

  lemma WritingRuns(records: Records, s: State, i: nat, cuts: seq<Size>)
    requires i in records && i in s.phases && s.phases[i] == Decided && s.holder == None
    requires Sum(cuts) <= |Line(records, i)|
    ensures Run(records, s, [Lock(i)] + Writes(i, cuts)) == Some(Written(records, s, i, Sum(cuts)))
  {
    RunOne(records, s, Lock(i));
    RunConcat(records, s, [Lock(i)], Writes(i, cuts));
    WritesRun(records, s, i, cuts);
  }

  lemma AppendIsAlone(i: nat, cuts: seq<Size>, way: Way)
    ensures forall step :: step in Append(i, cuts, way) ==> step.i == i
  {
    assert forall step :: step in Writes(i, cuts) ==> step.i == i;
    assert forall step :: step in Closing(i, way) ==> step.i == i;
  }

  /** An append, however it goes, is a run of the steps of its command. */
  lemma AppendIsARun(records: Records, s: State, i: nat, cuts: seq<Size>, way: Way)
    requires i in records && i in s.phases && s.phases[i] == Decided && s.holder == None
    requires Legal(cuts, way, |Line(records, i)|)
    ensures Run(records, s, Append(i, cuts, way)) == Some(Ended(records, s, i, Sum(cuts), way))
    ensures forall step :: step in Append(i, cuts, way) ==> step.i == i
  {
    if way.NoLock? {
      RunOne(records, s, LockFails(i));
    } else {
      WritingRuns(records, s, i, cuts);
      RunConcat(records, s, [Lock(i)] + Writes(i, cuts), Closing(i, way));
      ClosingRuns(records, s, i, cuts, way);
    }
    AppendIsAlone(i, cuts, way);
  }

  /** After its append a command answers: the result, or that the audit failed. */
  lemma AnswerFollows(records: Records, s: State, steps: seq<Step>, i: nat)
    requires i in records
    ensures var end := Run(records, s, steps);
            end.Some? && i in end.value.phases && end.value.phases[i].Released? ==>
              Run(records, s, steps + [Answer(i)])
              == Some(end.value.(phases := end.value.phases[i := if end.value.phases[i].ok then Emitted else Withheld]))
  {
    RunConcat(records, s, steps, [Answer(i)]);
    if Run(records, s, steps).Some? {
      RunOne(records, Run(records, s, steps).value, Answer(i));
    }
  }

  // ----- reading the log back -----

  /** The lines of a text, each ended by a newline; what follows the last newline is not a line. */
  function Lines(text: string): seq<string>
    decreases |text|
  {
    if text == "" || text[|text| - 1] != '\n' then []
    else
      var body := text[..|text| - 1];
      var n := LastNewline(body);
      Lines(body[..n]) + [body[n..]]
  }

  /** The length of the text up to and including its last newline. */
  function LastNewline(text: string): (n: nat)
    ensures n <= |text|
    ensures n > 0 ==> text[n - 1] == '\n'
    ensures forall k :: n <= k < |text| ==> text[k] != '\n'
  {
    if text == "" then 0
    else if text[|text| - 1] == '\n' then |text|
    else LastNewline(text[..|text| - 1])
  }

  predicate OneLine(record: string) {
    '\n' !in record
  }

  lemma {:induction false} LastNewlineIs(text: string, tail: string)
    requires OneLine(tail) && (text == "" || text[|text| - 1] == '\n')
    ensures LastNewline(text + tail) == |text|
    decreases |tail|
  {
    var all := text + tail;
    if tail == "" {
      assert all == text;
    } else {
      assert all[|all| - 1] == tail[|tail| - 1] && tail[|tail| - 1] in tail;
      assert all[..|all| - 1] == text + tail[..|tail| - 1];
      LastNewlineIs(text, tail[..|tail| - 1]);
    }
  }

  /** Appending a record that is one line adds exactly that line. */
  lemma LinesAppend(text: string, record: string)
    requires OneLine(record) && (text == "" || text[|text| - 1] == '\n')
    ensures Lines(text + record + "\n") == Lines(text) + [record]
  {
    var all, body := text + record + "\n", text + record;
    assert all[..|all| - 1] == body && all[|all| - 1] == '\n';
    LastNewlineIs(text, record);
    assert body[..|text|] == text && body[|text|..] == record;
  }

  /** Every command of the list left its whole record. */
  predicate AllRecords(records: Records, order: seq<Entry>) {
    forall e :: e in order ==> e.Record? && e.i in records
  }

  function RecordsOf(records: Records, order: seq<Entry>): seq<string>
    requires AllRecords(records, order)
  {
    seq(|order|, k requires 0 <= k < |order| => records[order[k].i])
  }

  lemma RecordsGrow(records: Records, lines: seq<string>, order: seq<Entry>, e: Entry)
    requires AllRecords(records, order) && e.Record? && e.i in records
    ensures AllRecords(records, order + [e])
    ensures lines + RecordsOf(records, order + [e]) == lines + RecordsOf(records, order) + [records[e.i]]
  {
  }

  predicate Complete(text: string) {
    text == "" || text[|text| - 1] == '\n'
  }

  predicate ReadsBack(records: Records, original: string, order: seq<Entry>)
    requires AllRecords(records, order)
  {
    var text := original + Text(records, order);
    Complete(text) && Lines(text) == Lines(original) + RecordsOf(records, order)
  }

  lemma OneMoreRecord(records: Records, original: string, order: seq<Entry>, e: Entry)
    requires AllRecords(records, order) && AllRecords(records, order + [e])
    requires e.Record? && e.i in records && OneLine(records[e.i]) && ReadsBack(records, original, order)
    ensures ReadsBack(records, original, order + [e])
  {
    var text := original + Text(records, order);
    TextGrows(records, original, order, e);
    assert text + Line(records, e.i) == text + records[e.i] + "\n";
    LinesAppend(text, records[e.i]);
    RecordsGrow(records, Lines(original), order, e);
  }

  /** A log of one-line records reads back as the records, in order. */
  lemma {:induction false} LogReadsBack(records: Records, original: string, order: seq<Entry>)
    requires AllRecords(records, order) && forall e :: e in order ==> OneLine(records[e.i])
    requires Complete(original)
    ensures ReadsBack(records, original, order)
    decreases |order|
  {
    if order == [] {
      assert original + "" == original;
      assert Lines(original) + [] == Lines(original);
    } else {
      var front, last := order[..|order| - 1], order[|order| - 1];
      assert last in order && order == front + [last];
      LogReadsBack(records, original, front);
      OneMoreRecord(records, original, front, last);
    }
  }
}
