/**
 One append to the audit log, on a sink whose writes may be partial and may fail; what it does is a run
 of the steps of one command of `AuditLog`.
 */
module AuditSink {
  import opened Outcomes
  import L = AuditLog

  lemma PieceWritten(before: string, buf: string, done: nat, n: nat)
    requires done + n <= |buf|
    ensures before + buf[..done] + buf[done..][..n] == before + buf[..done + n]
  {
  }

  class Sink {
    var text: string
    var pending: bool // something was written that was not flushed since
    var stuck: bool   // set once the file could not be cut back

    constructor (text: string)
      ensures this.text == text && !pending && !stuck
    {
      this.text := text;
      pending := false;
      stuck := false;
    }

    /** The length, when the system can tell it. */
    method Len() returns (r: Option<nat>)
      ensures r.Some? ==> r.value == |text|
    {
      var known: bool := *;
      r := if known then Some(|text|) else None;
    }

    /** One write: some of the text, possibly all of it, or an error. */
    method Write(piece: string) returns (written: Option<nat>)
      requires piece != ""
      modifies `text, `pending
      ensures written.Some? ==> 0 < written.value <= |piece| && text == old(text) + piece[..written.value]
      ensures written.None? ==> text == old(text)
    {
      var n: nat := *;
      pending := true;
      if 0 < n <= |piece| {
        text := text + piece[..n];
        written := Some(n);
      } else {
        written := None;
      }
    }

    /** Writes until everything is written or an error comes; an error may leave a prefix behind. */
    method WriteAll(buf: string) returns (ok: bool, ghost cuts: seq<L.Size>)
      modifies `text, `pending
      ensures L.Sum(cuts) <= |buf| && text == old(text) + buf[..L.Sum(cuts)]
      ensures ok <==> L.Sum(cuts) == |buf|
    {
      var done := 0;
      cuts := [];
      while done < |buf|
        invariant done == L.Sum(cuts) <= |buf| && text == old(text) + buf[..done]
      {
        var written := Write(buf[done..]);
        if written.None? {
          return false, cuts;
        }
        PieceWritten(old(text), buf, done, written.value);
        L.SumGrows(cuts, written.value);
        done := done + written.value;
        cuts := cuts + [written.value];
      }
      return true, cuts;
    }

    /** What was written reaches the system, or an error comes. */
    method Flush() returns (ok: bool)
      modifies `pending
      ensures ok ==> !pending
    {
      ok := *;
      if ok {
        pending := false;
      }
    }

    method Truncate(len: nat)
      requires len <= |text|
      modifies this
      ensures stuck ==> text == old(text)
      ensures !stuck ==> text == old(text)[..len]
    {
      var fails: bool := *;
      stuck := fails;
      if !fails {
        text := text[..len];
      }
    }

    /**
     The record and its newline, or the file as it was. What a failed write leaves behind is only
     there when cutting the file back failed too.
     */
    method WriteFlush(line: string) returns (ok: bool, ghost cuts: seq<L.Size>, ghost way: L.Way)
      requires !stuck
      modifies this
      ensures ok ==> text == old(text) + line + "\n" && !pending
      ensures !ok && !stuck ==> text == old(text)
      ensures stuck ==> !ok && old(text) <= text <= old(text) + line + "\n"
      ensures L.Legal(cuts, way, |line + "\n"|) && way != L.NoLock && (ok <==> way == L.Whole)
      ensures stuck <==> way.Broke? && !way.cut
      ensures stuck ==> text == old(text) + (line + "\n")[..L.Sum(cuts)]
    {
      cuts, way := [], L.NoLength;
      var original := Len();
      if original.None? {
        return false, cuts, way;
      }
      var buf := line + "\n";
      ghost var before := text;
      ok, cuts := WriteAll(buf);
      assert before + line + "\n" == before + buf && before + buf[..L.Sum(cuts)] <= before + buf;
      ghost var written := ok;
      if ok {
        ok := Flush();
      }
      if !ok {
        Truncate(original.value);
      }
      way := if ok then L.Whole else L.Broke(written, !stuck);
    }

    /** The file is opened and locked, or it is not. */
    method Lock() returns (ok: bool)
    {
      ok := *;
    }

    /** What an append adds to the list of the log: its record, what could not be cut off, or nothing. */
    static function Left(i: nat, ok: bool, stuck: bool, n: nat): seq<L.Entry> {
      if ok then [L.Record(i)] else if stuck then [L.Torn(i, n)] else []
    }

    /**
     One append as one of many commands sees it: the steps it took are steps of its command alone, and
     they lead to the file it left.
     */
    method Append(line: string, ghost records: L.Records, ghost s: L.State, ghost i: nat)
        returns (ok: bool, ghost steps: seq<L.Step>)
      requires !stuck && i in records && records[i] == line
      requires i in s.phases && s.phases[i] == L.Decided && s.holder == None && s.file == text
      modifies this
      ensures forall step :: step in steps ==> step.i == i
      ensures |old(text)| <= |text|
      ensures L.Run(records, s, steps)
              == Some(L.State(text, None, s.phases[i := L.Released(ok)],
                              s.order + Left(i, ok, stuck, |text| - |old(text)|)))
      ensures ok ==> text == old(text) + line + "\n" && !pending
      ensures !ok && !stuck ==> text == old(text)
      ensures stuck ==> !ok && old(text) <= text <= old(text) + line + "\n"
    {
      ghost var cuts, way := [], L.NoLock;
      ok := Lock();
      if ok {
        ok, cuts, way := WriteFlush(line);
      }
      L.AppendIsARun(records, s, i, cuts, way);
      steps := L.Append(i, cuts, way);
      assert s.file + (line + "\n") == s.file + line + "\n" && s.order + [] == s.order;
    }

    /**
     The end of a command: with auditing on, its result goes out only once its record is in the log,
     and the whole end is a run of the command's own steps.
     */
    method Finish(enabled: bool, line: string, ghost records: L.Records, ghost s: L.State, ghost i: nat)
        returns (emitted: bool, ghost steps: seq<L.Step>)
      requires !stuck && i in records && records[i] == line
      requires i in s.phases && s.phases[i] == L.Decided && s.holder == None && s.file == text
      modifies this
      ensures !enabled ==> emitted && text == old(text)
      ensures enabled && emitted ==> text == old(text) + line + "\n" && !pending
      ensures enabled && !emitted && !stuck ==> text == old(text)
      ensures forall step :: step in steps ==> step.i == i
      ensures |old(text)| <= |text|
      ensures enabled ==>
                L.Run(records, s, steps)
                == Some(L.State(text, None, s.phases[i := if emitted then L.Emitted else L.Withheld],
                                s.order + Left(i, emitted, stuck, |text| - |old(text)|)))
    {
      steps := [];
      if !enabled {
        return true, steps;
      }
      emitted, steps := Append(line, records, s, i);
      L.AnswerFollows(records, s, steps, i);
      steps := steps + [L.Answer(i)];
      ghost var answer := if emitted then L.Emitted else L.Withheld;
      assert s.phases[i := L.Released(emitted)][i := answer] == s.phases[i := answer];
    }
  }
}
