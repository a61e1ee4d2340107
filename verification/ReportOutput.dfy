/**
  * Publishing the accuracy report (harness/report_output.py, harness/run_accuracy.py:448-473):
  * a temporary sibling is reserved before any paid work and renamed over the target at the end.
  * Every file state the process passes through is recorded, so a kill is any prefix of the record.
  */
module ReportOutput {
  import opened Schemas

  // What a path holds.
  datatype Entry = Missing | Regular(bytes: string, mode: nat) | Directory | Special

  // mkstemp creates the temporary readable and writable by its owner only (octal 600).
  const PRIVATE_MODE: nat := 384

  // The two paths the protocol touches.
  datatype Files = Files(target: Entry, temp: Entry)

  datatype Fault =
    | MkdirFailed | IsADirectory | NotRegular | NotWritable | MkstempFailed | ReserveWriteFailed
    | RunFailed | StdoutFailed
    | WriteFailed | ChmodFailed | ReplaceFailed | UnlinkFailed

  // What the environment makes of one publication. A write may fail after any number of characters.
  datatype Weather = Weather(
    mkdir: bool, writable: bool, mkstemp: bool, reserveCut: Option<nat>,
    markdown: Option<string>,
    stdout: bool,
    writeCut: Option<nat>, chmod: bool, replace: bool, unlink: bool)

  datatype Exit = Returned | Raised(fault: Fault)

  class Disk {
    var target: Entry
    var temp: Entry
    var ran: bool      // the accuracy run, with its paid calls, was started
    var printed: bool
    ghost var trace: seq<Files>

    ghost predicate Valid()
      reads this
    {
      trace != [] && trace[|trace| - 1] == Files(target, temp)
    }

    constructor (target: Entry)
      ensures Valid() && this.target == target && temp == Missing && !ran && !printed
      ensures trace == [Files(target, Missing)]
    {
      this.target := target;
      temp, ran, printed := Missing, false, false;
      trace := [Files(target, Missing)];
    }

    method Mkstemp(ok: bool)
      requires Valid() && temp == Missing
      modifies this`temp, this`trace
      ensures Valid() && Quiet(old(trace), trace, target)
      ensures temp == if ok then Regular("", PRIVATE_MODE) else Missing
    {
      if ok {
        temp := Regular("", PRIVATE_MODE);
        trace := trace + [Files(target, temp)];
      }
    }

    // Truncate, then write; the file passes through every prefix written.
    method WriteText(text: string, cut: Option<nat>) returns (ok: bool)
      requires Valid() && temp.Regular?
      modifies this`temp, this`trace
      ensures Valid() && Quiet(old(trace), trace, target)
      ensures ok <==> cut.None?
      ensures temp.Regular? && temp.mode == old(temp.mode) && temp.bytes <= text
      ensures ok ==> temp.bytes == text
    {
      temp := Regular("", temp.mode);
      trace := trace + [Files(target, temp)];
      for i := 0 to |text|
        invariant Valid() && Quiet(old(trace), trace, target)
        invariant temp == Regular(text[..i], old(temp.mode))
      {
        if cut == Some(i) {
          return false;
        }
        temp := Regular(text[..i + 1], temp.mode);
        trace := trace + [Files(target, temp)];
      }
      assert text[..|text|] == text;
      return cut.None?;
    }

    method Chmod(mode: nat, ok: bool)
      requires Valid() && temp.Regular?
      modifies this`temp, this`trace
      ensures Valid() && Quiet(old(trace), trace, target)
      ensures temp == if ok then Regular(old(temp.bytes), mode) else old(temp)
    {
      if ok {
        temp := Regular(temp.bytes, mode);
        trace := trace + [Files(target, temp)];
      }
    }

    // rename(2): the target changes in one step.
    method Replace(ok: bool)
      requires Valid() && temp.Regular?
      modifies this`target, this`temp, this`trace
      ensures Valid()
      ensures target == if ok then old(temp) else old(target)
      ensures temp == if ok then Missing else old(temp)
      ensures trace == if ok then old(trace) + [Files(target, temp)] else old(trace)
    {
      if ok {
        target, temp := temp, Missing;
        trace := trace + [Files(target, temp)];
      }
    }

    method Unlink(works: bool) returns (ok: bool)
      requires Valid()
      modifies this`temp, this`trace
      ensures Valid() && Quiet(old(trace), trace, target)
      ensures ok <==> old(temp).Missing? || works
      ensures temp == if ok then Missing else old(temp)
    {
      if temp.Missing? {
        return true;
      }
      if works {
        temp := Missing;
        trace := trace + [Files(target, temp)];
      }
      return works;
    }
  }

  // Nothing happened to the target between two points of the record.
  ghost predicate Quiet(before: seq<Files>, after: seq<Files>, target: Entry) {
    before <= after && forall k :: |before| <= k < |after| ==> after[k].target == target
  }

  // The complete new report, with the mode of the report it replaces.
  function NewReport(old_: Entry, markdown: string): Entry {
    Regular(markdown + "\n", if old_.Regular? then old_.mode else PRIVATE_MODE)
  }

  // The sink could be reserved.
  ghost predicate Reserves(target: Entry, w: Weather) {
    w.mkdir && (target.Missing? || (target.Regular? && w.writable)) && w.mkstemp && w.reserveCut.None?
  }

  // The report could be put in place. Standard output plays no part.
  ghost predicate FileLands(target: Entry, w: Weather) {
    w.markdown.Some? && w.writeCut.None? && (target.Regular? ==> w.chmod) && w.replace
  }

  // The fault was really there.
  ghost predicate Occurs(fault: Fault, target: Entry, w: Weather) {
    match fault
    case MkdirFailed => !w.mkdir
    case IsADirectory => target.Directory?
    case NotRegular => target.Special?
    case NotWritable => target.Regular? && !w.writable
    case MkstempFailed => !w.mkstemp
    case ReserveWriteFailed => w.reserveCut.Some?
    case RunFailed => w.markdown.None?
    case StdoutFailed => !w.stdout
    case WriteFailed => w.writeCut.Some?
    case ChmodFailed => target.Regular? && !w.chmod
    case ReplaceFailed => !w.replace
    case UnlinkFailed => !w.unlink
  }

  // From one point of the record on, the target holds the old entry and then, from some later
  // point on, the new one: no other content, and no way back.
  ghost predicate OldThenNew(trace: seq<Files>, from: nat, old_: Entry, new_: Entry) {
    exists switch: nat :: Switches(trace, from, switch, old_, new_)
  }

  ghost predicate Switches(trace: seq<Files>, from: nat, switch: nat, old_: Entry, new_: Entry) {
    && from <= switch <= |trace|
    && (forall k :: from <= k < switch ==> trace[k].target == old_)
    && (forall k :: switch <= k < |trace| ==> trace[k].target == new_)
  }

  // The checks made on an existing target, before anything is created.
  method CheckTarget(d: Disk, w: Weather) returns (fault: Option<Fault>, mode: Option<nat>)
    ensures fault.Some? ==> Occurs(fault.value, d.target, w) && !Reserves(d.target, w)
    ensures fault.None? ==> w.mkdir && (d.target.Missing? || (d.target.Regular? && w.writable))
    ensures fault.None? ==> mode == if d.target.Regular? then Some(d.target.mode) else None
  {
    mode := None;
    if !w.mkdir {
      return Some(MkdirFailed), None;
    }
    if !d.target.Missing? {
      if !d.target.Regular? {
        return Some(if d.target.Directory? then IsADirectory else NotRegular), None;
      }
      if !w.writable {
        return Some(NotWritable), None;
      }
      mode := Some(d.target.mode);
    }
    fault := None;
  }

  // The run and its two sinks; stdout goes first and its failure is held back.
  method RunAndWrite(d: Disk, mode: Option<nat>, w: Weather) returns (r: Exit)
    requires d.Valid() && d.temp.Regular? && d.temp.mode == PRIVATE_MODE
    requires mode == if d.target.Regular? then Some(d.target.mode) else None
    modifies d
    ensures d.Valid() && d.ran && (d.printed <==> old(d.printed) || (w.markdown.Some? && w.stdout))
    ensures if FileLands(old(d.target), w)
            then d.target == NewReport(old(d.target), w.markdown.value) && d.temp.Missing?
            else d.target == old(d.target) && d.temp.Regular?
    ensures old(d.trace) <= d.trace && OldThenNew(d.trace, |old(d.trace)|, old(d.target), d.target)
    ensures r.Returned? <==> FileLands(old(d.target), w) && w.stdout
    ensures r.Raised? ==> Occurs(r.fault, old(d.target), w)
    ensures FileLands(old(d.target), w) && !w.stdout ==> r == Raised(StdoutFailed)
  {
    ghost var from, before := |d.trace|, d.target;
    d.ran := true;
    if w.markdown.None? {
      assert Switches(d.trace, from, |d.trace|, before, d.target);
      return Raised(RunFailed);
    }
    var text := w.markdown.value + "\n";
    var held: Option<Fault> := None;
    if w.stdout {
      d.printed := true;
    } else {
      held := Some(StdoutFailed);
    }
    var ok := d.WriteText(text, w.writeCut);
    if !ok {
      assert Switches(d.trace, from, |d.trace|, before, d.target);
      return Raised(WriteFailed);
    }
    if mode.Some? {
      d.Chmod(mode.value, w.chmod);
      if !w.chmod {
        assert Switches(d.trace, from, |d.trace|, before, d.target);
        return Raised(ChmodFailed);
      }
    }
    ghost var switch := |d.trace|;
    d.Replace(w.replace);
    assert Switches(d.trace, from, switch, before, d.target);
    if !w.replace {
      return Raised(ReplaceFailed);
    }
    return if held.Some? then Raised(held.value) else Returned;
  }

  /**
    * At every moment the path holds its previous entry or the complete new report. The report is
    * put in place whenever the sink is reserved and the file operations succeed, whatever stdout
    * does; the temporary outlives the call only if it could not be unlinked; and no paid work
    * starts before the sink is reserved.
    */
  method Publish(d: Disk, w: Weather) returns (r: Exit)
    requires d.Valid() && d.temp.Missing? && !d.ran && !d.printed
    modifies d
    ensures old(d.trace) <= d.trace && d.Valid()
    ensures OldThenNew(d.trace, |old(d.trace)|, old(d.target), d.target)
    // Killed at any moment, the path is as it was or holds the whole new report.
    ensures forall k :: |old(d.trace)| <= k < |d.trace| ==>
              || d.trace[k].target == old(d.target)
              || (w.markdown.Some? && d.trace[k].target == NewReport(old(d.target), w.markdown.value))
    // The new report is the text with a line break, private unless it replaces a report, whose mode it takes.
    ensures d.target != old(d.target) ==>
              w.markdown.Some? && d.target ==
                Regular(w.markdown.value + "\n", if old(d.target).Regular? then old(d.target).mode else 384)
    ensures d.target == if Reserves(old(d.target), w) && FileLands(old(d.target), w)
                        then NewReport(old(d.target), w.markdown.value) else old(d.target)
    ensures d.ran <==> Reserves(old(d.target), w)
    ensures d.printed <==> d.ran && w.markdown.Some? && w.stdout
    ensures w.unlink ==> d.temp.Missing?
    ensures !d.temp.Missing? ==> d.target == old(d.target) && r == Raised(UnlinkFailed)
    ensures r.Returned? <==>
              && w.mkdir && (old(d.target).Missing? || (old(d.target).Regular? && w.writable && w.chmod))
              && w.mkstemp && w.reserveCut.None? && w.markdown.Some? && w.stdout && w.writeCut.None? && w.replace
    ensures r.Raised? ==> Occurs(r.fault, old(d.target), w)
  {
    ghost var from, before := |d.trace|, d.target;
    var fault, mode := CheckTarget(d, w);
    if fault.Some? {
      assert Switches(d.trace, from, |d.trace|, before, d.target);
      return Raised(fault.value);
    }
    d.Mkstemp(w.mkstemp);
    if !w.mkstemp {
      assert Switches(d.trace, from, |d.trace|, before, d.target);
      return Raised(MkstempFailed);
    }
    var ok := d.WriteText("\n", w.reserveCut);
    ghost var reserved := d.trace;
    assert Quiet(old(d.trace), reserved, before);
    if ok {
      r := RunAndWrite(d, mode, w);
    } else {
      assert Switches(d.trace, |reserved|, |d.trace|, before, d.target);
      r := Raised(ReserveWriteFailed);
    }
    ghost var ended := d.trace;
    var removed := d.Unlink(w.unlink);
    SwitchesAround(from, reserved, ended, d.trace, before, d.target);
    if !removed {
      r := Raised(UnlinkFailed);
    }
  }

  // A quiet stretch before and after does not change the picture.
  lemma SwitchesAround(from: nat, reserved: seq<Files>, ended: seq<Files>, trace: seq<Files>, old_: Entry, new_: Entry)
    requires from <= |reserved| && forall k :: from <= k < |reserved| ==> reserved[k].target == old_
    requires reserved <= ended && OldThenNew(ended, |reserved|, old_, new_)
    requires Quiet(ended, trace, new_)
    ensures OldThenNew(trace, from, old_, new_)
  {
    var switch: nat :| Switches(ended, |reserved|, switch, old_, new_);
    assert Switches(trace, from, switch, old_, new_);
  }
}
