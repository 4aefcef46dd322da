/** The HWM-gated read that every consume handler performs over an append-only
    log file. Lines are numbered from 1 (`msg_offset = current_offset + 1`); the
    high-water mark is a count, and a line at position p is served when p lies
    between the handler's lower bound and the HWM. A line that does not decode
    is skipped but still uses up its position. */
module Reading {
  import opened Json

  /** One line of a log file: a decodable JSON document or a corrupt line. */
  datatype Line = Entry(value: Json) | Corrupt

  /** A served message: its 1-based position and its decoded content. */
  datatype Delivered = Delivered(offset: int, data: Json)

  /** The lines of a log file, by name, for a process with several files;
      a file not yet created reads as empty (appending creates it). */
  function LogOf(logs: map<string, seq<Line>>, file: string): (r: seq<Line>)
    ensures file !in logs ==> r == []
    ensures file in logs ==> r == logs[file]
  {
    if file in logs then logs[file] else []
  }

  /** An integer query argument read with `int(request.args.get(name, default))`:
      absent, a string `int` accepts, or one it rejects with `ValueError`. */
  datatype IntArg = Missing | Parsed(n: int) | NotAnInt

  function IntArgOr(a: IntArg, default: int): (r: Option<int>)
    ensures r.None? <==> a.NotAnInt?
    ensures a.Missing? ==> r == Some(default)
    ensures a.Parsed? ==> r == Some(a.n)
  {
    match a
    case Missing => Some(default)
    case Parsed(n) => Some(n)
    case NotAnInt => None
  }

  /** The messages at positions p with `from <= p <= hwm`, in file order.
      A handler with an exclusive lower bound passes `offset + 1`. */
  function Window(log: seq<Line>, from: int, hwm: int): (r: seq<Delivered>)
    ensures |r| <= |log|
    ensures forall i :: 0 <= i < |r| ==>
      from <= r[i].offset <= hwm && 1 <= r[i].offset <= |log| && log[r[i].offset - 1] == Entry(r[i].data)
    ensures forall i, j :: 0 <= i < j < |r| ==> r[i].offset < r[j].offset
    decreases |log|
  {
    if log == [] then []
    else
      var p := |log|;
      var earlier := Window(log[..p - 1], from, hwm);
      if from <= p <= hwm && log[p - 1].Entry? then earlier + [Delivered(p, log[p - 1].value)] else earlier
  }

  /** Every decodable line in range is served: the converse of Window's soundness. */
  lemma {:induction false} WindowComplete(log: seq<Line>, from: int, hwm: int, p: int)
    requires 1 <= p <= |log| && from <= p <= hwm && log[p - 1].Entry?
    ensures Delivered(p, log[p - 1].value) in Window(log, from, hwm)
    decreases |log|
  {
    if p < |log| {
      WindowComplete(log[..|log| - 1], from, hwm, p);
    }
  }

  /** Nothing is served when the lower bound is above the HWM (for an exclusive
      bound: when `offset >= hwm`), in particular when the HWM is absent (0). */
  lemma WindowEmptyAboveHwm(log: seq<Line>, from: int, hwm: int)
    requires from > hwm
    ensures Window(log, from, hwm) == []
  {
  }

  /** Lines past the HWM do not matter: reading stops at the HWM. */
  lemma {:induction false} WindowIgnoresBeyondHwm(log: seq<Line>, from: int, hwm: int, k: nat)
    requires hwm <= k <= |log|
    ensures Window(log, from, hwm) == Window(log[..k], from, hwm)
    decreases |log|
  {
    if k < |log| {
      assert !(|log| <= hwm);
      assert log[..|log| - 1][..k] == log[..k];
      WindowIgnoresBeyondHwm(log[..|log| - 1], from, hwm, k);
    } else {
      assert log[..k] == log;
    }
  }

  /** An uncommitted append (one beyond the HWM) is invisible to readers. */
  lemma UncommittedAppendInvisible(log: seq<Line>, line: Line, from: int, hwm: int)
    requires hwm <= |log|
    ensures Window(log + [line], from, hwm) == Window(log, from, hwm)
  {
    assert (log + [line])[..|log|] == log;
  }

  /** Committing one appended line extends what readers see by exactly that line. */
  lemma CommitExtendsWindow(log: seq<Line>, v: Json, from: int)
    requires from <= |log| + 1
    ensures Window(log + [Entry(v)], from, |log| + 1) == Window(log, from, |log|) + [Delivered(|log| + 1, v)]
  {
    var log' := log + [Entry(v)];
    assert log'[..|log'| - 1] == log;
    WindowHwmAtLength(log, from, |log| + 1);
  }

  /** Raising the HWM beyond the log length changes nothing. */
  lemma {:induction false} WindowHwmAtLength(log: seq<Line>, from: int, hwm: int)
    requires hwm >= |log|
    ensures Window(log, from, hwm) == Window(log, from, |log|)
    decreases |log|
  {
    if log != [] {
      WindowHwmAtLength(log[..|log| - 1], from, hwm);
      WindowHwmAtLength(log[..|log| - 1], from, |log|);
    }
  }

  /** The read loop of the consume handlers: walk the file line by line, stop at
      the first position past the HWM, keep decodable lines at or above `from`. */
  method ReadCommitted(log: seq<Line>, from: int, hwm: int) returns (messages: seq<Delivered>)
    ensures messages == Window(log, from, hwm)
  {
    messages := [];
    var current := 0;
    while current < |log|
      invariant 0 <= current <= |log|
      invariant current <= hwm || current == 0
      invariant messages == Window(log[..current], from, hwm)
    {
      var msgOffset := current + 1;
      if msgOffset > hwm {
        break;
      }
      if msgOffset >= from {
        match log[current]
        case Entry(v) =>
          messages := messages + [Delivered(msgOffset, v)];
        case Corrupt =>
      }
      assert log[..current + 1][..current] == log[..current];
      current := current + 1;
    }
    if current == |log| {
      assert log[..current] == log;
    } else {
      WindowIgnoresBeyondHwm(log, from, hwm, current);
    }
  }
}
