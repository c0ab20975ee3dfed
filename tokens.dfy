/** The text side of the two data readers: `String.Split(' ')` on a line,
    reading a number some tokens after a keyword, and the token loop both
    readers run, which stops at the first exception. */
module Tokens {
  import opened Wrappers

  /** `s.Split(sep)`: the pieces between separators, in order. Two adjacent
      separators give an empty piece, so there is always one piece more
      than there are separators, and no piece holds a separator. */
  function Split(s: string, sep: char): (parts: seq<string>)
    ensures 1 <= |parts|
    ensures forall k :: 0 <= k < |parts| ==> sep !in parts[k]
    decreases |s|
  {
    if |s| == 0 then [""]
    else
      var rest := Split(s[1..], sep);
      if s[0] == sep then [""] + rest
      else [[s[0]] + rest[0]] + rest[1..]
  }

  /** `String.Join(sep, parts)`. */
  function Join(parts: seq<string>, sep: char): (s: string)
    requires 1 <= |parts|
    ensures parts[0] <= s
    decreases |parts|
  {
    if |parts| == 1 then parts[0] else parts[0] + [sep] + Join(parts[1..], sep)
  }

  /** Splitting loses nothing: joining the pieces back gives the line. */
  lemma {:induction false} JoinSplit(s: string, sep: char)
    ensures Join(Split(s, sep), sep) == s
    decreases |s|
  {
    if |s| != 0 {
      var rest := Split(s[1..], sep);
      JoinSplit(s[1..], sep);
      if s[0] == sep {
        assert ([""] + rest)[1..] == rest;
        assert [sep] + s[1..] == s;
      } else {
        var parts := [[s[0]] + rest[0]] + rest[1..];
        if |rest| == 1 {
          assert [s[0]] + s[1..] == s;
        } else {
          assert parts[1..] == rest[1..];
          assert Join(rest, sep) == rest[0] + [sep] + Join(rest[1..], sep);
          assert [s[0]] + rest[0] + [sep] + Join(rest[1..], sep) == [s[0]] + Join(rest, sep);
          assert [s[0]] + s[1..] == s;
        }
      }
    }
  }

  /** Pieces without separators are exactly what splitting their join gives
      back. */
  lemma {:induction false} SplitJoin(parts: seq<string>, sep: char)
    requires 1 <= |parts|
    requires forall k :: 0 <= k < |parts| ==> sep !in parts[k]
    ensures Split(Join(parts, sep), sep) == parts
    decreases |parts|
  {
    if |parts| == 1 {
      SplitWord(parts[0], sep);
    } else {
      SplitJoin(parts[1..], sep);
      SplitAfterWord(parts[0], Join(parts[1..], sep), sep);
      assert [parts[0]] + parts[1..] == parts;
    }
  }

  /** A word without separators is a single piece. */
  lemma {:induction false} SplitWord(w: string, sep: char)
    requires sep !in w
    ensures Split(w, sep) == [w]
    decreases |w|
  {
    if |w| != 0 {
      SplitWord(w[1..], sep);
      assert [w[0]] + w[1..] == w;
    }
  }

  /** A word and a separator in front of a text split into the word and the
      text's pieces. */
  lemma {:induction false} SplitAfterWord(w: string, t: string, sep: char)
    requires sep !in w
    ensures Split(w + [sep] + t, sep) == [w] + Split(t, sep)
    decreases |w|
  {
    var s := w + [sep] + t;
    if |w| == 0 {
      assert s[1..] == t;
    } else {
      assert s[1..] == w[1..] + [sep] + t;
      SplitAfterWord(w[1..], t, sep);
      assert [w[0]] + w[1..] == w;
    }
  }

  /** The exceptions of the readers: an `IndexOutOfRangeException` for a
      keyword too close to the end of its line, and a `FormatException` or
      `OverflowException` from `int.Parse`/`float.Parse`. */
  datatype ScanError = MissingToken(index: nat) | BadNumber(token: string)

  /** `Parse(parts[j])` with its exceptions: the token must exist and the
      foreign parser must accept it. */
  function NumberAt<T>(parts: seq<string>, j: nat, parse: string -> Option<T>): (r: Result<T, ScanError>)
    ensures r.Ok? <==> j < |parts| && parse(parts[j]).Some?
    ensures r.Ok? ==> Some(r.value) == parse(parts[j])
    ensures r.Err? && j < |parts| ==> r.error == BadNumber(parts[j])
    ensures r.Err? && |parts| <= j ==> r.error == MissingToken(j)
  {
    if |parts| <= j then Err(MissingToken(j))
    else match parse(parts[j])
      case None => Err(BadNumber(parts[j]))
      case Some(v) => Ok(v)
  }

  /** The first `n` iterations of a loop whose iteration `i` turns the state
      with `step(i, _)` or throws; the first exception ends the loop. */
  function Steps<S>(step: (nat, S) -> Result<S, ScanError>, n: nat, start: S): Result<S, ScanError> {
    if n == 0 then Ok(start)
    else match Steps(step, n - 1, start)
      case Err(e) => Err(e)
      case Ok(s) => step(n - 1, s)
  }

  /** An exception in iteration `i` is the outcome of every longer run. */
  lemma {:induction false} StepsStop<S>(step: (nat, S) -> Result<S, ScanError>, i: nat, n: nat, start: S)
    requires i < n
    requires Steps(step, i, start).Ok? && step(i, Steps(step, i, start).value).Err?
    ensures Steps(step, n, start) == step(i, Steps(step, i, start).value)
    decreases n
  {
    if n - 1 != i {
      StepsStop(step, i, n - 1, start);
    }
  }

  /** The run succeeds exactly when every iteration does from the state the
      earlier ones leave; a failed run failed in some iteration all of whose
      predecessors succeeded. */
  lemma {:induction false} StepsOkIff<S>(step: (nat, S) -> Result<S, ScanError>, n: nat, start: S)
    ensures Steps(step, n, start).Ok? <==>
            forall i :: 0 <= i < n ==> Steps(step, i, start).Ok? && step(i, Steps(step, i, start).value).Ok?
    decreases n
  {
    if n != 0 {
      StepsOkIff(step, n - 1, start);
    }
  }

  /** The last index below `n` where `p` holds, or -1. */
  function LastWhere(p: nat -> bool, n: nat): (r: int)
    ensures -1 <= r < n
    ensures 0 <= r ==> p(r)
    ensures forall j: nat :: r < j < n ==> !p(j)
  {
    if n == 0 then -1 else if p(n - 1) then n - 1 else LastWhere(p, n - 1)
  }
}
