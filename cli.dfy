/**
 * The two pure pieces of the command-line front end: the comment-stripping
 * loop of `readFile`, over the lines the scanner yields, and the mapping of
 * the assistant's error kinds to process exit codes in `handleError`.
 */
module Cli {
  import opened Text
  import opened CommitAssist
  import OpenAI

  /** A comment line: one whose first character is `#`. */
  predicate IsComment(line: string)
  {
    HasPrefix(line, "#")
  }

  /** The lines that are not comments, in their original order. */
  function Kept(lines: seq<string>): (kept: seq<string>)
    ensures |kept| <= |lines|
    ensures forall x :: x in kept <==> x in lines && !IsComment(x)
    ensures forall x {:trigger multiset(kept)[x]} :: multiset(kept)[x] == if IsComment(x) then 0 else multiset(lines)[x]
  {
    if |lines| == 0 then []
    else
      assert lines == lines[..|lines| - 1] + [lines[|lines| - 1]];
      if IsComment(lines[|lines| - 1]) then Kept(lines[..|lines| - 1])
    else Kept(lines[..|lines| - 1]) + [lines[|lines| - 1]]
  }

  /** The strings joined with no separator. */
  function Concat(parts: seq<string>): string
  {
    if |parts| == 0 then "" else Concat(parts[..|parts| - 1]) + parts[|parts| - 1]
  }

  /** The sum of the strings' lengths. */
  function TotalLength(parts: seq<string>): nat
  {
    if |parts| == 0 then 0 else TotalLength(parts[..|parts| - 1]) + |parts[|parts| - 1]|
  }

  lemma {:induction false} KeptAppend(a: seq<string>, b: seq<string>)
    ensures Kept(a + b) == Kept(a) + Kept(b)
    decreases |b|
  {
    if |b| == 0 {
      assert a + b == a;
    } else {
      var b' := b[..|b| - 1];
      assert (a + b)[..|a + b| - 1] == a + b';
      KeptAppend(a, b');
    }
  }

  lemma {:induction false} ConcatAppend(a: seq<string>, b: seq<string>)
    ensures Concat(a + b) == Concat(a) + Concat(b)
    decreases |b|
  {
    if |b| == 0 {
      assert a + b == a;
    } else {
      var b' := b[..|b| - 1];
      assert (a + b)[..|a + b| - 1] == a + b';
      ConcatAppend(a, b');
    }
  }

  lemma {:induction false} ConcatLength(parts: seq<string>)
    ensures |Concat(parts)| == TotalLength(parts)
  {
    if |parts| > 0 {
      ConcatLength(parts[..|parts| - 1]);
    }
  }

  /**
   * `readFile`'s loop over the scanner's lines: comment lines are skipped and
   * every other line is appended to the builder as it is.
   */
  method ReadFile(lines: seq<string>) returns (contents: string)
    ensures contents == Concat(Kept(lines))
    ensures |contents| == TotalLength(Kept(lines))
  {
    var sb := "";
    var i := 0;
    while i < |lines|
      invariant 0 <= i <= |lines|
      invariant sb == Concat(Kept(lines[..i]))
    {
      var currentLine := lines[i];
      assert lines[..i + 1][..i] == lines[..i];
      if IsComment(currentLine) {
        i := i + 1;
        continue;
      }
      sb := sb + currentLine;
      i := i + 1;
    }
    assert lines[..i] == lines;
    ConcatLength(Kept(lines));
    return sb;
  }

  /** A comment line adds nothing, wherever it stands. */
  lemma CommentLineDropped(before: seq<string>, line: string, after: seq<string>)
    requires IsComment(line)
    ensures Concat(Kept(before + [line] + after)) == Concat(Kept(before + after))
  {
    KeptAppend(before + [line], after);
    KeptAppend(before, [line]);
    KeptAppend(before, after);
    assert Kept([line]) == [];
  }

  /**
   * Only a leading `#` marks a comment: any other line, including one with a
   * `#` further in, is kept verbatim between its neighbours' text.
   */
  lemma OtherLineKeptVerbatim(before: seq<string>, line: string, after: seq<string>)
    requires |line| == 0 || line[0] != '#'
    ensures Concat(Kept(before + [line] + after)) == Concat(Kept(before)) + line + Concat(Kept(after))
  {
    assert !IsComment(line);
    KeptAppend(before + [line], after);
    KeptAppend(before, [line]);
    assert Kept([line]) == [line] by {
      assert [line][..0] == [];
    }
    ConcatAppend(Kept(before) + [line], Kept(after));
    ConcatAppend(Kept(before), [line]);
    assert Concat([line]) == line by {
      assert [line][..0] == [];
    }
  }

  /** An empty file, or one made only of comments, reads as the empty string. */
  lemma {:induction false} OnlyCommentsYieldEmpty(lines: seq<string>)
    requires forall i :: 0 <= i < |lines| ==> IsComment(lines[i])
    ensures Concat(Kept(lines)) == ""
  {
    if |lines| > 0 {
      OnlyCommentsYieldEmpty(lines[..|lines| - 1]);
    }
  }

  /** The exit codes of `handleError`. */
  const ExitUnexpectedState: int := 2
  const ExitUnsure: int := 3
  const ExitTimeout: int := 4
  const ExitUnknown: int := 5

  /** `handleError`: the exit code the process ends with for error `e`. */
  function HandleError(e: AssistError): (code: int)
    ensures code == ExitUnsure <==> e.UnsureError?
    ensures code == ExitUnexpectedState <==> e.UnexpectedStateError?
    ensures code == ExitTimeout <==> e.RequestError? && WrapsDeadline(e)
    ensures code == ExitUnknown <==> e.RequestError? && !WrapsDeadline(e)
  {
    match e
    case UnsureError(_) => ExitUnsure
    case UnexpectedStateError(_) => ExitUnexpectedState
    case RequestError(_) => if WrapsDeadline(e) then ExitTimeout else ExitUnknown
  }

  /** The kinds of error the CLI tells apart. */
  datatype ErrorKind = Unsure | UnexpectedState | Timeout | Unknown

  function KindOf(e: AssistError): ErrorKind
  {
    match e
    case UnsureError(_) => Unsure
    case UnexpectedStateError(_) => UnexpectedState
    case RequestError(cause) => if OpenAI.WrapsDeadlineExceeded(cause) then Timeout else Unknown
  }

  /** Exit codes tell the four kinds apart, and nothing else about the error matters. */
  lemma ExitCodeDeterminedByKind(a: AssistError, b: AssistError)
    ensures HandleError(a) == HandleError(b) <==> KindOf(a) == KindOf(b)
  {
  }

  /** A request that timed out in transport ends with the timeout exit code, not the generic one. */
  lemma TimeoutReachesExitCode(reason: string)
    ensures var r := Classify(OpenAI.HandleOutcome(OpenAI.TransportFailure(reason, true), Model));
            r.Failure? && HandleError(r.error) == ExitTimeout
  {
  }
}
